/** PresetExtensions: load a preset or a range of presets, save a builder's preset, delete a preset. */
module Presets {
  import opened Wrappers
  import opened Numerics
  import opened Strings
  import opened Json
  import opened PresetBuilders

  /** The lowest `ps` the load commands send: -1 asks the device for no preset. */
  const MinLoadId: int := -1

  /** `{ps: Math.Clamp(presetId, -1, 250)}`. */
  function LoadPreset(presetId: Int32): (r: Json)
    ensures HasOnlyKey(r, "ps")
    ensures Field(r, "ps") == Some(JInt(Clamp(presetId, MinLoadId, MaxPresetId)))
    ensures MinLoadId <= Clamp(presetId, MinLoadId, MaxPresetId) <= MaxPresetId
  {
    KeysSingle("ps", JInt(Clamp(presetId, MinLoadId, MaxPresetId)));
    JObj([("ps", JInt(Clamp(presetId, MinLoadId, MaxPresetId)))])
  }

  /** The `ps` text of a preset cycle: "S~E~", then "r" when shuffling. */
  function RangeCode(startPresetId: Int32, endPresetId: Int32, shuffle: bool): (s: string)
    ensures s == IntToString(Clamp(startPresetId, MinLoadId, MaxPresetId)) + "~"
                 + IntToString(Clamp(endPresetId, MinLoadId, MaxPresetId)) + "~" + (if shuffle then "r" else "")
    ensures multiset(s)['~'] == 2
    ensures s[|s| - 1] == (if shuffle then 'r' else '~')
    ensures StartsWith(s, IntToString(Clamp(startPresetId, MinLoadId, MaxPresetId)))
  {
    var first := IntToString(Clamp(startPresetId, MinLoadId, MaxPresetId));
    var last := IntToString(Clamp(endPresetId, MinLoadId, MaxPresetId));
    IntToStringAvoids(Clamp(startPresetId, MinLoadId, MaxPresetId), '~');
    IntToStringAvoids(Clamp(endPresetId, MinLoadId, MaxPresetId), '~');
    RangeText(first, last, if shuffle then "r" else "")
  }

  /** "A~B~T": the two ids and the tail around two separators. */
  function RangeText(first: string, last: string, tail: string): (s: string)
    requires '~' !in first && '~' !in last && '~' !in tail && |tail| <= 1
    ensures s == first + "~" + last + "~" + tail
    ensures multiset(s)['~'] == 2
    ensures s[|s| - 1] == (if tail == [] then '~' else tail[0])
    ensures StartsWith(s, first)
  {
    var s := first + "~" + last + "~" + tail;
    assert multiset(first)['~'] == 0 && multiset(last)['~'] == 0 && multiset(tail)['~'] == 0;
    assert multiset(s) == multiset(first) + multiset("~") + multiset(last) + multiset("~") + multiset(tail);
    assert s[..|first|] == first;
    s
  }

  /** `{ps: "S~E~"}` or `{ps: "S~E~r"}`, S and E each clamped to -1..250. */
  function LoadPresetRange(startPresetId: Int32, endPresetId: Int32, shuffle: bool): (r: Json)
    ensures HasOnlyKey(r, "ps")
    ensures Field(r, "ps") == Some(JStr(RangeCode(startPresetId, endPresetId, shuffle)))
  {
    KeysSingle("ps", JStr(RangeCode(startPresetId, endPresetId, shuffle)));
    JObj([("ps", JStr(RangeCode(startPresetId, endPresetId, shuffle)))])
  }

  /** The first position of c in s, or |s| when there is none. */
  function IndexOf(s: string, c: char): (r: nat)
    ensures r <= |s|
    ensures r < |s| ==> s[r] == c
    ensures forall i :: 0 <= i < r ==> s[i] != c
  {
    if s == [] then 0 else if s[0] == c then 0 else 1 + IndexOf(s[1..], c)
  }

  /** A text of the form "S~E~" or "S~E~r", read back into both ids and the shuffle flag. */
  function ParseRange(s: string): Option<(int, int, bool)>
  {
    var i := IndexOf(s, '~');
    if i == |s| then None
    else
      var rest := s[i + 1..];
      var j := IndexOf(rest, '~');
      if j == |rest| then None
      else
        var first, last, tail := ParseInt(s[..i]), ParseInt(rest[..j]), rest[j + 1..];
        if first.Some? && last.Some? && (tail == "" || tail == "r") then Some((first.value, last.value, tail == "r"))
        else None
  }

  /** The first separator follows the text that contains none. */
  lemma IndexOfAfter(x: string, y: string)
    requires '~' !in x
    ensures IndexOf(x + "~" + y, '~') == |x|
  {
    var s := x + "~" + y;
    assert s[|x|] == '~';
    assert forall i :: 0 <= i < |x| ==> s[i] == x[i];
  }

  /** Any "A~B~T" with separator-free A and B splits back at its two separators. */
  lemma ParseRangeSplits(first: string, last: string, tail: string)
    requires '~' !in first && '~' !in last
    ensures ParseRange(first + "~" + last + "~" + tail)
         == if ParseInt(first).Some? && ParseInt(last).Some? && (tail == "" || tail == "r")
            then Some((ParseInt(first).value, ParseInt(last).value, tail == "r"))
            else None
  {
    var rest := last + "~" + tail;
    var s := first + "~" + rest;
    assert s == first + "~" + last + "~" + tail;
    IndexOfAfter(first, rest);
    assert s[..|first|] == first && s[|first| + 1..] == rest;
    IndexOfAfter(last, tail);
    assert rest[..|last|] == last && rest[|last| + 1..] == tail;
  }

  /** The range text determines both clamped ids and the shuffle flag. */
  lemma RangeCodeRoundTrip(startPresetId: Int32, endPresetId: Int32, shuffle: bool)
    ensures ParseRange(RangeCode(startPresetId, endPresetId, shuffle))
         == Some((Clamp(startPresetId, MinLoadId, MaxPresetId), Clamp(endPresetId, MinLoadId, MaxPresetId), shuffle))
  {
    var a, b := Clamp(startPresetId, MinLoadId, MaxPresetId), Clamp(endPresetId, MinLoadId, MaxPresetId);
    IntToStringAvoids(a, '~');
    IntToStringAvoids(b, '~');
    ParseIntToString(a);
    ParseIntToString(b);
    ParseRangeSplits(IntToString(a), IntToString(b), if shuffle then "r" else "");
  }

  /** `SavePresetAsync(builder)`: the builder's object as it stands when the call is made. */
  function SavePreset(builder: PresetBuilder): (r: Json)
    reads builder, builder.preset
    ensures r.JObj? && r.props == builder.preset.props
    ensures builder.Valid() ==> Field(r, "psave").Some?
  {
    LookupKeys(builder.preset.props, "psave");
    JObj(builder.preset.props)
  }

  /** `{pdel: Math.Clamp(presetId, 1, 250)}`. */
  function DeletePreset(presetId: Int32): (r: Json)
    ensures HasOnlyKey(r, "pdel")
    ensures Field(r, "pdel") == Some(JInt(Clamp(presetId, MinPresetId, MaxPresetId)))
    ensures MinPresetId <= Clamp(presetId, MinPresetId, MaxPresetId) <= MaxPresetId
  {
    KeysSingle("pdel", JInt(Clamp(presetId, MinPresetId, MaxPresetId)));
    JObj([("pdel", JInt(Clamp(presetId, MinPresetId, MaxPresetId)))])
  }

  /** Deleting never targets slot -1 or 0, which loading accepts: the two clamps differ exactly below 1. */
  lemma DeleteNarrowerThanLoad(presetId: Int32)
    ensures Field(DeletePreset(presetId), "pdel") == Field(LoadPreset(presetId), "ps") <==> presetId >= MinPresetId
  {
  }
}
