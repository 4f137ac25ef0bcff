/**
 * SegmentBuilder: a list of segment objects that AddSegment appends to and
 * every setter edits at its last element.
 */
module SegmentBuilders {
  import opened Wrappers
  import opened Errors
  import opened Numerics
  import opened Strings
  import opened Json
  import opened Models
  import opened ClientAccess
  import opened HexColors
  import opened Catalogs
  import opened SegmentUtils
  import opened WebsocketClient

  /** A segment's `id`, `start` and `stop`, written through the JObject indexer in that order. */
  function SegmentRecord(id: int, start: int, stop: int): (r: Props)
    ensures Keys(r) == {"id", "start", "stop"}
    ensures Lookup(r, "id") == Some(JInt(id)) && Lookup(r, "start") == Some(JInt(start)) && Lookup(r, "stop") == Some(JInt(stop))
  {
    var a := Put([], "id", JInt(id));
    var b := Put(a, "start", JInt(start));
    PutKeys([], "id", JInt(id));
    PutKeys(a, "start", JInt(start));
    PutKeys(b, "stop", JInt(stop));
    Put(b, "stop", JInt(stop))
  }

  /**
   * The segment `AddSegment(start, stop, name, id)` appends to a builder that
   * holds `count` segments: Info is required, the capacity is MaxSegments, and
   * the id, start and stop are clamped (the stop against the raw start).
   */
  function NewSegment(info: Option<Info>, count: nat, start: Int32, stop: Int32, name: Option<string>, id: Option<Int32>): (r: Result<Props, Error>)
    ensures info.None? ==> r == Failure(InfoNotReceived)
    ensures info.Some? && count >= info.value.maxSegments ==> r == Failure(SegmentLimitReached(info.value.maxSegments))
    ensures info.Some? && count < info.value.maxSegments ==>
              (r.Failure? <==> Pred32(info.value.ledCount) < 0 || start > info.value.ledCount)
    ensures info.Some? && count < info.value.maxSegments && r.Failure? ==> r.error == InvalidClampRange
    ensures r.Success? ==>
              var i := info.value;
              var requested := if id.Some? then id.value as int else count;
              && Lookup(r.value, "id") == Some(JInt(Clamp(requested, 0, i.maxSegments - 1)))
              && Lookup(r.value, "start") == Some(JInt(Clamp(start, 0, Pred32(i.ledCount))))
              && Lookup(r.value, "stop") == Some(JInt(Clamp(stop, start, i.ledCount)))
              && start <= Clamp(stop, start, i.ledCount) <= i.ledCount
              && ("n" in Keys(r.value) <==> !IsNullOrWhiteSpace(name))
              && (!IsNullOrWhiteSpace(name) ==> Lookup(r.value, "n") == Some(JStr(name.value)))
              && Keys(r.value) <= {"id", "start", "stop", "n"}
  {
    match GetInfoOrThrow(info)
    case Failure(e) => Failure(e)
    case Success(i) =>
      if count >= i.maxSegments then Failure(SegmentLimitReached(i.maxSegments))
      else
        var requested := if id.Some? then id.value as int else count;
        match CheckedClamp(start, 0, Pred32(i.ledCount))
        case Failure(e) => Failure(e)
        case Success(s) =>
          match CheckedClamp(stop, start, i.ledCount)
          case Failure(e) => Failure(e)
          case Success(t) =>
            var segment := SegmentRecord(Clamp(requested, 0, i.maxSegments - 1), s, t);
            if !IsNullOrWhiteSpace(name) then
              PutKeys(segment, "n", JStr(name.value));
              Success(Put(segment, "n", JStr(name.value)))
            else Success(segment)
  }

  function Last(segs: seq<Props>): Props
    requires segs != []
  {
    segs[|segs| - 1]
  }

  /**
   * How a setter changes the list: refused on an empty builder, otherwise
   * `GetLastSegmentOrThrow()[k] = v` — the other segments stay as they are.
   */
  predicate Stored(before: seq<Props>, after: seq<Props>, r: Outcome<Error>, k: string, v: Json)
  {
    if before == [] then r == Fail(NoSegmentsAdded) && after == before
    else r == Pass && SameButLast(before, after) && Last(after) == Put(Last(before), k, v)
  }

  /** Both lists have the same length and agree on everything but the last segment. */
  predicate SameButLast(before: seq<Props>, after: seq<Props>)
  {
    before != [] && |after| == |before| && after[..|after| - 1] == before[..|before| - 1]
  }

  /** The colour temperatures `ColorTemperature` accepts: a relative 0-255 or Kelvin 1900-10091. */
  predicate ValidColorTemperature(v: int)
  {
    (0 <= v <= 255) || (1900 <= v <= 10091)
  }

  /**
   * The `col` array of `Color(primary, secondary, tertiary)`: the primary (Black
   * if Empty), then each non-Empty one of the other two, in that order.
   */
  function ColorList(primary: Color, secondary: Color, tertiary: Color): (r: seq<Json>)
    ensures |r| == 1 + (if secondary.Empty? then 0 else 1) + (if tertiary.Empty? then 0 else 1)
    ensures r[0] == JStr(ToHexString(if primary.Empty? then Black else primary, false))
    ensures !secondary.Empty? ==> r[1] == JStr(ToHexString(secondary, false))
    ensures !tertiary.Empty? ==> r[|r| - 1] == JStr(ToHexString(tertiary, false))
    ensures forall i :: 0 <= i < |r| ==> r[i].JStr? && |r[i].s| == 6
  {
    var p := HexJson(if primary == Empty then Black else primary);
    var colors := if secondary != Empty then [p, HexJson(secondary)] else [p];
    if tertiary != Empty then colors + [HexJson(tertiary)] else colors
  }

  /** A colour as the string `ToHexString()` gives: six hex digits, no hash. */
  function HexJson(c: Color): (r: Json)
    ensures r == JStr(ToHexString(c, false)) && |r.s| == 6
  {
    JStr(ToHexString(c, false))
  }

  /** An Empty primary is sent as black. */
  lemma EmptyPrimaryIsBlack(secondary: Color, tertiary: Color)
    ensures ColorList(Empty, secondary, tertiary)[0] == JStr("000000")
  {
    var z := Hex2(0);
    assert z == [HexDigit(0), HexDigit(0)];
  }

  /** The colour `SetDefaults(true)` uses: `Color.FromArgb(255, 160, 0)`. */
  const DefaultColor: Color := FromRgb(255, 160, 0)

  lemma DefaultColorHex()
    ensures ToHexString(DefaultColor, false) == "FFA000"
  {
    assert Hex2(255) == [HexDigit(15), HexDigit(15)];
    assert Hex2(160) == [HexDigit(10), HexDigit(0)];
    assert Hex2(0) == [HexDigit(0), HexDigit(0)];
  }

  /** Group(0), Spacing(0), Offset(0) on the last segment. */
  function LayoutOn(p: Props): Props
  {
    Put(Put(Put(p, "grp", JInt(0)), "spc", JInt(0)), "of", JInt(0))
  }

  /** Effect(0) once its clamp succeeded (the clamped id 0 is 0), Speed(128), Intensity(128). */
  function EffectOn(p: Props): Props
  {
    Put(Put(Put(p, "fx", JInt(0)), "sx", JInt(128)), "ix", JInt(128))
  }

  /** Palette(0) once its clamp succeeded, Selected(true), Reverse(false), On(true), Brightness(255). */
  function SelectionOn(p: Props): Props
  {
    Put(Put(Put(Put(Put(p, "pal", JInt(0)), "sel", JBool(true)), "rev", JBool(false)), "on", JBool(true)), "bri", JInt(255))
  }

  /** Mirror(false), ColorTemperature(255), Freeze(false), Set(0), EffectCustomSlider1(0). */
  function ModeOn(p: Props): Props
  {
    Put(Put(Put(Put(Put(p, "mi", JBool(false)), "cct", JInt(255)), "frz", JBool(false)), "set", JInt(0)), "c1", JInt(0))
  }

  /** EffectCustomSlider2(0), EffectCustomSlider3(0) and the three effect options off. */
  function OptionsOn(p: Props): Props
  {
    Put(Put(Put(Put(Put(p, "c2", JInt(0)), "c3", JInt(0)), "o1", JBool(false)), "o2", JBool(false)), "o3", JBool(false))
  }

  /** Palette(0) through EffectOption3(false), then the colours when asked for. */
  function RemainingOn(p: Props, setColor: bool): Props
  {
    var q := OptionsOn(ModeOn(SelectionOn(p)));
    if setColor then Put(q, "col", JArr(ColorList(DefaultColor, DefaultColor, DefaultColor))) else q
  }

  /** The last segment after SetDefaults(setColor): a failing Effect or Palette clamp stops the run. */
  function DefaultsOn(p: Props, info: Option<Info>, setColor: bool): Props
  {
    if ClampId(info, Effects, 0).Failure? then LayoutOn(p)
    else if ClampId(info, Palettes, 0).Failure? then EffectOn(LayoutOn(p))
    else RemainingOn(EffectOn(LayoutOn(p)), setColor)
  }

  /** The id SetDefaults asks for, 0, is its own clamp whenever the catalog is non-empty. */
  lemma ClampZero(info: Option<Info>, c: Catalog)
    ensures ClampId(info, c, 0).Success? ==> ClampId(info, c, 0) == Success(0)
  {
  }

  /** The outcome of SetDefaults on a non-empty builder. */
  function DefaultsOutcome(info: Option<Info>): (r: Outcome<Error>)
    ensures info.None? ==> r == Fail(InfoNotReceived)
    ensures r.Fail? ==> r.error in {InfoNotReceived, InvalidClampRange}
    ensures r.Pass? <==> info.Some? && LastId(info.value, Effects) >= 0 && LastId(info.value, Palettes) >= 0
  {
    if ClampId(info, Effects, 0).Failure? then Fail(ClampId(info, Effects, 0).error)
    else if ClampId(info, Palettes, 0).Failure? then Fail(ClampId(info, Palettes, 0).error)
    else Pass
  }

  /** The value a complete SetDefaults(setColor) leaves at key k, or None for a key it does not write. */
  function DefaultValue(k: string, setColor: bool): Option<Json>
  {
    if k == "col" && setColor then Some(JArr([JStr("FFA000"), JStr("FFA000"), JStr("FFA000")]))
    else if k in {"pal", "set", "c1", "c2", "c3"} then Some(JInt(0))
    else if k in {"sel", "on"} then Some(JBool(true))
    else if k in {"rev", "mi", "frz", "o1", "o2", "o3"} then Some(JBool(false))
    else if k in {"bri", "cct"} then Some(JInt(255))
    else if k in {"grp", "spc", "of", "fx"} then Some(JInt(0))
    else if k in {"sx", "ix"} then Some(JInt(128))
    else None
  }

  /**
   * After a complete SetDefaults the last segment holds the default of every
   * key it writes (the colours as "FFA000") and keeps every other property.
   */
  lemma DefaultsComplete(p: Props, info: Option<Info>, setColor: bool, k: string)
    requires DefaultsOutcome(info).Pass?
    ensures Lookup(DefaultsOn(p, info, setColor), k) == if DefaultValue(k, setColor).Some? then DefaultValue(k, setColor) else Lookup(p, k)
  {
    AllStagesLookup(p, setColor, k);
  }

  lemma AllStagesLookup(p: Props, setColor: bool, k: string)
    ensures Lookup(RemainingOn(EffectOn(LayoutOn(p)), setColor), k) == if DefaultValue(k, setColor).Some? then DefaultValue(k, setColor) else Lookup(p, k)
  {
    var e := EffectOn(LayoutOn(p));
    FirstStagesLookup(p, k);
    LaterStagesLookup(e, k);
    DefaultColors();
  }

  /** The three colours of SetDefaults(true). */
  lemma DefaultColors()
    ensures ColorList(DefaultColor, DefaultColor, DefaultColor) == [JStr("FFA000"), JStr("FFA000"), JStr("FFA000")]
  {
    DefaultColorHex();
  }

  /** Group through Intensity. */
  lemma FirstStagesLookup(p: Props, k: string)
    ensures Lookup(EffectOn(LayoutOn(p)), k) ==
              if k in {"grp", "spc", "of", "fx"} then Some(JInt(0)) else if k in {"sx", "ix"} then Some(JInt(128)) else Lookup(p, k)
  {
    LayoutOnLookup(p, k);
    EffectOnLookup(LayoutOn(p), k);
  }

  /** Palette through EffectOption3. */
  lemma LaterStagesLookup(p: Props, k: string)
    ensures Lookup(OptionsOn(ModeOn(SelectionOn(p))), k) ==
              if k in {"pal", "set", "c1", "c2", "c3"} then Some(JInt(0))
              else if k in {"sel", "on"} then Some(JBool(true))
              else if k in {"rev", "mi", "frz", "o1", "o2", "o3"} then Some(JBool(false))
              else if k in {"bri", "cct"} then Some(JInt(255))
              else Lookup(p, k)
  {
    SelectionOnLookup(p, k);
    ModeOnLookup(SelectionOn(p), k);
    OptionsOnLookup(ModeOn(SelectionOn(p)), k);
  }

  lemma LayoutOnLookup(p: Props, k: string)
    ensures Lookup(LayoutOn(p), k) == if k in {"grp", "spc", "of"} then Some(JInt(0)) else Lookup(p, k)
  {
  }

  lemma EffectOnLookup(p: Props, k: string)
    ensures Lookup(EffectOn(p), k) == if k == "fx" then Some(JInt(0)) else if k in {"sx", "ix"} then Some(JInt(128)) else Lookup(p, k)
  {
  }

  lemma SelectionOnLookup(p: Props, k: string)
    ensures Lookup(SelectionOn(p), k) ==
              if k == "pal" then Some(JInt(0)) else if k in {"sel", "on"} then Some(JBool(true))
              else if k == "rev" then Some(JBool(false)) else if k == "bri" then Some(JInt(255)) else Lookup(p, k)
  {
  }

  lemma ModeOnLookup(p: Props, k: string)
    ensures Lookup(ModeOn(p), k) ==
              if k in {"mi", "frz"} then Some(JBool(false)) else if k == "cct" then Some(JInt(255))
              else if k in {"set", "c1"} then Some(JInt(0)) else Lookup(p, k)
  {
  }

  lemma OptionsOnLookup(p: Props, k: string)
    ensures Lookup(OptionsOn(p), k) ==
              if k in {"c2", "c3"} then Some(JInt(0)) else if k in {"o1", "o2", "o3"} then Some(JBool(false)) else Lookup(p, k)
  {
  }

  /** When the Effect clamp throws, only group, spacing and offset were written. */
  lemma DefaultsStopAtEffect(p: Props, info: Option<Info>, setColor: bool, k: string)
    requires ClampId(info, Effects, 0).Failure?
    ensures Lookup(DefaultsOn(p, info, setColor), k) == if k in {"grp", "spc", "of"} then Some(JInt(0)) else Lookup(p, k)
  {
  }

  /** When the Palette clamp throws, the layout and the effect settings were written, and nothing after. */
  lemma DefaultsStopAtPalette(p: Props, info: Option<Info>, setColor: bool, k: string)
    requires ClampId(info, Effects, 0).Success? && ClampId(info, Palettes, 0).Failure?
    ensures Lookup(DefaultsOn(p, info, setColor), k) ==
              if k in {"grp", "spc", "of", "fx"} then Some(JInt(0))
              else if k in {"sx", "ix"} then Some(JInt(128))
              else Lookup(p, k)
  {
  }

  /** The items of a `seg` array: one JObject per segment, in order. */
  function AsItems(segs: seq<Props>): (r: seq<Json>)
    ensures |r| == |segs| && forall i :: 0 <= i < |r| ==> r[i] == JObj(segs[i])
  {
    seq(|segs|, i requires 0 <= i < |segs| => JObj(segs[i]))
  }

  /** `BuildSplit` on a list: one `{"seg": [s]}` per segment. */
  function SplitOf(segs: seq<Props>): (r: seq<Json>)
    ensures |r| == |segs| && forall i :: 0 <= i < |r| ==> r[i] == SegCommand([JObj(segs[i])])
  {
    seq(|segs|, i requires 0 <= i < |segs| => SegCommand([JObj(segs[i])]))
  }

  /** The `seg` arrays of a list of segment commands, concatenated. */
  function SegItems(payloads: seq<Json>): seq<Json>
    decreases |payloads|
  {
    if payloads == [] then []
    else
      var p := payloads[|payloads| - 1];
      var items := if p.JObj? && |p.props| > 0 && p.props[0].1.JArr? then p.props[0].1.items else [];
      SegItems(payloads[..|payloads| - 1]) + items
  }

  /** Sending the split payloads one after another sends the same segments, in the same order, as Build. */
  lemma {:induction false} SplitCoversBuild(segs: seq<Props>)
    ensures SegItems(SplitOf(segs)) == AsItems(segs)
    decreases |segs|
  {
    if segs != [] {
      var init := segs[..|segs| - 1];
      SplitCoversBuild(init);
      assert SplitOf(segs)[..|segs| - 1] == SplitOf(init);
      assert AsItems(segs) == AsItems(init) + [JObj(segs[|segs| - 1])];
    }
  }

  class SegmentBuilder {
    const client: WledWebsocketClient
    /** `_segments`. */
    var segments: seq<Props>

    constructor (client: WledWebsocketClient)
      ensures this.client == client && segments == []
    {
      this.client := client;
      segments := [];
    }

    /** `AddSegment(start, stop, name, id)`. */
    method AddSegment(start: Int32, stop: Int32, name: Option<string>, id: Option<Int32>) returns (r: Outcome<Error>)
      modifies this
      ensures var s := NewSegment(client.info, |old(segments)|, start, stop, name, id);
              && (r.Pass? <==> s.Success?)
              && (r.Fail? ==> r.error == s.error && segments == old(segments))
              && (r.Pass? ==> segments == old(segments) + [s.value])
    {
      var segment := NewSegment(client.info, |segments|, start, stop, name, id);
      if segment.Failure? {
        return Fail(segment.error);
      }
      segments := segments + [segment.value];
      return Pass;
    }

    /** `GetLastSegmentOrThrow()`. */
    function GetLastSegmentOrThrow(): (r: Result<Props, Error>)
      reads this
      ensures r.Failure? <==> segments == []
      ensures r.Failure? ==> r.error == NoSegmentsAdded
      ensures r.Success? ==> r.value == segments[|segments| - 1]
    {
      if segments == [] then Failure(NoSegmentsAdded) else Success(segments[|segments| - 1])
    }

    /** `GetLastSegmentOrThrow()[k] = v`. */
    method SetLast(k: string, v: Json) returns (r: Outcome<Error>)
      modifies this
      ensures Stored(old(segments), segments, r, k, v)
    {
      var last := GetLastSegmentOrThrow();
      if last.Failure? {
        return Fail(last.error);
      }
      segments := segments[|segments| - 1 := Put(last.value, k, v)];
      return Pass;
    }

    method Group(group: Int32) returns (r: Outcome<Error>)
      modifies this
      ensures Stored(old(segments), segments, r, "grp", JInt(Clamp(group, 0, 255)))
    {
      r := SetLast("grp", JInt(Clamp(group, 0, 255)));
    }

    method Spacing(spacing: Int32) returns (r: Outcome<Error>)
      modifies this
      ensures Stored(old(segments), segments, r, "spc", JInt(Clamp(spacing, 0, 255)))
    {
      r := SetLast("spc", JInt(Clamp(spacing, 0, 255)));
    }

    /** `Offset(offset)`: stored as given, not clamped. */
    method Offset(offset: Int32) returns (r: Outcome<Error>)
      modifies this
      ensures Stored(old(segments), segments, r, "of", JInt(offset))
    {
      r := SetLast("of", JInt(offset));
    }

    /** `Color(primary, secondary, tertiary)`; the C# defaults of the last two are Empty. */
    method Color(primary: HexColors.Color, secondary: HexColors.Color, tertiary: HexColors.Color) returns (r: Outcome<Error>)
      modifies this
      ensures Stored(old(segments), segments, r, "col", JArr(ColorList(primary, secondary, tertiary)))
    {
      var lastSegment := GetLastSegmentOrThrow();
      if lastSegment.Failure? {
        return Fail(lastSegment.error);
      }
      r := SetLast("col", JArr(ColorList(primary, secondary, tertiary)));
    }

    /** `Effect(effectId)`: the segment check comes first, then the clamp that needs Info. */
    method Effect(effectId: Int32) returns (r: Outcome<Error>)
      modifies this
      ensures old(segments) == [] ==> r == Fail(NoSegmentsAdded) && segments == old(segments)
      ensures old(segments) != [] && ClampId(client.info, Effects, effectId).Failure? ==>
                r == Fail(ClampId(client.info, Effects, effectId).error) && segments == old(segments)
      ensures old(segments) != [] && ClampId(client.info, Effects, effectId).Success? ==>
                Stored(old(segments), segments, r, "fx", JInt(ClampId(client.info, Effects, effectId).value))
    {
      var last := GetLastSegmentOrThrow();
      if last.Failure? {
        return Fail(last.error);
      }
      var fx := ClampId(client.info, Effects, effectId);
      if fx.Failure? {
        return Fail(fx.error);
      }
      r := SetLast("fx", JInt(fx.value));
    }

    method Speed(speed: Int32) returns (r: Outcome<Error>)
      modifies this
      ensures Stored(old(segments), segments, r, "sx", JInt(Clamp(speed, 0, 255)))
    {
      r := SetLast("sx", JInt(Clamp(speed, 0, 255)));
    }

    method Intensity(intensity: Int32) returns (r: Outcome<Error>)
      modifies this
      ensures Stored(old(segments), segments, r, "ix", JInt(Clamp(intensity, 0, 255)))
    {
      r := SetLast("ix", JInt(Clamp(intensity, 0, 255)));
    }

    method EffectCustomSlider1(slider1: Int32) returns (r: Outcome<Error>)
      modifies this
      ensures Stored(old(segments), segments, r, "c1", JInt(Clamp(slider1, 0, 255)))
    {
      r := SetLast("c1", JInt(Clamp(slider1, 0, 255)));
    }

    method EffectCustomSlider2(slider2: Int32) returns (r: Outcome<Error>)
      modifies this
      ensures Stored(old(segments), segments, r, "c2", JInt(Clamp(slider2, 0, 255)))
    {
      r := SetLast("c2", JInt(Clamp(slider2, 0, 255)));
    }

    method EffectCustomSlider3(slider3: Int32) returns (r: Outcome<Error>)
      modifies this
      ensures Stored(old(segments), segments, r, "c3", JInt(Clamp(slider3, 0, 255)))
    {
      r := SetLast("c3", JInt(Clamp(slider3, 0, 255)));
    }

    method EffectOption1(option1: bool) returns (r: Outcome<Error>)
      modifies this
      ensures Stored(old(segments), segments, r, "o1", JBool(option1))
    {
      r := SetLast("o1", JBool(option1));
    }

    method SetEffectOption2(option2: bool) returns (r: Outcome<Error>)
      modifies this
      ensures Stored(old(segments), segments, r, "o2", JBool(option2))
    {
      r := SetLast("o2", JBool(option2));
    }

    method EffectOption3(option3: bool) returns (r: Outcome<Error>)
      modifies this
      ensures Stored(old(segments), segments, r, "o3", JBool(option3))
    {
      r := SetLast("o3", JBool(option3));
    }

    /** `Palette(paletteId)`: the segment check first, then the clamp that needs Info. */
    method Palette(paletteId: Int32) returns (r: Outcome<Error>)
      modifies this
      ensures old(segments) == [] ==> r == Fail(NoSegmentsAdded) && segments == old(segments)
      ensures old(segments) != [] && ClampId(client.info, Palettes, paletteId).Failure? ==>
                r == Fail(ClampId(client.info, Palettes, paletteId).error) && segments == old(segments)
      ensures old(segments) != [] && ClampId(client.info, Palettes, paletteId).Success? ==>
                Stored(old(segments), segments, r, "pal", JInt(ClampId(client.info, Palettes, paletteId).value))
    {
      var last := GetLastSegmentOrThrow();
      if last.Failure? {
        return Fail(last.error);
      }
      var pal := ClampId(client.info, Palettes, paletteId);
      if pal.Failure? {
        return Fail(pal.error);
      }
      r := SetLast("pal", JInt(pal.value));
    }

    method Selected(selected: bool) returns (r: Outcome<Error>)
      modifies this
      ensures Stored(old(segments), segments, r, "sel", JBool(selected))
    {
      r := SetLast("sel", JBool(selected));
    }

    method Reverse(reverse: bool) returns (r: Outcome<Error>)
      modifies this
      ensures Stored(old(segments), segments, r, "rev", JBool(reverse))
    {
      r := SetLast("rev", JBool(reverse));
    }

    method On(on: bool) returns (r: Outcome<Error>)
      modifies this
      ensures Stored(old(segments), segments, r, "on", JBool(on))
    {
      r := SetLast("on", JBool(on));
    }

    method Brightness(brightness: Int32) returns (r: Outcome<Error>)
      modifies this
      ensures Stored(old(segments), segments, r, "bri", JInt(Clamp(brightness, 0, 255)))
    {
      r := SetLast("bri", JInt(Clamp(brightness, 0, 255)));
    }

    method Mirror(mirror: bool) returns (r: Outcome<Error>)
      modifies this
      ensures Stored(old(segments), segments, r, "mi", JBool(mirror))
    {
      r := SetLast("mi", JBool(mirror));
    }

    /** `ColorTemperature(v)`: the range check runs before the segment check; a valid v is stored as is. */
    method ColorTemperature(colorTemperature: Int32) returns (r: Outcome<Error>)
      modifies this
      ensures !ValidColorTemperature(colorTemperature) ==> r == Fail(ColorTemperatureOutOfRange) && segments == old(segments)
      ensures ValidColorTemperature(colorTemperature) ==> Stored(old(segments), segments, r, "cct", JInt(colorTemperature))
    {
      if (colorTemperature < 0 || colorTemperature > 255) && (colorTemperature < 1900 || colorTemperature > 10091) {
        return Fail(ColorTemperatureOutOfRange);
      }
      r := SetLast("cct", JInt(colorTemperature));
    }

    method Freeze(freeze: bool) returns (r: Outcome<Error>)
      modifies this
      ensures Stored(old(segments), segments, r, "frz", JBool(freeze))
    {
      r := SetLast("frz", JBool(freeze));
    }

    method Set(setId: Int32) returns (r: Outcome<Error>)
      modifies this
      ensures Stored(old(segments), segments, r, "set", JInt(Clamp(setId, 0, 3)))
    {
      r := SetLast("set", JInt(Clamp(setId, 0, 3)));
    }

    /**
     * `SetDefaults(setColor)`: the defaults, written one setter at a time to
     * the last segment. A throwing Effect or Palette clamp leaves the writes
     * made before it in place.
     */
    method SetDefaults(setColor: bool) returns (r: Outcome<Error>)
      modifies this
      ensures old(segments) == [] ==> r == Fail(NoSegmentsAdded) && segments == old(segments)
      ensures old(segments) != [] ==> r == DefaultsOutcome(client.info)
      ensures old(segments) != [] ==> SameButLast(old(segments), segments)
      ensures old(segments) != [] ==> Last(segments) == DefaultsOn(Last(old(segments)), client.info, setColor)
    {
      r := LayoutDefaults();
      if r.Fail? {
        return;
      }
      r := EffectDefaults();
      if r.Fail? {
        return;
      }
      r := RemainingDefaults(setColor);
    }

    /** The first three calls of SetDefaults. */
    method LayoutDefaults() returns (r: Outcome<Error>)
      modifies this
      ensures old(segments) == [] ==> r == Fail(NoSegmentsAdded) && segments == old(segments)
      ensures old(segments) != [] ==> r == Pass && SameButLast(old(segments), segments) && Last(segments) == LayoutOn(Last(old(segments)))
    {
      r := Group(0);
      if r.Fail? {
        return;
      }
      r := Spacing(0);
      r := Offset(0);
    }

    /** The Effect, Speed and Intensity calls of SetDefaults, on a builder that has a segment. */
    method EffectDefaults() returns (r: Outcome<Error>)
      requires segments != []
      modifies this
      ensures ClampId(client.info, Effects, 0).Failure? ==> r == Fail(ClampId(client.info, Effects, 0).error) && segments == old(segments)
      ensures ClampId(client.info, Effects, 0).Success? ==> r == Pass && SameButLast(old(segments), segments) && Last(segments) == EffectOn(Last(old(segments)))
    {
      ClampZero(client.info, Effects);
      r := Effect(0);
      if r.Fail? {
        return;
      }
      r := Speed(128);
      r := Intensity(128);
    }

    /** The calls of SetDefaults from Palette on, on a builder that has a segment. */
    method RemainingDefaults(setColor: bool) returns (r: Outcome<Error>)
      requires segments != []
      modifies this
      ensures ClampId(client.info, Palettes, 0).Failure? ==> r == Fail(ClampId(client.info, Palettes, 0).error) && segments == old(segments)
      ensures ClampId(client.info, Palettes, 0).Success? ==> r == Pass && SameButLast(old(segments), segments) && Last(segments) == RemainingOn(Last(old(segments)), setColor)
    {
      ClampZero(client.info, Palettes);
      r := Palette(0);
      if r.Fail? {
        return;
      }
      r := Selected(true);
      r := Reverse(false);
      r := On(true);
      r := Brightness(255);
      r := Mirror(false);
      r := ColorTemperature(255);
      r := Freeze(false);
      r := Set(0);
      r := EffectCustomSlider1(0);
      r := EffectCustomSlider2(0);
      r := EffectCustomSlider3(0);
      r := EffectOption1(false);
      r := SetEffectOption2(false);
      r := EffectOption3(false);
      if !setColor {
        return;
      }
      var color := DefaultColor;
      r := Color(color, color, color);
    }

    /** `Build()`: one `{"seg": [...]}` holding every segment in insertion order. */
    function Build(): (r: Json)
      reads this
      ensures HasOnlyKey(r, "seg")
      ensures Field(r, "seg") == Some(JArr(AsItems(segments)))
    {
      KeysSingle("seg", JArr(AsItems(segments)));
      SegCommand(AsItems(segments))
    }

    /** `BuildSplit()`: one single-segment command per segment, same count, same order. */
    function BuildSplit(): (r: seq<Json>)
      reads this
      ensures |r| == |segments|
      ensures forall i :: 0 <= i < |r| ==> HasOnlyKey(r[i], "seg") && Field(r[i], "seg") == Some(JArr([JObj(segments[i])]))
      ensures SegItems(r) == AsItems(segments)
    {
      forall i | 0 <= i < |segments| ensures HasOnlyKey(SplitOf(segments)[i], "seg") {
        KeysSingle("seg", JArr([JObj(segments[i])]));
      }
      SplitCoversBuild(segments);
      SplitOf(segments)
    }
  }
}
