/** SetColorsAsync and its three one-slot wrappers: a three-slot `col` array on every resolved segment. */
module ColorCommands {
  import opened Wrappers
  import opened Errors
  import opened Numerics
  import opened Json
  import opened Models
  import opened SegmentUtils
  import opened HexColors

  /** `primary?.ToHexString(false) ?? ""`, and likewise for the other two slots. */
  function ColorSlots(primary: Option<Color>, secondary: Option<Color>, tertiary: Option<Color>): (r: seq<Json>)
    ensures |r| == 3 && forall i :: 0 <= i < 3 ==> r[i].JStr?
    ensures forall i :: 0 <= i < 3 ==> ([primary, secondary, tertiary][i].None? <==> r[i].s == "")
    ensures forall i :: 0 <= i < 3 && [primary, secondary, tertiary][i].Some? ==>
              var c := [primary, secondary, tertiary][i].value;
              |r[i].s| == 6 && ParseRgb(r[i].s) == Some((Red(c), Green(c), Blue(c)))
  {
    var cs := [primary, secondary, tertiary];
    forall i | 0 <= i < 3 && cs[i].Some?
      ensures ParseRgb(ToHexString(cs[i].value, false)) == Some((Red(cs[i].value), Green(cs[i].value), Blue(cs[i].value)))
    {
      ToHexStringRoundTrip(cs[i].value, false);
    }
    [JStr(ToHexStringOrEmpty(primary, false)), JStr(ToHexStringOrEmpty(secondary, false)), JStr(ToHexStringOrEmpty(tertiary, false))]
  }

  /** `SetColorsAsync(primary, secondary, tertiary, ids)`. */
  function SetColors(state: Option<State>, primary: Option<Color>, secondary: Option<Color>, tertiary: Option<Color>, ids: seq<Int32>): (r: Result<Json, Error>)
    ensures IsFanOut(r, state, [("col", JArr(ColorSlots(primary, secondary, tertiary)))], ids)
  {
    KeysSingle("col", JArr(ColorSlots(primary, secondary, tertiary)));
    FanOut(state, [("col", JArr(ColorSlots(primary, secondary, tertiary)))], ids)
  }

  /** The hex slot of one colour. */
  function Slot(c: Option<Color>): Json
  {
    JStr(ToHexStringOrEmpty(c, false))
  }

  /** `SetPrimaryColorAsync(c)`: `col = [hex c, "", ""]`. */
  function SetPrimaryColor(state: Option<State>, c: Option<Color>, ids: seq<Int32>): (r: Result<Json, Error>)
    ensures IsFanOut(r, state, [("col", JArr([Slot(c), JStr(""), JStr("")]))], ids)
  {
    SetColors(state, c, None, None, ids)
  }

  /** `SetSecondaryColorAsync(c)`: `col = ["", hex c, ""]`. */
  function SetSecondaryColor(state: Option<State>, c: Option<Color>, ids: seq<Int32>): (r: Result<Json, Error>)
    ensures IsFanOut(r, state, [("col", JArr([JStr(""), Slot(c), JStr("")]))], ids)
  {
    SetColors(state, None, c, None, ids)
  }

  /** `SetTertiaryColorAsync(c)`: `col = ["", "", hex c]`. */
  function SetTertiaryColor(state: Option<State>, c: Option<Color>, ids: seq<Int32>): (r: Result<Json, Error>)
    ensures IsFanOut(r, state, [("col", JArr([JStr(""), JStr(""), Slot(c)]))], ids)
  {
    SetColors(state, None, None, c, ids)
  }
}
