/**
 * The brightness commands. The split and the legacy projects carry the same
 * eight overloads: a global one and a per-segment one for each of set, random,
 * increase and decrease.
 */
module Brightness {
  import opened Wrappers
  import opened Errors
  import opened Numerics
  import Strings
  import opened Json
  import opened Models
  import opened SegmentUtils
  import opened WireCodes

  /** The default `brightness` of SetBrightnessAsync. */
  const DefaultBrightness: Int32 := 128

  /** The default `amount` of Increase/DecreaseBrightnessAsync. */
  const DefaultAmount: Int32 := 10

  /** `{bri: Math.Clamp(brightness, 0, 255)}`. */
  function SetBrightness(brightness: Int32): (r: Json)
    ensures HasOnlyKey(r, "bri")
    ensures Field(r, "bri") == Some(JInt(Clamp(brightness, 0, 255)))
  {
    KeysSingle("bri", JInt(Clamp(brightness, 0, 255)));
    JObj([("bri", JInt(Clamp(brightness, 0, 255)))])
  }

  /** `{bri: "r"}`. */
  function SetRandomBrightness(): (r: Json)
    ensures HasOnlyKey(r, "bri")
    ensures Field(r, "bri") == Some(JStr(RandomCode))
  {
    KeysSingle("bri", JStr(RandomCode));
    JObj([("bri", JStr(RandomCode))])
  }

  /** `{bri: "~N"}` (up) or `{bri: "~-N"}` (down), N = Math.Clamp(amount, 0, 255). */
  function StepBrightness(up: bool, amount: Int32): (r: Json)
    ensures HasOnlyKey(r, "bri")
    ensures Field(r, "bri") == Some(JStr(StepCode(up, Clamp(amount, 0, 255))))
  {
    KeysSingle("bri", JStr(StepCode(up, Clamp(amount, 0, 255))));
    JObj([("bri", JStr(StepCode(up, Clamp(amount, 0, 255))))])
  }

  /** `IncreaseBrightnessAsync(amount)`: `"~N"`, which decodes to a rise of the clamped amount. */
  function IncreaseBrightness(amount: Int32): (r: Json)
    ensures HasOnlyKey(r, "bri")
    ensures Field(r, "bri") == Some(JStr(StepCode(true, Clamp(amount, 0, 255))))
    ensures Field(r, "bri").Some? && Field(r, "bri").value.JStr?
    ensures ParseStep(Field(r, "bri").value.s) == Some(Clamp(amount, 0, 255))
  {
    StepCodeRoundTrip(true, Clamp(amount, 0, 255));
    StepBrightness(true, amount)
  }

  /** `DecreaseBrightnessAsync(amount)`: `"~-N"`, which decodes to a fall of the clamped amount. */
  function DecreaseBrightness(amount: Int32): (r: Json)
    ensures HasOnlyKey(r, "bri")
    ensures Field(r, "bri") == Some(JStr(StepCode(false, Clamp(amount, 0, 255))))
    ensures Field(r, "bri").Some? && Field(r, "bri").value.JStr?
    ensures ParseStep(Field(r, "bri").value.s) == Some(-Clamp(amount, 0, 255))
  {
    StepCodeRoundTrip(false, Clamp(amount, 0, 255));
    StepBrightness(false, amount)
  }

  /** The per-segment SetBrightnessAsync: the global payload's `bri` on every resolved segment. */
  function SetSegmentsBrightness(state: Option<State>, brightness: Int32, ids: seq<Int32>): (r: Result<Json, Error>)
    ensures IsFanOut(r, state, SetBrightness(brightness).props, ids)
  {
    FanOut(state, SetBrightness(brightness).props, ids)
  }

  /** The per-segment SetRandomBrightnessAsync. */
  function SetSegmentsRandomBrightness(state: Option<State>, ids: seq<Int32>): (r: Result<Json, Error>)
    ensures IsFanOut(r, state, SetRandomBrightness().props, ids)
  {
    FanOut(state, SetRandomBrightness().props, ids)
  }

  /** The per-segment IncreaseBrightnessAsync. */
  function IncreaseSegmentsBrightness(state: Option<State>, amount: Int32, ids: seq<Int32>): (r: Result<Json, Error>)
    ensures IsFanOut(r, state, IncreaseBrightness(amount).props, ids)
  {
    FanOut(state, IncreaseBrightness(amount).props, ids)
  }

  /** The per-segment DecreaseBrightnessAsync. */
  function DecreaseSegmentsBrightness(state: Option<State>, amount: Int32, ids: seq<Int32>): (r: Result<Json, Error>)
    ensures IsFanOut(r, state, DecreaseBrightness(amount).props, ids)
  {
    FanOut(state, DecreaseBrightness(amount).props, ids)
  }

  /** Increase and decrease of the same amount are opposite steps. */
  lemma IncreaseDecreaseOpposite(amount: Int32)
    ensures ParseStep(Field(IncreaseBrightness(amount), "bri").value.s)
            == Some(0 - ParseStep(Field(DecreaseBrightness(amount), "bri").value.s).value)
  {
  }

  /**
   * Called without arguments, SetBrightnessAsync sends 128 and the step
   * commands move by 10: "~10" up and "~-10" down.
   */
  lemma DefaultArgumentsSent()
    ensures Field(SetBrightness(DefaultBrightness), "bri") == Some(JInt(128))
    ensures Field(IncreaseBrightness(DefaultAmount), "bri") == Some(JStr("~10"))
    ensures Field(DecreaseBrightness(DefaultAmount), "bri") == Some(JStr("~-10"))
  {
    assert Strings.NatToString(10) == Strings.NatToString(1) + [Strings.DigitChar(0)] == "10";
    var up, down := StepCode(true, 10), StepCode(false, 10);
    assert up == [up[0]] + up[1..] == "~10";
    assert down == [down[0], down[1]] + down[2..] == "~-10";
  }
}
