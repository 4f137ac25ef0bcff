/**
 * The effect and the palette extensions: two copies of one pattern that differ
 * only in the Info count they read (EffectCount or PaletteCount) and in the
 * segment key they write ("fx" or "pal").
 */
module Catalogs {
  import opened Wrappers
  import opened Errors
  import opened Numerics
  import opened Json
  import opened Models
  import opened ClientAccess
  import opened SegmentUtils
  import opened WireCodes

  datatype Catalog = Effects | Palettes

  /** `info.EffectCount` or `info.PaletteCount`. */
  function Count(info: Info, c: Catalog): Int32
  {
    match c
    case Effects => info.effectCount
    case Palettes => info.paletteCount
  }

  /** The segment property: `fx` or `pal`. */
  function Key(c: Catalog): (k: string)
    ensures k != "id"
  {
    match c
    case Effects => "fx"
    case Palettes => "pal"
  }

  /** `count - 1` as C# computes it on an `int`. */
  function LastId(info: Info, c: Catalog): (r: Int32)
    ensures r < Count(info, c) <==> Count(info, c) != MinInt32
  {
    Pred32(Count(info, c))
  }

  /**
   * `IsValidEffectId` / `IsValidPaletteId`: `id >= 0 && id <= count - 1`. The
   * `&&` short-circuits, so a negative id is invalid even before Info arrives.
   */
  function IsValidId(info: Option<Info>, c: Catalog, id: Int32): (r: Result<bool, Error>)
    ensures id < 0 ==> r == Success(false)
    ensures id >= 0 ==> (r.Failure? <==> info.None?)
    ensures r.Failure? ==> r.error == InfoNotReceived
    ensures r.Success? && id >= 0 ==> (r.value <==> id <= LastId(info.value, c))
    ensures r.Success? && id >= 0 && Count(info.value, c) != MinInt32 ==> (r.value <==> id < Count(info.value, c))
  {
    if !(id >= 0) then Success(false)
    else
      match GetInfoOrThrow(info)
      case Failure(e) => Failure(e)
      case Success(i) => Success(id <= Pred32(Count(i, c)))
  }

  /**
   * `ClampEffectId` / `ClampPaletteId`: `Math.Clamp(id, 0, count - 1)`, which
   * throws when the count is not positive.
   */
  function ClampId(info: Option<Info>, c: Catalog, id: Int32): (r: Result<int, Error>)
    ensures info.None? ==> r == Failure(InfoNotReceived)
    ensures info.Some? ==> (r.Failure? <==> LastId(info.value, c) < 0)
    ensures info.Some? && r.Failure? ==> r.error == InvalidClampRange
    ensures r.Success? ==> 0 <= r.value <= LastId(info.value, c)
    ensures r.Success? ==> (r.value == id <==> IsValidId(info, c, id) == Success(true))
  {
    match GetInfoOrThrow(info)
    case Failure(e) => Failure(e)
    case Success(i) => CheckedClamp(id, 0, Pred32(Count(i, c)))
  }

  /** Clamping an id that is already valid is the identity, and clamping twice is clamping once. */
  lemma ClampIdIdempotent(info: Option<Info>, c: Catalog, id: Int32)
    requires ClampId(info, c, id).Success?
    ensures ClampId(info, c, ClampId(info, c, id).value as Int32) == ClampId(info, c, id)
  {
  }

  /**
   * `GetRandomEffectId` / `GetRandomPaletteId`: `Random.Next(0, count - 1)`
   * with the draw injected as `roll`. The upper bound is exclusive.
   */
  function RandomId(info: Option<Info>, c: Catalog, roll: nat): (r: Result<int, Error>)
    ensures info.None? ==> r == Failure(InfoNotReceived)
    ensures info.Some? ==> (r.Failure? <==> LastId(info.value, c) < 0)
    ensures info.Some? && r.Failure? ==> r.error == InvalidRandomRange
    ensures r.Success? && LastId(info.value, c) == 0 ==> r.value == 0
    ensures r.Success? && LastId(info.value, c) > 0 ==> 0 <= r.value < LastId(info.value, c)
  {
    match GetInfoOrThrow(info)
    case Failure(e) => Failure(e)
    case Success(i) => RandomNext(0, Pred32(Count(i, c)), roll)
  }

  /**
   * With at least two entries the draw is a valid id below count - 1: the
   * last effect or palette is never picked.
   */
  lemma RandomIdNeverLast(info: Option<Info>, c: Catalog, roll: nat)
    requires info.Some? && Count(info.value, c) >= 2
    ensures RandomId(info, c, roll).Success?
    ensures 0 <= RandomId(info, c, roll).value <= Count(info.value, c) - 2
    ensures IsValidId(info, c, RandomId(info, c, roll).value as Int32) == Success(true)
  {
  }

  /** Every id below count - 1 is drawn by some roll. */
  lemma RandomIdCovers(info: Option<Info>, c: Catalog, id: int)
    requires info.Some? && 0 <= id < LastId(info.value, c)
    ensures RandomId(info, c, id) == Success(id)
  {
    RandomNextCovers(0, LastId(info.value, c), id);
  }

  /**
   * `SetEffectAsync` / `SetPaletteAsync`: segment resolution runs first, so a
   * missing State is reported before a missing Info; the clamped id goes on
   * every resolved segment.
   */
  function SetId(state: Option<State>, info: Option<Info>, c: Catalog, id: Int32, ids: seq<Int32>): (r: Result<Json, Error>)
    ensures state.None? ==> r == Failure(StateNotReceived)
    ensures state.Some? ==> (r.Failure? <==> ClampId(info, c, id).Failure?)
    ensures state.Some? && r.Failure? ==> r.error == ClampId(info, c, id).error
    ensures r.Success? ==> r.value == SegCommand(EntriesFor([(Key(c), JInt(ClampId(info, c, id).value))], ResolveIds(state.value, ids)))
  {
    match Targets(state, ids)
    case Failure(e) => Failure(e)
    case Success(t) =>
      match ClampId(info, c, id)
      case Failure(e) => Failure(e)
      case Success(v) =>
        KeysSingle(Key(c), JInt(v));
        SegmentsWith([(Key(c), JInt(v))], t)
  }

  /** `SetRandomEffectAsync` / `SetRandomPaletteAsync`: one draw, shared by every resolved segment. */
  function SetRandomId(state: Option<State>, info: Option<Info>, c: Catalog, roll: nat, ids: seq<Int32>): (r: Result<Json, Error>)
    ensures state.None? ==> r == Failure(StateNotReceived)
    ensures state.Some? ==> (r.Failure? <==> RandomId(info, c, roll).Failure?)
    ensures state.Some? && r.Failure? ==> r.error == RandomId(info, c, roll).error
    ensures r.Success? ==> r.value == SegCommand(EntriesFor([(Key(c), JInt(RandomId(info, c, roll).value))], ResolveIds(state.value, ids)))
  {
    match Targets(state, ids)
    case Failure(e) => Failure(e)
    case Success(t) =>
      match RandomId(info, c, roll)
      case Failure(e) => Failure(e)
      case Success(v) =>
        KeysSingle(Key(c), JInt(v));
        SegmentsWith([(Key(c), JInt(v))], t)
  }

  /** The default `forward` and `steps` of StepThroughEffectsAsync / StepThroughPalettesAsync. */
  const DefaultForward: bool := true
  const DefaultSteps: Int32 := 1

  /** `StepThroughEffectsAsync` / `StepThroughPalettesAsync`: `"~steps"` or `"~-steps"`, steps unclamped; Info is not read. */
  function StepThrough(state: Option<State>, c: Catalog, forward: bool, steps: Int32, ids: seq<Int32>): (r: Result<Json, Error>)
    ensures IsFanOut(r, state, [(Key(c), JStr(StepCode(forward, steps)))], ids)
  {
    KeysSingle(Key(c), JStr(StepCode(forward, steps)));
    FanOut(state, [(Key(c), JStr(StepCode(forward, steps)))], ids)
  }

  /** Called without `forward` and `steps`, the command steps one entry forwards: "~1". */
  lemma DefaultStepSent(state: Option<State>, c: Catalog, ids: seq<Int32>)
    ensures IsFanOut(StepThrough(state, c, DefaultForward, DefaultSteps, ids), state, [(Key(c), JStr("~1"))], ids)
  {
    var s := StepCode(true, 1);
    assert s == [s[0]] + s[1..] == "~1";
  }
}
