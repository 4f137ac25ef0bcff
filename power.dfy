/** The on/off/toggle commands, each with a global and a per-segment overload. */
module Power {
  import opened Wrappers
  import opened Errors
  import opened Numerics
  import opened Json
  import opened Models
  import opened SegmentUtils
  import opened WireCodes

  /** `{on: true}` (TurnOnAsync) or `{on: false}` (TurnOffAsync). */
  function Switch(on: bool): (r: Json)
    ensures HasOnlyKey(r, "on")
    ensures Field(r, "on") == Some(JBool(on))
  {
    KeysSingle("on", JBool(on));
    JObj([("on", JBool(on))])
  }

  /** `{on: "t"}` (ToggleOnOffAsync). */
  function Toggle(): (r: Json)
    ensures HasOnlyKey(r, "on")
    ensures Field(r, "on") == Some(JStr(ToggleCode))
  {
    KeysSingle("on", JStr(ToggleCode));
    JObj([("on", JStr(ToggleCode))])
  }

  /** The per-segment TurnOnAsync / TurnOffAsync: the global `on` value on each resolved segment. */
  function SwitchSegments(state: Option<State>, on: bool, ids: seq<Int32>): (r: Result<Json, Error>)
    ensures IsFanOut(r, state, Switch(on).props, ids)
  {
    FanOut(state, Switch(on).props, ids)
  }

  /** The per-segment ToggleOnOffAsync. */
  function ToggleSegments(state: Option<State>, ids: seq<Int32>): (r: Result<Json, Error>)
    ensures IsFanOut(r, state, Toggle().props, ids)
  {
    FanOut(state, Toggle().props, ids)
  }

  /** Every entry of a per-segment switch carries the same `on` value and its own segment id. */
  lemma SwitchSegmentsEntries(s: State, on: bool, ids: seq<Int32>, i: nat)
    requires i < |ResolveIds(s, ids)|
    ensures SwitchSegments(Some(s), on, ids).Success?
    ensures var e := SwitchSegments(Some(s), on, ids).value.props[0].1.items[i];
            Field(e, "on") == Some(JBool(on)) && Field(e, "id") == Some(JInt(ResolveIds(s, ids)[i]))
  {
    EntriesForLookup(Switch(on).props, ResolveIds(s, ids), i, "on");
    EntriesForLookup(Switch(on).props, ResolveIds(s, ids), i, "id");
  }
}
