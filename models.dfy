/**
 * The parts of the device's Info and State snapshots that the command layer
 * reads. Both are immutable values, replaced wholesale by each inbound frame.
 */
module Models {
  import opened Numerics

  /** `info`: leds.count, leds.maxseg, fxcount and palcount. */
  datatype Info = Info(ledCount: Int32, maxSegments: Int32, effectCount: Int32, paletteCount: Int32)

  /** One entry of `state.seg`: its id and its `sel` flag. */
  datatype SegmentInfo = SegmentInfo(id: Int32, selected: bool)

  /** `state`: mainseg and the ordered segment entries. */
  datatype State = State(mainSegmentId: Int32, segments: seq<SegmentInfo>)
}

/** GetStateOrThrow and GetInfoOrThrow: a client's snapshot, or the exception when it has not arrived. */
module ClientAccess {
  import opened Wrappers
  import opened Errors
  import opened Models

  function GetStateOrThrow(state: Option<State>): (r: Result<State, Error>)
    ensures r.Success? <==> state.Some?
    ensures r.Success? ==> r.value == state.value
    ensures r.Failure? ==> r.error == StateNotReceived
  {
    match state
    case Some(s) => Success(s)
    case None => Failure(StateNotReceived)
  }

  function GetInfoOrThrow(info: Option<Info>): (r: Result<Info, Error>)
    ensures r.Success? <==> info.Some?
    ensures r.Success? ==> r.value == info.value
    ensures r.Failure? ==> r.error == InfoNotReceived
  {
    match info
    case Some(i) => Success(i)
    case None => Failure(InfoNotReceived)
  }
}
