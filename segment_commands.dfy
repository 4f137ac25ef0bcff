/**
 * SegmentExtensions: sending a builder's segments (in one request, or one
 * request per segment when the payload is large) and resetting every
 * segment of the device.
 */
module SegmentCommands {
  import opened Wrappers
  import opened Errors
  import opened Numerics
  import opened Json
  import opened Models
  import opened ClientAccess
  import opened SegmentUtils
  import opened SegmentBuilders
  import opened WebsocketClient

  /** The largest payload, in UTF-8 bytes of its compact encoding, that goes in a single request. */
  const MaxRequestBytes: nat := 500

  /** Whether SetSegmentsAsync sends Build() as one request. */
  predicate OneRequest(forceOneRequest: bool, size: nat)
  {
    forceOneRequest || size <= MaxRequestBytes
  }

  /** The frames the client hands to the transport for a run of segment commands. */
  function FramedAll(payloads: seq<Json>, clientTransitionTime: Int32): (r: seq<Json>)
    requires forall i :: 0 <= i < |payloads| ==> HasOnlyKey(payloads[i], "seg")
    ensures |r| == |payloads|
    ensures forall i :: 0 <= i < |r| ==> Framed(payloads[i], clientTransitionTime) == Success(r[i])
  {
    seq(|payloads|, i requires 0 <= i < |payloads| => FramedSeg(payloads[i], clientTransitionTime))
  }

  function FramedSeg(payload: Json, clientTransitionTime: Int32): (r: Json)
    requires HasOnlyKey(payload, "seg")
    ensures Framed(payload, clientTransitionTime) == Success(r)
  {
    assert "tt" !in Keys(payload.props);
    Framed(payload, clientTransitionTime).value
  }

  /**
   * `SetSegmentsAsync(builder, forceOneRequest)`. `byteSize` stands for the
   * UTF-8 byte count of the compact JSON text. One request carries Build()
   * when forced or when it fits; otherwise each BuildSplit() payload is sent
   * in order, and the first refused send ends the run.
   */
  method SetSegments(client: WledWebsocketClient, builder: SegmentBuilder, forceOneRequest: bool, byteSize: Json -> nat)
    returns (r: Outcome<Error>)
    modifies client
    ensures OneRequest(forceOneRequest, byteSize(builder.Build())) ==>
              && (r.Pass? <==> old(client.IsConnected()))
              && client.sent == old(client.sent) + (if r.Pass? then FramedAll([builder.Build()], client.clientTransitionTime) else [])
    ensures !OneRequest(forceOneRequest, byteSize(builder.Build())) ==>
              && (r.Pass? <==> old(client.IsConnected()) || builder.segments == [])
              && client.sent == old(client.sent) + (if old(client.IsConnected()) then FramedAll(builder.BuildSplit(), client.clientTransitionTime) else [])
    ensures client.View() == old(client.View()) && client.clientTransitionTime == old(client.clientTransitionTime)
  {
    var json := builder.Build();
    var size := byteSize(json);
    if forceOneRequest || size <= MaxRequestBytes {
      r := client.SendJson(Some(json));
      return;
    }
    var split := builder.BuildSplit();
    ghost var all := FramedAll(split, client.clientTransitionTime);
    r := Pass;
    var i := 0;
    while i < |split|
      invariant 0 <= i <= |split|
      invariant client.View() == old(client.View()) && client.clientTransitionTime == old(client.clientTransitionTime)
      invariant old(client.IsConnected()) ==> r == Pass && client.sent == old(client.sent) + all[..i]
      invariant !old(client.IsConnected()) ==> i == 0 && r == Pass && client.sent == old(client.sent)
    {
      r := client.SendJson(Some(split[i]));
      if r.Fail? {
        return;
      }
      assert all[..i + 1] == all[..i] + [all[i]];
      i := i + 1;
    }
    assert all[..|split|] == all;
  }

  /** Segment 0 of a reset before any defaults: every LED, id 0, selected. */
  function ResetFirst(info: Info): (r: Props)
    requires info.maxSegments >= 1 && info.ledCount >= 1
    ensures Lookup(r, "id") == Some(JInt(0))
    ensures Lookup(r, "start") == Some(JInt(0))
    ensures Lookup(r, "stop") == Some(JInt(info.ledCount))
    ensures Lookup(r, "sel") == Some(JBool(true))
  {
    var first := NewSegment(Some(info), 0, 0, info.ledCount, None, Some(0)).value;
    Put(first, "sel", JBool(true))
  }

  /** Segment 0 of a reset, with the defaults applied when asked. */
  function ResetHead(info: Info, setDefaults: bool): (r: Props)
    requires info.maxSegments >= 1 && info.ledCount >= 1
    requires setDefaults ==> DefaultsOutcome(Some(info)).Pass?
    ensures Lookup(r, "id") == Some(JInt(0))
    ensures Lookup(r, "start") == Some(JInt(0))
    ensures Lookup(r, "stop") == Some(JInt(info.ledCount))
    ensures Lookup(r, "sel") == Some(JBool(true))
  {
    var first := ResetFirst(info);
    if setDefaults then
      KeptByDefaults(first, Some(info), "id");
      KeptByDefaults(first, Some(info), "start");
      KeptByDefaults(first, Some(info), "stop");
      DefaultsComplete(first, Some(info), false, "sel");
      DefaultsOn(first, Some(info), false)
    else first
  }

  /** A property SetDefaults has no default for survives it. */
  lemma KeptByDefaults(p: Props, info: Option<Info>, k: string)
    requires DefaultsOutcome(info).Pass?
    requires k in {"id", "start", "stop"}
    ensures Lookup(DefaultsOn(p, info, false), k) == Lookup(p, k)
  {
    if k == "id" {
      assert DefaultValue("id", false) == None;
    } else if k == "start" {
      assert DefaultValue("start", false) == None;
    } else {
      assert DefaultValue("stop", false) == None;
    }
    DefaultsComplete(p, info, false, k);
  }

  /** With defaults asked for, segment 0 carries every default SetDefaults writes. */
  lemma ResetHeadDefaults(info: Info, k: string)
    requires info.maxSegments >= 1 && info.ledCount >= 1
    requires DefaultsOutcome(Some(info)).Pass?
    requires DefaultValue(k, false).Some?
    ensures Lookup(ResetHead(info, true), k) == DefaultValue(k, false)
  {
    DefaultsComplete(ResetFirst(info), Some(info), false, k);
  }

  /**
   * What ResetSegmentsAsync builds: segment 0 over every LED, selected (and
   * given the defaults when asked), then an empty segment for each further id
   * up to MaxSegments - 1. The error is the one that stops it before anything
   * is sent.
   */
  function ResetPlan(info: Option<Info>, setDefaults: bool): (r: Result<seq<Props>, Error>)
    ensures info.None? ==> r == Failure(InfoNotReceived)
    ensures info.Some? ==>
              (r.Failure? <==> info.value.maxSegments < 1 || info.value.ledCount < 1 || (setDefaults && DefaultsOutcome(info).Fail?))
    ensures info.Some? && info.value.maxSegments < 1 ==> r == Failure(SegmentLimitReached(info.value.maxSegments))
    ensures info.Some? && info.value.maxSegments >= 1 && info.value.ledCount < 1 ==> r == Failure(InvalidClampRange)
    ensures info.Some? && info.value.maxSegments >= 1 && info.value.ledCount >= 1 && setDefaults && DefaultsOutcome(info).Fail? ==>
              r == Failure(DefaultsOutcome(info).error)
  {
    match GetInfoOrThrow(info)
    case Failure(e) => Failure(e)
    case Success(i) =>
      if i.maxSegments < 1 then Failure(SegmentLimitReached(i.maxSegments))
      else if i.ledCount < 1 then Failure(InvalidClampRange)
      else if setDefaults && DefaultsOutcome(info).Fail? then Failure(DefaultsOutcome(info).error)
      else
        Success([ResetHead(i, setDefaults)] + EmptySegments(i.maxSegments as int - 1))
  }

  /** Segments 1 to n, each with no LEDs. */
  function EmptySegments(n: nat): (r: seq<Props>)
    ensures |r| == n
    ensures forall j :: 0 <= j < n ==> r[j] == SegmentRecord(j + 1, 0, 0)
  {
    seq(n, j requires 0 <= j < n => SegmentRecord(j + 1, 0, 0))
  }

  /** A successful reset has MaxSegments segments: the head, then segments 1 onwards with no LEDs. */
  lemma ResetPlanShape(info: Option<Info>, setDefaults: bool)
    requires ResetPlan(info, setDefaults).Success?
    ensures info.Some? && info.value.maxSegments >= 1 && info.value.ledCount >= 1
    ensures setDefaults ==> DefaultsOutcome(info).Pass?
    ensures var segs := ResetPlan(info, setDefaults).value;
            && |segs| == info.value.maxSegments
            && segs[0] == ResetHead(info.value, setDefaults)
            && (forall i :: 1 <= i < |segs| ==> segs[i] == SegmentRecord(i, 0, 0))
  {
    var rest := EmptySegments(info.value.maxSegments as int - 1);
    var segs := [ResetHead(info.value, setDefaults)] + rest;
    assert forall j :: 1 <= j < |segs| ==> segs[j] == rest[j - 1];
  }

  /** Every segment of a successful reset has the id of its position, and all but segment 0 are empty. */
  lemma ResetPlanIds(info: Option<Info>, setDefaults: bool, i: nat)
    requires ResetPlan(info, setDefaults).Success?
    requires i < |ResetPlan(info, setDefaults).value|
    ensures Lookup(ResetPlan(info, setDefaults).value[i], "id") == Some(JInt(i))
    ensures i > 0 ==> Lookup(ResetPlan(info, setDefaults).value[i], "start") == Some(JInt(0))
    ensures i > 0 ==> Lookup(ResetPlan(info, setDefaults).value[i], "stop") == Some(JInt(0))
  {
    ResetPlanShape(info, setDefaults);
  }

  /** A device with at least one segment slot and one LED is always reset, unless defaults were asked for and a catalog is empty. */
  lemma ResetPlanSucceeds(info: Info, setDefaults: bool)
    requires info.maxSegments >= 1 && info.ledCount >= 1 && info.effectCount >= 1 && info.paletteCount >= 1
    ensures ResetPlan(Some(info), setDefaults).Success?
  {
  }

  /**
   * `ResetSegmentsAsync(setDefaults)`: builds the plan on a fresh builder and
   * sends it as one forced request.
   */
  method ResetSegments(client: WledWebsocketClient, setDefaults: bool, byteSize: Json -> nat) returns (r: Outcome<Error>)
    modifies client
    ensures var plan := ResetPlan(old(client.info), setDefaults);
            && (plan.Failure? ==> r == Fail(plan.error) && client.sent == old(client.sent))
            && (plan.Success? ==>
                  && (r.Pass? <==> old(client.IsConnected()))
                  && client.sent == old(client.sent)
                       + (if r.Pass? then FramedAll([SegCommand(AsItems(plan.value))], client.clientTransitionTime) else []))
    ensures client.View() == old(client.View()) && client.clientTransitionTime == old(client.clientTransitionTime)
  {
    var builder;
    builder, r := BuildReset(client, setDefaults);
    if r.Fail? {
      return;
    }
    r := SetSegments(client, builder, true, byteSize);
  }

  /** The building half of ResetSegmentsAsync: nothing is sent. */
  method BuildReset(client: WledWebsocketClient, setDefaults: bool) returns (builder: SegmentBuilder, r: Outcome<Error>)
    ensures builder.client == client
    ensures var plan := ResetPlan(client.info, setDefaults);
            && (plan.Failure? <==> r.Fail?)
            && (plan.Failure? ==> r == Fail(plan.error))
            && (plan.Success? ==> builder.segments == plan.value)
  {
    var info := GetInfoOrThrow(client.info);
    builder := new SegmentBuilder(client);
    if info.Failure? {
      return builder, Fail(info.error);
    }
    r := BuildResetHead(builder, setDefaults);
    if r.Fail? {
      return;
    }
    AddEmptySegments(builder);
  }

  /** The loop of ResetSegmentsAsync: an empty segment for every further id. */
  method AddEmptySegments(builder: SegmentBuilder)
    requires builder.client.info.Some? && builder.client.info.value.ledCount >= 1
    requires 1 == |builder.segments| <= builder.client.info.value.maxSegments
    modifies builder
    ensures builder.segments == old(builder.segments) + EmptySegments(builder.client.info.value.maxSegments as int - 1)
  {
    var info := builder.client.info.value;
    ghost var rest := EmptySegments(info.maxSegments as int - 1);
    var i := 1;
    while i < info.maxSegments
      invariant 1 <= i <= info.maxSegments
      invariant builder.segments == old(builder.segments) + rest[..i - 1]
    {
      EmptySegmentAdded(info, i as nat);
      var _ := builder.AddSegment(0, 0, None, Some(i));
      assert rest[..i] == rest[..i - 1] + [rest[i - 1]];
      i := i + 1;
    }
    assert rest[..i - 1] == rest;
  }

  /** AddSegment(0, 0, id: i) on a builder holding i segments adds the empty record for id i. */
  lemma EmptySegmentAdded(info: Info, i: nat)
    requires info.ledCount >= 1 && 1 <= i < info.maxSegments
    ensures NewSegment(Some(info), i, 0, 0, None, Some(i as Int32)) == Success(SegmentRecord(i, 0, 0))
  {
  }

  /** Adds segment 0 to an empty builder, selects it and applies the defaults when asked. */
  method BuildResetHead(builder: SegmentBuilder, setDefaults: bool) returns (r: Outcome<Error>)
    requires builder.segments == [] && builder.client.info.Some?
    modifies builder
    ensures var plan := ResetPlan(builder.client.info, setDefaults);
            && (plan.Failure? <==> r.Fail?)
            && (plan.Failure? ==> r == Fail(plan.error))
            && (plan.Success? ==> builder.segments == [ResetHead(builder.client.info.value, setDefaults)])
  {
    var info := builder.client.info.value;
    r := builder.AddSegment(0, info.ledCount, None, Some(0));
    if r.Fail? {
      return;
    }
    var _ := builder.Selected(true);
    assert builder.segments == [ResetFirst(info)];
    if setDefaults {
      r := builder.SetDefaults(false);
    }
  }
}
