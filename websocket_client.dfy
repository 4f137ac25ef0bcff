/**
 * WledWebsocketClient: the address normalisation, the connect/stop guards, the
 * `tt` injection of SendJsonAsync, and the Info/State mirror that inbound
 * frames and disconnections update.
 *
 * The transport is reduced to its two flags (IsRunning, IsStarted); what it
 * delivers is passed in: the frames that arrive while ConnectAsync waits, and
 * each later frame or loss as a call of OnMessageReceived or TransportClosed.
 */
module WebsocketClient {
  import opened Wrappers
  import opened Errors
  import opened Numerics
  import opened Strings
  import opened Json
  import opened Models

  /* ---------------- GetUri ---------------- */

  predicate HasScheme(url: string)
  {
    StartsWith(url, "ws://") || StartsWith(url, "wss://")
  }

  /** `GetUri(url)` up to `new Uri`: add `ws://` when neither scheme is there, then `/ws` when missing. */
  function GetUri(url: string): (r: string)
    ensures HasScheme(r) && EndsWith(r, "/ws")
  {
    var u := if !HasScheme(url) then "ws://" + url else url;
    assert HasScheme(u) by {
      if !HasScheme(url) { assert u[..5] == "ws://"; }
    }
    if !EndsWith(u, "/ws") then
      assert (u + "/ws")[|u| + 3 - 3..] == "/ws";
      assert HasScheme(u + "/ws") by {
        if StartsWith(u, "ws://") { assert (u + "/ws")[..5] == u[..5]; }
        else { assert (u + "/ws")[..6] == u[..6]; }
      }
      u + "/ws"
    else u
  }

  /**
   * The scheme is added only when neither is present and the path only when
   * absent: the result extends the input (after `ws://` if that was added) by
   * exactly three characters when "/ws" was missing and by none otherwise, and
   * an address that already has both is left as it is.
   */
  lemma GetUriOnlyAdds(url: string)
    ensures HasScheme(url) ==> StartsWith(GetUri(url), url)
    ensures !HasScheme(url) ==> StartsWith(GetUri(url), "ws://" + url)
    ensures GetUri(url) == url <==> HasScheme(url) && EndsWith(url, "/ws")
    ensures var u := if HasScheme(url) then url else "ws://" + url;
            |GetUri(url)| == |u| + (if EndsWith(u, "/ws") then 0 else 3)
  {
    var u := if !HasScheme(url) then "ws://" + url else url;
    assert (u + "/ws")[..|u|] == u;
    if !HasScheme(url) {
      assert |GetUri(url)| > |url|;
    }
  }

  /** Normalising twice is normalising once. */
  lemma GetUriIdempotent(url: string)
    ensures GetUri(GetUri(url)) == GetUri(url)
  {
    GetUriOnlyAdds(GetUri(url));
  }

  /* ---------------- the session as a value ---------------- */

  /** Websocket.Client's DisconnectionType (its `Error` member is `TransportError` here). */
  datatype DisconnectionType = Exit | Lost | NoMessageReceived | TransportError | ByUser | ByServer

  /** The client's events, in the order they fire: the change events carry (previous, new). */
  datatype Event =
    | InfoChanged(previousInfo: Option<Info>, newInfo: Option<Info>)
    | StateChanged(previousState: Option<State>, newState: Option<State>)
    | Disconnected(kind: DisconnectionType)

  datatype MessageType = Text | Binary | Close

  /**
   * What a text frame yields: each section is `None` when the text does not
   * parse, has no such property, or deserialises to null.
   */
  datatype Sections = Sections(info: Option<Info>, state: Option<State>)

  /** A received frame; `text` is `None` for a frame without text. */
  datatype Frame = Frame(messageType: MessageType, text: Option<Sections>)

  /** What the transport delivers: a frame, or the loss of the connection. */
  datatype Arrival = Message(frame: Frame) | Dropped(kind: DisconnectionType)

  /** The client's observable state: both snapshots, the transport flags and the events fired so far. */
  datatype Session = Session(info: Option<Info>, state: Option<State>, running: bool, started: bool, events: seq<Event>)

  /** `UpdateInfoFromMessage(i)`: replace the snapshot wholesale and fire the change event. */
  function UpdateInfo(s: Session, i: Option<Info>): (r: Session)
    ensures r.info == i && r.events == s.events + [InfoChanged(s.info, i)]
    ensures r.(info := s.info, events := s.events) == s
  {
    s.(info := i, events := s.events + [InfoChanged(s.info, i)])
  }

  /** `UpdateStateFromMessage(st)`. */
  function UpdateState(s: Session, st: Option<State>): (r: Session)
    ensures r.state == st && r.events == s.events + [StateChanged(s.state, st)]
    ensures r.(state := s.state, events := s.events) == s
  {
    s.(state := st, events := s.events + [StateChanged(s.state, st)])
  }

  /** Whether `OnMessageReceived` looks at the frame at all. */
  predicate Processed(f: Frame)
  {
    f.messageType == Text && f.text.Some?
  }

  /**
   * `OnMessageReceived(f)`: a non-text or text-less frame is ignored; otherwise
   * the info section, then the state section, each replaces its snapshot when
   * present and leaves it alone when absent.
   */
  function Receive(s: Session, f: Frame): (r: Session)
    ensures r.running == s.running && r.started == s.started
    ensures r.info == if Processed(f) && f.text.value.info.Some? then f.text.value.info else s.info
    ensures r.state == if Processed(f) && f.text.value.state.Some? then f.text.value.state else s.state
    ensures r.events == s.events
                        + (if Processed(f) && f.text.value.info.Some? then [InfoChanged(s.info, f.text.value.info)] else [])
                        + (if Processed(f) && f.text.value.state.Some? then [StateChanged(s.state, f.text.value.state)] else [])
  {
    if !Processed(f) then s
    else
      var sec := f.text.value;
      var s1 := if sec.info.Some? then UpdateInfo(s, sec.info) else s;
      if sec.state.Some? then UpdateState(s1, sec.state) else s1
  }

  /** A frame with neither section, or one that is not processed, changes nothing. */
  lemma ReceiveEmptyFrame(s: Session, f: Frame)
    requires !Processed(f) || (f.text.value.info.None? && f.text.value.state.None?)
    ensures Receive(s, f) == s
  {
  }

  /** A frame with only a state section replaces State and leaves Info as it was. */
  lemma ReceiveStateOnly(s: Session, f: Frame)
    requires Processed(f) && f.text.value.info.None? && f.text.value.state.Some?
    ensures Receive(s, f) == s.(state := f.text.value.state, events := s.events + [StateChanged(s.state, f.text.value.state)])
  {
  }

  /** `OnDisconnectionHappened(kind)`: both snapshots become null, both change events fire, then OnDisconnected. */
  function Disconnect(s: Session, kind: DisconnectionType): (r: Session)
    ensures r.info.None? && r.state.None?
    ensures r.running == s.running && r.started == s.started
    ensures r.events == s.events + [InfoChanged(s.info, None), StateChanged(s.state, None), Disconnected(kind)]
  {
    var s2 := UpdateState(UpdateInfo(s, None), None);
    s2.(events := s2.events + [Disconnected(kind)])
  }

  /** The transport closes (Websocket.Client clears both flags, then reports the disconnection). */
  function Drop(s: Session, kind: DisconnectionType): (r: Session)
    ensures !r.running && !r.started
    ensures r == Disconnect(s.(running := false, started := false), kind)
  {
    Disconnect(s.(running := false, started := false), kind)
  }

  function Arrive(s: Session, a: Arrival): Session
  {
    match a
    case Message(f) => Receive(s, f)
    case Dropped(k) => Drop(s, k)
  }

  /** The session after a sequence of deliveries, the first one first. */
  function ArriveAll(s: Session, arrivals: seq<Arrival>): Session
    decreases |arrivals|
  {
    if arrivals == [] then s
    else Arrive(ArriveAll(s, arrivals[..|arrivals| - 1]), arrivals[|arrivals| - 1])
  }

  /** Whether a delivery fires OnInfoChanged (which completes BlockUntilReadyAsync's info wait). */
  predicate SignalsInfo(a: Arrival)
  {
    a.Dropped? || (Processed(a.frame) && a.frame.text.value.info.Some?)
  }

  /** Whether a delivery fires OnStateChanged. */
  predicate SignalsState(a: Arrival)
  {
    a.Dropped? || (Processed(a.frame) && a.frame.text.value.state.Some?)
  }

  /** The two signals are exactly "an InfoChanged (a StateChanged) event was fired by this delivery". */
  lemma ArriveSignals(s: Session, a: Arrival)
    ensures |Arrive(s, a).events| >= |s.events| && Arrive(s, a).events[..|s.events|] == s.events
    ensures SignalsInfo(a) <==> exists e :: e in Arrive(s, a).events[|s.events|..] && e.InfoChanged?
    ensures SignalsState(a) <==> exists e :: e in Arrive(s, a).events[|s.events|..] && e.StateChanged?
  {
    var n := Arrive(s, a).events[|s.events|..];
    match a
    case Message(f) =>
      var sec := f.text;
      assert Processed(f) && f.text.value.info.Some? ==> n[0].InfoChanged?;
      assert Processed(f) && f.text.value.state.Some? ==> n[|n| - 1].StateChanged?;
    case Dropped(k) =>
      assert n == [InfoChanged(s.info, None), StateChanged(s.state, None), Disconnected(k)];
      assert n[0].InfoChanged? && n[1].StateChanged?;
  }

  /**
   * The readiness condition of BlockUntilReadyAsync: each snapshot was already
   * present when waiting began, or its change event fired during the wait.
   */
  predicate Ready(s: Session, arrivals: seq<Arrival>)
  {
    && (s.info.Some? || exists i :: 0 <= i < |arrivals| && SignalsInfo(arrivals[i]))
    && (s.state.Some? || exists i :: 0 <= i < |arrivals| && SignalsState(arrivals[i]))
  }

  /** Frames never clear a snapshot, and a signalled section is present afterwards. */
  lemma {:induction false} FramesKeepSnapshots(s: Session, arrivals: seq<Arrival>)
    requires forall i :: 0 <= i < |arrivals| ==> arrivals[i].Message?
    ensures ArriveAll(s, arrivals).info.Some? <==> s.info.Some? || exists i :: 0 <= i < |arrivals| && SignalsInfo(arrivals[i])
    ensures ArriveAll(s, arrivals).state.Some? <==> s.state.Some? || exists i :: 0 <= i < |arrivals| && SignalsState(arrivals[i])
    decreases |arrivals|
  {
    if arrivals != [] {
      var init := arrivals[..|arrivals| - 1];
      var last := arrivals[|arrivals| - 1];
      FramesKeepSnapshots(s, init);
      assert forall i :: 0 <= i < |init| ==> init[i] == arrivals[i];
      if exists i :: 0 <= i < |arrivals| && SignalsInfo(arrivals[i]) {
        var i :| 0 <= i < |arrivals| && SignalsInfo(arrivals[i]);
        if i < |init| { assert SignalsInfo(init[i]); }
      }
      if exists i :: 0 <= i < |arrivals| && SignalsState(arrivals[i]) {
        var i :| 0 <= i < |arrivals| && SignalsState(arrivals[i]);
        if i < |init| { assert SignalsState(init[i]); }
      }
    }
  }

  /** While only frames arrive, readiness is exactly "both snapshots are non-null". */
  lemma ReadyMeansBothSnapshots(s: Session, arrivals: seq<Arrival>)
    requires forall i :: 0 <= i < |arrivals| ==> arrivals[i].Message?
    ensures Ready(s, arrivals) <==> ArriveAll(s, arrivals).info.Some? && ArriveAll(s, arrivals).state.Some?
  {
    FramesKeepSnapshots(s, arrivals);
  }

  /** A loss during the wait also completes it, though it leaves both snapshots null. */
  lemma ReadyAfterLoss()
    ensures var s := Session(None, None, true, true, []);
            Ready(s, [Dropped(Lost)]) && ArriveAll(s, [Dropped(Lost)]).info.None?
  {
    var a: seq<Arrival> := [Dropped(Lost)];
    assert SignalsInfo(a[0]) && SignalsState(a[0]);
    assert a[..0] == [];
  }

  /* ---------------- SendJsonAsync ---------------- */

  /** The largest client transition time that is sent. */
  const MaxTransition: int := 65535

  /**
   * The frame SendJsonAsync sends for a message: `JObject.FromObject` (which
   * throws for anything but an object), then `"tt"` added when the client
   * transition time is not -1 (JObject.Add throws if the message has one).
   */
  function Framed(message: Json, clientTransitionTime: Int32): (r: Result<Json, Error>)
    ensures !message.JObj? ==> r == Failure(NotAnObject)
    ensures message.JObj? && clientTransitionTime != -1 && "tt" in Keys(message.props) ==> r == Failure(DuplicateProperty("tt"))
    ensures r.Success? <==> message.JObj? && (clientTransitionTime == -1 || "tt" !in Keys(message.props))
    ensures r.Success? && clientTransitionTime == -1 ==> r.value == message
    ensures r.Success? && clientTransitionTime != -1 ==>
              && r.value.JObj?
              && Field(r.value, "tt") == Some(JInt(Clamp(clientTransitionTime, 0, MaxTransition)))
              && (forall k :: k != "tt" ==> Field(r.value, k) == Field(message, k))
              && |r.value.props| == |message.props| + 1
              && r.value.props[..|message.props|] == message.props
  {
    if !message.JObj? then Failure(NotAnObject)
    else if clientTransitionTime == -1 then Success(message)
    else
      match Add(message.props, "tt", JInt(Clamp(clientTransitionTime, 0, MaxTransition)))
      case Failure(e) => Failure(e)
      case Success(p) =>
        PutAppends(message.props, "tt", JInt(Clamp(clientTransitionTime, 0, MaxTransition)));
        assert p[..|message.props|] == message.props;
        Success(JObj(p))
  }

  /** The body of RequestUpdateAsync. */
  const UpdateRequest: Json := JObj([("v", JBool(true))])

  /* ---------------- the client ---------------- */

  class WledWebsocketClient {
    /** `Uri`. */
    const uri: string
    var info: Option<Info>
    var state: Option<State>
    /** `ClientTransitionTime`; -1 means "use the device's own transition". */
    var clientTransitionTime: Int32
    /** The transport's IsRunning and IsStarted. */
    var running: bool
    var started: bool
    /** Whether the transport has been disposed. */
    var disposed: bool
    /** The JSON frames handed to the transport, in order. */
    var sent: seq<Json>
    /** The events fired, in order. */
    var events: seq<Event>

    function View(): Session
      reads this
    {
      Session(info, state, running, started, events)
    }

    /** `IsConnected`. */
    predicate IsConnected()
      reads this
    {
      running && started
    }

    /** `new WledWebsocketClient(uri)`. */
    constructor OfUri(uri: string)
      ensures this.uri == uri
      ensures View() == Session(None, None, false, false, [])
      ensures clientTransitionTime == -1 && sent == [] && !disposed
    {
      this.uri := uri;
      info, state := None, None;
      clientTransitionTime := -1;
      running, started, disposed := false, false, false;
      sent, events := [], [];
    }

    /** `new WledWebsocketClient(url)`: the address goes through GetUri. */
    constructor (url: string)
      ensures uri == GetUri(url)
      ensures View() == Session(None, None, false, false, [])
      ensures clientTransitionTime == -1 && sent == [] && !disposed
    {
      uri := GetUri(url);
      info, state := None, None;
      clientTransitionTime := -1;
      running, started, disposed := false, false, false;
      sent, events := [], [];
    }

    method UpdateInfoFromMessage(i: Option<Info>)
      modifies this
      ensures View() == UpdateInfo(old(View()), i)
      ensures sent == old(sent) && clientTransitionTime == old(clientTransitionTime) && disposed == old(disposed)
    {
      var previousInfo := info;
      info := i;
      events := events + [InfoChanged(previousInfo, i)];
    }

    method UpdateStateFromMessage(st: Option<State>)
      modifies this
      ensures View() == UpdateState(old(View()), st)
      ensures sent == old(sent) && clientTransitionTime == old(clientTransitionTime) && disposed == old(disposed)
    {
      var previousState := state;
      state := st;
      events := events + [StateChanged(previousState, st)];
    }

    method OnMessageReceived(msg: Frame)
      modifies this
      ensures View() == Receive(old(View()), msg)
      ensures sent == old(sent) && clientTransitionTime == old(clientTransitionTime) && disposed == old(disposed)
    {
      if msg.messageType != Text || msg.text.None? {
        return;
      }
      var sections := msg.text.value;
      if sections.info.Some? {
        UpdateInfoFromMessage(sections.info);
      }
      if sections.state.Some? {
        UpdateStateFromMessage(sections.state);
      }
    }

    method OnDisconnectionHappened(kind: DisconnectionType)
      modifies this
      ensures View() == Disconnect(old(View()), kind)
      ensures sent == old(sent) && clientTransitionTime == old(clientTransitionTime) && disposed == old(disposed)
    {
      UpdateInfoFromMessage(None);
      UpdateStateFromMessage(None);
      events := events + [Disconnected(kind)];
    }

    /** The transport stops (its own flags go down) and reports the disconnection. */
    method TransportClosed(kind: DisconnectionType)
      modifies this
      ensures View() == Drop(old(View()), kind)
      ensures sent == old(sent) && clientTransitionTime == old(clientTransitionTime) && disposed == old(disposed)
    {
      running, started := false, false;
      OnDisconnectionHappened(kind);
    }

    /**
     * `ConnectAsync(waitUntilReady)`. `startSucceeds` is the outcome of
     * StartOrFail and `arrivals` what the transport delivers before the
     * five-second timeout. A failed start first reports an Error disconnection,
     * which the subscribed handler turns into cleared snapshots and three
     * events, and is then rethrown. A timeout throws but leaves the connection up.
     */
    method ConnectAsync(waitUntilReady: bool, startSucceeds: bool, arrivals: seq<Arrival>) returns (r: Outcome<Error>)
      modifies this
      ensures old(IsConnected()) ==> r == Fail(AlreadyConnected) && View() == old(View())
      ensures !old(IsConnected()) && !startSucceeds ==> r == Fail(StartFailed) && View() == Disconnect(old(View()), TransportError)
      ensures !old(IsConnected()) && startSucceeds ==>
                View() == ArriveAll(old(View()).(running := true, started := true), if waitUntilReady then arrivals else [])
      ensures !old(IsConnected()) && startSucceeds && !waitUntilReady ==> r == Pass
      ensures !old(IsConnected()) && startSucceeds && waitUntilReady ==>
                (r == Pass <==> Ready(old(View()), arrivals)) && (r.Fail? ==> r.error == ReadyTimeout)
      ensures sent == old(sent) && clientTransitionTime == old(clientTransitionTime) && disposed == old(disposed)
    {
      if IsConnected() {
        return Fail(AlreadyConnected);
      }
      if !startSucceeds {
        OnDisconnectionHappened(TransportError);
        return Fail(StartFailed);
      }
      running, started := true, true;
      if !waitUntilReady {
        return Pass;
      }
      var infoReceived, stateReceived := DeliverAll(arrivals);
      if !(infoReceived && stateReceived) {
        return Fail(ReadyTimeout);
      }
      return Pass;
    }

    /**
     * The wait of BlockUntilReadyAsync: every arrival is delivered in order,
     * and each wait completes once its snapshot is there or its change event fires.
     */
    method DeliverAll(arrivals: seq<Arrival>) returns (infoReceived: bool, stateReceived: bool)
      modifies this
      ensures View() == ArriveAll(old(View()), arrivals)
      ensures infoReceived && stateReceived <==> Ready(old(View()), arrivals)
      ensures sent == old(sent) && clientTransitionTime == old(clientTransitionTime) && disposed == old(disposed)
    {
      ghost var start := View();
      // A snapshot that is already there counts as received.
      infoReceived := info.Some?;
      stateReceived := state.Some?;
      var i := 0;
      while i < |arrivals|
        invariant 0 <= i <= |arrivals|
        invariant View() == ArriveAll(start, arrivals[..i])
        invariant infoReceived <==> start.info.Some? || exists j :: 0 <= j < i && SignalsInfo(arrivals[j])
        invariant stateReceived <==> start.state.Some? || exists j :: 0 <= j < i && SignalsState(arrivals[j])
        invariant sent == old(sent) && clientTransitionTime == old(clientTransitionTime) && disposed == old(disposed)
      {
        assert arrivals[..i + 1][..i] == arrivals[..i];
        match arrivals[i] {
          case Message(f) => OnMessageReceived(f);
          case Dropped(k) => TransportClosed(k);
        }
        // The one-shot handlers subscribed by BlockUntilReadyAsync complete on the first change event.
        infoReceived := infoReceived || SignalsInfo(arrivals[i]);
        stateReceived := stateReceived || SignalsState(arrivals[i]);
        i := i + 1;
      }
      assert arrivals[..|arrivals|] == arrivals;
    }

    /** `StopAsync()`: the two guards, then a normal closure reported as ByUser (closure errors are swallowed). */
    method StopAsync() returns (r: Outcome<Error>)
      modifies this
      ensures !old(running) ==> r == Fail(NotRunning) && View() == old(View())
      ensures old(running) && !old(started) ==> r == Fail(NotStarted) && View() == old(View())
      ensures old(running) && old(started) ==> r == Pass && View() == Drop(old(View()), ByUser)
      ensures sent == old(sent) && clientTransitionTime == old(clientTransitionTime) && disposed == old(disposed)
    {
      if !running {
        return Fail(NotRunning);
      }
      if !started {
        return Fail(NotStarted);
      }
      TransportClosed(ByUser);
      return Pass;
    }

    /**
     * `SendJsonAsync(message)`: a null message, then a closed connection, are
     * refused; otherwise exactly one frame (the message with its `tt`) is sent.
     */
    method SendJson(message: Option<Json>) returns (r: Outcome<Error>)
      modifies this
      ensures message.None? ==> r == Fail(NullMessage)
      ensures message.Some? && !IsConnected() ==> r == Fail(NotConnected)
      ensures message.Some? && IsConnected() && Framed(message.value, clientTransitionTime).Failure? ==>
                r == Fail(Framed(message.value, clientTransitionTime).error)
      ensures r.Pass? <==> message.Some? && IsConnected() && Framed(message.value, clientTransitionTime).Success?
      ensures sent == old(sent) + (if r.Pass? then [Framed(message.value, clientTransitionTime).value] else [])
      ensures View() == old(View()) && clientTransitionTime == old(clientTransitionTime) && disposed == old(disposed)
    {
      if message.None? {
        return Fail(NullMessage);
      }
      if !IsConnected() {
        return Fail(NotConnected);
      }
      var jsonObject := Framed(message.value, clientTransitionTime);
      if jsonObject.Failure? {
        return Fail(jsonObject.error);
      }
      sent := sent + [jsonObject.value];
      return Pass;
    }

    /** `RequestUpdateAsync()`: sends `{v: true}`, which succeeds exactly when connected. */
    method RequestUpdate() returns (r: Outcome<Error>)
      modifies this
      ensures r.Pass? <==> IsConnected()
      ensures !IsConnected() ==> r == Fail(NotConnected)
      ensures sent == old(sent) + (if r.Pass? then [Framed(UpdateRequest, clientTransitionTime).value] else [])
      ensures View() == old(View()) && clientTransitionTime == old(clientTransitionTime) && disposed == old(disposed)
    {
      KeysSingle("v", JBool(true));
      r := SendJson(Some(UpdateRequest));
    }

    /** `Dispose()`: a stop whose errors are ignored, then the transport is disposed. */
    method Dispose()
      modifies this
      ensures disposed
      ensures old(IsConnected()) ==> View() == Drop(old(View()), ByUser)
      ensures !old(IsConnected()) ==> View() == old(View())
      ensures sent == old(sent) && clientTransitionTime == old(clientTransitionTime)
    {
      var _ := StopAsync();
      disposed := true;
    }
  }
}
