/**
 * The gateway session state machine of src/client/client.go, as pure
 * transitions over the `Client` fields. Each function is the specification
 * of the `Gateway.Client` method of the same name: it maps the fields before
 * the call, and what the transport delivers, to the fields after it and the
 * error the Go method returns.
 *
 * The transport is a parameter: `dialOk` and `writeOk` say whether the dial
 * or a write succeeded, a received frame is given already parsed, and every
 * frame written successfully is appended to `outbox`. The mutex is not
 * modelled; each function runs as one sequential step.
 */
module Session {
  import opened Wrappers
  import opened Wire
  import Opcodes

  /** A frame the client has written to the connection. */
  datatype Sent =
    | SentIdentify(identify: IdentifyMessage)
    | SentHeartbeat(heartbeat: HeartbeatMessage)

  /**
   * The fields of `Client` that the core reads or writes. `connected` stands
   * for `connection != nil`; `heartbeatInterval` is in nanoseconds.
   */
  datatype State = State(
    token: string,
    prefix: string,
    gateway: string,
    sessionId: string,
    resumeGateway: string,
    heartbeatInterval: Int64,
    lastHeartbeatAcked: bool,
    lastHeartbeatTimestamp: Int64,
    sequence: Int64,
    isResuming: bool,
    connected: bool,
    outbox: seq<Sent>)

  /** The errors the modelled methods return. */
  datatype Error =
    | GatewayNotSet
    | DialFailed
    | HelloNotReceived
    | HelloUndecodable
    | InvalidHandshake(got: Int64)
    | IdentifyFailed(cause: Error)
    | ConnectionNotOpen
    | IdentifyNotSent
    | HeartbeatNotAcknowledged
    | HeartbeatNotSent
    | MessageUndecodable
    | ReadyUndecodable
    | RequestedHeartbeatFailed(cause: Error)
    | ReconnectRequested
    | InvalidSessionUndecodable
    | InvalidSessionResumable
    | InvalidSessionNotResumable

  /** A Go `error` result: `nil` or an error. */
  datatype Status = Ok | Err(error: Error)

  datatype Outcome = Outcome(state: State, status: Status)

  /** What reading the first frame gave: a read error, or a body (`None` if it is not JSON). */
  datatype FirstFrame = ReadFailed | Received(body: Option<Json>)

  /**
   * One step of a connected client: a frame handed to `handleMessage` by the
   * listening loop, or a tick of the heartbeat ticker.
   */
  datatype Event =
    | Message(body: Option<Json>, nowMs: Int64, writeOk: bool)
    | Tick(nowMs: Int64, writeOk: bool)

  /**
   * The fields a connected client's packet handling never touches stay put,
   * and the outbox only grows.
   */
  ghost predicate Preserves(s: State, t: State) {
    t.token == s.token && t.prefix == s.prefix && t.gateway == s.gateway &&
    t.heartbeatInterval == s.heartbeatInterval && t.connected == s.connected &&
    s.outbox <= t.outbox
  }

  /** The `Client` that `NewBot` returns once the gateway URL is known. */
  function NewBot(token: string, prefix: string, gateway: string): (s: State)
    ensures s.sequence == -1 && s.lastHeartbeatAcked && s.sessionId == "" && s.resumeGateway == ""
    ensures !s.isResuming && !s.connected && s.outbox == []
    ensures s.token == token && s.prefix == prefix && s.gateway == gateway
  {
    State(token, prefix, gateway, "", "", 0, true, 0, -1, false, false, [])
  }

  /** The Identify message `identify` builds. */
  function IdentifyPayload(token: string, intents: Int64): (m: IdentifyMessage)
    ensures m.op == Opcodes.Value(Opcodes.Identify) && m.d.token == token && m.d.intents == intents
    ensures m.d.properties == Properties("linux", "discord_go", "discord_go") && m.d.shard == [0, 1]
    // the fields `identify` leaves unset keep Go's zero values
    ensures !m.d.compress && m.d.largeThreshold == 0 && m.d.presence == Null
  {
    IdentifyMessage(
      Opcodes.Value(Opcodes.Identify),
      IdentifyData(token, Properties("linux", "discord_go", "discord_go"), false, 0, [0, 1], Null, intents))
  }

  /** `identify`: needs a connection, then writes one Identify frame. */
  function Identify(s: State, intents: Int64, writeOk: bool): (o: Outcome)
    ensures o.state == s || o.state == s.(outbox := s.outbox + [SentIdentify(IdentifyPayload(s.token, intents))])
    ensures o.status.Ok? <==> o.state != s
    ensures !s.connected ==> o.status == Err(ConnectionNotOpen)
    ensures s.connected ==> (o.status == Ok <==> writeOk)
    ensures s.connected && !writeOk ==> o == Outcome(s, Err(IdentifyNotSent))
  {
    if !s.connected then Outcome(s, Err(ConnectionNotOpen))
    else if !writeOk then Outcome(s, Err(IdentifyNotSent))
    else Outcome(s.(outbox := s.outbox + [SentIdentify(IdentifyPayload(s.token, intents))]), Ok)
  }

  /**
   * The handshake of `ConnectToGateway`, up to starting the heartbeat and
   * listening loops: dial, read the first frame, require it to be Hello,
   * record the interval, identify.
   */
  function Connect(s: State, dialOk: bool, first: FirstFrame, intents: Int64, writeOk: bool): (o: Outcome)
    ensures s.gateway == "" ==> o == Outcome(s, Err(GatewayNotSet))
    ensures s.gateway != "" && !dialOk ==> o == Outcome(s, Err(DialFailed))
    ensures s.gateway != "" && dialOk && first.Received? && first.body.Some? &&
            DecodeHello(first.body.value).Some? &&
            DecodeHello(first.body.value).value.op != Opcodes.Value(Opcodes.Hello) ==>
      o == Outcome(s.(connected := true), Err(InvalidHandshake(DecodeHello(first.body.value).value.op)))
    ensures o.status.Ok? <==>
      s.gateway != "" && dialOk && first.Received? && first.body.Some? &&
      DecodeHello(first.body.value).Some? &&
      DecodeHello(first.body.value).value.op == Opcodes.Value(Opcodes.Hello) && writeOk
    ensures o.status.Ok? ==>
      o.state == s.(connected := true,
                    heartbeatInterval := MillisToDuration(DecodeHello(first.body.value).value.d.heartbeatInterval),
                    outbox := s.outbox + [SentIdentify(IdentifyPayload(s.token, intents))])
  {
    if s.gateway == "" then Outcome(s, Err(GatewayNotSet))
    else if !dialOk then Outcome(s, Err(DialFailed))
    else
      var dialled := s.(connected := true);
      match first
      case ReadFailed => Outcome(dialled, Err(HelloNotReceived))
      case Received(body) =>
        var hello := if body.Some? then DecodeHello(body.value) else None;
        if hello.None? then Outcome(dialled, Err(HelloUndecodable))
        else if hello.value.op != Opcodes.Value(Opcodes.Hello) then
          Outcome(dialled, Err(InvalidHandshake(hello.value.op)))
        else
          var timed := dialled.(heartbeatInterval := MillisToDuration(hello.value.d.heartbeatInterval));
          var identified := Identify(timed, intents, writeOk);
          if identified.status.Err? then Outcome(identified.state, Err(IdentifyFailed(identified.status.error)))
          else identified
  }

  /**
   * `sendHeartbeat`: refused while the last heartbeat is unacknowledged;
   * otherwise the ack flag drops and the send time is recorded before the
   * write, and a successful write carries the current sequence.
   * Writing on a nil connection panics in Go, hence the precondition.
   */
  function SendHeartbeat(s: State, nowMs: Int64, writeOk: bool): (o: Outcome)
    requires s.connected || !s.lastHeartbeatAcked
    ensures Preserves(s, o.state)
    ensures |o.state.outbox| <= |s.outbox| + 1
    ensures o.state.sequence == s.sequence && o.state.sessionId == s.sessionId
    ensures o.state.resumeGateway == s.resumeGateway && o.state.isResuming == s.isResuming
    ensures |o.state.outbox| > |s.outbox| ==> !o.state.lastHeartbeatAcked
  {
    if !s.lastHeartbeatAcked then Outcome(s, Err(HeartbeatNotAcknowledged))
    else
      var pending := s.(lastHeartbeatAcked := false, lastHeartbeatTimestamp := nowMs);
      if writeOk then
        var beat := HeartbeatMessage(Opcodes.Value(Opcodes.Heartbeat), s.sequence);
        Outcome(pending.(outbox := pending.outbox + [SentHeartbeat(beat)]), Ok)
      else Outcome(pending, Err(HeartbeatNotSent))
  }

  /** `acknowledgeHeartbeat`. */
  function Acknowledge(s: State, nowMs: Int64): (t: State)
    ensures Preserves(s, t) && t.outbox == s.outbox && t.lastHeartbeatAcked
  {
    s.(lastHeartbeatAcked := true, lastHeartbeatTimestamp := nowMs)
  }

  /** `handleInvalidSession`: every outcome is an error, the flag only picks which. */
  function HandleInvalidSession(d: Option<Json>): (st: Status)
    ensures st.Err?
    ensures st == Err(InvalidSessionResumable) <==> DecodeFlag(d) == Some(true)
    ensures st == Err(InvalidSessionUndecodable) <==> DecodeFlag(d).None?
  {
    match DecodeFlag(d)
    case None => Err(InvalidSessionUndecodable)
    case Some(true) => Err(InvalidSessionResumable)
    case Some(false) => Err(InvalidSessionNotResumable)
  }

  /**
   * The first switch of `handleMessage`, on the event name. READY stores the
   * session, forces the ack flag and sends a heartbeat whose error is only
   * logged; RESUMED clears `isResuming`; other names do nothing here.
   */
  function OnEventName(s: State, p: Packet, nowMs: Int64, writeOk: bool): (o: Outcome)
    requires s.connected
    ensures Preserves(s, o.state)
    ensures |o.state.outbox| <= |s.outbox| + 1
    ensures o.state.sequence == s.sequence
    ensures o.status.Err? ==> o == Outcome(s, Err(ReadyUndecodable))
    ensures |o.state.outbox| > |s.outbox| ==> !o.state.lastHeartbeatAcked
    ensures p.t != "READY" && p.t != "RESUMED" ==> o == Outcome(s, Ok)
  {
    if p.t == "READY" then
      match DecodeReady(p.d)
      case None => Outcome(s, Err(ReadyUndecodable))
      case Some(ready) =>
        var ackd := s.(sessionId := ready.sessionId, resumeGateway := ready.resumeUrl, lastHeartbeatAcked := true);
        Outcome(SendHeartbeat(ackd, nowMs, writeOk).state, Ok)
    else if p.t == "RESUMED" then Outcome(s.(isResuming := false), Ok)
    else Outcome(s, Ok)
  }

  /** The opcodes the opcode switch of `handleMessage` names. */
  predicate Switched(op: Int64) {
    op in {Opcodes.Value(Opcodes.HeartbeatAck), Opcodes.Value(Opcodes.Heartbeat), Opcodes.Value(Opcodes.Reconnect),
           Opcodes.Value(Opcodes.Dispatch), Opcodes.Value(Opcodes.InvalidSession)}
  }

  /**
   * The second switch of `handleMessage`, on the opcode. An error here is
   * an early return that skips the trailing sequence update.
   */
  function OnOpcode(s: State, p: Packet, nowMs: Int64, writeOk: bool): (o: Outcome)
    requires s.connected
    ensures Preserves(s, o.state)
    ensures |o.state.outbox| <= |s.outbox| + 1
    // only a requested heartbeat through an open gate sends a frame
    ensures !s.lastHeartbeatAcked ==> o.state.outbox == s.outbox
    ensures p.op == Opcodes.Value(Opcodes.Heartbeat) && s.lastHeartbeatAcked && writeOk ==>
      o.status == Ok &&
      o.state.outbox == s.outbox + [SentHeartbeat(HeartbeatMessage(Opcodes.Value(Opcodes.Heartbeat), s.sequence))]
    // an opcode the switch does not name changes nothing
    ensures !Switched(p.op) ==> o == Outcome(s, Ok)
  {
    if p.op == Opcodes.Value(Opcodes.HeartbeatAck) then Outcome(Acknowledge(s, nowMs), Ok)
    else if p.op == Opcodes.Value(Opcodes.Heartbeat) then
      var beat := SendHeartbeat(s, nowMs, writeOk);
      if beat.status.Err? then Outcome(beat.state, Err(RequestedHeartbeatFailed(beat.status.error)))
      else beat
    else if p.op == Opcodes.Value(Opcodes.Reconnect) then Outcome(s, Err(ReconnectRequested))
    else if p.op == Opcodes.Value(Opcodes.Dispatch) then Outcome(s.(sequence := p.s), Ok)
    else if p.op == Opcodes.Value(Opcodes.InvalidSession) then Outcome(s, HandleInvalidSession(p.d))
    else Outcome(s, Ok)
  }

  /** The trailing update of `handleMessage`: a positive `s` raises the sequence to it. */
  function TrackSequence(s: State, received: Int64): (t: State)
    ensures t == s.(sequence := t.sequence)
    ensures t.sequence >= s.sequence && (received > 0 ==> t.sequence >= received)
    ensures t.sequence == s.sequence || (received > 0 && t.sequence == received)
  {
    if received > 0 && received > s.sequence then s.(sequence := received) else s
  }

  /**
   * `handleMessage`. It is only called by the listening loop, which first
   * checks that the connection is open.
   */
  function HandleMessage(s: State, body: Option<Json>, nowMs: Int64, writeOk: bool): (o: Outcome)
    requires s.connected
    ensures Preserves(s, o.state)
    ensures |o.state.outbox| <= |s.outbox| + 1
  {
    var packet := if body.Some? then DecodePacket(body.value) else None;
    if packet.None? then Outcome(s, Err(MessageUndecodable))
    else
      var p := packet.value;
      var named := OnEventName(s, p, nowMs, writeOk);
      if named.status.Err? then named
      else
        var handled := OnOpcode(named.state, p, nowMs, writeOk);
        if handled.status.Err? then handled
        else Outcome(TrackSequence(handled.state, p.s), Ok)
  }

  /**
   * One step of the running client: the listening loop handles a frame, or
   * the heartbeat ticker fires. Errors are logged and the loops go on.
   */
  function Step(s: State, e: Event): (o: Outcome)
    requires s.connected
    ensures Preserves(s, o.state)
  {
    match e
    case Message(body, nowMs, writeOk) => HandleMessage(s, body, nowMs, writeOk)
    case Tick(nowMs, writeOk) => SendHeartbeat(s, nowMs, writeOk)
  }

  /** The state after the events, handled in order. */
  function Run(s: State, events: seq<Event>): (t: State)
    requires s.connected
    ensures Preserves(s, t)
    decreases |events|
  {
    if events == [] then s
    else Step(Run(s, events[..|events| - 1]), events[|events| - 1]).state
  }

  /** The error each event of a run produced, in order. */
  function Statuses(s: State, events: seq<Event>): (r: seq<Status>)
    requires s.connected
    ensures |r| == |events|
    decreases |events|
  {
    if events == [] then []
    else
      var init := events[..|events| - 1];
      Statuses(s, init) + [Step(Run(s, init), events[|events| - 1]).status]
  }

  /** One more event: the run extends by one step. */
  lemma RunExtends(s: State, events: seq<Event>, i: nat)
    requires s.connected && i < |events|
    ensures Run(s, events[..i + 1]) == Step(Run(s, events[..i]), events[i]).state
    ensures Statuses(s, events[..i + 1]) == Statuses(s, events[..i]) + [Step(Run(s, events[..i]), events[i]).status]
  {
    assert events[..i + 1][..i] == events[..i];
  }
}
