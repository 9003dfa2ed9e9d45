/**
 * What the client's code promises, stated over the transitions of module
 * Session: the heartbeat acknowledgement gate, the handshake rules, what
 * each kind of packet changes, and two facts about whole runs.
 */
module SessionProperties {
  import opened Wrappers
  import opened Wire
  import Opcodes
  import opened Session

  // ---------------------------------------------------------------------
  // A fresh client
  // ---------------------------------------------------------------------

  /** A fresh client has seen no sequence, has its gate open and holds no session. */
  lemma FreshClient(token: string, prefix: string, gateway: string)
    ensures var s := NewBot(token, prefix, gateway);
      s.sequence == -1 && s.lastHeartbeatAcked && s.sessionId == "" && s.resumeGateway == "" &&
      !s.isResuming && !s.connected && s.outbox == [] && s.gateway == gateway && s.token == token
  {
  }

  // ---------------------------------------------------------------------
  // The heartbeat acknowledgement gate
  // ---------------------------------------------------------------------

  /** While the last heartbeat is unacknowledged, a heartbeat is refused and nothing changes. */
  lemma UnacknowledgedHeartbeatRefused(s: State, nowMs: Int64, writeOk: bool)
    requires !s.lastHeartbeatAcked
    ensures SendHeartbeat(s, nowMs, writeOk) == Outcome(s, Err(HeartbeatNotAcknowledged))
  {
  }

  /**
   * With the gate open, a heartbeat closes it and stamps the time whether or
   * not the write succeeds; a successful write emits exactly one Heartbeat
   * frame carrying the current sequence. Nothing else changes.
   */
  lemma AcknowledgedHeartbeatSent(s: State, nowMs: Int64, writeOk: bool)
    requires s.connected && s.lastHeartbeatAcked
    ensures var o := SendHeartbeat(s, nowMs, writeOk);
      var frame := SentHeartbeat(HeartbeatMessage(Opcodes.Value(Opcodes.Heartbeat), s.sequence));
      o.state == s.(lastHeartbeatAcked := false, lastHeartbeatTimestamp := nowMs,
                    outbox := if writeOk then s.outbox + [frame] else s.outbox) &&
      o.status == (if writeOk then Ok else Err(HeartbeatNotSent))
  {
  }

  /** Two heartbeats with no acknowledgement between them: the second is refused. */
  lemma SecondHeartbeatRefused(s: State, t1: Int64, w1: bool, t2: Int64, w2: bool)
    requires s.connected
    ensures var first := SendHeartbeat(s, t1, w1);
      SendHeartbeat(first.state, t2, w2) == Outcome(first.state, Err(HeartbeatNotAcknowledged))
  {
  }

  /** Acknowledging touches only the flag and the timestamp, and is idempotent. */
  lemma AcknowledgeOnlyOpensGate(s: State, t1: Int64, t2: Int64)
    ensures Acknowledge(s, t1) == s.(lastHeartbeatAcked := true, lastHeartbeatTimestamp := t1)
    ensures Acknowledge(Acknowledge(s, t1), t2) == Acknowledge(s, t2)
  {
  }

  /** After an acknowledgement the next heartbeat passes the gate. */
  lemma AcknowledgeReopensGate(s: State, t1: Int64, w1: bool, t2: Int64, t3: Int64)
    requires s.connected
    ensures var beat := SendHeartbeat(s, t1, w1);
      SendHeartbeat(Acknowledge(beat.state, t2), t3, true).status == Ok
  {
  }

  // ---------------------------------------------------------------------
  // The handshake
  // ---------------------------------------------------------------------

  /** An empty gateway URL is an error before anything is dialled. */
  lemma EmptyGatewayRefused(s: State, dialOk: bool, first: FirstFrame, intents: Int64, writeOk: bool)
    requires s.gateway == ""
    ensures Connect(s, dialOk, first, intents, writeOk) == Outcome(s, Err(GatewayNotSet))
  {
  }

  /**
   * A first frame that decodes but is not Hello is an invalid handshake:
   * the interval stays unset and no Identify is sent.
   */
  lemma NonHelloFirstFrameRefused(s: State, body: Json, intents: Int64, writeOk: bool)
    requires s.gateway != ""
    requires DecodeHello(body).Some? && DecodeHello(body).value.op != Opcodes.Value(Opcodes.Hello)
    ensures var o := Connect(s, true, Received(Some(body)), intents, writeOk);
      o.status == Err(InvalidHandshake(DecodeHello(body).value.op)) &&
      o.state.heartbeatInterval == s.heartbeatInterval && o.state.outbox == s.outbox
  {
  }

  /**
   * The gateway's published Hello code (10) is HeartbeatAck here, so a first
   * frame carrying it fails the handshake.
   */
  lemma PublishedHelloCodeRefused(s: State, interval: Int64, intents: Int64, writeOk: bool)
    requires s.gateway != ""
    ensures var hello := EncodeHello(HelloMessage(Opcodes.Documented(Opcodes.Hello), HelloData(interval)));
      Connect(s, true, Received(Some(hello)), intents, writeOk).status == Err(InvalidHandshake(10))
  {
    HelloRoundTrip(HelloMessage(Opcodes.Documented(Opcodes.Hello), HelloData(interval)));
  }

  /**
   * On Hello the interval becomes `heartbeat_interval` milliseconds and one
   * Identify frame carrying the token is sent; nothing else changes.
   */
  lemma HelloRecordsIntervalAndIdentifies(s: State, ms: Int64, intents: Int64)
    requires s.gateway != ""
    requires 0 <= ms <= MaxInt64 / NanosPerMilli
    ensures var hello := EncodeHello(HelloMessage(Opcodes.Value(Opcodes.Hello), HelloData(ms)));
      var o := Connect(s, true, Received(Some(hello)), intents, true);
      o.status == Ok &&
      o.state == s.(connected := true, heartbeatInterval := ms * NanosPerMilli,
                    outbox := s.outbox + [SentIdentify(IdentifyPayload(s.token, intents))])
  {
    HelloRoundTrip(HelloMessage(Opcodes.Value(Opcodes.Hello), HelloData(ms)));
  }

  // ---------------------------------------------------------------------
  // Packets
  // ---------------------------------------------------------------------

  /** The body of a frame carrying `p`. */
  function Frame(p: Packet): Option<Json> {
    Some(EncodePacket(p))
  }

  /**
   * READY stores the session and forces the gate open, so its heartbeat is
   * always sent, whatever the flag was; the heartbeat carries the sequence
   * from before the packet, and the Dispatch opcode then sets the sequence.
   */
  lemma ReadyStoresSessionAndBeats(s: State, p: Packet, ready: ReadyData, nowMs: Int64)
    requires s.connected
    requires p.t == "READY" && p.op == Opcodes.Value(Opcodes.Dispatch) && DecodeReady(p.d) == Some(ready)
    ensures var o := HandleMessage(s, Frame(p), nowMs, true);
      var beat := SentHeartbeat(HeartbeatMessage(Opcodes.Value(Opcodes.Heartbeat), s.sequence));
      o.status == Ok &&
      o.state == s.(sessionId := ready.sessionId, resumeGateway := ready.resumeUrl,
                    lastHeartbeatAcked := false, lastHeartbeatTimestamp := nowMs,
                    sequence := p.s, outbox := s.outbox + [beat])
  {
    PacketRoundTrip(p);
  }

  /** A Dispatch packet sets the sequence to its own `s`, even below the old value. */
  lemma DispatchAssignsSequence(s: State, p: Packet, nowMs: Int64, writeOk: bool)
    requires s.connected
    requires p.op == Opcodes.Value(Opcodes.Dispatch)
    requires p.t != "READY" || DecodeReady(p.d).Some?
    ensures var o := HandleMessage(s, Frame(p), nowMs, writeOk);
      o.status == Ok && o.state.sequence == p.s
  {
    PacketRoundTrip(p);
  }

  /**
   * Any other packet that reaches the end of `handleMessage` raises the
   * sequence to its `s` when that is positive and larger, and otherwise
   * leaves it alone.
   */
  lemma TrailingUpdateIsMax(s: State, p: Packet, nowMs: Int64, writeOk: bool)
    requires s.connected
    requires p.op != Opcodes.Value(Opcodes.Dispatch)
    requires HandleMessage(s, Frame(p), nowMs, writeOk).status == Ok
    ensures HandleMessage(s, Frame(p), nowMs, writeOk).state.sequence ==
      if p.s > 0 && p.s > s.sequence then p.s else s.sequence
  {
    PacketRoundTrip(p);
    var named := OnEventName(s, p, nowMs, writeOk);
    var handled := OnOpcode(named.state, p, nowMs, writeOk);
    assert handled.state.sequence == named.state.sequence;
  }

  /**
   * Packets that return early change nothing, not even the sequence:
   * Reconnect, InvalidSession, a requested heartbeat while unacknowledged,
   * an undecodable READY and a frame that is not a packet.
   */
  lemma EarlyReturnsChangeNothing(s: State, p: Packet, nowMs: Int64, writeOk: bool)
    requires s.connected
    requires
      || (p.t != "READY" && p.t != "RESUMED" &&
          (|| p.op == Opcodes.Value(Opcodes.Reconnect)
           || p.op == Opcodes.Value(Opcodes.InvalidSession)
           || (p.op == Opcodes.Value(Opcodes.Heartbeat) && !s.lastHeartbeatAcked)))
      || (p.t == "READY" && DecodeReady(p.d).None?)
    ensures var o := HandleMessage(s, Frame(p), nowMs, writeOk);
      o.state == s && o.status.Err?
  {
    PacketRoundTrip(p);
  }

  /** A frame that does not decode to a packet changes nothing. */
  lemma UndecodableFrameChangesNothing(s: State, body: Option<Json>, nowMs: Int64, writeOk: bool)
    requires s.connected
    requires body.None? || DecodePacket(body.value).None?
    ensures HandleMessage(s, body, nowMs, writeOk) == Outcome(s, Err(MessageUndecodable))
  {
  }

  /** InvalidSession is always an error, resumable or not, and changes nothing. */
  lemma InvalidSessionAlwaysFails(s: State, resumable: bool, nowMs: Int64, writeOk: bool)
    requires s.connected
    ensures var p := Packet(Opcodes.Value(Opcodes.InvalidSession), "", Some(Bool(resumable)), 0);
      HandleMessage(s, Frame(p), nowMs, writeOk) ==
        Outcome(s, Err(if resumable then InvalidSessionResumable else InvalidSessionNotResumable))
  {
    PacketRoundTrip(Packet(Opcodes.Value(Opcodes.InvalidSession), "", Some(Bool(resumable)), 0));
  }

  /** A RESUMED dispatch clears `isResuming` and sets the sequence, nothing else. */
  lemma ResumedClearsResuming(s: State, p: Packet, nowMs: Int64, writeOk: bool)
    requires s.connected
    requires p.t == "RESUMED" && p.op == Opcodes.Value(Opcodes.Dispatch)
    ensures HandleMessage(s, Frame(p), nowMs, writeOk) == Outcome(s.(isResuming := false, sequence := p.s), Ok)
  {
    PacketRoundTrip(p);
  }

  /** A HeartbeatAck opens the gate and, without a sequence, changes nothing else. */
  lemma HeartbeatAckOpensGate(s: State, nowMs: Int64, writeOk: bool)
    requires s.connected
    ensures var p := Packet(Opcodes.Value(Opcodes.HeartbeatAck), "", None, 0);
      HandleMessage(s, Frame(p), nowMs, writeOk) == Outcome(Acknowledge(s, nowMs), Ok)
  {
    PacketRoundTrip(Packet(Opcodes.Value(Opcodes.HeartbeatAck), "", None, 0));
  }

  /**
   * A server-requested heartbeat through an open gate sends exactly one
   * Heartbeat frame carrying the current sequence and succeeds.
   */
  lemma RequestedHeartbeatSent(s: State, nowMs: Int64)
    requires s.connected && s.lastHeartbeatAcked
    ensures var p := Packet(Opcodes.Value(Opcodes.Heartbeat), "", None, 0);
      var o := HandleMessage(s, Frame(p), nowMs, true);
      o.status == Ok &&
      o.state == s.(lastHeartbeatAcked := false, lastHeartbeatTimestamp := nowMs,
                    outbox := s.outbox + [SentHeartbeat(HeartbeatMessage(Opcodes.Value(Opcodes.Heartbeat), s.sequence))])
  {
    PacketRoundTrip(Packet(Opcodes.Value(Opcodes.Heartbeat), "", None, 0));
  }

  /**
   * A packet whose opcode the switch does not name and whose event name is
   * neither READY nor RESUMED changes nothing but the trailing sequence update.
   */
  lemma UnswitchedPacketOnlyTracksSequence(s: State, p: Packet, nowMs: Int64, writeOk: bool)
    requires s.connected
    requires p.t != "READY" && p.t != "RESUMED" && !Switched(p.op)
    ensures HandleMessage(s, Frame(p), nowMs, writeOk) ==
      Outcome(s.(sequence := if p.s > 0 && p.s > s.sequence then p.s else s.sequence), Ok)
  {
    PacketRoundTrip(p);
  }

  /**
   * The handshake accepts a Hello without an interval: the client goes on
   * with a heartbeat interval of 0, which `time.NewTicker` rejects by
   * panicking.
   */
  lemma HandshakeAcceptsZeroInterval(s: State, intents: Int64)
    requires s.gateway != ""
    ensures var hello := Obj(map["op" := Num(Opcodes.Value(Opcodes.Hello))]);
      var o := Connect(s, true, Received(Some(hello)), intents, true);
      o.status == Ok && o.state.heartbeatInterval == 0
  {
  }

  /** Dispatch 5 followed by Dispatch 3 leaves the sequence at 3: it is not a running maximum. */
  lemma DispatchSequenceCanDecrease(s: State, nowMs: Int64, writeOk: bool)
    requires s.connected
    ensures var five := Packet(Opcodes.Value(Opcodes.Dispatch), "MESSAGE_CREATE", None, 5);
      var three := Packet(Opcodes.Value(Opcodes.Dispatch), "MESSAGE_CREATE", None, 3);
      var after5 := HandleMessage(s, Frame(five), nowMs, writeOk).state;
      after5.sequence == 5 && HandleMessage(after5, Frame(three), nowMs, writeOk).state.sequence == 3
  {
    DispatchAssignsSequence(s, Packet(Opcodes.Value(Opcodes.Dispatch), "MESSAGE_CREATE", None, 5), nowMs, writeOk);
    var after5 := HandleMessage(s, Frame(Packet(Opcodes.Value(Opcodes.Dispatch), "MESSAGE_CREATE", None, 5)), nowMs, writeOk).state;
    DispatchAssignsSequence(after5, Packet(Opcodes.Value(Opcodes.Dispatch), "MESSAGE_CREATE", None, 3), nowMs, writeOk);
  }

  /**
   * Hello(45000) on a fresh client: the connection is set, the interval is
   * 45 seconds in nanoseconds and an Identify is the one frame sent.
   */
  lemma HandshakeScenario(token: string, intents: Int64)
    ensures
      var newBot := NewBot(token, "!", "wss://gateway");
      var hello := EncodeHello(HelloMessage(Opcodes.Value(Opcodes.Hello), HelloData(45000)));
      Connect(newBot, true, Received(Some(hello)), intents, true) ==
        Outcome(newBot.(connected := true, heartbeatInterval := 45000 * NanosPerMilli,
                        outbox := [SentIdentify(IdentifyPayload(token, intents))]), Ok)
  {
    HelloRecordsIntervalAndIdentifies(NewBot(token, "!", "wss://gateway"), 45000, intents);
  }

  /**
   * READY("abc", "wss://x") with s = 1 and then a HeartbeatAck, on a client
   * that has seen no sequence yet: one heartbeat carrying -1 is sent, the
   * session is stored, the sequence becomes 1 and the gate ends open.
   */
  lemma ReadyAckScenario(s: State, nowMs: Int64)
    requires s.connected && s.sequence == -1
    ensures
      var ready := Packet(Opcodes.Value(Opcodes.Dispatch), "READY", Some(EncodeReady(ReadyData("abc", "wss://x"))), 1);
      var ack := Packet(Opcodes.Value(Opcodes.HeartbeatAck), "", None, 0);
      var afterReady := HandleMessage(s, Frame(ready), nowMs, true);
      var afterAck := HandleMessage(afterReady.state, Frame(ack), nowMs, true);
      afterReady.status == Ok && afterAck.status == Ok &&
      afterAck.state.outbox == s.outbox + [SentHeartbeat(HeartbeatMessage(Opcodes.Value(Opcodes.Heartbeat), -1))] &&
      afterAck.state.sessionId == "abc" && afterAck.state.resumeGateway == "wss://x" &&
      afterAck.state.lastHeartbeatAcked && afterAck.state.sequence == 1
  {
    var readyData := ReadyData("abc", "wss://x");
    ReadyRoundTrip(readyData);
    var ready := Packet(Opcodes.Value(Opcodes.Dispatch), "READY", Some(EncodeReady(readyData)), 1);
    ReadyStoresSessionAndBeats(s, ready, readyData, nowMs);
    var afterReady := HandleMessage(s, Frame(ready), nowMs, true);
    HeartbeatAckOpensGate(afterReady.state, nowMs, true);
  }

  // ---------------------------------------------------------------------
  // Whole runs
  // ---------------------------------------------------------------------

  /** The heartbeat frames in an outbox. */
  function HeartbeatCount(out: seq<Sent>): nat
    decreases |out|
  {
    if out == [] then 0
    else HeartbeatCount(out[..|out| - 1]) + (if out[|out| - 1].SentHeartbeat? then 1 else 0)
  }

  /** The heartbeat frames a client has sent plus the one its open gate still allows. */
  function Allowance(s: State): nat {
    HeartbeatCount(s.outbox) + (if s.lastHeartbeatAcked then 1 else 0)
  }

  /** How many times an event can open the gate: a READY event name and a HeartbeatAck opcode. */
  function Acks(e: Event): nat {
    if e.Message? && e.body.Some? && DecodePacket(e.body.value).Some? then
      var p := DecodePacket(e.body.value).value;
      (if p.t == "READY" then 1 else 0) + (if p.op == Opcodes.Value(Opcodes.HeartbeatAck) then 1 else 0)
    else 0
  }

  function TotalAcks(events: seq<Event>): nat
    decreases |events|
  {
    if events == [] then 0 else TotalAcks(events[..|events| - 1]) + Acks(events[|events| - 1])
  }

  lemma HeartbeatCountAppend(out: seq<Sent>, frame: Sent)
    ensures HeartbeatCount(out + [frame]) == HeartbeatCount(out) + (if frame.SentHeartbeat? then 1 else 0)
  {
    assert (out + [frame])[..|out|] == out;
  }

  lemma SendHeartbeatAllowance(s: State, nowMs: Int64, writeOk: bool)
    requires s.connected
    ensures Allowance(SendHeartbeat(s, nowMs, writeOk).state) <= Allowance(s)
  {
    if s.lastHeartbeatAcked && writeOk {
      HeartbeatCountAppend(s.outbox, SentHeartbeat(HeartbeatMessage(Opcodes.Value(Opcodes.Heartbeat), s.sequence)));
    }
  }

  lemma OnEventNameAllowance(s: State, p: Packet, nowMs: Int64, writeOk: bool)
    requires s.connected
    ensures Allowance(OnEventName(s, p, nowMs, writeOk).state) <= Allowance(s) + (if p.t == "READY" then 1 else 0)
  {
    if p.t == "READY" && DecodeReady(p.d).Some? {
      var ready := DecodeReady(p.d).value;
      var ackd := s.(sessionId := ready.sessionId, resumeGateway := ready.resumeUrl, lastHeartbeatAcked := true);
      SendHeartbeatAllowance(ackd, nowMs, writeOk);
    }
  }

  lemma OnOpcodeAllowance(s: State, p: Packet, nowMs: Int64, writeOk: bool)
    requires s.connected
    ensures Allowance(OnOpcode(s, p, nowMs, writeOk).state) <=
      Allowance(s) + (if p.op == Opcodes.Value(Opcodes.HeartbeatAck) then 1 else 0)
  {
    if p.op == Opcodes.Value(Opcodes.Heartbeat) {
      SendHeartbeatAllowance(s, nowMs, writeOk);
    }
  }

  lemma HandleMessageAllowance(s: State, body: Option<Json>, nowMs: Int64, writeOk: bool)
    requires s.connected
    ensures Allowance(HandleMessage(s, body, nowMs, writeOk).state) <= Allowance(s) + Acks(Message(body, nowMs, writeOk))
  {
    if body.Some? && DecodePacket(body.value).Some? {
      var p := DecodePacket(body.value).value;
      OnEventNameAllowance(s, p, nowMs, writeOk);
      var named := OnEventName(s, p, nowMs, writeOk);
      if named.status.Ok? {
        OnOpcodeAllowance(named.state, p, nowMs, writeOk);
      }
    }
  }

  lemma StepAllowance(s: State, e: Event)
    requires s.connected
    ensures Allowance(Step(s, e).state) <= Allowance(s) + Acks(e)
  {
    match e
    case Tick(nowMs, writeOk) =>
      SendHeartbeatAllowance(s, nowMs, writeOk);
    case Message(body, nowMs, writeOk) =>
      HandleMessageAllowance(s, body, nowMs, writeOk);
  }

  /**
   * Heartbeats never outrun acknowledgements: over any run, the heartbeat
   * frames sent number at most the acknowledgements received, plus one if
   * the gate was open at the start. Two heartbeats always have an
   * acknowledgement (or a READY) between them.
   */
  lemma {:induction false} HeartbeatsNeedAcks(s: State, events: seq<Event>)
    requires s.connected
    ensures HeartbeatCount(Run(s, events).outbox) <=
      HeartbeatCount(s.outbox) + (if s.lastHeartbeatAcked then 1 else 0) + TotalAcks(events)
    ensures Allowance(Run(s, events)) <= Allowance(s) + TotalAcks(events)
    decreases |events|
  {
    if events != [] {
      var init := events[..|events| - 1];
      HeartbeatsNeedAcks(s, init);
      StepAllowance(Run(s, init), events[|events| - 1]);
    }
  }

  /** An event that carries a Dispatch packet. */
  predicate IsDispatch(e: Event) {
    e.Message? && e.body.Some? && DecodePacket(e.body.value).Some? &&
    DecodePacket(e.body.value).value.op == Opcodes.Value(Opcodes.Dispatch)
  }

  lemma StepKeepsSequenceUp(s: State, e: Event)
    requires s.connected && !IsDispatch(e)
    ensures Step(s, e).state.sequence >= s.sequence
  {
    if e.Message? && e.body.Some? && DecodePacket(e.body.value).Some? {
      var p := DecodePacket(e.body.value).value;
      var named := OnEventName(s, p, e.nowMs, e.writeOk);
      if named.status.Ok? {
        assert OnOpcode(named.state, p, e.nowMs, e.writeOk).state.sequence == named.state.sequence;
      }
    }
  }

  /**
   * Only a Dispatch packet can lower the sequence: over a run without one,
   * the sequence never goes down.
   */
  lemma {:induction false} SequenceRisesWithoutDispatch(s: State, events: seq<Event>)
    requires s.connected
    requires forall i :: 0 <= i < |events| ==> !IsDispatch(events[i])
    ensures Run(s, events).sequence >= s.sequence
    decreases |events|
  {
    if events != [] {
      var init := events[..|events| - 1];
      SequenceRisesWithoutDispatch(s, init);
      StepKeepsSequenceUp(Run(s, init), events[|events| - 1]);
    }
  }
}
