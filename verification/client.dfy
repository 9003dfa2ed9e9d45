/**
 * The `Client` of src/client/client.go as an object whose methods update its
 * fields in place. Each method is proved to leave the fields, and return the
 * error, that the Session function of the same name specifies; what those
 * functions guarantee is proved in SessionProperties.
 */
module Gateway {
  import opened Wrappers
  import opened Wire
  import Opcodes
  import Session

  class Client {
    const token: string
    const prefix: string
    const gateway: string

    var sessionId: string
    var resumeGateway: string
    var heartbeatInterval: Int64
    var lastHeartbeatAcked: bool
    var lastHeartbeatTimestamp: Int64
    var sequence: Int64
    var isResuming: bool
    /** `connection != nil` */
    var connected: bool
    /** Every frame written successfully to the connection, in order. */
    var outbox: seq<Session.Sent>

    /** The fields as a Session state. */
    function Model(): Session.State
      reads this
    {
      Session.State(token, prefix, gateway, sessionId, resumeGateway, heartbeatInterval,
                    lastHeartbeatAcked, lastHeartbeatTimestamp, sequence, isResuming, connected, outbox)
    }

    /** `NewBot` once the bootstrap request has returned the gateway URL. */
    constructor (token: string, prefix: string, gateway: string)
      ensures Model() == Session.NewBot(token, prefix, gateway)
      ensures sequence == -1 && lastHeartbeatAcked && sessionId == "" && resumeGateway == ""
    {
      this.token := token;
      this.prefix := prefix;
      this.gateway := gateway;
      sessionId := "";
      resumeGateway := "";
      heartbeatInterval := 0;
      lastHeartbeatAcked := true;
      lastHeartbeatTimestamp := 0;
      sequence := -1;
      isResuming := false;
      connected := false;
      outbox := [];
    }

    /** The handshake of `ConnectToGateway`. */
    method ConnectToGateway(dialOk: bool, first: Session.FirstFrame, intents: Int64, writeOk: bool)
      returns (result: Session.Status)
      modifies this
      ensures Session.Outcome(Model(), result) == Session.Connect(old(Model()), dialOk, first, intents, writeOk)
    {
      if gateway == "" {
        return Session.Err(Session.GatewayNotSet);
      }
      if !dialOk {
        return Session.Err(Session.DialFailed);
      }
      connected := true;
      if first.ReadFailed? {
        return Session.Err(Session.HelloNotReceived);
      }
      var hello := if first.body.Some? then DecodeHello(first.body.value) else None;
      if hello.None? {
        return Session.Err(Session.HelloUndecodable);
      }
      if hello.value.op != Opcodes.Value(Opcodes.Hello) {
        return Session.Err(Session.InvalidHandshake(hello.value.op));
      }
      heartbeatInterval := MillisToDuration(hello.value.d.heartbeatInterval);
      var identified := Identify(intents, writeOk);
      if identified.Err? {
        return Session.Err(Session.IdentifyFailed(identified.error));
      }
      return Session.Ok;
    }

    /** `identify`. */
    method Identify(intents: Int64, writeOk: bool) returns (result: Session.Status)
      modifies this
      ensures Session.Outcome(Model(), result) == Session.Identify(old(Model()), intents, writeOk)
    {
      if !connected {
        return Session.Err(Session.ConnectionNotOpen);
      }
      if !writeOk {
        return Session.Err(Session.IdentifyNotSent);
      }
      outbox := outbox + [Session.SentIdentify(Session.IdentifyPayload(token, intents))];
      return Session.Ok;
    }

    /** `sendHeartbeat`. */
    method SendHeartbeat(nowMs: Int64, writeOk: bool) returns (result: Session.Status)
      requires connected || !lastHeartbeatAcked
      modifies this
      ensures Session.Outcome(Model(), result) == Session.SendHeartbeat(old(Model()), nowMs, writeOk)
    {
      if !lastHeartbeatAcked {
        return Session.Err(Session.HeartbeatNotAcknowledged);
      }
      lastHeartbeatAcked := false;
      lastHeartbeatTimestamp := nowMs;
      var beat := HeartbeatMessage(Opcodes.Value(Opcodes.Heartbeat), sequence);
      if !writeOk {
        return Session.Err(Session.HeartbeatNotSent);
      }
      outbox := outbox + [Session.SentHeartbeat(beat)];
      return Session.Ok;
    }

    /** `acknowledgeHeartbeat`. */
    method AcknowledgeHeartbeat(nowMs: Int64)
      modifies this
      ensures Model() == Session.Acknowledge(old(Model()), nowMs)
    {
      lastHeartbeatAcked := true;
      lastHeartbeatTimestamp := nowMs;
    }

    /** `handleMessage`: the event-name switch, the opcode switch, the trailing update. */
    method HandleMessage(body: Option<Json>, nowMs: Int64, writeOk: bool) returns (result: Session.Status)
      requires connected
      modifies this
      ensures Session.Outcome(Model(), result) == Session.HandleMessage(old(Model()), body, nowMs, writeOk)
    {
      var packet := if body.Some? then DecodePacket(body.value) else None;
      if packet.None? {
        return Session.Err(Session.MessageUndecodable);
      }
      var p := packet.value;
      result := OnEventName(p, nowMs, writeOk);
      if result.Err? {
        return;
      }
      result := OnOpcode(p, nowMs, writeOk);
      if result.Err? {
        return;
      }
      if p.s > 0 && p.s > sequence {
        sequence := p.s;
      }
    }

    /** The switch of `handleMessage` on the event name. */
    method OnEventName(p: Packet, nowMs: Int64, writeOk: bool) returns (result: Session.Status)
      requires connected
      modifies this
      ensures Session.Outcome(Model(), result) == Session.OnEventName(old(Model()), p, nowMs, writeOk)
    {
      result := Session.Ok;
      if p.t == "READY" {
        var ready := DecodeReady(p.d);
        if ready.None? {
          return Session.Err(Session.ReadyUndecodable);
        }
        sessionId := ready.value.sessionId;
        resumeGateway := ready.value.resumeUrl;
        lastHeartbeatAcked := true;
        // the initial heartbeat's error is only logged
        var initial := SendHeartbeat(nowMs, writeOk);
      } else if p.t == "RESUMED" {
        isResuming := false;
      }
    }

    /** The switch of `handleMessage` on the opcode; an error is an early return. */
    method OnOpcode(p: Packet, nowMs: Int64, writeOk: bool) returns (result: Session.Status)
      requires connected
      modifies this
      ensures Session.Outcome(Model(), result) == Session.OnOpcode(old(Model()), p, nowMs, writeOk)
    {
      result := Session.Ok;
      if p.op == Opcodes.Value(Opcodes.HeartbeatAck) {
        AcknowledgeHeartbeat(nowMs);
      } else if p.op == Opcodes.Value(Opcodes.Heartbeat) {
        var requested := SendHeartbeat(nowMs, writeOk);
        if requested.Err? {
          return Session.Err(Session.RequestedHeartbeatFailed(requested.error));
        }
      } else if p.op == Opcodes.Value(Opcodes.Reconnect) {
        return Session.Err(Session.ReconnectRequested);
      } else if p.op == Opcodes.Value(Opcodes.Dispatch) {
        sequence := p.s;
        // onEvent is an empty hook
      } else if p.op == Opcodes.Value(Opcodes.InvalidSession) {
        return Session.HandleInvalidSession(p.d);
      }
    }

    /** One event: the listening loop hands a frame to `handleMessage`, or the ticker fires. */
    method Step(e: Session.Event) returns (result: Session.Status)
      requires connected
      modifies this
      ensures Session.Outcome(Model(), result) == Session.Step(old(Model()), e)
    {
      match e {
        case Message(body, nowMs, writeOk) =>
          result := HandleMessage(body, nowMs, writeOk);
        case Tick(nowMs, writeOk) =>
          result := SendHeartbeat(nowMs, writeOk);
      }
    }

    /**
     * The listening loop and the heartbeat ticker, interleaved into one
     * sequence of events; an error is logged and the next event is handled.
     * `results` holds the error each event produced.
     */
    method Listen(events: seq<Session.Event>) returns (results: seq<Session.Status>)
      requires connected
      modifies this
      ensures Model() == Session.Run(old(Model()), events)
      ensures results == Session.Statuses(old(Model()), events)
    {
      results := [];
      ghost var start := Model();
      var i := 0;
      while i < |events|
        invariant 0 <= i <= |events|
        invariant connected
        invariant Model() == Session.Run(start, events[..i])
        invariant results == Session.Statuses(start, events[..i])
      {
        var result := Step(events[i]);
        Session.RunExtends(start, events, i);
        results := results + [result];
        i := i + 1;
      }
      assert events[..|events|] == events;
    }
  }
}
