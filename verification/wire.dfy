/**
 * The wire records of src/client/client_types.go and the part of Go's JSON
 * decoding the client relies on. A frame reaches the model already parsed
 * into a `Json` value; what is modelled is how such a value is bound to the
 * Go structs: a field that is absent or `null` keeps its zero value, a field
 * of the wrong JSON type makes the whole decode fail, and `json.RawMessage`
 * keeps the raw value (absent stays absent).
 */
module Wire {
  import opened Wrappers

  const MinInt64: int := -0x8000_0000_0000_0000
  const MaxInt64: int := 0x7fff_ffff_ffff_ffff
  const TwoTo64: int := 0x1_0000_0000_0000_0000

  /** Go's `int64`, and its 64-bit `int`. */
  type Int64 = x: int | -0x8000_0000_0000_0000 <= x <= 0x7fff_ffff_ffff_ffff

  /** Two's-complement wrap-around of 64-bit signed arithmetic. */
  function Wrap64(x: int): (r: Int64)
    ensures (r - x) % TwoTo64 == 0
    ensures MinInt64 <= x <= MaxInt64 ==> r == x
  {
    var m := (x - MinInt64) % TwoTo64;
    assert x - MinInt64 == TwoTo64 * ((x - MinInt64) / TwoTo64) + m;
    m + MinInt64
  }

  const NanosPerMilli: int := 1_000_000

  /**
   * `time.Duration(ms) * time.Millisecond`: the interval in nanoseconds, as a
   * 64-bit product that wraps for intervals beyond about 292 years.
   */
  function MillisToDuration(ms: Int64): (d: Int64)
    ensures 0 <= ms <= MaxInt64 / NanosPerMilli ==> d == ms * NanosPerMilli && d >= 0
    ensures (d - ms * NanosPerMilli) % TwoTo64 == 0
  {
    Wrap64(ms * NanosPerMilli)
  }

  /** A parsed JSON value (numbers are integers only). */
  datatype Json =
    | Null
    | Bool(b: bool)
    | Num(n: int)
    | Str(str: string)
    | Arr(items: seq<Json>)
    | Obj(fields: map<string, Json>)

  // ---------------------------------------------------------------------
  // The wire records (client_types.go)
  // ---------------------------------------------------------------------

  /** `HelloData`: the heartbeat interval in milliseconds. */
  datatype HelloData = HelloData(heartbeatInterval: Int64)

  /** `HelloMessage`: the first frame the gateway sends. */
  datatype HelloMessage = HelloMessage(op: Int64, d: HelloData)

  /** The anonymous `Properties` struct of `IdentifyData` (`$os`, `$browser`, `$device`). */
  datatype Properties = Properties(os: string, browser: string, device: string)

  /** `IdentifyData`; `presence` is an `interface{}` and is `null` unless set. */
  datatype IdentifyData = IdentifyData(
    token: string,
    properties: Properties,
    compress: bool,
    largeThreshold: Int64,
    shard: seq<Int64>,
    presence: Json,
    intents: Int64)

  /** `IdentifyMessage`. */
  datatype IdentifyMessage = IdentifyMessage(op: Int64, d: IdentifyData)

  /** `ReadyData`: exactly the two values a READY event stores in the client. */
  datatype ReadyData = ReadyData(sessionId: string, resumeUrl: string)

  /** `HeartbeatMessage`: the opcode and the last sequence number as `d`. */
  datatype HeartbeatMessage = HeartbeatMessage(op: Int64, d: Int64)

  /** `ResumeData` and `ResumeMessage`; nothing in the client builds them. */
  datatype ResumeData = ResumeData(token: string, sessionId: string, sequence: Int64)
  datatype ResumeMessage = ResumeMessage(op: Int64, d: ResumeData)

  /**
   * `Packet`, the envelope of every received frame. `d` is a
   * `json.RawMessage` (`None` when the frame has no "d" key); `s` is a plain
   * `int64`, so a frame without "s" carries 0.
   */
  datatype Packet = Packet(op: Int64, t: string, d: Option<Json>, s: Int64)

  // ---------------------------------------------------------------------
  // Binding JSON values to the records
  // ---------------------------------------------------------------------

  /** A string-typed struct field. */
  function StringField(m: map<string, Json>, key: string): (r: Option<string>)
    ensures key in m && m[key].Str? ==> r == Some(m[key].str)
    ensures (key !in m || m[key].Null?) ==> r == Some("")
    ensures r.None? <==> key in m && !m[key].Str? && !m[key].Null?
  {
    if key !in m then Some("")
    else match m[key]
      case Null => Some("")
      case Str(v) => Some(v)
      case _ => None
  }

  /** An `int`/`int64` struct field; an integer out of 64-bit range is an error. */
  function IntField(m: map<string, Json>, key: string): (r: Option<Int64>)
    ensures key in m && m[key].Num? && MinInt64 <= m[key].n <= MaxInt64 ==> r == Some(m[key].n)
    ensures (key !in m || m[key].Null?) ==> r == Some(0)
    ensures r.None? <==> key in m && !m[key].Null? && !(m[key].Num? && MinInt64 <= m[key].n <= MaxInt64)
  {
    if key !in m then Some(0)
    else match m[key]
      case Null => Some(0)
      case Num(v) => if MinInt64 <= v <= MaxInt64 then Some(v) else None
      case _ => None
  }

  /** `json.Unmarshal(frame, &HelloMessage)`. */
  function DecodeHello(body: Json): (r: Option<HelloMessage>)
    ensures body.Null? ==> r == Some(HelloMessage(0, HelloData(0)))
    ensures !body.Null? && !body.Obj? ==> r.None?
    ensures r.Some? && body.Obj? ==> IntField(body.fields, "op") == Some(r.value.op)
    ensures body.Obj? && "d" in body.fields && !body.fields["d"].Null? && !body.fields["d"].Obj? ==> r.None?
    ensures r.Some? && body.Obj? && ("d" !in body.fields || body.fields["d"].Null?) ==>
      r.value.d.heartbeatInterval == 0
    ensures r.Some? && body.Obj? && "d" in body.fields && body.fields["d"].Obj? ==>
      IntField(body.fields["d"].fields, "heartbeat_interval") == Some(r.value.d.heartbeatInterval)
    ensures body.Obj? ==> (r.None? <==>
      IntField(body.fields, "op").None? ||
      ("d" in body.fields && !body.fields["d"].Null? &&
       (!body.fields["d"].Obj? || IntField(body.fields["d"].fields, "heartbeat_interval").None?)))
  {
    match body
    case Null => Some(HelloMessage(0, HelloData(0)))
    case Obj(m) =>
      var op := IntField(m, "op");
      var d :=
        if "d" !in m || m["d"].Null? then Some(HelloData(0))
        else if m["d"].Obj? then
          var interval := IntField(m["d"].fields, "heartbeat_interval");
          if interval.Some? then Some(HelloData(interval.value)) else None
        else None;
      if op.Some? && d.Some? then Some(HelloMessage(op.value, d.value)) else None
    case _ => None
  }

  /** `json.Unmarshal(frame, &Packet)`. */
  function DecodePacket(body: Json): (r: Option<Packet>)
    ensures body.Null? ==> r == Some(Packet(0, "", None, 0))
    ensures !body.Null? && !body.Obj? ==> r.None?
    ensures body.Obj? ==> (r.Some? <==>
      IntField(body.fields, "op").Some? && StringField(body.fields, "t").Some? && IntField(body.fields, "s").Some?)
    ensures r.Some? && body.Obj? ==>
      Some(r.value.op) == IntField(body.fields, "op") && Some(r.value.t) == StringField(body.fields, "t") &&
      Some(r.value.s) == IntField(body.fields, "s") &&
      r.value.d == (if "d" in body.fields then Some(body.fields["d"]) else None)
  {
    match body
    case Null => Some(Packet(0, "", None, 0))
    case Obj(m) =>
      var op := IntField(m, "op");
      var t := StringField(m, "t");
      var s := IntField(m, "s");
      var d := if "d" in m then Some(m["d"]) else None;
      if op.Some? && t.Some? && s.Some? then Some(Packet(op.value, t.value, d, s.value)) else None
    case _ => None
  }

  /** `json.Unmarshal(packet.D, &ReadyData)`; an absent `d` is an error. */
  function DecodeReady(d: Option<Json>): (r: Option<ReadyData>)
    ensures r.Some? ==> d.Some? && (d.value.Null? || d.value.Obj?)
    ensures d == Some(Null) ==> r == Some(ReadyData("", ""))
    ensures d.Some? && d.value.Obj? ==> (r.Some? <==>
      StringField(d.value.fields, "session_id").Some? && StringField(d.value.fields, "resume_gateway_url").Some?)
    ensures r.Some? && d.value.Obj? ==>
      StringField(d.value.fields, "session_id") == Some(r.value.sessionId) &&
      StringField(d.value.fields, "resume_gateway_url") == Some(r.value.resumeUrl)
  {
    match d
    case None => None
    case Some(Null) => Some(ReadyData("", ""))
    case Some(Obj(m)) =>
      var id := StringField(m, "session_id");
      var url := StringField(m, "resume_gateway_url");
      if id.Some? && url.Some? then Some(ReadyData(id.value, url.value)) else None
    case Some(_) => None
  }

  /** `json.Unmarshal(packet.D, &canResume)` with `canResume` starting false. */
  function DecodeFlag(d: Option<Json>): (r: Option<bool>)
    ensures r.Some? <==> d.Some? && (d.value.Bool? || d.value.Null?)
    ensures r == Some(true) <==> d == Some(Bool(true))
  {
    match d
    case Some(Bool(v)) => Some(v)
    case Some(Null) => Some(false)
    case _ => None
  }

  // ---------------------------------------------------------------------
  // What the gateway sends, as JSON: the partners of the decoders
  // ---------------------------------------------------------------------

  function EncodeHello(h: HelloMessage): Json {
    Obj(map["op" := Num(h.op), "d" := Obj(map["heartbeat_interval" := Num(h.d.heartbeatInterval)])])
  }

  function EncodePacket(p: Packet): Json {
    var envelope := map["op" := Num(p.op), "t" := Str(p.t), "s" := Num(p.s)];
    Obj(if p.d.Some? then envelope["d" := p.d.value] else envelope)
  }

  function EncodeReady(r: ReadyData): Json {
    Obj(map["session_id" := Str(r.sessionId), "resume_gateway_url" := Str(r.resumeUrl)])
  }

  lemma HelloRoundTrip(h: HelloMessage)
    ensures DecodeHello(EncodeHello(h)) == Some(h)
  {
  }

  lemma PacketRoundTrip(p: Packet)
    ensures DecodePacket(EncodePacket(p)) == Some(p)
  {
  }

  lemma ReadyRoundTrip(r: ReadyData)
    ensures DecodeReady(Some(EncodeReady(r))) == Some(r)
  {
  }

  /**
   * `s` is not optional: a frame without "s" decodes exactly like the same
   * frame with `"s": 0`, which the trailing sequence update ignores.
   */
  lemma MissingSequenceReadsAsZero(m: map<string, Json>)
    requires "s" !in m
    ensures DecodePacket(Obj(m)) == DecodePacket(Obj(m["s" := Num(0)]))
    ensures DecodePacket(Obj(m)).Some? ==> DecodePacket(Obj(m)).value.s == 0
  {
    var m' := m["s" := Num(0)];
    assert StringField(m', "t") == StringField(m, "t");
    assert IntField(m', "op") == IntField(m, "op");
    assert ("d" in m') == ("d" in m);
  }
}
