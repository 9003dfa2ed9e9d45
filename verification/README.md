# Discord gateway session client — a Dafny model

This project models the per-client gateway session logic of `discord_go`
(`src/client/client.go`): the Hello handshake, the Identify frame, the
heartbeat acknowledgement gate, the packet dispatcher `handleMessage` and
`handleInvalidSession`, together with the opcode constants
(`src/opcodes/opcodes.go`) and the wire records (`src/client/client_types.go`).

Layout:

- `wrappers.dfy` — `Option`.
- `opcodes.dfy` — module `Opcodes`: the `iota` constant block and the
  published opcode table quoted in its comment.
- `wire.dfy` — module `Wire`: Go's `int64` (with explicit wrap-around), a
  parsed JSON value, the wire records, and how the client binds JSON to them
  (`encoding/json` rules for the fields involved: absent or `null` gives the
  zero value, a wrong JSON type fails the decode, `json.RawMessage` keeps the
  raw value).
- `session.dfy` — module `Session`: the fields of `Client` as a value and one
  pure transition per Go method. These are the specification.
- `session_properties.dfy` — module `SessionProperties`: what the code
  promises, proved about the transitions.
- `client.dfy` — module `Gateway`: class `Client` with the Go fields,
  updated in place by methods that are each proved to match the transition
  of the same name. Frames written to the connection are appended to the
  `outbox` field.

Where the code differs from the Discord gateway protocol, from the opcode table
quoted in `src/opcodes/opcodes.go:3-13`, or from what its own TODO comments
(`client.go:213`, `client.go:352`, `client.go:403`) say is still missing, the
model follows the code:

- A Dispatch packet sets `sequence` to its own `s` outright
  (`client.go:354-357`). Only the trailing update (`client.go:367-374`) takes
  a maximum, so the sequence is not monotonic: Dispatch 5 then Dispatch 3
  leaves 3 (`DispatchSequenceCanDecrease`).
- The opcode constants are numbered by `iota`, so from Resume onward they are
  one below the published table quoted beside them (Hello is 9, HeartbeatAck
  10). The dispatcher and the handshake compare against these computed values.
  A first frame carrying the published Hello code 10 therefore fails the
  handshake (`PublishedHelloCodeRefused`).
- Reconnect and InvalidSession only return errors. No resume or re-identify
  policy exists in the code, and none is modelled.
- A missed acknowledgement only makes `sendHeartbeat` return an error. Nothing
  reconnects.

## Model

| member | source | states |
|---|---|---|
| `Opcodes.Value` | src/opcodes/opcodes.go:15-27 | each constant's value is its position in the declaration order |
| `Opcodes.Documented` | src/opcodes/opcodes.go:3-13 | the comment table's values lie in 0..11 and skip 5 |
| `Opcodes.ValuesAreConsecutive` | src/opcodes/opcodes.go:15-27 | eleven constants take exactly the values 0..10 in declaration order |
| `Opcodes.DeclaredDistinct` | src/opcodes/opcodes.go:15-27 | no constant is declared twice |
| `Opcodes.ValuesDistinct` | src/opcodes/opcodes.go:15-27 | distinct constants have distinct values, so no two cases of the opcode switch overlap |
| `Opcodes.ValuesDriftFromTable` | src/opcodes/opcodes.go:3-27 | up to VoiceStateUpdate the values equal the table; from Resume on each is one below it |
| `Opcodes.TableCodesMisread` | src/opcodes/opcodes.go:3-27 | the table's Hello code is HeartbeatAck here, its InvalidSession code is Hello, its Reconnect code is RequestGuildMembers, and its HeartbeatAck code matches no constant |
| `Wire.MillisToDuration` | src/client/client.go:124 | the interval in nanoseconds equals ms times 10^6 whenever that fits in int64, and is that product wrapped to 64 bits otherwise |
| `Wire.StringField` | src/client/client_types.go:41-44 | a string field decodes to its string, to "" when absent or null, and fails exactly when present with another JSON type |
| `Wire.IntField` | src/client/client_types.go:62-67 | an integer field decodes to its value, to 0 when absent or null, and fails exactly when present with a non-null value that is not an in-range integer |
| `Wire.DecodeFlag` | src/client/client.go:397-400 | the resumable flag decodes exactly from a boolean or null, and is true only for JSON true |
| `Wire.HelloRoundTrip` | src/client/client_types.go:13-20 | a Hello frame decodes back to the op and heartbeat interval it carries |
| `Wire.PacketRoundTrip` | src/client/client_types.go:62-67 | a packet envelope decodes back to its op, t, d and s |
| `Wire.ReadyRoundTrip` | src/client/client_types.go:41-44 | READY data decodes back to its session id and resume URL |
| `Wire.MissingSequenceReadsAsZero` | src/client/client_types.go:62-67 | a frame without "s" decodes exactly like the same frame with s = 0 |
| `Wire.DecodeHello` | src/client/client.go:112-117 | a Hello frame decodes when it is null or an object whose op and interval fields decode; a missing or null `d` gives interval 0 |
| `Wire.DecodePacket` | src/client/client.go:303-306 | a frame decodes exactly when it is null or an object whose op, t and s fields decode; `d` is kept raw and is absent exactly when the key is |
| `Wire.DecodeReady` | src/client/client.go:312-315 | READY data decodes exactly from null or an object whose two string fields decode, and carries those strings; an absent `d` fails |
| `Session.NewBot` | src/client/client.go:79-86 | a new client has sequence -1, the gate open, empty session id and resume URL, no connection, nothing sent, and the given token, prefix and gateway |
| `Session.Connect` | src/client/client.go:92-131 | an empty gateway or failed dial changes nothing; a decodable non-Hello first frame is the invalid-handshake error with only the connection set; success happens exactly for a decodable Hello and a working write, and then sets the connection, the interval from the Hello and one Identify frame |
| `Session.IdentifyPayload` | src/client/client.go:150-166 | the Identify message carries the Identify opcode, the token, the intents, the fixed properties and shard [0, 1], and zero values in compress, large_threshold and presence |
| `Session.Identify` | src/client/client.go:141-180 | with no connection the result is the "connection is not open" error; when connected it succeeds exactly when the write does, and then the only change is one Identify frame appended; a failed write changes nothing |
| `Session.SendHeartbeat` | src/client/client.go:209-239 | at most one frame is appended; sequence, session id, resume URL, resuming flag, token, gateway, interval and connection are unchanged |
| `Session.Acknowledge` | src/client/client.go:380-387 | the gate is open afterwards and nothing is sent |
| `Session.HandleInvalidSession` | src/client/client.go:396-407 | every outcome is an error; it is the resumable one exactly when the flag is true and the decode error exactly when the flag does not decode |
| `Session.OnEventName` | src/client/client.go:309-338 | the event-name switch never changes the sequence, sends at most one frame, and fails only for an undecodable READY, leaving the state untouched |
| `Session.OnOpcode` | src/client/client.go:341-365 | the opcode switch sends at most one frame and nothing while the gate is closed; a requested heartbeat through an open gate with a working write sends one Heartbeat frame with the current sequence; an opcode the switch does not name changes nothing |
| `Session.TrackSequence` | src/client/client.go:367-374 | the trailing update changes only the sequence, to a value that is the maximum of the old one and a positive s |
| `Session.HandleMessage` | src/client/client.go:302-377 | handling a frame sends at most one frame, keeps every earlier frame, and never changes token, gateway, interval or connection |
| `Session.Step` | src/client/client.go:288-296 | one event of the running client keeps token, gateway, interval and connection and only appends to the outbox |
| `Session.Run` | src/client/client.go:277-298 | a whole run of events keeps token, gateway, interval and connection and only appends to the outbox |
| `SessionProperties.FreshClient` | src/client/client.go:79-86 | a fresh client has sequence -1, the gate open, empty session id and resume URL, no connection and nothing sent |
| `SessionProperties.UnacknowledgedHeartbeatRefused` | src/client/client.go:209-215 | while unacknowledged, a heartbeat returns an error, sends nothing and changes no field |
| `SessionProperties.AcknowledgedHeartbeatSent` | src/client/client.go:216-238 | with the gate open, the flag drops and the time is stamped even if the write fails; a successful write emits exactly one Heartbeat frame with the current sequence; nothing else changes |
| `SessionProperties.SecondHeartbeatRefused` | src/client/client.go:209-217 | two heartbeats with no acknowledgement between them: the second fails and changes nothing |
| `SessionProperties.AcknowledgeOnlyOpensGate` | src/client/client.go:380-387 | acknowledging changes only the flag and the timestamp, and acknowledging twice equals acknowledging once |
| `SessionProperties.AcknowledgeReopensGate` | src/client/client.go:209-217 | after an acknowledgement the next heartbeat is sent |
| `SessionProperties.EmptyGatewayRefused` | src/client/client.go:93-95 | an empty gateway URL is an error and changes nothing |
| `SessionProperties.NonHelloFirstFrameRefused` | src/client/client.go:119-121 | a first frame whose op is not Hello is the invalid-handshake error, the interval stays unset and no Identify is sent |
| `SessionProperties.PublishedHelloCodeRefused` | src/client/client.go:119-121 | a first frame with the published Hello code 10 fails the handshake |
| `SessionProperties.HelloRecordsIntervalAndIdentifies` | src/client/client.go:123-131 | on Hello the interval becomes heartbeat_interval milliseconds and exactly one Identify frame is sent |
| `SessionProperties.ReadyStoresSessionAndBeats` | src/client/client.go:310-326 | READY stores session id and resume URL and always sends one heartbeat carrying the sequence from before the packet, which the Dispatch opcode then replaces |
| `SessionProperties.DispatchAssignsSequence` | src/client/client.go:354-357 | after a Dispatch packet the sequence equals its s, even if lower |
| `SessionProperties.TrailingUpdateIsMax` | src/client/client.go:367-374 | any other packet reaching the end sets the sequence to max(old, s) when s > 0 and leaves it otherwise |
| `SessionProperties.EarlyReturnsChangeNothing` | src/client/client.go:345-361 | Reconnect, InvalidSession, a requested heartbeat while unacknowledged and an undecodable READY return an error and change no field |
| `SessionProperties.UndecodableFrameChangesNothing` | src/client/client.go:303-306 | a frame that is not a packet returns an error and changes nothing |
| `SessionProperties.InvalidSessionAlwaysFails` | src/client/client.go:360-361 | InvalidSession is an error whether resumable or not and changes nothing |
| `SessionProperties.ResumedClearsResuming` | src/client/client.go:328-332 | a RESUMED dispatch only clears the resuming flag and sets the sequence |
| `SessionProperties.HeartbeatAckOpensGate` | src/client/client.go:342-343 | a HeartbeatAck packet acknowledges and changes nothing else |
| `SessionProperties.RequestedHeartbeatSent` | src/client/client.go:345-349 | a requested heartbeat through an open gate sends exactly one Heartbeat frame with the current sequence, closes the gate and succeeds |
| `SessionProperties.UnswitchedPacketOnlyTracksSequence` | src/client/client.go:334-337 | a packet with another event name and an opcode the switch does not name changes nothing but the trailing sequence update |
| `SessionProperties.HandshakeAcceptsZeroInterval` | src/client/client.go:119-125 | a Hello without `d` passes the handshake and leaves a heartbeat interval of 0 |
| `SessionProperties.DispatchSequenceCanDecrease` | src/client/client.go:354-357 | Dispatch 5 then Dispatch 3 leaves the sequence at 3 |
| `SessionProperties.HandshakeScenario` | src/client/client.go:92-131 | Hello(45000) on a fresh client connects, sets the interval to 45000 ms in nanoseconds and sends exactly one Identify |
| `SessionProperties.ReadyAckScenario` | src/client/client.go:310-343 | READY("abc", "wss://x") then HeartbeatAck on a client with sequence -1 send one Heartbeat(-1), store the session and end with the gate open |
| `SessionProperties.HeartbeatsNeedAcks` | src/client/client.go:209-217 | over any run, heartbeat frames sent never exceed acknowledgements (HeartbeatAck or READY) received plus one if the gate was open at the start |
| `SessionProperties.SequenceRisesWithoutDispatch` | src/client/client.go:354-374 | over a run with no Dispatch packet the sequence never goes down |
| `Gateway.Client.constructor` | src/client/client.go:79-86 | the fields are those of a fresh client: sequence -1, gate open, no session, nothing sent |
| `Gateway.Client.ConnectToGateway` | src/client/client.go:92-131 | the fields and error after the handshake are those of `Session.Connect` |
| `Gateway.Client.Identify` | src/client/client.go:141-180 | the fields and error are those of `Session.Identify` |
| `Gateway.Client.SendHeartbeat` | src/client/client.go:209-239 | the fields and error are those of `Session.SendHeartbeat` |
| `Gateway.Client.AcknowledgeHeartbeat` | src/client/client.go:380-387 | the fields are those of `Session.Acknowledge` |
| `Gateway.Client.HandleMessage` | src/client/client.go:302-377 | the fields and error are those of `Session.HandleMessage` |
| `Gateway.Client.OnEventName` | src/client/client.go:309-338 | the fields and error are those of `Session.OnEventName` |
| `Gateway.Client.OnOpcode` | src/client/client.go:341-365 | the fields and error are those of `Session.OnOpcode` |
| `Gateway.Client.Step` | src/client/client.go:288-296 | one event leaves the fields and error of `Session.Step` |
| `Gateway.Client.Listen` | src/client/client.go:277-298 | the fields after all events are `Session.Run` of the fields before, and each event's error is that of its step |

## Left out

- The HTTP bootstrap of `NewBot` (`client.go:44-77`) is network I/O. The constructor takes the gateway URL it would return.
- Dialling, reading and writing are done by an external websocket library. Their results are parameters: `dialOk`, the first frame, and `writeOk`. A failed write sends nothing. One `writeOk` covers every write made while handling one packet.
- Parsing bytes into JSON is not modelled. A frame arrives as a parsed value, or as "not JSON".
- Some `encoding/json` behaviour is not modelled: case-insensitive key matching, non-integer numbers, duplicate keys, and the partial filling of a struct before a type error. Marshalling errors are also left out, because they cannot occur for these records.
- Goroutines, the ticker, the buffered channel, `select` and the mutex are not modelled. The reader loop and the heartbeat ticker are interleaved into one sequence of events (`Listen`). Tick timing, the interval's use as a period, context cancellation and the exits of `startListening` are not represented.
- Gateway.Client.Listen: does not model that `time.NewTicker` (`client.go:189`) panics on a non-positive interval. The interval is non-positive when Hello has no or a null `d`, a `heartbeat_interval` of 0 or less, or one so large that the nanosecond product wraps negative. Go then crashes the process; the model lets such a client go on handling events and ticks (`HandshakeAcceptsZeroInterval` shows the handshake accepts such a Hello).
- `ConnectToGateway` stops, in the model, once the handshake completes. It does not start the loops; `Listen` models them separately.
- `lastHeartbeatTimestamp` comes from `time.Now()`. The model takes the time as the parameter `nowMs`.
- Log output (`fmt.Printf`) is not modelled.
- `onEvent` is an empty hook and is not modelled.
- `Intents` is not defined in the modelled files. It is a parameter of `Identify` and `ConnectToGateway`.
- `DiscordAPI` is only used by the HTTP bootstrap.
- Writing on a nil connection panics in Go. The precondition `connected` of `SendHeartbeat` and `HandleMessage` stands for that.
- `ResumeData` and `ResumeMessage` are datatypes only, because no code builds them.
- `GatewayResponse` and the `httpClient`, `messageChannel` and `prefix` behaviour belong to the bootstrap and the loops.
- `src/client/channels.go`, `src/client/channel_types.go` and `src/main.go` are REST calls, REST data and process plumbing. They are not part of this model.
- `src/client/types.go` is a stale revision that does not compile. It is not part of this model.
