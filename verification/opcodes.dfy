/**
 * The gateway operation codes of package `opcodes`: eleven untyped integer
 * constants numbered by `iota` in declaration order (src/opcodes/opcodes.go).
 * The comment above the block quotes the gateway's published opcode table,
 * which skips 5; the computed values therefore fall one short of the table
 * from Resume onward. The model keeps the computed values, since they are
 * what every comparison in the client uses.
 */
module Opcodes {

  datatype Opcode =
    | Dispatch
    | Heartbeat
    | Identify
    | PresenceUpdate
    | VoiceStateUpdate
    | Resume
    | Reconnect
    | RequestGuildMembers
    | InvalidSession
    | Hello
    | HeartbeatAck

  /** The constants in the order the block declares them. */
  const Declared: seq<Opcode> :=
    [Dispatch, Heartbeat, Identify, PresenceUpdate, VoiceStateUpdate, Resume,
     Reconnect, RequestGuildMembers, InvalidSession, Hello, HeartbeatAck]

  /** The value `iota` gives a constant: its position in the block. */
  function Value(op: Opcode): (v: int)
    ensures 0 <= v < |Declared| && Declared[v] == op
  {
    match op
    case Dispatch => 0
    case Heartbeat => 1
    case Identify => 2
    case PresenceUpdate => 3
    case VoiceStateUpdate => 4
    case Resume => 5
    case Reconnect => 6
    case RequestGuildMembers => 7
    case InvalidSession => 8
    case Hello => 9
    case HeartbeatAck => 10
  }

  /** The value the comment table beside the block gives each operation. */
  function Documented(op: Opcode): (v: int)
    ensures 0 <= v <= 11 && v != 5
  {
    match op
    case Dispatch => 0
    case Heartbeat => 1
    case Identify => 2
    case PresenceUpdate => 3
    case VoiceStateUpdate => 4
    case Resume => 6
    case Reconnect => 7
    case RequestGuildMembers => 8
    case InvalidSession => 9
    case Hello => 10
    case HeartbeatAck => 11
  }

  /** The block has eleven constants and takes exactly the values 0..10, in order. */
  lemma ValuesAreConsecutive()
    ensures |Declared| == 11
    ensures forall i :: 0 <= i < |Declared| ==> Value(Declared[i]) == i
  {
  }

  /** No constant is declared twice. */
  lemma DeclaredDistinct(i: int, j: int)
    requires 0 <= i < |Declared| && 0 <= j < |Declared|
    requires Declared[i] == Declared[j]
    ensures i == j
  {
  }

  /**
   * Distinct constants have distinct values, so the opcode switch of the
   * packet dispatcher has no two cases that match the same packet.
   */
  lemma ValuesDistinct(a: Opcode, b: Opcode)
    requires a != b
    ensures Value(a) != Value(b)
  {
    assert Declared[Value(a)] == a && Declared[Value(b)] == b;
  }

  /**
   * Up to VoiceStateUpdate the computed values agree with the comment table;
   * from Resume onward each is one below it.
   */
  lemma ValuesDriftFromTable(op: Opcode)
    ensures Value(op) < Value(Resume) ==> Value(op) == Documented(op)
    ensures Value(op) >= Value(Resume) ==> Value(op) == Documented(op) - 1
  {
  }

  /**
   * A code the published table uses may mean a different constant here:
   * the table's Hello (10) is HeartbeatAck, its InvalidSession (9) is Hello,
   * its Reconnect (7) is RequestGuildMembers, and its HeartbeatAck (11)
   * matches no constant at all.
   */
  lemma TableCodesMisread()
    ensures Documented(Hello) == Value(HeartbeatAck)
    ensures Documented(InvalidSession) == Value(Hello)
    ensures Documented(Reconnect) == Value(RequestGuildMembers)
    ensures forall op :: Value(op) != Documented(HeartbeatAck)
  {
  }
}
