/** The device state the transport publishes: `update_state`, and the state parts of `connect_socket` and
    `disconnect`. Message texts and time stamps are not part of this model; floats are kept as their four bytes. */
module Device {
  import opened Crc
  import opened Frames

  /** A command id, `uint8_t` in the source. */
  type Id = n: nat | n < 256

  const STATUS_SUCCESS: nat := 0
  const STATUS_COMMAND_PENDING: nat := 26
  const STATUS_AXIS_BLOCKED: nat := 29
  const STATUS_TRANSPORT_ERROR: nat := 0xffff

  const SYSTEM_REFERENCED: bv32 := 0x1
  const SYSTEM_MOVING: bv32 := 0x2
  const SYSTEM_BLOCKED_MINUS: bv32 := 0x4
  const SYSTEM_BLOCKED_PLUS: bv32 := 0x8

  datatype DeviceState = DeviceState(
    connected: bool,
    referenced: bool,
    moving: bool,
    stalled: bool,
    opening: seq<byte>,
    speed: seq<byte>,
    force: seq<byte>,
    systemState: bv32,
    graspingState: byte,
    lastStatus: nat,
    connectionGeneration: nat)

  const FLOAT_ZERO: seq<byte> := [0, 0, 0, 0]

  const INITIAL_STATE: DeviceState :=
    DeviceState(false, false, false, false, FLOAT_ZERO, FLOAT_ZERO, FLOAT_ZERO, 0, 0, STATUS_TRANSPORT_ERROR, 0)

  /** Four bytes, the lowest first. */
  function Joined(a: byte, b: byte, c: byte, d: byte): bv32 {
    (a as bv32) | ((b as bv32) << 8) | ((c as bv32) << 16) | ((d as bv32) << 24)
  }

  /** `read_u32`: four bytes, little-endian. */
  function ReadU32(p: seq<byte>, at: nat): bv32
    requires at + 4 <= |p|
  {
    Joined(p[at], p[at + 1], p[at + 2], p[at + 3])
  }

  function Unsigned(bits: bv32): nat { bits as int }

  lemma JoinedValue(a: byte, b: byte, c: byte, d: byte)
    ensures Unsigned(Joined(a, b, c, d)) == Value(a) + 0x100 * Value(b) + 0x10000 * Value(c) + 0x1000000 * Value(d)
  {
  }

  /** The status word every reply begins with. */
  function Status(payload: seq<byte>): nat
    requires |payload| >= 2
  {
    ReadU16(payload[0], payload[1])
  }

  function Connected(d: DeviceState): DeviceState {
    d.(connected := true, lastStatus := STATUS_SUCCESS, connectionGeneration := d.connectionGeneration + 1)
  }

  function Disconnected(d: DeviceState): DeviceState {
    d.(connected := false, referenced := false, moving := false, stalled := false, systemState := 0,
       lastStatus := STATUS_TRANSPORT_ERROR)
  }

  function Decoded(d: DeviceState, bits: bv32): DeviceState {
    d.(systemState := bits,
       referenced := bits & SYSTEM_REFERENCED != 0,
       moving := bits & SYSTEM_MOVING != 0,
       stalled := bits & (SYSTEM_BLOCKED_PLUS | SYSTEM_BLOCKED_MINUS) != 0)
  }

  /** `update_state` on a reply or a telemetry frame. */
  function Updated(d: DeviceState, id: Id, status: nat, payload: seq<byte>): DeviceState {
    if status != STATUS_SUCCESS then d.(lastStatus := status)
    else if id == 0x40 && |payload| >= 6 then
      Decoded(d, ReadU32(payload, 2))
    else if id == 0x41 && |payload| >= 3 then d.(graspingState := payload[2])
    else if id == 0x43 && |payload| >= 6 then d.(opening := payload[2..6])
    else if id == 0x44 && |payload| >= 6 then d.(speed := payload[2..6])
    else if id == 0x45 && |payload| >= 6 then d.(force := payload[2..6])
    else d
  }

  /** The published flags are the decoded bits of the system state, and a state without a connection
      publishes none. Stalled means blocked in either direction. */
  predicate Coherent(d: DeviceState) {
    && (d.referenced <==> d.systemState & 0x1 != 0)
    && (d.moving <==> d.systemState & 0x2 != 0)
    && (d.stalled <==> d.systemState & 0x4 != 0 || d.systemState & 0x8 != 0)
    && (!d.connected ==> d.systemState == 0)
  }

  lemma BlockedEitherWay(bits: bv32)
    ensures bits & (SYSTEM_BLOCKED_PLUS | SYSTEM_BLOCKED_MINUS) != 0 <==> bits & 0x4 != 0 || bits & 0x8 != 0
  {
  }

  lemma DecodedIsCoherent(d: DeviceState, bits: bv32)
    requires d.connected
    ensures Coherent(Decoded(d, bits))
    ensures Decoded(d, bits) == d.(systemState := bits, referenced := Decoded(d, bits).referenced,
                                   moving := Decoded(d, bits).moving, stalled := Decoded(d, bits).stalled)
  {
    BlockedEitherWay(bits);
  }

  lemma DecodedKeeps(d: DeviceState, bits: bv32)
    ensures Decoded(d, bits).connected == d.connected
    ensures Decoded(d, bits).connectionGeneration == d.connectionGeneration
  {
  }

  lemma UpdatedKeeps(d: DeviceState, id: Id, status: nat, payload: seq<byte>)
    ensures Updated(d, id, status, payload).connected == d.connected
    ensures Updated(d, id, status, payload).connectionGeneration == d.connectionGeneration
  {
    hide ReadU32, Decoded;
    if |payload| >= 6 {
      DecodedKeeps(d, ReadU32(payload, 2));
    }
  }

  lemma SameFlags(d: DeviceState, e: DeviceState)
    requires Coherent(d) && d.connected == e.connected && d.systemState == e.systemState
    requires d.referenced == e.referenced && d.moving == e.moving && d.stalled == e.stalled
    ensures Coherent(e)
  {
  }

  lemma TransitionsStayCoherent(d: DeviceState)
    requires Coherent(d)
    ensures Coherent(INITIAL_STATE) && Coherent(Disconnected(d))
    ensures Coherent(Connected(d))
  {
  }

  lemma UpdateStaysCoherent(d: DeviceState, id: Id, status: nat, payload: seq<byte>)
    requires Coherent(d) && d.connected
    ensures Coherent(Updated(d, id, status, payload))
    ensures Updated(d, id, status, payload).connected
    ensures Updated(d, id, status, payload).connectionGeneration == d.connectionGeneration
  {
    hide ReadU32, Decoded, Coherent;
    UpdatedKeeps(d, id, status, payload);
    if status == STATUS_SUCCESS && id == 0x40 && |payload| >= 6 {
      DecodedIsCoherent(d, ReadU32(payload, 2));
    } else {
      SameFlags(d, Updated(d, id, status, payload));
    }
  }
}
