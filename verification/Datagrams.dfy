/** Packets, lanes, sizes and times shared by the datagram protocol
    (golem/net/datagram_protocol.go, golem/net/payload.go). */
module Datagrams {
  import opened SerialNumbers
  import opened AckMask

  type byte = x: int | 0 <= x < 256
  type bytes = seq<byte>
  type uint64 = x: int | 0 <= x < 0x1_0000_0000_0000_0000

  /** Abstract monotone time, in milliseconds. The zero `time.Time` of the source is None. */
  type Time = int

  datatype Option<+T> = None | Some(value: T)

  const HEADER_BYTES := 21
  const LANE_BYTES := 1
  const MESSAGE_ID_BYTES := 2
  const ORDERED_SEQ_BYTES := 2
  const TOKEN_BYTES := 8
  const MAX_DATAGRAM_BYTES := 1200
  const MAX_UNRELIABLE_BYTES := MAX_DATAGRAM_BYTES - HEADER_BYTES - LANE_BYTES
  const MAX_UNORDERED_BYTES := MAX_UNRELIABLE_BYTES - MESSAGE_ID_BYTES
  const MAX_ORDERED_BYTES := MAX_UNORDERED_BYTES - ORDERED_SEQ_BYTES
  const MAX_EVENTUAL_BYTES := MAX_UNRELIABLE_BYTES - TOKEN_BYTES

  const MAX_RELIABLE_BYTES := 256 * 1024

  const SEND_BUF_SIZE := 512
  const ACK_COALESCE_DELAY: Time := 1
  const RETRY_BASE_DELAY: Time := 75
  const RETRY_MAX_DELAY: Time := 400
  const RETRY_LIMIT := 8
  const MESSAGE_TTL: Time := 3000
  const GAP_TIMEOUT: Time := 3000
  const EVENTUAL_TTL: Time := 3000
  const EVENTUAL_LIMIT := ACK_WINDOW * 2

  const LANE_UNRELIABLE: byte := 1
  const LANE_UNORDERED: byte := 2
  const LANE_ORDERED: byte := 3
  const LANE_EVENTUAL: byte := 4

  const ACK_ONLY: byte := 1

  datatype Packet = Packet(
    packetSeq: uint16,
    ackSeq: uint16,
    ackMask: Mask,
    flags: byte,
    lane: byte,
    messageID: uint16,
    orderedSeq: uint16,
    stateToken: uint64,
    payload: bytes)
  {
    /** `flags & datagramFlagAckOnly != 0` */
    predicate AckOnly() { flags % 2 == 1 }
  }

  predicate ValidLane(lane: byte)
  {
    lane == LANE_UNRELIABLE || lane == LANE_UNORDERED || lane == LANE_ORDERED || lane == LANE_EVENTUAL
  }

  /** validateReliableDatagramMessageSize: any lane but the unordered one is held to the ordered limit. */
  predicate ReliableSizeOk(lane: byte, payload: bytes)
  {
    ValidLane(lane) && |payload| <= if lane == LANE_UNORDERED then MAX_UNORDERED_BYTES else MAX_ORDERED_BYTES
  }

  /** The lane's own payload limit, as the codec applies it. */
  predicate PayloadFits(lane: byte, payload: bytes)
  {
    if lane == LANE_UNRELIABLE then |payload| <= MAX_UNRELIABLE_BYTES
    else if lane == LANE_EVENTUAL then |payload| <= MAX_EVENTUAL_BYTES
    else ReliableSizeOk(lane, payload)
  }
}
