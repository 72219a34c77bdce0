/** The datagram wire format (golem/net/datagram_codec.go), the Go client's copy of it and the
    client's ACK-carrying stream frame (golem-go-client/webtransport.go, golem/net/control_frame.go). */
module PacketCodec {
  import opened SerialNumbers
  import opened AckMask
  import opened Datagrams
  import opened BigEndian

  function Word(m: Mask, i: nat): (s: bytes)
    requires i < WORD_COUNT
    ensures |s| == 4 && Read32(s) == m[i]
  {
    Put32(m[i])
  }

  function MaskBytes(m: Mask): (s: bytes)
    ensures |s| == 16
  {
    Word(m, 0) + Word(m, 1) + Word(m, 2) + Word(m, 3)
  }

  function ReadMask(s: bytes): Mask
    requires |s| == 16
  {
    [Read32(s[0..4]), Read32(s[4..8]), Read32(s[8..12]), Read32(s[12..16])]
  }

  lemma MaskRoundTrip(m: Mask)
    ensures ReadMask(MaskBytes(m)) == m
  {
    var s := MaskBytes(m);
    assert s[0..4] == Word(m, 0) && s[4..8] == Word(m, 1) && s[8..12] == Word(m, 2) && s[12..16] == Word(m, 3);
  }

  lemma MaskBytesRoundTrip(s: bytes)
    requires |s| == 16
    ensures MaskBytes(ReadMask(s)) == s
  {
    WrittenRead(s[0..4]);
    WrittenRead(s[4..8]);
    WrittenRead(s[8..12]);
    WrittenRead(s[12..16]);
    assert s == s[0..4] + s[4..8] + s[8..12] + s[12..16];
  }

  // ---- encoding ----

  function Header(p: Packet): (s: bytes)
    ensures |s| == HEADER_BYTES
  {
    Put16(p.packetSeq) + Put16(p.ackSeq) + MaskBytes(p.ackMask) + [p.flags]
  }

  /** What the lane adds between its own byte and the payload. */
  function LaneHeader(p: Packet): bytes
  {
    if p.lane == LANE_UNORDERED then Put16(p.messageID)
    else if p.lane == LANE_ORDERED then Put16(p.messageID) + Put16(p.orderedSeq)
    else if p.lane == LANE_EVENTUAL then Put64(p.stateToken)
    else []
  }

  function LaneHeaderBytes(lane: byte): nat
  {
    if lane == LANE_UNORDERED then MESSAGE_ID_BYTES
    else if lane == LANE_ORDERED then MESSAGE_ID_BYTES + ORDERED_SEQ_BYTES
    else if lane == LANE_EVENTUAL then TOKEN_BYTES
    else 0
  }

  /** Everything after the header of a packet that is not ACK-only. */
  function Tail(p: Packet): bytes { [p.lane] + LaneHeader(p) + p.payload }

  /** The packets the encoder accepts. */
  predicate Encodable(p: Packet)
  {
    p.AckOnly() || (ValidLane(p.lane) && PayloadFits(p.lane, p.payload))
  }

  /** The bytes of an accepted packet. */
  function Encode(p: Packet): (s: bytes)
    requires Encodable(p)
    ensures |s| <= MAX_DATAGRAM_BYTES
  {
    if p.AckOnly() then Header(p) else Header(p) + Tail(p)
  }

  /** The Go client validates the finished size instead of the payload: it accepts the same packets. */
  predicate ClientEncodable(p: Packet)
  {
    p.AckOnly() ||
    (ValidLane(p.lane) && HEADER_BYTES + LANE_BYTES + LaneHeaderBytes(p.lane) + |p.payload| <= MAX_DATAGRAM_BYTES)
  }

  lemma ClientEncodesTheSamePackets(p: Packet)
    ensures ClientEncodable(p) <==> Encodable(p)
  {
  }

  // ---- decoding ----

  datatype Decoded = Ok(packet: Packet) | TooSmall | UnknownLane | TooLarge

  function Fixed(data: bytes): Packet
    requires |data| >= HEADER_BYTES
  {
    Packet(Read16(data[0..2]), Read16(data[2..4]), ReadMask(data[4..20]), data[20], 0, 0, 0, 0, [])
  }

  function Body(data: bytes, lane: byte): Packet
    requires |data| >= HEADER_BYTES + LANE_BYTES + LaneHeaderBytes(lane)
  {
    var p := Fixed(data).(lane := lane, payload := data[22 + LaneHeaderBytes(lane)..]);
    if lane == LANE_UNORDERED then p.(messageID := Read16(data[22..24]))
    else if lane == LANE_ORDERED then p.(messageID := Read16(data[22..24]), orderedSeq := Read16(data[24..26]))
    else if lane == LANE_EVENTUAL then p.(stateToken := Read64(data[22..30]))
    else p
  }

  function Decode(data: bytes): Decoded
  {
    if |data| < HEADER_BYTES then TooSmall
    else if Fixed(data).AckOnly() then Ok(Fixed(data))
    else if |data| < HEADER_BYTES + LANE_BYTES then TooSmall
    else
      var lane := data[HEADER_BYTES];
      if !ValidLane(lane) then UnknownLane
      else if |data| < HEADER_BYTES + LANE_BYTES + LaneHeaderBytes(lane) then TooSmall
      else
        var p := Body(data, lane);
        if PayloadFits(lane, p.payload) then Ok(p) else TooLarge
  }

  /** The Go client does not limit payloads on receipt. */
  function ClientDecode(data: bytes): Decoded
  {
    if |data| < HEADER_BYTES then TooSmall
    else if Fixed(data).AckOnly() then Ok(Fixed(data))
    else if |data| < HEADER_BYTES + LANE_BYTES then TooSmall
    else
      var lane := data[HEADER_BYTES];
      if !ValidLane(lane) then UnknownLane
      else if |data| < HEADER_BYTES + LANE_BYTES + LaneHeaderBytes(lane) then TooSmall
      else Ok(Body(data, lane))
  }

  /** The server rejects exactly the oversized ones among what the client accepts. */
  lemma ClientDecodesTheSame(data: bytes)
    ensures ClientDecode(data) == Decode(data) <==>
            !(ClientDecode(data).Ok? && !ClientDecode(data).packet.AckOnly() && |data| > MAX_DATAGRAM_BYTES)
  {
  }

  // ---- round trips ----

  /** The packet with the fields its lane does not carry cleared. */
  function Canonical(p: Packet): Packet
  {
    if p.AckOnly() then p.(lane := 0, messageID := 0, orderedSeq := 0, stateToken := 0, payload := [])
    else p.(messageID := if p.lane == LANE_UNORDERED || p.lane == LANE_ORDERED then p.messageID else 0,
            orderedSeq := if p.lane == LANE_ORDERED then p.orderedSeq else 0,
            stateToken := if p.lane == LANE_EVENTUAL then p.stateToken else 0)
  }

  lemma HeaderSlices(p: Packet, rest: bytes)
    ensures var data := Header(p) + rest;
            && data[0..2] == Put16(p.packetSeq)
            && data[2..4] == Put16(p.ackSeq)
            && data[4..20] == MaskBytes(p.ackMask)
            && data[20] == p.flags
  {
  }

  lemma HeaderRoundTrip(p: Packet, rest: bytes)
    ensures var data := Header(p) + rest;
            Fixed(data) == p.(lane := 0, messageID := 0, orderedSeq := 0, stateToken := 0, payload := [])
  {
    HeaderSlices(p, rest);
    MaskRoundTrip(p.ackMask);
  }

  lemma TailSlices(p: Packet)
    ensures var n := LANE_BYTES + LaneHeaderBytes(p.lane);
            && |Tail(p)| >= n && Tail(p)[0] == p.lane
            && Tail(p)[1..n] == LaneHeader(p) && Tail(p)[n..] == p.payload
  {
  }

  lemma AfterHeader(head: bytes, tail: bytes, i: nat, j: nat)
    requires i <= j <= |tail|
    ensures (head + tail)[|head| + i..|head| + j] == tail[i..j]
    ensures (head + tail)[|head| + i..] == tail[i..]
  {
  }

  lemma LaneHeaderRoundTrip(p: Packet, data: bytes)
    requires |data| >= 22 + LaneHeaderBytes(p.lane) && data[22..22 + LaneHeaderBytes(p.lane)] == LaneHeader(p)
    ensures p.lane == LANE_UNORDERED || p.lane == LANE_ORDERED ==> Read16(data[22..24]) == p.messageID
    ensures p.lane == LANE_ORDERED ==> Read16(data[24..26]) == p.orderedSeq
    ensures p.lane == LANE_EVENTUAL ==> Read64(data[22..30]) == p.stateToken
  {
    if p.lane == LANE_ORDERED {
      assert data[22..24] == data[22..26][..2] == Put16(p.messageID);
      assert data[24..26] == data[22..26][2..] == Put16(p.orderedSeq);
    }
  }

  lemma BodyFromSlices(p: Packet, data: bytes)
    requires !p.AckOnly() && ValidLane(p.lane) && |data| >= 22 + LaneHeaderBytes(p.lane)
    requires Fixed(data) == p.(lane := 0, messageID := 0, orderedSeq := 0, stateToken := 0, payload := [])
    requires data[22..22 + LaneHeaderBytes(p.lane)] == LaneHeader(p)
    requires data[22 + LaneHeaderBytes(p.lane)..] == p.payload
    ensures Body(data, p.lane) == Canonical(p)
  {
    LaneHeaderRoundTrip(p, data);
  }

  lemma BodyRoundTrip(p: Packet)
    requires Encodable(p) && !p.AckOnly()
    ensures Body(Encode(p), p.lane) == Canonical(p)
  {
    TailSlices(p);
    var n := LANE_BYTES + LaneHeaderBytes(p.lane);
    AfterHeader(Header(p), Tail(p), 1, n);
    AfterHeader(Header(p), Tail(p), n, n);
    HeaderRoundTrip(p, Tail(p));
    BodyFromSlices(p, Encode(p));
  }

  /** Where everything is in a datagram: packet number, acknowledged number, mask, flags; then, unless it is an ACK and
      nothing else, the lane, what the lane adds, and the payload to the end. */
  lemma WireLayout(p: Packet)
    requires Encodable(p)
    ensures var s := Encode(p);
            && |s| >= 21 && Read16(s[0..2]) == p.packetSeq && Read16(s[2..4]) == p.ackSeq && s[20] == p.flags
            && Read32(s[4..8]) == p.ackMask[0] && Read32(s[8..12]) == p.ackMask[1]
            && Read32(s[12..16]) == p.ackMask[2] && Read32(s[16..20]) == p.ackMask[3]
            && (p.AckOnly() ==> |s| == 21)
    ensures var s := Encode(p);
            !p.AckOnly() ==>
              && |s| >= 22 && s[21] == p.lane
              && (p.lane == LANE_UNRELIABLE ==> s[22..] == p.payload)
              && (p.lane == LANE_UNORDERED ==> |s| >= 24 && Read16(s[22..24]) == p.messageID && s[24..] == p.payload)
              && (p.lane == LANE_ORDERED ==>
                    |s| >= 26 && Read16(s[22..24]) == p.messageID && Read16(s[24..26]) == p.orderedSeq && s[26..] == p.payload)
              && (p.lane == LANE_EVENTUAL ==> |s| >= 30 && Read64(s[22..30]) == p.stateToken && s[30..] == p.payload)
  {
    var s := Encode(p);
    var tail := if p.AckOnly() then [] else Tail(p);
    assert s == Header(p) + tail;
    HeaderSlices(p, tail);
    HeaderRoundTrip(p, tail);
    MaskWords(s);
    if !p.AckOnly() {
      TailSlices(p);
      var n := LANE_BYTES + LaneHeaderBytes(p.lane);
      AfterHeader(Header(p), Tail(p), 1, n);
      AfterHeader(Header(p), Tail(p), n, n);
      assert s[21] == Tail(p)[0];
      LaneHeaderRoundTrip(p, s);
    }
  }

  lemma MaskWords(s: bytes)
    requires |s| >= 21
    ensures var m := ReadMask(s[4..20]);
            && m[0] == Read32(s[4..8]) && m[1] == Read32(s[8..12]) && m[2] == Read32(s[12..16]) && m[3] == Read32(s[16..20])
  {
    SliceOfSlice(s, 4, 20, 0, 4);
    SliceOfSlice(s, 4, 20, 4, 8);
    SliceOfSlice(s, 4, 20, 8, 12);
    SliceOfSlice(s, 4, 20, 12, 16);
  }

  lemma SliceOfSlice(s: bytes, a: nat, b: nat, i: nat, j: nat)
    requires a <= b <= |s| && i <= j <= b - a
    ensures s[a..b][i..j] == s[a + i..a + j]
  {
    var t, u := s[a..b][i..j], s[a + i..a + j];
    assert |t| == |u|;
    forall k | 0 <= k < |t| ensures t[k] == u[k] {
      assert t[k] == s[a..b][i + k];
    }
  }

  /** Decoding what was encoded gives the packet back, on every lane, ACK-only packets included. */
  lemma DecodeEncode(p: Packet)
    requires Encodable(p)
    ensures Decode(Encode(p)) == Ok(Canonical(p)) && ClientDecode(Encode(p)) == Ok(Canonical(p))
  {
    if p.AckOnly() {
      assert Header(p) + [] == Header(p);
      HeaderRoundTrip(p, []);
    } else {
      HeaderRoundTrip(p, Tail(p));
      TailSlices(p);
      assert Encode(p)[HEADER_BYTES] == Tail(p)[0];
      BodyRoundTrip(p);
    }
  }

  lemma HeaderOfFixed(data: bytes)
    requires |data| >= HEADER_BYTES
    ensures Header(Fixed(data)) == data[..HEADER_BYTES]
  {
    WrittenRead(data[0..2]);
    WrittenRead(data[2..4]);
    MaskBytesRoundTrip(data[4..20]);
    assert data[..HEADER_BYTES] == data[0..2] + data[2..4] + data[4..20] + [data[20]];
  }

  lemma LaneHeaderOfBody(data: bytes, lane: byte)
    requires |data| >= HEADER_BYTES + LANE_BYTES + LaneHeaderBytes(lane)
    ensures LaneHeader(Body(data, lane)) == data[22..22 + LaneHeaderBytes(lane)]
  {
    if lane == LANE_UNORDERED {
      WrittenRead(data[22..24]);
    } else if lane == LANE_ORDERED {
      WrittenRead(data[22..24]);
      WrittenRead(data[24..26]);
      assert data[22..26] == data[22..24] + data[24..26];
    } else if lane == LANE_EVENTUAL {
      WrittenRead(data[22..30]);
    }
  }

  lemma TailOfBody(data: bytes, lane: byte)
    requires |data| >= HEADER_BYTES + LANE_BYTES + LaneHeaderBytes(lane) && data[HEADER_BYTES] == lane
    ensures Tail(Body(data, lane)) == data[HEADER_BYTES..]
  {
    LaneHeaderOfBody(data, lane);
    InThreeParts(data[HEADER_BYTES..], LaneHeaderBytes(lane));
    FromMiddle(data, 22 + LaneHeaderBytes(lane));
  }

  lemma InThreeParts(s: bytes, n: nat)
    requires 1 + n <= |s|
    ensures s == [s[0]] + s[1..1 + n] + s[1 + n..]
  {
  }

  lemma FromMiddle(data: bytes, n: nat)
    requires 22 <= n <= |data|
    ensures data[21..][1..n - 21] == data[22..n] && data[21..][n - 21..] == data[n..]
  {
  }

  /** Encoding what was accepted gives the same bytes back; an ACK-only datagram loses only what
      follows its header. */
  lemma EncodeDecode(data: bytes)
    requires Decode(data).Ok?
    ensures var p := Decode(data).packet;
            && Encodable(p) && Canonical(p) == p
            && Encode(p) == if p.AckOnly() then data[..HEADER_BYTES] else data
  {
    HeaderOfFixed(data);
    if !Fixed(data).AckOnly() {
      var lane := data[HEADER_BYTES];
      TailOfBody(data, lane);
      assert data == data[..HEADER_BYTES] + data[HEADER_BYTES..];
      assert Header(Body(data, lane)) == Header(Fixed(data));
    }
  }

  // ---- the encoder with its reused output buffer ----

  method Put(out: array<byte>, offset: nat, s: bytes)
    requires offset + |s| <= out.Length
    modifies out
    ensures out[..offset] == old(out[..offset])
    ensures out[offset..offset + |s|] == s
    ensures out[offset + |s|..] == old(out[offset + |s|..])
  {
    var i := 0;
    while i < |s|
      invariant 0 <= i <= |s|
      invariant forall j :: 0 <= j < out.Length ==>
        out[j] == if offset <= j < offset + i then s[j - offset] else old(out[j])
    {
      out[offset + i] := s[i];
      i := i + 1;
    }
  }

  /** appendDatagramPacket: the packet is written over `dst` when that is large enough. Whatever `dst`
      held before, the first `n` bytes of `out` are the encoding and nothing past them changes. */
  method AppendDatagramPacket(dst: array<byte>, p: Packet) returns (out: array<byte>, n: nat, ok: bool)
    modifies dst
    ensures ok <==> Encodable(p)
    ensures ok ==> n <= out.Length && out[..n] == Encode(p)
    ensures ok && n <= dst.Length ==> out == dst && out[n..] == old(dst[n..])
    ensures ok && n > dst.Length ==> fresh(out)
    ensures !ok || n > dst.Length ==> dst[..] == old(dst[..])
  {
    n := HEADER_BYTES;
    if !p.AckOnly() {
      if !ValidLane(p.lane) || !PayloadFits(p.lane, p.payload) {
        return dst, 0, false;
      }
      n := n + LANE_BYTES + LaneHeaderBytes(p.lane) + |p.payload|;
    }
    ok := true;
    if dst.Length < n {
      out := new byte[n](_ => 0);
    } else {
      out := dst;
    }
    ghost var was := out[..];
    PutHeader(out, p);
    if p.AckOnly() {
      return;
    }
    PutBody(out, p);
    assert out[n..] == was[21..][n - 21..];
    assert was[21..][n - 21..] == was[n..];
  }

  method PutBody(out: array<byte>, p: Packet)
    requires !p.AckOnly() && Encodable(p) && out.Length >= |Encode(p)| && out[..HEADER_BYTES] == Header(p)
    modifies out
    ensures out[..|Encode(p)|] == Encode(p)
    ensures out[|Encode(p)|..] == old(out[HEADER_BYTES..])[|Encode(p)| - HEADER_BYTES..]
  {
    var n := 22 + LaneHeaderBytes(p.lane);
    ghost var was := out[..];
    Put(out, 21, [p.lane] + LaneHeader(p));
    ghost var mid := out[..];
    Put(out, n, p.payload);
    TwoPuts(was, mid, out[..], 21, [p.lane] + LaneHeader(p), p.payload);
  }

  /** Two adjacent writes are one write of the concatenation. */
  lemma TwoPuts(was: bytes, mid: bytes, now: bytes, at: nat, s: bytes, t: bytes)
    requires at + |s| + |t| <= |was| == |mid| == |now|
    requires mid[..at] == was[..at] && mid[at..at + |s|] == s && mid[at + |s|..] == was[at + |s|..]
    requires var n := at + |s|; now[..n] == mid[..n] && now[n..n + |t|] == t && now[n + |t|..] == mid[n + |t|..]
    ensures var m := at + |s| + |t|;
            now[..m] == was[..at] + (s + t) && now[m..] == was[at..][m - at..]
  {
    var n, m := at + |s|, at + |s| + |t|;
    assert mid[..n] == was[..at] + s by { assert mid[..n] == mid[..at] + mid[at..n]; }
    assert now[..m] == now[..n] + now[n..m];
    assert (was[..at] + s) + t == was[..at] + (s + t);
    assert mid[m..] == mid[n..][|t|..];
    assert was[n..][|t|..] == was[at..][m - at..];
  }

  method PutHeader(out: array<byte>, p: Packet)
    requires out.Length >= HEADER_BYTES
    modifies out
    ensures out[..HEADER_BYTES] == Header(p)
    ensures out[HEADER_BYTES..] == old(out[HEADER_BYTES..])
  {
    ghost var tail := out[HEADER_BYTES..];
    Put(out, 0, Put16(p.packetSeq) + Put16(p.ackSeq));
    assert out[..4] == Put16(p.packetSeq) + Put16(p.ackSeq);
    assert out[HEADER_BYTES..] == tail;
    var i := 0;
    while i < WORD_COUNT
      invariant 0 <= i <= WORD_COUNT
      invariant out[..4] == Put16(p.packetSeq) + Put16(p.ackSeq)
      invariant out[4..4 + 4 * i] == MaskBytes(p.ackMask)[..4 * i]
      invariant out[HEADER_BYTES..] == tail
    {
      ghost var before := out[..];
      Put(out, 4 + 4 * i, Put32(p.ackMask[i]));
      MaskPrefix(p.ackMask, i);
      GrownSlice(before, out[..], 4 + 4 * i, Word(p.ackMask, i));
      assert out[HEADER_BYTES..] == out[8 + 4 * i..][13 - 4 * i..] == before[8 + 4 * i..][13 - 4 * i..];
      i := i + 1;
    }
    ghost var before := out[..];
    Put(out, 20, [p.flags]);
    assert out[..20] == before[..4] + before[4..20];
    assert out[..21] == out[..20] + [out[20]];
    assert out[HEADER_BYTES..] == before[HEADER_BYTES..];
  }

  lemma GrownSlice(before: bytes, now: bytes, at: nat, s: bytes)
    requires 4 <= at && at + |s| <= |before| == |now|
    requires now[..at] == before[..at] && now[at..at + |s|] == s
    ensures now[..4] == before[..4] && now[4..at + |s|] == before[4..at] + s
  {
    assert now[..4] == now[..at][..4] && before[..4] == before[..at][..4];
    assert now[4..at] == now[..at][4..] && before[4..at] == before[..at][4..];
    assert now[4..at + |s|] == now[4..at] + now[at..at + |s|];
  }

  lemma MaskPrefix(m: Mask, i: nat)
    requires i < WORD_COUNT
    ensures MaskBytes(m)[..4 * i + 4] == MaskBytes(m)[..4 * i] + Word(m, i)
  {
  }

  // ---- ACKs piggybacked on the client's stream ----

  const CONTROL_PREFIX: bytes := [0x00, 0x4F, 0x47, 0x53, 0x02]
  const CONTROL_HEADER_BYTES := 5 + 2 + 16

  predicate HasControlPrefix(data: bytes) { |data| >= 5 && data[..5] == CONTROL_PREFIX }

  /** wrapStreamPayload: the payload goes out with an ACK when one is due and it fits. */
  function WrapStreamPayload(payload: bytes, ackDirty: bool, ackSeq: uint16, ackMask: Mask): bytes
  {
    if !ackDirty || |payload| + CONTROL_HEADER_BYTES > MAX_RELIABLE_BYTES then payload
    else CONTROL_PREFIX + Put16(ackSeq) + MaskBytes(ackMask) + payload
  }

  datatype Unwrapped = Plain(payload: bytes) | Acked(payload: bytes, ackSeq: uint16, ackMask: Mask) | Short

  /** decodeClientReliableAckControlFrame. */
  function UnwrapStreamPayload(data: bytes): Unwrapped
  {
    if !HasControlPrefix(data) then Plain(data)
    else if |data| < CONTROL_HEADER_BYTES then Short
    else Acked(data[CONTROL_HEADER_BYTES..], Read16(data[5..7]), ReadMask(data[7..23]))
  }

  /** The server gets back the payload, and the ACK exactly when the client attached one. The one
      exception is a bare payload that itself begins with the control prefix. */
  lemma StreamPayloadRoundTrip(payload: bytes, ackDirty: bool, ackSeq: uint16, ackMask: Mask)
    ensures var attached := ackDirty && |payload| + CONTROL_HEADER_BYTES <= MAX_RELIABLE_BYTES;
            UnwrapStreamPayload(WrapStreamPayload(payload, ackDirty, ackSeq, ackMask)) ==
              (if attached then Acked(payload, ackSeq, ackMask) else Plain(payload))
            <==> attached || !HasControlPrefix(payload)
  {
    var attached := ackDirty && |payload| + CONTROL_HEADER_BYTES <= MAX_RELIABLE_BYTES;
    if attached {
      var data := WrapStreamPayload(payload, ackDirty, ackSeq, ackMask);
      assert data[..5] == CONTROL_PREFIX;
      assert data[5..7] == Put16(ackSeq);
      assert data[7..23] == MaskBytes(ackMask);
      assert data[CONTROL_HEADER_BYTES..] == payload;
      MaskRoundTrip(ackMask);
    }
  }

  /** Where everything is in a stream frame that carries an ACK: prefix, number, mask, payload. */
  lemma ControlLayout(payload: bytes, ackSeq: uint16, ackMask: Mask)
    requires |payload| + CONTROL_HEADER_BYTES <= MAX_RELIABLE_BYTES
    ensures var s := WrapStreamPayload(payload, true, ackSeq, ackMask);
            && |s| == 23 + |payload| && s[..5] == [0x00, 0x4F, 0x47, 0x53, 0x02]
            && Read16(s[5..7]) == ackSeq && s[23..] == payload
            && Read32(s[7..11]) == ackMask[0] && Read32(s[11..15]) == ackMask[1]
            && Read32(s[15..19]) == ackMask[2] && Read32(s[19..23]) == ackMask[3]
  {
    var s, m := WrapStreamPayload(payload, true, ackSeq, ackMask), MaskBytes(ackMask);
    assert s[5..7] == Put16(ackSeq) && s[7..23] == m;
    SliceOfSlice(s, 7, 23, 0, 4);
    SliceOfSlice(s, 7, 23, 4, 8);
    SliceOfSlice(s, 7, 23, 8, 12);
    SliceOfSlice(s, 7, 23, 12, 16);
    MaskRoundTrip(ackMask);
  }

  /** The control prefix itself, sent bare. */
  lemma BarePrefixIsMisread(ackSeq: uint16, ackMask: Mask)
    ensures UnwrapStreamPayload(WrapStreamPayload(CONTROL_PREFIX, false, ackSeq, ackMask)) == Short
  {
  }

  /** The size limit of the stream is respected by what is sent. */
  lemma WrappedFits(payload: bytes, ackDirty: bool, ackSeq: uint16, ackMask: Mask)
    requires |payload| <= MAX_RELIABLE_BYTES
    ensures |WrapStreamPayload(payload, ackDirty, ackSeq, ackMask)| <= MAX_RELIABLE_BYTES
  {
  }
}
