/** One endpoint of the datagram protocol: the object that owns all lanes
    (golem/net/datagram_protocol.go, datagram_sender.go, datagram_receiver.go). */
module Protocol {
  import opened Identifiers
  import opened SerialNumbers
  import opened AckMask
  import opened Datagrams
  import opened PacketWindow
  import opened ReliableQueue
  import opened OrderedReceiver
  import opened PacketCodec
  import E = EventualLane
  import O = OrderedLane

  datatype Error = Malformed(reason: Decoded) | ReliableStalled | EventualStalled | GapExpired

  /** lastPacketSeq: the number before nextPacketSeq. */
  function LastPacketSeq(next: uint16): uint16
  {
    if next == 0 then 0xFFFF else next - 1
  }

  lemma LastPacketSeqIsLast(sent: nat)
    requires sent > 0
    ensures LastPacketSeq(Wrap(sent)) == Wrap(sent - 1)
  {
  }

  datatype Delivery = Delivery(lane: byte, data: bytes)

  function OnOrdered(payloads: seq<bytes>): seq<Delivery>
  {
    seq(|payloads|, i requires 0 <= i < |payloads| => Delivery(LANE_ORDERED, payloads[i]))
  }

  /** The packet that carries a reliable message. */
  function LanePacket(lane: byte, l: O.Lane, m: Message): Packet
  {
    if lane == LANE_ORDERED then O.OrderedPacket(l, m)
    else O.Stamped(l, Packet(0, 0, EMPTY, 0, lane, Wrap(m.id), 0, 0, m.payload))
  }

  /** An ACK and nothing else. */
  const ACK_PACKET := Packet(0, 0, EMPTY, ACK_ONLY, 0, 0, 0, 0, [])

  function EventualPacket(l: O.Lane, q: E.Queued): Packet
  {
    O.Stamped(l, Packet(0, 0, EMPTY, 0, LANE_EVENTUAL, 0, 0, q.token, q.payload))
  }

  /** What the peer makes of a reliable lane's packet: the sender's next number and stamp, and the message. */
  lemma PeerReadsMessage(lane: byte, l: O.Lane, m: Message)
    requires (lane == LANE_ORDERED || lane == LANE_UNORDERED) && Encodable(LanePacket(lane, l, m))
    ensures var d := Decode(Encode(LanePacket(lane, l, m)));
            && d.Ok? && !d.packet.AckOnly() && d.packet.lane == lane && d.packet.payload == m.payload
            && d.packet.packetSeq == Wrap(l.packetsSent) && d.packet.ackSeq == l.recv.latest && d.packet.ackMask == l.recv.mask
            && d.packet.messageID == Wrap(m.id) && (lane == LANE_ORDERED ==> d.packet.orderedSeq == Wrap(m.number))
  {
    DecodeEncode(LanePacket(lane, l, m));
  }

  /** The same of an eventual-state packet, and of an ACK. */
  lemma PeerReadsUpdate(l: O.Lane, q: E.Queued)
    requires Encodable(EventualPacket(l, q))
    ensures var d := Decode(Encode(EventualPacket(l, q)));
            && d.Ok? && !d.packet.AckOnly() && d.packet.lane == LANE_EVENTUAL
            && d.packet.stateToken == q.token && d.packet.payload == q.payload
            && d.packet.packetSeq == Wrap(l.packetsSent) && d.packet.ackSeq == l.recv.latest && d.packet.ackMask == l.recv.mask
  {
    DecodeEncode(EventualPacket(l, q));
  }

  lemma PeerReadsAck(l: O.Lane)
    ensures var d := Decode(Encode(O.Stamped(l, ACK_PACKET)));
            && d.Ok? && d.packet.AckOnly()
            && d.packet.packetSeq == Wrap(l.packetsSent) && d.packet.ackSeq == l.recv.latest && d.packet.ackMask == l.recv.mask
  {
    DecodeEncode(O.Stamped(l, ACK_PACKET));
  }

  predicate IsEncoding(data: bytes, p: Packet) { Encodable(p) && data == Encode(p) }

  // ---- wake-up, on values ----

  /** When the protocol must next act, and whether it must at all. */
  function Sooner(a: Option<Time>, t: Time): Option<Time>
  {
    if a.None? || t < a.value then Some(t) else a
  }

  /** Nothing to do for a queue at time t: nothing due, nothing stalled. */
  ghost predicate QueueQuiet(q: seq<Message>, t: Time)
  {
    NextToSend(q, t, true) == Idle && forall m :: m in q ==> !Expired(m, t)
  }

  class DatagramProtocol {
    var packetsSent: nat   // behind nextPacketSeq
    var idsUsed: nat       // behind nextMessageID
    var numbered: nat      // behind nextOrderedSeq
    const recvPackets: SequenceWindow
    const recvReliableMsgs: SequenceWindow
    const orderedRecv: Receiver
    var peerPackets: Window
    var ackDirty: bool
    var ackDueAt: Option<Time>

    var pendingOrdered: seq<Message>
    var pendingUnordered: seq<Message>
    var pendingEventual: seq<E.Queued>
    var pendingEventualHead: nat
    var pendingEventualCap: nat
    var inFlightEventual: map<uint16, E.InFlight>
    var eventualExpiry: Option<Time>
    var eventualFeedback: seq<E.Feedback>

    ghost predicate Valid()
      reads this
    {
      && recvPackets != recvReliableMsgs
      && pendingEventualHead <= |pendingEventual| <= pendingEventualCap
      && (forall i :: pendingEventualHead <= i < |pendingEventual| ==> |pendingEventual[i].payload| <= MAX_EVENTUAL_BYTES)
      && (forall m :: m in pendingOrdered ==> |m.payload| <= MAX_ORDERED_BYTES)
      && (forall m :: m in pendingUnordered ==> |m.payload| <= MAX_UNORDERED_BYTES)
      && E.ExpirySound(inFlightEventual, eventualExpiry)
    }

    function QueueOf(lane: byte): seq<Message>
      reads this
    {
      if lane == LANE_ORDERED then pendingOrdered else pendingUnordered
    }

    /** The state as one reliable lane sees it. */
    function LanePart(lane: byte): O.Lane
      reads this, recvPackets, orderedRecv
    {
      O.Lane(packetsSent, idsUsed, numbered, recvPackets.View(), orderedRecv.View(), QueueOf(lane))
    }

    function OrderedPart(): O.Lane
      reads this, recvPackets, orderedRecv
    {
      LanePart(LANE_ORDERED)
    }

    /** The eventual-state lane's share: the queue is what lies behind the head index. */
    function EventualPart(): E.State
      requires pendingEventualHead <= |pendingEventual|
      reads this
    {
      E.State(pendingEventual[pendingEventualHead..], inFlightEventual, eventualExpiry, eventualFeedback)
    }

    constructor ()
      ensures Valid() && fresh(recvPackets) && fresh(recvReliableMsgs) && fresh(orderedRecv)
      ensures OrderedPart() == O.IDLE && EventualPart() == E.State([], map[], None, [])
      ensures pendingUnordered == [] && !ackDirty && peerPackets == FRESH && recvReliableMsgs.View() == FRESH
    {
      packetsSent, idsUsed, numbered := 0, 0, 0;
      var w1 := new SequenceWindow();
      var w2 := new SequenceWindow();
      var r := new Receiver();
      recvPackets, recvReliableMsgs, orderedRecv := w1, w2, r;
      peerPackets, ackDirty, ackDueAt := FRESH, false, None;
      pendingOrdered, pendingUnordered := [], [];
      pendingEventual, pendingEventualHead, pendingEventualCap := [], 0, SEND_BUF_SIZE;
      inFlightEventual, eventualExpiry, eventualFeedback := map[], None, [];
    }

    // ---- reliable lanes, sending ----

    /** enqueueReliable. The message and ordered numbers are used up before the overflow test; a message of
        any valid lane but the ordered one is filed with the unordered ones. */
    method EnqueueReliable(lane: byte, payload: bytes, now: Time) returns (ok: bool)
      requires Valid()
      modifies this`idsUsed, this`numbered, this`pendingOrdered, this`pendingUnordered
      ensures Valid()
      ensures lane == LANE_ORDERED ==>
                && (OrderedPart(), ok) == O.Enqueue(old(OrderedPart()), payload, now)
                && ok == (|payload| <= MAX_ORDERED_BYTES && |old(pendingOrdered)| < SEND_BUF_SIZE)
                && pendingOrdered == old(pendingOrdered) +
                     (if ok then [Message(old(idsUsed), old(numbered), payload, now, now, 0, 0, false)] else [])
                && pendingUnordered == old(pendingUnordered)
      ensures lane != LANE_ORDERED ==>
                && ok == (ReliableSizeOk(lane, payload) && |old(pendingUnordered)| < SEND_BUF_SIZE)
                && idsUsed == old(idsUsed) + (if ReliableSizeOk(lane, payload) then 1 else 0)
                && pendingUnordered == old(pendingUnordered) +
                     (if ok then [Message(old(idsUsed), 0, payload, now, now, 0, 0, false)] else [])
                && numbered == old(numbered) && pendingOrdered == old(pendingOrdered)
    {
      if !ReliableSizeOk(lane, payload) {
        return false;
      }
      var msg := Message(idsUsed, 0, payload, now, now, 0, 0, false);
      idsUsed := idsUsed + 1;
      if lane == LANE_ORDERED {
        msg := msg.(number := numbered);
        numbered := numbered + 1;
        if |pendingOrdered| >= SEND_BUF_SIZE {
          return false;
        }
        pendingOrdered := pendingOrdered + [msg];
      } else {
        if |pendingUnordered| >= SEND_BUF_SIZE {
          return false;
        }
        pendingUnordered := pendingUnordered + [msg];
      }
      return true;
    }

    /** newPacketInto: stamps, numbers and encodes; a packet the encoder refuses uses up no number and
        leaves a pending ACK pending. */
    method NewPacket(p: Packet) returns (data: Option<bytes>)
      requires Valid()
      modifies this`packetsSent, this`ackDirty
      ensures Valid() && (data.Some? <==> Encodable(p))
      ensures data.Some? ==>
                && packetsSent == old(packetsSent) + 1 && !ackDirty
                && IsEncoding(data.value, O.Stamped(old(OrderedPart()), p))
      ensures data.None? ==> packetsSent == old(packetsSent) && ackDirty == old(ackDirty)
    {
      var q := p.(packetSeq := Wrap(packetsSent), ackSeq := recvPackets.latest, ackMask := recvPackets.mask);
      if !Encodable(q) {
        return None;
      }
      data := Some(Encode(q));
      packetsSent := packetsSent + 1;
      ackDirty := false;
    }

    /** nextAckPacketInto. */
    method NextAckPacket(now: Time) returns (packet: Option<bytes>)
      requires Valid()
      modifies this`packetsSent, this`ackDirty
      ensures Valid()
      ensures packet.Some? <==> old(ackDirty) && (old(ackDueAt).None? || old(ackDueAt).value <= now)
      ensures packet.None? ==> packetsSent == old(packetsSent) && ackDirty == old(ackDirty)
      ensures packet.Some? ==>
                && packetsSent == old(packetsSent) + 1 && !ackDirty
                && IsEncoding(packet.value, O.Stamped(old(OrderedPart()), ACK_PACKET))
    {
      if !ackDirty || (ackDueAt.Some? && now < ackDueAt.value) {
        return None;
      }
      packet := NewPacket(ACK_PACKET);
    }

    predicate AckDue(now: Time)
      reads this
    {
      ackDirty && !(ackDueAt.Some? && now < ackDueAt.value)
    }

    /** nextReliablePacketInto: sends the message NextToSend picks, and only that one changes. */
    method NextReliablePacket(lane: byte, now: Time, allowResend: bool)
      returns (packet: Option<bytes>, resend: bool, stalled: bool)
      requires Valid() && (lane == LANE_ORDERED || lane == LANE_UNORDERED)
      modifies this`packetsSent, this`ackDirty, this`pendingOrdered, this`pendingUnordered
      ensures Valid()
      ensures var c := NextToSend(old(QueueOf(lane)), now, allowResend);
              && Chosen(old(QueueOf(lane)), now, allowResend, c)
              && (stalled <==> c.Stalled?)
              && (packet.Some? <==> c.Send?)
              && (c.Send? ==>
                    && resend == old(QueueOf(lane))[c.index].inFlight
                    && LanePart(lane) == O.SendAt(old(LanePart(lane)), c.index, now)
                    && IsEncoding(packet.value, LanePacket(lane, old(LanePart(lane)), old(QueueOf(lane))[c.index])))
              && (!c.Send? ==> ackDirty == old(ackDirty) && LanePart(lane) == old(LanePart(lane)))
      ensures lane == LANE_ORDERED ==> pendingUnordered == old(pendingUnordered)
      ensures lane == LANE_UNORDERED ==> pendingOrdered == old(pendingOrdered)
    {
      var c := ChooseNext(QueueOf(lane), now, allowResend);
      if !c.Send? {
        return None, false, c.Stalled?;
      }
      resend := QueueOf(lane)[c.index].inFlight;
      var data := SendMessage(lane, c.index, now);
      return Some(data), resend, false;
    }

    method SendMessage(lane: byte, i: nat, now: Time) returns (data: bytes)
      requires Valid() && (lane == LANE_ORDERED || lane == LANE_UNORDERED) && i < |QueueOf(lane)|
      modifies this`packetsSent, this`ackDirty, this`pendingOrdered, this`pendingUnordered
      ensures Valid()
      ensures LanePart(lane) == O.SendAt(old(LanePart(lane)), i, now)
      ensures IsEncoding(data, LanePacket(lane, old(LanePart(lane)), old(QueueOf(lane))[i]))
      ensures lane == LANE_ORDERED ==> pendingUnordered == old(pendingUnordered)
      ensures lane == LANE_UNORDERED ==> pendingOrdered == old(pendingOrdered)
    {
      assert QueueOf(lane)[i] in QueueOf(lane);
      data := EncodeMessage(lane, QueueOf(lane)[i]);
      MarkMessageSent(lane, i, now);
    }

    /** The bookkeeping of a send in the packet just numbered. */
    method MarkMessageSent(lane: byte, i: nat, now: Time)
      requires Valid() && (lane == LANE_ORDERED || lane == LANE_UNORDERED) && i < |QueueOf(lane)| && packetsSent > 0
      modifies this`pendingOrdered, this`pendingUnordered
      ensures Valid() && QueueOf(lane) == old(QueueOf(lane))[i := MarkSent(old(QueueOf(lane))[i], packetsSent - 1, now)]
      ensures lane == LANE_ORDERED ==> pendingUnordered == old(pendingUnordered)
      ensures lane == LANE_UNORDERED ==> pendingOrdered == old(pendingOrdered)
    {
      var queue := QueueOf(lane);
      var msg := queue[i];
      assert msg in queue;
      var delay := ReliableRetryDelay(msg.attempts + 1);
      var sent := msg.(inFlight := true, lastPacket := packetsSent - 1, attempts := msg.attempts + 1,
                       nextSendAt := now + delay);
      SetQueue(lane, queue[i := sent]);
    }

    method EncodeMessage(lane: byte, msg: Message) returns (data: bytes)
      requires Valid() && (lane == LANE_ORDERED || lane == LANE_UNORDERED) && msg in QueueOf(lane)
      modifies this`packetsSent, this`ackDirty
      ensures Valid() && packetsSent == old(packetsSent) + 1 && !ackDirty
      ensures IsEncoding(data, LanePacket(lane, old(LanePart(lane)), msg))
    {
      var number := if lane == LANE_ORDERED then Wrap(msg.number) else 0;
      var packet := NewPacket(Packet(0, 0, EMPTY, 0, lane, Wrap(msg.id), number, 0, msg.payload));
      data := packet.value;
    }

    method SetQueue(lane: byte, q: seq<Message>)
      requires Valid() && (lane == LANE_ORDERED || lane == LANE_UNORDERED)
      requires forall m :: m in q ==> |m.payload| <= if lane == LANE_ORDERED then MAX_ORDERED_BYTES else MAX_UNORDERED_BYTES
      modifies this`pendingOrdered, this`pendingUnordered
      ensures Valid() && QueueOf(lane) == q
      ensures lane == LANE_ORDERED ==> pendingUnordered == old(pendingUnordered)
      ensures lane == LANE_UNORDERED ==> pendingOrdered == old(pendingOrdered)
    {
      if lane == LANE_ORDERED {
        pendingOrdered := q;
      } else {
        pendingUnordered := q;
      }
    }

    // ---- eventual-state lane, sending ----

    function PendingEventualLen(): nat
      requires pendingEventualHead <= |pendingEventual|
      reads this
    {
      |pendingEventual| - pendingEventualHead
    }

    /** compactPendingEventualNow: moves the live suffix to the front. */
    method CompactPendingEventualNow()
      requires Valid()
      modifies this`pendingEventual, this`pendingEventualHead
      ensures Valid() && EventualPart() == old(EventualPart())
      ensures pendingEventualHead == 0
    {
      if pendingEventualHead == 0 {
        return;
      }
      pendingEventual := pendingEventual[pendingEventualHead..];
      pendingEventualHead := 0;
    }

    /** compactPendingEventualForAppend. */
    method CompactPendingEventualForAppend()
      requires Valid()
      modifies this`pendingEventual, this`pendingEventualHead
      ensures Valid() && EventualPart() == old(EventualPart())
    {
      if pendingEventualHead == 0 {
        return;
      }
      if pendingEventualHead == |pendingEventual| {
        pendingEventual, pendingEventualHead := [], 0;
        return;
      }
      if |pendingEventual| < pendingEventualCap && pendingEventualHead <= |pendingEventual| / 2 {
        return;
      }
      CompactPendingEventualNow();
    }

    /** enqueueEventualState: a plain FIFO append, whatever the head index and compaction do. */
    method EnqueueEventualState(token: uint64, payload: bytes, now: Time) returns (ok: bool)
      requires Valid()
      modifies this`pendingEventual, this`pendingEventualHead, this`pendingEventualCap
      ensures Valid()
      ensures ok <==> |payload| <= MAX_EVENTUAL_BYTES && |old(EventualPart()).queued| < SEND_BUF_SIZE
      ensures EventualPart() == if ok then old(EventualPart()).(queued := old(EventualPart()).queued + [E.Queued(token, payload, now)])
                                else old(EventualPart())
    {
      if |payload| > MAX_EVENTUAL_BYTES {
        return false;
      }
      if PendingEventualLen() >= SEND_BUF_SIZE {
        return false;
      }
      CompactPendingEventualForAppend();
      ghost var before := pendingEventual[pendingEventualHead..];
      pendingEventual := pendingEventual + [E.Queued(token, payload, now)];
      if |pendingEventual| > pendingEventualCap {
        pendingEventualCap := 2 * |pendingEventual|;
      }
      assert pendingEventual[pendingEventualHead..] == before + [E.Queued(token, payload, now)];
      return true;
    }

    /** popPendingEventual: the oldest queued item. */
    method PopPendingEventual() returns (msg: E.Queued)
      requires Valid() && PendingEventualLen() > 0
      modifies this`pendingEventual, this`pendingEventualHead
      ensures Valid()
      ensures msg == old(EventualPart()).queued[0] && |msg.payload| <= MAX_EVENTUAL_BYTES
      ensures EventualPart() == old(EventualPart()).(queued := old(EventualPart()).queued[1..])
    {
      msg := pendingEventual[pendingEventualHead];
      ghost var rest := pendingEventual[pendingEventualHead..][1..];
      pendingEventual := pendingEventual[pendingEventualHead := E.Queued(0, [], 0)];
      pendingEventualHead := pendingEventualHead + 1;
      assert pendingEventual[pendingEventualHead..] == rest;
      if pendingEventualHead == |pendingEventual| {
        pendingEventual, pendingEventualHead := [], 0;
      } else if pendingEventualHead > 32 && pendingEventualHead > |pendingEventual| / 2 {
        CompactPendingEventualNow();
      }
    }

    /** recomputeEventualExpiry: a minimum over the map, walked in any order. */
    method RecomputeEventualExpiry()
      modifies this`eventualExpiry
      ensures E.IsEarliest(inFlightEventual, eventualExpiry)
    {
      var expiry: Option<Time> := None;
      var rest := inFlightEventual.Keys;
      while rest != {}
        invariant rest <= inFlightEventual.Keys
        invariant forall k :: k in inFlightEventual && k !in rest ==>
          expiry.Some? && expiry.value <= E.Deadline(inFlightEventual[k])
        invariant expiry.Some? ==> exists k :: k in inFlightEventual && expiry.value == E.Deadline(inFlightEventual[k])
        decreases rest
      {
        var key :| key in rest;
        rest := rest - {key};
        var candidate := inFlightEventual[key].sentAt + EVENTUAL_TTL;
        if expiry.None? || candidate < expiry.value {
          expiry := Some(candidate);
          assert expiry.value == E.Deadline(inFlightEventual[key]);
        }
      }
      eventualExpiry := expiry;
    }

    /** An unset deadline is recomputed when something is in flight. */
    method EnsureExpiry()
      requires eventualExpiry.Some? ==> E.ExpirySound(inFlightEventual, eventualExpiry)
      modifies this`eventualExpiry
      ensures E.ExpirySound(inFlightEventual, eventualExpiry)
      ensures old(eventualExpiry.Some?) ==> eventualExpiry == old(eventualExpiry)
    {
      if eventualExpiry.None? && |inFlightEventual| > 0 {
        RecomputeEventualExpiry();
      }
    }

    /** checkEventualStateExpiry: the cached deadline only saves work; the answer is the true one. */
    method CheckEventualStateExpiry(now: Time) returns (stalled: bool)
      requires Valid()
      modifies this`eventualExpiry
      ensures Valid()
      ensures stalled <==> E.Overdue(inFlightEventual, now)
    {
      EnsureExpiry();
      if eventualExpiry.None? || now < eventualExpiry.value {
        return false;
      }
      RecomputeEventualExpiry();
      if eventualExpiry.None? || now < eventualExpiry.value {
        return false;
      }
      return true;
    }

    /** nextEventualStatePacketInto. */
    method NextEventualStatePacket(now: Time) returns (packet: Option<bytes>, stalled: bool)
      requires Valid()
      modifies this`packetsSent, this`ackDirty, this`pendingEventual, this`pendingEventualHead,
               this`inFlightEventual, this`eventualExpiry
      ensures Valid()
      ensures stalled <==> (|old(inFlightEventual)| > EVENTUAL_LIMIT ||
                            (old(PendingEventualLen()) == 0 && E.Overdue(old(inFlightEventual), now)))
      ensures packet.Some? <==> |old(inFlightEventual)| <= EVENTUAL_LIMIT && old(PendingEventualLen()) > 0
      ensures packet.Some? ==>
                && packetsSent == old(packetsSent) + 1
                && EventualPart().(expiry := old(eventualExpiry)) == E.Sent(old(EventualPart()), Wrap(old(packetsSent)), now)
                && EventualPart().queued == old(EventualPart()).queued[1..]
                && inFlightEventual == old(inFlightEventual)
                     [Wrap(old(packetsSent)) := E.InFlight(old(EventualPart()).queued[0].token, now)]
                && IsEncoding(packet.value, EventualPacket(old(OrderedPart()), old(EventualPart()).queued[0]))
      ensures packet.None? ==>
                && packetsSent == old(packetsSent)
                && EventualPart().(expiry := old(eventualExpiry)) == old(EventualPart())
    {
      if |inFlightEventual| > EVENTUAL_LIMIT {
        return None, true;
      }
      if PendingEventualLen() == 0 {
        stalled := CheckEventualStateExpiry(now);
        return None, stalled;
      }
      packet := SendEventual(now);
      stalled := false;
    }

    /** The oldest queued update goes out in a packet of its own. */
    method SendEventual(now: Time) returns (packet: Option<bytes>)
      requires Valid() && PendingEventualLen() > 0
      modifies this`packetsSent, this`ackDirty, this`pendingEventual, this`pendingEventualHead,
               this`inFlightEventual, this`eventualExpiry
      ensures Valid() && packet.Some? && packetsSent == old(packetsSent) + 1
      ensures EventualPart().(expiry := old(eventualExpiry)) == E.Sent(old(EventualPart()), Wrap(old(packetsSent)), now)
      ensures IsEncoding(packet.value, EventualPacket(old(OrderedPart()), old(EventualPart()).queued[0]))
    {
      var msg := PopPendingEventual();
      packet := NewPacket(Packet(0, 0, EMPTY, 0, LANE_EVENTUAL, 0, 0, msg.token, msg.payload));
      TrackInFlight(msg.token, now);
    }

    /** Records the packet just numbered, and its deadline if that is the earliest. */
    method TrackInFlight(token: uint64, now: Time)
      requires Valid() && packetsSent > 0
      modifies this`inFlightEventual, this`eventualExpiry
      ensures Valid()
      ensures inFlightEventual == old(inFlightEventual)[Wrap(packetsSent - 1) := E.InFlight(token, now)]
    {
      LastPacketSeqIsLast(packetsSent);
      inFlightEventual := inFlightEventual[LastPacketSeq(Wrap(packetsSent)) := E.InFlight(token, now)];
      var expiry := now + EVENTUAL_TTL;
      if eventualExpiry.None? || expiry < eventualExpiry.value {
        eventualExpiry := Some(expiry);
      }
    }

    // ---- ACKs ----

    /** pruneEventualState. */
    method PruneEventualState(ackSeq: uint16, ackMask: Mask, now: Time)
      returns (changed: bool, stalled: bool, ghost order: seq<uint16>)
      requires Valid()
      modifies this`inFlightEventual, this`eventualExpiry, this`eventualFeedback
      ensures Valid()
      ensures E.Acked(old(EventualPart()), EventualPart(), ackSeq, ackMask, now, order, stalled)
      ensures changed <==> order != []
    {
      var left, reports;
      left, reports, stalled, order := SettleInFlight(inFlightEventual, ackSeq, ackMask, now);
      changed := |reports| > 0;
      inFlightEventual := left;
      eventualFeedback := eventualFeedback + reports;
      if changed && !stalled {
        RecomputeEventualExpiry();
      }
    }

    /** applyPeerAcks: all three queues are pruned even when one of them has stalled. */
    method ApplyPeerAcks(ackSeq: uint16, ackMask: Mask, now: Time)
      returns (changed: bool, err: Option<Error>, ghost order: seq<uint16>, ghost eventualStalled: bool)
      requires Valid()
      modifies this`peerPackets, this`pendingOrdered, this`pendingUnordered,
               this`inFlightEventual, this`eventualExpiry, this`eventualFeedback
      ensures Valid()
      ensures OrderedPart() == old(OrderedPart()).(queue := Prune(old(pendingOrdered), ackSeq, ackMask, now).0)
      ensures pendingUnordered == Prune(old(pendingUnordered), ackSeq, ackMask, now).0
      ensures E.Acked(old(EventualPart()), EventualPart(), ackSeq, ackMask, now, order, eventualStalled)
      ensures err.Some? <==> (Prune(old(pendingOrdered), ackSeq, ackMask, now).1 ||
                              Prune(old(pendingUnordered), ackSeq, ackMask, now).1 || eventualStalled)
      ensures err.Some? ==> err.value == if Prune(old(pendingOrdered), ackSeq, ackMask, now).1 ||
                Prune(old(pendingUnordered), ackSeq, ackMask, now).1 then ReliableStalled else EventualStalled
      ensures err.None? ==>
                (changed <==> Touches(old(pendingOrdered), ackSeq, ackMask) ||
                              Touches(old(pendingUnordered), ackSeq, ackMask) || order != [])
      ensures peerPackets == Heard(old(peerPackets), ackSeq, ackMask)
    {
      if !peerPackets.init || SeqGreater(ackSeq, peerPackets.latest) || ackSeq == peerPackets.latest {
        peerPackets := Window(true, ackSeq, ackMask);
      }
      changed, err, order, eventualStalled := PruneAckedMessages(ackSeq, ackMask, now);
    }

    /** pruneAckedMessages: all three lanes; the first stall in that order is the error. */
    method PruneAckedMessages(ackSeq: uint16, ackMask: Mask, now: Time)
      returns (changed: bool, err: Option<Error>, ghost order: seq<uint16>, ghost eventualStalled: bool)
      requires Valid()
      modifies this`pendingOrdered, this`pendingUnordered,
               this`inFlightEventual, this`eventualExpiry, this`eventualFeedback
      ensures Valid()
      ensures pendingOrdered == Prune(old(pendingOrdered), ackSeq, ackMask, now).0
      ensures pendingUnordered == Prune(old(pendingUnordered), ackSeq, ackMask, now).0
      ensures E.Acked(old(EventualPart()), EventualPart(), ackSeq, ackMask, now, order, eventualStalled)
      ensures err.Some? <==> (Prune(old(pendingOrdered), ackSeq, ackMask, now).1 ||
                              Prune(old(pendingUnordered), ackSeq, ackMask, now).1 || eventualStalled)
      ensures err.Some? ==> err.value == if Prune(old(pendingOrdered), ackSeq, ackMask, now).1 ||
                Prune(old(pendingUnordered), ackSeq, ackMask, now).1 then ReliableStalled else EventualStalled
      ensures err.None? ==>
                (changed <==> Touches(old(pendingOrdered), ackSeq, ackMask) ||
                              Touches(old(pendingUnordered), ackSeq, ackMask) || order != [])
    {
      var c1, c2, c3, s1, s2, s3;
      PrunedFits(pendingOrdered, ackSeq, ackMask, now, MAX_ORDERED_BYTES);
      pendingOrdered, c1, s1 := PruneReliableQueue(pendingOrdered, ackSeq, ackMask, now);
      PrunedFits(pendingUnordered, ackSeq, ackMask, now, MAX_UNORDERED_BYTES);
      pendingUnordered, c2, s2 := PruneReliableQueue(pendingUnordered, ackSeq, ackMask, now);
      c3, s3, order := PruneEventualState(ackSeq, ackMask, now);
      eventualStalled := s3;
      changed := c1 || c2 || c3;
      err := if s1 || s2 then Some(ReliableStalled) else if s3 then Some(EventualStalled) else None;
    }

    /** drainEventualFeedback. */
    method DrainEventualFeedback() returns (out: seq<E.Feedback>)
      requires Valid()
      modifies this`eventualFeedback
      ensures Valid() && out == old(eventualFeedback)
      ensures EventualPart() == old(EventualPart()).(feedback := [])
    {
      out := eventualFeedback;
      eventualFeedback := [];
    }

    // ---- receiving ----

    /** An accepted packet, and nothing else, puts an ACK on the schedule. */
    predicate Scheduled(dirty: bool, dueAt: Option<Time>, now: Time, accepted: bool)
      reads this
    {
      if accepted then ackDirty && ackDueAt == Some(now + ACK_COALESCE_DELAY) else ackDirty == dirty && ackDueAt == dueAt
    }

    /** handleIncoming. */
    method HandleIncoming(now: Time, data: bytes)
      returns (deliveries: seq<Delivery>, wake: bool, err: Option<Error>,
               ghost order: seq<uint16>, ghost eventualStalled: bool)
      requires Valid()
      modifies this`peerPackets, this`pendingOrdered, this`pendingUnordered, this`inFlightEventual,
               this`eventualExpiry, this`eventualFeedback, this`ackDirty, this`ackDueAt,
               recvPackets, recvReliableMsgs, orderedRecv
      ensures Valid()
      ensures !Decode(data).Ok? ==>
                && err == Some(Malformed(Decode(data))) && deliveries == []
                && OrderedPart() == old(OrderedPart()) && EventualPart() == old(EventualPart())
                && pendingUnordered == old(pendingUnordered) && recvReliableMsgs.View() == old(recvReliableMsgs.View())
      ensures Decode(data).Ok? ==>
                var p := Decode(data).packet;
                && OrderedPart() == O.Receive(old(OrderedPart()), p, now, err.Some?).0
                && pendingUnordered == Prune(old(pendingUnordered), p.ackSeq, p.ackMask, now).0
                && E.Acked(old(EventualPart()), EventualPart(), p.ackSeq, p.ackMask, now, order, eventualStalled)
                && (err.None? ==> O.PassesAcks(old(OrderedPart()), p, now, false) && !eventualStalled)
                && (recvReliableMsgs.View(), deliveries) ==
                     HandOver(old(recvReliableMsgs.View()), p, err.None? && Admitted(old(recvPackets.View()), p),
                              O.Receive(old(OrderedPart()), p, now, err.Some?).1)
                && Scheduled(old(ackDirty), old(ackDueAt), now, err.None? && Admitted(old(recvPackets.View()), p))
                && peerPackets == Heard(old(peerPackets), p.ackSeq, p.ackMask)
                && (wake <==> err.None? && (Admitted(old(recvPackets.View()), p) ||
                              Touches(old(pendingOrdered), p.ackSeq, p.ackMask) ||
                              Touches(old(pendingUnordered), p.ackSeq, p.ackMask) || order != []))
      ensures Decode(data).Ok? ==>
                var p := Decode(data).packet;
                if err.None? && Admitted(old(recvPackets.View()), p) then
                  HandedOver(p, Admit(old(recvReliableMsgs.View()), p.messageID).1,
                             O.Receive(old(OrderedPart()), p, now, false).1, deliveries)
                else deliveries == []
      ensures !Decode(data).Ok? ==> !wake && ackDirty == old(ackDirty) && ackDueAt == old(ackDueAt) && peerPackets == old(peerPackets)
    {
      var decoded := Decode(data);
      if !decoded.Ok? {
        return [], false, Some(Malformed(decoded)), [], false;
      }
      deliveries, wake, err, order, eventualStalled := HandlePacket(now, decoded.packet);
    }

    /** handleIncoming after decoding. */
    method HandlePacket(now: Time, p: Packet)
      returns (deliveries: seq<Delivery>, wake: bool, err: Option<Error>,
               ghost order: seq<uint16>, ghost eventualStalled: bool)
      requires Valid() && (p.AckOnly() || ValidLane(p.lane))
      modifies this`peerPackets, this`pendingOrdered, this`pendingUnordered, this`inFlightEventual,
               this`eventualExpiry, this`eventualFeedback, this`ackDirty, this`ackDueAt,
               recvPackets, recvReliableMsgs, orderedRecv
      ensures Valid()
      ensures OrderedPart() == O.Receive(old(OrderedPart()), p, now, err.Some?).0
      ensures pendingUnordered == Prune(old(pendingUnordered), p.ackSeq, p.ackMask, now).0
      ensures E.Acked(old(EventualPart()), EventualPart(), p.ackSeq, p.ackMask, now, order, eventualStalled)
      ensures err.None? ==> O.PassesAcks(old(OrderedPart()), p, now, false) && !eventualStalled
      ensures (recvReliableMsgs.View(), deliveries) ==
                HandOver(old(recvReliableMsgs.View()), p, err.None? && Admitted(old(recvPackets.View()), p),
                         O.Receive(old(OrderedPart()), p, now, err.Some?).1)
      ensures Scheduled(old(ackDirty), old(ackDueAt), now, err.None? && Admitted(old(recvPackets.View()), p))
      ensures peerPackets == Heard(old(peerPackets), p.ackSeq, p.ackMask)
      ensures if err.None? && Admitted(old(recvPackets.View()), p) then
                HandedOver(p, Admit(old(recvReliableMsgs.View()), p.messageID).1,
                           O.Receive(old(OrderedPart()), p, now, false).1, deliveries)
              else deliveries == []
      ensures wake <==> err.None? && (Admitted(old(recvPackets.View()), p) ||
                                      Touches(old(pendingOrdered), p.ackSeq, p.ackMask) ||
                                      Touches(old(pendingUnordered), p.ackSeq, p.ackMask) || order != [])
    {
      deliveries := [];
      wake, err, order, eventualStalled := ApplyPeerAcks(p.ackSeq, p.ackMask, now);
      if err.Some? {
        wake := false;
        return;
      }
      if p.AckOnly() {
        return;
      }
      var accepted;
      deliveries, accepted := AcceptPacket(p, now);
      wake := wake || accepted;
    }

    /** The part after the ACK stage: packet window, then the lane's own acceptance. */
    method AcceptPacket(p: Packet, now: Time) returns (deliveries: seq<Delivery>, accepted: bool)
      requires Valid() && ValidLane(p.lane)
      modifies this`ackDirty, this`ackDueAt, recvPackets, recvReliableMsgs, orderedRecv
      ensures Valid()
      ensures accepted == Admit(old(recvPackets.View()), p.packetSeq).1
      ensures var (lane, out) := O.AfterAcks(old(OrderedPart()), p, now);
              && OrderedPart() == lane
              && (recvReliableMsgs.View(), deliveries) == HandOver(old(recvReliableMsgs.View()), p, accepted, out)
      ensures Scheduled(old(ackDirty), old(ackDueAt), now, accepted)
      ensures if accepted then
                HandedOver(p, Admit(old(recvReliableMsgs.View()), p.messageID).1, O.AfterAcks(old(OrderedPart()), p, now).1, deliveries)
              else deliveries == []
    {
      accepted := recvPackets.Accept(p.packetSeq);
      if !accepted {
        return [], accepted;
      }
      ackDirty := true;
      ackDueAt := Some(now + ACK_COALESCE_DELAY);
      if p.lane == LANE_UNORDERED {
        var first := recvReliableMsgs.Accept(p.messageID);
        if !first {
          return [], accepted;
        }
      } else if p.lane == LANE_ORDERED {
        var out := orderedRecv.Accept(p.orderedSeq, p.payload, now);
        return OnOrdered(out), accepted;
      }
      return [Delivery(p.lane, p.payload)], accepted;
    }

    /** checkOrderedGap. */
    method CheckOrderedGap(now: Time) returns (err: Option<Error>)
      ensures err == if OrderedReceiver.GapExpired(orderedRecv.gapSince, now) then Some(GapExpired) else None
    {
      var expired := orderedRecv.CheckTimeout(now);
      err := if expired then Some(GapExpired) else None;
    }

    // ---- wake-up ----

    /** Nothing is due and nothing has stalled at time t. */
    ghost predicate Quiet(t: Time)
      requires pendingEventualHead <= |pendingEventual|
      reads this, orderedRecv
    {
      && !AckDue(t)
      && QueueQuiet(pendingOrdered, t) && QueueQuiet(pendingUnordered, t)
      && PendingEventualLen() == 0 && !E.Overdue(inFlightEventual, t)
      && !OrderedReceiver.GapExpired(orderedRecv.gapSince, t)
    }

    /** Something is due or runs out at time t, or is due by now and t is now. */
    ghost predicate WaitsFor(t: Time, now: Time)
      requires pendingEventualHead <= |pendingEventual|
      reads this, orderedRecv
    {
      || (ackDirty && t == if ackDueAt.Some? && now < ackDueAt.value then ackDueAt.value else now)
      || QueueDeadline(pendingOrdered, now, t) || QueueDeadline(pendingUnordered, now, t) || EventualOrGap(t, now)
    }

    /** nextWakeTime: until the returned time, if it is in the future, nothing becomes due; with no
        wake time nothing ever does; and it is never earlier than the first thing waited for. (Besides, more than 256 packets in flight stall at once.) */
    method NextWakeTime(now: Time) returns (wake: Option<Time>)
      requires Valid()
      modifies this`eventualExpiry
      ensures Valid()
      ensures wake.None? || wake.value > now ==>
                forall t: Time :: now <= t && (wake.Some? ==> t < wake.value) ==> Quiet(t)
      ensures wake.Some? ==> WaitsFor(wake.value, now)
    {
      wake := AckWake(now);
      wake := QueueWake(pendingOrdered, now, wake);
      ghost var w1 := wake;
      wake := QueueWake(pendingUnordered, now, wake);
      ghost var w2 := wake;
      wake := LaterWake(now, wake);
      if wake.None? || wake.value > now {
        forall t: Time | now <= t && (wake.Some? ==> t < wake.value)
          ensures Quiet(t)
        {
          QuietBefore(pendingOrdered, now, w1, wake, t);
          QuietBefore(pendingUnordered, now, w2, wake, t);
        }
      }
    }

    /** When the pending ACK is due. */
    method AckWake(now: Time) returns (wake: Option<Time>)
      ensures wake == if !ackDirty then None else Some(if ackDueAt.Some? && now < ackDueAt.value then ackDueAt.value else now)
    {
      wake := None;
      if ackDirty {
        if ackDueAt.None? || ackDueAt.value <= now {
          wake := Sooner(wake, now);
        } else {
          wake := Sooner(wake, ackDueAt.value);
        }
      }
    }

    ghost predicate EventualOrGap(t: Time, now: Time)
      requires pendingEventualHead <= |pendingEventual|
      reads this, orderedRecv
    {
      || (PendingEventualLen() > 0 && t == now) || eventualExpiry == Some(t)
      || (orderedRecv.gapSince.Some? && t == orderedRecv.gapSince.value + GAP_TIMEOUT)
    }

    /** The eventual-state lane and the ordered receiver's gap. */
    method LaterWake(now: Time, start: Option<Time>) returns (wake: Option<Time>)
      requires Valid()
      modifies this`eventualExpiry
      ensures Valid() && (start.Some? ==> wake.Some? && wake.value <= start.value)
      ensures wake == start || (wake.Some? && EventualOrGap(wake.value, now))
      ensures wake.None? || now < wake.value ==> PendingEventualLen() == 0
      ensures forall k :: k in inFlightEventual ==> wake.Some? && wake.value <= E.Deadline(inFlightEventual[k])
      ensures orderedRecv.gapSince.Some? ==> wake.Some? && wake.value <= orderedRecv.gapSince.value + GAP_TIMEOUT
    {
      wake := start;
      if PendingEventualLen() > 0 {
        wake := Sooner(wake, now);
      }
      EnsureExpiry();
      if eventualExpiry.Some? {
        wake := Sooner(wake, eventualExpiry.value);
      }
      if orderedRecv.gapSince.Some? {
        wake := Sooner(wake, orderedRecv.gapSince.value + GAP_TIMEOUT);
      }
    }
  }

  /** What is remembered of the peer's stamps: the newest one. */
  function Heard(peer: Window, ackSeq: uint16, ackMask: Mask): Window
  {
    if !peer.init || SeqGreater(ackSeq, peer.latest) || ackSeq == peer.latest then Window(true, ackSeq, ackMask) else peer
  }

  /** A peer's stamp: the number it is about, unbounded, and the mask. */
  datatype Stamp = Stamp(number: nat, mask: Mask)

  function HeardAll(stamps: seq<Stamp>): Window
  {
    if stamps == [] then FRESH
    else
      var last := stamps[|stamps| - 1];
      Heard(HeardAll(stamps[..|stamps| - 1]), Wrap(last.number), last.mask)
  }

  function Newest(stamps: seq<Stamp>): nat
  {
    if stamps == [] then 0
    else
      var n, last := Newest(stamps[..|stamps| - 1]), stamps[|stamps| - 1].number;
      if last > n then last else n
  }

  /** No stamp is half the range or more from the newest before it. */
  ghost predicate InReach(stamps: seq<Stamp>)
  {
    forall i :: 0 < i < |stamps| ==> Comparable(stamps[i].number, Newest(stamps[..i]))
  }

  /** Stamp i has the newest number, and is the last that does. */
  ghost predicate LastNewest(stamps: seq<Stamp>, i: nat)
  {
    && i < |stamps|
    && forall j :: 0 <= j < |stamps| ==> stamps[j].number <= stamps[i].number && (i < j ==> stamps[j].number < stamps[i].number)
  }

  lemma LastNewestGrows(p: seq<Stamp>, last: Stamp, i: nat)
    requires LastNewest(p, i)
    ensures LastNewest(p + [last], if last.number < p[i].number then i else |p|)
  {
    var all := p + [last];
    assert forall j :: 0 <= j < |p| ==> all[j] == p[j];
  }

  lemma EarlierReach(stamps: seq<Stamp>)
    requires stamps != [] && InReach(stamps)
    ensures var p := stamps[..|stamps| - 1]; InReach(p) && p + [stamps[|stamps| - 1]] == stamps
  {
    assert forall j :: 0 < j < |stamps| - 1 ==> stamps[..|stamps| - 1][..j] == stamps[..j];
  }

  /** Whatever the order in which stamps arrive, the one remembered is the last of those with the newest number. */
  lemma {:induction false} HeardIsNewest(stamps: seq<Stamp>) returns (i: nat)
    requires stamps != [] && InReach(stamps)
    ensures LastNewest(stamps, i) && stamps[i].number == Newest(stamps)
    ensures HeardAll(stamps) == Window(true, Wrap(stamps[i].number), stamps[i].mask)
    decreases |stamps|
  {
    var n := |stamps| - 1;
    var p, last := stamps[..n], stamps[n];
    i := n;
    if n > 0 {
      EarlierReach(stamps);
      var before := HeardIsNewest(p);
      HeardNext(p[before], last);
      LastNewestGrows(p, last, before);
      if last.number < p[before].number { i := before; }
    } else {
      assert p == [];
    }
  }

  /** A stamp replaces the one remembered unless it is older. */
  lemma HeardNext(old_: Stamp, new_: Stamp)
    requires Comparable(new_.number, old_.number)
    ensures Heard(Window(true, Wrap(old_.number), old_.mask), Wrap(new_.number), new_.mask) ==
            if new_.number < old_.number then Window(true, Wrap(old_.number), old_.mask)
            else Window(true, Wrap(new_.number), new_.mask)
  {
    ComparisonIsExact(new_.number, old_.number);
    WrapInjective(new_.number, old_.number);
  }

  predicate Admitted(w: Window, p: Packet) { !p.AckOnly() && Admit(w, p.packetSeq).1 }

  /** The lane's verdict on an accepted packet: the message window afterwards and what the application gets.
      Unordered messages pass the shared message-ID window, ordered ones do not. */
  function HandOver(msgs: Window, p: Packet, accepted: bool, ordered: seq<bytes>): (Window, seq<Delivery>)
  {
    if !accepted then (msgs, [])
    else if p.lane == LANE_ORDERED then (msgs, OnOrdered(ordered))
    else if p.lane == LANE_UNORDERED then
      var (w, first) := Admit(msgs, p.messageID);
      (w, if first then [Delivery(p.lane, p.payload)] else [])
    else (msgs, [Delivery(p.lane, p.payload)])
  }

  /** What the application gets of an accepted packet: one delivery with the packet's lane and payload; on the
      unordered lane only if the message is new; on the ordered lane one for each message released, in order. */
  ghost predicate HandedOver(p: Packet, isNew: bool, released: seq<bytes>, deliveries: seq<Delivery>)
  {
    if p.lane == LANE_ORDERED then
      && |deliveries| == |released|
      && forall i :: 0 <= i < |released| ==> deliveries[i].lane == LANE_ORDERED && deliveries[i].data == released[i]
    else if p.lane == LANE_UNORDERED && !isNew then deliveries == []
    else |deliveries| == 1 && deliveries[0].lane == p.lane && deliveries[0].data == p.payload
  }

  /** An accepted packet hands its unordered message over exactly when the message is unseen and no more
      than 128 message IDs behind the newest one: a message can be acknowledged and yet be dropped. */
  lemma UnorderedHandOver(w: Window, h: History, p: Packet, id: nat, ordered: seq<bytes>)
    requires Tracks(w, h) && (w.init ==> Comparable(id, h.newest))
    requires p.lane == LANE_UNORDERED && p.messageID == Wrap(id)
    ensures HandOver(w, p, true, ordered).1 == (if Fresh(h, id) then [Delivery(p.lane, p.payload)] else [])
    ensures Tracks(HandOver(w, p, true, ordered).0, Record(h, id))
  {
    AcceptIsExact(w, h, id);
  }

  /** A message the packet window lets through, in a packet the window then reports as delivered, and yet
      not handed over. */
  predicate AcknowledgedButDropped(w: Window, msgs: Window, q: Packet)
  {
    var w' := Admit(w, q.packetSeq).0;
    && q.lane == LANE_UNORDERED && Admitted(w, q)
    && PacketAckState(q.packetSeq, w'.latest, w'.mask) == Delivered
    && HandOver(msgs, q, true, []).1 == []
  }

  /** Messages 0 to 129 go out in packets 0 to 129, of which only the last arrives; message 0 is sent again
      in packet 130: the stamp that follows acknowledges it, but it is never handed over. */
  lemma LateUnorderedIsDropped(p: Packet, q: Packet)
    requires p.lane == q.lane == LANE_UNORDERED && !p.AckOnly() && !q.AckOnly()
    requires p.packetSeq == 129 && p.messageID == 129 && q.packetSeq == 130 && q.messageID == 0
    ensures Admitted(FRESH, p)
    ensures var msgs := HandOver(FRESH, p, true, []).0; AcknowledgedButDropped(Admit(FRESH, p.packetSeq).0, msgs, q)
  {
    forall i ensures !HasBit(EMPTY, i) { EmptyHasNoBit(i); }
    var msgs := HandOver(FRESH, p, true, []).0;
    assert msgs == Window(true, 129, EMPTY);
    assert SeqDistance(0, 129) == 129;
  }

  /** Exactly when it happens to a packet the window admits: the message is a repetition, or more than 128
      message IDs behind the newest. */
  lemma AcknowledgedButDroppedExactly(w: Window, h: History, n: nat, msgs: Window, mh: History, q: Packet, id: nat)
    requires Tracks(w, h) && (w.init ==> Comparable(n, h.newest)) && Tracks(msgs, mh) && (msgs.init ==> Comparable(id, mh.newest))
    requires q.lane == LANE_UNORDERED && !q.AckOnly() && q.packetSeq == Wrap(n) && q.messageID == Wrap(id) && Fresh(h, n)
    ensures AcknowledgedButDropped(w, msgs, q) <==> !Fresh(mh, id)
  {
    AcceptIsExact(w, h, n);
    UnorderedHandOver(msgs, mh, q, id, []);
    var h' := Record(h, n);
    StampIsExact(Admit(w, q.packetSeq).0, h', n);
  }

  lemma PrunedFits(q: seq<Message>, ackSeq: uint16, ackMask: Mask, now: Time, limit: nat)
    requires forall m :: m in q ==> |m.payload| <= limit
    ensures forall m :: m in Prune(q, ackSeq, ackMask, now).0 ==> |m.payload| <= limit
  {
    forall m | m in Prune(q, ackSeq, ackMask, now).0 ensures |m.payload| <= limit {
      var i := PruneOrigin(q, ackSeq, ackMask, now, m);
      assert q[i] in q;
    }
  }

  /** `wake` is no later than anything the queue waits for. */
  ghost predicate Covers(wake: Option<Time>, q: seq<Message>, now: Time)
  {
    forall m :: m in q ==>
      && wake.Some? && wake.value <= m.queuedAt + MESSAGE_TTL
      && wake.value <= (if m.inFlight && m.attempts < RETRY_LIMIT && m.nextSendAt > now then m.nextSendAt else now)
  }

  /** A time the queue waits for: the end of a message's life, its retry time, or now if it need not wait. */
  ghost predicate QueueDeadline(q: seq<Message>, now: Time, t: Time)
  {
    exists m :: m in q &&
      (t == m.queuedAt + MESSAGE_TTL ||
       t == if m.inFlight && m.attempts < RETRY_LIMIT && now < m.nextSendAt then m.nextSendAt else now)
  }

  /** One turn of that loop. */
  method MessageWake(msg: Message, now: Time, start: Option<Time>) returns (wake: Option<Time>)
    ensures Covers(wake, [msg], now) && (start.Some? ==> wake.Some? && wake.value <= start.value)
    ensures wake == start || (wake.Some? && QueueDeadline([msg], now, wake.value))
  {
    assert msg in [msg];
    wake := Sooner(start, msg.queuedAt + MESSAGE_TTL);
    if !msg.inFlight || msg.attempts >= RETRY_LIMIT {
      wake := Sooner(wake, now);
    } else if msg.nextSendAt > now {
      wake := Sooner(wake, msg.nextSendAt);
    } else {
      wake := Sooner(wake, now);
    }
  }

  /** The queue loop of nextWakeTime: the earliest of what the queue waits for and what was there before. */
  method QueueWake(q: seq<Message>, now: Time, start: Option<Time>) returns (wake: Option<Time>)
    ensures Covers(wake, q, now)
    ensures start.Some? ==> wake.Some? && wake.value <= start.value
    ensures wake == start || (wake.Some? && QueueDeadline(q, now, wake.value))
  {
    wake := start;
    for i := 0 to |q|
      invariant Covers(wake, q[..i], now)
      invariant start.Some? ==> wake.Some? && wake.value <= start.value
      invariant wake == start || (wake.Some? && QueueDeadline(q, now, wake.value))
    {
      assert q[..i + 1] == q[..i] + [q[i]] && q[i] in q;
      wake := MessageWake(q[i], now, wake);
    }
    assert q[..|q|] == q;
  }

  lemma QuietBefore(q: seq<Message>, now: Time, w: Option<Time>, wake: Option<Time>, t: Time)
    requires now <= t && (wake.Some? ==> now < wake.value && t < wake.value)
    requires Covers(w, q, now) && (w.Some? ==> wake.Some? && wake.value <= w.value)
    ensures QueueQuiet(q, t)
  {
    assert forall m :: m in q ==> ReliableQueue.Waiting(m, t) && !Expired(m, t);
    AllWaiting(q, t, 0);
  }

  lemma {:induction false} AllWaiting(q: seq<Message>, t: Time, from: nat)
    requires from <= |q| && forall m :: m in q ==> ReliableQueue.Waiting(m, t)
    ensures NextToSend(q, t, true, from) == Idle
    decreases |q| - from
  {
    if from < |q| {
      assert q[from] in q;
      AllWaiting(q, t, from + 1);
    }
  }

  /** The walk over the in-flight map, in an arbitrary order, which is returned. */
  method SettleInFlight(was: map<uint16, E.InFlight>, ackSeq: uint16, ackMask: Mask, now: Time)
    returns (left: map<uint16, E.InFlight>, reports: seq<E.Feedback>, stalled: bool, ghost order: seq<uint16>)
    ensures Settled(was, left, reports, ackSeq, ackMask, order, if stalled then was.Keys else {})
    ensures !stalled ==> WithinTTL(was, {}, now)
    ensures stalled ==> exists k :: k in was && now - was[k].sentAt > EVENTUAL_TTL
  {
    left, reports, stalled, order := was, [], false, [];
    var rest := was.Keys;
    while rest != {}
      invariant rest <= left.Keys
      invariant !stalled && WithinTTL(was, rest, now)
      invariant Settled(was, left, reports, ackSeq, ackMask, order, rest)
      decreases rest
    {
      var key :| key in rest;
      var pending := left[key];
      if now - pending.sentAt > EVENTUAL_TTL {
        assert pending == was[key];
        stalled := true;
        return;
      }
      var status := PacketAckState(key, ackSeq, ackMask);
      rest := rest - {key};
      if status != Pending {
        SettleOneMore(was, left, reports, ackSeq, ackMask, order, rest, key);
        reports := reports + [E.Feedback(pending.token, status == Delivered)];
        left := left - {key};
        order := order + [key];
      }
    }
  }

  ghost predicate WithinTTL(was: map<uint16, E.InFlight>, rest: set<uint16>, now: Time)
  {
    forall k :: k in was && k !in rest ==> now - was[k].sentAt <= EVENTUAL_TTL
  }

  /** The keys in `order` were removed and reported; of the others only those in `rest` may be settled. */
  ghost predicate Settled(was: map<uint16, E.InFlight>, left: map<uint16, E.InFlight>, reports: seq<E.Feedback>,
                          ackSeq: uint16, ackMask: Mask, order: seq<uint16>, rest: set<uint16>)
  {
    && NoDup(order)
    && (forall i :: 0 <= i < |order| ==> order[i] in was && PacketAckState(order[i], ackSeq, ackMask) != Pending)
    && left == (map k | k in was && k !in order :: was[k])
    && reports == E.Reports(was, order, ackSeq, ackMask)
    && (forall k :: k in left && k !in rest ==> PacketAckState(k, ackSeq, ackMask) == Pending)
  }

  lemma SettleOneMore(was: map<uint16, E.InFlight>, left: map<uint16, E.InFlight>, reports: seq<E.Feedback>,
                      ackSeq: uint16, ackMask: Mask, order: seq<uint16>, rest: set<uint16>, key: uint16)
    requires Settled(was, left, reports, ackSeq, ackMask, order, rest + {key})
    requires key in left && PacketAckState(key, ackSeq, ackMask) != Pending
    ensures Settled(was, left - {key}, reports + [E.Report(was[key], key, ackSeq, ackMask)], ackSeq, ackMask, order + [key], rest)
  {
    var order' := order + [key];
    assert forall k :: k in order' <==> k in order || k == key;
    assert left - {key} == (map k | k in was && k !in order' :: was[k]);
  }
}
