/** The receive window with its selective-ACK mask, and how a peer reads the stamp it produces
    (golem/net/datagram_receiver.go, golem/net/datagram_sender.go, golem-go-client/webtransport.go). */
module PacketWindow {
  import opened SerialNumbers
  import opened AckMask

  datatype Window = Window(init: bool, latest: uint16, mask: Mask)

  const FRESH := Window(false, 0, EMPTY)

  /** The mask when the newest number moves `delta` ahead: the old newest becomes bit delta-1. */
  function Advanced(mask: Mask, delta: nat): Mask
  {
    if delta > ACK_WINDOW then EMPTY else WithBit(Shifted(mask, delta), delta - 1)
  }

  /** sequenceWindow.accept on values: the new window, and whether `num` was accepted. */
  function Admit(w: Window, num: uint16): (Window, bool)
  {
    if !w.init then (Window(true, num, EMPTY), true)
    else if num == w.latest then (w, false)
    else if SeqGreater(num, w.latest) then
      (Window(true, num, Advanced(w.mask, SeqDistance(w.latest, num))), true)
    else
      var delta := SeqDistance(num, w.latest);
      if delta == 0 || delta > ACK_WINDOW || HasBit(w.mask, delta - 1) then (w, false)
      else (w.(mask := WithBit(w.mask, delta - 1)), true)
  }

  /** The Go client's accept: no separate case for jumps past the window. */
  function ClientAdmit(w: Window, num: uint16): (Window, bool)
  {
    if !w.init then (Window(true, num, w.mask), true)
    else if num == w.latest then (w, false)
    else if SequenceNewer(num, w.latest) then
      var diff := SeqDistance(w.latest, num);
      (Window(true, num, WithBit(Shifted(w.mask, diff), diff - 1)), true)
    else
      var diff := SeqDistance(num, w.latest);
      if diff == 0 || diff > ACK_WINDOW || HasBit(w.mask, diff - 1) then (w, false)
      else (w.(mask := WithBit(w.mask, diff - 1)), true)
  }

  /** The two agree on every input except a number exactly 32768 above the latest one. */
  lemma ClientAcceptAgrees(w: Window, num: uint16)
    requires !w.init ==> w.mask == EMPTY
    ensures ClientAdmit(w, num) == Admit(w, num) <==> !(w.init && num - w.latest == HALF_RANGE)
  {
    ClientComparisonAgrees(num, w.latest);
  }

  class SequenceWindow {
    var init: bool
    var latest: uint16
    var mask: Mask

    function View(): Window
      reads this
    {
      Window(init, latest, mask)
    }

    constructor ()
      ensures View() == FRESH
    {
      init, latest, mask := false, 0, EMPTY;
    }

    method Accept(num: uint16) returns (ok: bool)
      modifies this
      ensures (View(), ok) == Admit(old(View()), num)
    {
      if !init {
        init := true;
        latest := num;
        mask := EMPTY;
        return true;
      }
      if num == latest {
        return false;
      }
      if SeqGreater(num, latest) {
        var delta := SeqDistance(latest, num);
        if delta > ACK_WINDOW {
          mask := EMPTY;
        } else {
          mask := ShiftLeft(mask, delta);
          mask := WithBit(mask, delta - 1);
        }
        latest := num;
        return true;
      }
      var delta := SeqDistance(num, latest);
      if delta == 0 || delta > ACK_WINDOW {
        return false;
      }
      if HasBit(mask, delta - 1) {
        return false;
      }
      mask := WithBit(mask, delta - 1);
      return true;
    }
  }

  // ---- exactness against unbounded packet numbers ----

  /** What a window has seen, in unbounded numbers: the newest accepted one and all of them. */
  datatype History = History(newest: nat, accepted: set<nat>)

  const NOTHING := History(0, {})

  /** The window says exactly what the history says about the last 128 numbers. */
  ghost predicate Tracks(w: Window, h: History)
  {
    if !w.init then w == FRESH && h == NOTHING
    else
      && w.latest == Wrap(h.newest)
      && h.newest in h.accepted
      && (forall n :: n in h.accepted ==> n <= h.newest)
      && (forall i :: 0 <= i < ACK_WINDOW ==> (HasBit(w.mask, i) <==> h.newest - 1 - i in h.accepted))
  }

  /** What a correct receiver does with packet number n. */
  predicate Fresh(h: History, n: nat)
  {
    n !in h.accepted && (h.accepted == {} || n + ACK_WINDOW >= h.newest)
  }

  function Record(h: History, n: nat): History
  {
    if Fresh(h, n) then
      History(if h.accepted == {} || n > h.newest then n else h.newest, h.accepted + {n})
    else h
  }

  /** Across any wraparound, the window accepts exactly the unseen numbers no more than 128 behind
      the newest, and goes on tracking what it accepted. */
  lemma AcceptIsExact(w: Window, h: History, n: nat)
    requires Tracks(w, h)
    requires w.init ==> Comparable(n, h.newest)
    ensures Admit(w, Wrap(n)).1 <==> Fresh(h, n)
    ensures Tracks(Admit(w, Wrap(n)).0, Record(h, n))
  {
    if !w.init {
      forall i ensures !HasBit(EMPTY, i) { EmptyHasNoBit(i); }
    } else if n > h.newest {
      AcceptNewer(w, h, n);
    } else {
      AcceptOlder(w, h, n);
    }
  }

  lemma AcceptNewer(w: Window, h: History, n: nat)
    requires w.init && Tracks(w, h) && Comparable(n, h.newest) && n > h.newest
    ensures Admit(w, Wrap(n)).1 && Fresh(h, n)
    ensures Tracks(Admit(w, Wrap(n)).0, Record(h, n))
  {
    ComparisonIsExact(n, h.newest);
    DistanceIsExact(h.newest, n);
    AdvancedTracks(w, h, n);
  }

  lemma AdvancedTracks(w: Window, h: History, n: nat)
    requires w.init && Tracks(w, h) && n > h.newest
    ensures Tracks(Window(true, Wrap(n), Advanced(w.mask, n - h.newest)), History(n, h.accepted + {n}))
  {
    var mask := Advanced(w.mask, n - h.newest);
    forall i | 0 <= i < ACK_WINDOW ensures HasBit(mask, i) <==> n - 1 - i in h.accepted + {n} {
      AdvancedBit(w.mask, h, n, i);
    }
  }

  /** Bit i of the advanced mask is right. */
  lemma AdvancedBit(mask: Mask, h: History, n: nat, i: nat)
    requires forall k :: 0 <= k < ACK_WINDOW ==> (HasBit(mask, k) <==> h.newest - 1 - k in h.accepted)
    requires n > h.newest && i < ACK_WINDOW && h.newest in h.accepted && forall x :: x in h.accepted ==> x <= h.newest
    ensures HasBit(Advanced(mask, n - h.newest), i) <==> n - 1 - i in h.accepted + {n}
  {
    var delta := n - h.newest;
    AdvancedMaskBit(mask, delta, i);
    if i >= delta {
      assert HasBit(mask, i - delta) <==> n - 1 - i in h.accepted;
    } else {
      assert n - 1 - i >= h.newest;
    }
  }

  /** Advancing moves every bit and adds one for the number that was the newest. */
  lemma AdvancedMaskBit(mask: Mask, delta: nat, i: nat)
    requires 0 < delta && i < ACK_WINDOW
    ensures HasBit(Advanced(mask, delta), i) <==> i == delta - 1 || (i >= delta && HasBit(mask, i - delta))
  {
    if delta > ACK_WINDOW {
      EmptyHasNoBit(i);
    } else {
      ShiftedIsOneShift(mask, delta);
      assert HasBit(Shifted(mask, delta), i) <==> HasBit(mask, i - delta);
    }
  }

  lemma AcceptOlder(w: Window, h: History, n: nat)
    requires w.init && Tracks(w, h) && Comparable(n, h.newest) && n <= h.newest
    ensures Admit(w, Wrap(n)).1 <==> Fresh(h, n)
    ensures Tracks(Admit(w, Wrap(n)).0, Record(h, n))
  {
    ComparisonIsExact(n, h.newest);
    WrapInjective(n, h.newest);
    if n < h.newest {
      DistanceIsExact(n, h.newest);
      var delta := h.newest - n;
      if delta <= ACK_WINDOW {
        assert h.newest - 1 - (delta - 1) == n;
        var mask := WithBit(w.mask, delta - 1);
        forall i | 0 <= i < ACK_WINDOW
          ensures HasBit(mask, i) <==> h.newest - 1 - i in h.accepted + {n}
        {
          assert h.newest - 1 - i == n <==> i == delta - 1;
        }
      }
    }
  }

  /** A whole run: the window after receiving the packets with unbounded numbers `ns`, in that
      order, and which of them were accepted. */
  function Receive(w: Window, ns: seq<nat>): (Window, seq<bool>)
    decreases ns
  {
    if ns == [] then (w, [])
    else
      var (w', ok) := Admit(w, Wrap(ns[0]));
      var (w'', oks) := Receive(w', ns[1..]);
      (w'', [ok] + oks)
  }

  function RecordAll(h: History, ns: seq<nat>): History
    decreases ns
  {
    if ns == [] then h else RecordAll(Record(h, ns[0]), ns[1..])
  }

  /** No two compared numbers of the run are half the range or more apart. */
  ghost predicate ComparableRun(h: History, ns: seq<nat>)
    decreases ns
  {
    ns == [] ||
    ((h.accepted != {} ==> Comparable(ns[0], h.newest)) && ComparableRun(Record(h, ns[0]), ns[1..]))
  }

  /** What a run of accepted and refused numbers adds to a history. */
  ghost predicate Adds(h: History, ns: seq<nat>, oks: seq<bool>, h': History)
    requires |oks| == |ns|
  {
    && (forall i :: 0 <= i < |ns| && oks[i] ==> ns[i] !in h.accepted)
    && (forall i, j :: 0 <= i < j < |ns| && oks[i] && oks[j] ==> ns[i] != ns[j])
    && (forall n :: n in h'.accepted <==> n in h.accepted || exists i :: 0 <= i < |ns| && oks[i] && ns[i] == n)
  }

  lemma AddsFirst(h: History, n: nat, ns: seq<nat>, oks: seq<bool>, h': History)
    requires |oks| == |ns| && Adds(Record(h, n), ns, oks, h')
    ensures Adds(h, [n] + ns, [Fresh(h, n)] + oks, h')
  {
    var all, verdicts := [n] + ns, [Fresh(h, n)] + oks;
    forall i, j | 0 <= i < j < |all| && verdicts[i] && verdicts[j] ensures all[i] != all[j] {
      if i == 0 { assert ns[j - 1] !in Record(h, n).accepted; }
    }
    forall x ensures x in h'.accepted <==> x in h.accepted || exists i :: 0 <= i < |all| && verdicts[i] && all[i] == x {
      if i :| 0 <= i < |all| && verdicts[i] && all[i] == x {
        if i > 0 { assert oks[i - 1] && ns[i - 1] == x; }
      }
      if x in h'.accepted && x !in h.accepted {
        if x in Record(h, n).accepted {
          assert verdicts[0] && all[0] == x;
        } else {
          var i :| 0 <= i < |ns| && oks[i] && ns[i] == x;
          assert verdicts[i + 1] && all[i + 1] == x;
        }
      }
    }
  }

  /** In every run, accepted numbers were not in the history before and no number is accepted
      twice; the window ends up tracking exactly the accepted ones. */
  lemma {:induction false} NoPacketAcceptedTwice(w: Window, h: History, ns: seq<nat>)
    requires Tracks(w, h) && ComparableRun(h, ns)
    ensures var (w', oks) := Receive(w, ns);
            && |oks| == |ns|
            && Tracks(w', RecordAll(h, ns))
            && (forall i :: 0 <= i < |ns| && oks[i] ==> ns[i] !in h.accepted)
            && (forall i, j :: 0 <= i < j < |ns| && oks[i] && oks[j] ==> ns[i] != ns[j])
            && (forall n :: n in RecordAll(h, ns).accepted <==>
                  n in h.accepted || exists i :: 0 <= i < |ns| && oks[i] && ns[i] == n)
    decreases ns
  {
    if ns != [] {
      AcceptIsExact(w, h, ns[0]);
      var w1, h1 := Admit(w, Wrap(ns[0])).0, Record(h, ns[0]);
      NoPacketAcceptedTwice(w1, h1, ns[1..]);
      AddsFirst(h, ns[0], ns[1..], Receive(w1, ns[1..]).1, RecordAll(h, ns));
      assert [ns[0]] + ns[1..] == ns;
      assert Adds(h, ns, Receive(w, ns).1, RecordAll(h, ns));
    }
  }

  // ---- reading the peer's stamp ----

  datatype AckStatus = Pending | Delivered | Lost

  /** packetAckState. */
  function PacketAckState(packetSeq: uint16, ackSeq: uint16, ackMask: Mask): AckStatus
  {
    if packetSeq == ackSeq then Delivered
    else if !SeqGreater(ackSeq, packetSeq) then Pending
    else
      var delta := SeqDistance(packetSeq, ackSeq);
      if delta == 0 then Pending
      else if delta > ACK_WINDOW then Lost
      else if HasBit(ackMask, delta - 1) then Delivered
      else Lost
  }

  /** The stamp of an initialised window reports packet n as delivered exactly when the peer accepted
      it and it is still inside the window, as pending exactly when it is newer than all accepted. */
  lemma StampIsExact(w: Window, h: History, n: nat)
    requires w.init && Tracks(w, h) && Comparable(n, h.newest)
    ensures PacketAckState(Wrap(n), w.latest, w.mask) ==
            if n > h.newest then Pending
            else if n in h.accepted && n + ACK_WINDOW >= h.newest then Delivered
            else Lost
  {
    ComparisonIsExact(h.newest, n);
    WrapInjective(n, h.newest);
    if n < h.newest {
      DistanceIsExact(n, h.newest);
      if n + ACK_WINDOW >= h.newest { assert h.newest - 1 - (h.newest - n - 1) == n; }
    }
  }

  /** A window that has seen nothing stamps ackSeq 0, which acknowledges packet number 0 and only that. */
  lemma FreshStampAcknowledgesZero(packetSeq: uint16)
    ensures PacketAckState(packetSeq, FRESH.latest, FRESH.mask) == Delivered <==> packetSeq == 0
  {
    EmptyHasNoBit(SeqDistance(packetSeq, 0) - 1);
  }
}
