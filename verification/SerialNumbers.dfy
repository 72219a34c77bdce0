/** 16-bit wrapping sequence numbers (golem/net/datagram_receiver.go) and what they say about
    the unbounded numbers behind them. */
module SerialNumbers {

  const SEQ_MOD := 0x1_0000
  const HALF_RANGE := 0x8000

  type uint16 = x: int | 0 <= x < 0x1_0000

  /** The number that goes on the wire for the unbounded number `n`. */
  function Wrap(n: nat): uint16 { n % SEQ_MOD }

  /** Go's uint16 `a - b`. */
  function Sub16(a: uint16, b: uint16): uint16 { (a - b) % SEQ_MOD }

  /** Go's uint16 increment. */
  function Next16(a: uint16): uint16 { (a + 1) % SEQ_MOD }

  /** Server: seqDistance. */
  function SeqDistance(older: uint16, newer: uint16): uint16 { Sub16(newer, older) }

  /** Server: seqGreater. */
  predicate SeqGreater(a: uint16, b: uint16)
  {
    a != b && ((a > b && a - b <= HALF_RANGE) || (a < b && b - a > HALF_RANGE))
  }

  /** Go client: sequenceNewer. */
  predicate SequenceNewer(a: uint16, b: uint16)
  {
    a != b && Sub16(a, b) < HALF_RANGE
  }

  /** Two unbounded numbers that the 16-bit comparison can tell apart. */
  predicate Comparable(m: int, n: int)
  {
    -HALF_RANGE < m - n < HALF_RANGE
  }

  /** Unbounded numbers less than a full cycle apart: the wrapped distance is the true one. */
  lemma DistanceIsExact(older: nat, newer: nat)
    requires older <= newer < older + SEQ_MOD
    ensures SeqDistance(Wrap(older), Wrap(newer)) == newer - older
  {
  }

  lemma WrapInjective(m: nat, n: nat)
    requires -SEQ_MOD < m - n < SEQ_MOD
    ensures Wrap(m) == Wrap(n) <==> m == n
  {
  }

  lemma WrapSuccessor(n: nat)
    ensures Next16(Wrap(n)) == Wrap(n + 1)
  {
  }

  /** Serial comparison is exact within half the range. At exactly half the range the code picks
      a side by raw value, so it is right precisely when the larger number has the larger residue. */
  lemma ComparisonIsExact(m: nat, n: nat)
    requires -HALF_RANGE <= m - n <= HALF_RANGE
    ensures (SeqGreater(Wrap(m), Wrap(n)) <==> m > n)
       <==> Comparable(m, n) || (m > n <==> Wrap(m) > Wrap(n))
  {
  }

  /** The same distance, once right and once wrong. */
  lemma HalfRangeGoesWrong()
    ensures SeqGreater(Wrap(32768), Wrap(0)) && !SeqGreater(Wrap(65536), Wrap(32768))
  {
  }

  /** Beyond half the range (and short of a full cycle) the comparison answers the wrong way round. */
  lemma ComparisonInverts(m: nat, n: nat)
    requires HALF_RANGE < m - n < SEQ_MOD
    ensures !SeqGreater(Wrap(m), Wrap(n)) && SeqGreater(Wrap(n), Wrap(m))
  {
  }

  /** On distinct numbers exactly one side wins, also at the half-range distance that
      section 3.2 of RFC 1982 leaves undefined. */
  lemma ServerComparisonIsTotal(a: uint16, b: uint16)
    ensures a != b ==> (SeqGreater(a, b) <==> !SeqGreater(b, a))
    ensures a == b ==> !SeqGreater(a, b)
  {
  }

  /** Client and server disagree exactly at distance 32768, and there only in one direction. */
  lemma ClientComparisonAgrees(a: uint16, b: uint16)
    ensures SequenceNewer(a, b) == SeqGreater(a, b) <==> a - b != HALF_RANGE
    ensures a - b == HALF_RANGE ==> SeqGreater(a, b) && !SequenceNewer(a, b) && !SequenceNewer(b, a)
  {
  }
}
