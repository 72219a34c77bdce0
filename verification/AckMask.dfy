/** The 128-bit selective-ACK mask kept in four 32-bit words (golem/net/datagram_protocol.go,
    and the Go client's copy of it). */
module AckMask {

  const WORD_COUNT := 4
  const ACK_WINDOW := 128
  const WORD_MOD := 0x1_0000_0000

  type uint32 = x: int | 0 <= x < 0x1_0000_0000

  /** A Go [4]uint32: a value, copied on assignment. */
  type Mask = m: seq<uint32> | |m| == WORD_COUNT witness [0, 0, 0, 0]

  const EMPTY: Mask := [0, 0, 0, 0]

  // ---- bit operations of uint32, on the numbers themselves ----

  /** Bit k of the binary expansion of w. */
  predicate Bit(w: nat, k: nat)
    decreases k
  {
    if k == 0 then w % 2 == 1 else Bit(w / 2, k - 1)
  }

  /** w | v */
  function Or(w: nat, v: nat): nat
    decreases w + v
  {
    if w == 0 && v == 0 then 0
    else 2 * Or(w / 2, v / 2) + (if w % 2 == 1 || v % 2 == 1 then 1 else 0)
  }

  /** w & v */
  function And(w: nat, v: nat): nat
    decreases w + v
  {
    if w == 0 && v == 0 then 0
    else 2 * And(w / 2, v / 2) + (if w % 2 == 1 && v % 2 == 1 then 1 else 0)
  }

  /** uint32 w << s: what leaves at the top is lost. */
  function Shl(w: uint32, s: nat): uint32
    decreases s
  {
    if s == 0 then w else Shl(2 * w % WORD_MOD, s - 1)
  }

  /** w >> s */
  function Shr(w: uint32, s: nat): uint32
    decreases s
  {
    if s == 0 then w else Shr(w / 2, s - 1)
  }

  function Pow2(n: nat): nat { if n == 0 then 1 else 2 * Pow2(n - 1) }

  lemma {:induction false} BitOfOr(w: nat, v: nat, k: nat)
    ensures Bit(Or(w, v), k) <==> Bit(w, k) || Bit(v, k)
    decreases k
  {
    var bit := if w % 2 == 1 || v % 2 == 1 then 1 else 0;
    assert Or(w, v) == 2 * Or(w / 2, v / 2) + bit;
    if k > 0 {
      assert Or(w, v) / 2 == Or(w / 2, v / 2);
      BitOfOr(w / 2, v / 2, k - 1);
    }
  }

  lemma {:induction false} BitOfAnd(w: nat, v: nat, k: nat)
    ensures Bit(And(w, v), k) <==> Bit(w, k) && Bit(v, k)
    decreases k
  {
    var bit := if w % 2 == 1 && v % 2 == 1 then 1 else 0;
    assert And(w, v) == 2 * And(w / 2, v / 2) + bit;
    if k > 0 {
      assert And(w, v) / 2 == And(w / 2, v / 2);
      BitOfAnd(w / 2, v / 2, k - 1);
    }
  }

  lemma {:induction false} BitOfPow2(n: nat, k: nat)
    ensures Bit(Pow2(n), k) <==> k == n
    decreases k
  {
    if k > 0 {
      if n == 0 { BitOfZero(k - 1); } else { BitOfPow2(n - 1, k - 1); }
    }
  }

  lemma {:induction false} BitOfZero(k: nat)
    ensures !Bit(0, k)
    decreases k
  {
    if k > 0 { BitOfZero(k - 1); }
  }

  lemma {:induction false} NonZeroHasBit(w: nat) returns (k: nat)
    requires w != 0
    ensures Bit(w, k)
  {
    if w % 2 == 1 { k := 0; } else { k := NonZeroHasBit(w / 2); k := k + 1; }
  }

  lemma {:induction false} LowBitsIgnoreTop(w: nat, n: nat, k: nat)
    requires k < n
    ensures Bit(w + Pow2(n), k) == Bit(w, k)
    decreases k
  {
    if k > 0 {
      assert (w + Pow2(n)) / 2 == w / 2 + Pow2(n - 1);
      LowBitsIgnoreTop(w / 2, n - 1, k - 1);
    }
  }

  lemma {:induction false} NoHighBits(w: nat, n: nat, k: nat)
    requires w < Pow2(n) && n <= k
    ensures !Bit(w, k)
    decreases k
  {
    if w == 0 {
      BitOfZero(k);
    } else if k > 0 {
      NoHighBits(w / 2, n - 1, k - 1);
    }
  }

  lemma WordIsPow2()
    ensures Pow2(32) == WORD_MOD && Pow2(31) == 0x8000_0000
  {
    assert Pow2(4) == 16;
    assert Pow2(8) == 256;
    assert Pow2(12) == 4096;
    assert Pow2(16) == 65536;
    assert Pow2(20) == 0x10_0000;
    assert Pow2(24) == 0x100_0000;
    assert Pow2(28) == 0x1000_0000;
  }

  lemma BitOfDouble(w: uint32, k: nat)
    requires k < 32
    ensures Bit(2 * w % WORD_MOD, k) <==> k > 0 && Bit(w, k - 1)
  {
    WordIsPow2();
    var d := 2 * w % WORD_MOD;
    if k > 0 && w >= 0x8000_0000 {
      assert d / 2 == w - 0x8000_0000;
      LowBitsIgnoreTop(d / 2, 31, k - 1);
    }
  }

  lemma {:induction false} BitOfShl(w: uint32, s: nat, k: nat)
    requires k < 32
    ensures Bit(Shl(w, s), k) <==> k >= s && Bit(w, k - s)
    decreases s
  {
    if s > 0 {
      BitOfShl(2 * w % WORD_MOD, s - 1, k);
      if k >= s - 1 { BitOfDouble(w, k - (s - 1)); }
    }
  }

  lemma {:induction false} BitOfShr(w: uint32, s: nat, k: nat)
    ensures Bit(Shr(w, s), k) <==> Bit(w, k + s)
    decreases s
  {
    if s > 0 { BitOfShr(w / 2, s - 1, k); }
  }

  lemma {:induction false} ShlOfOne(n: nat)
    requires n < 32
    ensures Shl(1, n) == Pow2(n)
  {
    ShlOfPow2(0, n);
  }

  lemma {:induction false} ShlOfPow2(m: nat, s: nat)
    requires m + s < 32
    ensures Pow2(m) < WORD_MOD && Shl(Pow2(m), s) == Pow2(m + s)
    decreases s
  {
    WordIsPow2();
    Pow2Monotone(m, 31);
    if s > 0 {
      Pow2Monotone(m + 1, 31);
      assert Pow2(m + 1) == 2 * Pow2(m);
      assert 2 * Pow2(m) % WORD_MOD == 2 * Pow2(m);
      ShlOfPow2(m + 1, s - 1);
    }
  }

  lemma {:induction false} Pow2Monotone(m: nat, n: nat)
    requires m <= n
    ensures Pow2(m) <= Pow2(n)
    decreases n
  {
    if m < n { Pow2Monotone(m, n - 1); }
  }

  lemma {:induction false} OrBound(w: nat, v: nat, n: nat)
    requires w < Pow2(n) && v < Pow2(n)
    ensures Or(w, v) < Pow2(n)
    decreases n
  {
    if n > 0 && (w != 0 || v != 0) { OrBound(w / 2, v / 2, n - 1); }
  }

  function OrWord(w: uint32, v: uint32): uint32
  {
    WordIsPow2(); OrBound(w, v, 32);
    Or(w, v)
  }

  // ---- the mask ----

  /** hasBit: `m[bit/32] & (1 << (bit%32)) != 0`, false outside the window. */
  predicate HasBit(m: Mask, bit: int)
  {
    0 <= bit < ACK_WINDOW && And(m[bit / 32], Shl(1, bit % 32)) != 0
  }

  /** The 128-bit number's own bit: what HasBit tests. */
  lemma HasBitIsBit(m: Mask, bit: nat)
    requires bit < ACK_WINDOW
    ensures HasBit(m, bit) <==> Bit(m[bit / 32], bit % 32)
  {
    var w, k := m[bit / 32], bit % 32;
    ShlOfOne(k);
    var v := And(w, Pow2(k));
    if v != 0 {
      var j := NonZeroHasBit(v);
      BitOfAnd(w, Pow2(k), j);
      BitOfPow2(k, j);
    } else {
      BitOfAnd(w, Pow2(k), k);
      BitOfPow2(k, k);
      BitOfZero(k);
    }
  }

  lemma EmptyHasNoBit(bit: int)
    ensures !HasBit(EMPTY, bit)
  {
    if 0 <= bit < ACK_WINDOW {
      HasBitIsBit(EMPTY, bit);
      BitOfZero(bit % 32);
    }
  }

  /** setBit: sets exactly that bit; a no-op outside the window. */
  function WithBit(m: Mask, bit: int): (r: Mask)
    ensures forall i :: HasBit(r, i) <==> HasBit(m, i) || (i == bit && 0 <= bit < ACK_WINDOW)
  {
    if bit < 0 || bit >= ACK_WINDOW then m
    else
      var word, shift := bit / 32, bit % 32;
      var r: Mask := m[word := OrWord(m[word], Shl(1, shift))];
      assert forall i :: HasBit(r, i) <==> HasBit(m, i) || i == bit by {
        forall i ensures HasBit(r, i) <==> HasBit(m, i) || i == bit {
          if 0 <= i < ACK_WINDOW { WithBitSetsOne(m, bit, r, i); }
        }
      }
      r
  }

  lemma WithBitSetsOne(m: Mask, bit: nat, r: Mask, i: nat)
    requires bit < ACK_WINDOW && i < ACK_WINDOW
    requires r == m[bit / 32 := OrWord(m[bit / 32], Shl(1, bit % 32))]
    ensures HasBit(r, i) <==> HasBit(m, i) || i == bit
  {
    HasBitIsBit(m, i);
    HasBitIsBit(r, i);
    if i / 32 == bit / 32 {
      ShlOfOne(bit % 32);
      BitOfOr(m[bit / 32], Pow2(bit % 32), i % 32);
      BitOfPow2(bit % 32, i % 32);
    }
  }

  /** One word of the shifted mask, as the loop body computes it. */
  function ShiftedWord(m: Mask, i: nat, wordShift: nat, bitShift: nat): uint32
    requires i < WORD_COUNT && wordShift <= i && bitShift < 32
  {
    var src := i - wordShift;
    var w := Shl(m[src], bitShift);
    if bitShift > 0 && src > 0 then OrWord(w, Shr(m[src - 1], 32 - bitShift)) else w
  }

  /** The bits that stay within their word. */
  lemma ShiftedWithinWord(m: Mask, i: nat, wordShift: nat, bitShift: nat, k: nat)
    requires i < WORD_COUNT && wordShift <= i && bitShift <= k < 32
    ensures Bit(ShiftedWord(m, i, wordShift, bitShift), k) <==> Bit(m[i - wordShift], k - bitShift)
  {
    var src := i - wordShift;
    BitOfShl(m[src], bitShift, k);
    if bitShift > 0 && src > 0 {
      BitOfOr(Shl(m[src], bitShift), Shr(m[src - 1], 32 - bitShift), k);
      BitOfShr(m[src - 1], 32 - bitShift, k);
      WordIsPow2();
      NoHighBits(m[src - 1], 32, k + 32 - bitShift);
    }
  }

  /** The bits that come from the word below. */
  lemma ShiftedAcrossWords(m: Mask, i: nat, wordShift: nat, bitShift: nat, k: nat)
    requires i < WORD_COUNT && wordShift <= i && k < bitShift < 32
    ensures Bit(ShiftedWord(m, i, wordShift, bitShift), k) <==> i > wordShift && Bit(m[i - wordShift - 1], k + 32 - bitShift)
  {
    var src := i - wordShift;
    BitOfShl(m[src], bitShift, k);
    if src > 0 {
      BitOfOr(Shl(m[src], bitShift), Shr(m[src - 1], 32 - bitShift), k);
      BitOfShr(m[src - 1], 32 - bitShift, k);
    }
  }

  lemma ShiftedWordBit(m: Mask, i: nat, wordShift: nat, bitShift: nat, k: nat)
    requires i < WORD_COUNT && wordShift <= i && bitShift < 32 && k < 32
    ensures var from := 32 * i + k - (32 * wordShift + bitShift);
            Bit(ShiftedWord(m, i, wordShift, bitShift), k) <==> HasBit(m, from)
  {
    var from := 32 * i + k - (32 * wordShift + bitShift);
    if k >= bitShift {
      ShiftedWithinWord(m, i, wordShift, bitShift, k);
      HasBitIsBit(m, from);
    } else {
      ShiftedAcrossWords(m, i, wordShift, bitShift, k);
      if i > wordShift {
        assert from / 32 == i - wordShift - 1 && from % 32 == k + 32 - bitShift;
        HasBitIsBit(m, from);
      }
    }
  }

  /** The mask moved `bits` places toward older packets. */
  function Shifted(m: Mask, bits: int): (r: Mask)
  {
    if bits <= 0 then m
    else if bits >= ACK_WINDOW then EMPTY
    else
      seq(WORD_COUNT, i requires 0 <= i < WORD_COUNT =>
        if i < bits / 32 then 0 else ShiftedWord(m, i, bits / 32, bits % 32))
  }

  /** The four-word shift is a shift of one 128-bit number. */
  lemma ShiftedIsOneShift(m: Mask, bits: int)
    requires 0 <= bits
    ensures forall b :: 0 <= b < ACK_WINDOW ==> (HasBit(Shifted(m, bits), b) <==> HasBit(m, b - bits))
  {
    forall b | 0 <= b < ACK_WINDOW
      ensures HasBit(Shifted(m, bits), b) <==> HasBit(m, b - bits)
    {
      if bits >= ACK_WINDOW {
        EmptyHasNoBit(b);
      } else if bits > 0 {
        HasBitIsBit(Shifted(m, bits), b);
        if b / 32 < bits / 32 {
          BitOfZero(b % 32);
        } else {
          ShiftedWordBit(m, b / 32, bits / 32, bits % 32, b % 32);
        }
      }
    }
  }

  /** shiftLeft, as the word loop does it. */
  method ShiftLeft(m: Mask, bits: int) returns (r: Mask)
    ensures r == Shifted(m, bits)
    ensures bits >= 0 ==> forall b :: 0 <= b < ACK_WINDOW ==> (HasBit(r, b) <==> HasBit(m, b - bits))
  {
    if bits >= 0 { ShiftedIsOneShift(m, bits); }
    if bits <= 0 {
      return m;
    }
    if bits >= ACK_WINDOW {
      return EMPTY;
    }
    var wordShift, bitShift := bits / 32, bits % 32;
    var shifted: Mask := EMPTY;
    var i := WORD_COUNT - 1;
    while i >= 0
      invariant -1 <= i < WORD_COUNT
      invariant forall j :: i < j < WORD_COUNT ==>
        shifted[j] == if j < wordShift then 0 else ShiftedWord(m, j, wordShift, bitShift)
      invariant forall j :: 0 <= j <= i ==> shifted[j] == 0
    {
      var src := i - wordShift;
      if src >= 0 {
        shifted := shifted[i := Shl(m[src], bitShift)];
        if bitShift > 0 && src > 0 {
          shifted := shifted[i := OrWord(shifted[i], Shr(m[src - 1], 32 - bitShift))];
        }
      }
      i := i - 1;
    }
    r := shifted;
  }
}
