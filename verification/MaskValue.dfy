/** The four words of an ACK mask as one 128-bit number. */
module MaskValue {
  import opened AckMask

  /** Little-endian: word i holds bits 32i to 32i+31. */
  function Words(ws: seq<uint32>): nat
  {
    if ws == [] then 0 else ws[0] + WORD_MOD * Words(ws[1..])
  }

  function Value(m: Mask): nat { Words(m) }

  /** The bits of a number put together from a low part of n bits and a high part. */
  lemma {:induction false} BitOfSum(lo: nat, hi: nat, n: nat, i: nat)
    requires lo < Pow2(n)
    ensures Bit(lo + Pow2(n) * hi, i) <==> if i < n then Bit(lo, i) else Bit(hi, i - n)
    decreases n
  {
    if n > 0 {
      var rest := Pow2(n - 1) * hi;
      assert Pow2(n) * hi == 2 * rest by { assert 2 * Pow2(n - 1) * hi == 2 * (Pow2(n - 1) * hi); }
      assert (lo + 2 * rest) / 2 == lo / 2 + rest && (lo + 2 * rest) % 2 == lo % 2;
      if i > 0 { BitOfSum(lo / 2, hi, n - 1, i - 1); }
    }
  }

  /** Numbers of n bits with the same bits are equal. */
  lemma {:induction false} SameBits(x: nat, y: nat, n: nat)
    requires x < Pow2(n) && y < Pow2(n) && forall i: nat :: i < n ==> (Bit(x, i) <==> Bit(y, i))
    ensures x == y
    decreases n
  {
    if n > 0 {
      assert Bit(x, 0) <==> Bit(y, 0);
      forall i: nat | i < n - 1 ensures Bit(x / 2, i) <==> Bit(y / 2, i) { assert Bit(x, i + 1) <==> Bit(y, i + 1); }
      SameBits(x / 2, y / 2, n - 1);
    }
  }

  /** x << k, keeping n bits. */
  function ShiftedTo(x: nat, k: nat, n: nat): nat
  {
    Pow2Positive(n);
    x * Pow2(k) % Pow2(n)
  }

  lemma {:induction false} Pow2Positive(n: nat)
    ensures Pow2(n) > 0
  {
    if n > 0 { Pow2Positive(n - 1); }
  }

  lemma BitOfProduct(x: nat, k: nat, i: nat)
    ensures Bit(x * Pow2(k), i) <==> k <= i && Bit(x, i - k)
  {
    Pow2Positive(k);
    BitOfSum(0, x, k, i);
    if i < k { BitOfZero(i); }
  }

  lemma BitOfLow(y: nat, lo: nat, hi: nat, n: nat, i: nat)
    requires lo < Pow2(n) && y == lo + Pow2(n) * hi
    ensures Bit(lo, i) <==> i < n && Bit(y, i)
  {
    BitOfSum(lo, hi, n, i);
    if i >= n { NoHighBits(lo, n, i); }
  }

  lemma Divide(y: nat, p: nat) returns (lo: nat, hi: nat)
    requires p > 0
    ensures lo == y % p && lo < p && y == lo + p * hi
  {
    lo, hi := y % p, y / p;
  }

  lemma BitOfMod(y: nat, n: nat, i: nat)
    requires Pow2(n) > 0
    ensures Bit(y % Pow2(n), i) <==> i < n && Bit(y, i)
  {
    var lo, hi := Divide(y, Pow2(n));
    BitOfLow(y, lo, hi, n, i);
  }

  lemma BitOfShiftedTo(x: nat, k: nat, n: nat, i: nat)
    ensures ShiftedTo(x, k, n) < Pow2(n)
    ensures Bit(ShiftedTo(x, k, n), i) <==> k <= i < n && Bit(x, i - k)
  {
    Pow2Positive(n);
    BitOfProduct(x, k, i);
    BitOfMod(x * Pow2(k), n, i);
  }

  lemma {:induction false} BitOfWords(ws: seq<uint32>, i: nat)
    ensures Bit(Words(ws), i) <==> i / 32 < |ws| && Bit(ws[i / 32], i % 32)
    decreases |ws|
  {
    if ws == [] {
      BitOfZero(i);
    } else {
      WordIsPow2();
      BitOfSum(ws[0], Words(ws[1..]), 32, i);
      if i >= 32 {
        BitOfWords(ws[1..], i - 32);
        assert (i - 32) / 32 == i / 32 - 1 && (i - 32) % 32 == i % 32;
      }
    }
  }

  /** hasBit reads the bits of the 128-bit number. */
  lemma HasBitReadsValue(m: Mask, i: nat)
    ensures HasBit(m, i) <==> Bit(Value(m), i)
  {
    BitOfWords(m, i);
    if i < ACK_WINDOW { HasBitIsBit(m, i); }
  }

  lemma {:induction false} WordsBound(ws: seq<uint32>, n: nat)
    requires n == 32 * |ws|
    ensures Words(ws) < Pow2(n)
    decreases |ws|
  {
    if ws != [] {
      WordsBound(ws[1..], n - 32);
      Pow2Sum(32, n - 32);
      WordIsPow2();
      var high := Words(ws[1..]);
      assert WORD_MOD * (high + 1) <= WORD_MOD * Pow2(n - 32);
    }
  }

  lemma {:induction false} Pow2Sum(a: nat, b: nat)
    ensures Pow2(a) * Pow2(b) == Pow2(a + b)
    decreases a
  {
    if a > 0 {
      Pow2Sum(a - 1, b);
      assert 2 * Pow2(a - 1) * Pow2(b) == 2 * (Pow2(a - 1) * Pow2(b));
    }
  }

  /** shiftLeft is the shift of one 128-bit number, for every distance. */
  lemma ShiftIsMultiplication(m: Mask, k: nat)
    ensures Value(Shifted(m, k)) == ShiftedTo(Value(m), k, ACK_WINDOW)
  {
    ShiftOfBits(m, k, ACK_WINDOW);
  }

  lemma ShiftOfBits(m: Mask, k: nat, n: nat)
    requires n == ACK_WINDOW
    ensures Value(Shifted(m, k)) == ShiftedTo(Value(m), k, n)
  {
    var r := Shifted(m, k);
    WordsBound(r, n);
    ShiftedIsOneShift(m, k);
    forall i: nat ensures i < n ==> (Bit(Value(r), i) <==> Bit(ShiftedTo(Value(m), k, n), i)) {
      BitOfShiftedTo(Value(m), k, n, i);
      HasBitReadsValue(r, i);
      if i >= k { HasBitReadsValue(m, i - k); }
    }
    BitOfShiftedTo(Value(m), k, n, 0);
    SameBits(Value(r), ShiftedTo(Value(m), k, n), n);
  }

  /** setBit is `or` with one power of two on that number. */
  lemma SetBitIsOr(m: Mask, bit: nat)
    requires bit < ACK_WINDOW
    ensures Value(WithBit(m, bit)) == Or(Value(m), Pow2(bit))
  {
    OrOfBits(m, bit, ACK_WINDOW);
  }

  lemma OrOfBits(m: Mask, bit: nat, n: nat)
    requires n == ACK_WINDOW && bit < n
    ensures Value(WithBit(m, bit)) == Or(Value(m), Pow2(bit))
  {
    var r := WithBit(m, bit);
    WordsBound(m, n);
    WordsBound(r, n);
    Pow2Below(bit, n);
    OrBound(Value(m), Pow2(bit), n);
    forall i: nat | i < n ensures Bit(Value(r), i) <==> Bit(Or(Value(m), Pow2(bit)), i) {
      HasBitReadsValue(r, i);
      HasBitReadsValue(m, i);
      BitOfOr(Value(m), Pow2(bit), i);
      BitOfPow2(bit, i);
    }
    SameBits(Value(r), Or(Value(m), Pow2(bit)), n);
  }

  lemma {:induction false} Pow2Below(m: nat, n: nat)
    requires m < n
    ensures Pow2(m) < Pow2(n)
    decreases n
  {
    Pow2Monotone(m, n - 1);
    Pow2Positive(n - 1);
  }
}
