/** Big-endian numbers, as the datagram codec and the stream frames use them. */
module BigEndian {
  import opened SerialNumbers
  import opened AckMask
  import opened Datagrams

  function Pow256(n: nat): nat { if n == 0 then 1 else 256 * Pow256(n - 1) }

  function BE(x: nat, n: nat): (s: bytes)
    ensures |s| == n
  {
    if n == 0 then [] else BE(x / 256, n - 1) + [x % 256]
  }

  function FromBE(s: bytes): nat
  {
    if s == [] then 0 else 256 * FromBE(s[..|s| - 1]) + s[|s| - 1]
  }

  lemma {:induction false} FromBEBound(s: bytes)
    ensures FromBE(s) < Pow256(|s|)
  {
    if s != [] { FromBEBound(s[..|s| - 1]); }
  }

  lemma {:induction false} ReadWritten(x: nat, n: nat)
    requires x < Pow256(n)
    ensures FromBE(BE(x, n)) == x
  {
    if n > 0 {
      ReadWritten(x / 256, n - 1);
      assert BE(x, n)[..n - 1] == BE(x / 256, n - 1);
    }
  }

  lemma {:induction false} WrittenRead(s: bytes)
    ensures BE(FromBE(s), |s|) == s
  {
    if s != [] {
      var p := s[..|s| - 1];
      WrittenRead(p);
      assert FromBE(s) / 256 == FromBE(p) && FromBE(s) % 256 == s[|s| - 1];
      assert s == p + [s[|s| - 1]];
    }
  }

  /** The first byte is the most significant one. */
  lemma {:induction false} MostSignificantFirst(s: bytes)
    requires s != []
    ensures FromBE(s) == s[0] * Pow256(|s| - 1) + FromBE(s[1..])
  {
    if |s| > 1 {
      var p, n := s[..|s| - 1], |s| - 1;
      MostSignificantFirst(p);
      assert s[1..][..n - 1] == p[1..] && s[1..][n - 1] == s[n];
      OnePlaceUp(s[0], Pow256(n - 1));
    }
  }

  lemma OnePlaceUp(digit: nat, weight: nat)
    ensures 256 * (digit * weight) == digit * (256 * weight)
  {
  }

  lemma Widths()
    ensures Pow256(2) == 0x1_0000 && Pow256(4) == 0x1_0000_0000 && Pow256(8) == 0x1_0000_0000_0000_0000
  {
    assert Pow256(6) == 0x1_0000_0000_0000;
  }

  function Read16(s: bytes): uint16
    requires |s| == 2
  {
    Widths(); FromBEBound(s); FromBE(s)
  }

  function Read32(s: bytes): uint32
    requires |s| == 4
  {
    Widths(); FromBEBound(s); FromBE(s)
  }

  function Read64(s: bytes): uint64
    requires |s| == 8
  {
    Widths(); FromBEBound(s); FromBE(s)
  }

  function Put16(x: uint16): (s: bytes)
    ensures |s| == 2 && Read16(s) == x
  {
    Widths(); ReadWritten(x, 2); BE(x, 2)
  }

  function Put32(x: uint32): (s: bytes)
    ensures |s| == 4 && Read32(s) == x
  {
    Widths(); ReadWritten(x, 4); BE(x, 4)
  }

  function Put64(x: uint64): (s: bytes)
    ensures |s| == 8 && Read64(s) == x
  {
    Widths(); ReadWritten(x, 8); BE(x, 8)
  }
}
