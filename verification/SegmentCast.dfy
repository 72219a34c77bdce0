/** The slab test of a segment against an axis-aligned box (golem/collision/castmath.go), over the reals. */
module SegmentCast {

  datatype Vec2 = Vec2(x: real, y: real)

  /** One axis: the segment starts at p and moves by d; the box reaches from lo to hi. */
  datatype Slab = Slab(p: real, d: real, lo: real, hi: real)

  /** Where the point is at fraction u. */
  function Coord(s: Slab, u: real): real { s.p + u * s.d }

  /** When it crosses a. */
  function Cross(s: Slab, a: real): real
    requires s.d != 0.0
  {
    (a - s.p) / s.d
  }

  predicate InSlab(s: Slab, u: real) { s.lo <= Coord(s, u) <= s.hi }

  /** The point at fraction u of the segment lies in the box. */
  predicate InBox(slabs: seq<Slab>, u: real) { forall i :: 0 <= i < |slabs| ==> InSlab(slabs[i], u) }

  // ---- arithmetic, one product at a time ----

  lemma ProductMonotone(x: real, y: real, d: real)
    requires d > 0.0
    ensures x <= y <==> x * d <= y * d
  {
    var e := y - x;
    assert y * d == x * d + e * d;
    if e >= 0.0 { ProductSign(e, d); } else { ProductSign(-e, d); assert (-e) * d == -(e * d); }
  }

  lemma ProductSign(e: real, d: real)
    requires d > 0.0 && e >= 0.0
    ensures e * d >= 0.0 && (e > 0.0 ==> e * d > 0.0)
  {
  }

  lemma QuotientTimes(a: real, d: real)
    requires d != 0.0
    ensures a / d * d == a
  {
  }

  /** For forward motion, being past a is being past its crossing time. */
  lemma CrossForward(s: Slab, a: real, u: real)
    requires s.d > 0.0
    ensures a <= Coord(s, u) <==> Cross(s, a) <= u
    ensures Coord(s, u) <= a <==> u <= Cross(s, a)
  {
    var q := (a - s.p) / s.d;
    QuotientTimes(a - s.p, s.d);
    ProductMonotone(q, u, s.d);
    ProductMonotone(u, q, s.d);
  }

  lemma CrossBackward(s: Slab, a: real, u: real)
    requires s.d < 0.0
    ensures a <= Coord(s, u) <==> u <= Cross(s, a)
    ensures Coord(s, u) <= a <==> Cross(s, a) <= u
  {
    var q := (a - s.p) / s.d;
    QuotientTimes(a - s.p, s.d);
    ProductMonotone(q, u, -s.d);
    ProductMonotone(u, q, -s.d);
    Negated(q, s.d);
    Negated(u, s.d);
  }

  lemma Negated(x: real, d: real)
    ensures x * (-d) == -(x * d)
  {
  }

  lemma CoordOfCross(s: Slab, a: real)
    requires s.d != 0.0
    ensures Coord(s, Cross(s, a)) == a
  {
    QuotientTimes(a - s.p, s.d);
  }

  // ---- one slab ----

  function Enter(s: Slab): real
    requires s.d != 0.0
  {
    if s.d > 0.0 then Cross(s, s.lo) else Cross(s, s.hi)
  }

  function Leave(s: Slab): real
    requires s.d != 0.0
  {
    if s.d > 0.0 then Cross(s, s.hi) else Cross(s, s.lo)
  }

  /** A moving point is in the slab between two crossing times. */
  lemma InSlabWhen(s: Slab, u: real)
    requires s.d != 0.0
    ensures InSlab(s, u) <==> Enter(s) <= u <= Leave(s)
  {
    if s.d > 0.0 {
      CrossForward(s, s.lo, u);
      CrossForward(s, s.hi, u);
    } else {
      CrossBackward(s, s.lo, u);
      CrossBackward(s, s.hi, u);
    }
  }

  /** The two crossing times, compared as the code does: they are swapped exactly for backward motion
      through a slab that is not flat. */
  lemma CrossingOrder(s: Slab)
    requires s.d != 0.0 && s.lo <= s.hi
    ensures Cross(s, s.lo) > Cross(s, s.hi) <==> s.d < 0.0 && s.lo < s.hi
  {
    CoordOfCross(s, s.hi);
    if s.d > 0.0 {
      CrossForward(s, s.lo, Cross(s, s.hi));
    } else {
      CrossBackward(s, s.lo, Cross(s, s.hi));
    }
  }

  // ---- the test ----

  /** What is known after some axes: the fractions left are those from tMin to tMax, and a positive tMin
      is where the axis of the normal was entered. */
  ghost predicate Narrowed(slabs: seq<Slab>, tMin: real, tMax: real)
  {
    forall u :: Hit(slabs, u) <==> tMin <= u <= tMax
  }

  /** A fraction of the segment at which it is in the box. */
  predicate Hit(slabs: seq<Slab>, u: real) { 0.0 <= u <= 1.0 && InBox(slabs, u) }

  /** The normal of the face by which an axis is entered: against the motion, except that a flat slab
      always reports the lower face. */
  function FaceNormal(s: Slab): real { if s.d < 0.0 && s.lo < s.hi then 1.0 else -1.0 }

  /** tMin and the normal belong together. */
  ghost predicate NormalOf(slabs: seq<Slab>, tMin: real, n: Vec2)
  {
    || (tMin == 0.0 && n == Vec2(0.0, 0.0))
    || (tMin > 0.0 && |slabs| > 0 && slabs[0].d != 0.0 && tMin == Enter(slabs[0]) && n == Vec2(FaceNormal(slabs[0]), 0.0))
    || (tMin > 0.0 && |slabs| > 1 && slabs[1].d != 0.0 && tMin == Enter(slabs[1]) && n == Vec2(0.0, FaceNormal(slabs[1])))
  }

  lemma InBoxOneMore(slabs: seq<Slab>, s: Slab, u: real)
    ensures InBox(slabs + [s], u) <==> InBox(slabs, u) && InSlab(s, u)
  {
    assert forall i :: 0 <= i < |slabs| ==> (slabs + [s])[i] == slabs[i];
    assert (slabs + [s])[|slabs|] == s;
  }

  lemma Meet(slabs: seq<Slab>, s: Slab, tMin: real, tMax: real, t1: real, t2: real)
    requires Narrowed(slabs, tMin, tMax) && forall u :: InSlab(s, u) <==> t1 <= u <= t2
    ensures Narrowed(slabs + [s], if t1 > tMin then t1 else tMin, if t2 < tMax then t2 else tMax)
  {
    var lo, hi := if t1 > tMin then t1 else tMin, if t2 < tMax then t2 else tMax;
    forall u ensures Hit(slabs + [s], u) <==> lo <= u <= hi {
      InBoxOneMore(slabs, s, u);
      assert Hit(slabs, u) <==> tMin <= u <= tMax;
      assert InSlab(s, u) <==> t1 <= u <= t2;
    }
  }

  ghost predicate Misses(slabs: seq<Slab>) { forall u :: !Hit(slabs, u) }

  lemma NarrowedMisses(slabs: seq<Slab>, tMin: real, tMax: real)
    requires Narrowed(slabs, tMin, tMax)
    ensures Misses(slabs) <==> tMin > tMax
  {
    assert Hit(slabs, tMin) <==> tMin <= tMax;
  }

  /** A point that does not move along an axis is in its slab always or never. */
  lemma StillPoint(slabs: seq<Slab>, s: Slab, tMin: real, tMax: real)
    requires s.d == 0.0 && Narrowed(slabs, tMin, tMax) && tMin <= tMax
    ensures s.lo <= s.p <= s.hi ==> Narrowed(slabs + [s], tMin, tMax)
    ensures !(s.lo <= s.p <= s.hi) ==> Misses(slabs + [s])
  {
    forall u ensures Hit(slabs + [s], u) <==> Hit(slabs, u) && s.lo <= s.p <= s.hi {
      InBoxOneMore(slabs, s, u);
      assert Coord(s, u) == s.p;
    }
  }

  /** What one axis contributes: whether no fraction is left; otherwise the fractions left, and the face
      normal if this axis was entered last. */
  datatype Axis = Axis(empty: bool, tMin: real, tMax: real, entered: bool, norm: real)

  /** One turn of the loop. */
  method NarrowAxis(ghost slabs: seq<Slab>, s: Slab, tMin: real, tMax: real) returns (a: Axis)
    requires s.lo <= s.hi && tMin <= tMax && Narrowed(slabs, tMin, tMax)
    ensures a.empty <==> Misses(slabs + [s])
    ensures !a.empty ==> tMin <= a.tMin <= a.tMax <= tMax && Narrowed(slabs + [s], a.tMin, a.tMax)
    ensures if a.entered then a.tMin > tMin && s.d != 0.0 && a.tMin == Enter(s) && a.norm == FaceNormal(s) else a.tMin == tMin
  {
    if s.d == 0.0 {
      StillPoint(slabs, s, tMin, tMax);
      if !(s.p < s.lo || s.p > s.hi) { NarrowedMisses(slabs + [s], tMin, tMax); }
      return Axis(s.p < s.lo || s.p > s.hi, tMin, tMax, false, 0.0);
    }
    var t1, t2, enterNorm := Crossings(s);
    Meet(slabs, s, tMin, tMax, t1, t2);
    var lo, hi := tMin, tMax;
    if t1 > tMin {
      lo := t1;
    }
    if t2 < tMax {
      hi := t2;
    }
    NarrowedMisses(slabs + [s], lo, hi);
    a := Axis(lo > hi, lo, hi, t1 > tMin, enterNorm);
  }

  /** The crossing times in order, and the normal of the face crossed first. */
  method Crossings(s: Slab) returns (t1: real, t2: real, enterNorm: real)
    requires s.d != 0.0 && s.lo <= s.hi
    ensures t1 == Enter(s) && enterNorm == FaceNormal(s)
    ensures forall u :: InSlab(s, u) <==> t1 <= u <= t2
  {
    t1, t2 := (s.lo - s.p) / s.d, (s.hi - s.p) / s.d;
    CrossingOrder(s);
    FlatCrossing(s);
    if t1 > t2 {
      t1, t2 := t2, t1;
      enterNorm := 1.0;
    } else {
      enterNorm := -1.0;
    }
    forall u ensures InSlab(s, u) <==> t1 <= u <= t2 { InSlabWhen(s, u); }
  }

  lemma FlatCrossing(s: Slab)
    requires s.d != 0.0
    ensures s.lo == s.hi ==> Cross(s, s.lo) == Cross(s, s.hi)
  {
  }

  /** The segment against the box, axis by axis. */
  function Slabs(px: real, py: real, qx: real, qy: real, ex: real, ey: real, hw: real, hh: real): seq<Slab>
  {
    [Slab(px, qx - px, ex - hw, ex + hw), Slab(py, qy - py, ey - hh, ey + hh)]
  }

  /** SegmentVsAABB, for a box whose half-extents are not negative: a hit exactly when some point of the
      segment lies in the box, at the least such fraction; a positive fraction comes with the unit normal
      of the face entered there. (After the loop tMin and tMax are in order and within [0, 1], and the
      normal is zero or of length one: the checks and the normalisation that follow change nothing.) */
  method SegmentVsAABB(px: real, py: real, qx: real, qy: real, ex: real, ey: real, hw: real, hh: real)
    returns (t: real, n: Vec2, hit: bool)
    requires hw >= 0.0 && hh >= 0.0
    ensures var slabs := Slabs(px, py, qx, qy, ex, ey, hw, hh);
            && (hit <==> exists u :: Hit(slabs, u))
            && (hit ==> Hit(slabs, t) && forall u :: Hit(slabs, u) ==> t <= u)
            && (hit ==> NormalOf(slabs, t, n))
  {
    var slabs := Slabs(px, py, qx, qy, ex, ey, hw, hh);
    var tMin, tMax := 0.0, 1.0;
    n := Vec2(0.0, 0.0);
    assert Narrowed([], tMin, tMax);
    for axis := 0 to 2
      invariant 0.0 <= tMin <= tMax <= 1.0 && Narrowed(slabs[..axis], tMin, tMax)
      invariant NormalOf(slabs[..axis], tMin, n)
    {
      var a := NarrowAxis(slabs[..axis], slabs[axis], tMin, tMax);
      assert slabs[..axis] + [slabs[axis]] == slabs[..axis + 1];
      if a.empty {
        MissesMore(slabs, axis + 1);
        return 0.0, Vec2(0.0, 0.0), false;
      }
      if a.entered {
        n := if axis == 0 then Vec2(a.norm, 0.0) else Vec2(0.0, a.norm);
      }
      tMin, tMax := a.tMin, a.tMax;
    }
    assert slabs[..2] == slabs;
    t, hit := tMin, true;
    assert Hit(slabs, t);
  }

  lemma MissesMore(slabs: seq<Slab>, k: nat)
    requires k <= |slabs| && Misses(slabs[..k])
    ensures Misses(slabs)
  {
    forall u ensures Hit(slabs, u) ==> Hit(slabs[..k], u) {
    }
  }

  /** The normal is a unit axis vector; it is against the motion unless the segment moves down through a
      box that is flat along that axis, hence always for a box with positive extents. */
  lemma NormalOpposesMotion(px: real, py: real, qx: real, qy: real, ex: real, ey: real, hw: real, hh: real, t: real, n: Vec2)
    requires hw >= 0.0 && hh >= 0.0 && t > 0.0 && NormalOf(Slabs(px, py, qx, qy, ex, ey, hw, hh), t, n)
    ensures (n.x == 0.0 && (n.y == 1.0 || n.y == -1.0)) || (n.y == 0.0 && (n.x == 1.0 || n.x == -1.0))
    ensures n.x * (qx - px) + n.y * (qy - py) < 0.0 <==>
            !(if n.x != 0.0 then hw == 0.0 && qx < px else hh == 0.0 && qy < py)
  {
    var slabs := Slabs(px, py, qx, qy, ex, ey, hw, hh);
    assert slabs[0].d == qx - px && slabs[1].d == qy - py;
    if n.x != 0.0 {
      assert n.y * (qy - py) == 0.0;
    } else {
      assert n.x * (qx - px) == 0.0;
    }
  }

  /** A box that is flat along the motion reports the lower face: moving down through it, the normal points
      along the motion. */
  lemma FlatBoxNormal(t: real, n: Vec2)
    requires t > 0.0 && NormalOf(Slabs(1.0, 0.0, -1.0, 0.0, 0.0, 0.0, 0.0, 1.0), t, n)
    ensures n == Vec2(-1.0, 0.0)
  {
  }
}
