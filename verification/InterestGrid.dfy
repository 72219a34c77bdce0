/** The spatial hash of the interest manager (golem/interest/grid.go). Coordinates are reals. */
module InterestGrid {
  import opened Identifiers

  datatype Cell = Cell(cx: int, cy: int)
  datatype Pos = Pos(x: real, y: real)

  /** Squared distance. */
  function Dist2(p: Pos, q: Pos): real { (p.x - q.x) * (p.x - q.x) + (p.y - q.y) * (p.y - q.y) }

  predicate Within(p: Pos, centre: Pos, radius: real) { Dist2(p, centre) <= radius * radius }

  // ---- arithmetic ----

  /** The cell index along one axis: floor of the scaled coordinate. */
  function AxisIndex(v: real, inv: real): int { (v * inv).Floor }

  lemma AxisIndexMonotone(x: real, y: real, inv: real)
    requires x <= y && inv > 0.0
    ensures AxisIndex(x, inv) <= AxisIndex(y, inv)
  {
    var d := y - x;
    assert y * inv == x * inv + d * inv;
    assert d * inv >= 0.0;
  }

  ghost predicate Monotone(axis: real -> int)
  {
    forall x, y :: x <= y ==> axis(x) <= axis(y)
  }

  lemma SquareMonotone(r: real, d: real)
    requires 0.0 <= r < d
    ensures r * r < d * d
  {
    var e := d - r;
    assert d * d == r * r + 2.0 * (r * e) + e * e;
    assert e * e > 0.0;
    assert r * e >= 0.0;
  }

  lemma SquareBound(d: real, r: real)
    requires d * d <= r * r && r >= 0.0
    ensures -r <= d <= r
  {
    if d > r { SquareMonotone(r, d); }
    assert (-d) * (-d) == d * d;
    if -d > r { SquareMonotone(r, -d); }
  }

  lemma SquareNonNegative(d: real)
    ensures d * d >= 0.0
  {
  }

  lemma WithinBox(p: Pos, centre: Pos, radius: real)
    requires Within(p, centre, radius) && radius >= 0.0
    ensures centre.x - radius <= p.x <= centre.x + radius && centre.y - radius <= p.y <= centre.y + radius
  {
    var dx, dy := p.x - centre.x, p.y - centre.y;
    SquareNonNegative(dx);
    SquareNonNegative(dy);
    SquareBound(dx, radius);
    SquareBound(dy, radius);
  }

  /** toCell, for a given index function. */
  function CellAt(p: Pos, axis: real -> int): Cell { Cell(axis(p.x), axis(p.y)) }

  /** An entity within the radius lies in one of the scanned cells. */
  lemma WithinIsScanned(p: Pos, centre: Pos, radius: real, axis: real -> int)
    requires Within(p, centre, radius) && radius >= 0.0 && Monotone(axis)
    ensures axis(centre.x - radius) <= CellAt(p, axis).cx <= axis(centre.x + radius)
    ensures axis(centre.y - radius) <= CellAt(p, axis).cy <= axis(centre.y + radius)
  {
    WithinBox(p, centre, radius);
  }

  // ---- cells and cellOf ----

  /** The two maps say the same, and no cell is empty. */
  ghost predicate Hashed(cells: map<Cell, set<Id>>, cellOf: map<Id, Cell>)
  {
    && (forall id :: id in cellOf ==> cellOf[id] in cells && id in cells[cellOf[id]])
    && (forall c, id :: c in cells && id in cells[c] ==> id in cellOf && cellOf[id] == c)
    && (forall c :: c in cells ==> cells[c] != {})
  }

  /** Every entity is filed under the cell of its position. */
  ghost predicate Placed(positions: map<Id, Pos>, cellOf: map<Id, Cell>, axis: real -> int)
  {
    positions.Keys == cellOf.Keys && forall id :: id in cellOf ==> cellOf[id] == CellAt(positions[id], axis)
  }

  lemma PlacedUpdate(positions: map<Id, Pos>, cellOf: map<Id, Cell>, axis: real -> int, id: Id, p: Pos)
    requires Placed(positions, cellOf, axis)
    ensures Placed(positions[id := p], cellOf[id := CellAt(p, axis)], axis)
  {
  }

  lemma SameUpdate<K, V>(m: map<K, V>, k: K)
    requires k in m
    ensures m[k := m[k]] == m
  {
  }

  function Plus(cells: map<Cell, set<Id>>, ck: Cell, id: Id): map<Cell, set<Id>>
  {
    cells[ck := (if ck in cells then cells[ck] else {}) + {id}]
  }

  function Minus(cells: map<Cell, set<Id>>, ck: Cell, id: Id): map<Cell, set<Id>>
    requires ck in cells
  {
    if cells[ck] - {id} == {} then cells - {ck} else cells[ck := cells[ck] - {id}]
  }

  lemma HashedPlus(cells: map<Cell, set<Id>>, cellOf: map<Id, Cell>, ck: Cell, id: Id)
    requires Hashed(cells, cellOf) && id !in cellOf
    ensures Hashed(Plus(cells, ck, id), cellOf[id := ck])
  {
  }

  lemma HashedMinus(cells: map<Cell, set<Id>>, cellOf: map<Id, Cell>, id: Id)
    requires Hashed(cells, cellOf) && id in cellOf
    ensures Hashed(Minus(cells, cellOf[id], id), cellOf - {id})
  {
  }

  // ---- the grid ----

  /** The cells visited before column gx, row gy of the scan. */
  predicate Before(c: Cell, minX: int, minY: int, maxY: int, gx: int, gy: int)
  {
    minY <= c.cy <= maxY && ((minX <= c.cx < gx) || (c.cx == gx && c.cy < gy))
  }

  class Grid {
    const axis: real -> int  // v => floor(v * invCellSize)
    var cells: map<Cell, set<Id>>
    var positions: map<Id, Pos>
    var cellOf: map<Id, Cell>

    /** The three maps agree: every entity is hashed under the cell of its position. */
    ghost predicate Valid()
      reads this
    {
      && Monotone(axis)
      && Placed(positions, cellOf, axis)
      && Hashed(cells, cellOf)
    }

    constructor (cellSize: real)
      requires cellSize > 0.0
      ensures Valid() && positions == map[]
      ensures forall v :: axis(v) == AxisIndex(v, 1.0 / cellSize)
    {
      var invCellSize := 1.0 / cellSize;
      axis := v => AxisIndex(v, invCellSize);
      cells, positions, cellOf := map[], map[], map[];
      new;
      forall x, y | x <= y ensures axis(x) <= axis(y) { AxisIndexMonotone(x, y, invCellSize); }
    }

    /** Insert: an entity already there is moved instead. */
    method Insert(id: Id, x: real, y: real)
      requires Valid()
      modifies this
      ensures Valid() && positions == old(positions)[id := Pos(x, y)]
      decreases if id in positions then 1 else 0
    {
      if id in positions {
        Move(id, x, y);
        return;
      }
      var p := Pos(x, y);
      var ck := CellAt(p, axis);
      HashedPlus(cells, cellOf, ck, id);
      PlacedUpdate(positions, cellOf, axis, id, p);
      positions := positions[id := p];
      cellOf := cellOf[id := ck];
      AddTo(ck, id);
    }

    /** Move: rehashes only when the entity crosses a cell boundary; one not there is inserted. */
    method Move(id: Id, x: real, y: real)
      requires Valid()
      modifies this
      ensures Valid() && positions == old(positions)[id := Pos(x, y)]
      decreases if id in cellOf then 0 else 1
    {
      if id !in cellOf {
        Insert(id, x, y);
        return;
      }
      PlacedUpdate(positions, cellOf, axis, id, Pos(x, y));
      positions := positions[id := Pos(x, y)];
      Refile(id, CellAt(Pos(x, y), axis));
    }

    /** Leaves everything as it is unless the cell changes. */
    method Refile(id: Id, newCK: Cell)
      requires Hashed(cells, cellOf) && id in cellOf
      modifies this`cells, this`cellOf
      ensures Hashed(cells, cellOf) && cellOf == old(cellOf)[id := newCK]
    {
      var oldCK := cellOf[id];
      if oldCK == newCK {
        SameUpdate(cellOf, id);
        return;
      }
      Rehash(id, oldCK, newCK);
    }

    /** From one cell to another. */
    method Rehash(id: Id, from: Cell, to: Cell)
      requires Hashed(cells, cellOf) && id in cellOf && cellOf[id] == from
      modifies this`cells, this`cellOf
      ensures Hashed(cells, cellOf) && cellOf == old(cellOf)[id := to]
    {
      HashedMinus(cells, cellOf, id);
      RemoveFrom(from, id);
      HashedPlus(cells, cellOf - {id}, to, id);
      assert (cellOf - {id})[id := to] == cellOf[id := to];
      AddTo(to, id);
      cellOf := cellOf[id := to];
    }

    method Remove(id: Id)
      requires Valid()
      modifies this
      ensures Valid() && positions == old(positions) - {id}
    {
      if id !in cellOf {
        assert positions - {id} == positions;
        return;
      }
      HashedMinus(cells, cellOf, id);
      RemoveFrom(cellOf[id], id);
      positions := positions - {id};
      cellOf := cellOf - {id};
    }

    method AddTo(ck: Cell, id: Id)
      modifies this`cells
      ensures cells == Plus(old(cells), ck, id)
    {
      var cell := if ck in cells then cells[ck] else {};
      cells := cells[ck := cell + {id}];
    }

    method RemoveFrom(ck: Cell, id: Id)
      requires ck in cells
      modifies this`cells
      ensures cells == Minus(old(cells), ck, id)
    {
      var cell := cells[ck] - {id};
      if |cell| == 0 {
        cells := cells - {ck};
      } else {
        cells := cells[ck := cell];
      }
    }

    function Has(id: Id): bool
      reads this
    {
      id in positions
    }

    /** Near enough, and in a cell already visited. */
    ghost predicate Hit(id: Id, centre: Pos, radius: real, minX: int, minY: int, maxY: int, gx: int, gy: int)
      requires positions.Keys == cellOf.Keys
      reads this
    {
      id in positions && Before(cellOf[id], minX, minY, maxY, gx, gy) && Within(positions[id], centre, radius)
    }

    /** Everything collected so far: the entities within the radius in the cells visited, once each. */
    ghost predicate Collected(r: seq<Id>, centre: Pos, radius: real, minX: int, minY: int, maxY: int, gx: int, gy: int)
      requires positions.Keys == cellOf.Keys
      reads this
    {
      NoDup(r) && forall id :: id in r <==> Hit(id, centre, radius, minX, minY, maxY, gx, gy)
    }

    /** QueryInto: exactly the entities within the radius, each once, in whatever order the cells'
        sets are walked. */
    method Query(cx: real, cy: real, radius: real) returns (result: seq<Id>)
      requires Valid()
      ensures NoDup(result)
      ensures forall id :: id in result ==> id in positions && Within(positions[id], Pos(cx, cy), radius)
      ensures radius >= 0.0 ==>
                forall id :: id in positions && Within(positions[id], Pos(cx, cy), radius) ==> id in result
    {
      var centre := Pos(cx, cy);
      var minCX := axis(cx - radius);
      var maxCX := axis(cx + radius);
      var minCY := axis(cy - radius);
      var maxCY := axis(cy + radius);
      result := Scan(centre, radius, minCX, maxCX, minCY, maxCY);
      if radius >= 0.0 {
        AllScanned(centre, radius, minCX, maxCX, minCY, maxCY);
      }
    }

    lemma AllScanned(centre: Pos, radius: real, minCX: int, maxCX: int, minCY: int, maxCY: int)
      requires Valid() && radius >= 0.0
      requires minCX == axis(centre.x - radius) && maxCX == axis(centre.x + radius)
      requires minCY == axis(centre.y - radius) && maxCY == axis(centre.y + radius)
      ensures forall id :: id in positions && Within(positions[id], centre, radius) ==>
                minCX <= cellOf[id].cx <= maxCX && minCY <= cellOf[id].cy <= maxCY
    {
      forall id | id in positions && Within(positions[id], centre, radius)
        ensures minCX <= cellOf[id].cx <= maxCX && minCY <= cellOf[id].cy <= maxCY
      {
        WithinIsScanned(positions[id], centre, radius, axis);
      }
    }

    /** The scan over a rectangle of cells. */
    method Scan(centre: Pos, radius: real, minCX: int, maxCX: int, minCY: int, maxCY: int) returns (result: seq<Id>)
      requires Valid()
      ensures NoDup(result)
      ensures forall id :: id in result <==>
                && id in positions && Within(positions[id], centre, radius)
                && minCX <= cellOf[id].cx <= maxCX && minCY <= cellOf[id].cy <= maxCY
    {
      result := [];
      var gx := minCX;
      while gx <= maxCX
        invariant minCX <= gx && (gx <= maxCX + 1 || gx == minCX)
        invariant Collected(result, centre, radius, minCX, minCY, maxCY, gx, minCY)
        decreases maxCX + 1 - gx
      {
        var gy := minCY;
        while gy <= maxCY
          invariant minCY <= gy && (gy <= maxCY + 1 || gy == minCY)
          invariant Collected(result, centre, radius, minCX, minCY, maxCY, gx, gy)
          decreases maxCY + 1 - gy
        {
          result := ScanCell(result, centre, radius, minCX, minCY, maxCY, gx, gy);
          gy := gy + 1;
        }
        NextColumn(result, centre, radius, minCX, minCY, maxCY, gx, gy);
        gx := gx + 1;
      }
      assert forall id :: id in result <==> Hit(id, centre, radius, minCX, minCY, maxCY, gx, minCY);
    }

    lemma NextColumn(r: seq<Id>, centre: Pos, radius: real, minX: int, minY: int, maxY: int, gx: int, gy: int)
      requires positions.Keys == cellOf.Keys && Collected(r, centre, radius, minX, minY, maxY, gx, gy)
      requires minX <= gx && gy > maxY
      ensures Collected(r, centre, radius, minX, minY, maxY, gx + 1, minY)
    {
      assert forall id :: Hit(id, centre, radius, minX, minY, maxY, gx + 1, minY) <==>
                          Hit(id, centre, radius, minX, minY, maxY, gx, gy);
    }

    /** The innermost loop: one cell's entities that are near enough. */
    method ScanCell(start: seq<Id>, centre: Pos, radius: real,
                    ghost minX: int, ghost minY: int, ghost maxY: int, gx: int, gy: int)
      returns (result: seq<Id>)
      requires Valid() && minX <= gx && minY <= gy <= maxY
      requires Collected(start, centre, radius, minX, minY, maxY, gx, gy)
      ensures Collected(result, centre, radius, minX, minY, maxY, gx, gy + 1)
    {
      var ck := Cell(gx, gy);
      var cell := if ck in cells then cells[ck] else {};
      assert forall id :: id in cell ==> id in cellOf && cellOf[id] == ck;
      assert forall id :: id in start ==> Hit(id, centre, radius, minX, minY, maxY, gx, gy);
      result := NearIn(cell, start, centre, radius);
      forall id
        ensures id in result <==> Hit(id, centre, radius, minX, minY, maxY, gx, gy + 1)
      {
        assert id in cell <==> id in cellOf && cellOf[id] == ck;
        assert Hit(id, centre, radius, minX, minY, maxY, gx, gy + 1) <==>
               Hit(id, centre, radius, minX, minY, maxY, gx, gy) ||
               (id in cell && Within(positions[id], centre, radius));
      }
    }

    method NearIn(cell: set<Id>, start: seq<Id>, centre: Pos, radius: real) returns (result: seq<Id>)
      requires cell <= positions.Keys && NoDup(start) && forall id :: id in start ==> id !in cell
      ensures NoDup(result)
      ensures forall id :: id in result <==> id in start || (id in cell && Within(positions[id], centre, radius))
    {
      result := start;
      var rest := cell;
      while rest != {}
        invariant rest <= cell
        invariant NoDup(result)
        invariant forall id :: id in result <==>
          id in start || (id in cell && id !in rest && Within(positions[id], centre, radius))
        decreases rest
      {
        var id :| id in rest;
        rest := rest - {id};
        var p := positions[id];
        var dx, dy := p.x - centre.x, p.y - centre.y;
        if dx * dx + dy * dy <= radius * radius {
          result := result + [id];
        }
      }
    }
  }
}
