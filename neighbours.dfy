/** Neighbour enumeration of the lattice map: the sites of every cell in the
    3 x 3 x 3 block of cells around the cell of a queried site, in a fixed
    order. Offsets (da, db, dc) each run over -1, 0, 1 in ascending order,
    da outermost and dc innermost; a periodic axis wraps around, a free axis
    rejects the whole offset when it leaves the grid; every accepted offset
    contributes the basis block of its cell in ascending basis order. */
module NeighbourStencil {
  import opened Wrappers
  import opened LatticeMaps
  import opened Arith

  /** Resolves one axis of an offset: the coordinate c + d, wrapped round on
      a periodic axis, or None when a free axis leaves [0, n). */
  function ResolveAxis(c: int, d: int, n: int, periodic: bool): (r: Option<int>)
    requires n >= 1 && 0 <= c < n && -1 <= d <= 1
    ensures r.Some? <==> periodic || 0 <= c + d < n
    ensures r.Some? ==> 0 <= r.value < n
    ensures r.Some? && 0 <= c + d < n ==> r.value == c + d
    ensures r.Some? && c + d < 0 ==> r.value == n - 1
    ensures r.Some? && c + d >= n ==> r.value == 0
  {
    if periodic then Some((c + d + n) % n)
    else if 0 <= c + d < n then Some(c + d)
    else None
  }

  /** Number of values each offset takes: -1, 0 and 1. */
  const Width := 3

  predicate ValidOffset(d: int) { -1 <= d <= 1 }

  /** What offset (da, db, dc) from cell c contributes: the basis block of
      the cell it resolves to, or nothing when an axis rejects it. */
  function Block(m: LatticeMap, c: Cell, da: int, db: int, dc: int): seq<int>
    requires m.Valid() && m.ValidCell(c)
    requires ValidOffset(da) && ValidOffset(db) && ValidOffset(dc)
  {
    var oa := ResolveAxis(c.i, da, m.na, m.pa);
    var ob := ResolveAxis(c.j, db, m.nb, m.pb);
    var oc := ResolveAxis(c.k, dc, m.nc, m.pc);
    if oa.Some? && ob.Some? && oc.Some? then m.IndicesFromCell(oa.value, ob.value, oc.value)
    else []
  }

  /** The blocks of the first n offsets dc = -1, 0, 1, for fixed da and db. */
  function Row(m: LatticeMap, c: Cell, da: int, db: int, n: int): seq<int>
    requires m.Valid() && m.ValidCell(c) && ValidOffset(da) && ValidOffset(db) && 0 <= n <= Width
    decreases n
  {
    if n == 0 then [] else Row(m, c, da, db, n - 1) + Block(m, c, da, db, n - 2)
  }

  /** The rows of the first n offsets db = -1, 0, 1, for fixed da. */
  function Plane(m: LatticeMap, c: Cell, da: int, n: int): seq<int>
    requires m.Valid() && m.ValidCell(c) && ValidOffset(da) && 0 <= n <= Width
    decreases n
  {
    if n == 0 then [] else Plane(m, c, da, n - 1) + Row(m, c, da, n - 2, Width)
  }

  /** The planes of the first n offsets da = -1, 0, 1. */
  function Stencil(m: LatticeMap, c: Cell, n: int): seq<int>
    requires m.Valid() && m.ValidCell(c) && 0 <= n <= Width
    decreases n
  {
    if n == 0 then [] else Stencil(m, c, n - 1) + Plane(m, c, n - 2, Width)
  }

  /** The neighbour list of global index g, in enumeration order. */
  function StencilOf(m: LatticeMap, g: int): seq<int>
    requires m.Valid() && 0 <= g < m.Total()
  {
    Stencil(m, m.CellAt(g), Width)
  }

  lemma AppendAssociative(a: seq<int>, b: seq<int>, c: seq<int>)
    ensures (a + b) + c == a + (b + c)
  {
  }

  /** Appends the basis sites of cell (i, j, k) to r, in ascending basis order. */
  method AppendCell(m: LatticeMap, r: seq<int>, i: int, j: int, k: int) returns (r': seq<int>)
    requires m.Valid() && m.ValidCell(Cell(i, j, k))
    ensures r' == r + m.IndicesFromCell(i, j, k)
  {
    ghost var block := m.IndicesFromCell(i, j, k);
    r' := r;
    var l := 0;
    while l < m.basis
      invariant 0 <= l <= m.basis
      invariant r' == r + block[..l]
    {
      r' := r' + [m.IndexOf(Site(i, j, k, l))];
      l := l + 1;
      assert block[..l] == block[..l - 1] + [block[l - 1]];
    }
    assert block[..m.basis] == block;
  }

  /** Appends the blocks of offsets (da, db, -1), (da, db, 0), (da, db, 1) to r. */
  method AppendRow(m: LatticeMap, c: Cell, da: int, db: int, r: seq<int>) returns (r': seq<int>)
    requires m.Valid() && m.ValidCell(c) && ValidOffset(da) && ValidOffset(db)
    ensures r' == r + Row(m, c, da, db, Width)
  {
    r' := r;
    var dc := -1;
    while dc <= 1
      invariant -1 <= dc <= 2
      invariant r' == r + Row(m, c, da, db, dc + 1)
    {
      var oa := ResolveAxis(c.i, da, m.na, m.pa);
      var ob := ResolveAxis(c.j, db, m.nb, m.pb);
      var oc := ResolveAxis(c.k, dc, m.nc, m.pc);
      ghost var before := r';
      if oa.Some? && ob.Some? && oc.Some? {
        r' := AppendCell(m, r', oa.value, ob.value, oc.value);
      }
      assert r' == before + Block(m, c, da, db, dc);
      AppendAssociative(r, Row(m, c, da, db, dc + 1), Block(m, c, da, db, dc));
      dc := dc + 1;
    }
  }

  /** Appends the rows of offsets (da, -1, _), (da, 0, _), (da, 1, _) to r. */
  method AppendPlane(m: LatticeMap, c: Cell, da: int, r: seq<int>) returns (r': seq<int>)
    requires m.Valid() && m.ValidCell(c) && ValidOffset(da)
    ensures r' == r + Plane(m, c, da, Width)
  {
    r' := r;
    var db := -1;
    while db <= 1
      invariant -1 <= db <= 2
      invariant r' == r + Plane(m, c, da, db + 1)
    {
      r' := AppendRow(m, c, da, db, r');
      AppendAssociative(r, Plane(m, c, da, db + 1), Row(m, c, da, db, Width));
      db := db + 1;
    }
  }

  /** Builds the neighbour list of site g: decodes its cell, then appends,
      offset after offset, the basis block of every accepted neighbour cell. */
  method NeighbourIndices(m: LatticeMap, g: int) returns (r: seq<int>)
    requires m.Valid() && 0 <= g < m.Total()
    ensures r == StencilOf(m, g)
  {
    var c := m.CellAt(g);
    r := [];
    var da := -1;
    while da <= 1
      invariant -1 <= da <= 2
      invariant r == Stencil(m, c, da + 1)
    {
      r := AppendPlane(m, c, da, r);
      da := da + 1;
    }
    assert da + 1 == Width;
  }

  lemma RowBlocks(m: LatticeMap, c: Cell, da: int, db: int)
    requires m.Valid() && m.ValidCell(c) && ValidOffset(da) && ValidOffset(db)
    ensures Row(m, c, da, db, Width) ==
            Block(m, c, da, db, -1) + Block(m, c, da, db, 0) + Block(m, c, da, db, 1)
  {
  }

  lemma PlaneRows(m: LatticeMap, c: Cell, da: int)
    requires m.Valid() && m.ValidCell(c) && ValidOffset(da)
    ensures Plane(m, c, da, Width) ==
            Row(m, c, da, -1, Width) + Row(m, c, da, 0, Width) + Row(m, c, da, 1, Width)
  {
  }

  lemma StencilPlanes(m: LatticeMap, g: int)
    requires m.Valid() && 0 <= g < m.Total()
    ensures StencilOf(m, g) ==
            Plane(m, m.CellAt(g), -1, Width) + Plane(m, m.CellAt(g), 0, Width) + Plane(m, m.CellAt(g), 1, Width)
  {
    var c := m.CellAt(g);
    assert Stencil(m, c, 1) == Plane(m, c, -1, Width);
  }

  /** Cells c and c2 of an axis of n cells are at most one step apart; on a
      periodic axis the last cell and the first are one step apart too. */
  predicate AxisNear(c: int, c2: int, n: int, periodic: bool)
  {
    -1 <= c2 - c <= 1 || (periodic && (c2 - c == n - 1 || c - c2 == n - 1))
  }

  /** Cell c2 is in the 3 x 3 x 3 block around cell c, axis by axis. */
  predicate Near(m: LatticeMap, c: Cell, c2: Cell)
  {
    AxisNear(c.i, c2.i, m.na, m.pa) && AxisNear(c.j, c2.j, m.nb, m.pb) && AxisNear(c.k, c2.k, m.nc, m.pc)
  }

  /** The coordinates some offset of an axis resolves to are exactly the near ones. */
  lemma AxisReach(c: int, c2: int, n: int, periodic: bool)
    requires n >= 1 && 0 <= c < n && 0 <= c2 < n
    ensures AxisNear(c, c2, n, periodic) <==>
              ResolveAxis(c, -1, n, periodic) == Some(c2) ||
              ResolveAxis(c, 0, n, periodic) == Some(c2) ||
              ResolveAxis(c, 1, n, periodic) == Some(c2)
  {
  }

  /** x belongs to the block of offset (da, db, dc) exactly when it is a site
      of the cell that offset resolves to. */
  lemma InBlock(m: LatticeMap, c: Cell, da: int, db: int, dc: int, x: int)
    requires m.Valid() && m.ValidCell(c)
    requires ValidOffset(da) && ValidOffset(db) && ValidOffset(dc)
    ensures x in Block(m, c, da, db, dc) <==>
              0 <= x < m.Total() &&
              ResolveAxis(c.i, da, m.na, m.pa) == Some(m.CellAt(x).i) &&
              ResolveAxis(c.j, db, m.nb, m.pb) == Some(m.CellAt(x).j) &&
              ResolveAxis(c.k, dc, m.nc, m.pc) == Some(m.CellAt(x).k)
  {
    var oa := ResolveAxis(c.i, da, m.na, m.pa);
    var ob := ResolveAxis(c.j, db, m.nb, m.pb);
    var oc := ResolveAxis(c.k, dc, m.nc, m.pc);
    if oa.Some? && ob.Some? && oc.Some? {
      var block := m.IndicesFromCell(oa.value, ob.value, oc.value);
      m.IndicesFromCellDecode(oa.value, ob.value, oc.value);
      if x in block {
        var l :| 0 <= l < |block| && block[l] == x;
        assert m.SiteOf(x) == Site(oa.value, ob.value, oc.value, l);
      }
      if 0 <= x < m.Total() && m.CellAt(x) == Cell(oa.value, ob.value, oc.value) {
        var s := m.SiteOf(x);
        assert m.SiteOf(block[s.l]) == s;
        assert block[s.l] == x;
      }
    }
  }

  /** Membership in a row of offsets (da, db, -1 .. 1). */
  lemma InRow(m: LatticeMap, c: Cell, da: int, db: int, x: int)
    requires m.Valid() && m.ValidCell(c) && ValidOffset(da) && ValidOffset(db)
    ensures x in Row(m, c, da, db, Width) <==>
              0 <= x < m.Total() &&
              ResolveAxis(c.i, da, m.na, m.pa) == Some(m.CellAt(x).i) &&
              ResolveAxis(c.j, db, m.nb, m.pb) == Some(m.CellAt(x).j) &&
              AxisNear(c.k, m.CellAt(x).k, m.nc, m.pc)
  {
    RowBlocks(m, c, da, db);
    InBlock(m, c, da, db, -1, x);
    InBlock(m, c, da, db, 0, x);
    InBlock(m, c, da, db, 1, x);
    if 0 <= x < m.Total() {
      AxisReach(c.k, m.CellAt(x).k, m.nc, m.pc);
    }
  }

  /** Membership in a plane of offsets (da, -1 .. 1, -1 .. 1). */
  lemma InPlane(m: LatticeMap, c: Cell, da: int, x: int)
    requires m.Valid() && m.ValidCell(c) && ValidOffset(da)
    ensures x in Plane(m, c, da, Width) <==>
              0 <= x < m.Total() &&
              ResolveAxis(c.i, da, m.na, m.pa) == Some(m.CellAt(x).i) &&
              AxisNear(c.j, m.CellAt(x).j, m.nb, m.pb) &&
              AxisNear(c.k, m.CellAt(x).k, m.nc, m.pc)
  {
    PlaneRows(m, c, da);
    InRow(m, c, da, -1, x);
    InRow(m, c, da, 0, x);
    InRow(m, c, da, 1, x);
    if 0 <= x < m.Total() {
      AxisReach(c.j, m.CellAt(x).j, m.nb, m.pb);
    }
  }

  /** The neighbour list of g holds exactly the sites of the lattice whose
      cell is, along every axis, at most one step from the cell of g (a step
      wraps round on a periodic axis and stops at the border of a free one). */
  lemma NeighbourMembers(m: LatticeMap, g: int, x: int)
    requires m.Valid() && 0 <= g < m.Total()
    ensures x in StencilOf(m, g) <==> 0 <= x < m.Total() && Near(m, m.CellAt(g), m.CellAt(x))
  {
    var c := m.CellAt(g);
    StencilPlanes(m, g);
    InPlane(m, c, -1, x);
    InPlane(m, c, 0, x);
    InPlane(m, c, 1, x);
    if 0 <= x < m.Total() {
      AxisReach(c.i, m.CellAt(x).i, m.na, m.pa);
    }
  }

  /** The neighbour list of g always holds every site of g's own cell, g among them. */
  lemma OwnCellIncluded(m: LatticeMap, g: int)
    requires m.Valid() && 0 <= g < m.Total()
    ensures g in StencilOf(m, g)
    ensures forall x :: x in m.IndicesFromCell(m.CellAt(g).i, m.CellAt(g).j, m.CellAt(g).k) ==> x in StencilOf(m, g)
  {
    var c := m.CellAt(g);
    SameCellIncluded(m, g, g);
    var block := m.IndicesFromCell(c.i, c.j, c.k);
    m.IndicesFromCellDecode(c.i, c.j, c.k);
    forall x | x in block
      ensures x in StencilOf(m, g)
    {
      var l :| 0 <= l < |block| && block[l] == x;
      assert m.SiteOf(x) == Site(c.i, c.j, c.k, l);
      SameCellIncluded(m, g, x);
    }
  }

  /** Every site sharing g's cell is among g's neighbours. */
  lemma SameCellIncluded(m: LatticeMap, g: int, x: int)
    requires m.Valid() && 0 <= g < m.Total() && 0 <= x < m.Total() && m.CellAt(x) == m.CellAt(g)
    ensures x in StencilOf(m, g)
  {
    var c := m.CellAt(g);
    assert Near(m, c, c);
    NeighbourMembers(m, g, x);
  }

  /** Number of offsets -1, 0, 1 that an axis accepts from coordinate c:
      all three on a periodic axis, and on a free axis the cell itself plus
      each side that still lies inside the grid. */
  function Survivors(c: int, n: int, periodic: bool): (s: nat)
    requires n >= 1 && 0 <= c < n
    ensures periodic ==> s == 3
    ensures !periodic ==> s == 1 + (if c > 0 then 1 else 0) + (if c < n - 1 then 1 else 0)
  {
    (if ResolveAxis(c, -1, n, periodic).Some? then 1 else 0) +
    (if ResolveAxis(c, 0, n, periodic).Some? then 1 else 0) +
    (if ResolveAxis(c, 1, n, periodic).Some? then 1 else 0)
  }

  /** Three parts, each x long when present, together have x times the number present. */
  lemma SumOfPresent(p1: bool, p2: bool, p3: bool, x: int)
    ensures (if p1 then x else 0) + (if p2 then x else 0) + (if p3 then x else 0) ==
            ((if p1 then 1 else 0) + (if p2 then 1 else 0) + (if p3 then 1 else 0)) * x
  {
  }

  lemma RowLength(m: LatticeMap, c: Cell, da: int, db: int)
    requires m.Valid() && m.ValidCell(c) && ValidOffset(da) && ValidOffset(db)
    ensures |Row(m, c, da, db, Width)| ==
              if ResolveAxis(c.i, da, m.na, m.pa).Some? && ResolveAxis(c.j, db, m.nb, m.pb).Some?
              then Survivors(c.k, m.nc, m.pc) * m.basis else 0
  {
    RowBlocks(m, c, da, db);
    SumOfPresent(ResolveAxis(c.k, -1, m.nc, m.pc).Some?, ResolveAxis(c.k, 0, m.nc, m.pc).Some?,
                 ResolveAxis(c.k, 1, m.nc, m.pc).Some?, m.basis);
  }

  lemma PlaneLength(m: LatticeMap, c: Cell, da: int)
    requires m.Valid() && m.ValidCell(c) && ValidOffset(da)
    ensures |Plane(m, c, da, Width)| ==
              if ResolveAxis(c.i, da, m.na, m.pa).Some?
              then Survivors(c.j, m.nb, m.pb) * (Survivors(c.k, m.nc, m.pc) * m.basis) else 0
  {
    PlaneRows(m, c, da);
    RowLength(m, c, da, -1);
    RowLength(m, c, da, 0);
    RowLength(m, c, da, 1);
    SumOfPresent(ResolveAxis(c.j, -1, m.nb, m.pb).Some?, ResolveAxis(c.j, 0, m.nb, m.pb).Some?,
                 ResolveAxis(c.j, 1, m.nb, m.pb).Some?, Survivors(c.k, m.nc, m.pc) * m.basis);
  }

  /** The neighbour list has one basis block per accepted offset, and the
      accepted offsets are the product of what each axis accepts on its own. */
  lemma NeighbourCount(m: LatticeMap, g: int)
    requires m.Valid() && 0 <= g < m.Total()
    ensures |StencilOf(m, g)| ==
              Survivors(m.CellAt(g).i, m.na, m.pa) * Survivors(m.CellAt(g).j, m.nb, m.pb) *
              Survivors(m.CellAt(g).k, m.nc, m.pc) * m.basis
  {
    var c := m.CellAt(g);
    StencilPlanes(m, g);
    PlaneLength(m, c, -1);
    PlaneLength(m, c, 0);
    PlaneLength(m, c, 1);
    var sa, sb, sc := Survivors(c.i, m.na, m.pa), Survivors(c.j, m.nb, m.pb), Survivors(c.k, m.nc, m.pc);
    SumOfPresent(ResolveAxis(c.i, -1, m.na, m.pa).Some?, ResolveAxis(c.i, 0, m.na, m.pa).Some?,
                 ResolveAxis(c.i, 1, m.na, m.pa).Some?, sb * (sc * m.basis));
    MulAssociative(sa, sb, sc, m.basis);
  }

  /** On a fully periodic lattice no offset is rejected: 27 blocks for every site. */
  lemma PeriodicNeighbourCount(m: LatticeMap, g: int)
    requires m.Valid() && 0 <= g < m.Total() && m.pa && m.pb && m.pc
    ensures |StencilOf(m, g)| == 27 * m.basis
  {
    NeighbourCount(m, g);
  }

  /** Number of axes along which cell c is strictly inside the grid. */
  function InteriorAxes(m: LatticeMap, c: Cell): nat
  {
    (if 0 < c.i < m.na - 1 then 1 else 0) +
    (if 0 < c.j < m.nb - 1 then 1 else 0) +
    (if 0 < c.k < m.nc - 1 then 1 else 0)
  }

  /** Products of three factors that are each 2 or 3. */
  lemma ProductOfTwosAndThrees(x: int, y: int, z: int)
    requires 2 <= x <= 3 && 2 <= y <= 3 && 2 <= z <= 3
    ensures x * y * z == [8, 12, 18, 27][(x - 2) + (y - 2) + (z - 2)]
  {
  }

  /** On a fully free lattice with at least two cells along every axis, a
      corner cell has 8 neighbour blocks, an edge cell 12, a face cell 18
      and an interior cell 27. */
  lemma FreeNeighbourCount(m: LatticeMap, g: int)
    requires m.Valid() && 0 <= g < m.Total() && !m.pa && !m.pb && !m.pc
    requires m.na >= 2 && m.nb >= 2 && m.nc >= 2
    ensures |StencilOf(m, g)| == [8, 12, 18, 27][InteriorAxes(m, m.CellAt(g))] * m.basis
  {
    var c := m.CellAt(g);
    NeighbourCount(m, g);
    var sa, sb, sc := Survivors(c.i, m.na, m.pa), Survivors(c.j, m.nb, m.pb), Survivors(c.k, m.nc, m.pc);
    assert InteriorAxes(m, c) == (sa - 2) + (sb - 2) + (sc - 2);
    ProductOfTwosAndThrees(sa, sb, sc);
  }
}
