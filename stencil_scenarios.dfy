/** The neighbour-list cases of the unit tests of the lattice map, stated and
    proved for the model. Each neighbour list is assembled from its three planes and
    each plane from its three rows, one small lemma per row. */
module StencilScenarios {
  import opened Wrappers
  import opened LatticeMaps
  import opened NeighbourStencil

  /** With a basis of one, an offset whose three axes resolve to cell
      (a, b, k) contributes the single site numbered like that cell. */
  lemma UnitBlock(m: LatticeMap, nb: int, nc: int, c: Cell, da: int, db: int, dc: int, a: int, b: int, k: int)
    requires m.Valid() && m.ValidCell(c) && ValidOffset(da) && ValidOffset(db) && ValidOffset(dc)
    requires m.nb == nb && m.nc == nc
    requires m.basis == 1
    requires ResolveAxis(c.i, da, m.na, m.pa) == Some(a)
    requires ResolveAxis(c.j, db, m.nb, m.pb) == Some(b)
    requires ResolveAxis(c.k, dc, m.nc, m.pc) == Some(k)
    ensures Block(m, c, da, db, dc) == [(a * nb + b) * nc + k]
  {
  }

  /** With a basis of one, cell (a, b, k) holds the single site numbered like the cell. */
  lemma UnitCell(m: LatticeMap, nb: int, nc: int, a: int, b: int, k: int)
    requires m.Valid() && m.ValidCell(Cell(a, b, k)) && m.basis == 1 && m.nb == nb && m.nc == nc
    ensures m.IndicesFromCell(a, b, k) == [(a * nb + b) * nc + k]
  {
  }

  /** With a basis of two, an offset whose three axes resolve to cell number
      n contributes the sites 2n and 2n + 1. */
  lemma PairBlock(m: LatticeMap, nb: int, nc: int, c: Cell, da: int, db: int, dc: int, a: int, b: int, k: int)
    requires m.Valid() && m.ValidCell(c) && ValidOffset(da) && ValidOffset(db) && ValidOffset(dc)
    requires m.nb == nb && m.nc == nc
    requires m.basis == 2
    requires ResolveAxis(c.i, da, m.na, m.pa) == Some(a)
    requires ResolveAxis(c.j, db, m.nb, m.pb) == Some(b)
    requires ResolveAxis(c.k, dc, m.nc, m.pc) == Some(k)
    ensures Block(m, c, da, db, dc) == [2 * ((a * nb + b) * nc + k), 2 * ((a * nb + b) * nc + k) + 1]
  {
  }

  /** An offset rejected along some axis contributes nothing. */
  lemma BlockRejected(m: LatticeMap, c: Cell, da: int, db: int, dc: int)
    requires m.Valid() && m.ValidCell(c) && ValidOffset(da) && ValidOffset(db) && ValidOffset(dc)
    requires ResolveAxis(c.i, da, m.na, m.pa).None? || ResolveAxis(c.j, db, m.nb, m.pb).None? ||
             ResolveAxis(c.k, dc, m.nc, m.pc).None?
    ensures Block(m, c, da, db, dc) == []
  {
  }

  /** The neighbour list of a site is the concatenation of its three planes,
      whatever their values. */
  lemma StencilFromPlanes(m: LatticeMap, g: int, c: Cell, below: seq<int>, level: seq<int>, above: seq<int>)
    requires m.Valid() && 0 <= g < m.Total() && m.CellAt(g) == c
    requires Plane(m, c, -1, Width) == below && Plane(m, c, 0, Width) == level && Plane(m, c, 1, Width) == above
    ensures StencilOf(m, g) == below + level + above
  {
    StencilPlanes(m, g);
  }

  /** Central-cell scenario, the row of offsets (da, db) = (-1, -1). */
  lemma CentralCellRowBelowBelow(m: LatticeMap)
    requires m.basis == 1 && m.na == 3 && m.nb == 3 && m.nc == 3 && !m.pa && !m.pb && !m.pc
    ensures Row(m, Cell(1, 1, 1), -1, -1, Width) == [0, 1, 2]
  {
    var c := Cell(1, 1, 1);
    RowBlocks(m, c, -1, -1);
    UnitBlock(m, 3, 3, c, -1, -1, -1, 0, 0, 0);
    UnitBlock(m, 3, 3, c, -1, -1, 0, 0, 0, 1);
    UnitBlock(m, 3, 3, c, -1, -1, 1, 0, 0, 2);
  }

  /** Central-cell scenario, the row of offsets (da, db) = (-1, 0). */
  lemma CentralCellRowBelowLevel(m: LatticeMap)
    requires m.basis == 1 && m.na == 3 && m.nb == 3 && m.nc == 3 && !m.pa && !m.pb && !m.pc
    ensures Row(m, Cell(1, 1, 1), -1, 0, Width) == [3, 4, 5]
  {
    var c := Cell(1, 1, 1);
    RowBlocks(m, c, -1, 0);
    UnitBlock(m, 3, 3, c, -1, 0, -1, 0, 1, 0);
    UnitBlock(m, 3, 3, c, -1, 0, 0, 0, 1, 1);
    UnitBlock(m, 3, 3, c, -1, 0, 1, 0, 1, 2);
  }

  /** Central-cell scenario, the row of offsets (da, db) = (-1, 1). */
  lemma CentralCellRowBelowAbove(m: LatticeMap)
    requires m.basis == 1 && m.na == 3 && m.nb == 3 && m.nc == 3 && !m.pa && !m.pb && !m.pc
    ensures Row(m, Cell(1, 1, 1), -1, 1, Width) == [6, 7, 8]
  {
    var c := Cell(1, 1, 1);
    RowBlocks(m, c, -1, 1);
    UnitBlock(m, 3, 3, c, -1, 1, -1, 0, 2, 0);
    UnitBlock(m, 3, 3, c, -1, 1, 0, 0, 2, 1);
    UnitBlock(m, 3, 3, c, -1, 1, 1, 0, 2, 2);
  }

  /** Central-cell scenario, the plane of offset da = -1. */
  lemma CentralCellPlaneBelow(m: LatticeMap)
    requires m.basis == 1 && m.na == 3 && m.nb == 3 && m.nc == 3 && !m.pa && !m.pb && !m.pc
    ensures Plane(m, Cell(1, 1, 1), -1, Width) == [0, 1, 2, 3, 4, 5, 6, 7, 8]
  {
    PlaneRows(m, Cell(1, 1, 1), -1);
    CentralCellRowBelowBelow(m);
    CentralCellRowBelowLevel(m);
    CentralCellRowBelowAbove(m);
  }

  /** Central-cell scenario, the row of offsets (da, db) = (0, -1). */
  lemma CentralCellRowLevelBelow(m: LatticeMap)
    requires m.basis == 1 && m.na == 3 && m.nb == 3 && m.nc == 3 && !m.pa && !m.pb && !m.pc
    ensures Row(m, Cell(1, 1, 1), 0, -1, Width) == [9, 10, 11]
  {
    var c := Cell(1, 1, 1);
    RowBlocks(m, c, 0, -1);
    UnitBlock(m, 3, 3, c, 0, -1, -1, 1, 0, 0);
    UnitBlock(m, 3, 3, c, 0, -1, 0, 1, 0, 1);
    UnitBlock(m, 3, 3, c, 0, -1, 1, 1, 0, 2);
  }

  /** Central-cell scenario, the row of offsets (da, db) = (0, 0). */
  lemma CentralCellRowLevelLevel(m: LatticeMap)
    requires m.basis == 1 && m.na == 3 && m.nb == 3 && m.nc == 3 && !m.pa && !m.pb && !m.pc
    ensures Row(m, Cell(1, 1, 1), 0, 0, Width) == [12, 13, 14]
  {
    var c := Cell(1, 1, 1);
    RowBlocks(m, c, 0, 0);
    UnitBlock(m, 3, 3, c, 0, 0, -1, 1, 1, 0);
    UnitBlock(m, 3, 3, c, 0, 0, 0, 1, 1, 1);
    UnitBlock(m, 3, 3, c, 0, 0, 1, 1, 1, 2);
  }

  /** Central-cell scenario, the row of offsets (da, db) = (0, 1). */
  lemma CentralCellRowLevelAbove(m: LatticeMap)
    requires m.basis == 1 && m.na == 3 && m.nb == 3 && m.nc == 3 && !m.pa && !m.pb && !m.pc
    ensures Row(m, Cell(1, 1, 1), 0, 1, Width) == [15, 16, 17]
  {
    var c := Cell(1, 1, 1);
    RowBlocks(m, c, 0, 1);
    UnitBlock(m, 3, 3, c, 0, 1, -1, 1, 2, 0);
    UnitBlock(m, 3, 3, c, 0, 1, 0, 1, 2, 1);
    UnitBlock(m, 3, 3, c, 0, 1, 1, 1, 2, 2);
  }

  /** Central-cell scenario, the plane of offset da = 0. */
  lemma CentralCellPlaneLevel(m: LatticeMap)
    requires m.basis == 1 && m.na == 3 && m.nb == 3 && m.nc == 3 && !m.pa && !m.pb && !m.pc
    ensures Plane(m, Cell(1, 1, 1), 0, Width) == [9, 10, 11, 12, 13, 14, 15, 16, 17]
  {
    PlaneRows(m, Cell(1, 1, 1), 0);
    CentralCellRowLevelBelow(m);
    CentralCellRowLevelLevel(m);
    CentralCellRowLevelAbove(m);
  }

  /** Central-cell scenario, the row of offsets (da, db) = (1, -1). */
  lemma CentralCellRowAboveBelow(m: LatticeMap)
    requires m.basis == 1 && m.na == 3 && m.nb == 3 && m.nc == 3 && !m.pa && !m.pb && !m.pc
    ensures Row(m, Cell(1, 1, 1), 1, -1, Width) == [18, 19, 20]
  {
    var c := Cell(1, 1, 1);
    RowBlocks(m, c, 1, -1);
    UnitBlock(m, 3, 3, c, 1, -1, -1, 2, 0, 0);
    UnitBlock(m, 3, 3, c, 1, -1, 0, 2, 0, 1);
    UnitBlock(m, 3, 3, c, 1, -1, 1, 2, 0, 2);
  }

  /** Central-cell scenario, the row of offsets (da, db) = (1, 0). */
  lemma CentralCellRowAboveLevel(m: LatticeMap)
    requires m.basis == 1 && m.na == 3 && m.nb == 3 && m.nc == 3 && !m.pa && !m.pb && !m.pc
    ensures Row(m, Cell(1, 1, 1), 1, 0, Width) == [21, 22, 23]
  {
    var c := Cell(1, 1, 1);
    RowBlocks(m, c, 1, 0);
    UnitBlock(m, 3, 3, c, 1, 0, -1, 2, 1, 0);
    UnitBlock(m, 3, 3, c, 1, 0, 0, 2, 1, 1);
    UnitBlock(m, 3, 3, c, 1, 0, 1, 2, 1, 2);
  }

  /** Central-cell scenario, the row of offsets (da, db) = (1, 1). */
  lemma CentralCellRowAboveAbove(m: LatticeMap)
    requires m.basis == 1 && m.na == 3 && m.nb == 3 && m.nc == 3 && !m.pa && !m.pb && !m.pc
    ensures Row(m, Cell(1, 1, 1), 1, 1, Width) == [24, 25, 26]
  {
    var c := Cell(1, 1, 1);
    RowBlocks(m, c, 1, 1);
    UnitBlock(m, 3, 3, c, 1, 1, -1, 2, 2, 0);
    UnitBlock(m, 3, 3, c, 1, 1, 0, 2, 2, 1);
    UnitBlock(m, 3, 3, c, 1, 1, 1, 2, 2, 2);
  }

  /** Central-cell scenario, the plane of offset da = 1. */
  lemma CentralCellPlaneAbove(m: LatticeMap)
    requires m.basis == 1 && m.na == 3 && m.nb == 3 && m.nc == 3 && !m.pa && !m.pb && !m.pc
    ensures Plane(m, Cell(1, 1, 1), 1, Width) == [18, 19, 20, 21, 22, 23, 24, 25, 26]
  {
    PlaneRows(m, Cell(1, 1, 1), 1);
    CentralCellRowAboveBelow(m);
    CentralCellRowAboveLevel(m);
    CentralCellRowAboveAbove(m);
  }

  /** Central-cell scenario, the three planes joined in enumeration order. */
  lemma CentralCellOrder()
    ensures [0, 1, 2, 3, 4, 5, 6, 7, 8] + [9, 10, 11, 12, 13, 14, 15, 16, 17] + [18, 19, 20, 21, 22, 23, 24, 25, 26] ==
            [0, 1, 2, 3, 4, 5, 6, 7, 8, 9, 10, 11, 12, 13, 14, 15, 16, 17, 18, 19, 20, 21, 22, 23, 24, 25, 26]
  {
  }

  /** Central-cell scenario on any map with these parameters. */
  lemma CentralCellStencil(m: LatticeMap)
    requires m.basis == 1 && m.na == 3 && m.nb == 3 && m.nc == 3 && !m.pa && !m.pb && !m.pc
    ensures StencilOf(m, 13) == [0, 1, 2, 3, 4, 5, 6, 7, 8, 9, 10, 11, 12, 13, 14, 15, 16, 17, 18, 19, 20, 21, 22, 23, 24, 25, 26]
  {
    assert m.CellAt(13) == Cell(1, 1, 1);
    CentralCellPlaneBelow(m);
    CentralCellPlaneLevel(m);
    CentralCellPlaneAbove(m);
    StencilFromPlanes(m, 13, Cell(1, 1, 1), [0, 1, 2, 3, 4, 5, 6, 7, 8], [9, 10, 11, 12, 13, 14, 15, 16, 17], [18, 19, 20, 21, 22, 23, 24, 25, 26]);
    CentralCellOrder();
  }

  /** Fully free lattice of 3 x 3 x 3 cells, basis 1: the central cell (1, 1, 1)
      holds site 13, and its neighbours are all 27 sites, in ascending order. */
  lemma CentralCellScenario()
    ensures var r := Create(1, [3, 3, 3], [false, false, false]);
            r.Success? && StencilOf(r.value, 13) == [0, 1, 2, 3, 4, 5, 6, 7, 8, 9, 10, 11, 12, 13, 14, 15, 16, 17, 18, 19, 20, 21, 22, 23, 24, 25, 26]
    ensures var r := Create(1, [3, 3, 3], [false, false, false]);
            r.Success? && r.value.IndicesFromCell(1, 1, 1) == [13]
  {
    var m := Create(1, [3, 3, 3], [false, false, false]).value;
    CentralCellStencil(m);
    UnitCell(m, 3, 3, 1, 1, 1);
  }

  /** Periodic-corner scenario, the row of offsets (da, db) = (-1, -1). */
  lemma PeriodicCornerRowBelowBelow(m: LatticeMap)
    requires m.basis == 1 && m.na == 3 && m.nb == 3 && m.nc == 3 && m.pa && m.pb && m.pc
    ensures Row(m, Cell(2, 2, 2), -1, -1, Width) == [13, 14, 12]
  {
    var c := Cell(2, 2, 2);
    RowBlocks(m, c, -1, -1);
    UnitBlock(m, 3, 3, c, -1, -1, -1, 1, 1, 1);
    UnitBlock(m, 3, 3, c, -1, -1, 0, 1, 1, 2);
    UnitBlock(m, 3, 3, c, -1, -1, 1, 1, 1, 0);
  }

  /** Periodic-corner scenario, the row of offsets (da, db) = (-1, 0). */
  lemma PeriodicCornerRowBelowLevel(m: LatticeMap)
    requires m.basis == 1 && m.na == 3 && m.nb == 3 && m.nc == 3 && m.pa && m.pb && m.pc
    ensures Row(m, Cell(2, 2, 2), -1, 0, Width) == [16, 17, 15]
  {
    var c := Cell(2, 2, 2);
    RowBlocks(m, c, -1, 0);
    UnitBlock(m, 3, 3, c, -1, 0, -1, 1, 2, 1);
    UnitBlock(m, 3, 3, c, -1, 0, 0, 1, 2, 2);
    UnitBlock(m, 3, 3, c, -1, 0, 1, 1, 2, 0);
  }

  /** Periodic-corner scenario, the row of offsets (da, db) = (-1, 1). */
  lemma PeriodicCornerRowBelowAbove(m: LatticeMap)
    requires m.basis == 1 && m.na == 3 && m.nb == 3 && m.nc == 3 && m.pa && m.pb && m.pc
    ensures Row(m, Cell(2, 2, 2), -1, 1, Width) == [10, 11, 9]
  {
    var c := Cell(2, 2, 2);
    RowBlocks(m, c, -1, 1);
    UnitBlock(m, 3, 3, c, -1, 1, -1, 1, 0, 1);
    UnitBlock(m, 3, 3, c, -1, 1, 0, 1, 0, 2);
    UnitBlock(m, 3, 3, c, -1, 1, 1, 1, 0, 0);
  }

  /** Periodic-corner scenario, the plane of offset da = -1. */
  lemma PeriodicCornerPlaneBelow(m: LatticeMap)
    requires m.basis == 1 && m.na == 3 && m.nb == 3 && m.nc == 3 && m.pa && m.pb && m.pc
    ensures Plane(m, Cell(2, 2, 2), -1, Width) == [13, 14, 12, 16, 17, 15, 10, 11, 9]
  {
    PlaneRows(m, Cell(2, 2, 2), -1);
    PeriodicCornerRowBelowBelow(m);
    PeriodicCornerRowBelowLevel(m);
    PeriodicCornerRowBelowAbove(m);
  }

  /** Periodic-corner scenario, the row of offsets (da, db) = (0, -1). */
  lemma PeriodicCornerRowLevelBelow(m: LatticeMap)
    requires m.basis == 1 && m.na == 3 && m.nb == 3 && m.nc == 3 && m.pa && m.pb && m.pc
    ensures Row(m, Cell(2, 2, 2), 0, -1, Width) == [22, 23, 21]
  {
    var c := Cell(2, 2, 2);
    RowBlocks(m, c, 0, -1);
    UnitBlock(m, 3, 3, c, 0, -1, -1, 2, 1, 1);
    UnitBlock(m, 3, 3, c, 0, -1, 0, 2, 1, 2);
    UnitBlock(m, 3, 3, c, 0, -1, 1, 2, 1, 0);
  }

  /** Periodic-corner scenario, the row of offsets (da, db) = (0, 0). */
  lemma PeriodicCornerRowLevelLevel(m: LatticeMap)
    requires m.basis == 1 && m.na == 3 && m.nb == 3 && m.nc == 3 && m.pa && m.pb && m.pc
    ensures Row(m, Cell(2, 2, 2), 0, 0, Width) == [25, 26, 24]
  {
    var c := Cell(2, 2, 2);
    RowBlocks(m, c, 0, 0);
    UnitBlock(m, 3, 3, c, 0, 0, -1, 2, 2, 1);
    UnitBlock(m, 3, 3, c, 0, 0, 0, 2, 2, 2);
    UnitBlock(m, 3, 3, c, 0, 0, 1, 2, 2, 0);
  }

  /** Periodic-corner scenario, the row of offsets (da, db) = (0, 1). */
  lemma PeriodicCornerRowLevelAbove(m: LatticeMap)
    requires m.basis == 1 && m.na == 3 && m.nb == 3 && m.nc == 3 && m.pa && m.pb && m.pc
    ensures Row(m, Cell(2, 2, 2), 0, 1, Width) == [19, 20, 18]
  {
    var c := Cell(2, 2, 2);
    RowBlocks(m, c, 0, 1);
    UnitBlock(m, 3, 3, c, 0, 1, -1, 2, 0, 1);
    UnitBlock(m, 3, 3, c, 0, 1, 0, 2, 0, 2);
    UnitBlock(m, 3, 3, c, 0, 1, 1, 2, 0, 0);
  }

  /** Periodic-corner scenario, the plane of offset da = 0. */
  lemma PeriodicCornerPlaneLevel(m: LatticeMap)
    requires m.basis == 1 && m.na == 3 && m.nb == 3 && m.nc == 3 && m.pa && m.pb && m.pc
    ensures Plane(m, Cell(2, 2, 2), 0, Width) == [22, 23, 21, 25, 26, 24, 19, 20, 18]
  {
    PlaneRows(m, Cell(2, 2, 2), 0);
    PeriodicCornerRowLevelBelow(m);
    PeriodicCornerRowLevelLevel(m);
    PeriodicCornerRowLevelAbove(m);
  }

  /** Periodic-corner scenario, the row of offsets (da, db) = (1, -1). */
  lemma PeriodicCornerRowAboveBelow(m: LatticeMap)
    requires m.basis == 1 && m.na == 3 && m.nb == 3 && m.nc == 3 && m.pa && m.pb && m.pc
    ensures Row(m, Cell(2, 2, 2), 1, -1, Width) == [4, 5, 3]
  {
    var c := Cell(2, 2, 2);
    RowBlocks(m, c, 1, -1);
    UnitBlock(m, 3, 3, c, 1, -1, -1, 0, 1, 1);
    UnitBlock(m, 3, 3, c, 1, -1, 0, 0, 1, 2);
    UnitBlock(m, 3, 3, c, 1, -1, 1, 0, 1, 0);
  }

  /** Periodic-corner scenario, the row of offsets (da, db) = (1, 0). */
  lemma PeriodicCornerRowAboveLevel(m: LatticeMap)
    requires m.basis == 1 && m.na == 3 && m.nb == 3 && m.nc == 3 && m.pa && m.pb && m.pc
    ensures Row(m, Cell(2, 2, 2), 1, 0, Width) == [7, 8, 6]
  {
    var c := Cell(2, 2, 2);
    RowBlocks(m, c, 1, 0);
    UnitBlock(m, 3, 3, c, 1, 0, -1, 0, 2, 1);
    UnitBlock(m, 3, 3, c, 1, 0, 0, 0, 2, 2);
    UnitBlock(m, 3, 3, c, 1, 0, 1, 0, 2, 0);
  }

  /** Periodic-corner scenario, the row of offsets (da, db) = (1, 1). */
  lemma PeriodicCornerRowAboveAbove(m: LatticeMap)
    requires m.basis == 1 && m.na == 3 && m.nb == 3 && m.nc == 3 && m.pa && m.pb && m.pc
    ensures Row(m, Cell(2, 2, 2), 1, 1, Width) == [1, 2, 0]
  {
    var c := Cell(2, 2, 2);
    RowBlocks(m, c, 1, 1);
    UnitBlock(m, 3, 3, c, 1, 1, -1, 0, 0, 1);
    UnitBlock(m, 3, 3, c, 1, 1, 0, 0, 0, 2);
    UnitBlock(m, 3, 3, c, 1, 1, 1, 0, 0, 0);
  }

  /** Periodic-corner scenario, the plane of offset da = 1. */
  lemma PeriodicCornerPlaneAbove(m: LatticeMap)
    requires m.basis == 1 && m.na == 3 && m.nb == 3 && m.nc == 3 && m.pa && m.pb && m.pc
    ensures Plane(m, Cell(2, 2, 2), 1, Width) == [4, 5, 3, 7, 8, 6, 1, 2, 0]
  {
    PlaneRows(m, Cell(2, 2, 2), 1);
    PeriodicCornerRowAboveBelow(m);
    PeriodicCornerRowAboveLevel(m);
    PeriodicCornerRowAboveAbove(m);
  }

  /** Periodic-corner scenario, the three planes joined in enumeration order. */
  lemma PeriodicCornerOrder()
    ensures [13, 14, 12, 16, 17, 15, 10, 11, 9] + [22, 23, 21, 25, 26, 24, 19, 20, 18] + [4, 5, 3, 7, 8, 6, 1, 2, 0] ==
            [13, 14, 12, 16, 17, 15, 10, 11, 9, 22, 23, 21, 25, 26, 24, 19, 20, 18, 4, 5, 3, 7, 8, 6, 1, 2, 0]
  {
  }

  /** Periodic-corner scenario on any map with these parameters. */
  lemma PeriodicCornerStencil(m: LatticeMap)
    requires m.basis == 1 && m.na == 3 && m.nb == 3 && m.nc == 3 && m.pa && m.pb && m.pc
    ensures StencilOf(m, 26) == [13, 14, 12, 16, 17, 15, 10, 11, 9, 22, 23, 21, 25, 26, 24, 19, 20, 18, 4, 5, 3, 7, 8, 6, 1, 2, 0]
  {
    assert m.CellAt(26) == Cell(2, 2, 2);
    PeriodicCornerPlaneBelow(m);
    PeriodicCornerPlaneLevel(m);
    PeriodicCornerPlaneAbove(m);
    StencilFromPlanes(m, 26, Cell(2, 2, 2), [13, 14, 12, 16, 17, 15, 10, 11, 9], [22, 23, 21, 25, 26, 24, 19, 20, 18], [4, 5, 3, 7, 8, 6, 1, 2, 0]);
    PeriodicCornerOrder();
  }

  /** Fully periodic lattice of 3 x 3 x 3 cells, basis 1: the neighbours of the
      corner site 26, in enumeration order; every site 0 .. 26 appears once. */
  lemma PeriodicCornerScenario()
    ensures var r := Create(1, [3, 3, 3], [true, true, true]);
            r.Success? && StencilOf(r.value, 26) == [13, 14, 12, 16, 17, 15, 10, 11, 9, 22, 23, 21, 25, 26, 24, 19, 20, 18, 4, 5, 3, 7, 8, 6, 1, 2, 0]
  {
    PeriodicCornerStencil(Create(1, [3, 3, 3], [true, true, true]).value);
  }

  /** Periodic-c scenario, the row of offsets (da, db) = (-1, -1). */
  lemma PeriodicCRowBelowBelow(m: LatticeMap)
    requires m.basis == 1 && m.na == 3 && m.nb == 3 && m.nc == 3 && !m.pa && !m.pb && m.pc
    ensures Row(m, Cell(0, 0, 0), -1, -1, Width) == []
  {
    var c := Cell(0, 0, 0);
    RowBlocks(m, c, -1, -1);
    BlockRejected(m, c, -1, -1, -1);
    BlockRejected(m, c, -1, -1, 0);
    BlockRejected(m, c, -1, -1, 1);
  }

  /** Periodic-c scenario, the row of offsets (da, db) = (-1, 0). */
  lemma PeriodicCRowBelowLevel(m: LatticeMap)
    requires m.basis == 1 && m.na == 3 && m.nb == 3 && m.nc == 3 && !m.pa && !m.pb && m.pc
    ensures Row(m, Cell(0, 0, 0), -1, 0, Width) == []
  {
    var c := Cell(0, 0, 0);
    RowBlocks(m, c, -1, 0);
    BlockRejected(m, c, -1, 0, -1);
    BlockRejected(m, c, -1, 0, 0);
    BlockRejected(m, c, -1, 0, 1);
  }

  /** Periodic-c scenario, the row of offsets (da, db) = (-1, 1). */
  lemma PeriodicCRowBelowAbove(m: LatticeMap)
    requires m.basis == 1 && m.na == 3 && m.nb == 3 && m.nc == 3 && !m.pa && !m.pb && m.pc
    ensures Row(m, Cell(0, 0, 0), -1, 1, Width) == []
  {
    var c := Cell(0, 0, 0);
    RowBlocks(m, c, -1, 1);
    BlockRejected(m, c, -1, 1, -1);
    BlockRejected(m, c, -1, 1, 0);
    BlockRejected(m, c, -1, 1, 1);
  }

  /** Periodic-c scenario, the plane of offset da = -1. */
  lemma PeriodicCPlaneBelow(m: LatticeMap)
    requires m.basis == 1 && m.na == 3 && m.nb == 3 && m.nc == 3 && !m.pa && !m.pb && m.pc
    ensures Plane(m, Cell(0, 0, 0), -1, Width) == []
  {
    PlaneRows(m, Cell(0, 0, 0), -1);
    PeriodicCRowBelowBelow(m);
    PeriodicCRowBelowLevel(m);
    PeriodicCRowBelowAbove(m);
  }

  /** Periodic-c scenario, the row of offsets (da, db) = (0, -1). */
  lemma PeriodicCRowLevelBelow(m: LatticeMap)
    requires m.basis == 1 && m.na == 3 && m.nb == 3 && m.nc == 3 && !m.pa && !m.pb && m.pc
    ensures Row(m, Cell(0, 0, 0), 0, -1, Width) == []
  {
    var c := Cell(0, 0, 0);
    RowBlocks(m, c, 0, -1);
    BlockRejected(m, c, 0, -1, -1);
    BlockRejected(m, c, 0, -1, 0);
    BlockRejected(m, c, 0, -1, 1);
  }

  /** Periodic-c scenario, the row of offsets (da, db) = (0, 0). */
  lemma PeriodicCRowLevelLevel(m: LatticeMap)
    requires m.basis == 1 && m.na == 3 && m.nb == 3 && m.nc == 3 && !m.pa && !m.pb && m.pc
    ensures Row(m, Cell(0, 0, 0), 0, 0, Width) == [2, 0, 1]
  {
    var c := Cell(0, 0, 0);
    RowBlocks(m, c, 0, 0);
    UnitBlock(m, 3, 3, c, 0, 0, -1, 0, 0, 2);
    UnitBlock(m, 3, 3, c, 0, 0, 0, 0, 0, 0);
    UnitBlock(m, 3, 3, c, 0, 0, 1, 0, 0, 1);
  }

  /** Periodic-c scenario, the row of offsets (da, db) = (0, 1). */
  lemma PeriodicCRowLevelAbove(m: LatticeMap)
    requires m.basis == 1 && m.na == 3 && m.nb == 3 && m.nc == 3 && !m.pa && !m.pb && m.pc
    ensures Row(m, Cell(0, 0, 0), 0, 1, Width) == [5, 3, 4]
  {
    var c := Cell(0, 0, 0);
    RowBlocks(m, c, 0, 1);
    UnitBlock(m, 3, 3, c, 0, 1, -1, 0, 1, 2);
    UnitBlock(m, 3, 3, c, 0, 1, 0, 0, 1, 0);
    UnitBlock(m, 3, 3, c, 0, 1, 1, 0, 1, 1);
  }

  /** Periodic-c scenario, the plane of offset da = 0. */
  lemma PeriodicCPlaneLevel(m: LatticeMap)
    requires m.basis == 1 && m.na == 3 && m.nb == 3 && m.nc == 3 && !m.pa && !m.pb && m.pc
    ensures Plane(m, Cell(0, 0, 0), 0, Width) == [2, 0, 1, 5, 3, 4]
  {
    PlaneRows(m, Cell(0, 0, 0), 0);
    PeriodicCRowLevelBelow(m);
    PeriodicCRowLevelLevel(m);
    PeriodicCRowLevelAbove(m);
  }

  /** Periodic-c scenario, the row of offsets (da, db) = (1, -1). */
  lemma PeriodicCRowAboveBelow(m: LatticeMap)
    requires m.basis == 1 && m.na == 3 && m.nb == 3 && m.nc == 3 && !m.pa && !m.pb && m.pc
    ensures Row(m, Cell(0, 0, 0), 1, -1, Width) == []
  {
    var c := Cell(0, 0, 0);
    RowBlocks(m, c, 1, -1);
    BlockRejected(m, c, 1, -1, -1);
    BlockRejected(m, c, 1, -1, 0);
    BlockRejected(m, c, 1, -1, 1);
  }

  /** Periodic-c scenario, the row of offsets (da, db) = (1, 0). */
  lemma PeriodicCRowAboveLevel(m: LatticeMap)
    requires m.basis == 1 && m.na == 3 && m.nb == 3 && m.nc == 3 && !m.pa && !m.pb && m.pc
    ensures Row(m, Cell(0, 0, 0), 1, 0, Width) == [11, 9, 10]
  {
    var c := Cell(0, 0, 0);
    RowBlocks(m, c, 1, 0);
    UnitBlock(m, 3, 3, c, 1, 0, -1, 1, 0, 2);
    UnitBlock(m, 3, 3, c, 1, 0, 0, 1, 0, 0);
    UnitBlock(m, 3, 3, c, 1, 0, 1, 1, 0, 1);
  }

  /** Periodic-c scenario, the row of offsets (da, db) = (1, 1). */
  lemma PeriodicCRowAboveAbove(m: LatticeMap)
    requires m.basis == 1 && m.na == 3 && m.nb == 3 && m.nc == 3 && !m.pa && !m.pb && m.pc
    ensures Row(m, Cell(0, 0, 0), 1, 1, Width) == [14, 12, 13]
  {
    var c := Cell(0, 0, 0);
    RowBlocks(m, c, 1, 1);
    UnitBlock(m, 3, 3, c, 1, 1, -1, 1, 1, 2);
    UnitBlock(m, 3, 3, c, 1, 1, 0, 1, 1, 0);
    UnitBlock(m, 3, 3, c, 1, 1, 1, 1, 1, 1);
  }

  /** Periodic-c scenario, the plane of offset da = 1. */
  lemma PeriodicCPlaneAbove(m: LatticeMap)
    requires m.basis == 1 && m.na == 3 && m.nb == 3 && m.nc == 3 && !m.pa && !m.pb && m.pc
    ensures Plane(m, Cell(0, 0, 0), 1, Width) == [11, 9, 10, 14, 12, 13]
  {
    PlaneRows(m, Cell(0, 0, 0), 1);
    PeriodicCRowAboveBelow(m);
    PeriodicCRowAboveLevel(m);
    PeriodicCRowAboveAbove(m);
  }

  /** Periodic-c scenario, the three planes joined in enumeration order. */
  lemma PeriodicCOrder()
    ensures [] + [2, 0, 1, 5, 3, 4] + [11, 9, 10, 14, 12, 13] ==
            [2, 0, 1, 5, 3, 4, 11, 9, 10, 14, 12, 13]
  {
  }

  /** Periodic-c scenario on any map with these parameters. */
  lemma PeriodicCStencil(m: LatticeMap)
    requires m.basis == 1 && m.na == 3 && m.nb == 3 && m.nc == 3 && !m.pa && !m.pb && m.pc
    ensures StencilOf(m, 0) == [2, 0, 1, 5, 3, 4, 11, 9, 10, 14, 12, 13]
  {
    assert m.CellAt(0) == Cell(0, 0, 0);
    PeriodicCPlaneBelow(m);
    PeriodicCPlaneLevel(m);
    PeriodicCPlaneAbove(m);
    StencilFromPlanes(m, 0, Cell(0, 0, 0), [], [2, 0, 1, 5, 3, 4], [11, 9, 10, 14, 12, 13]);
    PeriodicCOrder();
  }

  /** 3 x 3 x 3 cells, basis 1, periodic along c only: the 27 - 15 = 12
      neighbours of site 0, in enumeration order. */
  lemma PeriodicCScenario()
    ensures var r := Create(1, [3, 3, 3], [false, false, true]);
            r.Success? && StencilOf(r.value, 0) == [2, 0, 1, 5, 3, 4, 11, 9, 10, 14, 12, 13]
  {
    PeriodicCStencil(Create(1, [3, 3, 3], [false, false, true]).value);
  }

  /** Periodic-b scenario, the row of offsets (da, db) = (-1, -1). */
  lemma PeriodicBRowBelowBelow(m: LatticeMap)
    requires m.basis == 1 && m.na == 3 && m.nb == 3 && m.nc == 3 && !m.pa && m.pb && !m.pc
    ensures Row(m, Cell(0, 0, 0), -1, -1, Width) == []
  {
    var c := Cell(0, 0, 0);
    RowBlocks(m, c, -1, -1);
    BlockRejected(m, c, -1, -1, -1);
    BlockRejected(m, c, -1, -1, 0);
    BlockRejected(m, c, -1, -1, 1);
  }

  /** Periodic-b scenario, the row of offsets (da, db) = (-1, 0). */
  lemma PeriodicBRowBelowLevel(m: LatticeMap)
    requires m.basis == 1 && m.na == 3 && m.nb == 3 && m.nc == 3 && !m.pa && m.pb && !m.pc
    ensures Row(m, Cell(0, 0, 0), -1, 0, Width) == []
  {
    var c := Cell(0, 0, 0);
    RowBlocks(m, c, -1, 0);
    BlockRejected(m, c, -1, 0, -1);
    BlockRejected(m, c, -1, 0, 0);
    BlockRejected(m, c, -1, 0, 1);
  }

  /** Periodic-b scenario, the row of offsets (da, db) = (-1, 1). */
  lemma PeriodicBRowBelowAbove(m: LatticeMap)
    requires m.basis == 1 && m.na == 3 && m.nb == 3 && m.nc == 3 && !m.pa && m.pb && !m.pc
    ensures Row(m, Cell(0, 0, 0), -1, 1, Width) == []
  {
    var c := Cell(0, 0, 0);
    RowBlocks(m, c, -1, 1);
    BlockRejected(m, c, -1, 1, -1);
    BlockRejected(m, c, -1, 1, 0);
    BlockRejected(m, c, -1, 1, 1);
  }

  /** Periodic-b scenario, the plane of offset da = -1. */
  lemma PeriodicBPlaneBelow(m: LatticeMap)
    requires m.basis == 1 && m.na == 3 && m.nb == 3 && m.nc == 3 && !m.pa && m.pb && !m.pc
    ensures Plane(m, Cell(0, 0, 0), -1, Width) == []
  {
    PlaneRows(m, Cell(0, 0, 0), -1);
    PeriodicBRowBelowBelow(m);
    PeriodicBRowBelowLevel(m);
    PeriodicBRowBelowAbove(m);
  }

  /** Periodic-b scenario, the row of offsets (da, db) = (0, -1). */
  lemma PeriodicBRowLevelBelow(m: LatticeMap)
    requires m.basis == 1 && m.na == 3 && m.nb == 3 && m.nc == 3 && !m.pa && m.pb && !m.pc
    ensures Row(m, Cell(0, 0, 0), 0, -1, Width) == [6, 7]
  {
    var c := Cell(0, 0, 0);
    RowBlocks(m, c, 0, -1);
    BlockRejected(m, c, 0, -1, -1);
    UnitBlock(m, 3, 3, c, 0, -1, 0, 0, 2, 0);
    UnitBlock(m, 3, 3, c, 0, -1, 1, 0, 2, 1);
  }

  /** Periodic-b scenario, the row of offsets (da, db) = (0, 0). */
  lemma PeriodicBRowLevelLevel(m: LatticeMap)
    requires m.basis == 1 && m.na == 3 && m.nb == 3 && m.nc == 3 && !m.pa && m.pb && !m.pc
    ensures Row(m, Cell(0, 0, 0), 0, 0, Width) == [0, 1]
  {
    var c := Cell(0, 0, 0);
    RowBlocks(m, c, 0, 0);
    BlockRejected(m, c, 0, 0, -1);
    UnitBlock(m, 3, 3, c, 0, 0, 0, 0, 0, 0);
    UnitBlock(m, 3, 3, c, 0, 0, 1, 0, 0, 1);
  }

  /** Periodic-b scenario, the row of offsets (da, db) = (0, 1). */
  lemma PeriodicBRowLevelAbove(m: LatticeMap)
    requires m.basis == 1 && m.na == 3 && m.nb == 3 && m.nc == 3 && !m.pa && m.pb && !m.pc
    ensures Row(m, Cell(0, 0, 0), 0, 1, Width) == [3, 4]
  {
    var c := Cell(0, 0, 0);
    RowBlocks(m, c, 0, 1);
    BlockRejected(m, c, 0, 1, -1);
    UnitBlock(m, 3, 3, c, 0, 1, 0, 0, 1, 0);
    UnitBlock(m, 3, 3, c, 0, 1, 1, 0, 1, 1);
  }

  /** Periodic-b scenario, the plane of offset da = 0. */
  lemma PeriodicBPlaneLevel(m: LatticeMap)
    requires m.basis == 1 && m.na == 3 && m.nb == 3 && m.nc == 3 && !m.pa && m.pb && !m.pc
    ensures Plane(m, Cell(0, 0, 0), 0, Width) == [6, 7, 0, 1, 3, 4]
  {
    PlaneRows(m, Cell(0, 0, 0), 0);
    PeriodicBRowLevelBelow(m);
    PeriodicBRowLevelLevel(m);
    PeriodicBRowLevelAbove(m);
  }

  /** Periodic-b scenario, the row of offsets (da, db) = (1, -1). */
  lemma PeriodicBRowAboveBelow(m: LatticeMap)
    requires m.basis == 1 && m.na == 3 && m.nb == 3 && m.nc == 3 && !m.pa && m.pb && !m.pc
    ensures Row(m, Cell(0, 0, 0), 1, -1, Width) == [15, 16]
  {
    var c := Cell(0, 0, 0);
    RowBlocks(m, c, 1, -1);
    BlockRejected(m, c, 1, -1, -1);
    UnitBlock(m, 3, 3, c, 1, -1, 0, 1, 2, 0);
    UnitBlock(m, 3, 3, c, 1, -1, 1, 1, 2, 1);
  }

  /** Periodic-b scenario, the row of offsets (da, db) = (1, 0). */
  lemma PeriodicBRowAboveLevel(m: LatticeMap)
    requires m.basis == 1 && m.na == 3 && m.nb == 3 && m.nc == 3 && !m.pa && m.pb && !m.pc
    ensures Row(m, Cell(0, 0, 0), 1, 0, Width) == [9, 10]
  {
    var c := Cell(0, 0, 0);
    RowBlocks(m, c, 1, 0);
    BlockRejected(m, c, 1, 0, -1);
    UnitBlock(m, 3, 3, c, 1, 0, 0, 1, 0, 0);
    UnitBlock(m, 3, 3, c, 1, 0, 1, 1, 0, 1);
  }

  /** Periodic-b scenario, the row of offsets (da, db) = (1, 1). */
  lemma PeriodicBRowAboveAbove(m: LatticeMap)
    requires m.basis == 1 && m.na == 3 && m.nb == 3 && m.nc == 3 && !m.pa && m.pb && !m.pc
    ensures Row(m, Cell(0, 0, 0), 1, 1, Width) == [12, 13]
  {
    var c := Cell(0, 0, 0);
    RowBlocks(m, c, 1, 1);
    BlockRejected(m, c, 1, 1, -1);
    UnitBlock(m, 3, 3, c, 1, 1, 0, 1, 1, 0);
    UnitBlock(m, 3, 3, c, 1, 1, 1, 1, 1, 1);
  }

  /** Periodic-b scenario, the plane of offset da = 1. */
  lemma PeriodicBPlaneAbove(m: LatticeMap)
    requires m.basis == 1 && m.na == 3 && m.nb == 3 && m.nc == 3 && !m.pa && m.pb && !m.pc
    ensures Plane(m, Cell(0, 0, 0), 1, Width) == [15, 16, 9, 10, 12, 13]
  {
    PlaneRows(m, Cell(0, 0, 0), 1);
    PeriodicBRowAboveBelow(m);
    PeriodicBRowAboveLevel(m);
    PeriodicBRowAboveAbove(m);
  }

  /** Periodic-b scenario, the three planes joined in enumeration order. */
  lemma PeriodicBOrder()
    ensures [] + [6, 7, 0, 1, 3, 4] + [15, 16, 9, 10, 12, 13] ==
            [6, 7, 0, 1, 3, 4, 15, 16, 9, 10, 12, 13]
  {
  }

  /** Periodic-b scenario on any map with these parameters. */
  lemma PeriodicBStencil(m: LatticeMap)
    requires m.basis == 1 && m.na == 3 && m.nb == 3 && m.nc == 3 && !m.pa && m.pb && !m.pc
    ensures StencilOf(m, 0) == [6, 7, 0, 1, 3, 4, 15, 16, 9, 10, 12, 13]
  {
    assert m.CellAt(0) == Cell(0, 0, 0);
    PeriodicBPlaneBelow(m);
    PeriodicBPlaneLevel(m);
    PeriodicBPlaneAbove(m);
    StencilFromPlanes(m, 0, Cell(0, 0, 0), [], [6, 7, 0, 1, 3, 4], [15, 16, 9, 10, 12, 13]);
    PeriodicBOrder();
  }

  /** 3 x 3 x 3 cells, basis 1, periodic along b only: the 12 neighbours of
      site 0, in enumeration order. */
  lemma PeriodicBScenario()
    ensures var r := Create(1, [3, 3, 3], [false, true, false]);
            r.Success? && StencilOf(r.value, 0) == [6, 7, 0, 1, 3, 4, 15, 16, 9, 10, 12, 13]
  {
    PeriodicBStencil(Create(1, [3, 3, 3], [false, true, false]).value);
  }

  /** Periodic-b basis-2 scenario, the row of offsets (da, db) = (-1, -1). */
  lemma PeriodicBBasisTwoRowBelowBelow(m: LatticeMap)
    requires m.basis == 2 && m.na == 3 && m.nb == 3 && m.nc == 3 && !m.pa && m.pb && !m.pc
    ensures Row(m, Cell(0, 0, 0), -1, -1, Width) == []
  {
    var c := Cell(0, 0, 0);
    RowBlocks(m, c, -1, -1);
    BlockRejected(m, c, -1, -1, -1);
    BlockRejected(m, c, -1, -1, 0);
    BlockRejected(m, c, -1, -1, 1);
  }

  /** Periodic-b basis-2 scenario, the row of offsets (da, db) = (-1, 0). */
  lemma PeriodicBBasisTwoRowBelowLevel(m: LatticeMap)
    requires m.basis == 2 && m.na == 3 && m.nb == 3 && m.nc == 3 && !m.pa && m.pb && !m.pc
    ensures Row(m, Cell(0, 0, 0), -1, 0, Width) == []
  {
    var c := Cell(0, 0, 0);
    RowBlocks(m, c, -1, 0);
    BlockRejected(m, c, -1, 0, -1);
    BlockRejected(m, c, -1, 0, 0);
    BlockRejected(m, c, -1, 0, 1);
  }

  /** Periodic-b basis-2 scenario, the row of offsets (da, db) = (-1, 1). */
  lemma PeriodicBBasisTwoRowBelowAbove(m: LatticeMap)
    requires m.basis == 2 && m.na == 3 && m.nb == 3 && m.nc == 3 && !m.pa && m.pb && !m.pc
    ensures Row(m, Cell(0, 0, 0), -1, 1, Width) == []
  {
    var c := Cell(0, 0, 0);
    RowBlocks(m, c, -1, 1);
    BlockRejected(m, c, -1, 1, -1);
    BlockRejected(m, c, -1, 1, 0);
    BlockRejected(m, c, -1, 1, 1);
  }

  /** Periodic-b basis-2 scenario, the plane of offset da = -1. */
  lemma PeriodicBBasisTwoPlaneBelow(m: LatticeMap)
    requires m.basis == 2 && m.na == 3 && m.nb == 3 && m.nc == 3 && !m.pa && m.pb && !m.pc
    ensures Plane(m, Cell(0, 0, 0), -1, Width) == []
  {
    PlaneRows(m, Cell(0, 0, 0), -1);
    PeriodicBBasisTwoRowBelowBelow(m);
    PeriodicBBasisTwoRowBelowLevel(m);
    PeriodicBBasisTwoRowBelowAbove(m);
  }

  /** Periodic-b basis-2 scenario, the row of offsets (da, db) = (0, -1). */
  lemma PeriodicBBasisTwoRowLevelBelow(m: LatticeMap)
    requires m.basis == 2 && m.na == 3 && m.nb == 3 && m.nc == 3 && !m.pa && m.pb && !m.pc
    ensures Row(m, Cell(0, 0, 0), 0, -1, Width) == [12, 13, 14, 15]
  {
    var c := Cell(0, 0, 0);
    RowBlocks(m, c, 0, -1);
    BlockRejected(m, c, 0, -1, -1);
    PairBlock(m, 3, 3, c, 0, -1, 0, 0, 2, 0);
    PairBlock(m, 3, 3, c, 0, -1, 1, 0, 2, 1);
  }

  /** Periodic-b basis-2 scenario, the row of offsets (da, db) = (0, 0). */
  lemma PeriodicBBasisTwoRowLevelLevel(m: LatticeMap)
    requires m.basis == 2 && m.na == 3 && m.nb == 3 && m.nc == 3 && !m.pa && m.pb && !m.pc
    ensures Row(m, Cell(0, 0, 0), 0, 0, Width) == [0, 1, 2, 3]
  {
    var c := Cell(0, 0, 0);
    RowBlocks(m, c, 0, 0);
    BlockRejected(m, c, 0, 0, -1);
    PairBlock(m, 3, 3, c, 0, 0, 0, 0, 0, 0);
    PairBlock(m, 3, 3, c, 0, 0, 1, 0, 0, 1);
  }

  /** Periodic-b basis-2 scenario, the row of offsets (da, db) = (0, 1). */
  lemma PeriodicBBasisTwoRowLevelAbove(m: LatticeMap)
    requires m.basis == 2 && m.na == 3 && m.nb == 3 && m.nc == 3 && !m.pa && m.pb && !m.pc
    ensures Row(m, Cell(0, 0, 0), 0, 1, Width) == [6, 7, 8, 9]
  {
    var c := Cell(0, 0, 0);
    RowBlocks(m, c, 0, 1);
    BlockRejected(m, c, 0, 1, -1);
    PairBlock(m, 3, 3, c, 0, 1, 0, 0, 1, 0);
    PairBlock(m, 3, 3, c, 0, 1, 1, 0, 1, 1);
  }

  /** Periodic-b basis-2 scenario, the plane of offset da = 0. */
  lemma PeriodicBBasisTwoPlaneLevel(m: LatticeMap)
    requires m.basis == 2 && m.na == 3 && m.nb == 3 && m.nc == 3 && !m.pa && m.pb && !m.pc
    ensures Plane(m, Cell(0, 0, 0), 0, Width) == [12, 13, 14, 15, 0, 1, 2, 3, 6, 7, 8, 9]
  {
    PlaneRows(m, Cell(0, 0, 0), 0);
    PeriodicBBasisTwoRowLevelBelow(m);
    PeriodicBBasisTwoRowLevelLevel(m);
    PeriodicBBasisTwoRowLevelAbove(m);
  }

  /** Periodic-b basis-2 scenario, the row of offsets (da, db) = (1, -1). */
  lemma PeriodicBBasisTwoRowAboveBelow(m: LatticeMap)
    requires m.basis == 2 && m.na == 3 && m.nb == 3 && m.nc == 3 && !m.pa && m.pb && !m.pc
    ensures Row(m, Cell(0, 0, 0), 1, -1, Width) == [30, 31, 32, 33]
  {
    var c := Cell(0, 0, 0);
    RowBlocks(m, c, 1, -1);
    BlockRejected(m, c, 1, -1, -1);
    PairBlock(m, 3, 3, c, 1, -1, 0, 1, 2, 0);
    PairBlock(m, 3, 3, c, 1, -1, 1, 1, 2, 1);
  }

  /** Periodic-b basis-2 scenario, the row of offsets (da, db) = (1, 0). */
  lemma PeriodicBBasisTwoRowAboveLevel(m: LatticeMap)
    requires m.basis == 2 && m.na == 3 && m.nb == 3 && m.nc == 3 && !m.pa && m.pb && !m.pc
    ensures Row(m, Cell(0, 0, 0), 1, 0, Width) == [18, 19, 20, 21]
  {
    var c := Cell(0, 0, 0);
    RowBlocks(m, c, 1, 0);
    BlockRejected(m, c, 1, 0, -1);
    PairBlock(m, 3, 3, c, 1, 0, 0, 1, 0, 0);
    PairBlock(m, 3, 3, c, 1, 0, 1, 1, 0, 1);
  }

  /** Periodic-b basis-2 scenario, the row of offsets (da, db) = (1, 1). */
  lemma PeriodicBBasisTwoRowAboveAbove(m: LatticeMap)
    requires m.basis == 2 && m.na == 3 && m.nb == 3 && m.nc == 3 && !m.pa && m.pb && !m.pc
    ensures Row(m, Cell(0, 0, 0), 1, 1, Width) == [24, 25, 26, 27]
  {
    var c := Cell(0, 0, 0);
    RowBlocks(m, c, 1, 1);
    BlockRejected(m, c, 1, 1, -1);
    PairBlock(m, 3, 3, c, 1, 1, 0, 1, 1, 0);
    PairBlock(m, 3, 3, c, 1, 1, 1, 1, 1, 1);
  }

  /** Periodic-b basis-2 scenario, the plane of offset da = 1. */
  lemma PeriodicBBasisTwoPlaneAbove(m: LatticeMap)
    requires m.basis == 2 && m.na == 3 && m.nb == 3 && m.nc == 3 && !m.pa && m.pb && !m.pc
    ensures Plane(m, Cell(0, 0, 0), 1, Width) == [30, 31, 32, 33, 18, 19, 20, 21, 24, 25, 26, 27]
  {
    PlaneRows(m, Cell(0, 0, 0), 1);
    PeriodicBBasisTwoRowAboveBelow(m);
    PeriodicBBasisTwoRowAboveLevel(m);
    PeriodicBBasisTwoRowAboveAbove(m);
  }

  /** Periodic-b basis-2 scenario, the three planes joined in enumeration order. */
  lemma PeriodicBBasisTwoOrder()
    ensures [] + [12, 13, 14, 15, 0, 1, 2, 3, 6, 7, 8, 9] + [30, 31, 32, 33, 18, 19, 20, 21, 24, 25, 26, 27] ==
            [12, 13, 14, 15, 0, 1, 2, 3, 6, 7, 8, 9, 30, 31, 32, 33, 18, 19, 20, 21, 24, 25, 26, 27]
  {
  }

  /** Periodic-b basis-2 scenario on any map with these parameters. */
  lemma PeriodicBBasisTwoStencil(m: LatticeMap)
    requires m.basis == 2 && m.na == 3 && m.nb == 3 && m.nc == 3 && !m.pa && m.pb && !m.pc
    ensures StencilOf(m, 0) == [12, 13, 14, 15, 0, 1, 2, 3, 6, 7, 8, 9, 30, 31, 32, 33, 18, 19, 20, 21, 24, 25, 26, 27]
  {
    assert m.CellAt(0) == Cell(0, 0, 0);
    PeriodicBBasisTwoPlaneBelow(m);
    PeriodicBBasisTwoPlaneLevel(m);
    PeriodicBBasisTwoPlaneAbove(m);
    StencilFromPlanes(m, 0, Cell(0, 0, 0), [], [12, 13, 14, 15, 0, 1, 2, 3, 6, 7, 8, 9], [30, 31, 32, 33, 18, 19, 20, 21, 24, 25, 26, 27]);
    PeriodicBBasisTwoOrder();
  }

  /** As above with basis 2: twice as many neighbours, each cell's two
      sites in ascending basis order. */
  lemma PeriodicBBasisTwoScenario()
    ensures var r := Create(2, [3, 3, 3], [false, true, false]);
            r.Success? && StencilOf(r.value, 0) == [12, 13, 14, 15, 0, 1, 2, 3, 6, 7, 8, 9, 30, 31, 32, 33, 18, 19, 20, 21, 24, 25, 26, 27]
  {
    PeriodicBBasisTwoStencil(Create(2, [3, 3, 3], [false, true, false]).value);
  }

  /** Single-cell scenario, the row of offsets (da, db) = (-1, -1). */
  lemma SingleCellRowBelowBelow(m: LatticeMap)
    requires m.basis == 2 && m.na == 1 && m.nb == 1 && m.nc == 1 && !m.pa && !m.pb && !m.pc
    ensures Row(m, Cell(0, 0, 0), -1, -1, Width) == []
  {
    var c := Cell(0, 0, 0);
    RowBlocks(m, c, -1, -1);
    BlockRejected(m, c, -1, -1, -1);
    BlockRejected(m, c, -1, -1, 0);
    BlockRejected(m, c, -1, -1, 1);
  }

  /** Single-cell scenario, the row of offsets (da, db) = (-1, 0). */
  lemma SingleCellRowBelowLevel(m: LatticeMap)
    requires m.basis == 2 && m.na == 1 && m.nb == 1 && m.nc == 1 && !m.pa && !m.pb && !m.pc
    ensures Row(m, Cell(0, 0, 0), -1, 0, Width) == []
  {
    var c := Cell(0, 0, 0);
    RowBlocks(m, c, -1, 0);
    BlockRejected(m, c, -1, 0, -1);
    BlockRejected(m, c, -1, 0, 0);
    BlockRejected(m, c, -1, 0, 1);
  }

  /** Single-cell scenario, the row of offsets (da, db) = (-1, 1). */
  lemma SingleCellRowBelowAbove(m: LatticeMap)
    requires m.basis == 2 && m.na == 1 && m.nb == 1 && m.nc == 1 && !m.pa && !m.pb && !m.pc
    ensures Row(m, Cell(0, 0, 0), -1, 1, Width) == []
  {
    var c := Cell(0, 0, 0);
    RowBlocks(m, c, -1, 1);
    BlockRejected(m, c, -1, 1, -1);
    BlockRejected(m, c, -1, 1, 0);
    BlockRejected(m, c, -1, 1, 1);
  }

  /** Single-cell scenario, the plane of offset da = -1. */
  lemma SingleCellPlaneBelow(m: LatticeMap)
    requires m.basis == 2 && m.na == 1 && m.nb == 1 && m.nc == 1 && !m.pa && !m.pb && !m.pc
    ensures Plane(m, Cell(0, 0, 0), -1, Width) == []
  {
    PlaneRows(m, Cell(0, 0, 0), -1);
    SingleCellRowBelowBelow(m);
    SingleCellRowBelowLevel(m);
    SingleCellRowBelowAbove(m);
  }

  /** Single-cell scenario, the row of offsets (da, db) = (0, -1). */
  lemma SingleCellRowLevelBelow(m: LatticeMap)
    requires m.basis == 2 && m.na == 1 && m.nb == 1 && m.nc == 1 && !m.pa && !m.pb && !m.pc
    ensures Row(m, Cell(0, 0, 0), 0, -1, Width) == []
  {
    var c := Cell(0, 0, 0);
    RowBlocks(m, c, 0, -1);
    BlockRejected(m, c, 0, -1, -1);
    BlockRejected(m, c, 0, -1, 0);
    BlockRejected(m, c, 0, -1, 1);
  }

  /** Single-cell scenario, the row of offsets (da, db) = (0, 0). */
  lemma SingleCellRowLevelLevel(m: LatticeMap)
    requires m.basis == 2 && m.na == 1 && m.nb == 1 && m.nc == 1 && !m.pa && !m.pb && !m.pc
    ensures Row(m, Cell(0, 0, 0), 0, 0, Width) == [0, 1]
  {
    var c := Cell(0, 0, 0);
    RowBlocks(m, c, 0, 0);
    BlockRejected(m, c, 0, 0, -1);
    PairBlock(m, 1, 1, c, 0, 0, 0, 0, 0, 0);
    BlockRejected(m, c, 0, 0, 1);
  }

  /** Single-cell scenario, the row of offsets (da, db) = (0, 1). */
  lemma SingleCellRowLevelAbove(m: LatticeMap)
    requires m.basis == 2 && m.na == 1 && m.nb == 1 && m.nc == 1 && !m.pa && !m.pb && !m.pc
    ensures Row(m, Cell(0, 0, 0), 0, 1, Width) == []
  {
    var c := Cell(0, 0, 0);
    RowBlocks(m, c, 0, 1);
    BlockRejected(m, c, 0, 1, -1);
    BlockRejected(m, c, 0, 1, 0);
    BlockRejected(m, c, 0, 1, 1);
  }

  /** Single-cell scenario, the plane of offset da = 0. */
  lemma SingleCellPlaneLevel(m: LatticeMap)
    requires m.basis == 2 && m.na == 1 && m.nb == 1 && m.nc == 1 && !m.pa && !m.pb && !m.pc
    ensures Plane(m, Cell(0, 0, 0), 0, Width) == [0, 1]
  {
    PlaneRows(m, Cell(0, 0, 0), 0);
    SingleCellRowLevelBelow(m);
    SingleCellRowLevelLevel(m);
    SingleCellRowLevelAbove(m);
  }

  /** Single-cell scenario, the row of offsets (da, db) = (1, -1). */
  lemma SingleCellRowAboveBelow(m: LatticeMap)
    requires m.basis == 2 && m.na == 1 && m.nb == 1 && m.nc == 1 && !m.pa && !m.pb && !m.pc
    ensures Row(m, Cell(0, 0, 0), 1, -1, Width) == []
  {
    var c := Cell(0, 0, 0);
    RowBlocks(m, c, 1, -1);
    BlockRejected(m, c, 1, -1, -1);
    BlockRejected(m, c, 1, -1, 0);
    BlockRejected(m, c, 1, -1, 1);
  }

  /** Single-cell scenario, the row of offsets (da, db) = (1, 0). */
  lemma SingleCellRowAboveLevel(m: LatticeMap)
    requires m.basis == 2 && m.na == 1 && m.nb == 1 && m.nc == 1 && !m.pa && !m.pb && !m.pc
    ensures Row(m, Cell(0, 0, 0), 1, 0, Width) == []
  {
    var c := Cell(0, 0, 0);
    RowBlocks(m, c, 1, 0);
    BlockRejected(m, c, 1, 0, -1);
    BlockRejected(m, c, 1, 0, 0);
    BlockRejected(m, c, 1, 0, 1);
  }

  /** Single-cell scenario, the row of offsets (da, db) = (1, 1). */
  lemma SingleCellRowAboveAbove(m: LatticeMap)
    requires m.basis == 2 && m.na == 1 && m.nb == 1 && m.nc == 1 && !m.pa && !m.pb && !m.pc
    ensures Row(m, Cell(0, 0, 0), 1, 1, Width) == []
  {
    var c := Cell(0, 0, 0);
    RowBlocks(m, c, 1, 1);
    BlockRejected(m, c, 1, 1, -1);
    BlockRejected(m, c, 1, 1, 0);
    BlockRejected(m, c, 1, 1, 1);
  }

  /** Single-cell scenario, the plane of offset da = 1. */
  lemma SingleCellPlaneAbove(m: LatticeMap)
    requires m.basis == 2 && m.na == 1 && m.nb == 1 && m.nc == 1 && !m.pa && !m.pb && !m.pc
    ensures Plane(m, Cell(0, 0, 0), 1, Width) == []
  {
    PlaneRows(m, Cell(0, 0, 0), 1);
    SingleCellRowAboveBelow(m);
    SingleCellRowAboveLevel(m);
    SingleCellRowAboveAbove(m);
  }

  /** Single-cell scenario, the three planes joined in enumeration order. */
  lemma SingleCellOrder()
    ensures [] + [0, 1] + [] ==
            [0, 1]
  {
  }

  /** Single-cell scenario on any map with these parameters. */
  lemma SingleCellStencil(m: LatticeMap)
    requires m.basis == 2 && m.na == 1 && m.nb == 1 && m.nc == 1 && !m.pa && !m.pb && !m.pc
    ensures StencilOf(m, 0) == [0, 1]
  {
    assert m.CellAt(0) == Cell(0, 0, 0);
    SingleCellPlaneBelow(m);
    SingleCellPlaneLevel(m);
    SingleCellPlaneAbove(m);
    StencilFromPlanes(m, 0, Cell(0, 0, 0), [], [0, 1], []);
    SingleCellOrder();
  }

  /** Free lattice of a single cell, basis 2: every offset but (0, 0, 0) leaves
      the grid, and the neighbours of site 0 are the two sites of the lattice. */
  lemma SingleCellScenario()
    ensures var r := Create(2, [1, 1, 1], [false, false, false]);
            r.Success? && StencilOf(r.value, 0) == [0, 1]
  {
    SingleCellStencil(Create(2, [1, 1, 1], [false, false, false]).value);
  }

  /** Two-cell scenario, the row of offsets (da, db) = (-1, -1). */
  lemma TwoCellRowBelowBelow(m: LatticeMap)
    requires m.basis == 2 && m.na == 1 && m.nb == 1 && m.nc == 2 && !m.pa && !m.pb && !m.pc
    ensures Row(m, Cell(0, 0, 0), -1, -1, Width) == []
  {
    var c := Cell(0, 0, 0);
    RowBlocks(m, c, -1, -1);
    BlockRejected(m, c, -1, -1, -1);
    BlockRejected(m, c, -1, -1, 0);
    BlockRejected(m, c, -1, -1, 1);
  }

  /** Two-cell scenario, the row of offsets (da, db) = (-1, 0). */
  lemma TwoCellRowBelowLevel(m: LatticeMap)
    requires m.basis == 2 && m.na == 1 && m.nb == 1 && m.nc == 2 && !m.pa && !m.pb && !m.pc
    ensures Row(m, Cell(0, 0, 0), -1, 0, Width) == []
  {
    var c := Cell(0, 0, 0);
    RowBlocks(m, c, -1, 0);
    BlockRejected(m, c, -1, 0, -1);
    BlockRejected(m, c, -1, 0, 0);
    BlockRejected(m, c, -1, 0, 1);
  }

  /** Two-cell scenario, the row of offsets (da, db) = (-1, 1). */
  lemma TwoCellRowBelowAbove(m: LatticeMap)
    requires m.basis == 2 && m.na == 1 && m.nb == 1 && m.nc == 2 && !m.pa && !m.pb && !m.pc
    ensures Row(m, Cell(0, 0, 0), -1, 1, Width) == []
  {
    var c := Cell(0, 0, 0);
    RowBlocks(m, c, -1, 1);
    BlockRejected(m, c, -1, 1, -1);
    BlockRejected(m, c, -1, 1, 0);
    BlockRejected(m, c, -1, 1, 1);
  }

  /** Two-cell scenario, the plane of offset da = -1. */
  lemma TwoCellPlaneBelow(m: LatticeMap)
    requires m.basis == 2 && m.na == 1 && m.nb == 1 && m.nc == 2 && !m.pa && !m.pb && !m.pc
    ensures Plane(m, Cell(0, 0, 0), -1, Width) == []
  {
    PlaneRows(m, Cell(0, 0, 0), -1);
    TwoCellRowBelowBelow(m);
    TwoCellRowBelowLevel(m);
    TwoCellRowBelowAbove(m);
  }

  /** Two-cell scenario, the row of offsets (da, db) = (0, -1). */
  lemma TwoCellRowLevelBelow(m: LatticeMap)
    requires m.basis == 2 && m.na == 1 && m.nb == 1 && m.nc == 2 && !m.pa && !m.pb && !m.pc
    ensures Row(m, Cell(0, 0, 0), 0, -1, Width) == []
  {
    var c := Cell(0, 0, 0);
    RowBlocks(m, c, 0, -1);
    BlockRejected(m, c, 0, -1, -1);
    BlockRejected(m, c, 0, -1, 0);
    BlockRejected(m, c, 0, -1, 1);
  }

  /** Two-cell scenario, the row of offsets (da, db) = (0, 0). */
  lemma TwoCellRowLevelLevel(m: LatticeMap)
    requires m.basis == 2 && m.na == 1 && m.nb == 1 && m.nc == 2 && !m.pa && !m.pb && !m.pc
    ensures Row(m, Cell(0, 0, 0), 0, 0, Width) == [0, 1, 2, 3]
  {
    var c := Cell(0, 0, 0);
    RowBlocks(m, c, 0, 0);
    BlockRejected(m, c, 0, 0, -1);
    PairBlock(m, 1, 2, c, 0, 0, 0, 0, 0, 0);
    PairBlock(m, 1, 2, c, 0, 0, 1, 0, 0, 1);
  }

  /** Two-cell scenario, the row of offsets (da, db) = (0, 1). */
  lemma TwoCellRowLevelAbove(m: LatticeMap)
    requires m.basis == 2 && m.na == 1 && m.nb == 1 && m.nc == 2 && !m.pa && !m.pb && !m.pc
    ensures Row(m, Cell(0, 0, 0), 0, 1, Width) == []
  {
    var c := Cell(0, 0, 0);
    RowBlocks(m, c, 0, 1);
    BlockRejected(m, c, 0, 1, -1);
    BlockRejected(m, c, 0, 1, 0);
    BlockRejected(m, c, 0, 1, 1);
  }

  /** Two-cell scenario, the plane of offset da = 0. */
  lemma TwoCellPlaneLevel(m: LatticeMap)
    requires m.basis == 2 && m.na == 1 && m.nb == 1 && m.nc == 2 && !m.pa && !m.pb && !m.pc
    ensures Plane(m, Cell(0, 0, 0), 0, Width) == [0, 1, 2, 3]
  {
    PlaneRows(m, Cell(0, 0, 0), 0);
    TwoCellRowLevelBelow(m);
    TwoCellRowLevelLevel(m);
    TwoCellRowLevelAbove(m);
  }

  /** Two-cell scenario, the row of offsets (da, db) = (1, -1). */
  lemma TwoCellRowAboveBelow(m: LatticeMap)
    requires m.basis == 2 && m.na == 1 && m.nb == 1 && m.nc == 2 && !m.pa && !m.pb && !m.pc
    ensures Row(m, Cell(0, 0, 0), 1, -1, Width) == []
  {
    var c := Cell(0, 0, 0);
    RowBlocks(m, c, 1, -1);
    BlockRejected(m, c, 1, -1, -1);
    BlockRejected(m, c, 1, -1, 0);
    BlockRejected(m, c, 1, -1, 1);
  }

  /** Two-cell scenario, the row of offsets (da, db) = (1, 0). */
  lemma TwoCellRowAboveLevel(m: LatticeMap)
    requires m.basis == 2 && m.na == 1 && m.nb == 1 && m.nc == 2 && !m.pa && !m.pb && !m.pc
    ensures Row(m, Cell(0, 0, 0), 1, 0, Width) == []
  {
    var c := Cell(0, 0, 0);
    RowBlocks(m, c, 1, 0);
    BlockRejected(m, c, 1, 0, -1);
    BlockRejected(m, c, 1, 0, 0);
    BlockRejected(m, c, 1, 0, 1);
  }

  /** Two-cell scenario, the row of offsets (da, db) = (1, 1). */
  lemma TwoCellRowAboveAbove(m: LatticeMap)
    requires m.basis == 2 && m.na == 1 && m.nb == 1 && m.nc == 2 && !m.pa && !m.pb && !m.pc
    ensures Row(m, Cell(0, 0, 0), 1, 1, Width) == []
  {
    var c := Cell(0, 0, 0);
    RowBlocks(m, c, 1, 1);
    BlockRejected(m, c, 1, 1, -1);
    BlockRejected(m, c, 1, 1, 0);
    BlockRejected(m, c, 1, 1, 1);
  }

  /** Two-cell scenario, the plane of offset da = 1. */
  lemma TwoCellPlaneAbove(m: LatticeMap)
    requires m.basis == 2 && m.na == 1 && m.nb == 1 && m.nc == 2 && !m.pa && !m.pb && !m.pc
    ensures Plane(m, Cell(0, 0, 0), 1, Width) == []
  {
    PlaneRows(m, Cell(0, 0, 0), 1);
    TwoCellRowAboveBelow(m);
    TwoCellRowAboveLevel(m);
    TwoCellRowAboveAbove(m);
  }

  /** Two-cell scenario, the three planes joined in enumeration order. */
  lemma TwoCellOrder()
    ensures [] + [0, 1, 2, 3] + [] ==
            [0, 1, 2, 3]
  {
  }

  /** Two-cell scenario on any map with these parameters. */
  lemma TwoCellStencil(m: LatticeMap)
    requires m.basis == 2 && m.na == 1 && m.nb == 1 && m.nc == 2 && !m.pa && !m.pb && !m.pc
    ensures StencilOf(m, 1) == [0, 1, 2, 3]
  {
    assert m.CellAt(1) == Cell(0, 0, 0);
    TwoCellPlaneBelow(m);
    TwoCellPlaneLevel(m);
    TwoCellPlaneAbove(m);
    StencilFromPlanes(m, 1, Cell(0, 0, 0), [], [0, 1, 2, 3], []);
    TwoCellOrder();
  }

  /** Free lattice of 1 x 1 x 2 cells, basis 2: the neighbours of site 1 are
      the four sites of the lattice. */
  lemma TwoCellScenario()
    ensures var r := Create(2, [1, 1, 2], [false, false, false]);
            r.Success? && StencilOf(r.value, 1) == [0, 1, 2, 3]
  {
    TwoCellStencil(Create(2, [1, 1, 2], [false, false, false]).value);
  }
}
