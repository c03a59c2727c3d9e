/** The lattice map of the KMC engine: a grid of na x nb x nc repeated
    cells, each holding `basis` sites, with a periodicity flag per axis.
    A site (i, j, k, l) -- cell (i, j, k), basis site l -- has the global
    index ((i * nb + j) * nc + k) * basis + l: axis a most significant,
    then b, then c, the basis index innermost. */
module LatticeMaps {
  import opened Wrappers
  import opened Arith

  /** A cell of the grid, by its coordinate along the axes a, b and c. */
  datatype Cell = Cell(i: int, j: int, k: int)

  /** One basis site of one cell. */
  datatype Site = Site(i: int, j: int, k: int, l: int)
  {
    function CellOf(): Cell { Cell(i, j, k) }
  }

  /** Why a lattice map cannot be built. */
  datatype ConstructionError = BasisBelowOne | RepetitionBelowOne

  /** The construction parameters; none of them changes after construction. */
  datatype LatticeMap = LatticeMap(basis: int, na: int, nb: int, nc: int,
                                   pa: bool, pb: bool, pc: bool)
  {
    predicate Valid() { basis >= 1 && na >= 1 && nb >= 1 && nc >= 1 }

    /** Number of sites in the whole lattice. */
    function Total(): int { na * nb * nc * basis }

    function PeriodicA(): bool { pa }
    function PeriodicB(): bool { pb }
    function PeriodicC(): bool { pc }

    predicate ValidCell(c: Cell) { 0 <= c.i < na && 0 <= c.j < nb && 0 <= c.k < nc }

    predicate ValidSite(s: Site) { ValidCell(s.CellOf()) && 0 <= s.l < basis }

    /** Position of a cell in the row-major order of cells. */
    function CellNumber(c: Cell): int { (c.i * nb + c.j) * nc + c.k }

    /** The global index of a site; every site of the lattice gets one in [0, Total()). */
    function IndexOf(s: Site): (g: int)
      requires Valid() && ValidSite(s)
      ensures 0 <= g < Total()
    {
      MixedRadixBound(s.i, na, s.j, nb);
      MixedRadixBound(s.i * nb + s.j, na * nb, s.k, nc);
      MixedRadixBound(CellNumber(s.CellOf()), na * nb * nc, s.l, basis);
      CellNumber(s.CellOf()) * basis + s.l
    }

    /** Decodes a global index into its site; it is the inverse of IndexOf. */
    function SiteOf(g: int): (s: Site)
      requires Valid() && 0 <= g < Total()
      ensures ValidSite(s) && IndexOf(s) == g
    {
      var cell := g / basis;
      var rest := cell / nc;
      DivBound(g, basis, na * nb * nc);
      DivBound(cell, nc, na * nb);
      DivBound(rest, nb, na);
      assert rest == (rest / nb) * nb + rest % nb;
      assert cell == rest * nc + cell % nc;
      assert g == cell * basis + g % basis;
      Site(rest / nb, rest % nb, cell % nc, g % basis)
    }

    /** The cell holding global index g. */
    function CellAt(g: int): (c: Cell)
      requires Valid() && 0 <= g < Total()
      ensures ValidCell(c)
    {
      SiteOf(g).CellOf()
    }

    /** The basis sites of cell (i, j, k), as `basis` consecutive global
        indices of the lattice in ascending basis order. */
    function IndicesFromCell(i: int, j: int, k: int): (r: seq<int>)
      requires Valid() && ValidCell(Cell(i, j, k))
      ensures |r| == basis
      ensures forall l :: 0 <= l < basis ==> r[l] == r[0] + l && 0 <= r[l] < Total()
    {
      seq(basis, l requires 0 <= l < basis => IndexOf(Site(i, j, k, l)))
    }

    /** Basis site l of cell (i, j, k) decodes back to site (i, j, k, l). */
    lemma IndicesFromCellDecode(i: int, j: int, k: int)
      requires Valid() && ValidCell(Cell(i, j, k))
      ensures forall l :: 0 <= l < basis ==> SiteOf(IndicesFromCell(i, j, k)[l]) == Site(i, j, k, l)
    {
      forall l | 0 <= l < basis
        ensures SiteOf(IndicesFromCell(i, j, k)[l]) == Site(i, j, k, l)
      {
        SiteOfIndexOf(Site(i, j, k, l));
      }
    }

    /** Decoding after encoding gives back the site: IndexOf is injective. */
    lemma SiteOfIndexOf(s: Site)
      requires Valid() && ValidSite(s)
      ensures SiteOf(IndexOf(s)) == s
    {
      var g := IndexOf(s);
      var cell := CellNumber(s.CellOf());
      var rest := s.i * nb + s.j;
      DivModUnique(g, basis, cell, s.l);
      DivModUnique(cell, nc, rest, s.k);
      DivModUnique(rest, nb, s.i, s.j);
    }

    /** The next site in row-major order: basis index innermost, then c, b and a. */
    function NextSite(s: Site): Site
    {
      if s.l + 1 < basis then Site(s.i, s.j, s.k, s.l + 1)
      else if s.k + 1 < nc then Site(s.i, s.j, s.k + 1, 0)
      else if s.j + 1 < nb then Site(s.i, s.j + 1, 0, 0)
      else Site(s.i + 1, 0, 0, 0)
    }

    /** Enumerating the sites in row-major order counts 0, 1, 2, ...: the
        first site has index 0, each next site has the following index, and
        the enumeration leaves the lattice exactly after index Total() - 1. */
    lemma RowMajorCounter(s: Site)
      requires Valid() && ValidSite(s)
      ensures IndexOf(Site(0, 0, 0, 0)) == 0
      ensures ValidSite(NextSite(s)) <==> IndexOf(s) + 1 < Total()
      ensures ValidSite(NextSite(s)) ==> IndexOf(NextSite(s)) == IndexOf(s) + 1
    {
      var n := NextSite(s);
      var c := CellNumber(s.CellOf());
      var g := IndexOf(s);
      assert g == c * basis + s.l;
      if s.l + 1 < basis {
        assert IndexOf(n) == g + 1;
      } else {
        // the cell changes: the next site is basis site 0 of the next cell
        assert g + 1 == (c + 1) * basis by { MulSucc(c, basis); }
        if s.k + 1 < nc {
          assert CellNumber(n.CellOf()) == c + 1;
          assert ValidSite(n) && IndexOf(n) == g + 1;
        } else {
          var row := s.i * nb + s.j;
          assert c + 1 == (row + 1) * nc by { MulSucc(row, nc); }
          if s.j + 1 < nb {
            assert CellNumber(n.CellOf()) == (row + 1) * nc;
            assert ValidSite(n) && IndexOf(n) == g + 1;
          } else {
            assert row + 1 == (s.i + 1) * nb by { MulSucc(s.i, nb); }
            if s.i + 1 < na {
              assert CellNumber(n.CellOf()) == (s.i + 1) * nb * nc;
              assert ValidSite(n) && IndexOf(n) == g + 1;
            } else {
              assert row + 1 == na * nb;
              assert c + 1 == na * nb * nc;
              assert !ValidSite(n) && g + 1 == Total();
            }
          }
        }
      }
    }

    /** The same counter read through IndicesFromCell: walking the cells with
        i outermost, then j, then k, and the basis index innermost, entry l of
        the block of cell (i, j, k) counts 0, 1, 2, ... up to Total() - 1. */
    lemma IndicesFromCellCounter(s: Site)
      requires Valid() && ValidSite(s)
      ensures IndicesFromCell(0, 0, 0)[0] == 0
      ensures var n := NextSite(s);
              ValidSite(n) <==> IndicesFromCell(s.i, s.j, s.k)[s.l] + 1 < Total()
      ensures var n := NextSite(s);
              ValidSite(n) ==> IndicesFromCell(n.i, n.j, n.k)[n.l] == IndicesFromCell(s.i, s.j, s.k)[s.l] + 1
    {
      RowMajorCounter(s);
    }
  }

  /** Builds a lattice map; fails when the basis or a repetition count is below one. */
  function Create(basis: int, repetitions: seq<int>, periodicity: seq<bool>)
    : (r: Result<LatticeMap, ConstructionError>)
    requires |repetitions| == 3 && |periodicity| == 3
    ensures r.Success? <==> basis >= 1 && forall a :: 0 <= a < 3 ==> repetitions[a] >= 1
    ensures r.Failure? && basis < 1 ==> r.error == BasisBelowOne
    ensures r.Failure? && basis >= 1 ==> r.error == RepetitionBelowOne
    ensures r.Success? ==>
              r.value == LatticeMap(basis, repetitions[0], repetitions[1], repetitions[2],
                                    periodicity[0], periodicity[1], periodicity[2])
    ensures r.Success? ==> r.value.Valid()
    ensures r.Success? ==> r.value.Total() == repetitions[0] * repetitions[1] * repetitions[2] * basis
    ensures r.Success? ==>
              r.value.PeriodicA() == periodicity[0] &&
              r.value.PeriodicB() == periodicity[1] &&
              r.value.PeriodicC() == periodicity[2]
  {
    if basis < 1 then Failure(BasisBelowOne)
    else if repetitions[0] < 1 || repetitions[1] < 1 || repetitions[2] < 1 then Failure(RepetitionBelowOne)
    else Success(LatticeMap(basis, repetitions[0], repetitions[1], repetitions[2],
                            periodicity[0], periodicity[1], periodicity[2]))
  }

  /** Two maps with the same basis and repetitions, whatever their
      periodicity, give every cell the same indices. */
  lemma IndicesIgnorePeriodicity(m: LatticeMap, m': LatticeMap, c: Cell)
    requires m.Valid() && m.ValidCell(c)
    requires m'.basis == m.basis && m'.na == m.na && m'.nb == m.nb && m'.nc == m.nc
    ensures m'.Valid() && m'.IndicesFromCell(c.i, c.j, c.k) == m.IndicesFromCell(c.i, c.j, c.k)
  {
  }
}
