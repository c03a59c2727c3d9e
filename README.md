# LatticeMap — a verified model

KMCLib's `LatticeMap` is the index structure the kinetic Monte Carlo engine
uses to address the sites of a lattice. The lattice is a grid of
`na x nb x nc` repeated cells. Each cell holds `basis` sites, and each axis
has a periodicity flag. The map never changes after construction and answers
four kinds of query:

- the periodicity accessors `periodicA/B/C`;
- `indicesFromCell(i, j, k)`: the global indices of a cell's sites. Site
  `(i, j, k, l)` gets `((i*nb + j)*nc + k)*basis + l`: axis a is most
  significant, the basis index least;
- `neighbourIndices(g)`: the neighbour list of site `g`. It decodes the cell
  of `g`, then walks the offsets `da, db, dc` in `-1, 0, 1`, with `da`
  outermost. A periodic axis wraps the coordinate modulo its repetition
  count. A free axis rejects the whole offset when the coordinate leaves the
  grid. Each accepted offset appends its cell's sites in ascending basis
  order;
- `wrap(c)`: moves a coordinate into the canonical periodic image. Each
  periodic axis of `L` cells gets at most one correction: `x >= L/2` becomes
  `x - L`, and `x < -L/2` becomes `x + L`.

The behaviour comes from the unit tests in
`c++/unittest/test_latticemap.cpp`. The implementation files are not part of
this model.

Files:

- `wrappers.dfy`: `Option` and `Result`.
- `arith.dfy`: small lemmas on multiplication, division and mixed-radix
  numbers.
- `lattice_map.dfy` (module `LatticeMaps`): the map as an immutable
  datatype, with construction, accessors, the index encoding and its
  inverse.
- `neighbours.dfy` (module `NeighbourStencil`): the per-axis resolver, the
  neighbour list as a specification function, and `NeighbourIndices`, the
  imperative loop nest, proved equal to it. It also holds the membership and
  size theorems.
- `wrapping.dfy` (module `Wrapping`): `Coordinate` as a class with three
  real fields, and `Wrap`, which updates it in place. `Wrap` is proved
  against the pure `Wrapped`.
- `scenarios.dfy` and `stencil_scenarios.dfy`: the concrete test cases,
  stated and proved for the model. Each neighbour list is built from small lemmas, one
  per row of offsets.

## Model

| member | source | states |
|---|---|---|
| LatticeMaps.Create | c++/unittest/test_latticemap.cpp:25-34 | Construction succeeds exactly when basis and every repetition count are at least 1. A basis below 1 is reported as such, and otherwise a bad repetition count is reported as such. On success, the map holds exactly the given basis, repetition counts and flags; it is valid, its size is the product of the counts and the basis, and each accessor returns its own axis's flag. |
| Scenarios.AccessorScenario | c++/unittest/test_latticemap.cpp:36-57 | For the 3 x 5 x 6 map with basis 3, the four flag mixes that are tested construct successfully and report their flags per axis. |
| LatticeMaps.LatticeMap.IndexOf | c++/unittest/test_latticemap.cpp:66-85 | Every site of the lattice gets a global index in `[0, Total())`. |
| LatticeMaps.LatticeMap.SiteOf | c++/unittest/test_latticemap.cpp:76-154 | Decoding any index in `[0, Total())` gives a valid site whose encoding is that index, so the encoding is onto. |
| LatticeMaps.LatticeMap.SiteOfIndexOf | c++/unittest/test_latticemap.cpp:76-154 | Encoding and then decoding returns the site, so the encoding is one-to-one and is a bijection onto `[0, Total())`. |
| LatticeMaps.LatticeMap.IndicesFromCell | c++/unittest/test_latticemap.cpp:108-128 | A cell's block has `basis` entries. They are consecutive indices, all inside the lattice. |
| LatticeMaps.LatticeMap.IndicesFromCellDecode | c++/unittest/test_latticemap.cpp:108-128 | Entry `l` of the block of cell `(i, j, k)` decodes back to site `(i, j, k, l)`. |
| LatticeMaps.LatticeMap.RowMajorCounter | c++/unittest/test_latticemap.cpp:76-154 | In the order of the test's nested loops, the first site has index 0 and each next site has the next index. The walk leaves the lattice right after index `Total() - 1`. |
| LatticeMaps.LatticeMap.IndicesFromCellCounter | c++/unittest/test_latticemap.cpp:108-154 | The same counter, read as the test reads it: `indicesFromCell(i, j, k)[l]` counts 0, 1, 2, ... over the nested loops. This covers every size, including the 100 x 100 x 10 map with basis 12. |
| LatticeMaps.IndicesIgnorePeriodicity | c++/unittest/test_latticemap.cpp:87-105 | Two maps that differ only in periodicity give every cell the same indices. |
| NeighbourStencil.ResolveAxis | c++/unittest/test_latticemap.cpp:214-241 | Along one axis, a coordinate is accepted exactly when the axis is periodic or the coordinate stays in the grid. A step in range is kept. On a periodic axis, a step below 0 lands on `n - 1` and a step past the end lands on 0. |
| NeighbourStencil.AppendCell | c++/unittest/test_latticemap.cpp:268-290 | The basis loop appends exactly the cell's block to the list built so far, in ascending basis order. |
| NeighbourStencil.AppendRow | c++/unittest/test_latticemap.cpp:218-241 | The `dc` loop appends exactly the row specification for `(da, db)`. |
| NeighbourStencil.AppendPlane | c++/unittest/test_latticemap.cpp:218-241 | The `db` loop appends exactly the plane specification for `da`. |
| NeighbourStencil.NeighbourIndices | c++/unittest/test_latticemap.cpp:163-293 | The whole loop nest returns exactly `StencilOf(m, g)`, order and repetitions included, so every theorem below holds for it. |
| NeighbourStencil.NeighbourMembers | c++/unittest/test_latticemap.cpp:187-211 | An index is in the neighbour list of `g` exactly when it is a site of the lattice whose cell is at most one step from `g`'s cell on every axis. A step wraps round on a periodic axis and stops at the border of a free one. |
| NeighbourStencil.OwnCellIncluded | c++/unittest/test_latticemap.cpp:298-362 | The neighbour list always contains `g` and every other site of `g`'s own cell. |
| NeighbourStencil.SameCellIncluded | c++/unittest/test_latticemap.cpp:298-362 | Every site that shares `g`'s cell is in `g`'s neighbour list. |
| NeighbourStencil.Survivors | c++/unittest/test_latticemap.cpp:218-220 | On one axis, 3 offsets survive if the axis is periodic. On a free axis, 1 survives, plus 1 for each side that is not at the border. |
| NeighbourStencil.NeighbourCount | c++/unittest/test_latticemap.cpp:218-220 | The list length is the product of the per-axis survivor counts times the basis. For example, 27 - 15 = 12 for site 0 with only c periodic. |
| NeighbourStencil.PeriodicNeighbourCount | c++/unittest/test_latticemap.cpp:195-211 | On a fully periodic lattice, every query gives `27 * basis` entries, whatever the repetition counts. Cells reached twice on short periodic axes are not merged. |
| NeighbourStencil.FreeNeighbourCount | c++/unittest/test_latticemap.cpp:184-185 | On a fully free lattice with at least 2 cells per axis, a corner gives 8, an edge 12, a face 18 and an interior cell 27 blocks of `basis`. |
| StencilScenarios.CentralCellScenario | c++/unittest/test_latticemap.cpp:170-193 | On a free 3 x 3 x 3 map with basis 1, cell (1, 1, 1) holds index 13. Its neighbour list is exactly 0, 1, ..., 26 in that order. |
| StencilScenarios.PeriodicCornerScenario | c++/unittest/test_latticemap.cpp:198-211 | On a periodic 3 x 3 x 3 map, the neighbour list of site 26 is exactly `[13, 14, 12, 16, 17, 15, 10, 11, 9, 22, 23, 21, 25, 26, 24, 19, 20, 18, 4, 5, 3, 7, 8, 6, 1, 2, 0]`, the order of the loops. Sorted, it is 0 .. 26, as the test checks. |
| StencilScenarios.PeriodicCScenario | c++/unittest/test_latticemap.cpp:214-241 | With only c periodic, the neighbour list of site 0 is exactly `[2, 0, 1, 5, 3, 4, 11, 9, 10, 14, 12, 13]`. |
| StencilScenarios.PeriodicBScenario | c++/unittest/test_latticemap.cpp:243-266 | With only b periodic, the neighbour list of site 0 is exactly `[6, 7, 0, 1, 3, 4, 15, 16, 9, 10, 12, 13]`. |
| StencilScenarios.PeriodicBBasisTwoScenario | c++/unittest/test_latticemap.cpp:268-290 | With only b periodic and basis 2, the list has 24 entries. It begins `[12, 13, 14, 15, 0, 1, 2, 3, 6, 7, 8, 9]`, and each cell's two sites appear in ascending order. |
| StencilScenarios.SingleCellScenario | c++/unittest/test_latticemap.cpp:298-327 | On a free map of one cell with basis 2, every offset but (0, 0, 0) is rejected. The neighbours of site 0 are exactly `[0, 1]`. |
| StencilScenarios.TwoCellScenario | c++/unittest/test_latticemap.cpp:332-362 | On a free 1 x 1 x 2 map with basis 2, the neighbours of site 1 are exactly `[0, 1, 2, 3]`. |
| Wrapping.WrapComponent | c++/unittest/test_latticemap.cpp:380-460 | A component moves by at most one period. It stays put exactly when it is already in `[-L/2, L/2)`. It ends in that range exactly when it started in `[-3L/2, 3L/2)`. |
| Wrapping.Wrapped | c++/unittest/test_latticemap.cpp:380-460 | Components of free axes are untouched. A point is unchanged exactly when it is already canonical. The result is canonical exactly when every periodic component started less than one and a half periods out. |
| Wrapping.Wrap | c++/unittest/test_latticemap.cpp:380-389 | Wrapping the caller's coordinate in place leaves it equal to `Wrapped` of its old value. |
| Wrapping.WrapIdempotent | c++/unittest/test_latticemap.cpp:390-399 | For points that one correction can bring into range, wrapping twice equals wrapping once. |
| Wrapping.WrapSingleStep | c++/unittest/test_latticemap.cpp:466-495 | A component at or beyond one and a half periods moves by exactly one period and stays outside the canonical range. |
| Wrapping.WrapSingleStepBelow | c++/unittest/test_latticemap.cpp:466-495 | A component more than one and a half periods below zero moves up by exactly one period and stays outside the canonical range. |
| Scenarios.WrapScenarios | c++/unittest/test_latticemap.cpp:368-461 | On the periodic 3 x 5 x 6 map, the eight tested points wrap to the expected values. |
| Scenarios.WrapLongScenario | c++/unittest/test_latticemap.cpp:466-495 | Wrapping a coordinate at (4.5, 7.5, 15.0) in place gives (1.5, 2.5, 9.0), not the fully reduced (-1.5, -2.5, -3.0). |

## Left out

- The implementation files `latticemap.h`/`latticemap.cpp` and `coordinate.h`
  are not part of this model. The behaviour follows their unit tests.
- Floating point: `wrap` is modelled over exact reals. The tests compare
  within 1e-14.
- `wrap` on a free axis is never exercised. The model leaves such components
  unchanged.
- Construction failures are not exercised by the tests, which only check
  that valid arguments do not throw. The model assumes that a basis or a
  repetition count below 1 is an error, and `Create` returns an error
  result for it. How the C++ code signals such an error is not modelled.
- PeriodicNeighbourCount: on a periodic axis with only 1 or 2 cells, the
  model keeps the repeated blocks, so the count is still `27 * basis`. The
  tests never query such a lattice; not merging duplicates is an assumption
  of the model.
- Integer width: indices are unbounded integers. The C++ `int` overflow of
  huge maps is not modelled.
- The neighbour loop nest is split into one method per loop (`AppendCell`,
  `AppendRow`, `AppendPlane`, `NeighbourIndices`). The order of appends is
  unchanged.
- Queries with a cell or site index out of range are the caller's
  obligation. They appear as preconditions.
- The CppUnit harness and `std::sort` are not modelled. Every scenario
  states the exact list, which is stronger than the sorted comparison the
  tests make.
