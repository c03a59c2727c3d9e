/** The construction and wrapping cases of the unit tests of the lattice map, stated and proved for the model. */
module Scenarios {
  import opened Wrappers
  import opened LatticeMaps
  import opened Wrapping

  /** The accessors report every mix of periodicity flags given at construction. */
  lemma AccessorScenario()
    ensures var r := Create(3, [3, 5, 6], [true, true, true]);
            r.Success? && r.value.PeriodicA() && r.value.PeriodicB() && r.value.PeriodicC()
    ensures var r := Create(3, [3, 5, 6], [false, true, true]);
            r.Success? && !r.value.PeriodicA() && r.value.PeriodicB() && r.value.PeriodicC()
    ensures var r := Create(3, [3, 5, 6], [false, false, true]);
            r.Success? && !r.value.PeriodicA() && !r.value.PeriodicB() && r.value.PeriodicC()
    ensures var r := Create(3, [3, 5, 6], [false, false, false]);
            r.Success? && !r.value.PeriodicA() && !r.value.PeriodicB() && !r.value.PeriodicC()
  {
  }

  /** Periodic lattice of 3 x 5 x 6 cells: single-period corrections. */
  lemma WrapScenarios()
    ensures var m := LatticeMap(3, 3, 5, 6, true, true, true);
            Wrapped(m, Point(1.5, 2.5, 3.0)) == Point(-1.5, -2.5, -3.0) &&
            Wrapped(m, Point(-1.5, -2.5, -3.0)) == Point(-1.5, -2.5, -3.0) &&
            Wrapped(m, Point(1.5, -2.5, 2.0)) == Point(-1.5, -2.5, 2.0) &&
            Wrapped(m, Point(-1.51, -2.5, 2.0)) == Point(1.49, -2.5, 2.0) &&
            Wrapped(m, Point(-1.47, 2.5, 2.0)) == Point(-1.47, -2.5, 2.0) &&
            Wrapped(m, Point(-1.47, -4.3, 2.0)) == Point(-1.47, 0.7, 2.0) &&
            Wrapped(m, Point(-1.47, 0.7, 3.001)) == Point(-1.47, 0.7, -2.999) &&
            Wrapped(m, Point(-1.47, 0.7, -3.001)) == Point(-1.47, 0.7, 2.999)
  {
  }

  /** A coordinate more than one period out is corrected by one period only,
      in place. */
  method WrapLongScenario() returns (c: Coordinate)
    ensures c.Value() == Point(1.5, 2.5, 9.0)
  {
    var m := LatticeMap(3, 3, 5, 6, true, true, true);
    c := new Coordinate(1.5 + 3.0, 2.5 + 5.0, 3.0 + 12.0);
    Wrap(m, c);
  }
}
