/** Wrapping a coordinate into the canonical periodic image of the lattice:
    along a periodic axis of n cells the canonical range is [-n/2, n/2), and
    a component is corrected by at most one period, once. */
module Wrapping {
  import opened LatticeMaps

  /** A position, with one real component per axis a, b and c. */
  datatype Point = Point(x: real, y: real, z: real)

  /** The caller's coordinate, whose components Wrap updates in place. */
  class Coordinate {
    var x: real
    var y: real
    var z: real

    constructor (x0: real, y0: real, z0: real)
      ensures x == x0 && y == y0 && z == z0
    {
      x, y, z := x0, y0, z0;
    }

    function Value(): Point
      reads this
    {
      Point(x, y, z)
    }
  }

  /** v lies in the canonical range [-period/2, period/2). */
  predicate InCanonicalRange(v: real, period: real)
  {
    -period / 2.0 <= v < period / 2.0
  }

  /** One component wrapped once: it moves by one period when it lies at or
      beyond half a period, and stays put inside the canonical range. */
  function WrapComponent(v: real, period: real): (r: real)
    requires period > 0.0
    ensures r == v || r == v - period || r == v + period
    ensures r == v <==> InCanonicalRange(v, period)
    ensures -3.0 * period / 2.0 <= v < 3.0 * period / 2.0 <==> InCanonicalRange(r, period)
  {
    if v >= period / 2.0 then v - period
    else if v < -period / 2.0 then v + period
    else v
  }

  /** Every periodic component of p lies in its canonical range. */
  predicate Canonical(m: LatticeMap, p: Point)
  {
    (m.pa ==> InCanonicalRange(p.x, m.na as real)) &&
    (m.pb ==> InCanonicalRange(p.y, m.nb as real)) &&
    (m.pc ==> InCanonicalRange(p.z, m.nc as real))
  }

  /** Every periodic component of p is less than one and a half periods from the origin,
      on the same half-open terms as the canonical range. */
  predicate WithinOneCorrection(m: LatticeMap, p: Point)
  {
    (m.pa ==> InCanonicalRange(p.x, 3.0 * m.na as real)) &&
    (m.pb ==> InCanonicalRange(p.y, 3.0 * m.nb as real)) &&
    (m.pc ==> InCanonicalRange(p.z, 3.0 * m.nc as real))
  }

  /** The wrapped image of p: each periodic component wrapped once by the
      number of cells along its axis, the components of free axes untouched. */
  function Wrapped(m: LatticeMap, p: Point): (q: Point)
    requires m.Valid()
    ensures !m.pa ==> q.x == p.x
    ensures !m.pb ==> q.y == p.y
    ensures !m.pc ==> q.z == p.z
    ensures q == p <==> Canonical(m, p)
    ensures Canonical(m, q) <==> WithinOneCorrection(m, p)
  {
    Point(if m.pa then WrapComponent(p.x, m.na as real) else p.x,
          if m.pb then WrapComponent(p.y, m.nb as real) else p.y,
          if m.pc then WrapComponent(p.z, m.nc as real) else p.z)
  }

  /** Wraps the caller's coordinate in place, one axis after the other. */
  method Wrap(m: LatticeMap, c: Coordinate)
    requires m.Valid()
    modifies c
    ensures c.Value() == Wrapped(m, old(c.Value()))
  {
    if m.pa {
      var period := m.na as real;
      if c.x >= period / 2.0 {
        c.x := c.x - period;
      } else if c.x < -period / 2.0 {
        c.x := c.x + period;
      }
    }
    if m.pb {
      var period := m.nb as real;
      if c.y >= period / 2.0 {
        c.y := c.y - period;
      } else if c.y < -period / 2.0 {
        c.y := c.y + period;
      }
    }
    if m.pc {
      var period := m.nc as real;
      if c.z >= period / 2.0 {
        c.z := c.z - period;
      } else if c.z < -period / 2.0 {
        c.z := c.z + period;
      }
    }
  }

  /** Wrapping twice is wrapping once for every point that one correction
      brings into the canonical range. */
  lemma WrapIdempotent(m: LatticeMap, p: Point)
    requires m.Valid() && WithinOneCorrection(m, p)
    ensures Wrapped(m, Wrapped(m, p)) == Wrapped(m, p)
  {
  }

  /** The correction is applied only once: a component at or beyond one and
      a half periods is left outside the canonical range, a whole number of
      periods away from its canonical image. */
  lemma WrapSingleStep(v: real, period: real)
    requires period > 0.0 && v >= 3.0 * period / 2.0
    ensures WrapComponent(v, period) == v - period
    ensures !InCanonicalRange(WrapComponent(v, period), period)
  {
  }

  /** The mirror image of WrapSingleStep: a component more than one and a
      half periods below zero is moved up by exactly one period and stays
      outside the canonical range. */
  lemma WrapSingleStepBelow(v: real, period: real)
    requires period > 0.0 && v < -3.0 * period / 2.0
    ensures WrapComponent(v, period) == v + period
    ensures !InCanonicalRange(WrapComponent(v, period), period)
  {
  }
}
