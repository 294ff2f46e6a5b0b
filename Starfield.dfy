/** The background starfield, generated once from draws of the C library's
    rand(). Each draw is taken as an arbitrary non-negative integer. */
module Starfield {

  datatype Star = Star(x: real, y: real, z: real, size: real)

  const NumStars: nat := 1000
  /** rand() is called four times per star: x, y, z, then size. */
  const DrawsPerStar: nat := 4

  /** One coordinate from one draw: (r % 2000 - 1000) / 100, a multiple of
      0.01 in [-10, 9.99]. */
  function Coordinate(r: nat): (v: real)
    ensures -10.0 <= v <= 9.99
    ensures (v * 100.0).Floor as real == v * 100.0
  {
    ((r % 2000) - 1000) as real / 100.0
  }

  /** Every grid point of the cube's edge is reached by some draw, so the
      range stated above is exact. */
  lemma CoordinateOnto(k: int)
    requires -1000 <= k <= 999
    ensures Coordinate((k + 1000) as nat) == k as real / 100.0
  {
  }

  /** A star's point size from one draw: 1, 2 or 3. */
  function Size(r: nat): (s: real)
    ensures s == 1.0 || s == 2.0 || s == 3.0
  {
    (r % 3 + 1) as real
  }

  predicate InCube(s: Star)
  {
    -10.0 <= s.x <= 9.99 && -10.0 <= s.y <= 9.99 && -10.0 <= s.z <= 9.99 &&
    (s.size == 1.0 || s.size == 2.0 || s.size == 3.0)
  }

  /** Star i built from its four draws. */
  function StarAt(draws: seq<nat>, i: nat): (s: Star)
    requires DrawsPerStar * i + DrawsPerStar <= |draws|
    ensures InCube(s)
  {
    var k := DrawsPerStar * i;
    Star(Coordinate(draws[k]), Coordinate(draws[k + 1]), Coordinate(draws[k + 2]), Size(draws[k + 3]))
  }

  /** The whole field, star by star in draw order. */
  function Field(draws: seq<nat>): (f: seq<Star>)
    requires |draws| == DrawsPerStar * NumStars
    ensures |f| == NumStars
    ensures forall i :: 0 <= i < |f| ==> InCube(f[i])
  {
    seq(NumStars, i requires 0 <= i < NumStars => StarAt(draws, i))
  }
}
