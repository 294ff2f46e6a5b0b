/** The body registry and the per-tick kinematics of the simulation clock.
    Angles are in degrees; floating-point values are modelled as reals. */
module Bodies {

  /** One celestial body: fixed parameters plus the three fields the program
      changes while it runs (the two current angles and the visibility flag). */
  datatype Planet = Planet(
    name: string,
    radius: real,
    distance: real,
    orbitSpeed: real,
    rotationSpeed: real,
    red: real, green: real, blue: real,
    hasMoon: bool,
    isVisible: bool,
    currentOrbitAngle: real,
    currentRotationAngle: real,
    axialTilt: real)

  /** Degrees of orbit per unit of orbit speed and time speed in one tick. */
  const OrbitScale: real := 0.016
  /** Degrees of rotation per unit of rotation speed and time speed in one tick. */
  const RotationScale: real := 0.48
  /** The angle above which one full turn is taken off. */
  const FullTurn: real := 360.0

  /** The ten bodies, Sun first and then Mercury to Pluto, as the program starts. */
  function Table(): (t: seq<Planet>)
    ensures |t| == 10
    ensures t[0].name == "Sun" && t[9].name == "Pluto"
    ensures forall i :: 0 <= i < |t| ==> t[i].isVisible && AnglesInRange(t[i]) && SpeedsWithin(t[i])
    ensures forall i :: 0 <= i < |t| ==> t[i].currentOrbitAngle == 0.0 && t[i].currentRotationAngle == 0.0
  {
    [ Planet("Sun",     2.0,  0.0,  0.0,  0.8, 1.0, 0.7, 0.1, false, true, 0.0, 0.0, 7.25),
      Planet("Mercury", 0.38, 5.0,  4.74, 0.3, 0.7, 0.5, 0.3, false, true, 0.0, 0.0, 0.1),
      Planet("Venus",   0.95, 7.0,  3.5,  0.1, 0.9, 0.7, 0.2, false, true, 0.0, 0.0, 177.4),
      Planet("Earth",   1.0,  10.0, 2.98, 0.5, 0.2, 0.4, 0.9, true,  true, 0.0, 0.0, 23.44),
      Planet("Mars",    0.53, 13.0, 2.41, 0.4, 0.8, 0.3, 0.1, true,  true, 0.0, 0.0, 25.19),
      Planet("Jupiter", 1.12, 18.0, 1.31, 1.2, 0.8, 0.6, 0.4, true,  true, 0.0, 0.0, 3.13),
      Planet("Saturn",  0.94, 22.0, 0.97, 1.0, 0.9, 0.8, 0.5, true,  true, 0.0, 0.0, 26.73),
      Planet("Uranus",  0.4,  26.0, 0.68, 0.8, 0.4, 0.6, 0.8, true,  true, 0.0, 0.0, 97.77),
      Planet("Neptune", 0.39, 30.0, 0.54, 0.7, 0.2, 0.3, 0.9, true,  true, 0.0, 0.0, 28.32),
      Planet("Pluto",   0.18, 35.0, 0.47, 0.3, 0.8, 0.7, 0.6, false, true, 0.0, 0.0, 122.53) ]
  }

  /** Both current angles lie in [0, 360]; 360 itself is kept because the
      wrap test is a strict "greater than". */
  predicate AnglesInRange(p: Planet)
  {
    0.0 <= p.currentOrbitAngle <= FullTurn && 0.0 <= p.currentRotationAngle <= FullTurn
  }

  /** Every speed in the table is non-negative and at most 5. */
  predicate SpeedsWithin(p: Planet)
  {
    0.0 <= p.orbitSpeed <= 5.0 && 0.0 <= p.rotationSpeed <= 5.0
  }

  lemma MulNonneg(a: real, b: real)
    requires a >= 0.0 && b >= 0.0
    ensures a * b >= 0.0
  {
  }

  /** A product of two factors bounded by table speeds and the time-speed bound. */
  lemma MulBounded(s: real, t: real)
    ensures 0.0 <= s <= 5.0 && 0.0 <= t <= 10.0 ==> 0.0 <= s * t <= 50.0
  {
    if 0.0 <= s <= 5.0 && 0.0 <= t <= 10.0 {
      MulNonneg(s, t);
      MulNonneg(5.0 - s, t);
    }
  }

  /** Degrees of orbit in one tick: at most 0.8 for a speed of at most 5 and
      a time speed of at most 10. */
  function OrbitIncrement(p: Planet, timeSpeed: real): (d: real)
    ensures 0.0 <= p.orbitSpeed <= 5.0 && 0.0 <= timeSpeed <= 10.0 ==> 0.0 <= d <= 0.8
  {
    MulBounded(p.orbitSpeed, timeSpeed);
    p.orbitSpeed * timeSpeed * OrbitScale
  }

  /** Degrees of rotation in one tick: at most 24 for a speed of at most 5
      and a time speed of at most 10. */
  function RotationIncrement(p: Planet, timeSpeed: real): (d: real)
    ensures 0.0 <= p.rotationSpeed <= 5.0 && 0.0 <= timeSpeed <= 10.0 ==> 0.0 <= d <= 24.0
  {
    MulBounded(p.rotationSpeed, timeSpeed);
    p.rotationSpeed * timeSpeed * RotationScale
  }

  /** One tick's increments are each a non-negative amount of at most one turn. */
  predicate StepBounded(p: Planet, timeSpeed: real)
  {
    0.0 <= OrbitIncrement(p, timeSpeed) <= FullTurn &&
    0.0 <= RotationIncrement(p, timeSpeed) <= FullTurn
  }

  /** The conditional wrap of one tick: one turn is subtracted, once, when the
      angle has gone past 360. */
  function Wrap(a: real): (r: real)
    ensures r == a || r == a - FullTurn
    ensures 0.0 <= a <= 2.0 * FullTurn ==> 0.0 <= r <= FullTurn
    ensures r <= FullTurn <==> a <= 2.0 * FullTurn
  {
    if a > FullTurn then a - FullTurn else a
  }

  /** What the update loop does to one body. */
  function Advance(p: Planet, timeSpeed: real): (q: Planet)
    ensures q.(currentOrbitAngle := p.currentOrbitAngle, currentRotationAngle := p.currentRotationAngle) == p
    ensures q.isVisible == p.isVisible && q.name == p.name
    ensures AnglesInRange(p) && StepBounded(p, timeSpeed) ==> AnglesInRange(q)
  {
    p.(currentOrbitAngle := Wrap(p.currentOrbitAngle + OrbitIncrement(p, timeSpeed)),
       currentRotationAngle := Wrap(p.currentRotationAngle + RotationIncrement(p, timeSpeed)))
  }

  /** One unpaused tick over the whole registry, in registry order. */
  function Tick(ps: seq<Planet>, timeSpeed: real): (r: seq<Planet>)
    ensures |r| == |ps|
  {
    if ps == [] then [] else [Advance(ps[0], timeSpeed)] + Tick(ps[1..], timeSpeed)
  }

  /** A tick keeps the number and order of bodies and advances each one on its own. */
  lemma {:induction false} TickAt(ps: seq<Planet>, timeSpeed: real, i: int)
    requires 0 <= i < |ps|
    ensures |Tick(ps, timeSpeed)| == |ps|
    ensures Tick(ps, timeSpeed)[i] == Advance(ps[i], timeSpeed)
  {
    if i > 0 {
      TickAt(ps[1..], timeSpeed, i - 1);
    } else if |ps| > 1 {
      TickAt(ps[1..], timeSpeed, 0);
    }
  }

  /** A tick changes the two current angles of each body and nothing else:
      names, order, parameters and visibility are all kept. */
  lemma TickChangesOnlyAngles(ps: seq<Planet>, timeSpeed: real)
    ensures |Tick(ps, timeSpeed)| == |ps|
    ensures forall i :: 0 <= i < |ps| ==>
      Tick(ps, timeSpeed)[i].(currentOrbitAngle := ps[i].currentOrbitAngle,
                              currentRotationAngle := ps[i].currentRotationAngle) == ps[i]
  {
    forall i | 0 <= i < |ps|
      ensures Tick(ps, timeSpeed)[i].(currentOrbitAngle := ps[i].currentOrbitAngle,
                                      currentRotationAngle := ps[i].currentRotationAngle) == ps[i]
    {
      TickAt(ps, timeSpeed, i);
    }
  }

  /** Each angle moves by exactly its increment, less one turn only when the
      sum has passed 360. */
  lemma TickStepsEachAngle(ps: seq<Planet>, timeSpeed: real, i: int)
    requires 0 <= i < |ps|
    ensures |Tick(ps, timeSpeed)| == |ps|
    ensures var a := ps[i].currentOrbitAngle + OrbitIncrement(ps[i], timeSpeed);
      Tick(ps, timeSpeed)[i].currentOrbitAngle == (if a > FullTurn then a - FullTurn else a)
    ensures var a := ps[i].currentRotationAngle + RotationIncrement(ps[i], timeSpeed);
      Tick(ps, timeSpeed)[i].currentRotationAngle == (if a > FullTurn then a - FullTurn else a)
  {
    TickAt(ps, timeSpeed, i);
  }

  /** With table speeds and a time speed of at most 10, neither increment can
      exceed one turn (the largest are 0.8 and 24 degrees). */
  lemma SpeedsGiveBoundedStep(p: Planet, timeSpeed: real)
    requires SpeedsWithin(p) && 0.0 <= timeSpeed <= 10.0
    ensures StepBounded(p, timeSpeed)
  {
  }

  /** Well-formed registry: angles in range and table-like speeds. */
  predicate AllWellFormed(ps: seq<Planet>)
  {
    forall i :: 0 <= i < |ps| ==> AnglesInRange(ps[i]) && SpeedsWithin(ps[i])
  }

  /** A tick keeps every angle within [0, 360] and every speed as it was. */
  lemma TickPreservesWellFormed(ps: seq<Planet>, timeSpeed: real)
    requires AllWellFormed(ps) && 0.0 <= timeSpeed <= 10.0
    ensures |Tick(ps, timeSpeed)| == |ps|
    ensures AllWellFormed(Tick(ps, timeSpeed))
    ensures forall i :: 0 <= i < |ps| ==>
      Tick(ps, timeSpeed)[i].orbitSpeed == ps[i].orbitSpeed &&
      Tick(ps, timeSpeed)[i].rotationSpeed == ps[i].rotationSpeed
  {
    forall i | 0 <= i < |ps|
      ensures AnglesInRange(Tick(ps, timeSpeed)[i]) && SpeedsWithin(Tick(ps, timeSpeed)[i])
      ensures Tick(ps, timeSpeed)[i].orbitSpeed == ps[i].orbitSpeed
      ensures Tick(ps, timeSpeed)[i].rotationSpeed == ps[i].rotationSpeed
    {
      TickAt(ps, timeSpeed, i);
      SpeedsGiveBoundedStep(ps[i], timeSpeed);
    }
  }

  /** n consecutive unpaused ticks at a fixed time speed. */
  function Ticks(ps: seq<Planet>, timeSpeed: real, n: nat): (r: seq<Planet>)
    ensures |r| == |ps|
  {
    if n == 0 then ps else Tick(Ticks(ps, timeSpeed, n - 1), timeSpeed)
  }

  /** However many ticks run, the angles never leave [0, 360] and the
      registry keeps its size. */
  lemma {:induction false} TicksPreserveWellFormed(ps: seq<Planet>, timeSpeed: real, n: nat)
    requires AllWellFormed(ps) && 0.0 <= timeSpeed <= 10.0
    ensures |Ticks(ps, timeSpeed, n)| == |ps|
    ensures AllWellFormed(Ticks(ps, timeSpeed, n))
  {
    if n > 0 {
      TicksPreserveWellFormed(ps, timeSpeed, n - 1);
      TickPreservesWellFormed(Ticks(ps, timeSpeed, n - 1), timeSpeed);
    }
  }

  /** Earth at time speed 1 advances its orbit by 2.98 * 0.016 = 0.04768 degrees. */
  lemma EarthOrbitStep()
    ensures Advance(Table()[3], 1.0).currentOrbitAngle == 0.04768
  {
  }
}
