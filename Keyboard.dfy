/** The simulation and camera settings that the keyboard handlers change,
    taken as one value, and what each key does to it. */
module Keyboard {

  datatype Controls = Controls(
    isPaused: bool,
    timeSpeed: real,
    cameraSpeed: real,
    houseSensitivity: real,
    cameraDistance: real,
    cameraAngleX: real,
    cameraAngleY: real)

  const MinDistance: real := 10.0
  const MaxDistance: real := 50.0
  const MinTimeSpeed: real := 0.1
  const MaxTimeSpeed: real := 10.0

  /** Key codes of the keyboard callback (an unsigned char). */
  const Escape: char := 27 as char

  /** GLUT's codes for the up and down arrows of the special-key callback. */
  const KeyUp: int := 101
  const KeyDown: int := 103

  /** The settings every key handler leaves within bounds. */
  predicate InBounds(c: Controls)
  {
    MinDistance <= c.cameraDistance <= MaxDistance &&
    MinTimeSpeed <= c.timeSpeed <= MaxTimeSpeed
  }

  /** The two-step clamp the handler runs: raise to the lower bound, then
      lower to the upper bound. */
  function Clamp(v: real, lo: real, hi: real): (r: real)
    ensures r <= hi
    ensures lo <= hi ==> lo <= r
    ensures lo <= v <= hi ==> r == v
    ensures v < lo && lo <= hi ==> r == lo
    ensures v > hi ==> r == hi
  {
    var raised := if v < lo then lo else v;
    if raised > hi then hi else raised
  }

  lemma ClampIdempotent(v: real, lo: real, hi: real)
    requires lo <= hi
    ensures Clamp(Clamp(v, lo, hi), lo, hi) == Clamp(v, lo, hi)
  {
  }

  /** The clamp that closes every keyboard event. */
  function ClampControls(c: Controls): (r: Controls)
    ensures InBounds(r)
    ensures InBounds(c) ==> r == c
    ensures r.(cameraDistance := c.cameraDistance, timeSpeed := c.timeSpeed) == c
  {
    c.(cameraDistance := Clamp(c.cameraDistance, MinDistance, MaxDistance),
       timeSpeed := Clamp(c.timeSpeed, MinTimeSpeed, MaxTimeSpeed))
  }

  /** Whether the keyboard handler has a case for the key. */
  predicate Recognised(key: char)
  {
    key in {' ', 'w', 's', 'a', 'd', '+', '-', '1', '2', Escape}
  }

  /** The effect of the key's own case, before the clamp. */
  function ApplyKey(c: Controls, key: char): (r: Controls)
    ensures !Recognised(key) || key == Escape ==> r == c
    ensures r.cameraSpeed == c.cameraSpeed && r.houseSensitivity == c.houseSensitivity
    ensures r.isPaused != c.isPaused <==> key == ' '
    ensures key in {' ', 'w', 's', 'a', 'd'} ==>
      r.cameraDistance == c.cameraDistance && r.timeSpeed == c.timeSpeed
  {
    match key
    case ' ' => c.(isPaused := !c.isPaused)
    case 'w' => c.(cameraAngleX := c.cameraAngleX + 0.05 * c.cameraSpeed)
    case 's' => c.(cameraAngleX := c.cameraAngleX - 0.05 * c.cameraSpeed)
    case 'a' => c.(cameraAngleY := c.cameraAngleY + 0.05 * c.cameraSpeed)
    case 'd' => c.(cameraAngleY := c.cameraAngleY - 0.05 * c.cameraSpeed)
    case '+' => c.(cameraDistance := c.cameraDistance - 0.5 * c.cameraSpeed)
    case '-' => c.(cameraDistance := c.cameraDistance + 0.5 * c.cameraSpeed)
    case '1' => c.(timeSpeed := c.timeSpeed * 0.9)
    case '2' => c.(timeSpeed := c.timeSpeed * 1.1)
    case _ => c
  }

  /** One keyboard event. Escape ends the process before the clamp runs, so
      the settings it leaves are the ones it found; every other key, known or
      not, ends with the clamp. */
  function KeyEffect(c: Controls, key: char): (r: Controls)
    ensures key != Escape ==> InBounds(r)
    ensures key == Escape ==> r == c
    ensures r.cameraSpeed == c.cameraSpeed && r.houseSensitivity == c.houseSensitivity
    ensures r.isPaused == (if key == ' ' then !c.isPaused else c.isPaused)
  {
    if key == Escape then c else ClampControls(ApplyKey(c, key))
  }

  /** An unrecognised key only clamps, so on settings within bounds it
      changes nothing, and after any key it changes nothing. */
  lemma UnrecognisedKeyOnlyClamps(c: Controls, key: char)
    requires !Recognised(key)
    ensures KeyEffect(c, key) == ClampControls(c)
    ensures InBounds(c) ==> KeyEffect(c, key) == c
    ensures forall k :: k != Escape ==> KeyEffect(KeyEffect(c, k), key) == KeyEffect(c, k)
  {
  }

  /** Space flips the pause flag and nothing else; pressing it twice restores
      the settings. */
  lemma SpaceTogglesPause(c: Controls)
    requires InBounds(c)
    ensures KeyEffect(c, ' ') == c.(isPaused := !c.isPaused)
    ensures KeyEffect(KeyEffect(c, ' '), ' ') == c
  {
  }

  /** 'w' and 's' move only the pitch angle, 'a' and 'd' only the yaw angle,
      by 0.05 times the camera speed, with no bound. */
  lemma AngleKeysMoveOneAngle(c: Controls)
    requires InBounds(c)
    ensures KeyEffect(c, 'w') == c.(cameraAngleX := c.cameraAngleX + 0.05 * c.cameraSpeed)
    ensures KeyEffect(c, 's') == c.(cameraAngleX := c.cameraAngleX - 0.05 * c.cameraSpeed)
    ensures KeyEffect(c, 'a') == c.(cameraAngleY := c.cameraAngleY + 0.05 * c.cameraSpeed)
    ensures KeyEffect(c, 'd') == c.(cameraAngleY := c.cameraAngleY - 0.05 * c.cameraSpeed)
  {
  }

  /** '1' and '2' scale the time speed by 0.9 and 1.1 and clamp it; '+' and
      '-' move the camera distance by half the camera speed and clamp it.
      Nothing else changes. */
  lemma SpeedAndZoomKeys(c: Controls)
    requires InBounds(c)
    ensures KeyEffect(c, '1') == c.(timeSpeed := Clamp(c.timeSpeed * 0.9, MinTimeSpeed, MaxTimeSpeed))
    ensures KeyEffect(c, '2') == c.(timeSpeed := Clamp(c.timeSpeed * 1.1, MinTimeSpeed, MaxTimeSpeed))
    ensures KeyEffect(c, '+') == c.(cameraDistance := Clamp(c.cameraDistance - 0.5 * c.cameraSpeed, MinDistance, MaxDistance))
    ensures KeyEffect(c, '-') == c.(cameraDistance := Clamp(c.cameraDistance + 0.5 * c.cameraSpeed, MinDistance, MaxDistance))
  {
  }

  /** The effect of pressing the same key n times in a row. */
  function PressN(c: Controls, key: char, n: nat): (r: Controls)
    ensures n > 0 && key != Escape ==> InBounds(r)
    ensures key == Escape ==> r == c
    ensures r.cameraSpeed == c.cameraSpeed && r.houseSensitivity == c.houseSensitivity
  {
    if n == 0 then c else KeyEffect(PressN(c, key, n - 1), key)
  }

  function Pow(x: real, n: nat): real
  {
    if n == 0 then 1.0 else x * Pow(x, n - 1)
  }

  lemma {:induction false} PowAtLeastOne(x: real, n: nat)
    requires x >= 1.0
    ensures Pow(x, n) >= 1.0
  {
    if n > 0 {
      PowAtLeastOne(x, n - 1);
      assert x * Pow(x, n - 1) >= Pow(x, n - 1) by {
        assert (x - 1.0) * Pow(x, n - 1) >= 0.0;
      }
    }
  }

  /** The time speed after n uncapped speed-ups, step by step. */
  function Grown(t: real, n: nat): real
  {
    if n == 0 then t else Grown(t, n - 1) * 1.1
  }

  lemma {:induction false} GrownIsGeometric(t: real, n: nat)
    ensures Grown(t, n) == t * Pow(1.1, n)
  {
    if n > 0 {
      GrownIsGeometric(t, n - 1);
      assert t * Pow(1.1, n - 1) * 1.1 == t * (1.1 * Pow(1.1, n - 1));
    }
  }

  lemma {:induction false} GrownAtLeast(t: real, n: nat)
    requires t >= 0.0
    ensures Grown(t, n) >= t
  {
    if n > 0 {
      GrownAtLeast(t, n - 1);
    }
  }

  /** Repeated speed-ups grow the time speed geometrically (by
      GrownIsGeometric) until it saturates at 10, and change nothing else. */
  lemma {:induction false} SpeedUpsSaturate(c: Controls, n: nat)
    requires InBounds(c)
    ensures var t := Grown(c.timeSpeed, n);
      PressN(c, '2', n) == c.(timeSpeed := if t <= MaxTimeSpeed then t else MaxTimeSpeed)
  {
    if n > 0 {
      SpeedUpsSaturate(c, n - 1);
      GrownAtLeast(c.timeSpeed, n - 1);
    }
  }

  /** The distance n zoom steps of the given size cover, step by step. */
  function Walked(n: nat, step: real): real
  {
    if n == 0 then 0.0 else Walked(n - 1, step) + step
  }

  lemma {:induction false} WalkedIsProduct(n: nat, step: real)
    ensures Walked(n, step) == n as real * step
  {
    if n > 0 {
      WalkedIsProduct(n - 1, step);
      assert n as real * step == (n - 1) as real * step + step;
    }
  }

  lemma {:induction false} WalkedNonneg(n: nat, step: real)
    requires step >= 0.0
    ensures Walked(n, step) >= 0.0
  {
    if n > 0 {
      WalkedNonneg(n - 1, step);
    }
  }

  /** Repeated zoom-ins move the camera in by half the camera speed each
      time (n steps cover n times that, by WalkedIsProduct) until it stops
      at distance 10, and change nothing else. */
  lemma {:induction false} ZoomInsSaturate(c: Controls, n: nat)
    requires InBounds(c) && c.cameraSpeed >= 0.0
    ensures var e := c.cameraDistance - Walked(n, 0.5 * c.cameraSpeed);
      PressN(c, '+', n) == c.(cameraDistance := if e >= MinDistance then e else MinDistance)
  {
    if n > 0 {
      ZoomInsSaturate(c, n - 1);
      WalkedNonneg(n - 1, 0.5 * c.cameraSpeed);
    }
  }

  /** From the starting speed 1.6, one slow-down gives 1.44 and thirty
      speed-ups after it reach the bound 10. */
  lemma TimeSpeedScenario(c: Controls)
    requires InBounds(c) && c.timeSpeed == 1.6
    ensures KeyEffect(c, '1').timeSpeed == 1.44
    ensures PressN(KeyEffect(c, '1'), '2', 30).timeSpeed == MaxTimeSpeed
  {
    var slow := KeyEffect(c, '1');
    SpeedUpsSaturate(slow, 30);
    GrownIsGeometric(1.44, 30);
    assert Pow(1.1, 30) >= 7.0 by {
      PowSplit(1.1, 10, 20);
      PowSplit(1.1, 10, 10);
      PowTen();
    }
  }

  lemma {:induction false} PowSplit(x: real, a: nat, b: nat)
    ensures Pow(x, a + b) == Pow(x, a) * Pow(x, b)
  {
    if a > 0 {
      PowSplit(x, a - 1, b);
    }
  }

  lemma PowTen()
    ensures Pow(1.1, 10) >= 2.5
  {
    PowSplit(1.1, 5, 5);
    assert Pow(1.1, 5) == 1.61051;
  }

  /** From the starting distance 40 at camera speed 1.5, ten zoom-ins give 32.5. */
  lemma ZoomScenario(c: Controls)
    requires InBounds(c) && c.cameraDistance == 40.0 && c.cameraSpeed == 1.5
    ensures PressN(c, '+', 10).cameraDistance == 32.5
  {
    ZoomInsSaturate(c, 10);
    WalkedIsProduct(10, 0.75);
  }

  /** The special-key handler: up and down arrows scale the sensitivity by
      1.1 and 0.9, with no bound; every other key is ignored. */
  function SpecialKeyEffect(h: real, key: int): (r: real)
    ensures key == KeyUp ==> r == h * 1.1
    ensures key == KeyDown ==> r == h * 0.9
    ensures key != KeyUp && key != KeyDown ==> r == h
    ensures h > 0.0 ==> r > 0.0
    ensures h > 0.0 ==> (key == KeyUp <==> r > h) && (key == KeyDown <==> r < h)
  {
    if key == KeyUp then h * 1.1
    else if key == KeyDown then h * 0.9
    else h
  }

  /** Up then down is not an inverse pair: it leaves 99% of the sensitivity. */
  lemma UpThenDown(h: real)
    ensures SpecialKeyEffect(SpecialKeyEffect(h, KeyUp), KeyDown) == 0.99 * h
  {
  }

  /** The sensitivity after n presses of the same special key. */
  function SpecialPressN(h: real, key: int, n: nat): real
  {
    if n == 0 then h else SpecialKeyEffect(SpecialPressN(h, key, n - 1), key)
  }

  lemma {:induction false} UpPressesScale(h: real, n: nat)
    ensures SpecialPressN(h, KeyUp, n) == h * Pow(1.1, n)
  {
    if n > 0 {
      UpPressesScale(h, n - 1);
      assert h * Pow(1.1, n - 1) * 1.1 == h * (1.1 * Pow(1.1, n - 1));
    }
  }

  lemma {:induction false} PowGrowsLinearly(n: nat)
    ensures Pow(1.1, n) >= 1.0 + 0.1 * n as real
  {
    if n > 0 {
      PowGrowsLinearly(n - 1);
      PowAtLeastOne(1.1, n - 1);
    }
  }

  /** Nothing bounds the sensitivity: n presses of the up arrow raise a
      positive sensitivity by at least a tenth of itself n times over. */
  lemma SensitivityUnbounded(h: real, n: nat)
    requires h > 0.0
    ensures SpecialPressN(h, KeyUp, n) >= h + 0.1 * h * n as real
  {
    UpPressesScale(h, n);
    PowGrowsLinearly(n);
    var p := Pow(1.1, n);
    assert h * p - h * (1.0 + 0.1 * n as real) == h * (p - (1.0 + 0.1 * n as real));
    assert h * (p - (1.0 + 0.1 * n as real)) >= 0.0;
  }
}
