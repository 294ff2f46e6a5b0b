/** The program's global state as one object, with the callbacks that
    change it: the timer tick, the keyboard, the special keys, the mouse,
    and starfield generation at start-up. */
module Simulation {
  import opened Bodies
  import opened Keyboard
  import opened HitTest
  import opened Starfield

  class SolarSystem {
    var isPaused: bool
    var timeSpeed: real
    var cameraSpeed: real
    var houseSensitivity: real
    var cameraDistance: real
    var cameraAngleX: real
    var cameraAngleY: real
    /** Set by Escape, where the program calls exit(0). */
    var terminated: bool
    /** The body registry; its size and order never change. */
    const planets: array<Planet>
    var stars: array<Star>

    /** The keyboard-controlled settings as one value. */
    ghost function Settings(): Controls
      reads this
    {
      Controls(isPaused, timeSpeed, cameraSpeed, houseSensitivity,
               cameraDistance, cameraAngleX, cameraAngleY)
    }

    /** The state invariant: ten bodies with table speeds and angles in
        [0, 360], and distance and time speed within their bounds. */
    ghost predicate Valid()
      reads this, planets
    {
      planets.Length == |Table()| && AllWellFormed(planets[..]) && InBounds(Settings())
    }

    /** The state the program starts in. */
    constructor ()
      ensures Valid()
      ensures Settings() == Controls(false, 1.6, 1.5, 1.0, 40.0, 0.0, 0.0)
      ensures !terminated
      ensures planets[..] == Table() && stars.Length == 0
      ensures fresh(planets) && fresh(stars)
    {
      isPaused := false;
      timeSpeed := 1.6;
      cameraSpeed := 1.5;
      houseSensitivity := 1.0;
      cameraDistance := 40.0;
      cameraAngleX := 0.0;
      cameraAngleY := 0.0;
      terminated := false;
      var table := Table();
      planets := new Planet[|table|](i requires 0 <= i < |table| => table[i]);
      stars := new Star[0];
      new;
      assert planets[..] == table;
    }

    /** One timer tick: unless paused, advance every body's two angles. */
    method Update()
      modifies planets
      ensures planets[..] == if isPaused then old(planets[..]) else Tick(old(planets[..]), timeSpeed)
      ensures old(Valid()) ==> Valid()
    {
      if !isPaused {
        var i := 0;
        while i < planets.Length
          invariant 0 <= i <= planets.Length
          invariant forall j :: 0 <= j < i ==> planets[j] == Advance(old(planets[j]), timeSpeed)
          invariant forall j :: i <= j < planets.Length ==> planets[j] == old(planets[j])
        {
          var p := planets[i];
          var orbit := p.currentOrbitAngle + p.orbitSpeed * timeSpeed * OrbitScale;
          var rotation := p.currentRotationAngle + p.rotationSpeed * timeSpeed * RotationScale;
          assert orbit == p.currentOrbitAngle + OrbitIncrement(p, timeSpeed);
          assert rotation == p.currentRotationAngle + RotationIncrement(p, timeSpeed);
          if orbit > FullTurn {
            orbit := orbit - FullTurn;
          }
          if rotation > FullTurn {
            rotation := rotation - FullTurn;
          }
          assert orbit == Wrap(p.currentOrbitAngle + OrbitIncrement(p, timeSpeed));
          assert rotation == Wrap(p.currentRotationAngle + RotationIncrement(p, timeSpeed));
          planets[i] := p.(currentOrbitAngle := orbit, currentRotationAngle := rotation);
          assert planets[i] == Advance(old(planets[i]), timeSpeed);
          i := i + 1;
        }
        ghost var before := old(planets[..]);
        forall j | 0 <= j < planets.Length
          ensures planets[..][j] == Tick(before, timeSpeed)[j]
        {
          TickAt(before, timeSpeed, j);
        }
        assert planets[..] == Tick(before, timeSpeed);
        if old(Valid()) {
          TickPreservesWellFormed(before, timeSpeed);
        }
      }
    }

    /** One key press: apply the key's case, then clamp distance and time
        speed; Escape ends the program before the clamp. */
    method HandleKey(key: char)
      modifies this`isPaused, this`timeSpeed, this`cameraDistance,
               this`cameraAngleX, this`cameraAngleY, this`terminated
      ensures Settings() == KeyEffect(old(Settings()), key)
      ensures terminated == (old(terminated) || key == Escape)
      ensures old(Valid()) ==> Valid()
    {
      if key == Escape {
        terminated := true;
        return;
      }
      ghost var applied := ApplyKey(old(Settings()), key);
      assert KeyEffect(old(Settings()), key) == ClampControls(applied);
      if key == ' ' {
        isPaused := !isPaused;
      } else if key == 'w' {
        cameraAngleX := cameraAngleX + 0.05 * cameraSpeed;
      } else if key == 's' {
        cameraAngleX := cameraAngleX - 0.05 * cameraSpeed;
      } else if key == 'a' {
        cameraAngleY := cameraAngleY + 0.05 * cameraSpeed;
      } else if key == 'd' {
        cameraAngleY := cameraAngleY - 0.05 * cameraSpeed;
      } else if key == '+' {
        cameraDistance := cameraDistance - 0.5 * cameraSpeed;
      } else if key == '-' {
        cameraDistance := cameraDistance + 0.5 * cameraSpeed;
      } else if key == '1' {
        timeSpeed := timeSpeed * 0.9;
      } else if key == '2' {
        timeSpeed := timeSpeed * 1.1;
      }
      assert Settings() == applied;
      ClampSettings();
    }

    /** The clamp that closes every keyboard event. */
    method ClampSettings()
      modifies this`cameraDistance, this`timeSpeed
      ensures Settings() == ClampControls(old(Settings()))
    {
      if cameraDistance < MinDistance {
        cameraDistance := MinDistance;
      }
      if cameraDistance > MaxDistance {
        cameraDistance := MaxDistance;
      }
      if timeSpeed < MinTimeSpeed {
        timeSpeed := MinTimeSpeed;
      }
      if timeSpeed > MaxTimeSpeed {
        timeSpeed := MaxTimeSpeed;
      }
    }

    /** One special-key press: the up and down arrows scale the sensitivity. */
    method HandleSpecialKey(key: int)
      modifies this`houseSensitivity
      ensures houseSensitivity == SpecialKeyEffect(old(houseSensitivity), key)
      ensures old(Valid()) ==> Valid()
    {
      if key == KeyUp {
        houseSensitivity := houseSensitivity * 1.1;
      } else if key == KeyDown {
        houseSensitivity := houseSensitivity * 0.9;
      }
    }

    /** One mouse event: a left press on the pause button flips the pause
        flag, and a left press on a row of the body list flips that body's
        visibility. */
    method HandleMouse(button: int, state: int, x: int, y: int)
      modifies this`isPaused, planets
      ensures isPaused == ClickPause(old(isPaused), button, state, x, y)
      ensures planets[..] == ClickBodies(old(planets[..]), button, state, x, y)
      ensures old(Valid()) ==> Valid()
    {
      if button == LeftButton && state == ButtonDown {
        if x >= 20 && x <= 100 && y >= Height - 340 && y <= Height - 320 {
          isPaused := !isPaused;
        }
        if x >= Width - 150 && x <= Width - 20 {
          var planetIndex := TruncDiv(y - (Height - 50), RowHeight);
          if planetIndex >= 0 && planetIndex < planets.Length {
            planets[planetIndex] := planets[planetIndex].(isVisible := !planets[planetIndex].isVisible);
          }
        }
      }
      assert AllWellFormed(old(planets[..])) ==> AllWellFormed(planets[..]) by {
        assert forall j :: 0 <= j < planets.Length ==>
          planets[j].(isVisible := old(planets[j]).isVisible) == old(planets[j]);
      }
    }

    /** Fill the starfield, consuming four rand() draws per star in the
        order x, y, z, size. */
    method InitStars(draws: seq<nat>)
      requires |draws| == DrawsPerStar * NumStars
      modifies this`stars
      ensures fresh(stars)
      ensures stars[..] == Field(draws)
      ensures old(Valid()) ==> Valid()
    {
      var field := new Star[NumStars](_ => Star(0.0, 0.0, 0.0, 0.0));
      var i := 0;
      var next := 0;  // position in the rand() stream
      while i < NumStars
        invariant 0 <= i <= NumStars && next == DrawsPerStar * i
        invariant forall j :: 0 <= j < i ==> field[j] == StarAt(draws, j)
      {
        var x := ((draws[next] % 2000) as int - 1000) as real / 100.0;
        var y := ((draws[next + 1] % 2000) as int - 1000) as real / 100.0;
        var z := ((draws[next + 2] % 2000) as int - 1000) as real / 100.0;
        var size := (draws[next + 3] % 3 + 1) as real;
        field[i] := Star(x, y, z, size);
        next := next + DrawsPerStar;
        i := i + 1;
      }
      assert field[..] == Field(draws);
      stars := field;
    }
  }
}
