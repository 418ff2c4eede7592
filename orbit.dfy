/**
 * The orbital field of js/main.js: each planet's record (its configuration,
 * its current orbit angle and its position), the per-tick angle step of
 * updatePlanetPositions and the starting angle chosen by createPlanet.
 */
module Orbit {
  import opened Geometry

  /** Math.PI as a decimal literal. */
  const Pi: real := 3.141592653589793
  const TwoPi: real := 2.0 * Pi

  /** One planet's entry in the configuration table (the fields the core reads). */
  datatype PlanetData = PlanetData(name: string, distance: real, size: real, speed: real, hasRing: bool)

  /** planetObjects[name]: the configuration, the orbit angle and the mesh position. */
  datatype PlanetObject = PlanetObject(data: PlanetData, angle: real, position: Vec3)

  /** While a content panel is open the orbits run at a fifth of their speed. */
  function SpeedFactor(zoomed: bool): (r: real)
    ensures 0.0 < r <= 1.0
    ensures zoomed <==> r < 1.0
  {
    if zoomed then 0.2 else 1.0
  }

  /**
   * One angle update: add the step, and subtract one full turn when the sum
   * goes strictly past 2*pi.
   */
  function NextAngle(angle: real, step: real): (r: real)
    ensures angle + step <= TwoPi ==> r == angle + step
    ensures angle + step > TwoPi ==> r == angle + step - TwoPi
    ensures 0.0 <= angle <= TwoPi && 0.0 <= step <= TwoPi ==> 0.0 <= r <= TwoPi
  {
    var a := angle + step;
    if a > TwoPi then a - TwoPi else a
  }

  /** Because the test is strict, an angle that lands exactly on 2*pi is kept. */
  lemma FullTurnIsKept(angle: real, step: real)
    requires angle + step == TwoPi
    ensures NextAngle(angle, step) == TwoPi
  {
  }

  /** The planet's position on the orbital plane for a given angle. */
  function OrbitPosition(distance: real, angle: real, m: MathLib): (r: Vec3)
    ensures r.y == 0.0
  {
    Vec3(m.cos(angle) * distance, 0.0, m.sin(angle) * distance)
  }

  /** What one tick of updatePlanetPositions does to one planet record. */
  function AdvancePlanet(p: PlanetObject, zoomed: bool, m: MathLib): (r: PlanetObject)
    ensures r.data == p.data
    ensures r.angle == NextAngle(p.angle, p.data.speed * SpeedFactor(zoomed))
    ensures r.position == OrbitPosition(p.data.distance, r.angle, m)
  {
    var angle := NextAngle(p.angle, p.data.speed * SpeedFactor(zoomed));
    p.(angle := angle, position := OrbitPosition(p.data.distance, angle, m))
  }

  /**
   * createPlanet's starting angle for the planet created `index`-th, where
   * `random` is the value Math.random() returned.
   */
  function InitialAngle(index: nat, random: real): (r: real)
    requires 0.0 <= random < 1.0
    ensures (index as real) * (Pi / 4.0) <= r < (index as real) * (Pi / 4.0) + Pi / 2.0
  {
    (index as real) * (Pi * 0.25) + random * Pi * 0.5
  }

  /** The eighth planet may start past a full turn, outside [0, 2*pi]. */
  lemma EighthPlanetMayStartPastFullTurn()
    ensures InitialAngle(7, 0.9) > TwoPi
  {
  }

  /** The angle after `n` ticks of constant step `step`. */
  function Orbit(angle: real, step: real, n: nat): real
    decreases n
  {
    if n == 0 then angle else NextAngle(Orbit(angle, step, n - 1), step)
  }

  /** Ticks that do not carry the angle past 2*pi simply add up. */
  lemma {:induction false} OrbitWithoutWrap(angle: real, step: real, n: nat)
    requires 0.0 <= step
    requires angle + (n as real) * step <= TwoPi
    ensures Orbit(angle, step, n) == angle + (n as real) * step
    decreases n
  {
    if n > 0 {
      var k := (n - 1) as real;
      assert (n as real) * step == k * step + step;
      OrbitWithoutWrap(angle, step, n - 1);
      assert Orbit(angle, step, n - 1) + step == angle + (n as real) * step;
    }
  }

  /** Concrete case: Earth's angle after 1000 unslowed ticks from 0. */
  lemma EarthAfterThousandTicks()
    ensures Orbit(0.0, 0.003, 1000) == 3.0
  {
    OrbitWithoutWrap(0.0, 0.003, 1000);
  }

  /** An angle in [0, 2*pi] stays in (0, 2*pi] under positive steps of at most 2*pi. */
  lemma {:induction false} OrbitStaysInRange(angle: real, step: real, n: nat)
    requires 0.0 <= angle <= TwoPi && 0.0 < step <= TwoPi
    ensures 0.0 <= Orbit(angle, step, n) <= TwoPi
    ensures n > 0 ==> 0.0 < Orbit(angle, step, n)
    decreases n
  {
    if n > 0 {
      OrbitStaysInRange(angle, step, n - 1);
    }
  }

  /** Every tick changes the angle by the step, up to whole turns. */
  lemma {:induction false} OrbitWholeTurns(angle: real, step: real, n: nat) returns (w: int)
    ensures Orbit(angle, step, n) == angle + (n as real) * step - (w as real) * TwoPi
    decreases n
  {
    if n == 0 {
      w := 0;
    } else {
      var v := OrbitWholeTurns(angle, step, n - 1);
      var prev := Orbit(angle, step, n - 1);
      assert (n as real) * step == ((n - 1) as real) * step + step;
      if prev + step > TwoPi {
        w := v + 1;
        assert (w as real) * TwoPi == (v as real) * TwoPi + TwoPi;
      } else {
        w := v;
      }
    }
  }

  /**
   * After one full period (n steps adding up to exactly 2*pi) the angle is
   * back where it started, except that a start of exactly 0 comes back as
   * 2*pi, the representative the strict wrap test keeps.
   */
  lemma OrbitPeriod(angle: real, step: real, n: nat)
    requires 0.0 <= angle <= TwoPi && 0.0 < step <= TwoPi
    requires 0 < n && (n as real) * step == TwoPi
    ensures 0.0 < angle ==> Orbit(angle, step, n) == angle
    ensures angle == 0.0 ==> Orbit(angle, step, n) == TwoPi
  {
    var w := OrbitWholeTurns(angle, step, n);
    OrbitStaysInRange(angle, step, n);
    var r := Orbit(angle, step, n);
    assert r == angle + ((1 - w) as real) * TwoPi;
    if w <= 0 {
      assert ((1 - w) as real) * TwoPi >= TwoPi;
      assert r == TwoPi && angle == 0.0;
    } else if w >= 2 {
      assert false;
    } else {
      assert w == 1;
    }
  }
}
