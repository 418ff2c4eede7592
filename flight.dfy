/**
 * The spaceship flight controller of js/spaceship.js.
 *
 * The ship is at rest on its home planet, or taking off (a fixed 1500 ms
 * climb), or cruising towards a destination (the last 15 % of the cruise
 * blends into the landing pose). Every phase change is decided by comparing
 * the time elapsed since the phase started with the phase's duration, so
 * the controller is a function of its state, the clock reading `now` and
 * the planets' current positions. ShipState is that state as a value and
 * Step the tick; the Spaceship class holds the same fields and its methods
 * are proved to perform FlyTo and Step in place.
 */
module Flight {
  import opened Options
  import opened Geometry

  const TakeoffDuration: real := 1500.0
  const BaseCruiseDuration: real := 3000.0
  /** The distance whose cruise takes exactly BaseCruiseDuration. */
  const ReferenceDistance: real := 200.0
  const TakeoffStartScale: real := 1.0
  const CruiseScale: real := 10.0
  /** Cruise progress at which the landing blend starts, and its length. */
  const LandingStart: real := 0.85
  const LandingSpan: real := 0.15

  /** What the ship reads of planetObjects[name]: the mesh position and data.size. */
  datatype Body = Body(position: Vec3, size: real)

  /** The record flyTo stores in `this.takeoff`. */
  datatype Takeoff = Takeoff(
    startTime: real, duration: real, startPosition: Vec3,
    startScale: real, targetScale: real,
    currentPlanet: string, targetPlanet: string)

  /** The record the end of the takeoff stores in `this.transition`. */
  datatype Transition = Transition(
    start: Vec3, startTime: real, duration: real,
    targetPlanet: string, currentPlanet: string,
    hoverPosition: Option<Vec3>)

  /**
   * The controller's fields: the ship group's position and (uniform) scale,
   * the point it was last turned to look at, the three phase records
   * (`landing` is only ever cleared) and the home planet's name.
   */
  datatype ShipState = ShipState(
    position: Vec3, scale: real, heading: Option<Vec3>,
    takeoff: Option<Takeoff>, transition: Option<Transition>, landing: bool,
    homePlanet: string)

  /** update()'s return value: {arrived: false} or {arrived: true, planet}. */
  datatype Status = NotArrived | Arrived(planet: string)

  // ----- easing ---------------------------------------------------------

  /** The quadratic ease-in-out the cruise uses. */
  function EaseInOutQuad(t: real): (r: real)
    ensures 0.0 <= t <= 1.0 ==> 0.0 <= r <= 1.0
    ensures t == 0.0 ==> r == 0.0
    ensures t == 0.5 ==> r == 0.5
    ensures t == 1.0 ==> r == 1.0
  {
    if t < 0.5 then
      (if 0.0 <= t then SquareMonotone(t, 0.5); 2.0 * t * t else 2.0 * t * t)
    else
      (if t <= 1.0 then SquareMonotone(0.0, -2.0 * t + 2.0); SquareMonotone(-2.0 * t + 2.0, 1.0);
         1.0 - (-2.0 * t + 2.0) * (-2.0 * t + 2.0) / 2.0
       else 1.0 - (-2.0 * t + 2.0) * (-2.0 * t + 2.0) / 2.0)
  }

  /** The two pieces of EaseInOutQuad meet at 1/2: the curve has no jump. */
  lemma EaseInOutQuadPiecesMeet()
    ensures 2.0 * 0.5 * 0.5 == EaseInOutQuad(0.5)
  {
  }

  /** The ease is point-symmetric about (1/2, 1/2). */
  lemma EaseInOutQuadSymmetric(t: real)
    requires 0.0 <= t <= 1.0
    ensures EaseInOutQuad(1.0 - t) == 1.0 - EaseInOutQuad(t)
  {
  }

  /** The ease never moves backwards on [0, 1]. */
  lemma EaseInOutQuadMonotone(s: real, t: real)
    requires 0.0 <= s <= t <= 1.0
    ensures EaseInOutQuad(s) <= EaseInOutQuad(t)
  {
    if t < 0.5 {
      SquareMonotone(s, t);
    } else if s >= 0.5 {
      SquareMonotone(2.0 - 2.0 * t, 2.0 - 2.0 * s);
    } else {
      SquareIncreasing(s, 0.5);
      SquareMonotone(2.0 - 2.0 * t, 1.0);
    }
  }

  /** The quadratic ease-out (not used by update()). */
  function EaseOutQuad(t: real): (r: real)
    ensures 0.0 <= t <= 1.0 ==> 0.0 <= r <= 1.0
    ensures t == 0.0 ==> r == 0.0
    ensures t == 1.0 ==> r == 1.0
  {
    if 0.0 <= t <= 1.0 then
      SquareMonotone(1.0 - t, 1.0);
      1.0 - (1.0 - t) * (1.0 - t)
    else 1.0 - (1.0 - t) * (1.0 - t)
  }

  lemma EaseOutQuadMonotone(s: real, t: real)
    requires 0.0 <= s <= t <= 1.0
    ensures EaseOutQuad(s) <= EaseOutQuad(t)
  {
    SquareMonotone(1.0 - t, 1.0 - s);
  }

  // ----- phase queries ----------------------------------------------------

  /** isFlying(): some phase record is set. */
  predicate Flying(s: ShipState) {
    s.transition.Some? || s.takeoff.Some? || s.landing
  }

  /**
   * The invariant the controller keeps: the landing record is never set,
   * takeoff and cruise never overlap, a takeoff carries flyTo's constants,
   * and a flight always leaves from the home planet.
   */
  predicate Consistent(s: ShipState) {
    && !s.landing
    && !(s.takeoff.Some? && s.transition.Some?)
    && (s.takeoff.Some? ==>
          var tk := s.takeoff.value;
          tk.duration == TakeoffDuration && tk.startScale == TakeoffStartScale &&
          tk.targetScale == CruiseScale && tk.currentPlanet == s.homePlanet)
    && (s.transition.Some? ==> s.transition.value.currentPlanet == s.homePlanet)
  }

  /** The planets whose entries the next tick reads. */
  function Names(s: ShipState): set<string> {
    {s.homePlanet}
    + (if s.takeoff.Some? then {s.takeoff.value.currentPlanet, s.takeoff.value.targetPlanet} else {})
    + (if s.transition.Some? then {s.transition.value.currentPlanet, s.transition.value.targetPlanet} else {})
  }

  /** Every planet the next tick reads is in the table (a missing one throws in the source). */
  predicate Knows(s: ShipState, bodies: map<string, Body>) {
    Names(s) <= bodies.Keys
  }

  // ----- construction and flyTo --------------------------------------------

  /** The constructor's state: on Earth's centre if Earth is known, at rest, unit scale. */
  function Launchpad(bodies: map<string, Body>): (r: ShipState)
    ensures Consistent(r) && !Flying(r) && r.homePlanet == "Earth"
  {
    ShipState(if "Earth" in bodies then bodies["Earth"].position else Origin,
              1.0, None, None, None, false, "Earth")
  }

  /** flyTo(name) at clock reading `now`. */
  function AfterFlyTo(s: ShipState, name: string, now: real): (r: ShipState)
    ensures Flying(r)
    ensures Flying(s) ==> r == s
    ensures r.homePlanet == s.homePlanet && r.position == s.position && r.transition == s.transition
  {
    if Flying(s) then s
    else s.(takeoff := Some(Takeoff(now, TakeoffDuration, s.position, TakeoffStartScale,
                                    CruiseScale, s.homePlanet, name)))
  }

  /** A flyTo issued while any phase record is set changes nothing. */
  lemma FlyToWhileFlyingIsIgnored(s: ShipState, name: string, now: real)
    requires Flying(s)
    ensures AfterFlyTo(s, name, now) == s
  {
  }

  /**
   * From rest, flyTo records a takeoff that starts now, lasts 1500 ms, grows
   * the ship from scale 1 to 10 and leads from the home planet to `name`;
   * the home planet, pose and the other phase records are untouched.
   */
  lemma FlyToFromRest(s: ShipState, name: string, now: real)
    requires !Flying(s)
    ensures var r := AfterFlyTo(s, name, now);
      && Flying(r)
      && r.takeoff == Some(Takeoff(now, 1500.0, s.position, 1.0, 10.0, s.homePlanet, name))
      && r.homePlanet == s.homePlanet && r.transition == None && !r.landing
      && r.position == s.position && r.scale == s.scale && r.heading == s.heading
  {
  }

  /** Of two flyTo calls without a tick between them, the second is ignored. */
  lemma SecondFlyToIsIgnored(s: ShipState, a: string, b: string, t1: real, t2: real)
    ensures AfterFlyTo(AfterFlyTo(s, a, t1), b, t2) == AfterFlyTo(s, a, t1)
  {
  }

  lemma FlyToKeepsConsistent(s: ShipState, name: string, now: real)
    requires Consistent(s)
    ensures Consistent(AfterFlyTo(s, name, now))
    ensures Names(AfterFlyTo(s, name, now)) <= Names(s) + {name}
  {
  }

  // ----- the tick -------------------------------------------------------------

  /**
   * elapsed / duration. A cruise between two planets at the same point has
   * duration 0, where the source's division yields Infinity or NaN; the
   * model reads that as a completed phase.
   */
  function Fraction(elapsed: real, duration: real): (r: real)
    ensures 0.0 < duration ==> (r >= 1.0 <==> elapsed >= duration)
    ensures 0.0 < duration && 0.0 <= elapsed ==> 0.0 <= r
  {
    if 0.0 < duration then elapsed / duration else 1.0
  }

  /** 3000 ms scaled by the square root of the distance over 200. */
  function CruiseDuration(distance: real, m: MathLib): (r: real)
    ensures SoundSqrt(m) && 0.0 <= distance ==> 0.0 <= r
    ensures SoundSqrt(m) && distance == 0.0 ==> r == 0.0
  {
    SquareRootOfZero(m);
    BaseCruiseDuration * m.sqrt(distance / ReferenceDistance)
  }

  /** Quadrupling the distance doubles the cruise. */
  lemma CruiseDurationSquareRootLaw(d: real, m: MathLib)
    requires SoundSqrt(m) && 0.0 <= d
    ensures CruiseDuration(4.0 * d, m) == 2.0 * CruiseDuration(d, m)
  {
    var r, q := m.sqrt(d / 200.0), m.sqrt(4.0 * d / 200.0);
    assert q * q == 4.0 * d / 200.0 && 0.0 <= q;
    assert r * r == d / 200.0 && 0.0 <= r;
    assert (2.0 * r) * (2.0 * r) == 4.0 * (r * r);
    SquareRootUnique(q, 2.0 * r);
  }

  /** Concrete cases: 200 units take 3000 ms, 800 take 6000 ms, 50 take 1500 ms. */
  lemma CruiseDurationExamples(m: MathLib)
    requires SoundSqrt(m)
    ensures CruiseDuration(200.0, m) == 3000.0
    ensures CruiseDuration(800.0, m) == 6000.0
    ensures CruiseDuration(50.0, m) == 1500.0
  {
    SquareRootUnique(m.sqrt(1.0), 1.0);
    SquareRootUnique(m.sqrt(0.25), 0.5);
    CruiseDurationSquareRootLaw(200.0, m);
  }

  /** The point the cruise heads for: 1.2 planet sizes above the centre. */
  function HoverPoint(b: Body): Vec3 {
    Above(b.position, b.size * 1.2)
  }

  /** The resting pose: just above the planet's top (size + 0.5 above the centre). */
  function RestingPoint(b: Body): Vec3 {
    Above(b.position, b.size + 0.5)
  }

  /** The upright look target used when at rest and while landing. */
  function UprightHeading(b: Body): Vec3 {
    Above(b.position, b.size * 10.0)
  }

  /** update() at clock reading `now`: the new state and the status it returns. */
  function Step(s: ShipState, now: real, bodies: map<string, Body>, m: MathLib): (r: (ShipState, Status))
    requires Knows(s, bodies)
    ensures Names(r.0) <= Names(s)
    ensures r.1.Arrived? ==> r.0.takeoff == None && r.0.transition == None
    ensures r.1.Arrived? ==> r.1.planet == r.0.homePlanet
  {
    if s.takeoff.Some? then
      var tk := s.takeoff.value;
      var t := Fraction(now - tk.startTime, tk.duration);
      if t >= 1.0 then
        var from, to := bodies[tk.currentPlanet].position, bodies[tk.targetPlanet].position;
        var tr := Transition(s.position, now, CruiseDuration(Distance(from, to, m), m),
                             tk.targetPlanet, tk.currentPlanet, None);
        (s.(transition := Some(tr), takeoff := None), NotArrived)
      else
        var b := bodies[tk.currentPlanet];
        (s.(position := Above(b.position, b.size + 0.5 + b.size * 2.0 * t),
            scale := tk.startScale + (tk.targetScale - tk.startScale) * t,
            heading := Some(Above(b.position, b.size * 20.0))),
         NotArrived)
    else if s.transition.Some? then
      var tr := s.transition.value;
      var t := Fraction(now - tr.startTime, tr.duration);
      var b := bodies[tr.targetPlanet];
      var end := HoverPoint(b);
      var clampedT := Min(t, 1.0);
      var eased := EaseInOutQuad(clampedT);
      if clampedT >= LandingStart then
        var blend := (clampedT - LandingStart) / LandingSpan;
        if clampedT >= 1.0 then
          (s.(homePlanet := tr.targetPlanet, transition := None, position := RestingPoint(b),
              scale := 1.0, heading := Some(UprightHeading(b))),
           Arrived(tr.targetPlanet))
        else
          var flightPos := Lerp(tr.start, end, eased);
          (s.(transition := Some(tr.(hoverPosition := Some(end))),
              position := Lerp(flightPos, RestingPoint(b), blend),
              scale := CruiseScale - blend * 9.0,
              heading := Some(UprightHeading(b))),
           NotArrived)
      else
        (s.(transition := Some(tr.(hoverPosition := Some(end))),
            position := Lerp(tr.start, end, eased),
            scale := CruiseScale,
            heading := Some(Lerp(tr.start, end, Min(eased + 0.1, 1.0)))),
         NotArrived)
    else if s.landing then
      (s.(landing := false), NotArrived)
    else
      var b := bodies[s.homePlanet];
      (s.(scale := 1.0, position := RestingPoint(b), heading := Some(UprightHeading(b))), NotArrived)
  }

  lemma StepKeepsConsistent(s: ShipState, now: real, bodies: map<string, Body>, m: MathLib)
    requires Consistent(s) && Knows(s, bodies)
    ensures Consistent(Step(s, now, bodies, m).0)
  {
  }

  /**
   * A takeoff tick before 1500 ms have passed changes no phase record; it
   * lifts the ship to size + 0.5 + 2 * size * t above the home planet's
   * centre and sets the scale to 1 + 9t.
   */
  lemma TakeoffClimb(s: ShipState, now: real, bodies: map<string, Body>, m: MathLib)
    requires Consistent(s) && Knows(s, bodies) && s.takeoff.Some?
    requires now - s.takeoff.value.startTime < TakeoffDuration
    ensures var t := (now - s.takeoff.value.startTime) / 1500.0;
      var b := bodies[s.homePlanet];
      var (r, st) := Step(s, now, bodies, m);
      && st == NotArrived
      && r.takeoff == s.takeoff && r.transition == s.transition
      && r.landing == s.landing && r.homePlanet == s.homePlanet
      && r.position == Vec3(b.position.x, b.position.y + b.size + 0.5 + 2.0 * b.size * t, b.position.z)
      && r.scale == 1.0 + 9.0 * t
  {
  }

  /**
   * The tick that finds 1500 ms elapsed ends the takeoff: the cruise starts
   * now from the ship's current (frozen) position, lasts
   * 3000 * sqrt(d / 200) for the current distance d between the two planets,
   * and keeps the takeoff's two planets; nothing arrives.
   */
  lemma TakeoffEnds(s: ShipState, now: real, bodies: map<string, Body>, m: MathLib)
    requires Consistent(s) && Knows(s, bodies) && s.takeoff.Some?
    requires now - s.takeoff.value.startTime >= TakeoffDuration
    ensures var tk := s.takeoff.value;
      var d := Distance(bodies[tk.currentPlanet].position, bodies[tk.targetPlanet].position, m);
      var (r, st) := Step(s, now, bodies, m);
      && st == NotArrived
      && r.takeoff == None
      && r.transition == Some(Transition(s.position, now, 3000.0 * m.sqrt(d / 200.0),
                                         tk.targetPlanet, s.homePlanet, None))
      && r.position == s.position && r.scale == s.scale && r.homePlanet == s.homePlanet
  {
  }

  /**
   * Before 85 % of the cruise the ship is on the straight line from the
   * frozen start to the destination's current hover point, at the eased
   * fraction of the way, full size; the cruise goes on.
   */
  lemma CruiseTick(s: ShipState, now: real, bodies: map<string, Body>, m: MathLib)
    requires Knows(s, bodies) && s.takeoff == None && s.transition.Some?
    requires var tr := s.transition.value; Min(Fraction(now - tr.startTime, tr.duration), 1.0) < LandingStart
    ensures var tr := s.transition.value;
      var b := bodies[tr.targetPlanet];
      var t := Fraction(now - tr.startTime, tr.duration);
      var (r, st) := Step(s, now, bodies, m);
      && st == NotArrived
      && r.transition == Some(tr.(hoverPosition := Some(Above(b.position, 1.2 * b.size))))
      && r.position == Lerp(tr.start, Above(b.position, 1.2 * b.size), EaseInOutQuad(t))
      && r.scale == 10.0
      && r.homePlanet == s.homePlanet
  {
  }

  /**
   * In the last 15 % of the cruise the ship moves from the flight-path point
   * towards the resting pose by b = (t - 0.85) / 0.15 and shrinks from 10 to 1.
   */
  lemma LandingBlend(s: ShipState, now: real, bodies: map<string, Body>, m: MathLib)
    requires Knows(s, bodies) && s.takeoff == None && s.transition.Some?
    requires var tr := s.transition.value; LandingStart <= Fraction(now - tr.startTime, tr.duration) < 1.0
    ensures var tr := s.transition.value;
      var b := bodies[tr.targetPlanet];
      var t := Fraction(now - tr.startTime, tr.duration);
      var blend := (t - 0.85) / 0.15;
      var flightPos := Lerp(tr.start, HoverPoint(b), EaseInOutQuad(t));
      var (r, st) := Step(s, now, bodies, m);
      && st == NotArrived && r.transition.Some? && 0.0 <= blend < 1.0
      && r.position == Lerp(flightPos, Above(b.position, b.size + 0.5), blend)
      && r.scale == 10.0 - 9.0 * blend
  {
  }

  /** At exactly 85 % the blend is 0: the ship is on the flight path at full size. */
  lemma LandingBlendStartsOnFlightPath(s: ShipState, now: real, bodies: map<string, Body>, m: MathLib)
    requires Knows(s, bodies) && s.takeoff == None && s.transition.Some?
    requires var tr := s.transition.value; Fraction(now - tr.startTime, tr.duration) == LandingStart
    ensures var tr := s.transition.value;
      var (r, st) := Step(s, now, bodies, m);
      && r.position == Lerp(tr.start, HoverPoint(bodies[tr.targetPlanet]), EaseInOutQuad(0.85))
      && r.scale == 10.0
  {
    LandingBlend(s, now, bodies, m);
  }

  /**
   * The tick that finds the cruise complete lands the ship: the destination
   * becomes home, all phase records are clear, the ship rests on the planet
   * at scale 1, and the tick reports the arrival.
   */
  lemma ArrivalTick(s: ShipState, now: real, bodies: map<string, Body>, m: MathLib)
    requires Consistent(s) && Knows(s, bodies) && s.transition.Some?
    requires var tr := s.transition.value; Fraction(now - tr.startTime, tr.duration) >= 1.0
    ensures var tr := s.transition.value;
      var b := bodies[tr.targetPlanet];
      var (r, st) := Step(s, now, bodies, m);
      && st == Arrived(tr.targetPlanet)
      && r.homePlanet == tr.targetPlanet && !Flying(r)
      && r.position == Above(b.position, b.size + 0.5) && r.scale == 1.0
  {
  }

  /** At rest, a tick pins the ship on top of its home planet at scale 1. */
  lemma RestTick(s: ShipState, now: real, bodies: map<string, Body>, m: MathLib)
    requires Knows(s, bodies) && !Flying(s)
    ensures var b := bodies[s.homePlanet];
      var (r, st) := Step(s, now, bodies, m);
      && st == NotArrived && !Flying(r) && r.homePlanet == s.homePlanet
      && r.position == Above(b.position, b.size + 0.5) && r.scale == 1.0
  {
  }

  // ----- runs of ticks ----------------------------------------------------------

  /** One animation frame as the ship sees it: the clock and the planet table. */
  datatype Tick = Tick(now: real, bodies: map<string, Body>)

  predicate KnownThroughout(names: set<string>, ticks: seq<Tick>) {
    forall i :: 0 <= i < |ticks| ==> names <= ticks[i].bodies.Keys
  }

  /** update() once per frame, with no flyTo in between: the last state and the number of arrivals. */
  function Run(s: ShipState, ticks: seq<Tick>, m: MathLib): (ShipState, nat)
    requires KnownThroughout(Names(s), ticks)
    decreases |ticks|
  {
    if ticks == [] then (s, 0)
    else
      var (s1, st) := Step(s, ticks[0].now, ticks[0].bodies, m);
      var (last, count) := Run(s1, ticks[1..], m);
      (last, count + if st.Arrived? then 1 else 0)
  }

  /** A ship with no takeoff and no cruise reports no arrival, however many ticks pass. */
  lemma {:induction false} GroundedRunNeverArrives(s: ShipState, ticks: seq<Tick>, m: MathLib)
    requires KnownThroughout(Names(s), ticks)
    requires s.takeoff == None && s.transition == None
    ensures Run(s, ticks, m).1 == 0
    ensures var last := Run(s, ticks, m).0;
      last.takeoff == None && last.transition == None && last.homePlanet == s.homePlanet
    decreases |ticks|
  {
    if ticks != [] {
      var s1 := Step(s, ticks[0].now, ticks[0].bodies, m).0;
      GroundedRunNeverArrives(s1, ticks[1..], m);
    }
  }

  /** Between two flyTo calls the ship reports at most one arrival. */
  lemma {:induction false} AtMostOneArrival(s: ShipState, ticks: seq<Tick>, m: MathLib)
    requires KnownThroughout(Names(s), ticks)
    ensures Run(s, ticks, m).1 <= 1
    decreases |ticks|
  {
    if ticks != [] {
      var (s1, st) := Step(s, ticks[0].now, ticks[0].bodies, m);
      if st.Arrived? {
        GroundedRunNeverArrives(s1, ticks[1..], m);
      } else {
        AtMostOneArrival(s1, ticks[1..], m);
      }
    }
  }

  /**
   * A cruise of positive duration whose last tick comes at or after its end
   * reports exactly one arrival.
   */
  lemma {:induction false} CruiseArrivesExactlyOnce(s: ShipState, ticks: seq<Tick>, m: MathLib)
    requires KnownThroughout(Names(s), ticks)
    requires s.takeoff == None && s.transition.Some? && 0.0 < s.transition.value.duration
    requires ticks != [] && ticks[|ticks| - 1].now - s.transition.value.startTime >= s.transition.value.duration
    ensures Run(s, ticks, m).1 == 1
    decreases |ticks|
  {
    var (s1, st) := Step(s, ticks[0].now, ticks[0].bodies, m);
    if st.Arrived? {
      GroundedRunNeverArrives(s1, ticks[1..], m);
    } else {
      assert |ticks| > 1;
      assert s1.transition.value.startTime == s.transition.value.startTime;
      assert s1.transition.value.duration == s.transition.value.duration;
      assert ticks[1..][|ticks[1..]| - 1] == ticks[|ticks| - 1];
      CruiseArrivesExactlyOnce(s1, ticks[1..], m);
    }
  }

  // ----- what the camera reads ------------------------------------------------

  /** The fields of getCameraTrackingInfo() the camera director uses. */
  datatype TrackingInfo = TrackingInfo(shipPosition: Vec3, targetPlanet: string, flightProgress: real)

  function CameraTracking(s: ShipState, now: real): (r: TrackingInfo)
    ensures r.shipPosition == s.position
    ensures r.targetPlanet in Names(s)
    ensures !Flying(s) ==> r.targetPlanet == s.homePlanet && r.flightProgress == 0.0
  {
    TrackingInfo(
      s.position,
      if s.transition.Some? then s.transition.value.targetPlanet else s.homePlanet,
      if s.transition.Some? then Fraction(now - s.transition.value.startTime, s.transition.value.duration)
      else if s.takeoff.Some? then Fraction(now - s.takeoff.value.startTime, s.takeoff.value.duration)
      else 0.0)
  }

  /**
   * Read right after a tick that did not arrive, the progress is below 1 while
   * the ship is flying (for a cruise of positive duration): the follow camera's
   * approach blend never completes. During takeoff the reported planet is the
   * home planet, during the cruise the destination.
   */
  lemma TrackingAfterTick(s: ShipState, now: real, bodies: map<string, Body>, m: MathLib)
    requires Consistent(s) && Knows(s, bodies)
    ensures var (r, st) := Step(s, now, bodies, m);
      var info := CameraTracking(r, now);
      && (r.takeoff.Some? ==> info.flightProgress < 1.0 && info.targetPlanet == r.homePlanet)
      && (r.transition.Some? && 0.0 < r.transition.value.duration ==>
            info.flightProgress < 1.0 && info.targetPlanet == r.transition.value.targetPlanet)
  {
    var (r, st) := Step(s, now, bodies, m);
    if r.transition.Some? && 0.0 < r.transition.value.duration && s.takeoff.Some? {
      assert r.transition.value.startTime == now;
    }
  }

  // ----- the controller as an object --------------------------------------------

  /** The Spaceship class: the same fields, updated in place. */
  class Spaceship {
    var position: Vec3
    var scale: real
    var heading: Option<Vec3>
    var takeoff: Option<Takeoff>
    var transition: Option<Transition>
    var landing: bool
    var homePlanet: string

    function State(): ShipState
      reads this
    {
      ShipState(position, scale, heading, takeoff, transition, landing, homePlanet)
    }

    predicate Valid()
      reads this
    {
      Consistent(State())
    }

    constructor (bodies: map<string, Body>)
      ensures State() == Launchpad(bodies)
      ensures Valid()
    {
      position := if "Earth" in bodies then bodies["Earth"].position else Origin;
      scale := 1.0;
      heading := None;
      transition := None;
      takeoff := None;
      landing := false;
      homePlanet := "Earth";
    }

    predicate IsFlying()
      reads this
      ensures IsFlying() <==> Flying(State())
    {
      takeoff.Some? || transition.Some? || landing
    }

    function GetHomePlanet(): (home: string)
      reads this
      ensures home == State().homePlanet
    {
      homePlanet
    }

    function CameraTrackingInfo(now: real): (info: TrackingInfo)
      reads this
      ensures info == CameraTracking(State(), now)
    {
      CameraTracking(State(), now)
    }

    method FlyTo(targetPlanetName: string, now: real)
      modifies this
      ensures State() == AfterFlyTo(old(State()), targetPlanetName, now)
      ensures IsFlying()
    {
      if transition.Some? || takeoff.Some? || landing {
        return;
      }
      takeoff := Some(Takeoff(now, TakeoffDuration, position, TakeoffStartScale, CruiseScale,
                              homePlanet, targetPlanetName));
    }

    method Update(now: real, bodies: map<string, Body>, m: MathLib) returns (status: Status)
      requires Knows(State(), bodies)
      modifies this
      ensures State() == Step(old(State()), now, bodies, m).0
      ensures status == Step(old(State()), now, bodies, m).1
    {
      if takeoff.Some? {
        status := AdvanceTakeoff(now, bodies, m);
      } else if transition.Some? {
        status := AdvanceCruise(now, bodies, m);
      } else if landing {
        landing := false;
        status := NotArrived;
      } else {
        scale := 1.0;
        var planet := bodies[homePlanet];
        position := Above(planet.position, planet.size + 0.5);
        heading := Some(Above(planet.position, planet.size * 10.0));
        status := NotArrived;
      }
    }

    /** The takeoff branch of update(). */
    method AdvanceTakeoff(now: real, bodies: map<string, Body>, m: MathLib) returns (status: Status)
      requires Knows(State(), bodies) && takeoff.Some?
      modifies this
      ensures State() == Step(old(State()), now, bodies, m).0
      ensures status == Step(old(State()), now, bodies, m).1
    {
      var tk := takeoff.value;
      var t := Fraction(now - tk.startTime, tk.duration);
      if t >= 1.0 {
        var startPlanet := bodies[tk.currentPlanet].position;
        var targetPlanet := bodies[tk.targetPlanet].position;
        var distance := Distance(startPlanet, targetPlanet, m);
        var speedScale := m.sqrt(distance / ReferenceDistance);
        transition := Some(Transition(position, now, BaseCruiseDuration * speedScale,
                                      tk.targetPlanet, tk.currentPlanet, None));
        takeoff := None;
        return NotArrived;
      }
      var planet := bodies[tk.currentPlanet];
      var liftHeight := planet.size * 2.0 * t;
      position := Above(planet.position, planet.size + 0.5 + liftHeight);
      scale := tk.startScale + (tk.targetScale - tk.startScale) * t;
      heading := Some(Above(planet.position, planet.size * 20.0));
      return NotArrived;
    }

    /** The cruise branch of update(), landing blend and arrival included. */
    method AdvanceCruise(now: real, bodies: map<string, Body>, m: MathLib) returns (status: Status)
      requires Knows(State(), bodies) && takeoff.None? && transition.Some?
      modifies this
      ensures State() == Step(old(State()), now, bodies, m).0
      ensures status == Step(old(State()), now, bodies, m).1
    {
      scale := CruiseScale;
      var tr := transition.value;
      var t := Fraction(now - tr.startTime, tr.duration);
      var start := tr.start;
      var target := bodies[tr.targetPlanet];
      var end := Above(target.position, target.size * 1.2);
      transition := Some(tr.(hoverPosition := Some(end)));
      var clampedT := Min(t, 1.0);
      var easedT := EaseInOutQuad(clampedT);
      if clampedT >= LandingStart {
        var landingBlend := (clampedT - LandingStart) / LandingSpan;
        if clampedT >= 1.0 {
          homePlanet := tr.targetPlanet;
          transition := None;
          position := Above(target.position, target.size + 0.5);
          scale := 1.0;
          heading := Some(Above(target.position, target.size * 10.0));
          return Arrived(homePlanet);
        }
        var flightPos := Lerp(start, end, easedT);
        var landingPos := Above(target.position, target.size + 0.5);
        position := Lerp(flightPos, landingPos, landingBlend);
        scale := CruiseScale - landingBlend * 9.0;
        heading := Some(Above(target.position, target.size * 10.0));
      } else {
        position := Lerp(start, end, easedT);
        heading := Some(Lerp(start, end, Min(easedT + 0.1, 1.0)));
      }
      return NotArrived;
    }
  }
}
