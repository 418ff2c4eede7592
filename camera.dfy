/**
 * The camera director's arithmetic in js/main.js: where zoomToPlanet aims
 * the camera, the per-tick override of that aim in updatePlanetPositions,
 * one frame of the zoom-in, one frame of the return animation, and the
 * ship-follow pose. Everything here is a value computation; the
 * SolarSystem class (module Navigation) applies it to its fields.
 */
module Camera {
  import opened Options
  import opened Geometry
  import opened Orbit

  /** animationDuration, and the progress added per zoom frame and per return frame. */
  const AnimationDuration: real := 2.0
  const ZoomStep: real := 0.01
  const ReturnStep: real := 0.02

  /** The startup camera position, kept as initialCameraPosition. */
  const InitialCameraPosition: Vec3 := Vec3(500.0, 500.0, 500.0)

  /** Where the camera is and the point it looks at (camera.lookAt(p)). */
  datatype Pose = Pose(position: Vec3, lookAt: Vec3)

  /** Ringed planets are viewed from further out. */
  function RingFactor(hasRing: bool): (r: real)
    ensures 1.0 <= r
    ensures hasRing <==> r > 1.0
  {
    if hasRing then 1.5 else 1.0
  }

  // ----- zoomToPlanet and the tracked aim ---------------------------------------

  /**
   * zoomToPlanet's target: up and out along (+x, +z) from the planet by a
   * base distance of 250, scaled by max(1, size/10) and by the ring factor,
   * and 0.7 of the base distance up.
   */
  function ZoomOffsetTarget(planet: Vec3, data: PlanetData): (r: Vec3)
    ensures r.y - planet.y == 175.0
    ensures r.x - planet.x == r.z - planet.z
    ensures r.x - planet.x >= 250.0 * RingFactor(data.hasRing)
    ensures data.size <= 10.0 ==> r.x - planet.x == 250.0 * RingFactor(data.hasRing)
    ensures data.size >= 10.0 ==> r.x - planet.x == 25.0 * data.size * RingFactor(data.hasRing)
  {
    var baseDistance := 250.0;
    var sizeFactor := Max(1.0, data.size / 10.0);
    var ringFactor := RingFactor(data.hasRing);
    assert baseDistance * sizeFactor * ringFactor >= baseDistance * ringFactor by {
      assert (sizeFactor - 1.0) * (baseDistance * ringFactor) >= 0.0;
    }
    Vec3(planet.x + baseDistance * sizeFactor * ringFactor,
         planet.y + baseDistance * 0.7,
         planet.z + baseDistance * sizeFactor * ringFactor)
  }

  /**
   * updatePlanetPositions' aim while zoomed on this planet: 0.8 of the way
   * out from the Sun along the planet's orbit radius, at 8 times its size.
   */
  function TrackedZoomTarget(p: PlanetObject): (r: Vec3)
    ensures r.y == 8.0 * p.data.size
    ensures 0.0 <= r.x * p.position.x && 0.0 <= r.z * p.position.z
  {
    Vec3(p.position.x * 0.8, p.data.size * 8.0, p.position.z * 0.8)
  }

  /**
   * The tracked aim sits inside the orbit, on the Sun's side of the planet:
   * its horizontal distance from the Sun is 0.8 of the planet's, while
   * zoomToPlanet's aim is at least 250 out in +x.
   */
  lemma TrackedTargetInsideOrbit(p: PlanetObject)
    ensures var r := TrackedZoomTarget(p);
      r.x * r.x + r.z * r.z == 0.64 * (p.position.x * p.position.x + p.position.z * p.position.z)
    ensures TrackedZoomTarget(p).y == 8.0 * p.data.size
  {
    var r := TrackedZoomTarget(p);
    assert r.x * r.x == 0.64 * (p.position.x * p.position.x);
    assert r.z * r.z == 0.64 * (p.position.z * p.position.z);
  }

  // ----- the zoom-in ------------------------------------------------------------

  /**
   * One frame of animate()'s zoom branch: add 0.01 to the progress, and while
   * the progress is below the duration place the camera on the segment from
   * the remembered start to the aim at min(progress / 2, 1). Returns the new
   * progress and camera position.
   */
  function ZoomFrame(progress: real, original: Vec3, target: Vec3, position: Vec3): (r: (real, Vec3))
    ensures r.0 == progress + ZoomStep
    ensures AnimationDuration <= r.0 ==> r.1 == position
    ensures 0.0 <= progress && r.0 < AnimationDuration ==> r.1 == Lerp(original, target, r.0 / AnimationDuration)
  {
    var p := progress + ZoomStep;
    var t := Min(p / AnimationDuration, 1.0);
    (p, if p < AnimationDuration then Lerp(original, target, t) else position)
  }

  /** `n` zoom frames from progress 0 with a fixed aim, starting from camera position `start`. */
  function ZoomRun(original: Vec3, target: Vec3, start: Vec3, n: nat): (r: (real, Vec3))
    ensures r.0 == ZoomStep * (n as real)
    decreases n
  {
    if n == 0 then (0.0, start)
    else
      var (p, c) := ZoomRun(original, target, start, n - 1);
      ZoomFrame(p, original, target, c)
  }

  /**
   * After `n` frames the progress is n/100 and the camera sits at the
   * fraction min(n, 199)/200 of the way: the 200th frame reaches the
   * duration and moves nothing, so the last move is at 0.995.
   */
  lemma {:induction false} ZoomRunPosition(original: Vec3, target: Vec3, start: Vec3, n: nat)
    ensures ZoomRun(original, target, start, n).0 == 0.01 * (n as real)
    ensures 0 < n ==>
      ZoomRun(original, target, start, n).1 == Lerp(original, target, 0.005 * (if n < 199 then n else 199) as real)
    decreases n
  {
    if 0 < n {
      ZoomRunPosition(original, target, start, n - 1);
      var p := 0.01 * (n as real);
      assert p == 0.01 * ((n - 1) as real) + ZoomStep;
      if n < 200 {
        assert p < AnimationDuration;
        assert Min(p / AnimationDuration, 1.0) == 0.005 * (n as real);
      } else {
        assert !(p < AnimationDuration);
      }
    }
  }

  /** The zoom-in never reaches its aim: a camera that starts elsewhere stops short. */
  lemma ZoomStopsShortOfTarget(original: Vec3, target: Vec3, start: Vec3, n: nat)
    requires original != target
    ensures 0 < n ==> ZoomRun(original, target, start, n).1 != target
    ensures 199 <= n ==> ZoomRun(original, target, start, n).1 == Lerp(original, target, 0.995)
  {
    ZoomRunPosition(original, target, start, n);
    if 0 < n {
      LerpShortOfEnd(original, target, 0.005 * (if n < 199 then n else 199) as real);
    }
  }

  /** Short of the fraction 1, a lerp between distinct points is not at the far end. */
  lemma LerpShortOfEnd(a: Vec3, b: Vec3, k: real)
    requires a != b && k != 1.0
    ensures Lerp(a, b, k) != b
  {
    if Lerp(a, b, k) == b {
      FactorVanishes(b.x - a.x, 1.0 - k);
      FactorVanishes(b.y - a.y, 1.0 - k);
      FactorVanishes(b.z - a.z, 1.0 - k);
    }
  }

  lemma FactorVanishes(u: real, v: real)
    requires u * v == 0.0 && v != 0.0
    ensures u == 0.0
  {
    assert u == (u * v) / v;
  }

  // ----- the return animation ---------------------------------------------------

  /** The state of an animateReturn chain: progress, camera position, whether it re-arms. */
  datatype ReturnState = ReturnState(progress: real, position: Vec3, live: bool)

  /**
   * One call of animateReturn: below the duration, add 0.02 and place the
   * camera at min(progress / 2, 1) of the way from the remembered position
   * to the initial one, and re-arm; otherwise copy the initial position and stop.
   */
  function ReturnFrame(progress: real, from: Vec3, home: Vec3): (r: ReturnState)
    ensures r.live <==> progress < AnimationDuration
    ensures !r.live ==> r.position == home && r.progress == progress
    ensures 0.0 <= progress < AnimationDuration ==> 0.0 < r.progress
  {
    if progress < AnimationDuration then
      var p := progress + ReturnStep;
      ReturnState(p, Lerp(from, home, Min(p / AnimationDuration, 1.0)), true)
    else
      ReturnState(progress, home, false)
  }

  /** A chain started at progress 0 from `from`, after `n` calls (it stops once it ends). */
  function ReturnRun(from: Vec3, home: Vec3, n: nat): (r: ReturnState)
    ensures 0.0 <= r.progress
    ensures !r.live ==> r.position == home
    decreases n
  {
    if n == 0 then ReturnState(0.0, from, true)
    else
      var s := ReturnRun(from, home, n - 1);
      if s.live then ReturnFrame(s.progress, from, home) else s
  }

  /**
   * Undisturbed, the return takes 100 frames along the straight segment, is
   * exactly on the initial position at the 100th, and the 101st call ends the
   * chain there: wherever the camera was, it comes back to the same pose.
   */
  lemma {:induction false} ReturnRunPosition(from: Vec3, home: Vec3, n: nat)
    ensures n <= 100 ==> ReturnRun(from, home, n) == ReturnState(0.02 * (n as real), Lerp(from, home, 0.01 * (n as real)), true)
    ensures 100 < n ==> ReturnRun(from, home, n) == ReturnState(2.0, home, false)
    decreases n
  {
    if 0 < n {
      ReturnRunPosition(from, home, n - 1);
      if n <= 100 {
        var p := 0.02 * (n as real);
        assert p == 0.02 * ((n - 1) as real) + ReturnStep;
        assert Min(p / AnimationDuration, 1.0) == 0.01 * (n as real);
      } else if n == 101 {
        assert ReturnRun(from, home, 100).position == Lerp(from, home, 1.0);
      }
    }
  }

  /** The first frame of a return started from progress 0 covers one hundredth of the way. */
  lemma ReturnFirstFrame(from: Vec3, home: Vec3)
    ensures ReturnFrame(0.0, from, home) == ReturnState(ReturnStep, Lerp(from, home, 0.01), true)
  {
    assert Min(ReturnStep / AnimationDuration, 1.0) == 0.01;
  }

  // ----- following the ship -----------------------------------------------------

  /** Where the approach blend pulls the camera: 2 sizes out along (+x, +z) and 2 sizes up. */
  function ApproachPoint(planet: Vec3, data: PlanetData): (r: Vec3)
    ensures r.y - planet.y == 2.0 * data.size
    ensures r.x - planet.x == r.z - planet.z == 2.0 * data.size * RingFactor(data.hasRing)
  {
    var ringFactor := RingFactor(data.hasRing);
    Vec3(planet.x + data.size * 2.0 * ringFactor,
         planet.y + data.size * 2.0,
         planet.z + data.size * 2.0 * ringFactor)
  }

  /** The chase offset: 30 back along the ship-to-planet direction, 20 up, 20 to the side. */
  function ChaseOffset(dir: Vec3, m: MathLib): (r: Vec3)
    ensures r.y == 20.0 - 30.0 * dir.y
  {
    var side := Normalize(Cross(dir, WorldUp), m);
    ChaseSideIsSquare(dir, m);
    Add(Add(Scale(dir, -30.0), Vec3(0.0, 20.0, 0.0)), Scale(side, 20.0))
  }

  /**
   * animate()'s follow branch for a known target planet. Below 0.85 of the
   * flight the camera rides behind and above the ship; from 0.85 it is pulled
   * from where it is towards the approach point by (progress - 0.85) / 0.15.
   * Either way it looks at the target planet.
   */
  function FollowCamera(camera: Vec3, ship: Vec3, planet: Vec3, data: PlanetData,
                        progress: real, m: MathLib): (r: Pose)
    ensures r.lookAt == planet
  {
    var dir := Normalize(Sub(planet, ship), m);
    if progress < 0.85 then
      Pose(Add(ship, ChaseOffset(dir, m)), planet)
    else
      Pose(Lerp(camera, ApproachPoint(planet, data), (progress - 0.85) / 0.15), planet)
  }

  /** The side offset is horizontal and square to the direction of travel. */
  lemma ChaseSideIsSquare(dir: Vec3, m: MathLib)
    ensures var side := Normalize(Cross(dir, WorldUp), m);
      side.y == 0.0 && Dot(side, dir) == 0.0
  {
    var c := Cross(dir, WorldUp);
    CrossUpIsHorizontal(dir);
    var len := Length(c, m);
    if len != 0.0 {
      var k := 1.0 / len;
      assert Dot(Scale(c, k), dir) == k * (c.x * dir.x + c.z * dir.z);
    }
  }

  /**
   * While chasing, the camera is 20 plus 30 times the downward slope above
   * the ship; on a level leg (ship and planet at one height) exactly 20 above.
   */
  lemma ChaseHeight(camera: Vec3, ship: Vec3, planet: Vec3, data: PlanetData, progress: real, m: MathLib)
    requires progress < 0.85
    ensures var dir := Normalize(Sub(planet, ship), m);
      FollowCamera(camera, ship, planet, data, progress, m).position.y == ship.y - 30.0 * dir.y + 20.0
    ensures ship.y == planet.y ==> FollowCamera(camera, ship, planet, data, progress, m).position.y == ship.y + 20.0
  {
    var d := Sub(planet, ship);
    var dir := Normalize(d, m);
    ChaseSideIsSquare(dir, m);
    if ship.y == planet.y {
      assert d.y == 0.0;
      assert dir.y == 0.0;
    }
  }

  /** The approach blend starts where the camera is and would end on the approach point. */
  lemma ApproachBlendEnds(camera: Vec3, ship: Vec3, planet: Vec3, data: PlanetData, m: MathLib)
    ensures FollowCamera(camera, ship, planet, data, 0.85, m).position == camera
    ensures FollowCamera(camera, ship, planet, data, 1.0, m).position == ApproachPoint(planet, data)
  {
    assert (1.0 - 0.85) / 0.15 == 1.0;
  }

  // ----- one animate() frame of the director's fields -----------------------------

  /**
   * The fields animate() moves: the camera pose, the remembered start
   * (originalCameraPosition), the aim (targetCameraPosition), the look point
   * (cameraLookAt) and the animation progress.
   */
  datatype Director = Director(camera: Pose, original: Vec3, aim: Vec3, lookAt: Vec3, progress: real)

  /** What the follow branch reads: the ship's position, the flight progress and the target planet's entry. */
  datatype Chase = Chase(ship: Vec3, progress: real, target: PlanetObject)

  /**
   * The orbit step's re-aim and the zoom branch, for the (already advanced)
   * planet whose panel is open: aim at its tracked point, look at it, add
   * 0.01 to the progress and move along the segment from the remembered
   * start. With no panel open nothing moves.
   */
  function ZoomTick(v: Director, open: Option<PlanetObject>): (r: Director)
    ensures open.None? ==> r == v
    ensures open.Some? ==>
      && r.original == v.original
      && r.aim == TrackedZoomTarget(open.value)
      && r.lookAt == open.value.position && r.camera.lookAt == open.value.position
      && r.camera.position == ZoomFrame(v.progress, v.original, r.aim, v.camera.position).1
      && r.progress == v.progress + ZoomStep
  {
    match open
    case None => v
    case Some(p) =>
      var aim := TrackedZoomTarget(p);
      var f := ZoomFrame(v.progress, v.original, aim, v.camera.position);
      Director(Pose(f.1, p.position), v.original, aim, p.position, f.0)
  }

  /** The follow branch: with a flight to follow the camera takes the follow pose, otherwise it stays. */
  function ChaseTick(camera: Pose, chase: Option<Chase>, m: MathLib): (r: Pose)
    ensures chase.None? ==> r == camera
    ensures chase.Some? ==> r.lookAt == chase.value.target.position
    ensures chase.Some? && 0.85 <= chase.value.progress ==>
      r.position == Lerp(camera.position, ApproachPoint(chase.value.target.position, chase.value.target.data),
                         (chase.value.progress - 0.85) / 0.15)
  {
    match chase
    case None => camera
    case Some(c) => FollowCamera(camera.position, c.ship, c.target.position, c.target.data, c.progress, m)
  }

  /**
   * One animate() frame of the director, arrival aside: the zoom step and
   * then the follow pose. The follow pose overrides the zoom's camera but not
   * its aim, look point or progress; with neither a panel open nor a flight
   * followed, the frame changes nothing.
   */
  function FrameTick(v: Director, open: Option<PlanetObject>, chase: Option<Chase>, m: MathLib): (r: Director)
    ensures r.original == v.original
    ensures open.None? && chase.None? ==> r == v
    ensures open.None? ==> r.aim == v.aim && r.lookAt == v.lookAt && r.progress == v.progress
    ensures open.Some? ==>
      && r.aim == TrackedZoomTarget(open.value) && r.lookAt == open.value.position
      && r.progress == v.progress + ZoomStep
    ensures chase.None? ==> r.camera == ZoomTick(v, open).camera
    ensures chase.Some? ==> r.camera.lookAt == chase.value.target.position
  {
    var z := ZoomTick(v, open);
    z.(camera := ChaseTick(z.camera, chase, m))
  }
}
