/**
 * The navigation coordinator of js/main.js (class SolarSystem): the planet
 * table and its orbit tick, the decisions taken on a menu selection and on
 * a click, the 50 ms deferred steps those decisions schedule, the zoom-in,
 * the return to the overview, and the per-frame animate() tick that hands
 * the camera from the ship to the planet it lands on.
 *
 * Timers and animation frames are not run by the model: a decision that
 * the source defers with setTimeout is appended to `pending`, and
 * RunDeferred fires the oldest; each live requestAnimationFrame chain of
 * the return animation is an entry of `returnChains`, advanced by
 * AnimateReturnFrame. When each of them fires relative to animate() is up
 * to the caller, as it is up to the browser.
 */
module Navigation {
  import opened Options
  import opened Geometry
  import opened Orbit
  import opened Flight
  import opened Ui
  import opened Camera

  /** A step scheduled 50 ms after the panel was closed, and the planet it is for. */
  datatype Deferred =
    | SelectAfterClose(planet: string)  // handlePlanetSelect: decides when it fires
    | ZoomAfterClose(planet: string)    // onMouseClick: zoom decided at click time
    | LaunchAfterClose(planet: string)  // onMouseClick: launch decided at click time

  /** What a handler does with the planet it was given. */
  datatype Decision = Launch | Zoom | CloseThen(later: Deferred) | Ignore

  /** The TypeError the back button raises: UI has no hideContentPanel method. */
  const HideContentPanelError: string := "TypeError: this.ui.hideContentPanel is not a function"

  // ----- the two handlers' choices --------------------------------------------

  /**
   * handlePlanetSelect's choice from the state it reads: with a panel open
   * on another planet it closes and defers; otherwise it launches to a
   * planet that is not home while the ship is at rest, and zooms on home.
   */
  function SelectDecision(zoomed: bool, zoomTarget: Option<string>, home: string,
                          flying: bool, name: string): (r: Decision)
    ensures r.CloseThen? <==> zoomed && zoomTarget != Some(name)
    ensures r.CloseThen? ==> r.later == SelectAfterClose(name)
    ensures r == Launch ==> !flying && name != home
    ensures r == Ignore <==> !(zoomed && zoomTarget != Some(name)) && flying && name != home
  {
    if zoomed && zoomTarget != Some(name) then CloseThen(SelectAfterClose(name))
    else if name != home && !flying then Launch
    else if name == home then Zoom
    else Ignore
  }

  /**
   * onMouseClick's choice for a hit planet: the launch test comes first, a
   * zoom on home only when no panel is open, and closing a panel open on
   * another planet decides at click time what the deferred step will do.
   */
  function ClickDecision(zoomed: bool, zoomTarget: Option<string>, home: string,
                         flying: bool, name: string): (r: Decision)
    ensures r == Launch <==> name != home && !flying
    ensures r == Zoom <==> name == home && !zoomed
    ensures r.CloseThen? ==> zoomed && zoomTarget != Some(name) && r.later.planet == name
  {
    if name != home && !flying then Launch
    else if name == home && !zoomed then Zoom
    else if zoomed && zoomTarget != Some(name) then
      CloseThen(if name == home then ZoomAfterClose(name) else LaunchAfterClose(name))
    else Ignore
  }

  /** What a deferred step does when it fires, given the home planet at that moment. */
  function FiredDecision(d: Deferred, home: string): (r: Decision)
    ensures r == Launch || r == Zoom
    ensures d.SelectAfterClose? ==> (r == Launch <==> d.planet != home)
  {
    match d
    case SelectAfterClose(name) => if name != home then Launch else Zoom
    case ZoomAfterClose(_) => Zoom
    case LaunchAfterClose(_) => Launch
  }

  /** With no panel open, a menu selection and a click on the same planet do the same. */
  lemma DecisionsAgreeWhenClosed(zoomTarget: Option<string>, home: string, flying: bool, name: string)
    ensures SelectDecision(false, zoomTarget, home, flying, name) == ClickDecision(false, zoomTarget, home, flying, name)
    ensures SelectDecision(false, zoomTarget, home, flying, name) != Ignore <==> (name == home || !flying)
  {
  }

  /** A menu selection closes first exactly when a panel is open on another planet. */
  lemma SelectClosesFirst(zoomed: bool, zoomTarget: Option<string>, home: string, flying: bool, name: string)
    ensures SelectDecision(zoomed, zoomTarget, home, flying, name).CloseThen? <==> zoomed && zoomTarget != Some(name)
  {
  }

  /**
   * The handlers disagree: from a panel open on another planet, with the
   * ship at rest, a click launches at once and leaves the panel open, while
   * the menu closes the panel and leaves the launch to the deferred step.
   */
  lemma ClickLaunchesThroughOpenPanel(zoomTarget: Option<string>, home: string, name: string)
    requires zoomTarget != Some(name) && name != home
    ensures ClickDecision(true, zoomTarget, home, false, name) == Launch
    ensures SelectDecision(true, zoomTarget, home, false, name) == CloseThen(SelectAfterClose(name))
  {
  }

  /** An immediate launch is only chosen for a planet other than home while the ship is at rest. */
  lemma ImmediateLaunchFromRestOnly(zoomed: bool, zoomTarget: Option<string>, home: string, flying: bool, name: string)
    ensures SelectDecision(zoomed, zoomTarget, home, flying, name) == Launch ==> !flying && name != home
    ensures ClickDecision(zoomed, zoomTarget, home, flying, name) == Launch ==> !flying && name != home
  {
  }

  /**
   * A click defers a launch only while the ship is flying: the flyTo in that
   * step is ignored unless the flight has ended by the time it fires.
   */
  lemma ClickDefersLaunchOnlyInFlight(zoomed: bool, zoomTarget: Option<string>, home: string, flying: bool, name: string)
    ensures ClickDecision(zoomed, zoomTarget, home, flying, name).CloseThen? ==>
      ClickDecision(zoomed, zoomTarget, home, flying, name).later.planet == name
    ensures ClickDecision(zoomed, zoomTarget, home, flying, name) == CloseThen(LaunchAfterClose(name)) ==>
      flying && name != home && zoomed
  {
  }

  /**
   * Picking the home planet whose panel is already open: the menu zooms
   * again (restarting the zoom-in), the click does nothing.
   */
  lemma ReselectingOpenHome(home: string, flying: bool)
    ensures SelectDecision(true, Some(home), home, flying, home) == Zoom
    ensures ClickDecision(true, Some(home), home, flying, home) == Ignore
  {
  }

  // ----- the planet table -------------------------------------------------------

  /** What the ship reads of each planet entry. */
  function Bodies(planets: map<string, PlanetObject>): (r: map<string, Body>)
    ensures r.Keys == planets.Keys
    ensures forall n :: n in r ==> r[n] == Body(planets[n].position, planets[n].data.size)
  {
    map n | n in planets :: Body(planets[n].position, planets[n].data.size)
  }

  /** One orbit tick applied to every entry. */
  function AdvanceAll(planets: map<string, PlanetObject>, zoomed: bool, m: MathLib): (r: map<string, PlanetObject>)
    ensures r.Keys == planets.Keys
    ensures forall n :: n in r ==> r[n] == AdvancePlanet(planets[n], zoomed, m)
  {
    map n | n in planets :: AdvancePlanet(planets[n], zoomed, m)
  }

  predicate Distinct(names: seq<string>) {
    forall i, j :: 0 <= i < j < |names| ==> names[i] != names[j]
  }

  /** The entry createPlanet stores for the planet created `index`-th. */
  function NewPlanet(d: PlanetData, index: nat, random: real, m: MathLib): (r: PlanetObject)
    requires 0.0 <= random < 1.0
    ensures r.data == d && r.position.y == 0.0
    ensures (index as real) * (Pi / 4.0) <= r.angle < (index as real) * (Pi / 4.0) + Pi / 2.0
  {
    var angle := InitialAngle(index, random);
    PlanetObject(d, angle, OrbitPosition(d.distance, angle, m))
  }

  /** The planet table createPlanet leaves behind for the configurations seen so far. */
  function Created(configs: seq<PlanetData>, randoms: seq<real>, m: MathLib, n: nat): (r: map<string, PlanetObject>)
    requires n <= |configs| == |randoms|
    requires forall i :: 0 <= i < |randoms| ==> 0.0 <= randoms[i] < 1.0
    ensures forall name :: name in r ==> r[name].data.name == name && r[name].position.y == 0.0
    decreases n
  {
    if n == 0 then map[]
    else
      var d := configs[n - 1];
      Created(configs, randoms, m, n - 1)[d.name := NewPlanet(d, n - 1, randoms[n - 1], m)]
  }

  /** Every key of the table is the name of a configuration seen. */
  lemma {:induction false} CreatedDomain(configs: seq<PlanetData>, randoms: seq<real>, m: MathLib, n: nat)
    requires n <= |configs| == |randoms|
    requires forall i :: 0 <= i < |randoms| ==> 0.0 <= randoms[i] < 1.0
    ensures forall name :: name in Created(configs, randoms, m, n) ==> exists i :: 0 <= i < n && configs[i].name == name
    decreases n
  {
    if 0 < n {
      CreatedDomain(configs, randoms, m, n - 1);
      forall name | name in Created(configs, randoms, m, n)
        ensures exists i :: 0 <= i < n && configs[i].name == name
      {
        if name != configs[n - 1].name {
          assert name in Created(configs, randoms, m, n - 1);
        }
      }
    }
  }

  /** With distinct names, the planet created i-th sits under its own name with its starting angle. */
  lemma {:induction false} CreatedAt(configs: seq<PlanetData>, randoms: seq<real>, m: MathLib, n: nat)
    requires n <= |configs| == |randoms|
    requires forall i :: 0 <= i < |randoms| ==> 0.0 <= randoms[i] < 1.0
    requires forall i, j :: 0 <= i < j < |configs| ==> configs[i].name != configs[j].name
    ensures forall i :: 0 <= i < n ==>
      configs[i].name in Created(configs, randoms, m, n) &&
      Created(configs, randoms, m, n)[configs[i].name] == NewPlanet(configs[i], i, randoms[i], m)
    decreases n
  {
    if 0 < n {
      CreatedAt(configs, randoms, m, n - 1);
      forall i | 0 <= i < n - 1
        ensures configs[i].name != configs[n - 1].name
      {
      }
    }
  }

  /** With distinct names, the table holds one entry per configuration seen. */
  lemma {:induction false} CreatedCount(configs: seq<PlanetData>, randoms: seq<real>, m: MathLib, n: nat)
    requires n <= |configs| == |randoms|
    requires forall i :: 0 <= i < |randoms| ==> 0.0 <= randoms[i] < 1.0
    requires forall i, j :: 0 <= i < j < |configs| ==> configs[i].name != configs[j].name
    ensures |Created(configs, randoms, m, n)| == n
    decreases n
  {
    if 0 < n {
      CreatedCount(configs, randoms, m, n - 1);
      CreatedDomain(configs, randoms, m, n - 1);
      assert configs[n - 1].name !in Created(configs, randoms, m, n - 1);
    }
  }

  /**
   * With distinct names, the planets created in order sit under their own
   * names with the starting angle for their index, one entry each, and
   * there are no other entries.
   */
  lemma CreatedEntries(configs: seq<PlanetData>, randoms: seq<real>, m: MathLib, n: nat)
    requires n <= |configs| == |randoms|
    requires forall i :: 0 <= i < |randoms| ==> 0.0 <= randoms[i] < 1.0
    requires forall i, j :: 0 <= i < j < |configs| ==> configs[i].name != configs[j].name
    ensures |Created(configs, randoms, m, n)| == n
    ensures forall name :: name in Created(configs, randoms, m, n) <==> exists i :: 0 <= i < n && configs[i].name == name
    ensures forall i :: 0 <= i < n ==> Created(configs, randoms, m, n)[configs[i].name] == NewPlanet(configs[i], i, randoms[i], m)
  {
    CreatedDomain(configs, randoms, m, n);
    CreatedAt(configs, randoms, m, n);
    CreatedCount(configs, randoms, m, n);
  }

  /** The table part-way through the orbit tick: the entries named in `done` have moved. */
  function AdvanceSome(planets: map<string, PlanetObject>, done: seq<string>, zoomed: bool, m: MathLib): map<string, PlanetObject> {
    map n | n in planets :: if n in done then AdvancePlanet(planets[n], zoomed, m) else planets[n]
  }

  /** Moving one more not-yet-moved entry extends the tick by that entry. */
  lemma AdvanceOneMore(planets: map<string, PlanetObject>, done: seq<string>, name: string, zoomed: bool, m: MathLib)
    requires name in planets && name !in done
    ensures AdvanceSome(planets, done + [name], zoomed, m)
         == AdvanceSome(planets, done, zoomed, m)[name := AdvancePlanet(planets[name], zoomed, m)]
    ensures AdvanceSome(planets, done, zoomed, m)[name] == planets[name]
  {
    var lhs := AdvanceSome(planets, done + [name], zoomed, m);
    var rhs := AdvanceSome(planets, done, zoomed, m)[name := AdvancePlanet(planets[name], zoomed, m)];
    assert lhs.Keys == rhs.Keys;
    forall n | n in lhs
      ensures lhs[n] == rhs[n]
    {
      assert n in done + [name] <==> n in done || n == name;
    }
  }

  /** Once every key is in `done`, the partial tick is the whole tick. */
  lemma AdvanceAllDone(planets: map<string, PlanetObject>, done: seq<string>, zoomed: bool, m: MathLib)
    requires planets.Keys == set n | n in done
    ensures AdvanceSome(planets, done, zoomed, m) == AdvanceAll(planets, zoomed, m)
  {
    assert forall n :: n in planets ==> n in done;
  }

  /**
   * The first `n` configurations, created under distinct non-empty names,
   * give a table keyed exactly by their names, with no entry named "".
   */
  lemma CreatedKeys(configs: seq<PlanetData>, randoms: seq<real>, m: MathLib, names: seq<string>)
    requires |configs| == |randoms| == |names|
    requires forall i :: 0 <= i < |randoms| ==> 0.0 <= randoms[i] < 1.0
    requires forall i, j :: 0 <= i < j < |configs| ==> configs[i].name != configs[j].name
    requires forall i :: 0 <= i < |configs| ==> configs[i].name != "" && names[i] == configs[i].name
    ensures Created(configs, randoms, m, |configs|).Keys == set n | n in names
    ensures Distinct(names)
    ensures "" !in Created(configs, randoms, m, |configs|)
  {
    CreatedEntries(configs, randoms, m, |configs|);
    var table := Created(configs, randoms, m, |configs|);
    forall n | n in table
      ensures n in names
    {
      var i :| 0 <= i < |configs| && configs[i].name == n;
      assert names[i] == n;
    }
    forall n | n in names
      ensures n in table
    {
      var i :| 0 <= i < |names| && names[i] == n;
      assert configs[i].name == n;
    }
  }

  /** createPlanet over the whole configuration table, in order. */
  method CreatePlanets(configs: seq<PlanetData>, randoms: seq<real>, m: MathLib)
    returns (table: map<string, PlanetObject>, names: seq<string>)
    requires |randoms| == |configs|
    requires forall i :: 0 <= i < |randoms| ==> 0.0 <= randoms[i] < 1.0
    requires forall i, j :: 0 <= i < j < |configs| ==> configs[i].name != configs[j].name
    ensures table == Created(configs, randoms, m, |configs|)
    ensures |names| == |configs| && forall i :: 0 <= i < |configs| ==> names[i] == configs[i].name
  {
    table := map[];
    names := [];
    var i := 0;
    while i < |configs|
      invariant 0 <= i <= |configs|
      invariant table == Created(configs, randoms, m, i)
      invariant |names| == i && forall k :: 0 <= k < i ==> names[k] == configs[k].name
    {
      CreatedCount(configs, randoms, m, i);
      var planetData := configs[i];
      // Object.keys(planetObjects).length: the number of planets created so far.
      var angleOffset := (|table| as real) * (Pi * 0.25);
      var angle := angleOffset + randoms[i] * Pi * 0.5;
      assert angle == InitialAngle(i, randoms[i]);
      var position := OrbitPosition(planetData.distance, angle, m);
      table := table[planetData.name := PlanetObject(planetData, angle, position)];
      names := names + [planetData.name];
      i := i + 1;
    }
  }

  /** The entry of the planet whose panel is open, as getIsZoomed() and getTargetPlanet() name it. */
  function Open(planets: map<string, PlanetObject>, zoomed: bool, target: Option<string>): (r: Option<PlanetObject>)
    ensures r.Some? <==> zoomed && target.Some? && target.value in planets
    ensures r.Some? ==> r.value == planets[target.value]
  {
    if zoomed && target.Some? && target.value in planets then Some(planets[target.value]) else None
  }

  // ----- the coordinator ----------------------------------------------------------

  class SolarSystem {
    /** planetObjects, and Object.keys(planetObjects) in insertion order. */
    var planets: map<string, PlanetObject>
    var order: seq<string>
    const ship: Spaceship
    const ui: UI
    var camera: Pose
    const initialCameraPosition: Vec3
    var originalCameraPosition: Vec3
    var targetCameraPosition: Vec3
    var cameraLookAt: Vec3
    var animationProgress: real
    var followingSpaceship: bool
    var activePlanet: Option<string>
    var pending: seq<Deferred>
    var returnChains: seq<Vec3>

    /**
     * The table is keyed by its insertion order; every planet the ship, the
     * open panel or a deferred step names is in the table (the source reads
     * those entries without a check); no planet is named "" (the zoom test
     * in animate() reads the name as a truth value).
     */
    predicate Valid()
      reads this`planets, this`order, this`pending, ship, ui
    {
      && ui.Valid() && ship.Valid()
      && planets.Keys == (set n | n in order)
      && Distinct(order)
      && "" !in planets
      && Names(ship.State()) <= planets.Keys
      && (ui.targetPlanet.Some? ==> ui.targetPlanet.value in planets)
      && (forall i :: 0 <= i < |pending| ==> pending[i].planet in planets)
    }

    /** The camera director's fields as one value. */
    function View(): Director
      reads this`camera, this`originalCameraPosition, this`targetCameraPosition, this`cameraLookAt,
            this`animationProgress
    {
      Director(camera, originalCameraPosition, targetCameraPosition, cameraLookAt, animationProgress)
    }

    /**
     * What the follow branch reads when `following` is the followingSpaceship
     * it tests: nothing unless the ship is flying, otherwise the tracking info
     * and the entry of the planet it names.
     */
    function Chasing(following: bool, now: real): Option<Chase>
      reads this`planets, ship
    {
      if following && ship.IsFlying() then
        var info := ship.CameraTrackingInfo(now);
        if info.targetPlanet in planets then
          Some(Chase(info.shipPosition, info.flightProgress, planets[info.targetPlanet]))
        else None
      else None
    }

    /** The state zoomToPlanet(name) leaves for a known planet. */
    predicate ZoomedOn(name: string)
      reads this, ui
    {
      && name in planets
      && ui.isZoomed && ui.targetPlanet == Some(name)
      && originalCameraPosition == camera.position
      && animationProgress == 0.0
      && targetCameraPosition == ZoomOffsetTarget(planets[name].position, planets[name].data)
      && cameraLookAt == planets[name].position
    }

    /**
     * The constructor and init() up to its first animate() call, which is
     * the caller's first Animate: the planets created in table order with
     * their starting angles, the camera at (500, 500, 500) looking at the
     * Sun, the panel closed and the ship resting on Earth.
     */
    constructor (configs: seq<PlanetData>, randoms: seq<real>, m: MathLib)
      requires |randoms| == |configs|
      requires forall i :: 0 <= i < |randoms| ==> 0.0 <= randoms[i] < 1.0
      requires forall i, j :: 0 <= i < j < |configs| ==> configs[i].name != configs[j].name
      requires forall i :: 0 <= i < |configs| ==> configs[i].name != ""
      requires exists i :: 0 <= i < |configs| && configs[i].name == "Earth"
      ensures Valid()
      ensures planets == Created(configs, randoms, m, |configs|)
      ensures |order| == |configs| && forall i :: 0 <= i < |configs| ==> order[i] == configs[i].name
      ensures camera == Pose(InitialCameraPosition, Origin)
      ensures initialCameraPosition == InitialCameraPosition && originalCameraPosition == InitialCameraPosition
      ensures targetCameraPosition == Origin && cameraLookAt == Origin && animationProgress == 0.0
      ensures !followingSpaceship && activePlanet == None && pending == [] && returnChains == []
      ensures !ui.isZoomed && ship.State() == Launchpad(Bodies(planets))
    {
      var table, names := CreatePlanets(configs, randoms, m);
      CreatedKeys(configs, randoms, m, names);
      var earth :| 0 <= earth < |configs| && configs[earth].name == "Earth";
      assert names[earth] == "Earth";
      assert "Earth" in table;
      planets := table;
      order := names;
      camera := Pose(InitialCameraPosition, Origin);
      originalCameraPosition := InitialCameraPosition;
      initialCameraPosition := InitialCameraPosition;
      targetCameraPosition := Origin;
      cameraLookAt := Origin;
      animationProgress := 0.0;
      followingSpaceship := false;
      activePlanet := None;
      pending := [];
      returnChains := [];
      ui := new UI();
      ship := new Spaceship(Bodies(table));
    }

    /**
     * updatePlanetPositions(): every planet, in table order, takes one orbit
     * step (a fifth of it while a panel is open); the planet whose panel is
     * open also re-aims the zoom at its tracked point and looks at its new position.
     */
    method UpdatePlanetPositions(m: MathLib)
      requires Valid()
      modifies this`planets, this`targetCameraPosition, this`cameraLookAt
      ensures Valid()
      ensures planets == AdvanceAll(old(planets), ui.isZoomed, m)
      ensures ui.isZoomed ==>
        && targetCameraPosition == TrackedZoomTarget(planets[ui.targetPlanet.value])
        && cameraLookAt == planets[ui.targetPlanet.value].position
      ensures !ui.isZoomed ==> targetCameraPosition == old(targetCameraPosition) && cameraLookAt == old(cameraLookAt)
    {
      // getIsZoomed() and getTargetPlanet() give the same answer at every iteration.
      var zoomed := ui.GetIsZoomed();
      var target := ui.GetTargetPlanet();
      ghost var before := planets;
      var i := 0;
      while i < |order|
        invariant 0 <= i <= |order|
        invariant planets == AdvanceSome(before, order[..i], zoomed, m)
        invariant zoomed && target.value in order[..i] ==>
          && targetCameraPosition == TrackedZoomTarget(planets[target.value])
          && cameraLookAt == planets[target.value].position
        invariant !(zoomed && target.value in order[..i]) ==>
          targetCameraPosition == old(targetCameraPosition) && cameraLookAt == old(cameraLookAt)
      {
        var name := order[i];
        assert name in before by {
          assert name in set n | n in order;
        }
        assert name !in order[..i];
        assert order[..i + 1] == order[..i] + [name];
        AdvanceOneMore(before, order[..i], name, zoomed, m);
        UpdatePlanetPosition(name, zoomed, target, m);
        i := i + 1;
      }
      assert order[..i] == order;
      AdvanceAllDone(before, order, zoomed, m);
    }

    /**
     * The forEach callback of updatePlanetPositions for one planet: add the
     * (slowed) speed to the angle, wrap past 2*pi, place the planet on its
     * orbit, and re-aim the zoom when this is the planet whose panel is open.
     */
    method UpdatePlanetPosition(planetName: string, zoomed: bool, target: Option<string>, m: MathLib)
      requires planetName in planets
      modifies this`planets, this`targetCameraPosition, this`cameraLookAt
      ensures planets == old(planets)[planetName := AdvancePlanet(old(planets)[planetName], zoomed, m)]
      ensures zoomed && target == Some(planetName) ==>
        && targetCameraPosition == TrackedZoomTarget(planets[planetName])
        && cameraLookAt == planets[planetName].position
      ensures !(zoomed && target == Some(planetName)) ==>
        targetCameraPosition == old(targetCameraPosition) && cameraLookAt == old(cameraLookAt)
    {
      var planetObj := planets[planetName];
      var angle := planetObj.angle + planetObj.data.speed * SpeedFactor(zoomed);
      if angle > TwoPi {
        angle := angle - TwoPi;
      }
      var x := m.cos(angle) * planetObj.data.distance;
      var z := m.sin(angle) * planetObj.data.distance;
      ghost var next := AdvancePlanet(planetObj, zoomed, m);
      assert angle == NextAngle(planetObj.angle, planetObj.data.speed * SpeedFactor(zoomed));
      assert next.data == planetObj.data && next.angle == angle && next.position == Vec3(x, 0.0, z);
      var updated := planetObj.(angle := angle, position := Vec3(x, 0.0, z));
      assert updated == next;
      planets := planets[planetName := updated];
      if zoomed && target == Some(planetName) {
        targetCameraPosition := Vec3(x * 0.8, planetObj.data.size * 8.0, z * 0.8);
        cameraLookAt := Vec3(x, 0.0, z);
      }
    }

    /**
     * animate()'s zoom branch: with a panel open, look at the planet, add
     * 0.01 to the progress and, below the duration, move the camera along
     * the segment from the remembered start to the aim.
     */
    method ZoomCameraFrame()
      requires Valid()
      modifies this`cameraLookAt, this`animationProgress, this`camera
      ensures Valid()
      ensures ui.isZoomed ==>
        var f := ZoomFrame(old(animationProgress), originalCameraPosition, targetCameraPosition, old(camera.position));
        && cameraLookAt == planets[ui.targetPlanet.value].position
        && animationProgress == f.0
        && camera == Pose(f.1, cameraLookAt)
      ensures !ui.isZoomed ==>
        cameraLookAt == old(cameraLookAt) && animationProgress == old(animationProgress) && camera == old(camera)
    {
      var zoomed := ui.GetIsZoomed();
      var target := ui.GetTargetPlanet();
      if zoomed && target.Some? && target.value != "" && target.value in planets {
        var planetObj := planets[target.value];
        cameraLookAt := planetObj.position;
        animationProgress := animationProgress + ZoomStep;
        var t := Min(animationProgress / AnimationDuration, 1.0);
        if animationProgress < AnimationDuration {
          camera := camera.(position := Lerp(originalCameraPosition, targetCameraPosition, t));
        }
        camera := camera.(lookAt := cameraLookAt);
      }
    }

    /**
     * animate()'s follow branch: while the camera follows a flying ship it
     * takes the follow pose for the planet the tracking info names.
     */
    method FollowShipCamera(now: real, m: MathLib)
      requires Valid()
      modifies this`camera
      ensures Valid()
      ensures followingSpaceship && ship.IsFlying() ==>
        var info := ship.CameraTrackingInfo(now);
        var target := planets[info.targetPlanet];
        camera == FollowCamera(old(camera.position), info.shipPosition, target.position, target.data,
                               info.flightProgress, m)
      ensures !(followingSpaceship && ship.IsFlying()) ==> camera == old(camera)
      ensures camera == ChaseTick(old(camera), Chasing(followingSpaceship, now), m)
    {
      if followingSpaceship && ship.IsFlying() {
        var trackingInfo := ship.CameraTrackingInfo(now);
        assert trackingInfo.targetPlanet in Names(ship.State());
        var targetPlanetObj := planets[trackingInfo.targetPlanet];
        var planetPosition := targetPlanetObj.position;
        var planetSize := targetPlanetObj.data.size;
        var shipPosition := trackingInfo.shipPosition;
        var normalizedDirection := Normalize(Sub(planetPosition, shipPosition), m);
        if trackingInfo.flightProgress < 0.85 {
          var cameraOffset := Scale(normalizedDirection, -30.0);
          cameraOffset := cameraOffset.(y := cameraOffset.y + 20.0);
          var side := Normalize(Cross(normalizedDirection, WorldUp), m);
          cameraOffset := Add(cameraOffset, Scale(side, 20.0));
          camera := Pose(Add(shipPosition, cameraOffset), planetPosition);
        } else {
          var ringFactor := if targetPlanetObj.data.hasRing then 1.5 else 1.0;
          var idealPosition := Vec3(planetPosition.x + planetSize * 2.0 * ringFactor,
                                    planetPosition.y + planetSize * 2.0,
                                    planetPosition.z + planetSize * 2.0 * ringFactor);
          var blendFactor := (trackingInfo.flightProgress - 0.85) / 0.15;
          camera := Pose(Lerp(camera.position, idealPosition, blendFactor), planetPosition);
        }
      }
    }

    /**
     * The launch shared by both handlers and the deferred steps: flyTo(name)
     * (ignored in flight), follow the ship, remember the camera position and
     * restart the progress.
     */
    method StartFollowedFlight(planetName: string, now: real)
      requires Valid() && planetName in planets
      modifies ship, this`followingSpaceship, this`originalCameraPosition, this`animationProgress
      ensures Valid()
      ensures ship.State() == AfterFlyTo(old(ship.State()), planetName, now)
      ensures followingSpaceship && originalCameraPosition == camera.position && animationProgress == 0.0
    {
      FlyToKeepsConsistent(ship.State(), planetName, now);
      ship.FlyTo(planetName, now);
      followingSpaceship := true;
      originalCameraPosition := camera.position;
      animationProgress := 0.0;
    }

    /**
     * zoomToPlanet(name): an unknown name changes nothing; otherwise the
     * panel opens on the planet, the camera's position is remembered, the
     * progress restarts and the camera is aimed at the offset point.
     */
    method ZoomToPlanet(planetName: string)
      requires Valid()
      modifies ui, this`originalCameraPosition, this`animationProgress, this`targetCameraPosition, this`cameraLookAt
      ensures Valid()
      ensures planetName in planets ==> ZoomedOn(planetName)
      ensures planetName !in planets ==>
        && unchanged(ui)
        && unchanged(this`originalCameraPosition, this`animationProgress, this`targetCameraPosition, this`cameraLookAt)
    {
      if planetName !in planets {
        return;
      }
      var planetObj := planets[planetName];
      var planetData := planetObj.data;
      var planetPosition := planetObj.position;
      ui.ShowPlanetContent(planetName);
      originalCameraPosition := camera.position;
      animationProgress := 0.0;
      var baseDistance := 250.0;
      var planetSizeFactor := Max(1.0, planetData.size / 10.0);
      var ringFactor := if planetData.hasRing then 1.5 else 1.0;
      targetCameraPosition := Vec3(planetPosition.x + baseDistance * planetSizeFactor * ringFactor,
                                   planetPosition.y + baseDistance * 0.7,
                                   planetPosition.z + baseDistance * planetSizeFactor * ringFactor);
      cameraLookAt := planetPosition;
    }

    /** returnToMainWithoutAnimation(): the panel closes; the camera stays where it is. */
    method ReturnToMainWithoutAnimation()
      requires Valid()
      modifies ui
      ensures Valid()
      ensures !ui.isZoomed && ui.targetPlanet == None
    {
      ui.ReturnToMain();
    }

    /**
     * handlePlanetSelect(name): records the planet as active and applies
     * SelectDecision, taken on the state at the call.
     */
    method HandlePlanetSelect(planetName: string, now: real)
      requires Valid() && planetName in planets
      modifies this`activePlanet, this`pending, this`followingSpaceship, this`originalCameraPosition,
               this`animationProgress, this`targetCameraPosition, this`cameraLookAt, ship, ui
      ensures Valid()
      ensures activePlanet == Some(planetName)
      ensures var d := SelectDecision(old(ui.isZoomed), old(ui.targetPlanet), old(ship.homePlanet),
                                      old(ship.IsFlying()), planetName);
        && (d.CloseThen? ==>
              && !ui.isZoomed && ui.targetPlanet == None && pending == old(pending) + [d.later]
              && unchanged(ship)
              && unchanged(this`followingSpaceship, this`originalCameraPosition, this`animationProgress,
                           this`targetCameraPosition, this`cameraLookAt))
        && (d.Launch? ==>
              && ship.State() == AfterFlyTo(old(ship.State()), planetName, now)
              && followingSpaceship && originalCameraPosition == camera.position && animationProgress == 0.0
              && unchanged(ui) && pending == old(pending)
              && unchanged(this`targetCameraPosition, this`cameraLookAt))
        && (d.Zoom? ==>
              && ZoomedOn(planetName) && unchanged(ship) && pending == old(pending)
              && followingSpaceship == old(followingSpaceship))
        && (d.Ignore? ==>
              && unchanged(ship) && unchanged(ui) && pending == old(pending)
              && unchanged(this`followingSpaceship, this`originalCameraPosition, this`animationProgress,
                           this`targetCameraPosition, this`cameraLookAt))
    {
      ghost var d := SelectDecision(ui.isZoomed, ui.targetPlanet, ship.homePlanet, ship.IsFlying(), planetName);
      activePlanet := Some(planetName);
      var zoomed := ui.GetIsZoomed();
      var target := ui.GetTargetPlanet();
      if zoomed && planetName != target.value {
        assert d == CloseThen(SelectAfterClose(planetName));
        ReturnToMainWithoutAnimation();
        pending := pending + [SelectAfterClose(planetName)];
        return;
      }
      SelectOnClosedPanel(planetName, now);
    }

    /**
     * The rest of handlePlanetSelect, once no panel is open on another
     * planet: launch from rest to a planet that is not home, zoom on home,
     * and otherwise do nothing.
     */
    method SelectOnClosedPanel(planetName: string, now: real)
      requires Valid() && planetName in planets
      modifies this`followingSpaceship, this`originalCameraPosition,
               this`animationProgress, this`targetCameraPosition, this`cameraLookAt, ship, ui
      ensures Valid()
      ensures planetName != old(ship.homePlanet) && !old(ship.IsFlying()) ==>
        && ship.State() == AfterFlyTo(old(ship.State()), planetName, now)
        && followingSpaceship && originalCameraPosition == camera.position && animationProgress == 0.0
        && unchanged(ui) && unchanged(this`targetCameraPosition, this`cameraLookAt)
      ensures planetName == old(ship.homePlanet) ==>
        ZoomedOn(planetName) && unchanged(ship) && followingSpaceship == old(followingSpaceship)
      ensures planetName != old(ship.homePlanet) && old(ship.IsFlying()) ==>
        && unchanged(ship) && unchanged(ui)
        && unchanged(this`followingSpaceship, this`originalCameraPosition, this`animationProgress,
                     this`targetCameraPosition, this`cameraLookAt)
    {
      if planetName != ship.GetHomePlanet() && !ship.IsFlying() {
        StartFollowedFlight(planetName, now);
      } else if planetName == ship.GetHomePlanet() {
        ZoomToPlanet(planetName);
      }
    }

    /**
     * onMouseClick for a hit-test result: no planet hit changes nothing;
     * otherwise ClickDecision, taken on the state at the click, is applied.
     * Unlike the menu, a click does not change the active planet.
     */
    method OnMouseClick(hit: Option<string>, now: real)
      requires Valid() && (hit.Some? ==> hit.value in planets)
      modifies this`pending, this`followingSpaceship, this`originalCameraPosition,
               this`animationProgress, this`targetCameraPosition, this`cameraLookAt, ship, ui
      ensures Valid()
      ensures hit.None? ==>
        && unchanged(ship) && unchanged(ui) && pending == old(pending)
        && unchanged(this`followingSpaceship, this`originalCameraPosition, this`animationProgress,
                     this`targetCameraPosition, this`cameraLookAt)
      ensures hit.Some? ==>
        var d := ClickDecision(old(ui.isZoomed), old(ui.targetPlanet), old(ship.homePlanet),
                               old(ship.IsFlying()), hit.value);
        && (d.CloseThen? ==>
              && !ui.isZoomed && ui.targetPlanet == None && pending == old(pending) + [d.later]
              && unchanged(ship)
              && unchanged(this`followingSpaceship, this`originalCameraPosition, this`animationProgress,
                           this`targetCameraPosition, this`cameraLookAt))
        && (d.Launch? ==>
              && ship.State() == AfterFlyTo(old(ship.State()), hit.value, now)
              && followingSpaceship && originalCameraPosition == camera.position && animationProgress == 0.0
              && unchanged(ui) && pending == old(pending)
              && unchanged(this`targetCameraPosition, this`cameraLookAt))
        && (d.Zoom? ==>
              && ZoomedOn(hit.value) && unchanged(ship) && pending == old(pending)
              && followingSpaceship == old(followingSpaceship))
        && (d.Ignore? ==>
              && unchanged(ship) && unchanged(ui) && pending == old(pending)
              && unchanged(this`followingSpaceship, this`originalCameraPosition, this`animationProgress,
                           this`targetCameraPosition, this`cameraLookAt))
    {
      if hit.None? {
        return;
      }
      var planetName := hit.value;
      var zoomed := ui.GetIsZoomed();
      var target := ui.GetTargetPlanet();
      if planetName != ship.GetHomePlanet() && !ship.IsFlying() {
        StartFollowedFlight(planetName, now);
      } else if planetName == ship.GetHomePlanet() && !zoomed {
        ZoomToPlanet(planetName);
      } else if zoomed && planetName != target.value {
        ReturnToMainWithoutAnimation();
        if planetName == ship.GetHomePlanet() {
          pending := pending + [ZoomAfterClose(planetName)];
        } else {
          pending := pending + [LaunchAfterClose(planetName)];
        }
      }
    }

    /** The oldest deferred step fires: FiredDecision, on the home planet at that moment. */
    method RunDeferred(now: real)
      requires Valid() && pending != []
      modifies this`pending, this`followingSpaceship, this`originalCameraPosition,
               this`animationProgress, this`targetCameraPosition, this`cameraLookAt, ship, ui
      ensures Valid()
      ensures pending == old(pending[1..])
      ensures var job := old(pending[0]);
        && (FiredDecision(job, old(ship.homePlanet)) == Launch ==>
              && ship.State() == AfterFlyTo(old(ship.State()), job.planet, now)
              && followingSpaceship && originalCameraPosition == camera.position && animationProgress == 0.0
              && unchanged(ui) && unchanged(this`targetCameraPosition, this`cameraLookAt))
        && (FiredDecision(job, old(ship.homePlanet)) == Zoom ==>
              ZoomedOn(job.planet) && unchanged(ship) && followingSpaceship == old(followingSpaceship))
    {
      var job := pending[0];
      pending := pending[1..];
      match job
      case SelectAfterClose(planetName) =>
        if planetName != ship.GetHomePlanet() {
          StartFollowedFlight(planetName, now);
        } else {
          ZoomToPlanet(planetName);
        }
      case ZoomAfterClose(planetName) =>
        ZoomToPlanet(planetName);
      case LaunchAfterClose(planetName) =>
        StartFollowedFlight(planetName, now);
    }

    /**
     * returnToMain() as written: it clears the active planet, then calls a
     * method the UI does not have and throws. The panel stays open, the
     * camera keeps following or zooming and no return animation starts.
     */
    method ReturnToMainAsWritten() returns (outcome: Outcome)
      requires Valid()
      modifies this`activePlanet
      ensures Valid()
      ensures activePlanet == None && outcome == Threw(HideContentPanelError)
      ensures ui.isZoomed == old(ui.isZoomed) && ui.targetPlanet == old(ui.targetPlanet)
      ensures followingSpaceship == old(followingSpaceship) && returnChains == old(returnChains)
    {
      activePlanet := None;
      outcome := Threw(HideContentPanelError);
    }

    /**
     * returnToMain() with the panel-hiding call doing what ui.returnToMain()
     * already does: the panel closes, following stops, the progress restarts
     * and a return chain starts from the current camera position, running
     * its first frame at once.
     */
    method ReturnToMain() returns (outcome: Outcome)
      requires Valid()
      modifies this`activePlanet, this`followingSpaceship, this`animationProgress, this`camera,
               this`returnChains, ui
      ensures Valid()
      ensures outcome == Completed
      ensures activePlanet == None && !followingSpaceship && !ui.isZoomed && ui.targetPlanet == None
      ensures returnChains == old(returnChains) + [old(camera.position)]
      ensures var f := ReturnFrame(0.0, old(camera.position), initialCameraPosition);
        animationProgress == f.progress && camera == Pose(f.position, Origin)
    {
      activePlanet := None;
      followingSpaceship := false;
      animationProgress := 0.0;
      ui.ReturnToMain();
      var currentPosition := camera.position;
      returnChains := returnChains + [currentPosition];
      AnimateReturnFrame(|returnChains| - 1);
      outcome := Completed;
    }

    /**
     * One call of the k-th live animateReturn chain: ReturnFrame on the
     * shared progress; a chain that ends is dropped.
     */
    method AnimateReturnFrame(k: nat)
      requires Valid() && k < |returnChains|
      modifies this`animationProgress, this`camera, this`returnChains
      ensures Valid()
      ensures var f := ReturnFrame(old(animationProgress), old(returnChains[k]), initialCameraPosition);
        && animationProgress == f.progress && camera == Pose(f.position, Origin)
        && returnChains == if f.live then old(returnChains) else old(returnChains[..k] + returnChains[k + 1..])
    {
      var currentPosition := returnChains[k];
      if animationProgress < AnimationDuration {
        animationProgress := animationProgress + ReturnStep;
        var t := Min(animationProgress / AnimationDuration, 1.0);
        camera := Pose(Lerp(currentPosition, initialCameraPosition, t), Origin);
      } else {
        camera := Pose(initialCameraPosition, Origin);
        returnChains := returnChains[..k] + returnChains[k + 1..];
      }
    }

    /**
     * animate(), the per-frame tick: orbit step, zoom frame, ship update,
     * follow camera, and on arrival the hand-off from following the ship to
     * zooming on the planet it landed on. The ship's status, a local of
     * animate(), is returned so that the tick's outcome can be stated.
     */
    method Animate(now: real, m: MathLib) returns (shipStatus: Status)
      requires Valid()
      modifies this`planets, this`targetCameraPosition, this`cameraLookAt, this`animationProgress,
               this`camera, this`followingSpaceship, this`originalCameraPosition, ship, ui
      ensures Valid()
      ensures planets == AdvanceAll(old(planets), old(ui.isZoomed), m)
      ensures ship.State() == Step(old(ship.State()), now, Bodies(planets), m).0
      ensures shipStatus == Step(old(ship.State()), now, Bodies(planets), m).1
      ensures shipStatus.Arrived? ==> !followingSpaceship && ZoomedOn(shipStatus.planet)
      ensures shipStatus.NotArrived? ==>
        && followingSpaceship == old(followingSpaceship)
        && ui.isZoomed == old(ui.isZoomed) && ui.targetPlanet == old(ui.targetPlanet)
        && View() == FrameTick(old(View()), Open(planets, old(ui.isZoomed), old(ui.targetPlanet)),
                               Chasing(old(followingSpaceship), now), m)
      ensures camera == FrameTick(old(View()), Open(planets, old(ui.isZoomed), old(ui.targetPlanet)),
                                  Chasing(old(followingSpaceship), now), m).camera
    {
      ghost var before := View();
      PlanetFrame(m);
      assert ship.State() == old(ship.State()) && ui.isZoomed == old(ui.isZoomed) && ui.targetPlanet == old(ui.targetPlanet);
      ghost var zoomed := View();
      assert zoomed == ZoomTick(before, Open(planets, old(ui.isZoomed), old(ui.targetPlanet)));
      shipStatus := ShipFrame(now, m);
    }

    /** The first half of animate(): the orbit step, then the zoom frame. */
    method PlanetFrame(m: MathLib)
      requires Valid()
      modifies this`planets, this`targetCameraPosition, this`cameraLookAt, this`animationProgress, this`camera
      ensures Valid()
      ensures planets == AdvanceAll(old(planets), ui.isZoomed, m)
      ensures View() == ZoomTick(old(View()), Open(planets, ui.isZoomed, ui.targetPlanet))
    {
      UpdatePlanetPositions(m);
      ZoomCameraFrame();
    }

    /**
     * The second half of animate(): update the ship, then move the camera
     * for the tick's outcome.
     */
    method ShipFrame(now: real, m: MathLib) returns (shipStatus: Status)
      requires Valid()
      modifies this`camera, this`followingSpaceship, this`originalCameraPosition, this`animationProgress,
               this`targetCameraPosition, this`cameraLookAt, ship, ui
      ensures Valid()
      ensures ship.State() == Step(old(ship.State()), now, Bodies(planets), m).0
      ensures shipStatus == Step(old(ship.State()), now, Bodies(planets), m).1
      ensures shipStatus.Arrived? ==> !followingSpaceship && ZoomedOn(shipStatus.planet)
      ensures shipStatus.NotArrived? ==>
        && ui.isZoomed == old(ui.isZoomed) && ui.targetPlanet == old(ui.targetPlanet)
        && followingSpaceship == old(followingSpaceship)
        && unchanged(this`originalCameraPosition, this`animationProgress, this`targetCameraPosition)
        && cameraLookAt == old(cameraLookAt)
      ensures camera == ChaseTick(old(camera), Chasing(old(followingSpaceship), now), m)
    {
      StepKeepsConsistent(ship.State(), now, Bodies(planets), m);
      shipStatus := ship.Update(now, Bodies(planets), m);
      CameraAfterTick(now, m, shipStatus);
    }

    /**
     * The follow camera for the updated ship, and on arrival the hand-off
     * from following the ship to zooming on the planet it landed on.
     */
    method CameraAfterTick(now: real, m: MathLib, shipStatus: Status)
      requires Valid() && (shipStatus.Arrived? ==> shipStatus.planet in planets)
      modifies this`camera, this`followingSpaceship, this`originalCameraPosition, this`animationProgress,
               this`targetCameraPosition, this`cameraLookAt, ui
      ensures Valid()
      ensures shipStatus.Arrived? ==> !followingSpaceship && ZoomedOn(shipStatus.planet)
      ensures shipStatus.NotArrived? ==>
        && ui.isZoomed == old(ui.isZoomed) && ui.targetPlanet == old(ui.targetPlanet)
        && followingSpaceship == old(followingSpaceship)
        && unchanged(this`originalCameraPosition, this`animationProgress, this`targetCameraPosition)
        && cameraLookAt == old(cameraLookAt)
      ensures camera == ChaseTick(old(camera), Chasing(old(followingSpaceship), now), m)
    {
      FollowShipCamera(now, m);
      if shipStatus.Arrived? {
        followingSpaceship := false;
        ZoomToPlanet(shipStatus.planet);
      }
    }
  }

  /**
   * The back button as written, on an open panel: it throws and the panel
   * is still open afterwards, where ReturnToMain closes it.
   */
  method BackButtonAsWritten(system: SolarSystem) returns (outcome: Outcome)
    requires system.Valid() && system.ui.isZoomed
    modifies system`activePlanet
    ensures outcome.Threw? && system.ui.isZoomed
  {
    outcome := system.ReturnToMainAsWritten();
  }
}
