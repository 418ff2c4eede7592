# Solar-system navigator: flight controller, navigation coordinator and zoom state

This project models the logic of an interactive 3D solar system (a personal
web page). A click on a planet, or a pick from the menu, sends a small
spaceship from its home planet to that planet. The camera follows the ship,
and after landing it zooms in on the planet while a content panel opens.
Three parts of the program are modelled:

- **The flight controller** (`js/spaceship.js`, module `Flight`). The ship
  is at rest, or taking off (a fixed 1500 ms climb), or cruising (the last
  15 % blends into the landing pose). Each phase ends when the time since
  its start reaches its duration. `ShipState` and `Step` model one tick as a
  value and a function. The `Spaceship` class holds the same fields, and its
  methods are proved to perform `AfterFlyTo` and `Step` in place. Lemmas
  cover:
  - each branch of `update()`;
  - the square-root law of the cruise duration;
  - the easing curves;
  - whole runs of ticks (at most one arrival, exactly one at the end of a
    cruise).
- **The navigation coordinator and camera director** (`js/main.js`):
  - module `Orbit`: the orbit-angle step and the starting angles;
  - module `Camera`: the camera arithmetic, which is the zoom and return
    frames, the zoom aims and the follow-ship pose;
  - module `Navigation`: the `SolarSystem` class. It covers the menu and
    click handlers, the 50 ms deferred steps, the zoom-in, the return to the
    overview and the `animate()` tick.
  - The two handlers' decision trees are the functions `SelectDecision` and
    `ClickDecision`. Each handler method is proved to apply its function.
- **The zoom state** (`js/ui.js`, module `Ui`). This is the `isZoomed` /
  `targetPlanet` pair, with the invariant that the two always agree.

Things outside the program are inputs to the model:
- **Maths library.** `Math.sqrt`, `Math.cos` and `Math.sin` are fields of a
  `MathLib` value. The lemmas that need square-root facts require
  `SoundSqrt`, which says the result is non-negative and squares back to the
  input.
- **Clock.** `performance.now()` is the parameter `now`.
- **Random numbers.** The `Math.random()` values drawn for the starting
  angles are the constructor's `randoms`.
- **Hit test.** The raycast result of a click is an `Option<string>`.
- **Timers.** A `setTimeout` callback is appended to `pending`, and
  `RunDeferred` fires the oldest entry.
- **Frame callbacks.** Each live `requestAnimationFrame` chain of the return
  animation is an entry of `returnChains`, advanced by `AnimateReturnFrame`.

The caller decides how timers and frames interleave, as the browser does.

Where the documentation and the code disagree, the model follows the code:
- **Full turn.** The orbit angle is not kept in [0, 2π). The wrap test is a
  strict `>`, so an angle landing on exactly 2π stays 2π
  (`Orbit.FullTurnIsKept`, `Orbit.OrbitPeriod`).
- **Starting angle.** The eighth planet's starting angle can be above 2π
  (`Orbit.EighthPlanetMayStartPastFullTurn`).
- **Zoom aim.** The zoom does not end at `zoomToPlanet`'s offset point. On
  every later tick `updatePlanetPositions` replaces the aim with
  (0.8·x, 8·size, 0.8·z) (`Navigation.SolarSystem.UpdatePlanetPosition`).
  The lerp also stops one frame short: with the progress at 1.99 the last
  frame to move the camera puts it at 0.995 of the way
  (`Camera.ZoomStopsShortOfTarget`).
- **Landing flag.** `isFlying()` also counts the `landing` record. No code
  path ever sets that record (`Flight.Consistent`).

## Model

| member | source | states |
|---|---|---|
| Orbit.SpeedFactor | js/main.js:682 | The orbit speed factor is 0.2 while a panel is open and 1 otherwise; it is below 1 exactly when zoomed. |
| Orbit.NextAngle | js/main.js:682-683 | One angle step adds the step and subtracts 2π exactly once if the sum is strictly above 2π; an angle in [0, 2π] with a step in [0, 2π] stays in [0, 2π]. |
| Orbit.FullTurnIsKept | js/main.js:683 | An angle that lands exactly on 2π is kept as 2π. |
| Orbit.OrbitPosition | js/main.js:686-688 | A planet always lies on the orbital plane (y = 0). |
| Orbit.AdvancePlanet | js/main.js:679-688 | One tick keeps the planet's configuration, moves its angle by NextAngle of speed × SpeedFactor and recomputes its position from the new angle. |
| Orbit.InitialAngle | js/main.js:382-383 | The i-th created planet starts at an angle in [i·π/4, i·π/4 + π/2). |
| Orbit.EighthPlanetMayStartPastFullTurn | js/main.js:382-383 | The eighth planet (index 7) can start above 2π. |
| Orbit.OrbitWithoutWrap | js/main.js:682-683 | Ticks that never carry the angle past 2π add up: after n ticks the angle is angle + n·step. |
| Orbit.EarthAfterThousandTicks | js/main.js:682-683 | Earth's speed (0.003) from angle 0 gives exactly 3 after 1000 unslowed ticks. |
| Orbit.OrbitStaysInRange | js/main.js:682-683 | Under positive steps of at most 2π an angle in [0, 2π] stays in [0, 2π], and in (0, 2π] after the first tick. |
| Orbit.OrbitWholeTurns | js/main.js:682-683 | After n ticks the angle equals angle + n·step minus a whole number of turns. |
| Orbit.OrbitPeriod | js/main.js:682-683 | After steps adding up to exactly 2π the angle is back where it started, except that a start of 0 comes back as 2π. |
| Flight.EaseInOutQuad | js/spaceship.js:316-318 | The in-out ease maps [0, 1] into [0, 1] and fixes 0, 0.5 and 1. |
| Flight.EaseInOutQuadPiecesMeet | js/spaceship.js:317 | The two pieces of the in-out ease agree at 0.5. |
| Flight.EaseInOutQuadSymmetric | js/spaceship.js:317 | The in-out ease is point-symmetric: ease(1 − t) = 1 − ease(t) on [0, 1]. |
| Flight.EaseInOutQuadMonotone | js/spaceship.js:317 | The in-out ease is non-decreasing on [0, 1]. |
| Flight.EaseOutQuad | js/spaceship.js:311-313 | The out ease maps [0, 1] into [0, 1] and fixes 0 and 1. |
| Flight.EaseOutQuadMonotone | js/spaceship.js:312 | The out ease is non-decreasing on [0, 1]. |
| Flight.Launchpad | js/spaceship.js:5-16 | A new ship is at rest, consistent, with Earth as its home planet. |
| Flight.AfterFlyTo | js/spaceship.js:60-76 | After flyTo the ship is flying; a flyTo while flying returns the state unchanged; the home planet, position and cruise record are never touched. |
| Flight.FlyToWhileFlyingIsIgnored | js/spaceship.js:62-64 | flyTo while any phase record is set changes nothing. |
| Flight.FlyToFromRest | js/spaceship.js:67-75 | From rest, flyTo records a takeoff with start time now, duration 1500 and scale 1→10, from the home planet to the named planet; home, pose and the other records are untouched. |
| Flight.SecondFlyToIsIgnored | js/spaceship.js:60-76 | Of two flyTo calls with no tick between them, the second changes nothing. |
| Flight.FlyToKeepsConsistent | js/spaceship.js:60-76 | flyTo keeps the controller invariant and adds at most the named planet to the planets the next tick reads. |
| Flight.Fraction | js/spaceship.js:146 | For a positive duration, the elapsed fraction is at least 1 exactly when the elapsed time has reached the duration, and it is non-negative for non-negative elapsed time. |
| Flight.CruiseDuration | js/spaceship.js:159-165 | With a sound square root the cruise duration is non-negative for non-negative distances, and 0 for a distance of 0. |
| Flight.CruiseDurationSquareRootLaw | js/spaceship.js:159-165 | Quadrupling the distance doubles the cruise duration. |
| Flight.CruiseDurationExamples | js/spaceship.js:159-165 | Distances 200, 800 and 50 give cruises of 3000, 6000 and 1500 ms. |
| Flight.Step | js/spaceship.js:142-308 | A tick never adds to the planets the next tick reads; a tick that reports an arrival leaves no takeoff or cruise, and the planet it reports is the new home. |
| Flight.StepKeepsConsistent | js/spaceship.js:142-308 | Every tick keeps the invariant: the landing record is never set, no takeoff and cruise at once, takeoff constants, flights leave from home. |
| Flight.TakeoffClimb | js/spaceship.js:146-200 | Before 1500 ms a takeoff tick changes no phase record, lifts the ship to size + 0.5 + 2·size·t above home and sets the scale to 1 + 9t. |
| Flight.TakeoffEnds | js/spaceship.js:148-172 | At 1500 ms the takeoff ends: a cruise starts now from the frozen ship position, lasting 3000·sqrt(d/200) for the current planet distance d, between the same planets; no arrival. |
| Flight.CruiseTick | js/spaceship.js:205-227 | Before 85 % the ship is at the eased fraction of the way from the frozen start to the destination's current hover point (1.2·size up), at scale 10. |
| Flight.LandingBlend | js/spaceship.js:229-269 | From 85 % to 100 % the ship moves from the flight-path point towards the resting pose by b = (t − 0.85)/0.15, with b in [0, 1), and its scale is 10 − 9b. |
| Flight.LandingBlendStartsOnFlightPath | js/spaceship.js:229-264 | At exactly 85 % the blend is 0: the ship is on the flight path at scale 10. |
| Flight.ArrivalTick | js/spaceship.js:234-247 | At 100 % the destination becomes home, no phase record is left, the ship rests size + 0.5 above it at scale 1, and the tick reports the arrival there. |
| Flight.RestTick | js/spaceship.js:286-307 | At rest a tick pins the ship size + 0.5 above home at scale 1 and reports no arrival. |
| Flight.GroundedRunNeverArrives | js/spaceship.js:286-307 | Any number of ticks from a state with no takeoff and no cruise report no arrival and keep the home planet. |
| Flight.AtMostOneArrival | js/spaceship.js:142-308 | Any run of ticks between two flyTo calls reports at most one arrival. |
| Flight.CruiseArrivesExactlyOnce | js/spaceship.js:201-247 | A cruise of positive duration whose last tick comes at or after its end reports exactly one arrival. |
| Flight.TrackingAfterTick | js/spaceship.js:132-137 | Right after a tick that did not land, the reported progress is below 1; during takeoff the reported planet is home, during the cruise the destination. |
| Flight.CameraTracking | js/spaceship.js:128-138 | The tracking info reports the ship position and a planet the next tick reads; at rest it reports home with progress 0. |
| Flight.Spaceship.constructor | js/spaceship.js:5-28 | The new ship's fields are the Launchpad state: Earth as home, at Earth's position, no phase record. |
| Flight.Spaceship.IsFlying | js/spaceship.js:79-81 | isFlying() holds exactly when a takeoff, cruise or landing record is set. |
| Flight.Spaceship.GetHomePlanet | js/spaceship.js:84-86 | getHomePlanet() returns the stored home planet. |
| Flight.Spaceship.CameraTrackingInfo | js/spaceship.js:128-138 | getCameraTrackingInfo() on the fields is CameraTracking of the ship state. |
| Flight.Spaceship.FlyTo | js/spaceship.js:60-76 | The fields change exactly as AfterFlyTo says, and the ship is flying afterwards. |
| Flight.Spaceship.Update | js/spaceship.js:142-308 | The fields and the returned status are exactly Step of the old state. |
| Flight.Spaceship.AdvanceTakeoff | js/spaceship.js:143-200 | The takeoff branch of update() performs Step in place. |
| Flight.Spaceship.AdvanceCruise | js/spaceship.js:201-280 | The cruise branch of update() performs Step in place. |
| Ui.UI.constructor | js/ui.js:17-18 | The UI starts unzoomed with no target planet. |
| Ui.UI.ShowPlanetContent | js/ui.js:105-107 | The panel opens on the named planet: zoomed, with that target. |
| Ui.UI.ReturnToMain | js/ui.js:144-165 | The panel closes: unzoomed, no target, whatever the state before. |
| Ui.UI.GetIsZoomed | js/ui.js:168-170 | Returns the stored flag without changing anything; it agrees with a target being set. |
| Ui.UI.GetTargetPlanet | js/ui.js:173-175 | Returns the stored target without changing anything; it is set exactly when zoomed. |
| Ui.ReturnToMainTwice | js/ui.js:144-165 | Closing the panel a second time leaves the same closed state. |
| Camera.RingFactor | js/main.js:843 | The ring factor is at least 1, and above 1 exactly for ringed planets. |
| Camera.ZoomOffsetTarget | js/main.js:839-850 | zoomToPlanet's aim is 175 above the planet and equally far out in +x and +z: 250·ring factor for planets up to size 10, 25·size·ring factor beyond, never less than 250·ring factor. |
| Camera.TrackedZoomTarget | js/main.js:711 | The per-tick aim is 8·size high and on the same side of the Sun as the planet in x and in z. |
| Camera.TrackedTargetInsideOrbit | js/main.js:710-711 | The per-tick aim lies 0.8 of the planet's horizontal distance from the Sun, at height 8·size. |
| Camera.ZoomFrame | js/main.js:1155-1164 | One zoom frame adds 0.01 to the progress; once the new progress reaches 2 the camera stays put, below 2 it is at progress/2 of the way from the remembered start to the aim. |
| Camera.ZoomRun | js/main.js:1155-1164 | After n zoom frames from progress 0 the progress is n/100. |
| Camera.ZoomRunPosition | js/main.js:1158-1164 | After n zoom frames from progress 0 the progress is n/100 and the camera is at min(n, 199)/200 of the way from the remembered start to the aim. |
| Camera.ZoomStopsShortOfTarget | js/main.js:1158-1164 | The zoom-in never reaches an aim different from its start; from frame 199 on it rests at 0.995 of the way. |
| Camera.LerpShortOfEnd | js/main.js:1163 | Short of the fraction 1, a lerp between two distinct points does not reach the far end. |
| Camera.ReturnFrame | js/main.js:961-976 | One return frame re-arms exactly while the progress is below 2; the frame that ends the chain puts the camera on the initial position and leaves the progress alone. |
| Camera.ReturnRun | js/main.js:961-977 | A return chain never has negative progress, and a chain that has ended has put the camera on the initial position. |
| Camera.ReturnRunPosition | js/main.js:961-977 | Undisturbed, a return started at progress 0 moves 1/100 of the way per frame, is exactly on the initial position at frame 100, and frame 101 ends the chain there. |
| Camera.ReturnFirstFrame | js/main.js:963-968 | The first return frame from progress 0 sets the progress to 0.02 and covers 1/100 of the way. |
| Camera.ApproachPoint | js/main.js:1235-1239 | The approach point is 2·size above the planet and 2·size·ring factor out in +x and +z. |
| Camera.ChaseOffset | js/main.js:1215-1222 | The chase offset is 20 − 30·dir.y high: its sideways part is horizontal. |
| Camera.FollowCamera | js/main.js:1212-1248 | Both follow regimes look at the target planet. |
| Camera.ChaseSideIsSquare | js/main.js:1220-1222 | The sideways part of the chase offset is horizontal and at right angles to the travel direction. |
| Camera.ChaseHeight | js/main.js:1212-1229 | Below 85 % the camera is 20 − 30·dir.y above the ship; on a level leg exactly 20 above. |
| Camera.ApproachBlendEnds | js/main.js:1230-1247 | The approach blend starts at 85 % where the camera already is and would end on the approach point at 100 %. |
| Camera.ZoomTick | js/main.js:709-712 | With a panel open: aim at the open planet's tracked point, look at it with the camera, add 0.01 to the progress, keep the remembered start and move the camera as ZoomFrame says; with none, nothing changes. |
| Camera.ChaseTick | js/main.js:1187-1249 | With no flight to follow the camera stays; with one it looks at the target planet, and from 85 % on it is the blend from where it was towards the approach point. |
| Camera.FrameTick | js/main.js:1142-1256 | One frame keeps the remembered start; aim, look point and progress are the zoom step's (untouched with no panel open); the camera is the zoom step's unless a flight is followed, and then looks at its target; with no panel and no flight nothing changes. |
| Navigation.FiredDecision | js/main.js:737-753 | A deferred step always launches or zooms; a deferred menu selection launches exactly when the planet is not home at the moment it fires. |
| Navigation.SelectDecision | js/main.js:727-773 | The menu closes and defers exactly when a panel is open on another planet, and the deferred step is a selection of that planet; it launches only a non-home planet from rest; it ignores exactly a non-home planet in flight with no panel open on another planet. |
| Navigation.ClickDecision | js/main.js:1043-1080 | A click launches exactly for a non-home planet from rest, zooms exactly on home with no panel open, and defers only from a panel open on another planet, for the clicked planet. |
| Navigation.DecisionsAgreeWhenClosed | js/main.js:727-773 | With no panel open, the menu and a click choose the same action, and they act unless the ship is flying to somewhere other than home. |
| Navigation.SelectClosesFirst | js/main.js:732-754 | A menu selection closes the panel and defers exactly when a panel is open on another planet. |
| Navigation.ClickLaunchesThroughOpenPanel | js/main.js:1043-1080 | From a panel open on another planet, with the ship at rest, a click on a non-home planet launches at once with the panel still open, while the menu closes and defers. |
| Navigation.ImmediateLaunchFromRestOnly | js/main.js:757-768 | Either handler launches at once only for a planet other than home while the ship is at rest. |
| Navigation.ClickDefersLaunchOnlyInFlight | js/main.js:1058-1079 | A click defers a step only for the clicked planet, and defers a launch only while the ship is flying with a panel open. |
| Navigation.ReselectingOpenHome | js/main.js:770-772 | On the home planet whose panel is open, the menu zooms again and a click does nothing. |
| Navigation.Bodies | js/main.js:104 | The ship reads the live planet table: the same keys, each entry its current position and size. |
| Navigation.AdvanceAll | js/main.js:677-688 | The orbit tick has the same keys and moves every entry by exactly one AdvancePlanet. |
| Navigation.NewPlanet | js/main.js:382-399 | A created entry keeps its configuration, lies on the orbital plane, and starts at an angle in [i·π/4, i·π/4 + π/2) for index i. |
| Navigation.Created | js/main.js:318-399 | Every entry of the created table is filed under its own planet's name and lies on the orbital plane. |
| Navigation.Open | js/main.js:1148 | The open planet is given exactly when the panel is open on a planet of the table, and is that planet's entry. |
| Navigation.CreatedDomain | js/main.js:394-399 | Every key of the created table is the name of a configuration seen. |
| Navigation.CreatedAt | js/main.js:382-399 | With distinct names, the planet created i-th sits under its own name with the starting angle for index i and its orbit position. |
| Navigation.CreatedCount | js/main.js:382 | With distinct names, the table holds exactly one entry per configuration seen, so the count createPlanet reads is the index of the planet being created. |
| Navigation.CreatedEntries | js/main.js:382-399 | The planets created in order sit under their own names with the starting angle for their index, and there are no other entries. |
| Navigation.CreatePlanets | js/main.js:318-399 | Creating the configured planets in order yields that table and the names in table order. |
| Navigation.AdvanceOneMore | js/main.js:678-688 | Moving one more planet of the orbit tick extends the partial tick by exactly that planet. |
| Navigation.AdvanceAllDone | js/main.js:678 | Once every planet in the table has moved, the partial tick is the whole tick. |
| Navigation.SolarSystem.constructor | js/main.js:10-106 | The planets are created in order with their starting angles; the camera is at (500, 500, 500) looking at the Sun, and this is also the original and initial position; no panel, no following, no deferred step, and the ship rests on Earth. |
| Navigation.SolarSystem.UpdatePlanetPositions | js/main.js:677-724 | Every planet takes exactly one orbit step, slowed while a panel is open; with a panel open the aim and look point are re-read from that planet's new position, otherwise they are untouched. |
| Navigation.SolarSystem.UpdatePlanetPosition | js/main.js:679-712 | One planet's step, and the replacement of the zoom aim by (0.8·x, 8·size, 0.8·z) when it is the open planet. |
| Navigation.SolarSystem.ZoomCameraFrame | js/main.js:1148-1167 | With a panel open, the look point tracks the live planet and the progress and camera follow ZoomFrame; with none, nothing changes. |
| Navigation.SolarSystem.FollowShipCamera | js/main.js:1187-1249 | While following a flying ship the camera takes the FollowCamera pose for the reported planet; otherwise it stays; together, the camera is ChaseTick of the old pose. |
| Navigation.SolarSystem.StartFollowedFlight | js/main.js:757-768 | A launch performs flyTo (ignored in flight), follows the ship, remembers the camera position and restarts the progress. |
| Navigation.SolarSystem.ZoomToPlanet | js/main.js:803-853 | An unknown planet changes nothing; a known one opens its panel, remembers the camera position, restarts the progress, aims at ZoomOffsetTarget and looks at the planet. |
| Navigation.SolarSystem.SelectOnClosedPanel | js/main.js:757-772 | Once no panel is open on another planet: from rest a non-home planet launches, home is zoomed, and a non-home planet in flight changes nothing. |
| Navigation.SolarSystem.ReturnToMainWithoutAnimation | js/main.js:777-800 | The panel closes; the camera stays where it is. |
| Navigation.SolarSystem.HandlePlanetSelect | js/main.js:727-773 | The active planet becomes the selected one, and the state changes exactly as SelectDecision says: close and queue the deferred step, launch, zoom, or nothing. |
| Navigation.SolarSystem.OnMouseClick | js/main.js:1025-1083 | No hit changes nothing; a hit changes the state exactly as ClickDecision says, and the active planet is left alone. |
| Navigation.SolarSystem.RunDeferred | js/main.js:737-753 | The oldest deferred step leaves the queue and launches or zooms as FiredDecision says on the home planet at that moment. |
| Navigation.SolarSystem.ReturnToMainAsWritten | js/main.js:927-932 | As written, the return clears the active planet and throws; the panel, the following and the return animation stay as they were. |
| Navigation.BackButtonAsWritten | js/main.js:927-932 | On an open panel the back button as written throws and leaves the panel open. |
| Navigation.SolarSystem.ReturnToMain | js/main.js:927-977 | Corrected return: no active planet, no following, the panel closed, and a return chain from the current camera position has run its first frame. |
| Navigation.SolarSystem.AnimateReturnFrame | js/main.js:961-977 | One call of a return chain follows ReturnFrame on the shared progress, looks at the Sun, and drops the chain when it ends. |
| Navigation.SolarSystem.Animate | js/main.js:1086-1262 | One frame: every planet takes its orbit step and the ship takes exactly one Step. The camera is always FrameTick's: the zoom step for the panel open at the start, then the follow pose if a flying ship was followed. On arrival following stops and the landed planet is zoomed; otherwise following and the panel are unchanged and all director fields are FrameTick of the old ones. |
| Navigation.SolarSystem.PlanetFrame | js/main.js:1142-1181 | The orbit step of every planet, then the director fields become ZoomTick of the old ones for the open planet's new entry: aim, look point, progress and camera as the zoom frame says, and nothing changes with no panel open. |
| Navigation.SolarSystem.CameraAfterTick | js/main.js:1187-1262 | After the ship's update the camera is ChaseTick of the old pose: the FollowCamera pose from the old position while a flying ship was followed, unchanged otherwise. On arrival following stops and the landed planet is zoomed; otherwise the panel, following and the other director fields stay. |
| Navigation.SolarSystem.ShipFrame | js/main.js:1184-1262 | The ship and the returned status are exactly Step of the old ship state; the camera is ChaseTick of the old pose for the updated ship; arrival and the other fields as in CameraAfterTick. |

## Left out

- Rendering, textures, shaders, lights, labels, particles, the sun's spin, the planets' own spin and their grow-in scale: these are Three.js and DOM work with no decisions in them.
- The content panel's DOM updates, the header, the tooltip, the launch alerts and the panel positioning: these are browser interfaces.
- The raycast itself: `OnMouseClick` receives its result as an input.
- Touch and pointer handlers and `rotateCamera`: these need `atan2`/`acos` and are outside the navigation logic. `rotateCamera` moves the camera, re-aims it at the Sun and overwrites `originalCameraPosition`; it never touches `initialCameraPosition`, which the model keeps as a `const`.
- Camera orientation: a `lookAt` is recorded as the point looked at, not as a rotation.
- Loading the ship's 3D model, and the `cameraPosition`/`shipLookAt` outputs of `getCameraTrackingInfo`: nothing in the core reads them.
- The 50 ms delay and the frame rate: `RunDeferred` and `AnimateReturnFrame` run when the caller says.
- Flight.Fraction: a zero cruise duration counts as a finished phase. JavaScript would divide by zero and give Infinity or NaN. A zero duration only happens for a flight between two planets at the same position.
- Floating point: all arithmetic is on reals. The zoom and return frame counts (199 moving zoom frames, 100 return frames) are the same for IEEE doubles, since the accumulated progress crosses 2 on the same frames.
- Flight.Spaceship.CameraTrackingInfo: it reads the same clock value `now` as the tick's update. The source calls `performance.now()` again.
- Navigation.SolarSystem.HandlePlanetSelect, Navigation.SolarSystem.OnMouseClick: they require the planet to be in the table. The menu and the hit test only produce table names. For an unknown name the source would start a flight that throws at the end of takeoff.
- Navigation.SolarSystem.constructor: it requires distinct, non-empty names and an "Earth" entry, because the first tick of a ship without Earth would throw. The concrete table from `js/planets.js` is not part of this model.
- Navigation.SolarSystem.FollowShipCamera: it omits the fallback pose for a missing target planet (js/main.js:1250-1254). The target is always in the table, so that branch is unreachable.
- The unused `landing` branch of `update()` is modelled but never entered: no code sets `landing` (Flight.Consistent).
- `returnToMainWithoutAnimation`'s label and particle clean-up: rendering only.
- Navigation.SolarSystem.constructor: it models `init()` up to its first `this.animate()` call (js/main.js:107); that first frame is the caller's first `Animate`. The staggered UI fade-ins that follow are DOM work.

## Findings

| source | as written | input that shows it | evidently intended | confidence | as-written member | corrected member |
|---|---|---|---|---|---|---|
| js/main.js:932 | `returnToMain()` calls `this.ui.hideContentPanel()`, but the UI class (js/ui.js) has no such method. The call throws a TypeError after `activePlanet` is cleared, so the panel stays open and following, the progress reset and the return animation never happen. | Open any planet's panel, then press the back or close button. | Close the panel. `ui.returnToMain()` at js/main.js:957 already does this. Then stop following, reset the progress and animate the camera back to `initialCameraPosition`. | not executed | Navigation.SolarSystem.ReturnToMainAsWritten | Navigation.SolarSystem.ReturnToMain |
