/**
 * The zoom state of the overlay UI (js/ui.js): whether a planet's content
 * panel is open and for which planet. The DOM work of the panel, header,
 * back button, labels and tooltip is not modelled.
 */
module Ui {
  import opened Options

  class UI {
    var isZoomed: bool
    var targetPlanet: Option<string>

    /** Both mutators set the two fields together, so they always agree. */
    predicate Valid()
      reads this
    {
      isZoomed <==> targetPlanet.Some?
    }

    constructor ()
      ensures Valid()
      ensures !isZoomed && targetPlanet == None
    {
      isZoomed := false;
      targetPlanet := None;
    }

    /** showPlanetContent(planetName, planetData): the panel opens on that planet. */
    method ShowPlanetContent(planetName: string)
      modifies this
      ensures Valid()
      ensures isZoomed && targetPlanet == Some(planetName)
    {
      targetPlanet := Some(planetName);
      isZoomed := true;
    }

    /** returnToMain(): the panel closes; calling it again changes nothing more. */
    method ReturnToMain()
      modifies this
      ensures Valid()
      ensures !isZoomed && targetPlanet == None
    {
      isZoomed := false;
      targetPlanet := None;
    }

    method GetIsZoomed() returns (zoomed: bool)
      requires Valid()
      ensures zoomed == isZoomed
      ensures zoomed <==> targetPlanet.Some?
    {
      zoomed := isZoomed;
    }

    method GetTargetPlanet() returns (planet: Option<string>)
      requires Valid()
      ensures planet == targetPlanet
      ensures planet.Some? <==> isZoomed
    {
      planet := targetPlanet;
    }
  }

  /** A client's view: closing a second time leaves the same closed state. */
  method ReturnToMainTwice(ui: UI)
    modifies ui
    ensures ui.Valid() && !ui.isZoomed && ui.targetPlanet == None
  {
    ui.ReturnToMain();
    ui.ReturnToMain();
  }
}
