/**
 * games/solarsystem/game.js: the solar-system game. Module-level variables
 * hold the pause and drag state; pointer-down on a planet starts a drag,
 * pointer-move drags it along its orbit at once (no tap delay), and
 * `animate` advances the planets unless paused or dragging. The page starts
 * the loop by calling `animate()` with no timestamp, so its first frame is
 * at time 0.
 */
module SolarSystem {
  import opened Options
  import opened Angles
  import opened Orbits

  /** The planet table, in declaration order. */
  const Planets: seq<PlanetSpec> := [
    PlanetSpec("Mercury", 70.0, 0.6, 6.0, 4.15, 45.0),
    PlanetSpec("Venus", 100.0, 0.3, 10.0, 1.62, 15.0),
    PlanetSpec("Earth", 140.0, 0.2, 11.0, 1.0, 60.0),
    PlanetSpec("Mars", 180.0, 0.4, 8.0, 0.53, 120.0),
    PlanetSpec("Jupiter", 240.0, 0.1, 20.0, 0.08, 25.0),
    PlanetSpec("Saturn", 300.0, 0.15, 18.0, 0.034, 80.0),
    PlanetSpec("Uranus", 360.0, 0.12, 15.0, 0.012, 30.0),
    PlanetSpec("Neptune", 410.0, 0.05, 15.0, 0.006, 70.0)
  ]

  const SunRadius: real := 30.0

  function Sizes(): (r: seq<real>)
    ensures |r| == |Planets|
    ensures forall i :: 0 <= i < |r| ==> r[i] == Planets[i].size
  {
    seq(|Planets|, i requires 0 <= i < |Planets| => Planets[i].size)
  }

  function BaseSpeeds(): (r: seq<real>)
    ensures |r| == |Planets|
    ensures forall i :: 0 <= i < |r| ==> r[i] == Planets[i].baseSpeed && 0.0 <= r[i]
  {
    seq(|Planets|, i requires 0 <= i < |Planets| => Planets[i].baseSpeed)
  }

  class Game {
    var width: nat
    var height: nat
    var draggingPlanet: Option<nat>
    var paused: bool
    var lastTime: real
    var isDragging: bool
    var dragStartAngle: real
    var dragStartMouseAngle: real
    var info: InfoBox
    /** `planets[i].angle`. */
    var angle: array<real>

    ghost predicate Valid()
      reads this
    {
      && angle.Length == |Planets|
      && (draggingPlanet.Some? ==> draggingPlanet.value < |Planets|)
    }

    /**
     * The script run top to bottom: `resize()` takes the client size, the
     * planets start at angle 0, and the closing `animate()` draws the first
     * frame at time 0 with `lastTime` 0, so its delta is 0 and no planet moves.
     * `speedMods` are the (a/r)^2 factors of that frame.
     */
    constructor (clientWidth: nat, clientHeight: nat, speedMods: seq<real>)
      requires |speedMods| == |Planets|
      ensures Valid() && fresh(angle)
      ensures width == clientWidth && height == clientHeight
      ensures angle[..] == seq(|Planets|, _ => 0.0)
      ensures lastTime == 0.0 && draggingPlanet == None && !paused && !isDragging && info == Hidden
    {
      width := clientWidth;
      height := clientHeight;
      draggingPlanet := None;
      paused := false;
      lastTime := 0.0;
      isDragging := false;
      dragStartAngle := 0.0;
      dragStartMouseAngle := 0.0;
      info := Hidden;
      angle := new real[|Planets|](_ => 0.0);
      new;
      ghost var start := angle[..];
      assert AllInTurn(start);
      ZeroFrameIsStill(start, BaseSpeeds(), speedMods);
      Animate(0.0, speedMods);
    }

    function SunCentre(): Point
      reads this
    {
      Point(width as real / 2.0, height as real / 2.0)
    }

    /**
     * `animate(time)`: delta is (time - lastTime) / 1000 seconds; unless
     * paused or a planet is dragged, every planet advances by
     * `baseSpeed * speedMod * delta * 60` modulo 360.
     */
    method Animate(time: real, speedMods: seq<real>)
      requires Valid() && |speedMods| == |Planets|
      modifies this`lastTime, angle
      ensures Valid() && lastTime == time
      ensures old(paused) || old(draggingPlanet).Some? ==> angle[..] == old(angle[..])
      ensures !old(paused) && old(draggingPlanet).None? ==>
        angle[..] == Frame(old(angle[..]), Increments(BaseSpeeds(), speedMods, FrameSeconds(time, old(lastTime))))
    {
      var delta := FrameSeconds(time, lastTime);
      lastTime := time;
      if !paused && draggingPlanet.None? {
        var incs := Increments(BaseSpeeds(), speedMods, delta);
        var i := 0;
        while i < angle.Length
          modifies angle
          invariant 0 <= i <= angle.Length
          invariant forall j :: 0 <= j < i ==> angle[j] == Advance(old(angle[j]), incs[j])
          invariant forall j :: i <= j < angle.Length ==> angle[j] == old(angle[j])
        {
          angle[i] := Advance(angle[i], incs[i]);
          i := i + 1;
        }
      }
    }

    /**
     * `onPointerDown`: the first planet hit, in declaration order, starts a
     * drag from its current angle and the pointer's angle in its orbit frame
     * (`pointerAngles[i]`), and hides the box; otherwise a sun hit shows the
     * sun's facts; otherwise the box is hidden.
     */
    method OnPointerDown(at: Point, centres: seq<Point>, pointerAngles: seq<real>)
      requires Valid() && |centres| == |Planets| && |pointerAngles| == |Planets|
      modifies this`draggingPlanet, this`isDragging, this`dragStartAngle, this`dragStartMouseAngle, this`info
      ensures Valid()
      ensures match FirstHit(at, centres, Sizes())
        case Some(i) =>
          && draggingPlanet == Some(i) && isDragging && info == Hidden
          && dragStartAngle == angle[i] && dragStartMouseAngle == pointerAngles[i]
        case None =>
          && draggingPlanet == old(draggingPlanet) && isDragging == old(isDragging)
          && dragStartAngle == old(dragStartAngle) && dragStartMouseAngle == old(dragStartMouseAngle)
          && info == (if OnDisc(at, SunCentre(), SunRadius) then Showing(SunFacts) else Hidden)
    {
      var hit := ScanPlanets(at, centres, Sizes());
      if hit.Some? {
        var i := hit.value;
        draggingPlanet := Some(i);
        isDragging := true;
        dragStartAngle := angle[i];
        dragStartMouseAngle := pointerAngles[i];
        info := Hidden;
        return;
      }
      if OnDisc(at, SunCentre(), SunRadius) {
        info := Showing(SunFacts);
        return;
      }
      info := Hidden;
    }

    /**
     * `onPointerMove`: during a drag, at once and with no time threshold, the
     * planet goes to `(dragStartAngle + delta + 360) % 360`, delta being the
     * pointer's angular change wrapped into [-180,180], and the box shows the
     * dragged planet's facts. Without a drag nothing changes.
     */
    method OnPointerMove(pointerAngle: real)
      requires Valid()
      modifies this`info, angle
      ensures Valid()
      ensures isDragging && draggingPlanet.Some? ==>
        && angle[..] == old(angle[..])[draggingPlanet.value :=
             DragAngle(dragStartAngle, WrapDelta(pointerAngle - dragStartMouseAngle))]
        && info == Showing(PlanetFacts(draggingPlanet.value))
      ensures !(isDragging && draggingPlanet.Some?) ==> angle[..] == old(angle[..]) && info == old(info)
    {
      if !isDragging || draggingPlanet.None? {
        return;
      }
      var i := draggingPlanet.value;
      var delta := WrapDelta(pointerAngle - dragStartMouseAngle);
      angle[i] := DragAngle(dragStartAngle, delta);
      info := Showing(PlanetFacts(i));
    }

    /** `onPointerUp`: a drag ends and the box is hidden; without a drag nothing changes. */
    method OnPointerUp()
      requires Valid()
      modifies this`isDragging, this`draggingPlanet, this`info
      ensures Valid()
      ensures old(isDragging) ==> !isDragging && draggingPlanet.None? && info == Hidden
      ensures !old(isDragging) ==> !isDragging && draggingPlanet == old(draggingPlanet) && info == old(info)
    {
      if isDragging {
        isDragging := false;
        draggingPlanet := None;
        info := Hidden;
      }
    }

    /** `onClick`: the first planet hit, else the sun, else hide the box. */
    method OnClick(at: Point, centres: seq<Point>)
      requires Valid() && |centres| == |Planets|
      modifies this`info
      ensures Valid()
      ensures info == ClickInfo(FirstHit(at, centres, Sizes()), OnDisc(at, SunCentre(), SunRadius))
    {
      var hit := ScanPlanets(at, centres, Sizes());
      if hit.Some? {
        info := Showing(PlanetFacts(hit.value));
        return;
      }
      if OnDisc(at, SunCentre(), SunRadius) {
        info := Showing(SunFacts);
        return;
      }
      info := Hidden;
    }

    /** The pause button: flips `paused`. */
    method TogglePause()
      modifies this`paused
      ensures paused == !old(paused)
    {
      paused := !paused;
    }

    /** The window resize listener: the canvas takes the element's client size; nothing is rescaled. */
    method Resize(clientWidth: nat, clientHeight: nat)
      modifies this`width, this`height
      ensures width == clientWidth && height == clientHeight
    {
      width, height := clientWidth, clientHeight;
    }
  }
}
