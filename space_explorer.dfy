/**
 * scripts/space-explorer.js: the kids' solar-system page. A `state` object
 * holds the pause and drag state, `handlers` hold the click and pointer
 * handlers, `animate` advances every planet's angle once per frame unless
 * the simulation is paused or a planet is dragged, and `resize` rescales
 * the sun, the planet sizes and the orbits to the canvas.
 */
module SpaceExplorer {
  import opened Options
  import opened Angles
  import opened Orbits

  /** The planet table, in declaration order. */
  const Planets: seq<PlanetSpec> := [
    PlanetSpec("Mercury", 80.0, 0.4, 5.0, 4.15, 45.0),
    PlanetSpec("Venus", 120.0, 0.3, 10.0, 1.62, 15.0),
    PlanetSpec("Earth", 160.0, 0.2, 11.0, 1.0, 60.0),
    PlanetSpec("Mars", 200.0, 0.4, 8.0, 0.53, 120.0),
    PlanetSpec("Jupiter", 260.0, 0.1, 20.0, 0.08, 25.0),
    PlanetSpec("Saturn", 320.0, 0.15, 18.0, 0.034, 80.0),
    PlanetSpec("Uranus", 380.0, 0.12, 15.0, 0.012, 30.0),
    PlanetSpec("Neptune", 440.0, 0.05, 15.0, 0.006, 70.0)
  ]

  const SunRadius: real := 30.0
  /** `resize` scales by the smaller canvas side over this reference size. */
  const ReferenceSize: real := 900.0
  /** A pointer-down younger than this many milliseconds is a tap, not a drag. */
  const TapDelay: int := 100

  function BaseSpeeds(): (r: seq<real>)
    ensures |r| == |Planets|
    ensures forall i :: 0 <= i < |r| ==> r[i] == Planets[i].baseSpeed && 0.0 <= r[i]
  {
    seq(|Planets|, i requires 0 <= i < |Planets| => Planets[i].baseSpeed)
  }

  /** The scale `resize` applies: min(width, height) / 900. */
  function Scale(width: nat, height: nat): (s: real)
    ensures 0.0 <= s
    ensures width == height == 900 ==> s == 1.0
  {
    (if width <= height then width else height) as real / ReferenceSize
  }

  /** `originalSizes.planets`: each planet's declared size, in order. */
  function OriginalSizes(): (r: seq<real>)
    ensures |r| == |Planets|
    ensures forall i :: 0 <= i < |r| ==> r[i] == Planets[i].size
  {
    seq(|Planets|, i requires 0 <= i < |Planets| => Planets[i].size)
  }

  /** `originalSizes.planets`: each planet's declared semi-major axis, in order. */
  function OriginalAxes(): (r: seq<real>)
    ensures |r| == |Planets|
    ensures forall i :: 0 <= i < |r| ==> r[i] == Planets[i].a
  {
    seq(|Planets|, i requires 0 <= i < |Planets| => Planets[i].a)
  }

  /** `original * scale` for every entry of a table of originals. */
  function Scaled(originals: seq<real>, scale: real): (r: seq<real>)
    ensures |r| == |originals|
    ensures forall i :: 0 <= i < |r| ==> r[i] == originals[i] * scale
  {
    seq(|originals|, i requires 0 <= i < |originals| => originals[i] * scale)
  }

  /**
   * Rescaling keeps the layout: any two entries of a rescaled table (planet
   * sizes or orbits) keep the ratio of their originals.
   */
  lemma ScalingKeepsProportions(originals: seq<real>, scale: real, i: nat, j: nat)
    requires i < |originals| && j < |originals|
    ensures Scaled(originals, scale)[i] * originals[j] == Scaled(originals, scale)[j] * originals[i]
  {
    var x, y := originals[i], originals[j];
    assert x * scale * y == y * scale * x;
  }

  class Explorer {
    /** The page's `state` object. */
    var state: State
    /** `handlers.dragStartTime`, the time of the last pointer-down. */
    var dragStartTime: int
    var info: InfoBox
    /** Canvas size in pixels; the sun sits at its centre. */
    var width: nat
    var height: nat
    var sunRadius: real
    /** `planets[i].angle`, `planets[i].size` and `planets[i].a`. */
    var angle: array<real>
    var size: array<real>
    var axis: array<real>

    ghost predicate Valid()
      reads this
    {
      && angle.Length == |Planets| && size.Length == |Planets| && axis.Length == |Planets|
      && angle != size && angle != axis && size != axis
      && (state.draggingPlanet.Some? ==> state.draggingPlanet.value < |Planets|)
    }

    /** The page as loaded: the planets at angle 0 with their declared sizes, the initial `state`. */
    constructor (width: nat, height: nat)
      ensures Valid() && fresh(angle) && fresh(size) && fresh(axis)
      ensures state == InitialState && dragStartTime == 0 && info == Hidden
      ensures this.width == width && this.height == height && sunRadius == SunRadius
      ensures angle[..] == seq(|Planets|, _ => 0.0)
      ensures size[..] == Scaled(OriginalSizes(), 1.0) && axis[..] == Scaled(OriginalAxes(), 1.0)
    {
      state := InitialState;
      dragStartTime := 0;
      info := Hidden;
      this.width := width;
      this.height := height;
      sunRadius := SunRadius;
      angle := new real[|Planets|](_ => 0.0);
      size := new real[|Planets|](i requires 0 <= i < |Planets| => Planets[i].size * 1.0);
      axis := new real[|Planets|](i requires 0 <= i < |Planets| => Planets[i].a * 1.0);
    }

    function SunCentre(): Point
      reads this
    {
      Point(width as real / 2.0, height as real / 2.0)
    }

    /**
     * `handlers.onClick`: a touch tap within 300 ms of the last accepted one is
     * ignored; otherwise the tap time is recorded and the box shows the first
     * planet hit, else the sun if hit, else it is hidden.
     */
    method OnClick(now: int, e: InputEvent, centres: seq<Point>) returns (threw: bool)
      requires Valid() && |centres| == |Planets|
      modifies this`state, this`info
      ensures Valid()
      ensures threw <==> Coords(e).None?
      ensures match ClickGate(e, now, old(state.lastTapTime))
        case Accepted(p) =>
          && state == old(state).(lastTapTime := now)
          && info == ClickInfo(FirstHit(p, centres, size[..]), OnDisc(p, SunCentre(), sunRadius))
        case _ => state == old(state) && info == old(info)
    {
      var gate := ClickGate(e, now, state.lastTapTime);
      threw := gate.Threw?;
      if !gate.Accepted? {
        return;
      }
      var p := gate.at;
      state := state.(lastTapTime := now);
      var hit := ScanPlanets(p, centres, size[..]);
      if hit.Some? {
        info := Showing(PlanetFacts(hit.value));
      } else if OnDisc(p, SunCentre(), sunRadius) {
        info := Showing(SunFacts);
      } else {
        info := Hidden;
      }
    }

    /**
     * `handlers.onPointerDown`: records the time, a touch's position, and, when
     * a planet is hit (first in declaration order), starts dragging it from its
     * current angle and the pointer's angle in that planet's orbit frame.
     * `pointerAngles[i]` is that atan2 angle for planet i.
     */
    method OnPointerDown(now: int, e: InputEvent, centres: seq<Point>, pointerAngles: seq<real>) returns (threw: bool)
      requires Valid() && |centres| == |Planets| && |pointerAngles| == |Planets|
      modifies this`state, this`dragStartTime
      ensures Valid() && dragStartTime == now
      ensures threw <==> Coords(e).None?
      ensures threw ==> state == old(state)
      ensures !threw ==>
        var p := Coords(e).value;
        var touched := if e.Touches? then old(state).(lastTouchX := p.x, lastTouchY := p.y) else old(state);
        match FirstHit(p, centres, size[..])
        case None => state == touched
        case Some(i) => state == touched.(draggingPlanet := Some(i), isDragging := true,
                                          dragStartAngle := angle[i], dragStartMouseAngle := pointerAngles[i])
    {
      dragStartTime := now;
      var c := Coords(e);
      if c.None? {
        return true;
      }
      threw := false;
      var p := c.value;
      if e.Touches? {
        state := state.(lastTouchX := p.x, lastTouchY := p.y);
      }
      var hit := ScanPlanets(p, centres, size[..]);
      if hit.Some? {
        var i := hit.value;
        state := state.(draggingPlanet := Some(i), isDragging := true,
                        dragStartAngle := angle[i], dragStartMouseAngle := pointerAngles[i]);
      }
    }

    /**
     * `handlers.onPointerMove`: only a drag older than 100 ms moves its planet,
     * to `(dragStartAngle + delta + 360) % 360` where delta is the pointer's
     * angular change wrapped once into [-180,180]. Nothing else changes.
     */
    method OnPointerMove(now: int, e: InputEvent, pointerAngle: real) returns (threw: bool)
      requires Valid()
      modifies angle
      ensures Valid()
      ensures var active := state.isDragging && state.draggingPlanet.Some? && TapDelay <= now - dragStartTime;
        && (threw <==> active && Coords(e).None?)
        && (active && !threw ==>
              angle[..] == old(angle[..])[state.draggingPlanet.value :=
                DragAngle(state.dragStartAngle, WrapDelta(pointerAngle - state.dragStartMouseAngle))])
        && (!active || threw ==> angle[..] == old(angle[..]))
    {
      threw := false;
      if !state.isDragging || state.draggingPlanet.None? {
        return;
      }
      if now - dragStartTime < TapDelay {
        return;
      }
      if Coords(e).None? {
        return true;
      }
      var delta := WrapDelta(pointerAngle - state.dragStartMouseAngle);
      angle[state.draggingPlanet.value] := DragAngle(state.dragStartAngle, delta);
    }

    /**
     * `handlers.onPointerUp`: with no drag it does nothing. A drag released
     * within 100 ms is first handled as a click; then the drag ends and the
     * info box is hidden. Only a click that throws stops it half-way.
     */
    method OnPointerUp(now: int, e: InputEvent, centres: seq<Point>) returns (threw: bool)
      requires Valid() && |centres| == |Planets|
      modifies this`state, this`info
      ensures Valid()
      ensures !old(state.isDragging) ==> !threw && state == old(state) && info == old(info)
      ensures threw <==> old(state.isDragging) && now - dragStartTime < TapDelay && Coords(e).None?
      ensures threw ==> state == old(state) && info == old(info)
      ensures old(state.isDragging) && !threw ==>
        && !state.isDragging && state.draggingPlanet.None? && info == Hidden
        && state.(isDragging := true, draggingPlanet := None)
             == (if now - dragStartTime < TapDelay && ClickGate(e, now, old(state.lastTapTime)).Accepted?
                 then old(state).(lastTapTime := now) else old(state)).(isDragging := true, draggingPlanet := None)
    {
      threw := false;
      if state.isDragging {
        if now - dragStartTime < TapDelay {
          threw := OnClick(now, e, centres);
          if threw {
            return;
          }
        }
        state := state.(isDragging := false, draggingPlanet := None);
        info := Hidden;
      }
    }

    /**
     * `animate(time)`: the frame's delta is (time - lastTime) / 1000 seconds.
     * Unless paused or dragging, every planet advances by
     * `baseSpeed * speedMod * delta * 60` modulo 360. `speedMods[i]` is
     * planet i's (a/r)^2 factor.
     */
    method Animate(time: real, speedMods: seq<real>)
      requires Valid() && |speedMods| == |Planets|
      modifies this`state, angle
      ensures Valid()
      ensures state == old(state).(lastTime := time)
      ensures old(state.paused) || old(state.draggingPlanet).Some? ==> angle[..] == old(angle[..])
      ensures !old(state.paused) && old(state.draggingPlanet).None? ==>
        angle[..] == Frame(old(angle[..]), Increments(BaseSpeeds(), speedMods, FrameSeconds(time, old(state.lastTime))))
    {
      var delta := FrameSeconds(time, state.lastTime);
      state := state.(lastTime := time);
      if !state.paused && state.draggingPlanet.None? {
        var incs := Increments(BaseSpeeds(), speedMods, delta);
        var i := 0;
        while i < angle.Length
          modifies angle
          invariant 0 <= i <= angle.Length
          invariant forall j :: 0 <= j < i ==> angle[j] == Advance(old(angle[j]), incs[j])
          invariant forall j :: i <= j < angle.Length ==> angle[j] == old(angle[j])
        {
          angle[i] := Advance(angle[i], incs[i]);
          i := i + 1;
        }
      }
    }

    /**
     * `resize`: the canvas takes the client size and every size is the
     * original one times min(width, height) / 900. The result depends on the
     * new canvas size only, so repeating a resize does not drift.
     */
    method Resize(clientWidth: nat, clientHeight: nat)
      requires Valid()
      modifies this`width, this`height, this`sunRadius, size, axis
      ensures Valid()
      ensures width == clientWidth && height == clientHeight
      ensures sunRadius == SunRadius * Scale(clientWidth, clientHeight)
      ensures size[..] == Scaled(OriginalSizes(), Scale(clientWidth, clientHeight))
      ensures axis[..] == Scaled(OriginalAxes(), Scale(clientWidth, clientHeight))
    {
      width := clientWidth;
      height := clientHeight;
      var scale := Scale(width, height);
      sunRadius := SunRadius * scale;
      var sizes, axes := Scaled(OriginalSizes(), scale), Scaled(OriginalAxes(), scale);
      var i := 0;
      while i < size.Length
        modifies size, axis
        invariant 0 <= i <= size.Length
        invariant forall j :: 0 <= j < i ==> size[j] == sizes[j]
        invariant forall j :: 0 <= j < i ==> axis[j] == axes[j]
      {
        size[i] := sizes[i];
        axis[i] := axes[i];
        i := i + 1;
      }
      assert size[..] == sizes;
      assert axis[..] == axes;
    }

    /** The pause button: flips `paused`. */
    method TogglePause()
      requires Valid()
      modifies this`state
      ensures Valid()
      ensures state == old(state).(paused := !old(state.paused))
    {
      state := state.(paused := !state.paused);
    }
  }

  /**
   * Over any run of frames, a planet whose angle starts in [0,360) stays
   * there while timestamps do not go backwards: each step adds a
   * non-negative increment and takes `% 360` of a non-negative number.
   */
  lemma {:induction false} FramesKeepTurn(angles: seq<real>, times: seq<real>, lastTime: real, speedMods: seq<seq<real>>)
    requires |angles| == |Planets| && AllInTurn(angles) && |speedMods| == |times|
    requires forall k :: 0 <= k < |speedMods| ==> |speedMods[k]| == |Planets|
    requires forall k, i :: 0 <= k < |speedMods| && 0 <= i < |Planets| ==> 0.0 <= speedMods[k][i]
    requires 0 < |times| ==> lastTime <= times[0]
    requires forall k :: 0 < k < |times| ==> times[k - 1] <= times[k]
    ensures AllInTurn(Run(angles, times, lastTime, speedMods))
    decreases |times|
  {
    if |times| > 0 {
      var delta := FrameSeconds(times[0], lastTime);
      assert forall i :: 0 <= i < |Planets| ==> 0.0 <= BaseSpeeds()[i] && 0.0 <= speedMods[0][i];
      var incs := Increments(BaseSpeeds(), speedMods[0], delta);
      FrameKeepsTurn(angles, incs);
      FramesKeepTurn(Frame(angles, incs), times[1..], times[0], speedMods[1..]);
    }
  }

  /** The angles after unpaused, undragged frames at the given timestamps. */
  function Run(angles: seq<real>, times: seq<real>, lastTime: real, speedMods: seq<seq<real>>): (r: seq<real>)
    requires |angles| == |Planets| && |speedMods| == |times|
    requires forall k :: 0 <= k < |speedMods| ==> |speedMods[k]| == |Planets|
    ensures |r| == |Planets|
    decreases |times|
  {
    if |times| == 0 then angles
    else Run(Frame(angles, Increments(BaseSpeeds(), speedMods[0], FrameSeconds(times[0], lastTime))),
             times[1..], times[0], speedMods[1..])
  }
}
