/**
 * scripts/space-explorer-touch.js: the touch-optimised handlers of the kids'
 * solar-system page. Pointer-down starts a drag, touch moves closer than
 * 5 px to the last recorded touch are ignored, and a drag sets the angle
 * to start + pointer change without any wrap. Touch end, touch cancel,
 * mouse up and mouse leave end the drag; a touch end within 200 ms of the
 * touch start is treated as a tap. The planets, the sun and the hit tests
 * are those of scripts/space-explorer.js.
 */
module SpaceExplorerTouch {
  import opened Options
  import opened Angles
  import opened Orbits

  /** Squared distance below which (`Math.sqrt(...) < 5`) a touch move is jitter. */
  const JitterSq: real := 25.0
  /** A touch end this many milliseconds after the touch start is a tap. */
  const TapWindow: int := 200

  /** A touch move to `p` is ignored when it lies less than 5 px from the last recorded touch. */
  predicate Jitter(last: Point, p: Point) { DistSq(p, last) < JitterSq }

  /**
   * The number of moves of a touch drag along `path` that pass the jitter
   * filter, when each move records its own position as the last touch.
   */
  function AcceptedMoves(last: Point, path: seq<Point>): (n: nat)
    ensures n <= |path|
    decreases |path|
  {
    if |path| == 0 then 0
    else (if Jitter(last, path[0]) then 0 else 1) + AcceptedMoves(path[0], path[1..])
  }

  /** Each step of `path` lies less than 5 px from the one before (the first from `last`). */
  predicate SmallSteps(last: Point, path: seq<Point>)
  {
    && (0 < |path| ==> Jitter(last, path[0]))
    && (forall k :: 0 < k < |path| ==> Jitter(path[k - 1], path[k]))
  }

  /** A drag made only of sub-5 px moves never moves its planet, however far it goes in total. */
  lemma {:induction false} SmallStepsNeverMove(last: Point, path: seq<Point>)
    requires SmallSteps(last, path)
    ensures AcceptedMoves(last, path) == 0
    decreases |path|
  {
    if 0 < |path| {
      assert SmallSteps(path[0], path[1..]) by {
        forall k | 0 < k < |path[1..]| ensures Jitter(path[1..][k - 1], path[1..][k]) {
          assert Jitter(path[k], path[k + 1]);
        }
      }
      SmallStepsNeverMove(path[0], path[1..]);
    }
  }

  /** For example, a 4 px-per-event creep of any length along the x axis is filtered out entirely. */
  lemma CreepingDragNeverMoves(n: nat)
    ensures AcceptedMoves(Point(0.0, 0.0), seq(n, k => Point(4.0 * (k + 1) as real, 0.0))) == 0
  {
    var path := seq(n, k => Point(4.0 * (k + 1) as real, 0.0));
    forall k | 0 < k < |path| ensures Jitter(path[k - 1], path[k]) {
      assert path[k].x - path[k - 1].x == 4.0;
    }
    SmallStepsNeverMove(Point(0.0, 0.0), path);
  }

  /** The angle a drag gives: `dragStartAngle + (currentAngle - dragStartMouseAngle)`, with no wrap. */
  function TouchDragAngle(start: real, startMouse: real, current: real): real
  {
    start + (current - startMouse)
  }

  /**
   * Unlike the other variants, the touch drag can take a planet out of
   * [0,360): from any starting angle some pair of atan2 pointer angles does.
   */
  lemma TouchDragLeavesTurn(start: real)
    requires InTurn(start)
    ensures exists startMouse, current ::
      && -HalfTurn <= startMouse <= HalfTurn && -HalfTurn <= current <= HalfTurn
      && !InTurn(TouchDragAngle(start, startMouse, current))
  {
    if start < HalfTurn {
      assert !InTurn(TouchDragAngle(start, HalfTurn, -HalfTurn));
    } else {
      assert !InTurn(TouchDragAngle(start, -HalfTurn, HalfTurn));
    }
  }

  class TouchExplorer {
    /** The page's `state` object. */
    var state: State
    /** `handlers.dragStartTime`. */
    var dragStartTime: int
    var info: InfoBox
    /** `planets[i].angle`. */
    var angle: array<real>
    /** Planet display sizes and the sun, as the shared page helpers hold them. */
    const sizes: seq<real>
    const sunCentre: Point
    const sunRadius: real

    ghost predicate Valid()
      reads this
    {
      && angle.Length == |sizes|
      && (state.draggingPlanet.Some? ==> state.draggingPlanet.value < |sizes|)
    }

    constructor (sizes: seq<real>, sunCentre: Point, sunRadius: real)
      ensures Valid() && fresh(angle)
      ensures this.sizes == sizes && this.sunCentre == sunCentre && this.sunRadius == sunRadius
      ensures state == InitialState && dragStartTime == 0 && info == Hidden
      ensures angle[..] == seq(|sizes|, _ => 0.0)
    {
      this.sizes := sizes;
      this.sunCentre := sunCentre;
      this.sunRadius := sunRadius;
      state := InitialState;
      dragStartTime := 0;
      info := Hidden;
      angle := new real[|sizes|](_ => 0.0);
    }

    /**
     * `handlers.onClick`: a touch tap within 300 ms of the last accepted one
     * is ignored and leaves `lastTapTime`; otherwise the tap time is recorded
     * and the box (placed at the canvas centre) shows the first planet hit,
     * else the sun if hit, else it is hidden.
     */
    method OnClick(now: int, e: InputEvent, centres: seq<Point>) returns (threw: bool)
      requires Valid() && |centres| == |sizes|
      modifies this`state, this`info
      ensures Valid()
      ensures threw <==> Coords(e).None?
      ensures match ClickGate(e, now, old(state.lastTapTime))
        case Accepted(p) =>
          && state == old(state).(lastTapTime := now)
          && info == ClickInfo(FirstHit(p, centres, sizes), OnDisc(p, sunCentre, sunRadius))
        case _ => state == old(state) && info == old(info)
    {
      var gate := ClickGate(e, now, state.lastTapTime);
      threw := gate.Threw?;
      if !gate.Accepted? {
        return;
      }
      var p := gate.at;
      state := state.(lastTapTime := now);
      var hit := ScanPlanets(p, centres, sizes);
      if hit.Some? {
        info := Showing(PlanetFacts(hit.value));
      } else if OnDisc(p, sunCentre, sunRadius) {
        info := Showing(SunFacts);
      } else {
        info := Hidden;
      }
    }

    /**
     * `handlers.onPointerDown` (touchstart, mousedown): records the time and a
     * touch's position; the first planet hit in declaration order starts a
     * drag from its angle and the pointer's angle `pointerAngles[i]`.
     */
    method OnPointerDown(now: int, e: InputEvent, centres: seq<Point>, pointerAngles: seq<real>) returns (threw: bool)
      requires Valid() && |centres| == |sizes| && |pointerAngles| == |sizes|
      modifies this`state, this`dragStartTime
      ensures Valid() && dragStartTime == now
      ensures threw <==> Coords(e).None?
      ensures threw ==> state == old(state)
      ensures !threw ==>
        var p := Coords(e).value;
        var touched := if e.Touches? then old(state).(lastTouchX := p.x, lastTouchY := p.y) else old(state);
        match FirstHit(p, centres, sizes)
        case None => state == touched
        case Some(i) => state == touched.(draggingPlanet := Some(i), isDragging := true,
                                          dragStartAngle := angle[i], dragStartMouseAngle := pointerAngles[i])
    {
      dragStartTime := now;
      var c := Coords(e);
      if c.None? {
        return true;
      }
      threw := false;
      var p := c.value;
      if e.Touches? {
        state := state.(lastTouchX := p.x, lastTouchY := p.y);
      }
      var hit := ScanPlanets(p, centres, sizes);
      if hit.Some? {
        var i := hit.value;
        state := state.(draggingPlanet := Some(i), isDragging := true,
                        dragStartAngle := angle[i], dragStartMouseAngle := pointerAngles[i]);
      }
    }

    /**
     * `handlers.onPointerMove` (touchmove, mousemove): during a drag, a touch
     * move always records its position as the last touch, and is ignored when
     * it is less than 5 px from the previous one; a mouse move skips the
     * filter. An accepted move sets the planet to
     * `dragStartAngle + (pointerAngle - dragStartMouseAngle)`.
     */
    method OnPointerMove(e: InputEvent, pointerAngle: real) returns (threw: bool)
      requires Valid()
      modifies this`state, angle
      ensures Valid()
      ensures var dragging := old(state.isDragging) && old(state.draggingPlanet).Some?;
        && (threw <==> dragging && Coords(e).None?)
        && (!dragging || threw ==> state == old(state) && angle[..] == old(angle[..]))
        && (dragging && !threw ==>
              var p := Coords(e).value;
              var last := Point(old(state.lastTouchX), old(state.lastTouchY));
              && state == (if e.Touches? then old(state).(lastTouchX := p.x, lastTouchY := p.y) else old(state))
              && angle[..] == if e.Touches? && Jitter(last, p) then old(angle[..])
                              else old(angle[..])[state.draggingPlanet.value :=
                                TouchDragAngle(state.dragStartAngle, state.dragStartMouseAngle, pointerAngle)])
    {
      threw := false;
      if !state.isDragging || state.draggingPlanet.None? {
        return;
      }
      var c := Coords(e);
      if c.None? {
        return true;
      }
      var p := c.value;
      if e.Touches? {
        var last := Point(state.lastTouchX, state.lastTouchY);
        state := state.(lastTouchX := p.x, lastTouchY := p.y);
        if Jitter(last, p) {
          return;
        }
      }
      angle[state.draggingPlanet.value] := TouchDragAngle(state.dragStartAngle, state.dragStartMouseAngle, pointerAngle);
    }

    /**
     * A run of one-finger `touchmove` events at the points of `path`, the
     * pointer angle of each given in `pointerAngles`. The last touch ends at
     * the path's last point, and when no move of the run passes the jitter
     * filter, no planet moves.
     */
    method TouchMoves(path: seq<Point>, pointerAngles: seq<real>)
      requires Valid() && |pointerAngles| == |path|
      modifies this`state, angle
      ensures Valid()
      ensures state.isDragging == old(state.isDragging) && state.draggingPlanet == old(state.draggingPlanet)
      ensures state.isDragging && state.draggingPlanet.Some? && 0 < |path| ==>
        Point(state.lastTouchX, state.lastTouchY) == path[|path| - 1]
      ensures AcceptedMoves(Point(old(state.lastTouchX), old(state.lastTouchY)), path) == 0 ==> angle[..] == old(angle[..])
    {
      ghost var start := Point(state.lastTouchX, state.lastTouchY);
      ghost var accepted := 0;
      var dragging := state.isDragging && state.draggingPlanet.Some?;
      for i := 0 to |path|
        invariant Valid()
        invariant state.isDragging == old(state.isDragging) && state.draggingPlanet == old(state.draggingPlanet)
        invariant !dragging ==> state == old(state) && angle[..] == old(angle[..])
        invariant dragging ==> Point(state.lastTouchX, state.lastTouchY) == if i == 0 then start else path[i - 1]
        invariant dragging ==>
          AcceptedMoves(start, path) == accepted + AcceptedMoves(Point(state.lastTouchX, state.lastTouchY), path[i..])
        invariant accepted == 0 ==> angle[..] == old(angle[..])
      {
        var last := Point(state.lastTouchX, state.lastTouchY);
        assert path[i..][0] == path[i] && path[i..][1..] == path[i + 1..];
        var threw := OnPointerMove(Touches([path[i]]), pointerAngles[i]);
        if dragging && !Jitter(last, path[i]) {
          accepted := accepted + 1;
        }
      }
    }

    /** The touchend, touchcancel, mouseup and mouseleave listeners: the drag ends. */
    method EndDrag()
      requires Valid()
      modifies this`state
      ensures Valid()
      ensures state == old(state).(isDragging := false, draggingPlanet := None)
    {
      state := state.(isDragging := false, draggingPlanet := None);
    }

    /**
     * Both touchend listeners, in the order they are added, as written: the
     * drag ends, then a touch end within 200 ms of the touch start calls
     * `onClick` with the touchend event. That event's `touches` list holds
     * only the fingers still down (`remaining`), so after a one-finger tap it
     * is empty and `onClick` throws: the tap never shows anything.
     */
    method OnTouchEndAsWritten(now: int, remaining: seq<Point>, centres: seq<Point>) returns (threw: bool)
      requires Valid() && |centres| == |sizes|
      modifies this`state, this`info
      ensures Valid()
      ensures threw <==> now - dragStartTime < TapWindow && remaining == []
      ensures remaining == [] ==>
        state == old(state).(isDragging := false, draggingPlanet := None) && info == old(info)
      ensures remaining != [] && now - dragStartTime < TapWindow && DoubleTapWindow <= now - old(state.lastTapTime) ==>
        && state == old(state).(isDragging := false, draggingPlanet := None, lastTapTime := now)
        && info == ClickInfo(FirstHit(remaining[0], centres, sizes), OnDisc(remaining[0], sunCentre, sunRadius))
      ensures remaining != [] && !(now - dragStartTime < TapWindow && DoubleTapWindow <= now - old(state.lastTapTime)) ==>
        state == old(state).(isDragging := false, draggingPlanet := None) && info == old(info)
    {
      EndDrag();
      threw := false;
      if now - dragStartTime < TapWindow {
        threw := OnClick(now, Touches(remaining), centres);
      }
    }

    /**
     * The touchend listeners with the tap read at the lifted finger
     * (`changedTouches[0]`): the drag ends, and a touch end within 200 ms of
     * the touch start is a touch tap there, which outside the 300 ms
     * double-tap window shows the first planet hit, else the sun, else hides
     * the box.
     */
    method OnTouchEnd(now: int, lifted: Point, centres: seq<Point>)
      requires Valid() && |centres| == |sizes|
      modifies this`state, this`info
      ensures Valid()
      ensures !state.isDragging && state.draggingPlanet.None?
      ensures now - dragStartTime < TapWindow && DoubleTapWindow <= now - old(state.lastTapTime) ==>
        && state == old(state).(isDragging := false, draggingPlanet := None, lastTapTime := now)
        && info == ClickInfo(FirstHit(lifted, centres, sizes), OnDisc(lifted, sunCentre, sunRadius))
      ensures !(now - dragStartTime < TapWindow && DoubleTapWindow <= now - old(state.lastTapTime)) ==>
        state == old(state).(isDragging := false, draggingPlanet := None) && info == old(info)
    {
      EndDrag();
      if now - dragStartTime < TapWindow {
        var threw := OnClick(now, Touches([lifted]), centres);
      }
    }
  }
}
