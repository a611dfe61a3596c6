/**
 * Interaction pieces shared by the three solar-system pages: screen points,
 * the hit test against a planet or the sun, the first-match scan over the
 * planets in declaration order, the info box, and the event coordinates.
 * Planet screen positions come from floating-point ellipse trigonometry and
 * are given to the model as points.
 */
module Orbits {
  import opened Options

  datatype Point = Point(x: real, y: real)

  /** A planet of the static configuration table (facts and colours omitted). */
  datatype PlanetSpec = PlanetSpec(name: string, a: real, e: real, size: real, baseSpeed: real, orbitRotation: real)

  /** Pixels added to a body's radius by the hit test. */
  const HitMargin: real := 5.0
  /** Milliseconds within which a second touch tap is ignored. */
  const DoubleTapWindow: int := 300

  function Sq(v: real): real { v * v }

  function DistSq(p: Point, q: Point): real { Sq(p.x - q.x) + Sq(p.y - q.y) }

  /**
   * `Math.sqrt(dx*dx + dy*dy) <= radius + 5`: since a square root is never
   * negative, this holds exactly when radius + 5 is non-negative and the
   * squared distance is at most (radius + 5)^2.
   */
  predicate OnDisc(p: Point, centre: Point, radius: real)
  {
    0.0 <= radius + HitMargin && DistSq(p, centre) <= Sq(radius + HitMargin)
  }

  /** A point exactly at a body's centre always hits that body. */
  lemma CentreHits(centre: Point, radius: real)
    requires 0.0 <= radius
    ensures OnDisc(centre, centre, radius)
  {
  }

  /**
   * The `for (const p of planets) if (isPointOnPlanet(x, y, p)) ...` scan:
   * the index of the first planet, in declaration order, whose disc holds `p`.
   */
  function FirstHit(p: Point, centres: seq<Point>, sizes: seq<real>): (r: Option<nat>)
    requires |centres| == |sizes|
    ensures r.Some? ==> r.value < |centres| && OnDisc(p, centres[r.value], sizes[r.value])
    ensures r.Some? ==> forall j :: 0 <= j < r.value ==> !OnDisc(p, centres[j], sizes[j])
    ensures r.None? <==> forall j :: 0 <= j < |centres| ==> !OnDisc(p, centres[j], sizes[j])
    decreases |centres|
  {
    if |centres| == 0 then None
    else if OnDisc(p, centres[0], sizes[0]) then Some(0)
    else
      match FirstHit(p, centres[1..], sizes[1..])
      case None => None
      case Some(k) => Some(k + 1)
  }

  /** The scan as the handlers run it: a loop over the planets that stops at the first hit. */
  method ScanPlanets(p: Point, centres: seq<Point>, sizes: seq<real>) returns (r: Option<nat>)
    requires |centres| == |sizes|
    ensures r == FirstHit(p, centres, sizes)
  {
    var i := 0;
    while i < |centres|
      invariant 0 <= i <= |centres|
      invariant forall j :: 0 <= j < i ==> !OnDisc(p, centres[j], sizes[j])
    {
      if OnDisc(p, centres[i], sizes[i]) {
        FirstHitIsFirst(p, centres, sizes, i);
        return Some(i);
      }
      i := i + 1;
    }
    return None;
  }

  /** The first index that hits, after misses only, is what FirstHit finds. */
  lemma FirstHitIsFirst(p: Point, centres: seq<Point>, sizes: seq<real>, i: nat)
    requires |centres| == |sizes| && i < |centres| && OnDisc(p, centres[i], sizes[i])
    requires forall j :: 0 <= j < i ==> !OnDisc(p, centres[j], sizes[j])
    ensures FirstHit(p, centres, sizes) == Some(i)
  {
    assert FirstHit(p, centres, sizes).Some?;
  }

  /** What the info box shows: the facts of one planet or of the sun. */
  datatype Subject = PlanetFacts(index: nat) | SunFacts

  datatype InfoBox = Hidden | Showing(subject: Subject)

  /** The click rule: the first planet hit, else the sun, else hide the box. */
  function ClickInfo(hit: Option<nat>, onSun: bool): (box: InfoBox)
    ensures hit.Some? ==> box == Showing(PlanetFacts(hit.value))
    ensures hit.None? && onSun ==> box == Showing(SunFacts)
    ensures box == Hidden <==> hit.None? && !onSun
  {
    match hit
    case Some(i) => Showing(PlanetFacts(i))
    case None => if onSun then Showing(SunFacts) else Hidden
  }

  /**
   * An input event: a mouse or pointer event with its canvas-local position,
   * or a touch event with the positions of its `touches` list.
   */
  datatype InputEvent = Pointer(at: Point) | Touches(touches: seq<Point>)

  /**
   * `getEventCoords`: `e.touches ? e.touches[0] : e`. A touch event's list is
   * truthy even when empty, and then `touches[0]` is undefined and reading its
   * coordinates throws: None.
   */
  function Coords(e: InputEvent): (r: Option<Point>)
    ensures e.Pointer? ==> r == Some(e.at)
    ensures e.Touches? ==> (r.None? <==> |e.touches| == 0)
    ensures e.Touches? && 0 < |e.touches| ==> r == Some(e.touches[0])
  {
    match e
    case Pointer(at) => Some(at)
    case Touches(ts) => if |ts| == 0 then None else Some(ts[0])
  }

  /** How a click handler starts: it throws, ignores a double tap, or accepts the tap at a point. */
  datatype Tap = Threw | Ignored | Accepted(at: Point)

  /** The opening of `onClick`: coordinates first, then the 300 ms double-tap guard for touch events. */
  function ClickGate(e: InputEvent, now: int, lastTapTime: int): (t: Tap)
    ensures t.Threw? <==> Coords(e).None?
    ensures t.Ignored? <==> Coords(e).Some? && e.Touches? && now - lastTapTime < DoubleTapWindow
    ensures t.Accepted? <==> Coords(e).Some? && (e.Pointer? || DoubleTapWindow <= now - lastTapTime)
    ensures t.Accepted? ==> Coords(e) == Some(t.at)
  {
    match Coords(e)
    case None => Threw
    case Some(p) => if e.Touches? && now - lastTapTime < DoubleTapWindow then Ignored else Accepted(p)
  }

  /** The `state` object of scripts/space-explorer.js and scripts/space-explorer-touch.js. */
  datatype State = State(
    lastTime: real,
    draggingPlanet: Option<nat>,
    paused: bool,
    isDragging: bool,
    dragStartAngle: real,
    dragStartMouseAngle: real,
    lastTapTime: int,
    lastTouchX: real,
    lastTouchY: real)

  const InitialState: State := State(0.0, None, false, false, 0.0, 0.0, 0, 0.0, 0.0)
}
