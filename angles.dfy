/**
 * Angle arithmetic of the solar-system pages, in degrees, as `real`.
 * JavaScript's `%` on numbers truncates toward zero (the remainder has the
 * sign of the dividend), unlike Dafny's Euclidean `%` on integers, so it is
 * written out here.
 */
module Angles {
  const FullTurn: real := 360.0
  const HalfTurn: real := 180.0

  /** Truncation toward zero. */
  function Trunc(q: real): (n: int)
    ensures 0.0 <= q ==> n as real <= q < n as real + 1.0
    ensures q < 0.0 ==> n as real - 1.0 < q <= n as real
  {
    if q >= 0.0 then q.Floor else -((-q).Floor)
  }

  /** JavaScript's `x % m` for a positive modulus. */
  function Rem(x: real, m: real): (r: real)
    requires m > 0.0
    ensures 0.0 <= x ==> 0.0 <= r < m
    ensures x < 0.0 ==> -m < r <= 0.0
    ensures 0.0 <= x < m ==> r == x
  {
    RemRange(x, m, x / m);
    x - m * Trunc(x / m) as real
  }

  lemma RemRange(x: real, m: real, q: real)
    requires m > 0.0 && q == x / m
    ensures var r := x - m * Trunc(q) as real;
      && (0.0 <= x ==> 0.0 <= r < m)
      && (x < 0.0 ==> -m < r <= 0.0)
      && (0.0 <= x < m ==> r == x)
  {
    QuotientSign(x, m, q);
    var n := Trunc(q);
    Distribute(m, q, n as real);
    if 0.0 <= x {
      FractionPart(x, m, q, n);
    } else {
      NegativeFractionPart(x, m, q, n as real);
    }
  }

  lemma FractionPart(x: real, m: real, q: real, n: int)
    requires m > 0.0 && x == m * q && 0.0 <= q && n as real <= q < n as real + 1.0
    requires m * q - m * n as real == m * (q - n as real)
    ensures 0.0 <= x - m * n as real < m
    ensures x < m ==> x - m * n as real == x
  {
    var f := q - n as real;
    ScaleFraction(m, f);
    assert x - m * n as real == m * f;
    if x < m {
      assert q < 1.0 by { if q >= 1.0 { Monotone(m, 1.0, q); } }
      assert n == 0;
    }
  }

  lemma NegativeFractionPart(x: real, m: real, q: real, n: real)
    requires m > 0.0 && x == m * q && q < 0.0 && n - 1.0 < q <= n
    requires m * q - m * n == m * (q - n)
    ensures -m < x - m * n <= 0.0
  {
    var f := n - q;
    ScaleFraction(m, f);
    Negate(m, f);
    assert x - m * n == m * -f;
  }

  lemma Negate(m: real, f: real)
    ensures m * -f == -(m * f)
  {
  }

  lemma QuotientSign(x: real, m: real, q: real)
    requires m > 0.0 && q == x / m
    ensures x == m * q
    ensures 0.0 <= x <==> 0.0 <= q
  {
    if q < 0.0 { Monotone(m, q, 0.0); }
    if 0.0 <= q { assert 0.0 <= m * q; }
  }

  lemma Monotone(m: real, a: real, b: real)
    requires m > 0.0 && a <= b
    ensures m * a <= m * b
  {
  }

  lemma Distribute(m: real, q: real, n: real)
    ensures m * q - m * n == m * (q - n)
  {
  }

  /** A fraction of a positive modulus stays below it. */
  lemma ScaleFraction(m: real, f: real)
    requires m > 0.0 && 0.0 <= f < 1.0
    ensures 0.0 <= m * f < m
  {
    assert m * f < m * 1.0;
  }

  /** The remainder of a shifted angle: adding whole turns to a non-negative angle does not change `% 360`. */
  lemma {:induction false} RemAddTurns(x: real, k: nat)
    requires 0.0 <= x
    ensures Rem(x + k as real * FullTurn, FullTurn) == Rem(x, FullTurn)
  {
    var q := x / FullTurn;
    assert (x + k as real * FullTurn) / FullTurn == q + k as real;
    assert (q + k as real).Floor == q.Floor + k;
  }

  /**
   * The single +-360 correction applied to the pointer-angle delta of a drag
   * (scripts/space-explorer.js and games/solarsystem/game.js).
   */
  function WrapDelta(d: real): (r: real)
    ensures r == d || r == d - FullTurn || r == d + FullTurn
    ensures -HalfTurn <= d <= HalfTurn ==> r == d
    ensures -540.0 <= d <= 540.0 ==> -HalfTurn <= r <= HalfTurn
  {
    if d > HalfTurn then d - FullTurn
    else if d < -HalfTurn then d + FullTurn
    else d
  }

  /** Both pointer angles come from atan2, so both lie in [-180,180]; their wrapped difference does too. */
  lemma PointerDeltaInHalfTurn(current: real, start: real)
    requires -HalfTurn <= current <= HalfTurn && -HalfTurn <= start <= HalfTurn
    ensures -HalfTurn <= WrapDelta(current - start) <= HalfTurn
  {
  }

  /** The angle a dragged planet is given: `(dragStartAngle + deltaAngle + 360) % 360`. */
  function DragAngle(start: real, delta: real): (r: real)
    ensures 0.0 <= start + delta + FullTurn ==> 0.0 <= r < FullTurn
    ensures 0.0 <= start < FullTurn && -HalfTurn <= delta <= HalfTurn ==>
              r == start + delta || r == start + delta + FullTurn || r == start + delta - FullTurn
  {
    var x := start + delta + FullTurn;
    if 0.0 <= start < FullTurn && -HalfTurn <= delta <= HalfTurn then
      RemWithinThreeTurns(x);
      Rem(x, FullTurn)
    else
      Rem(x, FullTurn)
  }

  /** For x in [0, 1080) the remainder by 360 takes off 0, 1 or 2 turns. */
  lemma RemWithinThreeTurns(x: real)
    requires 0.0 <= x < 3.0 * FullTurn
    ensures Rem(x, FullTurn) == x || Rem(x, FullTurn) == x - FullTurn || Rem(x, FullTurn) == x - 2.0 * FullTurn
  {
    var q := x / FullTurn;
    assert 0.0 <= q < 3.0;
    assert q.Floor == 0 || q.Floor == 1 || q.Floor == 2;
  }

  /** Releasing the pointer where the drag began puts the planet back at its starting angle. */
  lemma {:induction false} DragBackToStart(start: real, pointer: real)
    requires 0.0 <= start < FullTurn
    ensures DragAngle(start, WrapDelta(pointer - pointer)) == start
  {
    assert WrapDelta(pointer - pointer) == 0.0;
    RemAddTurns(start, 1);
    assert start + 0.0 + FullTurn == start + 1 as real * FullTurn;
  }

  /** A raw pointer delta of 370 degrees is wrapped to 10, so a planet at 10 degrees lands on 20. */
  lemma DragWrapExample()
    ensures DragAngle(10.0, WrapDelta(370.0)) == 20.0
  {
    assert WrapDelta(370.0) == 10.0;
    assert (380.0 / FullTurn).Floor == 1;
  }

  /** Seconds elapsed between two animation timestamps given in milliseconds. */
  function FrameSeconds(time: real, lastTime: real): (delta: real)
    ensures time == lastTime ==> delta == 0.0
    ensures lastTime <= time ==> 0.0 <= delta
  {
    (time - lastTime) / 1000.0
  }

  /**
   * The angle a planet moves in one frame: `baseSpeed * speedMod * delta * 60`.
   * `speedMod` is the Kepler-style factor (a/r)^2, computed with floating-point
   * trigonometry and taken here as a given non-negative number.
   */
  function Increment(baseSpeed: real, speedMod: real, delta: real): (inc: real)
    ensures delta == 0.0 ==> inc == 0.0
    ensures 0.0 <= baseSpeed && 0.0 <= speedMod && 0.0 <= delta ==> 0.0 <= inc
  {
    baseSpeed * speedMod * delta * 60.0
  }

  /** One integrator step: `(angle + increment) % 360`. */
  function Advance(angle: real, inc: real): (r: real)
    ensures 0.0 <= angle + inc ==> 0.0 <= r < FullTurn
    ensures 0.0 <= angle < FullTurn && inc == 0.0 ==> r == angle
  {
    Rem(angle + inc, FullTurn)
  }

  predicate InTurn(angle: real) { 0.0 <= angle < FullTurn }

  predicate AllInTurn(angles: seq<real>) { forall i :: 0 <= i < |angles| ==> InTurn(angles[i]) }

  /** Every planet's increment for one frame, in declaration order. */
  function Increments(baseSpeeds: seq<real>, speedMods: seq<real>, delta: real): (incs: seq<real>)
    requires |speedMods| == |baseSpeeds|
    ensures |incs| == |baseSpeeds|
    ensures delta == 0.0 ==> forall i :: 0 <= i < |incs| ==> incs[i] == 0.0
    ensures 0.0 <= delta && (forall i :: 0 <= i < |baseSpeeds| ==> 0.0 <= baseSpeeds[i] && 0.0 <= speedMods[i]) ==>
              forall i :: 0 <= i < |incs| ==> 0.0 <= incs[i]
  {
    seq(|baseSpeeds|, i requires 0 <= i < |baseSpeeds| => Increment(baseSpeeds[i], speedMods[i], delta))
  }

  /** The angles after one integrator step over all planets. */
  function Frame(angles: seq<real>, incs: seq<real>): (r: seq<real>)
    requires |incs| == |angles|
    ensures |r| == |angles|
  {
    seq(|angles|, i requires 0 <= i < |angles| => Advance(angles[i], incs[i]))
  }

  /** A frame with non-negative increments keeps every angle in [0,360). */
  lemma FrameKeepsTurn(angles: seq<real>, incs: seq<real>)
    requires |incs| == |angles| && AllInTurn(angles)
    requires forall i :: 0 <= i < |incs| ==> 0.0 <= incs[i]
    ensures AllInTurn(Frame(angles, incs))
  {
    forall i | 0 <= i < |angles| ensures InTurn(Frame(angles, incs)[i]) {
      assert InTurn(angles[i]);
    }
  }

  /** A zero-length frame moves no planet whose angle is already in [0,360). */
  lemma ZeroFrameIsStill(angles: seq<real>, baseSpeeds: seq<real>, speedMods: seq<real>)
    requires |baseSpeeds| == |angles| && |speedMods| == |angles| && AllInTurn(angles)
    ensures Frame(angles, Increments(baseSpeeds, speedMods, 0.0)) == angles
  {
    var r := Frame(angles, Increments(baseSpeeds, speedMods, 0.0));
    forall i | 0 <= i < |angles| ensures r[i] == angles[i] {
      assert InTurn(angles[i]);
    }
  }
}
