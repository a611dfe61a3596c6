/**
 * games/math-match/game.js: a 60-second arithmetic game. Each round shows an
 * addition or subtraction of two numbers from 1 to 20 and nine distinct
 * answer tiles, within 10 of the right answer, in shuffled order, with keys
 * 1 to 9. A right choice scores 10 points, a wrong one costs 5 (never below
 * 0), and 250 ms later a new round is drawn. Every `Math.random()` draw is a
 * parameter in [0,1).
 */
module MathMatch {
  import opened Options

  const Tiles: nat := 9
  const GameSeconds: int := 60
  const RightPoints: int := 10
  const WrongPenalty: int := 5

  predicate Unit(r: real) { 0.0 <= r < 1.0 }

  /** `randInt(a, b)`: `Math.floor(r * (b - a + 1)) + a` for a draw `r`, always in [a,b]. */
  function RandInt(a: int, b: int, r: real): (n: int)
    requires a <= b && Unit(r)
    ensures a <= n <= b
  {
    ScaledDrawBelow(r, (b - a + 1) as real);
    (r * (b - a + 1) as real).Floor + a
  }

  lemma ScaledDrawBelow(r: real, w: real)
    requires Unit(r) && 1.0 <= w
    ensures 0.0 <= r * w < w
  {
  }

  /** Every integer of [a,b] is `randInt(a, b)` for some draw. */
  lemma RandIntOnto(a: int, b: int, n: int)
    requires a <= n <= b
    ensures exists r :: Unit(r) && RandInt(a, b, r) == n
  {
    var w := (b - a + 1) as real;
    var r := (n - a) as real / w;
    assert r * w == (n - a) as real;
    assert Unit(r);
    assert RandInt(a, b, r) == n;
  }

  datatype Op = Plus | Minus

  /** `a op b = ?`. */
  datatype Equation = Equation(a: int, op: Op, b: int)

  function Value(eq: Equation): int
  {
    match eq.op
    case Plus => eq.a + eq.b
    case Minus => eq.a - eq.b
  }

  /**
   * The round's equation: '+' when the first draw is below 0.5, else '-';
   * both operands `randInt(1, 20)`, swapped for a subtraction whose second
   * operand is larger, so the answer is never negative.
   */
  function MakeEquation(opDraw: real, aDraw: real, bDraw: real): (eq: Equation)
    requires Unit(opDraw) && Unit(aDraw) && Unit(bDraw)
    ensures eq.op == (if opDraw < 0.5 then Plus else Minus)
    ensures multiset{eq.a, eq.b} == multiset{RandInt(1, 20, aDraw), RandInt(1, 20, bDraw)}
    ensures 1 <= eq.a <= 20 && 1 <= eq.b <= 20
    ensures eq.op == Minus ==> eq.a >= eq.b
    ensures 0 <= Value(eq) <= 40
  {
    var op := if opDraw < 0.5 then Plus else Minus;
    var a, b := RandInt(1, 20, aDraw), RandInt(1, 20, bDraw);
    if op == Minus && b > a then Equation(b, op, a) else Equation(a, op, b)
  }

  predicate Distinct(s: seq<int>)
  {
    forall i, j :: 0 <= i < j < |s| ==> s[i] != s[j]
  }

  predicate Near(ans: int, s: seq<int>)
  {
    forall i :: 0 <= i < |s| ==> ans - 10 <= s[i] <= ans + 10
  }

  /** `Set.add`: a value already present leaves the set, a new one goes last in insertion order. */
  function Insert(s: seq<int>, c: int): (r: seq<int>)
  {
    if c in s then s else s + [c]
  }

  /**
   * The choices the loop has once it stops, in insertion order: while fewer
   * than nine, add `ans + randInt(-10, 10)` for the next draw, starting at
   * draw `i`. (If the draws run out first, the choices so far.)
   */
  function Fill(ans: int, choices: seq<int>, draws: seq<real>, i: nat): seq<int>
    requires i <= |draws| && forall k :: 0 <= k < |draws| ==> Unit(draws[k])
    decreases |draws| - i
  {
    if |choices| >= Tiles || i == |draws| then choices
    else Fill(ans, Insert(choices, ans + RandInt(-10, 10, draws[i])), draws, i + 1)
  }

  /** `Set.add` keeps what is there first, adds at most one value, and keeps the values distinct and near the answer. */
  lemma InsertKeeps(ans: int, choices: seq<int>, c: int)
    requires ans - 10 <= c <= ans + 10
    ensures choices <= Insert(choices, c) && |Insert(choices, c)| <= |choices| + 1
    ensures Distinct(choices) ==> Distinct(Insert(choices, c))
    ensures Near(ans, choices) ==> Near(ans, Insert(choices, c))
  {
    if c !in choices {
      var r := choices + [c];
      if Distinct(choices) {
        forall i, j | 0 <= i < j < |r| ensures r[i] != r[j] {
          if j == |choices| {
            assert r[i] == choices[i];
          }
        }
      }
    }
  }

  /**
   * Growing the choices keeps what is there first, keeps them distinct and
   * within 10 of the answer, and never goes past nine.
   */
  lemma {:induction false} FillKeeps(ans: int, choices: seq<int>, draws: seq<real>, i: nat)
    requires i <= |draws| && forall k :: 0 <= k < |draws| ==> Unit(draws[k])
    ensures choices <= Fill(ans, choices, draws, i)
    ensures Distinct(choices) ==> Distinct(Fill(ans, choices, draws, i))
    ensures Near(ans, choices) ==> Near(ans, Fill(ans, choices, draws, i))
    ensures |choices| <= Tiles ==> |Fill(ans, choices, draws, i)| <= Tiles
    decreases |draws| - i
  {
    if |choices| < Tiles && i < |draws| {
      var c := ans + RandInt(-10, 10, draws[i]);
      InsertKeeps(ans, choices, c);
      FillKeeps(ans, Insert(choices, c), draws, i + 1);
    }
  }

  /** The choices so far: distinct, within 10 of the answer, headed by it, at most nine. */
  predicate Growing(ans: int, choices: seq<int>)
  {
    Distinct(choices) && Near(ans, choices) && 0 < |choices| <= Tiles && choices[0] == ans
  }

  /** One pass of the choice-growing loop keeps the choices growing and the same eventual result. */
  lemma GrowStep(ans: int, choices: seq<int>, draws: seq<real>, i: nat)
    requires forall k :: 0 <= k < |draws| ==> Unit(draws[k])
    requires Growing(ans, choices) && |choices| < Tiles && i < |draws|
    ensures Growing(ans, Insert(choices, ans + RandInt(-10, 10, draws[i])))
    ensures Fill(ans, Insert(choices, ans + RandInt(-10, 10, draws[i])), draws, i + 1) == Fill(ans, choices, draws, i)
  {
    InsertKeeps(ans, choices, ans + RandInt(-10, 10, draws[i]));
  }

  /**
   * The choice-growing loop of `newRound`. Starting from the answer alone, it
   * ends with exactly nine distinct choices, the answer first, every one
   * within 10 of the answer.
   */
  method Choices(ans: int, draws: seq<real>) returns (choices: seq<int>)
    requires forall k :: 0 <= k < |draws| ==> Unit(draws[k])
    requires |Fill(ans, [ans], draws, 0)| == Tiles
    ensures choices == Fill(ans, [ans], draws, 0)
    ensures |choices| == Tiles && Distinct(choices) && choices[0] == ans && Near(ans, choices)
  {
    choices := [ans];
    var i := 0;
    while |choices| < Tiles
      invariant 0 <= i <= |draws|
      invariant Growing(ans, choices)
      invariant Fill(ans, choices, draws, i) == Fill(ans, [ans], draws, 0)
      invariant |choices| < Tiles ==> i < |draws|
      decreases |draws| - i
    {
      var next := Insert(choices, ans + RandInt(-10, 10, draws[i]));
      GrowStep(ans, choices, draws, i);
      choices := next;
      i := i + 1;
    }
  }

  predicate Injective(order: seq<int>)
  {
    forall i, j :: 0 <= i < j < |order| ==> order[i] != order[j]
  }

  /** A shuffle order: each of the positions 0..n-1 named once. */
  predicate IsOrder(order: seq<int>, n: nat)
  {
    |order| == n && (forall k :: 0 <= k < n ==> 0 <= order[k] < n) && Injective(order)
  }

  lemma {:induction false} InjectiveImageSize(order: seq<int>, i: nat)
    requires i <= |order| && Injective(order)
    ensures |set k | 0 <= k < i :: order[k]| == i
  {
    if 0 < i {
      InjectiveImageSize(order, i - 1);
      var before := set k | 0 <= k < i - 1 :: order[k];
      assert (set k | 0 <= k < i :: order[k]) == before + {order[i - 1]};
      assert order[i - 1] !in before;
    }
  }

  /** The positions 0..n-1 in order. */
  function Positions(n: nat): (ps: seq<int>)
    ensures |ps| == n && Injective(ps)
    ensures forall k :: 0 <= k < n ==> ps[k] == k
  {
    seq(n, k => k)
  }

  /** An order names every position: a shuffle loses no choice. */
  lemma OrderIsOnto(order: seq<int>, n: nat)
    requires IsOrder(order, n)
    ensures forall j :: 0 <= j < n ==> j in order
  {
    var image := set k | 0 <= k < n :: order[k];
    var range := set k | 0 <= k < n :: Positions(n)[k];
    InjectiveImageSize(order, n);
    InjectiveImageSize(Positions(n), n);
    assert image <= range by {
      forall v | v in image ensures v in range {
        var k :| 0 <= k < n && order[k] == v;
        assert Positions(n)[v] == v;
      }
    }
    assert image * range == image && image + range == range;
    assert |range - image| == 0;
    forall j | 0 <= j < n ensures j in order {
      assert Positions(n)[j] == j;
      assert j in range;
      assert j in image;
    }
  }

  /** The list `sort(() => Math.random() - 0.5)` produces, as the order it happens to pick. */
  function Shuffle(list: seq<int>, order: seq<int>): (r: seq<int>)
    requires IsOrder(order, |list|)
    ensures |r| == |list|
    ensures forall k :: 0 <= k < |r| ==> r[k] == list[order[k]]
  {
    seq(|list|, k requires 0 <= k < |list| => list[order[k]])
  }

  /** A shuffle of distinct choices keeps them distinct and keeps every one of them. */
  lemma ShuffleIsPermutation(list: seq<int>, order: seq<int>)
    requires IsOrder(order, |list|) && Distinct(list)
    ensures Distinct(Shuffle(list, order))
    ensures forall v :: v in Shuffle(list, order) <==> v in list
  {
    var r := Shuffle(list, order);
    OrderIsOnto(order, |list|);
    forall v | v in list ensures v in r {
      var j :| 0 <= j < |list| && list[j] == v;
      assert j in order;
      var k :| 0 <= k < |order| && order[k] == j;
      assert r[k] == v;
    }
  }

  /** A tile: its number and its `data-key`. */
  datatype Tile = Tile(value: int, key: string)

  /** `(idx + 1).toString()` for a tile index below nine: the one-character string "1".."9". */
  function KeyOf(idx: nat): (key: string)
    requires idx < Tiles
    ensures |key| == 1 && '1' <= key[0] <= '9'
  {
    [(('1' as int) + idx) as char]
  }

  lemma KeysDistinct(i: nat, j: nat)
    requires i < Tiles && j < Tiles && i != j
    ensures KeyOf(i) != KeyOf(j)
  {
    assert KeyOf(i)[0] != KeyOf(j)[0];
  }

  /** All the random draws one round takes. */
  datatype Draws = Draws(op: real, a: real, b: real, choices: seq<real>, order: seq<int>)

  /** Draws in [0,1), enough of them for the choices loop to stop, and a shuffle order. */
  predicate Sufficient(d: Draws)
  {
    && Unit(d.op) && Unit(d.a) && Unit(d.b)
    && (forall k :: 0 <= k < |d.choices| ==> Unit(d.choices[k]))
    && (var ans := Value(MakeEquation(d.op, d.a, d.b));
        |Fill(ans, [ans], d.choices, 0)| == Tiles)
    && IsOrder(d.order, Tiles)
  }

  /** The board a round with draws `d` deals. */
  function Dealt(d: Draws): seq<Tile>
    requires Sufficient(d)
  {
    var ans := Value(MakeEquation(d.op, d.a, d.b));
    Board(Shuffle(Fill(ans, [ans], d.choices, 0), d.order))
  }

  function Consecutive(ans: int, n: nat): seq<int>
  {
    seq(n, i => ans + i)
  }

  /** Eight draws that give `ans + 1`, ..., `ans + 8` in turn. */
  function StepDraws(): (draws: seq<real>)
    ensures |draws| == Tiles - 1 && forall k :: 0 <= k < |draws| ==> Unit(draws[k])
  {
    seq(Tiles - 1, k => (k + 11) as real / 21.0)
  }

  lemma StepDraw(j: nat)
    requires j < Tiles - 1
    ensures RandInt(-10, 10, StepDraws()[j]) == j + 1
  {
    var r := StepDraws()[j];
    assert r * 21.0 == (j + 11) as real;
  }

  lemma ConsecutiveGrows(ans: int, n: nat)
    ensures Insert(Consecutive(ans, n), ans + n) == Consecutive(ans, n + 1)
  {
    assert ans + n !in Consecutive(ans, n);
  }

  lemma {:induction false} StepDrawsFill(ans: int, j: nat)
    requires j <= Tiles - 1
    ensures Fill(ans, Consecutive(ans, j + 1), StepDraws(), j) == Consecutive(ans, Tiles)
    decreases Tiles - 1 - j
  {
    var draws := StepDraws();
    var c := Consecutive(ans, j + 1);
    assert |c| == j + 1;
    if j < Tiles - 1 {
      StepDraw(j);
      ConsecutiveGrows(ans, j + 1);
      assert Fill(ans, c, draws, j) == Fill(ans, Insert(c, ans + RandInt(-10, 10, draws[j])), draws, j + 1);
      StepDrawsFill(ans, j + 1);
    } else {
      assert Fill(ans, c, draws, j) == c;
    }
  }

  /** Any equation draws, followed by eight stepping choice draws and the identity order, make a complete round. */
  lemma RoundsCanComplete(op: real, a: real, b: real)
    requires Unit(op) && Unit(a) && Unit(b)
    ensures Sufficient(Draws(op, a, b, StepDraws(), Positions(Tiles)))
  {
    var ans := Value(MakeEquation(op, a, b));
    assert |Fill(ans, [ans], StepDraws(), 0)| == Tiles by {
      StepDrawsFill(ans, 0);
      assert Consecutive(ans, 1) == [ans];
    }
    assert IsOrder(Positions(Tiles), Tiles);
  }

  /** A round's tiles hold the shuffled choices, keyed "1".."9" in order, and the answer is among them. */
  predicate RoundTiles(tiles: seq<Tile>, ans: int)
  {
    && |tiles| == Tiles
    && (forall k :: 0 <= k < Tiles ==> tiles[k].key == KeyOf(k) && ans - 10 <= tiles[k].value <= ans + 10)
    && (forall i, j :: 0 <= i < j < Tiles ==> tiles[i].value != tiles[j].value)
    && (exists k :: 0 <= k < Tiles && tiles[k].value == ans)
  }

  /** The tiles `newRound` creates for a shuffled list: tile k shows `list[k]` under key k + 1. */
  function Board(list: seq<int>): seq<Tile>
    requires |list| == Tiles
  {
    seq(Tiles, k requires 0 <= k < Tiles => Tile(list[k], KeyOf(k)))
  }

  /** The tile-creating loop of `newRound`. */
  method BuildBoard(list: seq<int>) returns (board: seq<Tile>)
    requires |list| == Tiles
    ensures board == Board(list)
  {
    board := [];
    for k := 0 to Tiles
      invariant |board| == k
      invariant forall i :: 0 <= i < k ==> board[i] == Tile(list[i], KeyOf(i))
    {
      board := board + [Tile(list[k], KeyOf(k))];
    }
  }

  /** The shuffled board of a round's choices is a round's board: keyed 1 to 9, distinct, near the answer, holding it. */
  lemma ShuffledBoardIsRound(ans: int, choices: seq<int>, order: seq<int>)
    requires |choices| == Tiles && Distinct(choices) && Near(ans, choices) && choices[0] == ans
    requires IsOrder(order, Tiles)
    ensures RoundTiles(Board(Shuffle(choices, order)), ans)
  {
    var list := Shuffle(choices, order);
    var board := Board(list);
    ShuffleIsPermutation(choices, order);
    forall k | 0 <= k < Tiles ensures ans - 10 <= board[k].value <= ans + 10 {
      assert list[k] in choices by { assert list[k] in list; }
    }
    assert ans in list by { assert choices[0] in choices; }
    var j :| 0 <= j < Tiles && list[j] == ans;
    assert board[j].value == ans;
  }

  /** `e.key >= '1' && e.key <= '9'`: JavaScript compares strings code unit by code unit. */
  predicate LexLess(a: string, b: string)
    decreases |a|
  {
    if |a| == 0 then |b| > 0
    else if |b| == 0 then false
    else if a[0] != b[0] then a[0] < b[0]
    else LexLess(a[1..], b[1..])
  }

  predicate InKeyRange(key: string)
  {
    !LexLess(key, "1") && !LexLess("9", key)
  }

  /** Every tile key passes the range check. */
  lemma TileKeysInRange(idx: nat)
    requires idx < Tiles
    ensures InKeyRange(KeyOf(idx))
  {
    var key := KeyOf(idx);
    assert key[1..] == [];
  }

  /** The range check is on strings, so a longer key such as "10" passes it too (and then matches no tile). */
  lemma LongerKeysPassRangeCheck()
    ensures InKeyRange("10")
    ensures forall idx :: 0 <= idx < Tiles ==> KeyOf(idx) != "10"
  {
    assert "10"[1..] == "0";
  }

  /** `board.querySelector('.tile[data-key="…"]')`: the first tile with that key. */
  function Selected(tiles: seq<Tile>, key: string): (r: Option<nat>)
    ensures r.Some? ==> r.value < |tiles| && tiles[r.value].key == key
    ensures r.Some? ==> forall k :: 0 <= k < r.value ==> tiles[k].key != key
    ensures r.None? <==> forall k :: 0 <= k < |tiles| ==> tiles[k].key != key
  {
    if |tiles| == 0 then None
    else if tiles[0].key == key then Some(0)
    else match Selected(tiles[1..], key)
      case None => None
      case Some(k) => Some(k + 1)
  }

  /** Key "1".."9" selects the tile at that position of a round's board. */
  lemma DigitKeySelectsTile(tiles: seq<Tile>, ans: int, idx: nat)
    requires RoundTiles(tiles, ans) && idx < Tiles
    ensures InKeyRange(KeyOf(idx)) && Selected(tiles, KeyOf(idx)) == Some(idx)
  {
    TileKeysInRange(idx);
    forall k | 0 <= k < idx ensures tiles[k].key != KeyOf(idx) {
      KeysDistinct(k, idx);
    }
  }

  /** The score after a choice: 10 more when right, else 5 less but never below 0. */
  function Scored(score: int, right: bool): (r: int)
    requires 0 <= score
    ensures 0 <= r
    ensures right ==> r - score == RightPoints
    ensures !right ==> r <= score && (score >= WrongPenalty ==> score - r == WrongPenalty)
    ensures !right && score < WrongPenalty ==> r == 0
  {
    if right then score + RightPoints
    else if score - WrongPenalty > 0 then score - WrongPenalty else 0
  }

  /** The countdown: the seconds left and whether the interval timer is running. */
  datatype Clock = Clock(time: int, running: bool)

  /** One interval tick: a second off; at 0 or below the timer is cleared. A stopped clock does not tick. */
  function Tick(c: Clock): (r: Clock)
    ensures !c.running ==> r == c
    ensures c.running ==> r.time == c.time - 1 && (r.running <==> 0 < r.time)
  {
    if !c.running then c else Clock(c.time - 1, 0 < c.time - 1)
  }

  function Ticks(c: Clock, n: nat): Clock
    decreases n
  {
    if n == 0 then c else Ticks(Tick(c), n - 1)
  }

  /** From `t` seconds the timer keeps running for `t - 1` ticks and stops on the `t`-th. */
  lemma {:induction false} Countdown(t: nat, n: nat)
    requires 0 < t && n <= t
    ensures Ticks(Clock(t, true), n) == Clock(t - n, n < t)
    decreases n
  {
    if 0 < n {
      Countdown(t, n - 1);
      TicksLast(Clock(t, true), n - 1);
      assert Ticks(Clock(t, true), n) == Tick(Clock(t - (n - 1), true));
    }
  }

  lemma {:induction false} TicksLast(c: Clock, n: nat)
    ensures Ticks(c, n + 1) == Tick(Ticks(c, n))
    decreases n
  {
    if 0 < n {
      TicksLast(Tick(c), n - 1);
    }
  }

  /** A game lasts exactly 60 ticks. */
  lemma GameLastsSixtyTicks()
    ensures Ticks(Clock(GameSeconds, true), GameSeconds - 1).running
    ensures Ticks(Clock(GameSeconds, true), GameSeconds) == Clock(0, false)
  {
    Countdown(GameSeconds, GameSeconds - 1);
    Countdown(GameSeconds, GameSeconds);
  }

  class MathGame {
    var score: int
    var time: int
    /** `timer !== null`. */
    var timerRunning: bool
    var currentAnswer: Option<int>
    var equation: Option<Equation>
    /** The board's tiles; empty before the first round. */
    var tiles: seq<Tile>
    /** `newRound` calls scheduled by choices and not yet run. */
    var pendingRounds: nat
    /** The scores announced by the time's-up alert, oldest first. */
    var alerts: seq<int>

    ghost predicate Valid()
      reads this
    {
      && 0 <= score
      && (timerRunning ==> 0 < time)
      && (tiles == [] || (currentAnswer.Some? && equation.Some? && RoundTiles(tiles, currentAnswer.value)
                          && currentAnswer.value == Value(equation.value)))
    }

    constructor ()
      ensures Valid()
      ensures score == 0 && time == GameSeconds && !timerRunning && currentAnswer == None
      ensures equation == None && tiles == [] && pendingRounds == 0 && alerts == []
    {
      score, time, timerRunning := 0, GameSeconds, false;
      currentAnswer, equation := None, None;
      tiles, pendingRounds, alerts := [], 0, [];
    }

    /**
     * `newRound`: a new equation, its answer, and a board of nine shuffled
     * distinct choices containing it, keyed 1 to 9.
     */
    method NewRound(d: Draws)
      requires Valid() && Sufficient(d)
      modifies this`currentAnswer, this`equation, this`tiles
      ensures Valid()
      ensures equation == Some(MakeEquation(d.op, d.a, d.b)) && currentAnswer == Some(Value(equation.value))
      ensures tiles == Dealt(d)
    {
      var eq := MakeEquation(d.op, d.a, d.b);
      var ans := Value(eq);
      var choices := Choices(ans, d.choices);
      var board := BuildBoard(Shuffle(choices, d.order));
      ShuffledBoardIsRound(ans, choices, d.order);
      equation, currentAnswer, tiles := Some(eq), Some(ans), board;
    }

    /** `choose`: the score moves by the right or wrong amount, and a new round is scheduled. */
    method Choose(val: int)
      requires Valid()
      modifies this`score, this`pendingRounds
      ensures Valid()
      ensures score == Scored(old(score), currentAnswer == Some(val))
      ensures pendingRounds == old(pendingRounds) + 1
    {
      score := Scored(score, currentAnswer == Some(val));
      pendingRounds := pendingRounds + 1;
    }

    /** A scheduled `newRound` runs. */
    method RunPendingRound(d: Draws)
      requires Valid() && Sufficient(d) && 0 < pendingRounds
      modifies this`currentAnswer, this`equation, this`tiles, this`pendingRounds
      ensures Valid()
      ensures pendingRounds == old(pendingRounds) - 1
      ensures equation == Some(MakeEquation(d.op, d.a, d.b)) && currentAnswer == Some(Value(equation.value))
      ensures tiles == Dealt(d)
    {
      pendingRounds := pendingRounds - 1;
      NewRound(d);
    }

    /** `start`: ignored while the timer runs; otherwise score 0, 60 seconds, a new round and the timer started. */
    method Start(d: Draws)
      requires Valid() && Sufficient(d)
      modifies this`score, this`time, this`timerRunning, this`currentAnswer, this`equation, this`tiles
      ensures Valid()
      ensures old(timerRunning) ==>
        && score == old(score) && time == old(time) && timerRunning
        && equation == old(equation) && currentAnswer == old(currentAnswer) && tiles == old(tiles)
      ensures !old(timerRunning) ==>
        && score == 0 && time == GameSeconds && timerRunning
        && equation == Some(MakeEquation(d.op, d.a, d.b)) && currentAnswer == Some(Value(equation.value))
        && tiles == Dealt(d)
    {
      if timerRunning {
        return;
      }
      score, time := 0, GameSeconds;
      NewRound(d);
      timerRunning := true;
    }

    /** One interval tick: the clock counts down, and at 0 the timer stops and the score is announced. */
    method IntervalTick()
      requires Valid() && timerRunning
      modifies this`time, this`timerRunning, this`alerts
      ensures Valid()
      ensures Clock(time, timerRunning) == Tick(old(Clock(time, timerRunning)))
      ensures alerts == if timerRunning then old(alerts) else old(alerts) + [score]
    {
      time := time - 1;
      if time <= 0 {
        timerRunning := false;
        alerts := alerts + [score];
      }
    }

    /** A click on tile `k`. */
    method ClickTile(k: nat)
      requires Valid() && k < |tiles|
      modifies this`score, this`pendingRounds
      ensures Valid()
      ensures score == Scored(old(score), currentAnswer == Some(tiles[k].value))
      ensures pendingRounds == old(pendingRounds) + 1
    {
      Choose(tiles[k].value);
    }

    /**
     * The keydown listener: a key from "1" to "9" (as strings) clicks the
     * tile with that key, if any; Enter starts a game unless one is running.
     */
    method Keydown(key: string, d: Draws)
      requires Valid() && Sufficient(d)
      modifies this`score, this`pendingRounds, this`time, this`timerRunning, this`currentAnswer, this`equation, this`tiles
      ensures Valid()
      ensures InKeyRange(key) && Selected(old(tiles), key).Some? ==>
        score == Scored(old(score), old(currentAnswer) == Some(old(tiles)[Selected(old(tiles), key).value].value))
        && pendingRounds == old(pendingRounds) + 1
      ensures !(InKeyRange(key) && Selected(old(tiles), key).Some?) ==> pendingRounds == old(pendingRounds)
      ensures key == "Enter" && !old(timerRunning) ==>
        && score == 0 && time == GameSeconds && timerRunning
        && equation == Some(MakeEquation(d.op, d.a, d.b)) && currentAnswer == Some(Value(equation.value))
        && tiles == Dealt(d)
      ensures key != "Enter" || old(timerRunning) ==>
        && time == old(time) && timerRunning == old(timerRunning) && tiles == old(tiles)
        && equation == old(equation) && currentAnswer == old(currentAnswer)
      ensures !(InKeyRange(key) && Selected(old(tiles), key).Some?) && (key != "Enter" || old(timerRunning)) ==>
        score == old(score)
    {
      if InKeyRange(key) {
        var hit := Selected(tiles, key);
        if hit.Some? {
          ClickTile(hit.value);
        }
      }
      if key == "Enter" && !timerRunning {
        Start(d);
      }
    }
  }
}
