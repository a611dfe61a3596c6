/**
 * scripts/number-digits.js: the place-value game. A three-digit number is
 * spoken; the player drops digit cards onto the hundreds, tens and ones
 * slots and checks the answer. A right answer scores a point (and may raise
 * the high score) and starts a new round; a wrong one costs a life and
 * marks each slot right or wrong, and the third wrong answer ends the game.
 */
module NumberDigits {
  import opened Options

  /** A digit card's value. */
  type Digit = d: int | 0 <= d <= 9

  const Slots: nat := 3
  const StartLives: int := 3

  /**
   * A placeholder slot: its `dataset.value` (absent when cleared) and its
   * `has-number` and `incorrect` marks.
   */
  datatype Slot = Slot(value: Option<Digit>, hasNumber: bool, incorrect: bool)

  const Cleared: Slot := Slot(None, false, false)

  /** `parseInt(el.dataset.value || 0) || 0`: a slot's digit, an empty slot counting as 0. */
  function SlotValue(s: Slot): (v: int)
    ensures 0 <= v <= 9
    ensures s.value.None? ==> v == 0
    ensures s.value.Some? ==> v == s.value.value
  {
    match s.value
    case None => 0
    case Some(d) => d
  }

  /** The number the slots spell: `hundreds * 100 + tens * 10 + ones`. */
  function Answer(slots: seq<Slot>): (n: int)
    requires |slots| == Slots
    ensures 0 <= n <= 999
  {
    SlotValue(slots[0]) * 100 + SlotValue(slots[1]) * 10 + SlotValue(slots[2])
  }

  /** The digits of `currentNumber.toString().padStart(3, '0')`, most significant first. */
  function Digits(n: int): (ds: seq<int>)
    requires 0 <= n <= 999
    ensures |ds| == Slots
    ensures forall k :: 0 <= k < Slots ==> 0 <= ds[k] <= 9
    ensures ds[0] * 100 + ds[1] * 10 + ds[2] == n
  {
    [n / 100, n / 10 % 10, n % 10]
  }

  /** Three place values spell `n` exactly when each is `n`'s digit in that place. */
  lemma PlaceValueUnique(h: int, t: int, o: int, n: int)
    requires 0 <= h <= 9 && 0 <= t <= 9 && 0 <= o <= 9 && 0 <= n <= 999
    ensures h * 100 + t * 10 + o == n <==> [h, t, o] == Digits(n)
  {
    if h * 100 + t * 10 + o == n {
      assert n / 100 == h;
      assert n / 10 == h * 10 + t;
      assert n % 10 == o;
    }
  }

  /** The answer is right exactly when every slot holds the matching digit. */
  lemma AnswerRightIffDigitsMatch(slots: seq<Slot>, n: int)
    requires |slots| == Slots && 0 <= n <= 999
    ensures Answer(slots) == n <==> forall k :: 0 <= k < Slots ==> SlotValue(slots[k]) == Digits(n)[k]
  {
    PlaceValueUnique(SlotValue(slots[0]), SlotValue(slots[1]), SlotValue(slots[2]), n);
  }

  /**
   * Because an empty slot counts as 0, a number ending in 0 is accepted with
   * the ones slot left empty.
   */
  lemma EmptyOnesSlotCountsAsZero(h: Digit, t: Digit)
    requires 1 <= h
    ensures Answer([Slot(Some(h), true, false), Slot(Some(t), true, false), Cleared]) == h * 100 + t * 10
  {
  }

  /** One slot after the check: `incorrect` if its value differs from the right digit, else `has-number`. */
  function Mark(s: Slot, correct: int): Slot
  {
    if SlotValue(s) != correct then s.(hasNumber := false, incorrect := true)
    else s.(hasNumber := true, incorrect := false)
  }

  /** All three slots after a wrong answer to `n`. */
  function Marked(slots: seq<Slot>, n: int): (r: seq<Slot>)
    requires |slots| == Slots && 0 <= n <= 999
    ensures |r| == Slots
    ensures forall k :: 0 <= k < Slots ==> r[k].value == slots[k].value
    ensures forall k :: 0 <= k < Slots ==>
      (r[k].incorrect <==> SlotValue(slots[k]) != Digits(n)[k]) && r[k].hasNumber == !r[k].incorrect
  {
    seq(Slots, k requires 0 <= k < Slots => Mark(slots[k], Digits(n)[k]))
  }

  /** A wrong answer always has at least one slot marked `incorrect`, and a slot is marked exactly when wrong. */
  lemma WrongAnswerMarksSomeSlot(slots: seq<Slot>, n: int)
    requires |slots| == Slots && 0 <= n <= 999 && Answer(slots) != n
    ensures exists k :: 0 <= k < Slots && Marked(slots, n)[k].incorrect
  {
    AnswerRightIffDigitsMatch(slots, n);
    var k :| 0 <= k < Slots && SlotValue(slots[k]) != Digits(n)[k];
    assert Marked(slots, n)[k].incorrect;
  }

  /** `Math.floor(Math.random() * 900) + 100` for a draw in [0,1). */
  function DrawNumber(draw: real): (n: int)
    requires 0.0 <= draw < 1.0
    ensures 100 <= n <= 999
  {
    (draw * 900.0).Floor + 100
  }

  /** Every three-digit number is drawn for some draw in [0,1). */
  lemma EveryThreeDigitNumberDrawn(n: int)
    requires 100 <= n <= 999
    ensures exists draw: real :: 0.0 <= draw < 1.0 && DrawNumber(draw) == n
  {
    var draw := (n - 100) as real / 900.0;
    assert draw * 900.0 == (n - 100) as real;
    assert DrawNumber(draw) == n;
  }

  class DigitsGame {
    var score: int
    var lives: int
    /** The high score, as a number (the stored value is read once at load). */
    var highScore: int
    var currentNumber: int
    /** The hundreds, tens and ones placeholders, in page order. */
    const slots: array<Slot>
    var introHidden: bool
    var submitVisible: bool
    var submitEnabled: bool
    var repeatVisible: bool
    var modalHidden: bool
    var finalScore: int
    /** Every number handed to speech synthesis, oldest first. */
    var spoken: seq<int>

    ghost predicate Valid()
      reads this
    {
      && slots.Length == Slots
      && 0 <= score <= highScore
      && lives <= StartLives
      && (currentNumber == 0 || 100 <= currentNumber <= 999)
    }

    /** Page load: score 0, 3 lives, no number yet, the intro overlay shown and the game buttons hidden. */
    constructor (storedHighScore: nat, initialSlots: seq<Slot>)
      requires |initialSlots| == Slots
      ensures Valid() && fresh(slots)
      ensures score == 0 && lives == StartLives && highScore == storedHighScore && currentNumber == 0
      ensures slots[..] == initialSlots && spoken == []
      ensures !introHidden && !submitVisible && !submitEnabled && !repeatVisible && modalHidden
    {
      score, lives, highScore, currentNumber := 0, StartLives, storedHighScore, 0;
      slots := new Slot[Slots](k requires 0 <= k < Slots => initialSlots[k]);
      introHidden, submitVisible, submitEnabled, repeatVisible, modalHidden := false, false, false, false, true;
      finalScore := 0;
      spoken := [];
    }

    /** The drop handler: the dragged card's digit goes into slot `k`, marked `has-number` and not `incorrect`. */
    method Drop(k: nat, d: Digit)
      requires Valid() && k < Slots
      modifies slots
      ensures Valid()
      ensures slots[..] == old(slots[..])[k := Slot(Some(d), true, false)]
    {
      slots[k] := Slot(Some(d), true, false);
    }

    /** `nextRound`: every slot cleared, a new number in [100,999] drawn and spoken, Check Answer enabled. */
    method NextRound(draw: real)
      requires Valid() && 0.0 <= draw < 1.0
      modifies slots, this`currentNumber, this`spoken, this`submitEnabled
      ensures Valid()
      ensures slots[..] == seq(Slots, _ => Cleared)
      ensures currentNumber == DrawNumber(draw) && 100 <= currentNumber <= 999
      ensures spoken == old(spoken) + [currentNumber] && submitEnabled
    {
      for k := 0 to Slots
        modifies slots
        invariant forall j :: 0 <= j < k ==> slots[j] == Cleared
      {
        slots[k] := Cleared;
      }
      currentNumber := DrawNumber(draw);
      spoken := spoken + [currentNumber];
      submitEnabled := true;
    }

    /** `startGame`: intro hidden, score 0 and 3 lives, Check Answer and Repeat shown, then a new round. */
    method StartGame(draw: real)
      requires Valid() && 0.0 <= draw < 1.0
      modifies this, slots
      ensures Valid()
      ensures introHidden && score == 0 && lives == StartLives
      ensures submitVisible && submitEnabled && repeatVisible
      ensures highScore == old(highScore) && modalHidden == old(modalHidden) && finalScore == old(finalScore)
      ensures slots[..] == seq(Slots, _ => Cleared)
      ensures currentNumber == DrawNumber(draw) && spoken == old(spoken) + [currentNumber]
    {
      introHidden := true;
      score, lives := 0, StartLives;
      submitVisible, submitEnabled := true, true;
      repeatVisible := true;
      NextRound(draw);
    }

    /** `gameOver`: Check Answer hidden and disabled, Repeat hidden, the final score shown in the modal. */
    method GameOver()
      requires Valid()
      modifies this`submitVisible, this`submitEnabled, this`repeatVisible, this`finalScore, this`modalHidden
      ensures Valid()
      ensures !submitVisible && !submitEnabled && !repeatVisible && finalScore == score && !modalHidden
    {
      submitVisible, submitEnabled := false, false;
      repeatVisible := false;
      finalScore := score;
      modalHidden := false;
    }

    /**
     * The game after `checkAnswer` with `draw`: a right answer scores a
     * point, raises the high score to the score if it is now higher, and
     * starts a new round. A wrong one costs a life; with none left the game
     * is over and no slot is marked, otherwise each slot is marked right or
     * wrong against the number's digits. The intro overlay stays as it was.
     */
    twostate predicate Checked(draw: real)
      requires old(Valid()) && 0.0 <= draw < 1.0
      reads this, slots
    {
      && introHidden == old(introHidden)
      && (old(Answer(slots[..])) == old(currentNumber) ==>
        && score == old(score) + 1 && lives == old(lives)
        && highScore == (if score > old(highScore) then score else old(highScore))
        && slots[..] == seq(Slots, _ => Cleared)
        && currentNumber == DrawNumber(draw) && spoken == old(spoken) + [currentNumber] && submitEnabled
        && submitVisible == old(submitVisible) && repeatVisible == old(repeatVisible)
        && modalHidden == old(modalHidden) && finalScore == old(finalScore))
      && (old(Answer(slots[..])) != old(currentNumber) ==>
        && score == old(score) && highScore == old(highScore) && lives == old(lives) - 1
        && currentNumber == old(currentNumber) && spoken == old(spoken))
      && (old(Answer(slots[..])) != old(currentNumber) && lives <= 0 ==>
        && slots[..] == old(slots[..])
        && !submitVisible && !submitEnabled && !repeatVisible && finalScore == score && !modalHidden)
      && (old(Answer(slots[..])) != old(currentNumber) && 0 < lives ==>
        && slots[..] == Marked(old(slots[..]), old(currentNumber))
        && submitVisible == old(submitVisible) && submitEnabled == old(submitEnabled)
        && repeatVisible == old(repeatVisible) && modalHidden == old(modalHidden) && finalScore == old(finalScore))
    }

    /** `checkAnswer`, whose outcome `Checked` states. */
    method CheckAnswer(draw: real)
      requires Valid() && 0.0 <= draw < 1.0
      modifies this, slots
      ensures Valid()
      ensures Checked(draw)
    {
      if Answer(slots[..]) == currentNumber {
        score := score + 1;
        if score > highScore {
          highScore := score;
        }
        NextRound(draw);
        return;
      }
      lives := lives - 1;
      if lives <= 0 {
        GameOver();
        return;
      }
      MarkSlots();
    }

    /** The marking loop of `checkAnswer`: each slot is marked against the matching digit of the number. */
    method MarkSlots()
      requires Valid()
      modifies slots
      ensures slots[..] == Marked(old(slots[..]), currentNumber)
    {
      var correct := Digits(currentNumber);
      ghost var before := slots[..];
      for k := 0 to Slots
        invariant forall j :: 0 <= j < k ==> slots[j] == Mark(before[j], correct[j])
        invariant forall j :: k <= j < Slots ==> slots[j] == before[j]
      {
        slots[k] := Mark(slots[k], correct[k]);
      }
      assert slots[..] == Marked(before, currentNumber);
    }

    /** The Check Answer button: a click reaches `checkAnswer` only while the button is shown and enabled. */
    method OnSubmitClick(draw: real)
      requires Valid() && 0.0 <= draw < 1.0
      modifies this, slots
      ensures Valid()
      ensures old(submitVisible) && old(submitEnabled) ==> Checked(draw)
      ensures !(old(submitVisible) && old(submitEnabled)) ==> unchanged(this) && unchanged(slots)
    {
      if submitVisible && submitEnabled {
        CheckAnswer(draw);
      }
    }

    /** The Repeat button: the current number is spoken again, unless no round has started (`currentNumber` is 0). */
    method Repeat()
      requires Valid()
      modifies this`spoken
      ensures spoken == if currentNumber > 0 then old(spoken) + [currentNumber] else old(spoken)
    {
      if currentNumber > 0 {
        spoken := spoken + [currentNumber];
      }
    }

    /** The Start button: a new game, the game-over modal hidden, Check Answer and Repeat shown. */
    method OnStartClick(draw: real)
      requires Valid() && 0.0 <= draw < 1.0
      modifies this, slots
      ensures Valid()
      ensures introHidden && modalHidden && submitVisible && submitEnabled && repeatVisible
      ensures score == 0 && lives == StartLives && highScore == old(highScore) && finalScore == old(finalScore)
      ensures slots[..] == seq(Slots, _ => Cleared)
      ensures currentNumber == DrawNumber(draw) && spoken == old(spoken) + [currentNumber]
    {
      StartGame(draw);
      modalHidden := true;
      submitVisible := true;
      repeatVisible := true;
    }

    /** The Restart button in the game-over modal: the modal hidden, then a new game. */
    method OnRestartClick(draw: real)
      requires Valid() && 0.0 <= draw < 1.0
      modifies this, slots
      ensures Valid()
      ensures introHidden && modalHidden && submitVisible && submitEnabled && repeatVisible
      ensures score == 0 && lives == StartLives && highScore == old(highScore) && finalScore == old(finalScore)
      ensures slots[..] == seq(Slots, _ => Cleared)
      ensures currentNumber == DrawNumber(draw) && spoken == old(spoken) + [currentNumber]
    {
      modalHidden := true;
      StartGame(draw);
    }
  }
}
