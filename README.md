# Williams GameBox core, modelled in Dafny

Williams GameBox is a set of browser mini-games for children. This project models
the game logic behind five of its pages and the loader that every page uses for its
shared head:

- **Space explorer** (`scripts/space-explorer.js`). Eight planets orbit a sun on a
  canvas. Planets can be clicked or tapped to show their facts, and dragged along
  their orbits once a press is older than 100 ms. Dragging uses a single ±360°
  correction and JavaScript's `%`. The animation advances unpaused, undragged
  planets by `(angle + baseSpeed·speedMod·Δt·60) % 360`, and resizing rescales
  sizes and orbits by min(width, height)/900.
- **Solar system game** (`games/solarsystem/game.js`). The same hit test, drag
  and frame step as the space explorer, with no drag delay and no double-tap gate.
  Clicks read only mouse coordinates, and a resize only sizes the canvas, without
  rescaling planets or orbits. The info box follows the drag, and pointer-down on
  the sun shows the sun's facts.
- **Touch space explorer** (`scripts/space-explorer-touch.js`). It ignores touch
  moves under 5 px, drags without any wrap, and treats a touch end within 200 ms
  as a tap.
- **Number digits** (`scripts/number-digits.js`). Score, lives and high score,
  with three place-value slots filled by dropped digit cards. The answer counts an
  empty slot as 0, and after a wrong answer each slot is marked right or wrong.
- **Math match** (`games/math-match/game.js`). Equations in [1,20] with the
  subtraction operands swapped so the answer is never negative. Each round has
  nine distinct answer tiles within ±10 of the answer, shuffled and keyed 1–9. A
  right choice scores +10, a wrong one −5 clamped at 0, and the game runs on a
  60-second countdown.
- **Head loader** (`scripts/head-loader.js`). It chooses the base URL, prefixes
  root-relative paths, and appends each template element unless the
  `[attr="value"]` lookup for its href (else its src) finds an element of the
  document. An element with neither attribute is looked up as `src=""` (script,
  img) or `src="undefined"` (anything else). That lookup matches only an element
  carrying such a value, so meta, title and style elements are normally appended.
  The page's own stylesheets go back after the shared ones, and the ad-loader
  script is appended once.

The files:

- `options.dfy` holds an `Option` type.
- `angles.dfy` holds the angle arithmetic shared by the solar-system pages:
  JavaScript's truncating `%` on reals, the drag wrap and the frame step.
- `orbits.dfy` holds the hit test, the first-hit scan, the event coordinates, the
  double-tap gate and the shared `state` record.
- There is one module per page script. Objects and module variables that the
  scripts update in place are Dafny classes: planet angles, sizes and orbits are
  arrays, and the placeholder slots are an array. Pure expressions are functions,
  and the `forEach`/`for`/`while` loops that change game or document state
  (including the head loader's path fix) are methods with loop invariants, each
  proved against a specification function. The drawing and legend loops are left
  out with the rest of the drawing.

Trigonometry, the clock and the random number generator are parameters:

- Planet screen centres, `atan2` pointer angles and the speed factor (a/r)² are
  given as numbers.
- `Date.now()` and animation timestamps are given.
- Every `Math.random()` draw is a given real in [0,1). A shuffle is given as the
  order it produces.

## Model

| member | source | states |
|---|---|---|
| Angles.Rem | scripts/space-explorer.js:197 | JavaScript `%` truncates toward zero: the result has the sign of the dividend and lies strictly within one divisor of 0; a value already in [0,m) is unchanged |
| Angles.RemAddTurns | scripts/space-explorer.js:329 | adding whole turns to a non-negative angle does not change its `% 360` |
| Angles.WrapDelta | scripts/space-explorer.js:324-327 | the drag delta is corrected by at most one turn, unchanged within [-180,180], and any delta within ±540 lands in [-180,180] |
| Angles.PointerDeltaInHalfTurn | scripts/space-explorer.js:323-327 | two atan2 angles (both in [-180,180]) have a wrapped difference in [-180,180] |
| Angles.DragAngle | scripts/space-explorer.js:329 | `(start + delta + 360) % 360` is in [0,360) whenever the sum is non-negative, and differs from start + delta by a whole number of turns (0 or ±1) |
| Angles.DragBackToStart | scripts/space-explorer.js:323-329 | a drag that returns to the pointer angle it started at puts the planet back at its starting angle |
| Angles.DragWrapExample | scripts/space-explorer.js:326-329 | a raw pointer delta of 370° moves a planet at 10° to 20° |
| Angles.FrameSeconds | scripts/space-explorer.js:163 | the frame delta is 0 for a repeated timestamp and non-negative when time does not go backwards |
| Angles.Increment | scripts/space-explorer.js:197 | `baseSpeed·speedMod·Δt·60` is 0 for a zero delta and non-negative for non-negative factors |
| Angles.Advance | scripts/space-explorer.js:197 | one integrator step keeps a non-negative sum in [0,360) and leaves an in-range angle alone when the increment is 0 |
| Angles.Increments | scripts/space-explorer.js:193-198 | per-planet increments, all zero for a zero delta and all non-negative for non-negative inputs |
| Angles.Frame | scripts/space-explorer.js:193-198 | one frame yields one angle per planet |
| Angles.FrameKeepsTurn | scripts/space-explorer.js:192-199 | a frame with non-negative increments keeps every angle in [0,360) |
| Angles.ZeroFrameIsStill | scripts/space-explorer.js:163-198 | a frame of zero duration moves no planet |
| Orbits.CentreHits | scripts/space-explorer.js:224-230 | a point at a body's centre hits it |
| Orbits.FirstHit | scripts/space-explorer.js:277-282 | the index found is a hit preceded only by misses, and None exactly when no planet is hit |
| Orbits.ScanPlanets | scripts/space-explorer.js:277-282 | the scanning loop returns exactly FirstHit |
| Orbits.FirstHitIsFirst | scripts/space-explorer.js:277-282 | a hit after only misses is the first hit |
| Orbits.ClickInfo | scripts/space-explorer.js:277-287 | a planet hit shows that planet, else a sun hit shows the sun, and the box is hidden exactly when neither is hit |
| Orbits.Coords | scripts/space-explorer.js:254-263 | a pointer event gives its own position, a touch event its first touch, and an empty touch list has none (the read throws) |
| Orbits.ClickGate | scripts/space-explorer.js:267-275 | onClick throws exactly without coordinates, ignores exactly touch taps within 300 ms of the last, and accepts everything else at the event's point |
| SpaceExplorer.BaseSpeeds | scripts/space-explorer.js:29-70 | one non-negative base speed per planet of the table |
| SpaceExplorer.Scale | scripts/space-explorer.js:111-112 | the resize scale is non-negative and 1 for a 900×900 canvas |
| SpaceExplorer.ScalingKeepsProportions | scripts/space-explorer.js:107-121 | rescaling a table of originals (the planet sizes or the orbits) by any scale keeps the ratio between any two entries |
| SpaceExplorer.Explorer.constructor | scripts/space-explorer.js:9-76 | the page starts with all angles 0, the declared sizes and axes, and the initial `state` |
| SpaceExplorer.Explorer.OnClick | scripts/space-explorer.js:265-288 | the handler follows ClickGate; an accepted tap records its time and sets the box to ClickInfo of the first hit and the sun test |
| SpaceExplorer.Explorer.OnPointerDown | scripts/space-explorer.js:290-311 | the press time is recorded, a touch records its position, and the first planet hit starts a drag from its angle and the pointer angle |
| SpaceExplorer.Explorer.OnPointerMove | scripts/space-explorer.js:313-330 | a drag older than 100 ms sets only the dragged planet to DragAngle(start, WrapDelta(current − start pointer angle)); otherwise nothing changes |
| SpaceExplorer.Explorer.OnPointerUp | scripts/space-explorer.js:332-342 | ending a drag within 100 ms first runs onClick, then the drag ends and the box is hidden; without a drag nothing changes |
| SpaceExplorer.Explorer.Animate | scripts/space-explorer.js:162-199 | `lastTime` becomes the frame time; paused or dragging leaves every angle; otherwise the angles become Frame(angles, Increments(...)) |
| SpaceExplorer.Explorer.Resize | scripts/space-explorer.js:107-121 | the canvas takes the client size and the sun, sizes and axes are the originals times min(w,h)/900 |
| SpaceExplorer.Explorer.TogglePause | scripts/space-explorer.js:404-407 | the pause flag flips and nothing else in `state` changes |
| SpaceExplorer.Run | scripts/space-explorer.js:162-209 | a sequence of unpaused, undragged frames yields one angle per planet |
| SpaceExplorer.FramesKeepTurn | scripts/space-explorer.js:162-209 | over any run of frames whose timestamps do not go backwards, angles starting in [0,360) stay there |
| SolarSystem.BaseSpeeds | games/solarsystem/game.js:22-63 | one non-negative base speed per planet of the table |
| SolarSystem.Game.constructor | games/solarsystem/game.js:8-342 | after the first `animate()` call (time 0, so a zero delta) every angle is still 0 and nothing is dragged, paused or shown |
| SolarSystem.Game.Animate | games/solarsystem/game.js:225-244 | `lastTime` becomes the frame time; paused or dragging leaves every angle; otherwise the angles become Frame(angles, Increments(...)) |
| SolarSystem.Game.OnPointerDown | games/solarsystem/game.js:262-283 | a planet hit starts its drag and hides the box, else a sun hit shows the sun, else the box is hidden |
| SolarSystem.Game.OnPointerMove | games/solarsystem/game.js:285-300 | while dragging, the planet gets DragAngle(start, WrapDelta(...)) at once and the box shows its facts |
| SolarSystem.Game.OnPointerUp | games/solarsystem/game.js:302-308 | ending a drag clears it and hides the box; otherwise nothing changes |
| SolarSystem.Game.OnClick | games/solarsystem/game.js:311-328 | the box becomes ClickInfo of the first hit and the sun test |
| SolarSystem.Game.TogglePause | games/solarsystem/game.js:331-334 | the pause flag flips |
| SolarSystem.Game.Resize | games/solarsystem/game.js:8-13 | the canvas takes the client size |
| SpaceExplorerTouch.AcceptedMoves | scripts/space-explorer-touch.js:97-109 | the number of moves along a path that pass the jitter filter is at most the path length |
| SpaceExplorerTouch.SmallStepsNeverMove | scripts/space-explorer-touch.js:97-109 | a drag made only of sub-5 px moves never moves the planet, however far it goes in total |
| SpaceExplorerTouch.CreepingDragNeverMoves | scripts/space-explorer-touch.js:97-109 | a 4 px-per-event creep of any length is filtered out entirely |
| SpaceExplorerTouch.TouchDragLeavesTurn | scripts/space-explorer-touch.js:111-113 | from every angle in [0,360) some pair of atan2 angles drags the planet outside [0,360) |
| SpaceExplorerTouch.TouchExplorer.constructor | scripts/space-explorer-touch.js:9-23 | the handlers start with the initial `state`, no box and angles 0 |
| SpaceExplorerTouch.TouchExplorer.OnClick | scripts/space-explorer-touch.js:37-65 | the handler follows ClickGate; an accepted tap records its time and sets the box to ClickInfo |
| SpaceExplorerTouch.TouchExplorer.OnPointerDown | scripts/space-explorer-touch.js:67-88 | the press time is recorded, a touch records its position, and the first planet hit starts a drag |
| SpaceExplorerTouch.TouchExplorer.OnPointerMove | scripts/space-explorer-touch.js:90-114 | during a drag a touch always records its position and is ignored under 5 px; an accepted move sets start + (current − start pointer angle) unwrapped |
| SpaceExplorerTouch.TouchExplorer.TouchMoves | scripts/space-explorer-touch.js:90-121 | a run of one-finger touch moves leaves the drag as it was, ends with the last touch at the final point, and moves no planet when AcceptedMoves of the run is 0, so with SmallStepsNeverMove a creep of sub-5 px steps never moves the planet |
| SpaceExplorerTouch.TouchExplorer.EndDrag | scripts/space-explorer-touch.js:122-129 | touch end, touch cancel, mouse up and mouse leave end the drag and change nothing else |
| SpaceExplorerTouch.TouchExplorer.OnTouchEndAsWritten | scripts/space-explorer-touch.js:122-136 | the drag ends; a tap within 200 ms throws exactly when no finger remains down, and then the box is left as it was; with a finger still down, a tap outside the double-tap window shows what that finger's point hits, and otherwise nothing more changes |
| SpaceExplorerTouch.TouchExplorer.OnTouchEnd | scripts/space-explorer-touch.js:122-136 | with the tap read at the lifted finger, a quick tap outside the double-tap window shows ClickInfo at that point |
| NumberDigits.SlotValue | scripts/number-digits.js:93-95 | a slot reads as its digit, or 0 when empty |
| NumberDigits.Answer | scripts/number-digits.js:93-96 | the composed answer is a number in [0,999] |
| NumberDigits.Digits | scripts/number-digits.js:117 | the padded digits of a number in [0,999] are three digits that compose back to it |
| NumberDigits.PlaceValueUnique | scripts/number-digits.js:96-98 | three place values spell n exactly when they are n's digits |
| NumberDigits.AnswerRightIffDigitsMatch | scripts/number-digits.js:93-123 | the answer is right exactly when every slot holds the matching digit |
| NumberDigits.EmptyOnesSlotCountsAsZero | scripts/number-digits.js:93-96 | a number ending in 0 is spelled with the ones slot left empty |
| NumberDigits.Marked | scripts/number-digits.js:117-136 | after a wrong answer, a slot is marked incorrect exactly when its value differs from the digit, has-number otherwise, and its value is kept |
| NumberDigits.WrongAnswerMarksSomeSlot | scripts/number-digits.js:98-136 | a wrong answer always marks at least one slot incorrect |
| NumberDigits.DrawNumber | scripts/number-digits.js:81 | the drawn number is in [100,999] |
| NumberDigits.EveryThreeDigitNumberDrawn | scripts/number-digits.js:81 | every number in [100,999] is drawn by some draw |
| NumberDigits.DigitsGame.constructor | scripts/number-digits.js:1-22 | the page starts with score 0, 3 lives, the stored high score and no number |
| NumberDigits.DigitsGame.Drop | scripts/number-digits.js:35-43 | a drop sets that slot's digit, adds has-number, removes incorrect, and leaves the other slots |
| NumberDigits.DigitsGame.NextRound | scripts/number-digits.js:73-86 | all slots are cleared, the number becomes DrawNumber(draw) and is spoken, and Check Answer is enabled |
| NumberDigits.DigitsGame.StartGame | scripts/number-digits.js:52-71 | score 0, 3 lives, the buttons shown and enabled, then a new round |
| NumberDigits.DigitsGame.MarkSlots | scripts/number-digits.js:117-136 | each slot becomes Mark of itself against the matching digit of the number, i.e. the slots become Marked |
| NumberDigits.DigitsGame.GameOver | scripts/number-digits.js:140-148 | Check Answer is hidden and disabled, Repeat is hidden, and the modal shows the score |
| NumberDigits.DigitsGame.CheckAnswer | scripts/number-digits.js:88-138 | `Checked`: a right answer scores, raises the high score and starts a round, leaving buttons, modal and final score as they were; a wrong one costs a life and either ends the game with the slots untouched or marks them with Marked, all else kept; the intro overlay never changes |
| NumberDigits.DigitsGame.OnSubmitClick | scripts/number-digits.js:159 | a click on the shown and enabled button has exactly the outcome `Checked` of `checkAnswer`; a click on a hidden or disabled button changes no field and no slot |
| NumberDigits.DigitsGame.Repeat | scripts/number-digits.js:161-165 | the number is spoken again only when it is positive |
| NumberDigits.DigitsGame.OnStartClick | scripts/number-digits.js:151-157 | a new game (score 0, 3 lives, cleared slots, a new number spoken) with the modal hidden, both buttons shown, and high score and final score kept |
| NumberDigits.DigitsGame.OnRestartClick | scripts/number-digits.js:167-170 | the modal is hidden and a new game starts (score 0, 3 lives, cleared slots, a new number spoken), high score and final score kept |
| MathMatch.RandInt | games/math-match/game.js:10 | `randInt(a,b)` is in [a,b] |
| MathMatch.RandIntOnto | games/math-match/game.js:10 | every integer of [a,b] is produced by some draw |
| MathMatch.MakeEquation | games/math-match/game.js:14-18 | the operator follows the first draw, the operands are the two `randInt(1,20)` values (possibly swapped), a subtraction has a ≥ b, and the answer is in [0,40] |
| MathMatch.FillKeeps | games/math-match/game.js:20-23 | growing the choices keeps what is there first, keeps them distinct, keeps them within ±10 and never exceeds nine |
| MathMatch.InsertKeeps | games/math-match/game.js:21-22 | `Set.add` keeps the existing choices first, adds at most one, and keeps them distinct and within ±10 |
| MathMatch.GrowStep | games/math-match/game.js:21-23 | one pass of the loop keeps the choices distinct, within ±10, headed by the answer and at most nine, and leaves the eventual Fill result unchanged |
| MathMatch.Choices | games/math-match/game.js:20-23 | the loop returns Fill: exactly nine distinct choices, the answer first, all within ±10 |
| MathMatch.OrderIsOnto | games/math-match/game.js:24 | a shuffle order names every position |
| MathMatch.ShuffleIsPermutation | games/math-match/game.js:24 | the shuffle keeps the choices distinct and holds exactly the same values |
| MathMatch.KeyOf | games/math-match/game.js:42 | tile index k gets the one-character key for k + 1, in "1".."9" |
| MathMatch.KeysDistinct | games/math-match/game.js:42 | different tiles get different keys |
| MathMatch.RoundsCanComplete | games/math-match/game.js:12-24 | for any equation draws, some choice draws and some order make a complete round |
| MathMatch.TileKeysInRange | games/math-match/game.js:78 | every tile key passes the `'1' <= key <= '9'` string check |
| MathMatch.LongerKeysPassRangeCheck | games/math-match/game.js:78-80 | the string comparison also admits "10", which then matches no tile |
| MathMatch.Selected | games/math-match/game.js:79 | the lookup finds the first tile with the key, and nothing exactly when no tile has it |
| MathMatch.DigitKeySelectsTile | games/math-match/game.js:77-80 | on a round's board, key k + 1 selects tile k |
| MathMatch.Scored | games/math-match/game.js:48-53 | a right choice adds 10; a wrong one takes 5 from a score of at least 5 and leaves 0 from a smaller one |
| MathMatch.Tick | games/math-match/game.js:67-69 | a running clock loses a second and keeps running exactly while time is positive |
| MathMatch.Countdown | games/math-match/game.js:63-72 | from t seconds the timer runs for t − 1 ticks and stops on the t-th |
| MathMatch.GameLastsSixtyTicks | games/math-match/game.js:63-72 | a game runs for exactly 60 ticks |
| MathMatch.MathGame.constructor | games/math-match/game.js:8 | score 0, 60 seconds, no timer, no answer and no board |
| MathMatch.BuildBoard | games/math-match/game.js:34-44 | the tile-creating loop yields Board of the list: nine tiles, tile k showing list[k] under key k + 1 |
| MathMatch.ShuffledBoardIsRound | games/math-match/game.js:20-44 | the board of shuffled, distinct, nearby choices headed by the answer has keys 1–9, distinct values within ±10, and holds the answer |
| MathMatch.MathGame.NewRound | games/math-match/game.js:12-46 | the equation and answer come from the draws, and the tiles are Board of the shuffled Fill choices, so a round's board (keys 1–9, distinct, near, answer among them) |
| MathMatch.MathGame.Choose | games/math-match/game.js:48-56 | the score becomes Scored(score, right) and one more round is scheduled |
| MathMatch.MathGame.RunPendingRound | games/math-match/game.js:55 | a scheduled round runs: one fewer pending, the equation and answer from the draws, and the board the draws deal; the score stays |
| MathMatch.MathGame.Start | games/math-match/game.js:63-71 | with a timer running nothing changes (score, time, equation, answer, board); otherwise score 0, 60 seconds, a new equation and answer, the board the draws deal, and a running timer |
| MathMatch.MathGame.IntervalTick | games/math-match/game.js:67-72 | the clock takes one Tick, and the score is announced when it stops |
| MathMatch.MathGame.ClickTile | games/math-match/game.js:40 | a tile click chooses that tile's value |
| MathMatch.MathGame.Keydown | games/math-match/game.js:77-83 | a key in the string range clicks the tile it selects, if any, and schedules a round; Enter with no timer starts a game with the dealt board; any other key leaves score, time, timer, equation, answer and board as they were |
| HeadLoader.BaseUrl | scripts/head-loader.js:2 | the base is '..' exactly when the path contains '/games/', and '.' otherwise |
| HeadLoader.GamePageUsesParent | scripts/head-loader.js:2 | every page under /games/ uses '..' |
| HeadLoader.ShortPathUsesDot | scripts/head-loader.js:2 | a path shorter than '/games/' uses '.' |
| HeadLoader.Rewrite | scripts/head-loader.js:24-30 | a rewritable element whose path starts with '/' gets the base in front; every other element is unchanged |
| HeadLoader.RewriteIdempotent | scripts/head-loader.js:24-30 | rewriting twice is the same as rewriting once |
| HeadLoader.RewritePaths | scripts/head-loader.js:24-30 | the path-fixing loop leaves the template as Rewritten: each element rewritten in place, in order |
| HeadLoader.RewrittenHasNoRootPaths | scripts/head-loader.js:24-30 | with base '.' or '..', no `link[href]`, `script[src]` or `img[src]` of the fixed template has a path starting with '/', and every other element is unchanged |
| HeadLoader.KeysInsert | scripts/head-loader.js:36-38 | appending an element adds its href/src value, if it has one, to what the document's selectors can match, and an element without one adds nothing |
| HeadLoader.Admitted | scripts/head-loader.js:33-40 | only template elements are appended |
| HeadLoader.AdmittedStep | scripts/head-loader.js:33-40 | one pass of the insert loop: an element whose lookup matches is skipped, any other is appended and its href/src value, if any, becomes matchable |
| HeadLoader.AdmittedFresh | scripts/head-loader.js:33-40 | no appended element's lookup matches the document as it was, and no appended element with href/src is followed by another appended element with the same lookup |
| HeadLoader.AdmittedCovers | scripts/head-loader.js:33-40 | afterwards the document carries the href/src value of every template element that has one |
| HeadLoader.AdmittedKeepsUrlless | scripts/head-loader.js:33-40 | when neither the document nor the template carries `src=""` or `src="undefined"`, every template element without href/src is appended, in order |
| HeadLoader.UrllessTagsAppended | scripts/head-loader.js:33-40 | a template of meta, title and style elements is appended whole, whatever such elements the page has, unless the page carries `src="undefined"` |
| HeadLoader.Styles | scripts/head-loader.js:9 | the page stylesheets are elements of the document that are `link[rel="stylesheet"]` |
| HeadLoader.Others | scripts/head-loader.js:9-13 | what stays after removal has no stylesheet |
| HeadLoader.StylesPartition | scripts/head-loader.js:9-13 | removing the stylesheets splits the document without losing or duplicating an element |
| HeadLoader.StylesAppend | scripts/head-loader.js:9 | the stylesheets of head then body are those of the head followed by those of the body |
| HeadLoader.KeyCount | scripts/head-loader.js:36 | the number of elements a lookup matches is 0 exactly when no element with href/src has that key |
| HeadLoader.Document.TakeStyles | scripts/head-loader.js:9-13 | the page stylesheets are taken out in document order and everything else stays in order |
| HeadLoader.Document.AppendAdScript | scripts/head-loader.js:64-66 | the ad-loader script is appended to the head |
| HeadLoader.Document.AppendTemplate | scripts/head-loader.js:33-40 | the head grows by exactly Admitted of the document's keys |
| HeadLoader.Document.AppendStyles | scripts/head-loader.js:43-45 | the page stylesheets are appended in their order |
| HeadLoader.Document.FinishLoad | scripts/head-loader.js:16-49 | with a template the head grows by the admitted elements (looked up against the whole document) and then the stylesheets; a failed fetch leaves the head as it was |
| HeadLoader.Document.FinishLoadRestoring | scripts/head-loader.js:16-49 | as FinishLoad, but a failed fetch still puts the stylesheets back |
| HeadLoader.Document.StartLoad | scripts/head-loader.js:53-66 | before the fetch settles, the page stylesheets are taken out in document order, the rest stays in order, and the ad-loader script ends the head |
| HeadLoader.Document.BootAsWritten | scripts/head-loader.js:53-67 | the whole start-up as written: head and body after either fetch result; after a failed fetch the document has no stylesheet |
| HeadLoader.StylesGone | scripts/head-loader.js:9-13 | once the stylesheets are taken out and a non-stylesheet is appended, the document has none |
| HeadLoader.Document.Boot | scripts/head-loader.js:53-67 | the start-up with stylesheets restored; a document without the ad script ends with exactly one |
| HeadLoader.OneAdScript | scripts/head-loader.js:36-66 | kept elements, the ad script, fresh template elements and the stylesheets hold the ad script's key once |
| HeadLoader.FailedFetchDropsPageStyles | scripts/head-loader.js:9-49 | a page whose only stylesheet is its own is left with none when the fetch fails |

## Left out

- Drawing is not modelled: the canvas, orbits, the legend, colours, planet fact
  texts, the info box's HTML and position, the pause button's label, and the
  `flash` classes.
- Floating-point trigonometry is not modelled. Planet screen centres, `atan2`
  pointer angles and the speed factor (a/r)² are parameters; numbers are reals.
- Clocks and randomness are parameters: `Date.now()`, animation timestamps, and
  every `Math.random()` draw.
- Shuffling by `sort(() => Math.random() - 0.5)` depends on the engine. It is
  modelled as the permutation it happens to produce.
- Timers are explicit steps. The 250 ms `setTimeout` after a choice is a count of
  scheduled rounds, and each `setInterval` tick is a method call.
- `alert` appends the score to a log, and speech synthesis appends the spoken
  number to a log.
- `localStorage` is not modelled. The high score is a plain number read once at
  load. Its string form, and the string-to-number comparison it causes, are
  ignored.
- The initial visibility of the number-digits buttons and overlay comes from page
  markup that is not part of this model. It is taken as intro shown, buttons
  hidden and modal hidden.
- Head-loader URLs are the raw `href`/`src` attribute strings. A browser's
  `el.href`/`el.src` properties are resolved absolute URLs, which would change both
  the '/' prefix test and the `[attr="…"]` lookup.
- The head loader's lookup selector is built from the raw value. A value
  containing `"` or `\` makes `querySelector` throw, and the `catch` then skips the
  remaining appends and the stylesheet restore. These selector-syntax failures are
  not modelled: `Admitted` always finishes the loop.
- The head loader only sees the template's top-level children. A response that is
  not OK, such as a 404 page, counts as a fetched template.
- The `DOMContentLoaded` wait in the head loader is one start-up step, because both
  readiness paths do the same work.
- The drag correction keeps both endpoints: a wrapped delta lies in [-180,180]. The
  model follows the code.
- The space explorer's first animation frame uses the real timestamp against
  `lastTime` = 0, so its delta is large. `Animate` takes that timestamp as given.
- The touch page's animation, resize and planet table come from
  scripts/space-explorer.js. `TouchExplorer` takes the planet sizes and the sun as
  constructor values.
- `preventDefault` calls and the gesture listeners are not modelled.
- scripts/moon-phases.js and scripts/ad-loader.js are not part of this model.
- NumberDigits.DigitsGame.Drop: takes a digit 0–9, the text of one of the page's
  digit cards. The drop handler stores whatever text was dragged in, so text
  dragged from elsewhere (say "12", or a word that `parseInt` reads as 0) is not
  modelled. `SlotValue` and `Answer` rely on slot values being single digits.
- MathMatch.Choices: requires enough draws for the loop to reach nine choices. The
  script's loop only ends with probability 1, and `RoundsCanComplete` shows that
  such draws exist.
- MathMatch.MathGame.Keydown: requires a complete set of round draws even when the
  key starts no round, because the draws are a parameter.

## Findings

| source | as written | input that shows it | evidently intended | confidence | as-written member | corrected member |
|---|---|---|---|---|---|---|
| scripts/space-explorer-touch.js:132-136 | The tap listener passes the `touchend` event to `onClick`, which reads `e.touches[0]`. A `touchend` event's `touches` lists only the fingers still down, so after a one-finger tap the list is empty, the read throws, and the tap shows nothing. | A single-finger tap on a planet: touch start and touch end within 200 ms, with no other finger on the screen. | The tap shows the planet's facts, read at the lifted finger (`changedTouches[0]`). | not executed; high | SpaceExplorerTouch.TouchExplorer.OnTouchEndAsWritten | SpaceExplorerTouch.TouchExplorer.OnTouchEnd |
| scripts/head-loader.js:9-49 | The page's own stylesheets are removed before `head.html` is fetched. If the fetch or the read of the body fails, the `catch` only logs, and the stylesheets are never put back. | A page with one `link rel="stylesheet"` whose `head.html` request rejects, for example when offline. | The page keeps its stylesheets when the shared head cannot be loaded. | not executed; medium | HeadLoader.Document.BootAsWritten | HeadLoader.Document.Boot |
