# FollowMyVoice in Dafny

FollowMyVoice is a small gesture game. A voice speaks an instruction ("Swipe
up", "tap", …), a label beside it shows a different gesture word, and the
player must follow the voice. A correct gesture is worth +2 and a wrong one
-1. A round with no score change costs a point. A player at 0 points after
the fifth second loses, and the game ends after 60 seconds. Each round is
timed by a progress ring whose duration shrinks from 3.0 s to 2.0 s.

This project models the game's core and proves properties of it:

- `game.dfy` (module `Game`) covers the session engine of `GameView`.
  - The view controller's session fields become the class `GameSession`.
  - Timer ticks, countdown ticks, ring completions, taps, swipes and the
    pause button become method calls.
  - Each method is proved against a pure step function over a `Session`
    value that mirrors the fields (`TickStep`, `TapStep`, `SwipeStep`,
    `RoundCompletion`, …). The game's rules are then proved as lemmas about
    those functions: scoring, the early loss, the clock bound, the round
    duration and the invariant every handler keeps.
  - Random picks are parameters. Whether the ring has an animation attached
    (`isAnimating`) is an input.
- `instructions.dfy` (module `Instructions`) covers how `speakRandomDirection`
  chooses an instruction.
  - It models the phrase, the anti-repeat tie-break and the misleading label.
  - Swift's `String.contains` is modelled as a literal substring test. Lemmas
    show that on every phrase the game can speak, this test amounts to
    comparing gesture indices.
- `snapping.dfy` (module `Snapping`) covers `Int.snapped`, `SnappedInteger`
  and the clamped volume, speed and pitch settings of `Speech`.
- `twists.dfy` (module `Twists`) covers the speech-effect ranges of
  `TwistType` and the `Twist` initializer.
- `progress_ring.dfy` (module `ProgressRing`) covers the bookkeeping of
  `ProgressRingView`: value, pause state, frozen value and cap styles.

Units:

- The round duration `ringDurationTimeInterval` is held in tenths of a
  second, so it is an integer (30 minus 2 per step).
- The `TwistType` ranges are also in tenths.
- The ring's `CGFloat` values are `real`.

Where the code and its surrounding description disagree, the model follows
the code. The one exception is the score label's face: it is listed under
"## Findings", and the handlers use the corrected choice. The disagreements:

- The branch at GameView.swift:434-438 is reachable. The label update at
  line 431 can end the game (early loss), and the handler then announces a
  new instruction and sets `.play` (`Game.EndBranchReachable`). So
  `resumeGame` is not the only place that sets `.play`.
- After the countdown a fresh game stays in `.ready`, because `beginCountDown`
  never changes the status (`Game.CountdownStep`).
- `innerRingCapStyle` maps out-of-range values to butt, as
  `outerRingCapStyle` does, although its doc comment says style 2
  (`ProgressRing.CapFor`).

## Model

| member | source | states |
|---|---|---|
| Snapping.Snapped | FollowMyVoice.playground/Sources/Speech.swift:118-120 | with min ≤ max the result lies in [min, max]; a value inside is returned unchanged, one below gives min, one above gives max |
| Snapping.SnappedIdempotent | FollowMyVoice.playground/Sources/Speech.swift:118-120 | snapping an already snapped value changes nothing |
| Snapping.SnappedTo | FollowMyVoice.playground/Sources/Speech.swift:114-116 | `snapped(to:)` lands inside the range and equals `snapped(min:max:)` with the range's bounds |
| Snapping.SnappedInteger.WithSnapped | FollowMyVoice.playground/Sources/Speech.swift:14-21 | the setter keeps the stored value inside the range; the getter then reads back the snapped new value, which is the new value itself when it is in range |
| Snapping.MakeSnappedInteger | FollowMyVoice.playground/Sources/Speech.swift:23-26 | the initializer stores the snapped value, so the wrapper starts inside its range |
| Snapping.UserValue | FollowMyVoice.playground/Sources/Speech.swift:123-127 | a user value lies in 0...150 and an in-range default is stored unchanged |
| Snapping.Speech.constructor | FollowMyVoice.playground/Sources/Speech.swift:40-60 | the defaults 5, 30 and 33 are stored unchanged |
| Snapping.Speech.DefaultVolume | FollowMyVoice.playground/Sources/Speech.swift:41-44 | the volume read back always lies in 0...150 |
| Snapping.Speech.DefaultSpeed | FollowMyVoice.playground/Sources/Speech.swift:51-54 | the speed read back always lies in 0...150 |
| Snapping.Speech.DefaultPitch | FollowMyVoice.playground/Sources/Speech.swift:61-64 | the pitch read back always lies in 0...150 |
| Snapping.Speech.SetDefaultVolume | FollowMyVoice.playground/Sources/Speech.swift:41-44 | setting v and reading back gives v clamped to 0...150; the other settings are untouched |
| Snapping.Speech.SetDefaultSpeed | FollowMyVoice.playground/Sources/Speech.swift:51-54 | setting v and reading back gives v clamped to 0...150; the other settings are untouched |
| Snapping.Speech.SetDefaultPitch | FollowMyVoice.playground/Sources/Speech.swift:61-64 | setting v and reading back gives v clamped to 0...150; the other settings are untouched |
| Twists.TwistRangeTenths | FollowMyVoice.playground/Sources/Twist.swift:18-27 | pitch is 0.5...2.0, speed 0.1...2.0 and volume 0.0...1.0; every range is non-empty |
| Twists.MakeTwist | FollowMyVoice.playground/Sources/Twist.swift:37-47 | the range is well formed, both bounds lie in 0...150, and they are exactly the two snapped endpoints in ascending order |
| Twists.MakeTwistSymmetric | FollowMyVoice.playground/Sources/Twist.swift:42-46 | swapping start and end gives the same twist |
| Twists.MakeTwistSingleton | FollowMyVoice.playground/Sources/Twist.swift:42-46 | endpoints that snap to the same value give a one-element range |
| ProgressRing.CapFor | FollowMyVoice.playground/Sources/ProgressRingView.swift:180-197 | 2 maps to round, 3 to square, and every other number (1 included) to butt, each as an if-and-only-if |
| ProgressRing.ProgressRingView.constructor | FollowMyVoice.playground/Sources/ProgressRingView.swift:67-98 | value 0, max 100, not paused, no frozen value, cap styles 1 (butt) and 2 (round), layer in step |
| ProgressRing.ProgressRingView.CurrentValue | FollowMyVoice.playground/Sources/ProgressRingView.swift:79-89 | the model value when no animation is attached, the frozen value when animating and paused, the presentation value when animating and running |
| ProgressRing.ProgressRingView.PausedIgnoresPresentation | FollowMyVoice.playground/Sources/ProgressRingView.swift:79-89 | while paused the reported value does not depend on the presentation layer |
| ProgressRing.ProgressRingView.SetProgress | FollowMyVoice.playground/Sources/ProgressRingView.swift:459-475 | value and layer value become the new value; the layer is animated iff the duration is positive; the pause state is untouched |
| ProgressRing.ProgressRingView.Stop | FollowMyVoice.playground/Sources/ProgressRingView.swift:476-480 | value and layer value become 0; nothing else changes |
| ProgressRing.ProgressRingView.Pause | FollowMyVoice.playground/Sources/ProgressRingView.swift:481-485 | paused; while animating the earlier frozen value is kept, otherwise the model value is frozen; afterwards the reported value is the frozen one |
| ProgressRing.ProgressRingView.Resume | FollowMyVoice.playground/Sources/ProgressRingView.swift:486-489 | no longer paused; value and frozen value unchanged |
| ProgressRing.ProgressRingView.SetOuterRingCapStyle | FollowMyVoice.playground/Sources/ProgressRingView.swift:180-197 | the stored cap and the layer's outer cap both follow the style number; the inner cap, the max value and the animation settings are untouched |
| ProgressRing.ProgressRingView.SetInnerRingCapStyle | FollowMyVoice.playground/Sources/ProgressRingView.swift:247-263 | the stored cap and the layer's inner cap both follow the style number (out of range gives butt); the outer cap, the max value and the animation settings are untouched |
| Instructions.TapOnlyInTap | FollowMyVoice.playground/Sources/GameView.swift:87 | of the five gesture words only "tap" contains "tap" |
| Instructions.Phrase | FollowMyVoice.playground/Sources/GameView.swift:357 | the phrase is "Swipe " plus the word exactly when the prefix is on and the gesture is not the tap |
| Instructions.PhraseMentions | FollowMyVoice.playground/Sources/GameView.swift:357 | a spoken phrase contains gesture word j if and only if it was built from gesture j |
| Instructions.EmptyMentionsNothing | FollowMyVoice.playground/Sources/GameView.swift:32 | the empty initial instruction contains no gesture word |
| Instructions.PhraseInjective | FollowMyVoice.playground/Sources/GameView.swift:357-361 | phrases built from different gestures differ, whatever their prefixes |
| Instructions.ShiftedIndex | FollowMyVoice.playground/Sources/GameView.swift:359 | the tie-break index is a gesture index different from the pick |
| Instructions.NextIndex | FollowMyVoice.playground/Sources/GameView.swift:356-361 | the pick is kept unless it repeats the previous phrase before 10 s; then the shifted index is used and its phrase differs from the previous one |
| Instructions.LabelIndex | FollowMyVoice.playground/Sources/GameView.swift:368 | the label shows gesture i-1 (or 1 for i = 0), always a gesture and never the spoken one |
| Game.RingTenthsAfter | FollowMyVoice.playground/Sources/GameView.swift:387-389 | the closed form of the round duration stays within 2.0 s to 3.0 s |
| Game.RingTenthsMarks | FollowMyVoice.playground/Sources/GameView.swift:387-389 | the duration is 3.0 s iff fewer than 10 s have passed and 2.0 s iff at least 50 s have |
| Game.RingTenthsStep | FollowMyVoice.playground/Sources/GameView.swift:387-389 | the per-tick rule (0.2 s off at a new multiple of 10 other than 60) keeps the closed form |
| Game.Award | FollowMyVoice.playground/Sources/GameView.swift:262-268 | a handled gesture is worth a positive amount iff it matches, and the amount is +2 or -1 |
| Game.ScoreMoodAsWritten | FollowMyVoice.playground/Sources/GameView.swift:555-562 | as written, the losing faces appear iff the change is exactly -2 |
| Game.LosingFaceUnreachableAsWritten | FollowMyVoice.playground/Sources/GameView.swift:555-562 | for every change the game can produce (at least -1) the losing faces never appear, although a -1 is a loss |
| Game.ScoreMood | FollowMyVoice.playground/Sources/GameView.swift:555-562 | corrected: the losing faces appear iff the change is negative |
| Game.Cleared | FollowMyVoice.playground/Sources/GameView.swift:541-549 | score, seconds, strokes and record are 0, the duration is 3.0 s, no timer runs and no recognizer is attached; status and face are kept |
| Game.Verdict | FollowMyVoice.playground/Sources/GameView.swift:641-652 | the status becomes `.end`; the face is angry ("Well Played") iff the score exceeds 10 and laughing ("Got confused") otherwise |
| Game.Ended | FollowMyVoice.playground/Sources/GameView.swift:641-654 | `.end` with the verdict decided on the score before the reset, then every counter cleared |
| Game.ScoreLabelUpdate | FollowMyVoice.playground/Sources/GameView.swift:551-572 | the score is never negative afterwards; after the 5th second a score ≤ 0 ends the game, otherwise the score is clamped at 0 and the face follows the change since `initial` |
| Game.Announce | FollowMyVoice.playground/Sources/GameView.swift:353-368 | the new phrase and label come from the chosen index; below 10 s the phrase always changes; status, score and clock are untouched |
| Game.LabelMisleads | FollowMyVoice.playground/Sources/GameView.swift:356-368 | the label's word is never contained in the phrase just spoken |
| Game.RoundStart | FollowMyVoice.playground/Sources/GameView.swift:420-426 | a round is in flight and remembers the current score; outside pause and end the new instruction and label are those of `Announce`, and below 10 s the instruction changes; under pause or end it is kept |
| Game.RoundCompletion | FollowMyVoice.playground/Sources/GameView.swift:427-439 | paused, ended or scored rounds change nothing; an idle round costs exactly one point (score clamped at 0); if that ends the game the handler sets `.play` on a cleared session |
| Game.TickStep | FollowMyVoice.playground/Sources/GameView.swift:382-396 | the three tick cases: one more second with the prefix on iff under 10 s, the end at 60 s, or only the timer stopped while paused |
| Game.Advanced | FollowMyVoice.playground/Sources/GameView.swift:383-389 | one more second and the prefix on iff under 10 s; status, score and timer untouched |
| Game.AdvancedKeepsDuration | FollowMyVoice.playground/Sources/GameView.swift:387-389 | a second other than the 60th keeps the duration at its closed form |
| Game.TickKeepsClock | FollowMyVoice.playground/Sources/GameView.swift:382-396 | a tick keeps the clock within 0..60 and the duration at its closed form |
| Game.DirectionIndex | FollowMyVoice.playground/Sources/GameView.swift:290-315 | each swipe direction is matched against the gesture word at a non-tap index |
| Game.SwipeDelta | FollowMyVoice.playground/Sources/GameView.swift:288-324 | a directed swipe is worth +2 iff the instruction contains its word and -1 iff not; other swipes are worth 0 |
| Game.TapStep | FollowMyVoice.playground/Sources/GameView.swift:249-271 | a tap during the introduction dismisses it and starts the countdown at 4; while paused it resumes; after the end it changes nothing; in play it adds +2 or -1 by `contains("tap")` and one stroke, or on an early loss ends the game with the counters cleared |
| Game.SwipeStep | FollowMyVoice.playground/Sources/GameView.swift:281-326 | the score moves by the swipe's delta and one stroke is counted; on an early loss the game ends with the score 0 and the stroke count left at 1 |
| Game.Penalized | FollowMyVoice.playground/Sources/GameView.swift:428-431 | an idle round leaves the score one lower, clamped at 0, or ends the game when that is an early loss |
| Game.Paused | FollowMyVoice.playground/Sources/GameView.swift:618-628 | `.pause`, the thinking face, recognizers off; score, clock and timer untouched |
| Game.Resumed | FollowMyVoice.playground/Sources/GameView.swift:629-640 | `.play`, the grinning face, recognizers and the timer on; score, clock and instruction untouched |
| Game.StatusChangeStep | FollowMyVoice.playground/Sources/GameView.swift:610-640 | `.play`/`.ready` become `.pause` with recognizers off; `.pause` becomes `.play` with recognizers and timer on; `.end`/`.interupted` only stop the timer; score and clock are untouched |
| Game.PlayStep | FollowMyVoice.playground/Sources/GameView.swift:576-583 | recognizers removed; with the introduction pending (and not ended) the prefix is switched on, otherwise the countdown starts at 4 |
| Game.RestartStep | FollowMyVoice.playground/Sources/GameView.swift:655-662 | a paused game is cleared, set to `.end` and restarts its countdown; any other game just runs `play()` |
| Game.CountdownStep | FollowMyVoice.playground/Sources/GameView.swift:398-418 | a countdown tick keeps status, score and clock; on the last tick recognizers and timer start, plus a round unless the game has ended |
| Game.TapMatches | FollowMyVoice.playground/Sources/GameView.swift:262 | a tap matches a spoken phrase iff it was built from "tap" |
| Game.SwipeMatches | FollowMyVoice.playground/Sources/GameView.swift:290-315 | a directed swipe is worth +2 iff the phrase was built from its direction, -1 otherwise |
| Game.TapOutsidePlay | FollowMyVoice.playground/Sources/GameView.swift:252-260 | a tap during the introduction only dismisses it and starts the countdown; a tap while paused resumes; a tap after the end does nothing |
| Game.TapScoring | FollowMyVoice.playground/Sources/GameView.swift:261-270 | in play a tap adds +2 or -1 by index match and one stroke, or, on an early loss, ends the game with the counters cleared |
| Game.SwipeScoring | FollowMyVoice.playground/Sources/GameView.swift:281-326 | a swipe adds +2/-1 by index match (0 for other directions) and one stroke; on an early loss the game ends and the stroke count is left at 1 |
| Game.NoLosingFaceAsWritten | FollowMyVoice.playground/Sources/GameView.swift:555-562 | from every session satisfying the invariant, the change a tap, a swipe or an idle-round penalty passes to the label shows the winning list under the rule as written |
| Game.WrongTapFace | FollowMyVoice.playground/Sources/GameView.swift:555-562 | a wrong tap that does not end the game shows the winning list as written, but the losing list in the corrected handler |
| Game.NothingMatchesBeforeFirstInstruction | FollowMyVoice.playground/Sources/GameView.swift:32 | before the first instruction a tap does not match and every directed swipe costs a point |
| Game.EndBranchReachable | FollowMyVoice.playground/Sources/GameView.swift:427-439 | a session satisfying the invariant reaches the `.end` branch of the completion handler and is set to `.play` |
| Game.ClearedKeepsInvariant | FollowMyVoice.playground/Sources/GameView.swift:541-549 | `removeChildren` restores the session invariant |
| Game.EndedKeepsInvariant | FollowMyVoice.playground/Sources/GameView.swift:641-654 | `gameEnded` restores the session invariant |
| Game.ScoreLabelKeepsInvariant | FollowMyVoice.playground/Sources/GameView.swift:551-572 | the label update restores the non-negative score from any coherent session |
| Game.RoundStartKeepsInvariant | FollowMyVoice.playground/Sources/GameView.swift:420-426 | starting a round keeps the invariant |
| Game.RoundCompletionKeepsInvariant | FollowMyVoice.playground/Sources/GameView.swift:427-439 | the completion handler keeps the invariant |
| Game.TickKeepsInvariant | FollowMyVoice.playground/Sources/GameView.swift:382-396 | a tick keeps the invariant |
| Game.TapKeepsInvariant | FollowMyVoice.playground/Sources/GameView.swift:249-271 | a tap keeps the invariant |
| Game.SwipeKeepsInvariant | FollowMyVoice.playground/Sources/GameView.swift:281-326 | a swipe keeps the invariant |
| Game.StatusChangeKeepsInvariant | FollowMyVoice.playground/Sources/GameView.swift:610-640 | the pause button keeps the invariant |
| Game.RestartKeepsInvariant | FollowMyVoice.playground/Sources/GameView.swift:655-662 | a restart keeps the invariant |
| Game.CountdownKeepsInvariant | FollowMyVoice.playground/Sources/GameView.swift:398-418 | a countdown tick keeps the invariant |
| Game.GameSession.ValidIsInvariant | FollowMyVoice.playground/Sources/GameView.swift:26-49 | the field-level invariant is exactly the session invariant of the snapshot |
| Game.GameSession.constructor | FollowMyVoice.playground/Sources/GameView.swift:26-49 | the initial fields: `.ready`, introduction pending, prefix on, empty instruction, all counters 0, duration 3.0 s, ring at rest |
| Game.GameSession.RemoveChildren | FollowMyVoice.playground/Sources/GameView.swift:541-549 | the fields become `Cleared` of the old ones and the invariant holds |
| Game.GameSession.GameEnded | FollowMyVoice.playground/Sources/GameView.swift:641-654 | the fields become `Ended` of the old ones and the ring is paused |
| Game.GameSession.UpdateScoreLabel | FollowMyVoice.playground/Sources/GameView.swift:551-572 | the fields follow `ScoreLabelUpdate`; the ring is paused iff the game ends |
| Game.GameSession.SpeakRandomDirection | FollowMyVoice.playground/Sources/GameView.swift:353-368 | the fields follow `Announce` for the given pick |
| Game.GameSession.StartRing | FollowMyVoice.playground/Sources/GameView.swift:420-426 | the fields follow `RoundStart`; the ring runs to 100 over the current duration |
| Game.GameSession.PenalizeIdleRound | FollowMyVoice.playground/Sources/GameView.swift:428-432 | a point off, then the label update; the ring is paused iff that ends the game |
| Game.GameSession.RestartAfterLoss | FollowMyVoice.playground/Sources/GameView.swift:434-438 | a new instruction and `.play` |
| Game.GameSession.RoundCompleted | FollowMyVoice.playground/Sources/GameView.swift:427-441 | the completion handler then the next round; the ring restarts over the duration the handler leaves |
| Game.GameSession.Tick | FollowMyVoice.playground/Sources/GameView.swift:382-396 | the fields follow `TickStep`; the ring is paused iff the 60th second ends the game |
| Game.GameSession.BeginCountDown | FollowMyVoice.playground/Sources/GameView.swift:398-399 | the countdown starts at 4 |
| Game.GameSession.CountdownTick | FollowMyVoice.playground/Sources/GameView.swift:400-417 | the fields follow `CountdownStep`; on the last tick the ring starts a round, or is stopped if the game has ended |
| Game.GameSession.Tap | FollowMyVoice.playground/Sources/GameView.swift:249-271 | the fields follow `TapStep`; the ring resumes on a tap while paused and is paused iff the tap ends the game |
| Game.GameSession.Swipe | FollowMyVoice.playground/Sources/GameView.swift:281-326 | the fields follow `SwipeStep`; the ring is paused iff the swipe ends the game |
| Game.GameSession.PauseGame | FollowMyVoice.playground/Sources/GameView.swift:618-628 | `.pause`, thinking face, recognizers off, ring paused |
| Game.GameSession.ResumeGame | FollowMyVoice.playground/Sources/GameView.swift:629-640 | `.play`, grinning face, recognizers and timer on, ring resumed |
| Game.GameSession.GameStatusChanged | FollowMyVoice.playground/Sources/GameView.swift:610-617 | the fields follow `StatusChangeStep`; the ring is paused or resumed with the status |
| Game.GameSession.Play | FollowMyVoice.playground/Sources/GameView.swift:576-583 | the fields follow `PlayStep` |
| Game.GameSession.RestartGame | FollowMyVoice.playground/Sources/GameView.swift:655-662 | the fields follow `RestartStep` |

## Left out

- The UIKit views and layout, the icons, colours, fonts and label texts, and
  the SpriteKit particle scene. The emoji label is reduced to which list or
  fixed face it shows (`Mood`); the random emoji within a list is not
  modelled.
- The speech synthesizer: the utterances and the calls that stop, pause or
  continue them. Only the spoken instruction string is kept.
- `showIntroductionView` is modelled only by its effect on the session: it
  switches the "Swipe " prefix on.
- `touchesEnded` and `handlePan`, which stop the ring when a touch or pan
  ends. They are outside the modelled core, so their ring reset is not
  modelled.
- Timers are event calls. The 1 Hz `gameTimer` is a flag (`timerRunning`),
  so the model cannot show two such timers scheduled at once. The countdown
  timer is the captured counter `countdown`, and a second countdown started
  while one runs replaces it.
- Core Animation: whether an animation is attached and the presentation
  value are inputs. The ring-completion callback is its own event
  (`RoundCompleted`). The 0.1 s reset animation that precedes each round is
  folded into the round's start. `ProgressRingLayer` itself is not part of
  this model.
- `ringDurationTimeInterval` is held in tenths of a second, so the floating
  point subtraction of 0.2 is exact here.
- The floating-point conversions `normalizedVolume`/`Speed`/`Pitch`,
  `Twist.twistValue` and `Twist.twist` are not modelled. The `TwistType`
  ranges are in tenths.
- `arc4random_uniform` picks are parameters: the instruction index is a
  parameter, and the colour and emoji picks are not modelled.
- ScoreLabelUpdate: the face follows the corrected `ScoreMood` (losing list iff the change is negative), not the as-written rule at GameView.swift:555-562 (losing list only for exactly -2). The as-written rule is `ScoreMoodAsWritten`, tied to the handlers by `NoLosingFaceAsWritten` and `WrongTapFace`.
- RoundCompletion: an idle round's face follows the corrected `ScoreMood`, not the as-written rule, for the same reason as ScoreLabelUpdate.
- UpdateScoreLabel: sets the corrected face, for the same reason as ScoreLabelUpdate.
- PenalizeIdleRound: the face it leaves is the corrected one, for the same reason as ScoreLabelUpdate.
- RoundCompleted: the face after an idle round is the corrected one, for the same reason as ScoreLabelUpdate.
- Tap: a scoring tap's face is the corrected one, for the same reason as ScoreLabelUpdate.
- Swipe: a swipe's face is the corrected one, for the same reason as ScoreLabelUpdate.
- Game.GameSession.RoundCompleted: the ring's state is stated only for the
  completion's own ring calls with no animation attached, because the
  animation of the finished round has just ended.

## Findings

| source | as written | input that shows it | evidently intended | confidence | as-written member | corrected member |
|---|---|---|---|---|---|---|
| FollowMyVoice.playground/Sources/GameView.swift:555-562 | `updateScoreLabel` shows a face from the losing list only when the score changed by exactly -2 | a wrong tap or swipe changes the score by -1 and gets a face from the winning list; no handler can produce -2 (`Game.LosingFaceUnreachableAsWritten`) | a loss (a negative change) shows the losing list | not executed | Game.ScoreMoodAsWritten | Game.ScoreMood |
