/**
  The game-session engine of GameView.swift. The view controller's session
  fields become the `GameSession` class; its timer ticks, countdown ticks,
  ring completions, taps, swipes and button presses become method calls, and
  random picks become parameters. Each event method is proved against a pure
  step function over a `Session` snapshot of the fields, and the properties
  of the game are stated on those step functions.
*/
module Game {
  import opened Snapping
  import opened Instructions
  import opened ProgressRing

  /** `GameStatus` (the source spells `interupted` this way). */
  datatype GameStatus = Ready | Interupted | Play | Pause | End

  /** The direction a swipe recognizer reports; anything else is `OtherDirection`. */
  datatype SwipeDirection = SwipeRight | SwipeDown | SwipeLeft | SwipeUp | OtherDirection

  /** What the emoji label (`smilingLabel`) shows. */
  datatype Mood =
    | Smiling      // the initial face
    | WinningFace  // a face from `Defaults.winningEmojis`
    | LosingFace   // a face from `Defaults.loosingEmojis`
    | Thinking     // paused
    | Grinning     // resumed
    | Angry        // game over with more than 10 points ("Well Played")
    | Laughing     // game over otherwise ("Got confused")

  const GameLengthSeconds: int := 60
  const InitialRingTenths: int := 30
  const EarlyLossAfterSeconds: int := 5
  const WellPlayedAbove: int := 10

  /** The fields of a session, as one value. */
  datatype Session = Session(
    status: GameStatus,
    showIntroduction: bool,
    speakWithSwipe: bool,
    spokenDirection: string,
    scoreCount: int,
    seconds: int,
    numberOfStrokes: int,
    scoreRecord: int,
    ringTenths: int,          // ringDurationTimeInterval, in tenths of a second
    actionLabelIndex: int,    // gesture word on the action label; -1 for its initial text
    mood: Mood,
    gesturesAttached: bool,   // swipe recognizers attached (addGestures / removeGestures)
    timerRunning: bool,       // the 1 Hz gameTimer is scheduled
    countdown: int,           // the `i` captured by the countdown timer; 0 when none runs
    roundActive: bool,        // a startRing round is in flight
    roundStartScore: int      // the `initalCount` captured by that round
  )

  // ---------------------------------------------------------------------------
  // Round duration

  /**
    The round duration after `seconds` ticks since the last reset: 3.0 s less
    0.2 s for each of the marks 10, 20, 30, 40 and 50 already passed.
  */
  function RingTenthsAfter(seconds: int): (d: int)
    requires 0 <= seconds <= GameLengthSeconds
    ensures 20 <= d <= InitialRingTenths
  {
    InitialRingTenths - 2 * Min(seconds / 10, 5)
  }

  /** The duration is 3.0 s exactly for the first ten seconds and 2.0 s exactly from the 50th on. */
  lemma RingTenthsMarks(seconds: int)
    requires 0 <= seconds <= GameLengthSeconds
    ensures seconds < 10 <==> RingTenthsAfter(seconds) == InitialRingTenths
    ensures seconds >= 50 <==> RingTenthsAfter(seconds) == 20
  {
  }

  /** One tick's rule (drop 0.2 s when the new second is a multiple of 10 other than 60) keeps the closed form. */
  lemma {:induction false} RingTenthsStep(s: int)
    requires 0 <= s < GameLengthSeconds
    ensures RingTenthsAfter(s + 1)
         == RingTenthsAfter(s) - (if (s + 1) % 10 == 0 && s + 1 != GameLengthSeconds then 2 else 0)
  {
    var q := s / 10;
    assert s == 10 * q + s % 10;
    if (s + 1) % 10 == 0 {
      assert (s + 1) / 10 == q + 1;
    } else {
      assert (s + 1) / 10 == q;
    }
  }

  // ---------------------------------------------------------------------------
  // Session invariant

  /** The constraints between events on the clock, the duration, the stroke count and the countdown. */
  ghost predicate CoherentFields(seconds: int, ringTenths: int, numberOfStrokes: int, countdown: int)
  {
    && 0 <= seconds <= GameLengthSeconds
    && ringTenths == RingTenthsAfter(seconds)
    && numberOfStrokes >= 0
    && (countdown == 0 || 2 <= countdown <= 4)
  }

  /** Everything that holds between events, except that the score is not negative. */
  ghost predicate Coherent(s: Session)
  {
    CoherentFields(s.seconds, s.ringTenths, s.numberOfStrokes, s.countdown)
  }

  ghost predicate Invariant(s: Session)
  {
    Coherent(s) && s.scoreCount >= 0
  }

  // ---------------------------------------------------------------------------
  // Scoring

  /** The points a handled gesture is worth: 2 when it matches the instruction, -1 otherwise. */
  function Award(matched: bool): (d: int)
    ensures d > 0 <==> matched
    ensures d == 2 || d == -1
  {
    if matched then 2 else -1
  }

  /** The mood the score label picks from the change `delta`, as corrected (see ScoreMoodAsWritten). */
  function ScoreMood(delta: int): (m: Mood)
    ensures m == LosingFace <==> delta < 0
    ensures m == WinningFace <==> delta >= 0
  {
    if delta < 0 then LosingFace else WinningFace
  }

  /** The source's own choice: the losing faces only for a change of exactly -2. */
  function ScoreMoodAsWritten(delta: int): (m: Mood)
    ensures m == LosingFace <==> delta == -2
    ensures m == WinningFace <==> delta != -2
  {
    if delta == -2 then LosingFace else WinningFace
  }

  /**
    Every change passed to the score label is at least -1 (a gesture changes
    the score by 2, -1 or 0; a timed-out round passes the new score, at least
    -1), so as written the losing faces never appear, even for the -1 of a
    wrong gesture, which the corrected choice shows as a loss.
  */
  lemma LosingFaceUnreachableAsWritten(delta: int)
    requires delta >= -1
    ensures ScoreMoodAsWritten(delta) == WinningFace
    ensures delta == -1 ==> ScoreMood(delta) == LosingFace
  {
  }

  /** The early-loss rule of `updateScoreLabel`. */
  predicate EarlyLoss(seconds: int, score: int)
  {
    seconds > EarlyLossAfterSeconds && score <= 0
  }

  // ---------------------------------------------------------------------------
  // Step functions: one per handler, built from one per part of a handler

  /** The score, stroke and record counters back to 0. */
  function Zeroed(s: Session): Session
  {
    s.(scoreCount := 0, numberOfStrokes := 0, scoreRecord := 0)
  }

  /** The clock back to 0 and the round duration back to 3.0 s. */
  function ClockReset(s: Session): Session
  {
    s.(seconds := 0, ringTenths := InitialRingTenths)
  }

  /** The 1 Hz timer invalidated and the recognizers removed. */
  function Halted(s: Session): Session
  {
    s.(timerRunning := false, gesturesAttached := false)
  }

  /** `removeChildren`: counters back to 0, duration back to 3.0 s, timer and recognizers gone. */
  function Cleared(s: Session): (c: Session)
    ensures c.scoreCount == 0 && c.seconds == 0 && c.numberOfStrokes == 0 && c.scoreRecord == 0
    ensures c.ringTenths == InitialRingTenths && !c.timerRunning && !c.gesturesAttached
    ensures c.status == s.status && c.mood == s.mood
    ensures c.spokenDirection == s.spokenDirection && c.actionLabelIndex == s.actionLabelIndex
  {
    Halted(ClockReset(Zeroed(s)))
  }

  /** The part of `gameEnded` before `removeChildren`: status `.end` and the verdict mood from the final score. */
  function Verdict(s: Session): (v: Session)
    ensures v.status == End
    ensures v.mood == Angry <==> s.scoreCount > WellPlayedAbove
    ensures v.mood == Laughing <==> s.scoreCount <= WellPlayedAbove
  {
    s.(status := End, mood := if s.scoreCount > WellPlayedAbove then Angry else Laughing)
  }

  /** `gameEnded`: the verdict, then `removeChildren`. */
  function Ended(s: Session): (e: Session)
    ensures e.status == End
    ensures e.mood == Angry <==> s.scoreCount > WellPlayedAbove
    ensures e.mood == Laughing <==> s.scoreCount <= WellPlayedAbove
    ensures e.scoreCount == 0 && e.seconds == 0 && e.numberOfStrokes == 0 && e.scoreRecord == 0
    ensures e.ringTenths == InitialRingTenths && !e.timerRunning && !e.gesturesAttached
    ensures e.spokenDirection == s.spokenDirection && e.showIntroduction == s.showIntroduction
  {
    Cleared(Verdict(s))
  }

  /** The face `updateScoreLabel(with: initial)` shows before it looks at the score. */
  function WithScoreMood(s: Session, initial: int): Session
  {
    s.(mood := ScoreMood(s.scoreCount - initial))
  }

  /** The score label never shows a negative score. */
  function Clamped(s: Session): Session
  {
    s.(scoreCount := if s.scoreCount <= 0 then 0 else s.scoreCount)
  }

  /**
    `updateScoreLabel(with: initial)`: the face for the change since
    `initial`, then either the early loss or the score clamped at 0.
  */
  function ScoreLabelUpdate(s: Session, initial: int): (u: Session)
    ensures u.scoreCount >= 0
    ensures EarlyLoss(s.seconds, s.scoreCount) ==>
      u.status == End && u.scoreCount == 0 && u.seconds == 0 && u.numberOfStrokes == 0 && !u.timerRunning
    ensures !EarlyLoss(s.seconds, s.scoreCount) ==>
      && u.scoreCount == Max(s.scoreCount, 0) && u.mood == ScoreMood(s.scoreCount - initial)
      && u.status == s.status && u.seconds == s.seconds && u.numberOfStrokes == s.numberOfStrokes
  {
    var t := WithScoreMood(s, initial);
    if EarlyLoss(t.seconds, t.scoreCount) then Ended(t) else Clamped(t)
  }

  /** `speakRandomDirection` with random pick `r`: the new phrase and the label beside it. */
  function Announce(s: Session, r: nat): (a: Session)
    requires r < |Gestures|
    ensures var i := NextIndex(r, s.spokenDirection, s.speakWithSwipe, s.seconds);
      a.spokenDirection == Phrase(i, s.speakWithSwipe) && a.actionLabelIndex == LabelIndex(i)
    ensures s.seconds < 10 ==> a.spokenDirection != s.spokenDirection
    ensures a.status == s.status && a.scoreCount == s.scoreCount && a.seconds == s.seconds
  {
    var i := NextIndex(r, s.spokenDirection, s.speakWithSwipe, s.seconds);
    s.(spokenDirection := Phrase(i, s.speakWithSwipe), actionLabelIndex := LabelIndex(i))
  }

  /** The action label never shows the word of the instruction just spoken. */
  lemma {:induction false} LabelMisleads(s: Session, r: nat)
    requires r < |Gestures|
    ensures var a := Announce(s, r);
      && 0 <= a.actionLabelIndex < |Gestures|
      && !Contains(a.spokenDirection, Gestures[a.actionLabelIndex])
  {
    var i := NextIndex(r, s.spokenDirection, s.speakWithSwipe, s.seconds);
    PhraseMentions(i, s.speakWithSwipe, LabelIndex(i));
  }

  /** The round in flight and the score it started from (`initalCount`). */
  function RoundBegun(s: Session, initial: int): Session
  {
    s.(roundActive := true, roundStartScore := initial)
  }

  /** `startRing`: capture the score, announce a new instruction unless paused or ended. */
  function RoundStart(s: Session, r: nat): (t: Session)
    requires r < |Gestures|
    ensures t.roundActive && t.roundStartScore == s.scoreCount
    ensures t.status == s.status && t.scoreCount == s.scoreCount && t.seconds == s.seconds
    ensures s.status == Pause || s.status == End ==> t.spokenDirection == s.spokenDirection
    ensures s.status != Pause && s.status != End ==>
      t.spokenDirection == Announce(s, r).spokenDirection && t.actionLabelIndex == Announce(s, r).actionLabelIndex
    ensures s.status != Pause && s.status != End && s.seconds < 10 ==> t.spokenDirection != s.spokenDirection
  {
    var a := if s.status != Pause && s.status != End then Announce(s, r) else s;
    RoundBegun(a, s.scoreCount)
  }

  /** `scoreCount -= 1`. */
  function Docked(s: Session): Session
  {
    s.(scoreCount := s.scoreCount - 1)
  }

  /** Lines 428-431: a point off, then `updateScoreLabel()`, whose `initial` defaults to 0. */
  function Penalized(s: Session): (p: Session)
    ensures !EarlyLoss(s.seconds, s.scoreCount - 1) ==>
      p.scoreCount == Max(s.scoreCount - 1, 0) && p.status == s.status && p.seconds == s.seconds
    ensures EarlyLoss(s.seconds, s.scoreCount - 1) ==>
      p.status == End && p.scoreCount == 0 && p.seconds == 0 && !p.timerRunning
  {
    ScoreLabelUpdate(Docked(s), 0)
  }

  /** `gameStatus = .play`. */
  function Playing(s: Session): Session
  {
    s.(status := Play)
  }

  /** Lines 434-438: a new instruction and `.play`. */
  function Relaunched(s: Session, r: nat): Session
    requires r < |Gestures|
  {
    Playing(Announce(s, r))
  }

  /**
    The ring-completion handler of `startRing` up to its closing `startRing()`
    call, with `restartPick` the random pick of the announcement at line 436.
    A round with no score change costs exactly one point; if that loss ends the
    game (early loss), the handler announces an instruction and sets `.play`.
  */
  function RoundCompletion(s: Session, restartPick: nat): (c: Session)
    requires restartPick < |Gestures|
    ensures s.status == Pause || s.status == End || s.scoreCount != s.roundStartScore ==> c == s
    ensures (s.status != Pause && s.status != End && s.scoreCount == s.roundStartScore
             && !EarlyLoss(s.seconds, s.scoreCount - 1)) ==>
      && c.scoreCount == Max(s.scoreCount - 1, 0) && c.mood == ScoreMood(s.scoreCount - 1)
      && c.status == s.status && c.seconds == s.seconds
    ensures (s.status != Pause && s.status != End && s.scoreCount == s.roundStartScore
             && EarlyLoss(s.seconds, s.scoreCount - 1)) ==>
      && c.status == Play && c.scoreCount == 0 && c.seconds == 0 && c.ringTenths == InitialRingTenths
      && !c.timerRunning && !c.gesturesAttached
  {
    if s.status != Pause && s.status != End then
      var t := if s.scoreCount - s.roundStartScore == 0 then Penalized(s) else s;
      if t.status == End then Relaunched(t, restartPick) else t
    else
      s
  }

  /** `gameTimer?.invalidate()`. */
  function TimerStopped(s: Session): Session
  {
    s.(timerRunning := false)
  }

  /** `runTimer()`. */
  function TimerStarted(s: Session): Session
  {
    s.(timerRunning := true)
  }

  /** The first case of `updateTimer`: one more second, the "Swipe " prefix only below 10 s, 0.2 s off at each new multiple of 10 below 60. */
  function Advanced(s: Session): (t: Session)
    ensures t.seconds == s.seconds + 1 && t.speakWithSwipe == (t.seconds < 10)
    ensures t.status == s.status && t.scoreCount == s.scoreCount && t.timerRunning == s.timerRunning
  {
    var next := s.seconds + 1;
    s.(seconds := next, speakWithSwipe := next < 10,
       ringTenths := if next % 10 == 0 && next != GameLengthSeconds then s.ringTenths - 2 else s.ringTenths)
  }

  /** A second that is not the 60th keeps the round duration at its closed form. */
  lemma {:induction false} AdvancedKeepsDuration(s: Session)
    requires 0 <= s.seconds < GameLengthSeconds && s.ringTenths == RingTenthsAfter(s.seconds)
    ensures Advanced(s).ringTenths == RingTenthsAfter(s.seconds + 1)
  {
    RingTenthsStep(s.seconds);
  }

  /** One tick of the 1 Hz `updateTimer`. */
  function TickStep(s: Session): (t: Session)
    ensures s.status != Pause && s.seconds != GameLengthSeconds ==>
      && t.seconds == s.seconds + 1 && t.speakWithSwipe == (t.seconds < 10)
      && t.status == s.status && t.scoreCount == s.scoreCount && t.timerRunning == s.timerRunning
    ensures s.seconds == GameLengthSeconds ==>
      t.status == End && !t.timerRunning && t.seconds == 0 && t.ringTenths == InitialRingTenths
    ensures s.status == Pause && s.seconds != GameLengthSeconds ==> t == s.(timerRunning := false)
  {
    if s.status != Pause && s.seconds != GameLengthSeconds then Advanced(s)
    else if s.seconds == GameLengthSeconds then Ended(TimerStopped(s))
    else TimerStopped(s)
  }

  /** `showIntroduction = false`. */
  function IntroductionDismissed(s: Session): Session
  {
    s.(showIntroduction := false)
  }

  /** `beginCountDown`: the countdown timer starts with `i` at 4. */
  function CountdownBegun(s: Session): Session
  {
    s.(countdown := 4)
  }

  /** The scoring of a handled tap: +2 when the instruction contains "tap", -1 otherwise, and one stroke. */
  function TapScored(s: Session): Session
  {
    s.(scoreCount := s.scoreCount + Award(Contains(s.spokenDirection, "tap")),
       numberOfStrokes := s.numberOfStrokes + 1)
  }

  /** A tap handled by `touchesBegan`. */
  function TapStep(s: Session): (t: Session)
    ensures s.showIntroduction ==> !t.showIntroduction && t.countdown == 4 && t.scoreCount == s.scoreCount
    ensures !s.showIntroduction && s.status == Pause ==> t.status == Play && t.gesturesAttached && t.timerRunning
    ensures !s.showIntroduction && s.status == End ==> t == s
    ensures !s.showIntroduction && s.status != Pause && s.status != End ==>
      var score := s.scoreCount + Award(Contains(s.spokenDirection, "tap"));
      && (!EarlyLoss(s.seconds, score) ==> t.scoreCount == Max(score, 0) && t.numberOfStrokes == s.numberOfStrokes + 1)
      && (EarlyLoss(s.seconds, score) ==> t.status == End && t.scoreCount == 0 && t.numberOfStrokes == 0)
  {
    if s.showIntroduction then CountdownBegun(IntroductionDismissed(s))
    else if s.status == Pause then Resumed(s)
    else if s.status != Pause && s.status != End then ScoreLabelUpdate(TapScored(s), s.scoreCount)
    else s
  }

  /** The gesture word a swipe direction is matched against. */
  function DirectionWord(d: SwipeDirection): string
    requires d != OtherDirection
  {
    match d
    case SwipeRight => "right"
    case SwipeDown => "down"
    case SwipeLeft => "left"
    case SwipeUp => "up"
  }

  /** Index in `Gestures` of the word a swipe direction is matched against. */
  function DirectionIndex(d: SwipeDirection): (i: nat)
    requires d != OtherDirection
    ensures i < |Gestures| && i != TapIndex && Gestures[i] == DirectionWord(d)
  {
    match d
    case SwipeRight => 4
    case SwipeDown => 2
    case SwipeLeft => 1
    case SwipeUp => 0
  }

  /** The score change of the direction cases of `respondToSwipeGesture`. */
  function SwipeDelta(spoken: string, d: SwipeDirection): (delta: int)
    ensures d == OtherDirection ==> delta == 0
    ensures d != OtherDirection ==> (delta == 2 <==> Contains(spoken, DirectionWord(d)))
    ensures d != OtherDirection ==> (delta == -1 <==> !Contains(spoken, DirectionWord(d)))
  {
    if d == OtherDirection then 0 else Award(Contains(spoken, DirectionWord(d)))
  }

  /** The score after the direction cases of `respondToSwipeGesture`. */
  function SwipeScored(s: Session, d: SwipeDirection): Session
  {
    s.(scoreCount := s.scoreCount + SwipeDelta(s.spokenDirection, d))
  }

  /** `numberOfStrokes += 1`. */
  function Stroked(s: Session): Session
  {
    s.(numberOfStrokes := s.numberOfStrokes + 1)
  }

  /** A swipe handled by `respondToSwipeGesture`: the score, the label update, then the stroke count. */
  function SwipeStep(s: Session, d: SwipeDirection): (t: Session)
    ensures var score := s.scoreCount + SwipeDelta(s.spokenDirection, d);
      && (!EarlyLoss(s.seconds, score) ==>
            t.scoreCount == Max(score, 0) && t.numberOfStrokes == s.numberOfStrokes + 1 && t.status == s.status)
      && (EarlyLoss(s.seconds, score) ==> t.status == End && t.scoreCount == 0 && t.numberOfStrokes == 1)
  {
    Stroked(ScoreLabelUpdate(SwipeScored(s, d), s.scoreCount))
  }

  /** `pauseGame`. */
  function Paused(s: Session): (t: Session)
    ensures t.status == Pause && t.mood == Thinking && !t.gesturesAttached
    ensures t.scoreCount == s.scoreCount && t.seconds == s.seconds && t.timerRunning == s.timerRunning
  {
    s.(status := Pause, mood := Thinking, gesturesAttached := false)
  }

  /** `resumeGame`. */
  function Resumed(s: Session): (t: Session)
    ensures t.status == Play && t.mood == Grinning && t.gesturesAttached && t.timerRunning
    ensures t.scoreCount == s.scoreCount && t.seconds == s.seconds && t.spokenDirection == s.spokenDirection
  {
    s.(status := Play, mood := Grinning, gesturesAttached := true, timerRunning := true)
  }

  /** The pause button, `gameStatusChanged`. */
  function StatusChangeStep(s: Session): (t: Session)
    ensures s.status == Play || s.status == Ready ==>
      t.status == Pause && t.mood == Thinking && !t.gesturesAttached && !t.timerRunning
    ensures s.status == Pause ==> t.status == Play && t.mood == Grinning && t.gesturesAttached && t.timerRunning
    ensures s.status == End || s.status == Interupted ==> t == s.(timerRunning := false)
    ensures t.scoreCount == s.scoreCount && t.seconds == s.seconds && t.ringTenths == s.ringTenths
    ensures t.numberOfStrokes == s.numberOfStrokes && t.spokenDirection == s.spokenDirection
  {
    var stopped := TimerStopped(s);
    if s.status == Play || s.status == Ready then Paused(stopped)
    else if s.status == Pause then Resumed(stopped)
    else stopped
  }

  /** `removeGestures()`. */
  function Detached(s: Session): Session
  {
    s.(gesturesAttached := false)
  }

  /** The introduction branch of `play()`: the first instructions get the "Swipe " prefix. */
  function IntroductionShown(s: Session): Session
  {
    s.(speakWithSwipe := true)
  }

  /** `play()`: detach the recognizers, then the introduction or the countdown. */
  function PlayStep(s: Session): (t: Session)
    ensures !t.gesturesAttached && t.status == s.status && t.scoreCount == s.scoreCount
    ensures s.showIntroduction && s.status != End ==> t.speakWithSwipe && t.countdown == s.countdown
    ensures !(s.showIntroduction && s.status != End) ==> t.countdown == 4
  {
    var t := Detached(s);
    if t.showIntroduction && t.status != End then IntroductionShown(t) else CountdownBegun(t)
  }

  /** `gameStatus = .end`. */
  function MarkedEnded(s: Session): Session
  {
    s.(status := End)
  }

  /** `restartGame`: a paused game is cleared and marked ended, then `play()`. */
  function RestartStep(s: Session): (t: Session)
    ensures s.status == Pause ==>
      && t.status == End && t.countdown == 4 && t.scoreCount == 0 && t.seconds == 0
      && t.numberOfStrokes == 0 && t.ringTenths == InitialRingTenths && !t.gesturesAttached
    ensures s.status != Pause ==> t == PlayStep(s)
  {
    if s.status == Pause then PlayStep(MarkedEnded(Cleared(s))) else PlayStep(s)
  }

  /** The last tick of the countdown: `t.invalidate()` and `addGestures()`. */
  function CountdownFinished(s: Session): Session
  {
    s.(countdown := 0, gesturesAttached := true)
  }

  /** `i -= 1` on a countdown tick that is not the last. */
  function CountedDown(s: Session): Session
  {
    s.(countdown := s.countdown - 1)
  }

  /**
    One tick of the countdown timer started by `beginCountDown` (it counts
    `i` from 4 down and speaks 3, 2, 1). On the last tick the timer stops,
    the recognizers are attached and, unless the game has ended, the first
    round starts; the 1 Hz timer starts in both cases. The status is never
    changed, so after the countdown a fresh game plays on in `.ready`.
  */
  function CountdownStep(s: Session, r: nat): (t: Session)
    requires r < |Gestures|
    requires s.countdown >= 2
    ensures t.status == s.status && t.scoreCount == s.scoreCount && t.seconds == s.seconds
    ensures s.countdown > 2 ==> t == s.(countdown := s.countdown - 1)
    ensures s.countdown == 2 ==> t.countdown == 0 && t.gesturesAttached && t.timerRunning
    ensures s.countdown == 2 && s.status != End ==> t.roundActive && t.roundStartScore == s.scoreCount
    ensures s.countdown == 2 && s.status == End ==> t.spokenDirection == s.spokenDirection
  {
    if s.countdown - 1 == 1 then
      var t := CountdownFinished(s);
      if t.status != End then TimerStarted(RoundStart(t, r)) else TimerStarted(t)
    else
      CountedDown(s)
  }

  // ---------------------------------------------------------------------------
  // What the handlers promise

  /** Each tick keeps the clock within a game's 60 seconds and the duration at its closed form. */
  lemma {:induction false} TickKeepsClock(s: Session)
    requires 0 <= s.seconds <= GameLengthSeconds && s.ringTenths == RingTenthsAfter(s.seconds)
    ensures var t := TickStep(s);
      0 <= t.seconds <= GameLengthSeconds && t.ringTenths == RingTenthsAfter(t.seconds)
  {
    if s.status != Pause && s.seconds != GameLengthSeconds {
      RingTenthsStep(s.seconds);
    }
  }

  /** On every phrase the game can speak, a tap matches exactly when the phrase was built from "tap". */
  lemma {:induction false} TapMatches(i: nat, sw: bool)
    requires i < |Gestures|
    ensures Contains(Phrase(i, sw), "tap") <==> i == TapIndex
  {
    PhraseMentions(i, sw, TapIndex);
  }

  /** On every phrase the game can speak, a swipe matches exactly when the phrase was built from its direction. */
  lemma {:induction false} SwipeMatches(i: nat, sw: bool, d: SwipeDirection)
    requires i < |Gestures| && d != OtherDirection
    ensures SwipeDelta(Phrase(i, sw), d) == Award(i == DirectionIndex(d))
  {
    PhraseMentions(i, sw, DirectionIndex(d));
  }

  /**
    A tap during the introduction only dismisses it and starts the countdown,
    a tap while paused resumes the game, and a tap after the end does nothing.
  */
  lemma TapOutsidePlay(s: Session)
    ensures s.showIntroduction ==> TapStep(s) == s.(showIntroduction := false, countdown := 4)
    ensures !s.showIntroduction && s.status == Pause ==> TapStep(s) == Resumed(s)
    ensures !s.showIntroduction && s.status == End ==> TapStep(s) == s
  {
  }

  /**
    A handled tap is worth +2 when the instruction was built from "tap" and
    -1 otherwise, and counts one stroke; if the new score triggers the early
    loss the game ends instead, with every counter cleared.
  */
  lemma {:induction false} TapScoring(s: Session, i: nat, sw: bool)
    requires !s.showIntroduction && s.status != Pause && s.status != End
    requires i < |Gestures| && s.spokenDirection == Phrase(i, sw)
    ensures var score := s.scoreCount + Award(i == TapIndex);
      var t := TapStep(s);
      && (!EarlyLoss(s.seconds, score) ==>
            t.scoreCount == Max(score, 0) && t.numberOfStrokes == s.numberOfStrokes + 1 && t.status == s.status)
      && (EarlyLoss(s.seconds, score) ==> t.status == End && t.scoreCount == 0 && t.numberOfStrokes == 0)
  {
    TapMatches(i, sw);
  }

  /**
    A swipe in one of the four directions is worth +2 when the instruction was
    built from that direction and -1 otherwise, any other swipe is worth 0,
    and each counts one stroke. A swipe that triggers the early loss ends the
    game, and because the stroke is counted after the label update the
    cleared stroke count is left at 1.
  */
  lemma {:induction false} SwipeScoring(s: Session, d: SwipeDirection, i: nat, sw: bool)
    requires i < |Gestures| && s.spokenDirection == Phrase(i, sw)
    ensures var score := s.scoreCount + (if d == OtherDirection then 0 else Award(i == DirectionIndex(d)));
      var t := SwipeStep(s, d);
      && (!EarlyLoss(s.seconds, score) ==>
            t.scoreCount == Max(score, 0) && t.numberOfStrokes == s.numberOfStrokes + 1 && t.status == s.status)
      && (EarlyLoss(s.seconds, score) ==> t.status == End && t.scoreCount == 0 && t.numberOfStrokes == 1)
  {
    if d != OtherDirection {
      SwipeMatches(i, sw, d);
    }
  }

  /**
    The changes the handlers pass to the score label: from any session
    satisfying the invariant, a tap, a swipe and an idle-round penalty all
    change the score by -1 or more, so under the rule as written none of
    them shows a face from the losing list.
  */
  lemma {:induction false} NoLosingFaceAsWritten(s: Session, d: SwipeDirection)
    requires Invariant(s)
    ensures ScoreMoodAsWritten(TapScored(s).scoreCount - s.scoreCount) == WinningFace
    ensures ScoreMoodAsWritten(SwipeScored(s, d).scoreCount - s.scoreCount) == WinningFace
    ensures ScoreMoodAsWritten(Docked(s).scoreCount - 0) == WinningFace
  {
    LosingFaceUnreachableAsWritten(TapScored(s).scoreCount - s.scoreCount);
    LosingFaceUnreachableAsWritten(SwipeScored(s, d).scoreCount - s.scoreCount);
    LosingFaceUnreachableAsWritten(Docked(s).scoreCount);
  }

  /**
    A wrong tap in play that does not end the game: as written the label
    picks the winning list (the change is -1, not -2), while the handler
    model, which uses the corrected choice, shows the losing list.
  */
  lemma {:induction false} WrongTapFace(s: Session, i: nat, sw: bool)
    requires !s.showIntroduction && s.status != Pause && s.status != End
    requires i < |Gestures| && i != TapIndex && s.spokenDirection == Phrase(i, sw)
    requires !EarlyLoss(s.seconds, s.scoreCount - 1)
    ensures ScoreMoodAsWritten(TapScored(s).scoreCount - s.scoreCount) == WinningFace
    ensures TapStep(s).mood == LosingFace
  {
    TapMatches(i, sw);
  }

  /** Before the first instruction no gesture matches: a tap or a directed swipe costs a point. */
  lemma {:induction false} NothingMatchesBeforeFirstInstruction(d: SwipeDirection)
    ensures !Contains("", "tap")
    ensures d != OtherDirection ==> SwipeDelta("", d) == -1
  {
    EmptyMentionsNothing(TapIndex);
    if d != OtherDirection {
      EmptyMentionsNothing(DirectionIndex(d));
    }
  }

  /**
    The branch at lines 434-438 of the completion handler is reachable: a
    round without a point after the fifth second, with the score at 0, ends
    the game inside `updateScoreLabel`, and the handler then sets `.play`.
  */
  lemma EndBranchReachable()
    ensures var s := Session(Ready, false, true, Phrase(0, true), 0, 6, 0, 0, InitialRingTenths, LabelIndex(0),
                             Smiling, true, true, 0, true, 0);
      && Invariant(s)
      && Penalized(s).status == End
      && RoundCompletion(s, 0).status == Play
  {
  }

  // ---------------------------------------------------------------------------
  // The session invariant is kept by every handler

  lemma ClearedKeepsInvariant(s: Session)
    requires Coherent(s)
    ensures Invariant(Cleared(s))
  {
  }

  lemma {:induction false} EndedKeepsInvariant(s: Session)
    requires Coherent(s)
    ensures Invariant(Ended(s))
  {
    ClearedKeepsInvariant(Verdict(s));
  }

  lemma {:induction false} ScoreLabelKeepsInvariant(s: Session, initial: int)
    requires Coherent(s)
    ensures Invariant(ScoreLabelUpdate(s, initial))
  {
    var t := WithScoreMood(s, initial);
    if EarlyLoss(t.seconds, t.scoreCount) {
      EndedKeepsInvariant(t);
    }
  }

  lemma RoundStartKeepsInvariant(s: Session, r: nat)
    requires r < |Gestures| && Invariant(s)
    ensures Invariant(RoundStart(s, r))
  {
  }

  lemma {:induction false} RoundCompletionKeepsInvariant(s: Session, restartPick: nat)
    requires restartPick < |Gestures| && Invariant(s)
    ensures Invariant(RoundCompletion(s, restartPick))
  {
    if s.status != Pause && s.status != End && s.scoreCount - s.roundStartScore == 0 {
      ScoreLabelKeepsInvariant(Docked(s), 0);
    }
  }

  lemma {:induction false} TickKeepsInvariant(s: Session)
    requires Invariant(s)
    ensures Invariant(TickStep(s))
  {
    TickKeepsClock(s);
    if s.seconds == GameLengthSeconds {
      EndedKeepsInvariant(TimerStopped(s));
    }
  }

  lemma {:induction false} TapKeepsInvariant(s: Session)
    requires Invariant(s)
    ensures Invariant(TapStep(s))
  {
    if !s.showIntroduction && s.status != Pause && s.status != End {
      ScoreLabelKeepsInvariant(TapScored(s), s.scoreCount);
    }
  }

  lemma {:induction false} SwipeKeepsInvariant(s: Session, d: SwipeDirection)
    requires Invariant(s)
    ensures Invariant(SwipeStep(s, d))
  {
    ScoreLabelKeepsInvariant(SwipeScored(s, d), s.scoreCount);
  }

  lemma StatusChangeKeepsInvariant(s: Session)
    requires Invariant(s)
    ensures Invariant(StatusChangeStep(s))
  {
  }

  lemma RestartKeepsInvariant(s: Session)
    requires Invariant(s)
    ensures Invariant(RestartStep(s))
  {
  }

  lemma CountdownKeepsInvariant(s: Session, r: nat)
    requires r < |Gestures| && s.countdown >= 2 && Invariant(s)
    ensures Invariant(CountdownStep(s, r))
  {
  }

  // ---------------------------------------------------------------------------
  // The ring as the session sees it

  /** The ring's state as the session drives it, including the settings the session never changes. */
  datatype RingState = RingState(value: real, isPaused: bool, pausedValue: Option<real>,
                                 animated: bool, duration: real,
                                 maxValue: real, outerRingCapStyle: int, innerRingCapStyle: int)

  /** `ringView.pause()`. */
  function RingPaused(rs: RingState, animating: bool): RingState
  {
    rs.(isPaused := true, pausedValue := if animating then rs.pausedValue else Some(rs.value))
  }

  /** `startRing`'s two `setProgress` calls, the second running over the round duration. */
  function RingRestarted(rs: RingState, tenths: int): RingState
  {
    rs.(value := 100.0, animated := tenths > 0, duration := tenths as real / 10.0)
  }

  // ---------------------------------------------------------------------------
  // The session object

  class GameSession {
    var status: GameStatus
    var showIntroduction: bool
    var speakWithSwipe: bool
    var spokenDirection: string
    var scoreCount: int
    var seconds: int
    var numberOfStrokes: int
    var scoreRecord: int
    var ringTenths: int
    var actionLabelIndex: int
    var mood: Mood
    var gesturesAttached: bool
    var timerRunning: bool
    var countdown: int
    var roundActive: bool
    var roundStartScore: int
    const ring: ProgressRingView

    function Snapshot(): Session
      reads this
    {
      Session(status, showIntroduction, speakWithSwipe, spokenDirection, scoreCount, seconds,
              numberOfStrokes, scoreRecord, ringTenths, actionLabelIndex, mood, gesturesAttached,
              timerRunning, countdown, roundActive, roundStartScore)
    }

    ghost function Ring(): RingState
      reads ring
    {
      RingState(ring.value, ring.isPaused, ring.pausedValue, ring.layerAnimated, ring.layerAnimationDuration,
                ring.maxValue, ring.outerRingCapStyle, ring.innerRingCapStyle)
    }

    /** The session invariant except the score bound, read off the fields (it is `Coherent(Snapshot())`). */
    ghost predicate Consistent()
      reads this, ring
    {
      ring.Valid() && CoherentFields(seconds, ringTenths, numberOfStrokes, countdown)
    }

    /** The session invariant, read off the fields (it is `Invariant(Snapshot())`). */
    ghost predicate Valid()
      reads this, ring
    {
      Consistent() && scoreCount >= 0
    }

    /** The field-level invariant is the session invariant of the snapshot. */
    lemma ValidIsInvariant()
      ensures Valid() <==> ring.Valid() && Invariant(Snapshot())
    {
    }

    /** A freshly created view controller whose view has loaded (the recognizers are attached). */
    constructor ()
      ensures Valid() && fresh(ring)
      ensures Snapshot() == Session(Ready, true, true, "", 0, 0, 0, 0, InitialRingTenths, -1, Smiling,
                                    true, false, 0, false, 0)
      ensures Ring() == RingState(0.0, false, None, false, 0.0, 100.0, 1, 2)
    {
      status := Ready;
      showIntroduction := true;
      speakWithSwipe := true;
      spokenDirection := "";
      scoreCount, seconds, numberOfStrokes, scoreRecord := 0, 0, 0, 0;
      ringTenths := InitialRingTenths;
      actionLabelIndex := -1;
      mood := Smiling;
      gesturesAttached := true;
      timerRunning := false;
      countdown := 0;
      roundActive, roundStartScore := false, 0;
      ring := new ProgressRingView();
    }

    method RemoveChildren()
      requires Consistent()
      modifies this
      ensures Valid()
      ensures Snapshot() == Cleared(old(Snapshot()))
    {
      ZeroCounters();
      ResetClock();
      Halt();
    }

    method ZeroCounters()
      requires Consistent()
      modifies this
      ensures Valid()
      ensures Snapshot() == Zeroed(old(Snapshot()))
    {
      scoreCount, numberOfStrokes, scoreRecord := 0, 0, 0;
    }

    method ResetClock()
      requires Valid()
      modifies this
      ensures Valid()
      ensures Snapshot() == ClockReset(old(Snapshot()))
    {
      seconds, ringTenths := 0, InitialRingTenths;
    }

    method Halt()
      requires Valid()
      modifies this
      ensures Valid()
      ensures Snapshot() == Halted(old(Snapshot()))
    {
      timerRunning, gesturesAttached := false, false;
    }

    /** The start of `gameEnded`: `.end`, the ring paused, the verdict face. */
    method ShowVerdict(ringAnimating: bool)
      requires Consistent()
      modifies this, ring
      ensures Consistent()
      ensures Snapshot() == Verdict(old(Snapshot()))
      ensures Ring() == RingPaused(old(Ring()), ringAnimating)
    {
      status := End;
      // Once `isPaused` is set the presentation value is never read, so any value stands for it.
      ring.Pause(ringAnimating, None);
      if scoreCount > WellPlayedAbove {
        mood := Angry;
      } else {
        mood := Laughing;
      }
    }

    /**
      `gameEnded`. The ring is paused; `ringAnimating` stands for whether an
      animation is attached to its layer at that moment.
    */
    method GameEnded(ringAnimating: bool)
      requires Consistent()
      modifies this, ring
      ensures Valid()
      ensures Snapshot() == Ended(old(Snapshot()))
      ensures Ring() == RingPaused(old(Ring()), ringAnimating)
    {
      ShowVerdict(ringAnimating);
      RemoveChildren();
    }

    method ShowScoreMood(initial: int)
      requires Consistent()
      modifies this
      ensures Consistent()
      ensures Snapshot() == WithScoreMood(old(Snapshot()), initial)
    {
      mood := ScoreMood(scoreCount - initial);
    }

    method ClampScore()
      requires Consistent()
      modifies this
      ensures Valid()
      ensures Snapshot() == Clamped(old(Snapshot()))
    {
      scoreCount := if scoreCount <= 0 then 0 else scoreCount;
    }

    method UpdateScoreLabel(initial: int, ringAnimating: bool)
      requires Consistent()
      modifies this, ring
      ensures Valid()
      ensures Snapshot() == ScoreLabelUpdate(old(Snapshot()), initial)
      ensures Ring() == if EarlyLoss(old(seconds), old(scoreCount)) then RingPaused(old(Ring()), ringAnimating)
                        else old(Ring())
    {
      ShowScoreMood(initial);
      if seconds > EarlyLossAfterSeconds && scoreCount <= 0 {
        GameEnded(ringAnimating);
      } else {
        ClampScore();
      }
    }

    /** `speakRandomDirection` with random pick `r`; the utterance itself goes to the speech synthesizer. */
    method SpeakRandomDirection(r: nat)
      requires Valid() && r < |Gestures|
      modifies this
      ensures Valid()
      ensures Snapshot() == Announce(old(Snapshot()), r)
    {
      var previous := spokenDirection;
      var n := r;
      spokenDirection := Phrase(n, speakWithSwipe);
      if spokenDirection == previous && seconds < 10 {
        n := if n != 0 then n - 1 else 1;
        spokenDirection := Phrase(n, speakWithSwipe);
      }
      actionLabelIndex := LabelIndex(n);
    }

    method BeginRound(initial: int)
      requires Valid()
      modifies this
      ensures Valid()
      ensures Snapshot() == RoundBegun(old(Snapshot()), initial)
    {
      roundActive := true;
      roundStartScore := initial;
    }

    /** `startRing`: the reset to 0 and the run to 100 over the round duration are folded into one call. */
    method StartRing(r: nat)
      requires Valid() && r < |Gestures|
      modifies this, ring
      ensures Valid()
      ensures Snapshot() == RoundStart(old(Snapshot()), r)
      ensures Ring() == RingRestarted(old(Ring()), old(ringTenths))
    {
      var initial := scoreCount;
      if status != Pause && status != End {
        SpeakRandomDirection(r);
      }
      ring.SetProgress(0.0, 0.1);
      ring.SetProgress(100.0, ringTenths as real / 10.0);
      BeginRound(initial);
    }

    method DockPoint()
      requires Valid()
      modifies this
      ensures Consistent()
      ensures Snapshot() == Docked(old(Snapshot()))
    {
      scoreCount := scoreCount - 1;
    }

    /** Lines 428-432: a round without a score change costs a point, then the label update. */
    method PenalizeIdleRound()
      requires Valid()
      modifies this, ring
      ensures Valid()
      ensures Snapshot() == Penalized(old(Snapshot()))
      ensures Ring() == if EarlyLoss(old(seconds), old(scoreCount) - 1) then RingPaused(old(Ring()), false) else old(Ring())
    {
      DockPoint();
      UpdateScoreLabel(0, false);
    }

    method SetPlaying()
      requires Valid()
      modifies this
      ensures Valid()
      ensures Snapshot() == Playing(old(Snapshot()))
    {
      status := GameStatus.Play;
    }

    /** Lines 434-438: the game ended inside the label update; a new instruction and `.play`. */
    method RestartAfterLoss(restartPick: nat)
      requires Valid() && restartPick < |Gestures|
      modifies this
      ensures Valid()
      ensures Snapshot() == Relaunched(old(Snapshot()), restartPick)
    {
      SpeakRandomDirection(restartPick);
      SetPlaying();
    }

    /**
      The ring reached 100 for the round in flight. The animation has just
      finished, so none is attached if the game ends here. `restartPick` is
      the random pick of the announcement at line 436, `nextPick` that of the
      next round.
    */
    method RoundCompleted(restartPick: nat, nextPick: nat)
      requires Valid() && roundActive && restartPick < |Gestures| && nextPick < |Gestures|
      modifies this, ring
      ensures Valid()
      ensures Snapshot() == RoundStart(RoundCompletion(old(Snapshot()), restartPick), nextPick)
      ensures var penalized := old(status) != Pause && old(status) != End && old(scoreCount) == old(roundStartScore);
        var before := if penalized && EarlyLoss(old(seconds), old(scoreCount) - 1) then RingPaused(old(Ring()), false)
                      else old(Ring());
        Ring() == RingRestarted(before, RoundCompletion(old(Snapshot()), restartPick).ringTenths)
    {
      if status != Pause && status != End {
        if scoreCount - roundStartScore == 0 {
          PenalizeIdleRound();
        }
        if status == End {
          RestartAfterLoss(restartPick);
        }
      }
      StartRing(nextPick);
    }

    method StopTimer()
      requires Valid()
      modifies this
      ensures Valid()
      ensures Snapshot() == TimerStopped(old(Snapshot()))
    {
      timerRunning := false;
    }

    method StartTimer()
      requires Valid()
      modifies this
      ensures Valid()
      ensures Snapshot() == TimerStarted(old(Snapshot()))
    {
      timerRunning := true;
    }

    /** The first case of `updateTimer`. */
    method AdvanceClock()
      requires Valid() && seconds != GameLengthSeconds
      modifies this
      ensures Valid()
      ensures Snapshot() == Advanced(old(Snapshot()))
    {
      var next := seconds + 1;
      RingTenthsStep(seconds);
      seconds, speakWithSwipe := next, next < 10;
      ringTenths := if next % 10 == 0 && next != GameLengthSeconds then ringTenths - 2 else ringTenths;
    }

    /** `updateTimer`; the 1 Hz timer fires only while scheduled. */
    method Tick(ringAnimating: bool)
      requires Valid() && timerRunning
      modifies this, ring
      ensures Valid()
      ensures Snapshot() == TickStep(old(Snapshot()))
      ensures Ring() == if old(seconds) == GameLengthSeconds then RingPaused(old(Ring()), ringAnimating)
                        else old(Ring())
    {
      if status != Pause && seconds != GameLengthSeconds {
        AdvanceClock();
      } else if seconds == GameLengthSeconds {
        StopTimer();
        GameEnded(ringAnimating);
      } else {
        StopTimer();
      }
    }

    method BeginCountDown()
      requires Valid()
      modifies this
      ensures Valid()
      ensures Snapshot() == CountdownBegun(old(Snapshot()))
    {
      countdown := 4;
    }

    method FinishCountdown()
      requires Valid()
      modifies this
      ensures Valid()
      ensures Snapshot() == CountdownFinished(old(Snapshot()))
    {
      countdown := 0;
      gesturesAttached := true;
    }

    method CountDown()
      requires Valid() && countdown > 2
      modifies this
      ensures Valid()
      ensures Snapshot() == CountedDown(old(Snapshot()))
    {
      countdown := countdown - 1;
    }

    /** One tick of the countdown timer; `r` is the random pick of the first round. */
    method CountdownTick(r: nat)
      requires Valid() && countdown >= 2 && r < |Gestures|
      modifies this, ring
      ensures Valid()
      ensures Snapshot() == CountdownStep(old(Snapshot()), r)
      ensures old(countdown) == 2 && old(status) != End ==> Ring() == RingRestarted(old(Ring()), old(ringTenths))
      ensures old(countdown) == 2 && old(status) == End ==> Ring() == old(Ring()).(value := 0.0)
      ensures old(countdown) > 2 ==> Ring() == old(Ring())
    {
      if countdown - 1 == 1 {
        FinishCountdown();
        if status != End {
          StartRing(r);
          StartTimer();
        } else {
          ring.Stop();
          StartTimer();
        }
      } else {
        CountDown();
      }
    }

    method DismissIntroduction()
      requires Valid()
      modifies this
      ensures Valid()
      ensures Snapshot() == IntroductionDismissed(old(Snapshot()))
    {
      showIntroduction := false;
    }

    /** The scoring of a handled tap in `touchesBegan`. */
    method ScoreTap()
      requires Valid()
      modifies this
      ensures Consistent()
      ensures Snapshot() == TapScored(old(Snapshot()))
    {
      if Contains(spokenDirection, "tap") {
        scoreCount := scoreCount + 2;
      } else {
        scoreCount := scoreCount - 1;
      }
      numberOfStrokes := numberOfStrokes + 1;
    }

    /** `touchesBegan`. */
    method Tap(ringAnimating: bool)
      requires Valid()
      modifies this, ring
      ensures Valid()
      ensures Snapshot() == TapStep(old(Snapshot()))
      ensures Ring() == if old(showIntroduction) then old(Ring())
                        else if old(status) == Pause then old(Ring()).(isPaused := false)
                        else if old(status) != End && EarlyLoss(old(seconds), TapScored(old(Snapshot())).scoreCount)
                        then RingPaused(old(Ring()), ringAnimating)
                        else old(Ring())
    {
      if showIntroduction {
        DismissIntroduction();
        BeginCountDown();
      } else if status == Pause {
        ResumeGame();
      } else if status != Pause && status != End {
        var initial := scoreCount;
        ScoreTap();
        UpdateScoreLabel(initial, ringAnimating);
      }
    }

    /**
      The direction cases of `respondToSwipeGesture`, which differ only in
      the word they look for (`DirectionWord`).
    */
    method ScoreSwipe(direction: SwipeDirection)
      requires Valid()
      modifies this
      ensures Consistent()
      ensures Snapshot() == SwipeScored(old(Snapshot()), direction)
    {
      if direction != OtherDirection {
        if Contains(spokenDirection, DirectionWord(direction)) {
          scoreCount := scoreCount + 2;
        } else {
          scoreCount := scoreCount - 1;
        }
      }
    }

    method CountStroke()
      requires Valid()
      modifies this
      ensures Valid()
      ensures Snapshot() == Stroked(old(Snapshot()))
    {
      numberOfStrokes := numberOfStrokes + 1;
    }

    /** `respondToSwipeGesture`; a swipe arrives only while the recognizers are attached. */
    method Swipe(direction: SwipeDirection, ringAnimating: bool)
      requires Valid() && gesturesAttached
      modifies this, ring
      ensures Valid()
      ensures Snapshot() == SwipeStep(old(Snapshot()), direction)
      ensures Ring() == if EarlyLoss(old(seconds), SwipeScored(old(Snapshot()), direction).scoreCount)
                        then RingPaused(old(Ring()), ringAnimating)
                        else old(Ring())
    {
      var initial := scoreCount;
      ScoreSwipe(direction);
      UpdateScoreLabel(initial, ringAnimating);
      CountStroke();
    }

    method PauseGame(ringAnimating: bool)
      requires Valid()
      modifies this, ring
      ensures Valid()
      ensures Snapshot() == Paused(old(Snapshot()))
      ensures Ring() == RingPaused(old(Ring()), ringAnimating)
    {
      ShowPaused();
      ring.Pause(ringAnimating, None);
    }

    /** The session side of `pauseGame`: `.pause`, the thinking face, the recognizers removed. */
    method ShowPaused()
      requires Valid()
      modifies this
      ensures Valid()
      ensures Snapshot() == Paused(old(Snapshot()))
    {
      status, mood, gesturesAttached := Pause, Thinking, false;
    }

    method ResumeGame()
      requires Valid()
      modifies this, ring
      ensures Valid()
      ensures Snapshot() == Resumed(old(Snapshot()))
      ensures Ring() == old(Ring()).(isPaused := false)
    {
      ShowResumed();
      ring.Resume();
    }

    /** The session side of `resumeGame`: `.play`, the grinning face, the recognizers and the 1 Hz timer back. */
    method ShowResumed()
      requires Valid()
      modifies this
      ensures Valid()
      ensures Snapshot() == Resumed(old(Snapshot()))
    {
      status, mood := GameStatus.Play, Grinning;
      gesturesAttached, timerRunning := true, true;
    }

    /** The pause button's action, `gameStatusChanged`. */
    method GameStatusChanged(ringAnimating: bool)
      requires Valid()
      modifies this, ring
      ensures Valid()
      ensures Snapshot() == StatusChangeStep(old(Snapshot()))
      ensures Ring() == if old(status) == GameStatus.Play || old(status) == Ready then RingPaused(old(Ring()), ringAnimating)
                        else if old(status) == Pause then old(Ring()).(isPaused := false)
                        else old(Ring())
    {
      StopTimer();
      if status == GameStatus.Play || status == Ready {
        PauseGame(ringAnimating);
      } else if status == Pause {
        ResumeGame();
      }
    }

    method RemoveGestures()
      requires Valid()
      modifies this
      ensures Valid()
      ensures Snapshot() == Detached(old(Snapshot()))
    {
      gesturesAttached := false;
    }

    method ShowIntroduction()
      requires Valid()
      modifies this
      ensures Valid()
      ensures Snapshot() == IntroductionShown(old(Snapshot()))
    {
      speakWithSwipe := true;
    }

    /** `play()`; the introduction view itself is presentation only. */
    method Play()
      requires Valid()
      modifies this
      ensures Valid()
      ensures Snapshot() == PlayStep(old(Snapshot()))
    {
      RemoveGestures();
      if showIntroduction && status != End {
        ShowIntroduction();
      } else {
        BeginCountDown();
      }
    }

    method MarkEnded()
      requires Valid()
      modifies this
      ensures Valid()
      ensures Snapshot() == MarkedEnded(old(Snapshot()))
    {
      status := End;
    }

    method RestartGame()
      requires Valid()
      modifies this
      ensures Valid()
      ensures Snapshot() == RestartStep(old(Snapshot()))
    {
      if status == Pause {
        RemoveChildren();
        MarkEnded();
      }
      Play();
    }
  }
}
