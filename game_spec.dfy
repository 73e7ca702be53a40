/** The gameplay state of `RhythmGame` (game.js) as a value, and one function
    per operation that says what the operation does to it. A `setTimeout`
    the operation schedules is returned as a `Timer`, in scheduling order;
    the host later runs the matching continuation. Each function requires
    only what the source needs in order not to fail; the facts the game
    keeps between operations are `Inv`, proved in `GameInvariant`. */
module GameSpec {
  import opened Wrappers
  import opened Labels
  import opened Beats
  import opened Stages
  import opened Experience
  import BpmCalculator
  import RhythmLibrary

  /** The `setTimeout` continuations of the game logic. */
  datatype Timer =
    | ClearCooldown               // `cycleJustCompleted = false` after 500 ms
    | SettleAfterMiss             // the attempt ends 500 ms after a round miss
    | StageHandoff                // `loadNextPattern` after the 2 s glow
    | EndVictoryHold              // the 500 ms hold after the comet
    | LevelUp(overflow: int)      // `handleLevelUp(overflow)` after 1.6 s
    | ResetXP(overflow: int)      // the level-up effect ends after 2 s
    | ApplyOverflow(overflow: int) // the overflow is re-added after 100 ms

  /** Every gameplay field of `RhythmGame`; DOM references and clocks are
      left out, and `revealPercent` stands for the radius of the reveal
      circle (radius = percent / 100 * 185). */
  datatype GameView = GameView(
    currentChallenge: Option<RhythmLibrary.Challenge>,
    bpmCalc: Option<BpmCalculator.Calculator>,
    currentAngle: real,
    isRunning: bool,
    beatsInCycle: seq<Beat>,
    cycleJustCompleted: bool,
    roundStartAngle: Option<real>,
    roundMissTriggered: bool,
    centerRotationAngle: real,
    currentPattern: int,
    originalPatternBeats: seq<Label>,
    currentMilestone: int,
    currentDifficulty: int,
    revealPercent: real,
    currentPatternKey: Option<string>,
    isRevealing: bool,
    revealedBeats: set<Label>,
    isVictoryHold: bool,
    victoryComplete: bool,
    totalCompletedRhythms: int,
    cometAnimating: bool,
    cometAngle: real,
    cometStartAngle: real,
    firstTapMade: bool,
    centerRotationSpeed: real,
    currentXPLevel: int,
    currentXP: int)

  /** The state after an operation and the timers it scheduled. */
  datatype Step = Step(game: GameView, timers: seq<Timer>)

  /** `beatRotationOffset`: set to 0 and never changed. */
  const BeatRotationOffset: nat := 0

  /** The state the constructor leaves (`victoryComplete` is first read as
      `undefined`, which is falsy). */
  function Initial(): (g: GameView)
    ensures Inv(g)
    ensures !g.isRunning && g.beatsInCycle == [] && g.currentMilestone == 0 && g.currentPattern == 1
    ensures g.currentXPLevel == 1 && g.currentXP == 0 && g.currentDifficulty == 4
  {
    GameView(None, None, 0.0, false, [], false, None, false, 0.0, 1, [], 0, 4, 0.0, None,
             false, {}, false, false, 0, false, 0.0, 0.0, false, 0.0, 1, 0)
  }

  /** The facts the game keeps between operations. */
  ghost predicate Inv(g: GameView)
  {
    ScalarInv(g)
    && BeatsFit(g.beatsInCycle, g.currentMilestone, g.isRevealing, |g.originalPatternBeats|)
  }

  /** The invariant's facts about the scalar fields. */
  ghost predicate ScalarInv(g: GameView)
  {
    && 0 <= g.currentMilestone <= 4
    && 1 <= g.currentPattern <= 3
    && 0.0 <= g.currentAngle < 360.0
    && (g.roundStartAngle.Some? ==> 0.0 <= g.roundStartAngle.value < 360.0)
    && (g.isRunning ==> g.bpmCalc.Some?)
    && (g.bpmCalc.Some? ==> g.bpmCalc.value.rotationSpeed > 0.0)
    && 1 <= g.currentXPLevel <= 7
    && 0.0 <= g.revealPercent <= 100.0
  }

  /** The invariant's facts about the beats: they are valid, there is one
      per stored pattern label, a reveal only runs in milestone 0, and in a
      counting milestone every beat is at its base or its target state
      (all gone after the last). */
  ghost predicate BeatsFit(beats: seq<Beat>, m: int, revealing: bool, n: nat)
  {
    && AllValid(beats)
    && |beats| == n
    && (revealing && |beats| > 0 ==> m == 0)
    && (1 <= m <= 3 ==> AllIn(beats, MilestoneConfigs(m).baseState, MilestoneConfigs(m).targetState))
    && (m == 4 ==> AllAt(beats, Gone))
  }

  /** The milestone configuration in force. */
  function Config(g: GameView): MilestoneConfig
    requires 0 <= g.currentMilestone <= 3
  {
    MilestoneConfigs(g.currentMilestone)
  }

  /** `challenge.difficulty || 4`. */
  function ChallengeDifficulty(c: RhythmLibrary.Challenge): (d: int)
    ensures c.difficulty.Some? && c.difficulty.value != 0 ==> d == c.difficulty.value
    ensures c.difficulty.None? || c.difficulty.value == 0 ==> d == 4
  {
    if c.difficulty.Some? && c.difficulty.value != 0 then c.difficulty.value else 4
  }

  /** `loadChallenge(challenge)` followed by its first `animate()` frame,
      `delta` seconds later. */
  function LoadChallenge(g: GameView, c: RhythmLibrary.Challenge, early: seq<bool>, delta: real): Step
    requires |early| >= |c.enabledBeats|
  {
    Frame(ResetForChallenge(g, c, early), delta)
  }

  /** What `loadChallenge` sets before it starts the frame loop: the tempo
      is stage 1's, whatever `challenge.bpm` says. */
  function ResetForChallenge(g: GameView, c: RhythmLibrary.Challenge, early: seq<bool>): (r: GameView)
    requires |early| >= |c.enabledBeats|
    ensures FrameAllowed(r)
  {
    g.(isRunning := true, isVictoryHold := false, victoryComplete := false,
       roundStartAngle := None, roundMissTriggered := false, centerRotationAngle := 0.0,
       firstTapMade := false, centerRotationSpeed := 0.0, cometAnimating := false,
       currentPattern := 1, currentMilestone := 0, revealPercent := PatternConfigOf(1).startPercent,
       currentAngle := 0.0, currentChallenge := Some(c), currentDifficulty := ChallengeDifficulty(c),
       originalPatternBeats := c.enabledBeats,
       bpmCalc := Some(BpmCalculator.Create(PatternConfigOf(1).bpm)),
       cycleJustCompleted := false,
       beatsInCycle := MakeBeats(c.enabledBeats, early, Hidden, BeatRotationOffset),
       revealedBeats := {}, isRevealing := true)
  }

  /** What a frame of `animate` needs: a calculator while running and,
      outside the reveal, a milestone and a stage that have configurations
      (the source dereferences `undefined` otherwise). */
  predicate FrameAllowed(g: GameView)
  {
    g.isRunning ==>
      && g.bpmCalc.Some?
      && 1 <= g.currentPattern <= 3
      && (!g.isRevealing ==> 0 <= g.currentMilestone <= 3)
  }

  /** One frame of `animate`, `delta` seconds after the previous one. */
  function Frame(g: GameView, delta: real): Step
    requires FrameAllowed(g)
  {
    FrameBy(g, ScannerTravel(g, delta), FogTravel(g, delta))
  }

  /** How far the center fog turns in `delta` seconds. */
  function FogTravel(g: GameView, delta: real): real
  {
    g.centerRotationSpeed * delta
  }

  /** How far the scanner turns in `delta` seconds. */
  function ScannerTravel(g: GameView, delta: real): real
  {
    if g.bpmCalc.Some? then g.bpmCalc.value.rotationSpeed * delta else 0.0
  }

  /** A frame in which the scanner, if running, turns `step` degrees and the
      center fog, if turning, `turn` degrees. */
  function FrameBy(g: GameView, step: real, turn: real): Step
    requires FrameAllowed(g)
  {
    if !g.isRunning && !g.isVictoryHold then Step(g, [])
    else
      var g1 := CenterRotation(g, turn);
      if !g1.isRunning then Step(g1, [])
      else Advance(g1, step)
  }

  /** The running part of a frame: the scanner moves on by `step` degrees,
      then either reveals or scores. */
  function Advance(g: GameView, step: real): Step
    requires FrameAllowed(g) && g.isRunning
  {
    if g.isRevealing then RevealFrame(g.(currentAngle := g.currentAngle + step))
    else ScanAdvance(g, step)
  }

  /** The scoring part of a frame: the scanner moves on by `step` degrees,
      wraps once at 360, and the scoring checks run. */
  function ScanAdvance(g: GameView, step: real): Step
    requires 0 <= g.currentMilestone <= 3 && 1 <= g.currentPattern <= 3
  {
    ScanFrame(g.(currentAngle := WrapOnce(g.currentAngle + step)))
  }

  /** The single subtraction that wraps the scanner after a scoring step. */
  function WrapOnce(a: real): real
  {
    if a >= 360.0 then a - 360.0 else a
  }

  /** `updateCenterRotation`: the fog turns only after the first tap and not
      during a victory hold, wrapping once at 360. */
  function CenterRotation(g: GameView, turn: real): (r: GameView)
    ensures r.isRunning == g.isRunning && r.isRevealing == g.isRevealing && r.bpmCalc == g.bpmCalc
    ensures r.currentPattern == g.currentPattern && r.currentMilestone == g.currentMilestone
  {
    if g.isVictoryHold || !g.firstTapMade then g
    else
      var a := g.centerRotationAngle + turn;
      g.(centerRotationAngle := if a >= 360.0 then a - 360.0 else a)
  }

  /** A reveal frame, the scanner already advanced: beats it reached turn
      silver; from 345 degrees on the reveal ends (`angle - 360`, plus 360
      again if that is negative), every beat is silver, milestone 1 starts
      and the completion cooldown is armed. */
  function RevealFrame(g: GameView): Step
  {
    var revealed := RevealFrom(g.beatsInCycle, g.revealedBeats, g.currentAngle, 0);
    var g1 := g.(beatsInCycle := revealed.0, revealedBeats := revealed.1);
    if g.currentAngle >= 345.0 then
      var a1 := g.currentAngle - 360.0;
      Step(g1.(currentAngle := if a1 < 0.0 then a1 + 360.0 else a1, isRevealing := false,
               beatsInCycle := SetAllState(revealed.0, Silver), currentMilestone := 1,
               cycleJustCompleted := true), [ClearCooldown])
    else Step(g1, [])
  }

  /** A scoring frame, the scanner already advanced and wrapped:
      `checkForMisses` and then `checkForCompleteCycle`. */
  function ScanFrame(g: GameView): Step
    requires 0 <= g.currentMilestone <= 3 && 1 <= g.currentPattern <= 3
  {
    var s1 := CheckForMisses(g);
    var s2 := CheckForCompleteCycle(s1.game);
    Step(s2.game, s1.timers + s2.timers)
  }

  /** The beat-miss test of `checkForMisses` in the current state. */
  predicate MissDue(g: GameView)
    requires 0 <= g.currentMilestone <= 3
  {
    && g.roundStartAngle.Some?
    && !g.roundMissTriggered
    && AnyMissed(g.beatsInCycle, Config(g).baseState, g.currentAngle, g.roundStartAngle.value,
                 MissWindow(g.currentDifficulty))
  }

  /** `checkForMisses`: once per attempt, a beat still at the base state that
      the scanner passed by more than the miss window is a round miss. */
  function CheckForMisses(g: GameView): (r: Step)
    requires 0 <= g.currentMilestone <= 3 && 1 <= g.currentPattern <= 3
    ensures r.game.currentMilestone == g.currentMilestone && r.game.currentPattern == g.currentPattern
    ensures r.game.isRevealing == g.isRevealing
  {
    if MissDue(g) then RoundMiss(g.(roundMissTriggered := true)) else Step(g, [])
  }

  /** `checkForCompleteCycle`: every beat at the target and no cooldown
      running means a perfect cycle, followed by a 500 ms cooldown. */
  function CheckForCompleteCycle(g: GameView): Step
    requires 0 <= g.currentMilestone <= 3
  {
    if AllAt(g.beatsInCycle, Config(g).targetState) && !g.cycleJustCompleted then
      var s := PerfectCycle(g.(cycleJustCompleted := true));
      Step(s.game, s.timers + [ClearCooldown])
    else Step(g, [])
  }

  /** What a tap needs when it is not ignored: a milestone and a stage that
      have configurations. */
  predicate TapAllowed(g: GameView)
  {
    !g.isRevealing && !g.isVictoryHold ==> 0 <= g.currentMilestone <= 3 && 1 <= g.currentPattern <= 3
  }

  /** The beat a tap hits: the first beat at the base state within the tap
      window of the scanner. */
  function TapTarget(g: GameView): Option<nat>
    requires 0 <= g.currentMilestone <= 3
  {
    FirstHit(g.beatsInCycle, Config(g).baseState, g.currentAngle, TapTolerance(g.currentDifficulty), 0)
  }

  /** `handleTap`. */
  function Tap(g: GameView): Step
    requires TapAllowed(g)
  {
    if g.isRevealing || g.isVictoryHold then Step(g, [])
    else
      match TapTarget(g)
      case Some(i) => Step(OnBeatHit(g, i), [])
      case None =>
        if g.roundStartAngle.Some? then RoundMiss(g.(roundMissTriggered := true)) else Step(g, [])
  }

  /** The center fog's speed, fixed by the first successful tap: half the
      scanner's, or 45 without a calculator. */
  function FirstTapSpeed(g: GameView): real
  {
    if g.bpmCalc.Some? then g.bpmCalc.value.rotationSpeed * 0.5 else 45.0
  }

  /** `onBeatHit(beatsInCycle[i])`. */
  function OnBeatHit(g: GameView, i: nat): GameView
    requires 0 <= g.currentMilestone <= 3 && 1 <= g.currentPattern <= 3 && i < |g.beatsInCycle|
  {
    var g2 := BeginHit(g);
    UpdateRevealMask(g2.(beatsInCycle := g2.beatsInCycle[i := HitBeat(g2.beatsInCycle[i], Config(g2))]))
  }

  /** The bookkeeping of `onBeatHit` before the beat changes: the first tap
      starts the center fog, and the first hit of an attempt starts the
      round. */
  function BeginHit(g: GameView): (r: GameView)
    requires 0 <= g.currentMilestone <= 3
    ensures r.beatsInCycle == g.beatsInCycle
    ensures r.currentPattern == g.currentPattern && r.currentMilestone == g.currentMilestone
  {
    RoundStart(FirstTap(g))
  }

  /** The first successful tap fixes the fog's speed. */
  function FirstTap(g: GameView): (r: GameView)
    ensures r.beatsInCycle == g.beatsInCycle
    ensures r.currentPattern == g.currentPattern && r.currentMilestone == g.currentMilestone
  {
    if !g.firstTapMade then g.(firstTapMade := true, centerRotationSpeed := FirstTapSpeed(g)) else g
  }

  /** A hit when no attempt is running starts one. */
  function RoundStart(g: GameView): (r: GameView)
    requires 0 <= g.currentMilestone <= 3
    ensures r.beatsInCycle == g.beatsInCycle
    ensures r.currentPattern == g.currentPattern && r.currentMilestone == g.currentMilestone
  {
    if g.roundStartAngle.None? then StartRound(g) else g
  }

  /** The first hit of an attempt records where it started; in the last
      milestone it also launches the comet from there. */
  function StartRound(g: GameView): (r: GameView)
    requires 0 <= g.currentMilestone <= 3
    ensures r.beatsInCycle == g.beatsInCycle
    ensures r.currentPattern == g.currentPattern && r.currentMilestone == g.currentMilestone
  {
    var g1 := g.(roundStartAngle := Some(g.currentAngle));
    if Config(g).targetState == Gone then StartComet(g1, g.currentAngle) else g1
  }

  /** `updateRevealMask`: in a counting milestone the reveal grows with the
      number of beats at the target. */
  function UpdateRevealMask(g: GameView): GameView
    requires 0 <= g.currentMilestone <= 3 && 1 <= g.currentPattern <= 3 && |g.beatsInCycle| > 0
  {
    if Config(g).isReveal then g
    else g.(revealPercent := RevealPercent(g.currentPattern, g.currentMilestone,
                                           CountAt(g.beatsInCycle, Config(g).targetState), |g.beatsInCycle|))
  }

  /** The start of `startCometAnimation(startAngle)`. */
  function StartComet(g: GameView, startAngle: real): GameView
  {
    g.(cometStartAngle := startAngle, cometAngle := startAngle, cometAnimating := true)
  }

  /** `cancelCometAnimation`. */
  function CancelComet(g: GameView): GameView
  {
    if !g.cometAnimating then g else g.(cometAnimating := false)
  }

  /** What completing the comet needs: when some beat is not gone (a round
      miss follows), a milestone and a stage that have configurations. */
  predicate CometAllowed(g: GameView)
  {
    !AllAt(g.beatsInCycle, Gone) ==> 0 <= g.currentMilestone <= 3 && 1 <= g.currentPattern <= 3
  }

  /** One comet frame, `delta` seconds after the previous one: the comet
      moves at the scanner's speed (90 without a calculator) and completes
      once it has travelled a full turn from where it started. */
  function CometTick(g: GameView, delta: real): Step
    requires CometAllowed(g)
  {
    CometMove(g, CometReach(g, delta))
  }

  /** Where the comet is after flying for `delta` seconds. */
  function CometReach(g: GameView, delta: real): real
  {
    g.cometAngle + CometTravel(g, delta)
  }

  /** How far the comet flies in `delta` seconds. */
  function CometTravel(g: GameView, delta: real): real
  {
    (if g.bpmCalc.Some? then g.bpmCalc.value.rotationSpeed else 90.0) * delta
  }

  /** A comet frame in which the comet, if flying, reaches the angle `a`. */
  function CometMove(g: GameView, a: real): Step
    requires CometAllowed(g)
  {
    if !g.cometAnimating then Step(g, []) else CometAt(g, a)
  }

  /** The comet reached the angle `a`. */
  function CometAt(g: GameView, a: real): Step
    requires CometAllowed(g)
  {
    if a - g.cometStartAngle >= 360.0 then CompleteComet(g.(cometAngle := a)) else Step(g.(cometAngle := a), [])
  }

  /** `completeCometAnimation`: with every beat gone the stage ends after a
      victory hold; otherwise the comet beat the player and the round is
      missed. */
  function CompleteComet(g: GameView): Step
    requires CometAllowed(g)
  {
    var g1 := g.(cometAnimating := false);
    if AllAt(g1.beatsInCycle, Gone) then
      Step(g1.(isRunning := false, isVictoryHold := true), [EndVictoryHold])
    else
      RoundMiss(g1.(roundMissTriggered := true))
  }

  /** The victory-hold timer: the hold ends and the stage completes. */
  function VictoryHoldElapsed(g: GameView): Step
  {
    PatternComplete(g.(isVictoryHold := false))
  }

  /** `handleRoundMiss`: the comet stops, the beats hit in this attempt go
      back to the base state with their baboon markers one step back, and
      the reveal returns to the start of the current round. */
  function RoundMiss(g: GameView): (r: Step)
    requires 0 <= g.currentMilestone <= 3 && 1 <= g.currentPattern <= 3
    ensures r.game.currentMilestone == g.currentMilestone && r.game.currentPattern == g.currentPattern
    ensures r.game.isRevealing == g.isRevealing
  {
    var g1 := CancelComet(g);
    Step(g1.(beatsInCycle := RevertAll(g1.beatsInCycle, Config(g1)),
             revealPercent := RoundStartPercent(g1.currentPattern, g1.currentMilestone)),
         [SettleAfterMiss])
  }

  /** The timer after a round miss: a new attempt may start. */
  function MissSettled(g: GameView): GameView
  {
    g.(roundStartAngle := None, roundMissTriggered := false)
  }

  /** The cooldown timer. */
  function CooldownElapsed(g: GameView): GameView
  {
    g.(cycleJustCompleted := false)
  }

  /** `handlePerfectCycle`: the next milestone; after the last one the stage
      completes at once unless the comet will complete it. */
  function PerfectCycle(g: GameView): Step
  {
    var m := g.currentMilestone + 1;
    if m >= 4 then
      var g1 := g.(currentMilestone := m);
      if !g1.cometAnimating then PatternComplete(g1) else Step(g1, [])
    else
      Step(g.(currentMilestone := m, roundStartAngle := None, roundMissTriggered := false), [])
  }

  /** `handlePatternComplete`: the next stage after the glow, or full victory
      after the third. */
  function PatternComplete(g: GameView): Step
  {
    if g.currentPattern >= 3 then FullVictory(g)
    else Step(g.(currentPattern := g.currentPattern + 1), [StageHandoff])
  }

  /** `handleFullVictory`: the scanner stops in a victory hold, the reveal is
      complete, and a challenge's worth of XP is added. */
  function FullVictory(g: GameView): Step
  {
    AddXP(g.(isRunning := false, isVictoryHold := true, victoryComplete := true, revealPercent := 100.0),
          XPPerChallenge)
  }

  /** `addXP(points)`: reaching the level's requirement schedules the level
      up with the overflow. */
  function AddXP(g: GameView, points: int): Step
  {
    var required := PointsRequired(g.currentXPLevel);
    var xp := g.currentXP + points;
    if xp >= required then Step(g.(currentXP := xp), [LevelUp(xp - required)])
    else Step(g.(currentXP := xp), [])
  }

  /** `handleLevelUp(overflow)`: one level up unless at the last level. */
  function HandleLevelUp(g: GameView, overflow: int): Step
  {
    var level := if g.currentXPLevel < LevelCount() then g.currentXPLevel + 1 else g.currentXPLevel;
    Step(g.(currentXPLevel := level), [ResetXP(overflow)])
  }

  /** The end of the level-up effect: XP restarts from 0. */
  function LevelUpEffectElapsed(g: GameView, overflow: int): Step
  {
    Step(g.(currentXP := 0), [ApplyOverflow(overflow)])
  }

  /** The overflow is added again, which checks the threshold again. */
  function OverflowDelayElapsed(g: GameView, overflow: int): Step
  {
    if overflow > 0 then AddXP(g, overflow) else Step(g, [])
  }

  /** `loadNextPattern` followed, when a pattern is stored, by its first
      frame: the same pattern at the new stage's tempo, every beat silver,
      no reveal, milestone 1. */
  function LoadNextPattern(g: GameView, early: seq<bool>, delta: real): Step
    requires 1 <= g.currentPattern <= 3 && |early| >= |g.originalPatternBeats|
  {
    var g1 := ResetForStage(g);
    if |g.originalPatternBeats| > 0 then Frame(RestartStage(g1, early), delta)
    else Step(g1, [])
  }

  /** The fields `loadNextPattern` resets whether or not a pattern is stored. */
  function ResetForStage(g: GameView): (r: GameView)
    requires 1 <= g.currentPattern <= 3
    ensures r.currentPattern == g.currentPattern && r.originalPatternBeats == g.originalPatternBeats
    ensures r.bpmCalc.Some? && r.currentMilestone == 1
  {
    g.(currentMilestone := 1, roundStartAngle := None, roundMissTriggered := false,
       isVictoryHold := false, cycleJustCompleted := false, cometAnimating := false,
       currentAngle := 5.0, bpmCalc := Some(BpmCalculator.Create(PatternConfigOf(g.currentPattern).bpm)))
  }

  /** The beats rebuilt from the stored pattern, silver, and the scanner
      running again without a reveal. */
  function RestartStage(g: GameView, early: seq<bool>): (r: GameView)
    requires |early| >= |g.originalPatternBeats|
    requires g.bpmCalc.Some? && 1 <= g.currentPattern <= 3 && 0 <= g.currentMilestone <= 3
    ensures FrameAllowed(r)
  {
    g.(beatsInCycle := MakeBeats(g.originalPatternBeats, early, Silver, BeatRotationOffset),
       isRevealing := false, revealedBeats := LabelSet(g.originalPatternBeats), isRunning := true)
  }

  /** `startNewChallenge`: leave the victory state and go back to stage 1;
      the beats, the scanner loop and the XP are left as they are. */
  function StartNewChallenge(g: GameView): GameView
  {
    g.(victoryComplete := false, isVictoryHold := false, currentPattern := 1, currentMilestone := 0,
       firstTapMade := false, centerRotationSpeed := 0.0,
       revealPercent := PatternConfigOf(1).startPercent, currentAngle := 0.0)
  }

  /** The difficulty slider: a new difficulty, and `rebuildSlices`, which
      keeps every beat as it was. */
  function ChangeDifficulty(g: GameView, difficulty: int): GameView
  {
    g.(currentDifficulty := difficulty)
  }
}
