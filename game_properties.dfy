/** What the operations of `RhythmGame` promise, one lemma per promise. */
module GameProperties {
  import opened Wrappers
  import opened Labels
  import opened Beats
  import opened Stages
  import opened Experience
  import opened GameSpec
  import BpmCalculator
  import RhythmLibrary

  // ---------------------------------------------------------------- taps

  /** A tap during the reveal or a victory hold does nothing. */
  lemma TapIgnored(g: GameView)
    requires g.isRevealing || g.isVictoryHold
    ensures Tap(g) == Step(g, [])
  {
  }

  /** A tap hits the first beat, in array order, that is at the milestone's
      base state and within the tap window of the scanner, and only that
      beat changes. */
  lemma TapHitsFirstInWindow(g: GameView, i: nat)
    requires !g.isRevealing && !g.isVictoryHold && 0 <= g.currentMilestone <= 3 && 1 <= g.currentPattern <= 3
    requires TapTarget(g) == Some(i)
    ensures i < |g.beatsInCycle| && g.beatsInCycle[i].state == Config(g).baseState
    ensures CircularDistance(g.currentAngle, g.beatsInCycle[i].angle) <= TapTolerance(g.currentDifficulty)
    ensures forall j :: 0 <= j < i ==>
      !(g.beatsInCycle[j].state == Config(g).baseState
        && CircularDistance(g.currentAngle, g.beatsInCycle[j].angle) <= TapTolerance(g.currentDifficulty))
    ensures Tap(g) == Step(OnBeatHit(g, i), [])
    ensures Tap(g).game.beatsInCycle == g.beatsInCycle[i := HitBeat(g.beatsInCycle[i], Config(g))]
  {
    OnBeatHitChangesOneBeat(g, i);
  }

  /** A tap that hits nothing is a round miss once the attempt has started
      and is harmless before. */
  lemma TapWithoutHit(g: GameView)
    requires !g.isRevealing && !g.isVictoryHold && 0 <= g.currentMilestone <= 3 && 1 <= g.currentPattern <= 3
    requires TapTarget(g).None?
    ensures forall j :: 0 <= j < |g.beatsInCycle| ==>
      !(g.beatsInCycle[j].state == Config(g).baseState
        && CircularDistance(g.currentAngle, g.beatsInCycle[j].angle) <= TapTolerance(g.currentDifficulty))
    ensures g.roundStartAngle.Some? ==> Tap(g) == RoundMiss(g.(roundMissTriggered := true))
    ensures g.roundStartAngle.None? ==> Tap(g) == Step(g, [])
  {
  }

  // ------------------------------------------------------------ a beat hit

  /** `onBeatHit` changes the hit beat and no other. */
  lemma OnBeatHitChangesOneBeat(g: GameView, i: nat)
    requires 0 <= g.currentMilestone <= 3 && 1 <= g.currentPattern <= 3 && i < |g.beatsInCycle|
    ensures OnBeatHit(g, i).beatsInCycle == g.beatsInCycle[i := HitBeat(g.beatsInCycle[i], Config(g))]
    ensures OnBeatHit(g, i).beatsInCycle[i].state == Config(g).targetState
    ensures forall j :: 0 <= j < |g.beatsInCycle| && j != i ==> OnBeatHit(g, i).beatsInCycle[j] == g.beatsInCycle[j]
  {
    var g2 := BeginHit(g);
    var g3 := g2.(beatsInCycle := g2.beatsInCycle[i := HitBeat(g2.beatsInCycle[i], Config(g2))]);
    MaskKeepsBeats(g3);
  }

  lemma MaskKeepsBeats(g: GameView)
    requires 0 <= g.currentMilestone <= 3 && 1 <= g.currentPattern <= 3 && |g.beatsInCycle| > 0
    ensures UpdateRevealMask(g).beatsInCycle == g.beatsInCycle
    ensures UpdateRevealMask(g).roundStartAngle == g.roundStartAngle
    ensures UpdateRevealMask(g).firstTapMade == g.firstTapMade
    ensures UpdateRevealMask(g).centerRotationSpeed == g.centerRotationSpeed
    ensures UpdateRevealMask(g).cometAnimating == g.cometAnimating
    ensures UpdateRevealMask(g).cometStartAngle == g.cometStartAngle
    ensures UpdateRevealMask(g).cometAngle == g.cometAngle
  {
    if !Config(g).isReveal {
    }
  }

  /** The first successful tap starts the center fog at half the scanner's
      speed; later taps leave the fog alone. */
  lemma OnBeatHitFirstTap(g: GameView, i: nat)
    requires 0 <= g.currentMilestone <= 3 && 1 <= g.currentPattern <= 3 && i < |g.beatsInCycle|
    ensures OnBeatHit(g, i).firstTapMade
    ensures !g.firstTapMade && g.bpmCalc.Some? ==>
      OnBeatHit(g, i).centerRotationSpeed == g.bpmCalc.value.rotationSpeed / 2.0
    ensures !g.firstTapMade && g.bpmCalc.None? ==> OnBeatHit(g, i).centerRotationSpeed == 45.0
    ensures g.firstTapMade ==> OnBeatHit(g, i).centerRotationSpeed == g.centerRotationSpeed
  {
    var g2 := BeginHit(g);
    MaskKeepsBeats(g2.(beatsInCycle := g2.beatsInCycle[i := HitBeat(g2.beatsInCycle[i], Config(g2))]));
    BeginHitFacts(g);
  }

  /** The first hit of an attempt records where the attempt started, and in
      the last milestone launches the comet from there; later hits keep
      both. */
  lemma OnBeatHitStartsRound(g: GameView, i: nat)
    requires 0 <= g.currentMilestone <= 3 && 1 <= g.currentPattern <= 3 && i < |g.beatsInCycle|
    ensures g.roundStartAngle.Some? ==> OnBeatHit(g, i).roundStartAngle == g.roundStartAngle
    ensures g.roundStartAngle.Some? ==> OnBeatHit(g, i).cometAnimating == g.cometAnimating
    ensures g.roundStartAngle.None? ==> OnBeatHit(g, i).roundStartAngle == Some(g.currentAngle)
    ensures g.roundStartAngle.None? && Config(g).targetState == Gone ==>
      && OnBeatHit(g, i).cometAnimating
      && OnBeatHit(g, i).cometStartAngle == g.currentAngle
      && OnBeatHit(g, i).cometAngle == g.currentAngle
    ensures g.roundStartAngle.None? && Config(g).targetState != Gone ==>
      OnBeatHit(g, i).cometAnimating == g.cometAnimating
  {
    var g2 := BeginHit(g);
    MaskKeepsBeats(g2.(beatsInCycle := g2.beatsInCycle[i := HitBeat(g2.beatsInCycle[i], Config(g2))]));
    BeginHitFacts(g);
  }

  /** What the bookkeeping before the beat change does. */
  lemma BeginHitFacts(g: GameView)
    requires 0 <= g.currentMilestone <= 3
    ensures BeginHit(g).firstTapMade
    ensures BeginHit(g).centerRotationSpeed == if g.firstTapMade then g.centerRotationSpeed else FirstTapSpeed(g)
    ensures BeginHit(g).revealPercent == g.revealPercent
    ensures g.roundStartAngle.Some? ==>
      BeginHit(g).roundStartAngle == g.roundStartAngle && BeginHit(g).cometAnimating == g.cometAnimating
    ensures g.roundStartAngle.None? ==> BeginHit(g).roundStartAngle == Some(g.currentAngle)
    ensures g.roundStartAngle.None? && Config(g).targetState == Gone ==>
      BeginHit(g).cometAnimating && BeginHit(g).cometStartAngle == g.currentAngle && BeginHit(g).cometAngle == g.currentAngle
    ensures g.roundStartAngle.None? && Config(g).targetState != Gone ==>
      BeginHit(g).cometAnimating == g.cometAnimating
  {
    FirstTapFacts(g);
    RoundStartFacts(FirstTap(g));
  }

  lemma FirstTapFacts(g: GameView)
    ensures FirstTap(g).firstTapMade
    ensures FirstTap(g).centerRotationSpeed == if g.firstTapMade then g.centerRotationSpeed else FirstTapSpeed(g)
    ensures FirstTap(g).revealPercent == g.revealPercent && FirstTap(g).roundStartAngle == g.roundStartAngle
    ensures FirstTap(g).cometAnimating == g.cometAnimating && FirstTap(g).currentAngle == g.currentAngle
  {
    if !g.firstTapMade {
      FogStarts(g);
    }
  }

  lemma FogStarts(g: GameView)
    requires !g.firstTapMade
    ensures FirstTap(g) == g.(firstTapMade := true, centerRotationSpeed := FirstTapSpeed(g))
  {
  }

  lemma RoundStartFacts(g: GameView)
    requires 0 <= g.currentMilestone <= 3
    ensures RoundStart(g).firstTapMade == g.firstTapMade
    ensures RoundStart(g).centerRotationSpeed == g.centerRotationSpeed
    ensures RoundStart(g).revealPercent == g.revealPercent
    ensures g.roundStartAngle.Some? ==>
      RoundStart(g).roundStartAngle == g.roundStartAngle && RoundStart(g).cometAnimating == g.cometAnimating
    ensures g.roundStartAngle.None? ==> RoundStart(g).roundStartAngle == Some(g.currentAngle)
    ensures g.roundStartAngle.None? && Config(g).targetState == Gone ==>
      RoundStart(g).cometAnimating && RoundStart(g).cometStartAngle == g.currentAngle && RoundStart(g).cometAngle == g.currentAngle
    ensures g.roundStartAngle.None? && Config(g).targetState != Gone ==>
      RoundStart(g).cometAnimating == g.cometAnimating
  {
    if g.roundStartAngle.Some? {
      RoundGoesOn(g);
    } else if Config(g).targetState == Gone {
      RoundStartsWithComet(g);
    } else {
      RoundStartsWithoutComet(g);
    }
  }

  lemma RoundGoesOn(g: GameView)
    requires 0 <= g.currentMilestone <= 3 && g.roundStartAngle.Some?
    ensures RoundStart(g) == g
  {
  }

  lemma RoundStartsWithComet(g: GameView)
    requires 0 <= g.currentMilestone <= 3 && g.roundStartAngle.None? && Config(g).targetState == Gone
    ensures RoundStart(g).firstTapMade == g.firstTapMade
    ensures RoundStart(g).centerRotationSpeed == g.centerRotationSpeed
    ensures RoundStart(g).revealPercent == g.revealPercent
    ensures RoundStart(g).roundStartAngle == Some(g.currentAngle)
    ensures RoundStart(g).cometAnimating && RoundStart(g).cometStartAngle == g.currentAngle
    ensures RoundStart(g).cometAngle == g.currentAngle
  {
  }

  lemma RoundStartsWithoutComet(g: GameView)
    requires 0 <= g.currentMilestone <= 3 && g.roundStartAngle.None? && Config(g).targetState != Gone
    ensures RoundStart(g).firstTapMade == g.firstTapMade
    ensures RoundStart(g).centerRotationSpeed == g.centerRotationSpeed
    ensures RoundStart(g).revealPercent == g.revealPercent
    ensures RoundStart(g).roundStartAngle == Some(g.currentAngle)
    ensures RoundStart(g).cometAnimating == g.cometAnimating
  {
  }

  /** After a hit on a beat at the base state in a counting milestone, the
      reveal stands at the round's start plus one share per beat at the
      target; in the reveal milestone it does not move. */
  lemma OnBeatHitReveal(g: GameView, i: nat)
    requires 0 <= g.currentMilestone <= 3 && 1 <= g.currentPattern <= 3 && i < |g.beatsInCycle|
    requires g.beatsInCycle[i].state == Config(g).baseState
    ensures MilestoneConfigs(g.currentMilestone).isReveal ==> OnBeatHit(g, i).revealPercent == g.revealPercent
    ensures !MilestoneConfigs(g.currentMilestone).isReveal ==>
      OnBeatHit(g, i).revealPercent
        == RevealPercent(g.currentPattern, g.currentMilestone,
                         CountAt(g.beatsInCycle, Config(g).targetState) + 1, |g.beatsInCycle|)
  {
    var g2 := BeginHit(g);
    var cfg := Config(g);
    MilestoneStates(g.currentMilestone);
    CountAtStep(g.beatsInCycle, i, HitBeat(g.beatsInCycle[i], cfg), cfg.targetState);
    BeginHitFacts(g);
    MaskPercent(g2.(beatsInCycle := g2.beatsInCycle[i := HitBeat(g2.beatsInCycle[i], Config(g2))]));
  }

  lemma MaskPercent(g: GameView)
    requires 0 <= g.currentMilestone <= 3 && 1 <= g.currentPattern <= 3 && |g.beatsInCycle| > 0
    ensures Config(g).isReveal ==> UpdateRevealMask(g).revealPercent == g.revealPercent
    ensures !Config(g).isReveal ==>
      UpdateRevealMask(g).revealPercent
        == RevealPercent(g.currentPattern, g.currentMilestone, CountAt(g.beatsInCycle, Config(g).targetState), |g.beatsInCycle|)
  {
  }

  lemma MilestoneStates(m: int)
    requires 0 <= m <= 3
    ensures MilestoneConfigs(m).baseState != MilestoneConfigs(m).targetState
    ensures MilestoneConfigs(m).isReveal <==> m == 0
  {
    if m < 3 { MilestonesChain(m); }
  }

  // ------------------------------------------------------- missed beats

  /** `checkForMisses` does nothing before the attempt has started or once
      it has already missed. */
  lemma CheckForMissesIdle(g: GameView)
    requires 0 <= g.currentMilestone <= 3 && 1 <= g.currentPattern <= 3
    requires g.roundStartAngle.None? || g.roundMissTriggered
    ensures CheckForMisses(g) == Step(g, [])
  {
  }

  /** `checkForMisses` fires exactly when a beat is still at the base state
      and the scanner lies further from the attempt's start than that beat,
      by more than a slice width, both measured forward on the dial. */
  lemma CheckForMissesFires(g: GameView)
    requires 0 <= g.currentMilestone <= 3 && 1 <= g.currentPattern <= 3
    requires g.roundStartAngle.Some? && !g.roundMissTriggered
    ensures (exists i :: 0 <= i < |g.beatsInCycle| && g.beatsInCycle[i].state == Config(g).baseState
               && Wrap(g.currentAngle - g.roundStartAngle.value)
                  > Wrap(g.beatsInCycle[i].angle - g.roundStartAngle.value) + SliceWidth(g.currentDifficulty))
            ==> CheckForMisses(g) == RoundMiss(g.(roundMissTriggered := true))
    ensures !(exists i :: 0 <= i < |g.beatsInCycle| && g.beatsInCycle[i].state == Config(g).baseState
               && Wrap(g.currentAngle - g.roundStartAngle.value)
                  > Wrap(g.beatsInCycle[i].angle - g.roundStartAngle.value) + SliceWidth(g.currentDifficulty))
            ==> CheckForMisses(g) == Step(g, [])
  {
    var base := Config(g).baseState;
    var s := g.roundStartAngle.value;
    if exists i :: 0 <= i < |g.beatsInCycle| && g.beatsInCycle[i].state == base
         && Wrap(g.currentAngle - s) > Wrap(g.beatsInCycle[i].angle - s) + SliceWidth(g.currentDifficulty) {
      var i :| 0 <= i < |g.beatsInCycle| && g.beatsInCycle[i].state == base
         && Wrap(g.currentAngle - s) > Wrap(g.beatsInCycle[i].angle - s) + SliceWidth(g.currentDifficulty);
      assert Missed(g.beatsInCycle[i], base, g.currentAngle, s, MissWindow(g.currentDifficulty));
    }
  }

  /** A miss fires at most once per attempt: right after it fired, the next
      check does nothing. */
  lemma CheckForMissesOnce(g: GameView)
    requires 0 <= g.currentMilestone <= 3 && 1 <= g.currentPattern <= 3
    ensures CheckForMisses(g).game.roundMissTriggered == (g.roundMissTriggered || MissDue(g))
    ensures CheckForMisses(CheckForMisses(g).game).game == CheckForMisses(g).game
  {
    if MissDue(g) {
      RoundMissEffects(g.(roundMissTriggered := true));
    }
  }

  // -------------------------------------------------------- round misses

  /** `handleRoundMiss`: the comet stops, the beats at the target go back to
      the base (each with its baboon marker a step back), the others are
      untouched, the reveal returns to the round's start, and the settle
      timer is scheduled. */
  lemma RoundMissEffects(g: GameView)
    requires 0 <= g.currentMilestone <= 3 && 1 <= g.currentPattern <= 3
    ensures RoundMiss(g).game.beatsInCycle == RevertAll(g.beatsInCycle, Config(g))
    ensures RoundMiss(g).game.revealPercent == RoundStartPercent(g.currentPattern, g.currentMilestone)
    ensures !RoundMiss(g).game.cometAnimating
    ensures RoundMiss(g).timers == [SettleAfterMiss]
    ensures RoundMiss(g).game.roundMissTriggered == g.roundMissTriggered
    ensures RoundMiss(g).game.roundStartAngle == g.roundStartAngle
    ensures RoundMiss(g).game.currentAngle == g.currentAngle
  {
    if g.cometAnimating {
    } else {
    }
  }

  /** After a round miss in a counting milestone every beat is back at the
      base, and the reveal is where zero hits put it. */
  lemma RoundMissRestartsRound(g: GameView)
    requires 1 <= g.currentMilestone <= 3 && 1 <= g.currentPattern <= 3 && |g.beatsInCycle| > 0
    requires AllIn(g.beatsInCycle, Config(g).baseState, Config(g).targetState)
    ensures AllAt(RoundMiss(g).game.beatsInCycle, Config(g).baseState)
    ensures CountAt(RoundMiss(g).game.beatsInCycle, Config(g).targetState) == 0
    ensures RoundMiss(g).game.revealPercent
      == RevealPercent(g.currentPattern, g.currentMilestone, 0, |g.beatsInCycle|)
  {
    MilestoneStates(g.currentMilestone);
    RoundMissEffects(g);
    RevertAllProperties(g.beatsInCycle, Config(g));
  }

  // --------------------------------------------------------- progression

  /** A perfect cycle raises the milestone by exactly one; below the last it
      clears the attempt, and after the last the stage completes unless the
      comet is still flying. */
  lemma PerfectCycleAdvances(g: GameView)
    ensures PerfectCycle(g).game.currentMilestone == g.currentMilestone + 1
    ensures g.currentMilestone + 1 < 4 ==>
      PerfectCycle(g) == Step(g.(currentMilestone := g.currentMilestone + 1, roundStartAngle := None,
                                 roundMissTriggered := false), [])
    ensures g.currentMilestone + 1 >= 4 && !g.cometAnimating ==>
      PerfectCycle(g) == PatternComplete(g.(currentMilestone := g.currentMilestone + 1))
    ensures g.currentMilestone + 1 >= 4 && g.cometAnimating ==>
      PerfectCycle(g) == Step(g.(currentMilestone := g.currentMilestone + 1), [])
  {
    if g.currentMilestone + 1 < 4 {
      NextMilestone(g);
    } else if !g.cometAnimating {
      LastMilestoneDone(g);
    } else {
      LastMilestoneWaits(g);
    }
  }

  lemma NextMilestone(g: GameView)
    requires g.currentMilestone + 1 < 4
    ensures PerfectCycle(g) == Step(g.(currentMilestone := g.currentMilestone + 1, roundStartAngle := None,
                                       roundMissTriggered := false), [])
  {
  }

  lemma LastMilestoneDone(g: GameView)
    requires g.currentMilestone + 1 >= 4 && !g.cometAnimating
    ensures PerfectCycle(g) == PatternComplete(g.(currentMilestone := g.currentMilestone + 1))
    ensures PerfectCycle(g).game.currentMilestone == g.currentMilestone + 1
  {
    PatternCompleteFacts(g.(currentMilestone := g.currentMilestone + 1));
  }

  lemma LastMilestoneWaits(g: GameView)
    requires g.currentMilestone + 1 >= 4 && g.cometAnimating
    ensures PerfectCycle(g) == Step(g.(currentMilestone := g.currentMilestone + 1), [])
  {
  }

  /** A completed stage hands off to the next one, and the third ends the
      challenge: the scanner stops in a victory hold, the reveal is full
      and a challenge's worth of XP is added. */
  lemma PatternCompleteFacts(g: GameView)
    ensures g.currentPattern < 3 ==>
      PatternComplete(g) == Step(g.(currentPattern := g.currentPattern + 1), [StageHandoff])
    ensures g.currentPattern >= 3 ==>
      && !PatternComplete(g).game.isRunning
      && PatternComplete(g).game.isVictoryHold
      && PatternComplete(g).game.victoryComplete
      && PatternComplete(g).game.revealPercent == 100.0
      && PatternComplete(g).game.currentXP == g.currentXP + XPPerChallenge
      && PatternComplete(g).timers == AddXP(g, XPPerChallenge).timers
    ensures PatternComplete(g).game.currentMilestone == g.currentMilestone
    ensures PatternComplete(g).game.currentAngle == g.currentAngle
  {
    if g.currentPattern >= 3 {
      var g1 := g.(isRunning := false, isVictoryHold := true, victoryComplete := true, revealPercent := 100.0);
      AddXPFacts(g1, XPPerChallenge);
      AddXPFacts(g, XPPerChallenge);
    }
  }

  // ------------------------------------------------------------------ XP

  /** `addXP` adds the points and schedules a level up with the overflow
      exactly when the level's requirement is reached; nothing else changes. */
  lemma AddXPFacts(g: GameView, points: int)
    ensures AddXP(g, points).game == g.(currentXP := g.currentXP + points)
    ensures AddXP(g, points).timers
      == if g.currentXP + points >= 100 then [LevelUp(g.currentXP + points - 100)] else []
  {
    if g.currentXP + points >= PointsRequired(g.currentXPLevel) {
    } else {
    }
  }

  /** The level rises by one, but never past the last level. */
  lemma HandleLevelUpFacts(g: GameView, overflow: int)
    ensures HandleLevelUp(g, overflow).game.currentXPLevel
      == if g.currentXPLevel < 7 then g.currentXPLevel + 1 else g.currentXPLevel
    ensures HandleLevelUp(g, overflow).timers == [ResetXP(overflow)]
  {
  }

  /** Reaching the requirement runs the whole deferred chain: level up, XP
      back to 0, then the overflow re-added, which checks the requirement
      again. */
  lemma {:induction false} LevelUpChain(g: GameView, points: int)
    requires 1 <= g.currentXPLevel <= 7 && g.currentXP + points >= 100
    ensures var o := g.currentXP + points - 100;
      && AddXP(g, points).timers == [LevelUp(o)]
      && var s2 := HandleLevelUp(AddXP(g, points).game, o);
      && s2.timers == [ResetXP(o)]
      && var s3 := LevelUpEffectElapsed(s2.game, o);
      && s3.timers == [ApplyOverflow(o)]
      && var s4 := OverflowDelayElapsed(s3.game, o);
      && s4.game.currentXP == o
      && s4.game.currentXPLevel == (if g.currentXPLevel < 7 then g.currentXPLevel + 1 else 7)
      && s4.timers == (if o >= 100 then [LevelUp(o - 100)] else [])
  {
    var o := g.currentXP + points - 100;
    AddXPFacts(g, points);
    var s1 := AddXP(g, points);
    HandleLevelUpFacts(s1.game, o);
    var s2 := HandleLevelUp(s1.game, o);
    var s3 := LevelUpEffectElapsed(s2.game, o);
    assert s3.game.currentXP == 0;
    if o > 0 {
      AddXPFacts(s3.game, o);
    }
  }

  // ------------------------------------------------------- scanner angle

  /** Outside the reveal, a frame's step of less than a full turn leaves the
      scanner on the dial, wrapped by a single subtraction. */
  lemma ScannerWraps(g: GameView, step: real)
    requires Inv(g) && FrameAllowed(g) && g.isRunning && !g.isRevealing && 0.0 <= step < 360.0
    ensures var a := g.currentAngle + step;
      && Advance(g, step).game.currentAngle == (WrapOnce(a))
      && 0.0 <= Advance(g, step).game.currentAngle < 360.0
  {
    ScanStepAngle(g, g.currentAngle + step);
  }

  lemma ScanStepAngle(g: GameView, a: real)
    requires 0 <= g.currentMilestone <= 3 && 1 <= g.currentPattern <= 3 && 0.0 <= a < 720.0
    ensures ScanFrame(g.(currentAngle := WrapOnce(a))).game.currentAngle
      == (WrapOnce(a))
  {
    ScanFrameKeepsAngle(g.(currentAngle := WrapOnce(a)));
  }

  lemma ScanFrameKeepsAngle(g: GameView)
    requires 0 <= g.currentMilestone <= 3 && 1 <= g.currentPattern <= 3
    ensures ScanFrame(g).game.currentAngle == g.currentAngle
  {
    CheckForMissesKeepsAngle(g);
    CheckForCompleteCycleKeepsAngle(CheckForMisses(g).game);
  }

  lemma CheckForMissesKeepsAngle(g: GameView)
    requires 0 <= g.currentMilestone <= 3 && 1 <= g.currentPattern <= 3
    ensures CheckForMisses(g).game.currentAngle == g.currentAngle
  {
    if MissDue(g) {
      RoundMissEffects(g.(roundMissTriggered := true));
    }
  }

  lemma CheckForCompleteCycleKeepsAngle(g: GameView)
    requires 0 <= g.currentMilestone <= 3
    ensures CheckForCompleteCycle(g).game.currentAngle == g.currentAngle
  {
    if AllAt(g.beatsInCycle, Config(g).targetState) && !g.cycleJustCompleted {
      PerfectCycleKeepsAngle(g.(cycleJustCompleted := true));
    }
  }

  lemma PerfectCycleKeepsAngle(g: GameView)
    ensures PerfectCycle(g).game.currentAngle == g.currentAngle
  {
    if g.currentMilestone + 1 >= 4 && !g.cometAnimating {
      PatternCompleteFacts(g.(currentMilestone := g.currentMilestone + 1));
    }
  }

  /** When the reveal ends, the `- 360` then `+ 360` wrap leaves an angle
      below 360 where it was and takes one full turn off a larger one. */
  lemma RevealEndAngle(g: GameView)
    requires 345.0 <= g.currentAngle < 720.0
    ensures g.currentAngle < 360.0 ==> RevealFrame(g).game.currentAngle == g.currentAngle
    ensures g.currentAngle >= 360.0 ==> RevealFrame(g).game.currentAngle == g.currentAngle - 360.0
    ensures !RevealFrame(g).game.isRevealing && RevealFrame(g).game.currentMilestone == 1
    ensures AllAt(RevealFrame(g).game.beatsInCycle, Silver)
    ensures RevealFrame(g).game.cycleJustCompleted && RevealFrame(g).timers == [ClearCooldown]
  {
  }

  // --------------------------------------------------- loading a pattern

  /** `loadChallenge` starts stage 1 at its own tempo whatever the
      challenge's tempo, falls back to difficulty 4, and lays out one hidden
      beat per enabled label, in order, for the reveal. */
  lemma LoadChallengeSetup(g: GameView, c: RhythmLibrary.Challenge, early: seq<bool>)
    requires |early| >= |c.enabledBeats|
    ensures var r := ResetForChallenge(g, c, early);
      && r.bpmCalc == Some(BpmCalculator.Create(80.0))
      && r.bpmCalc.value.rotationSpeed == 120.0
      && r.currentDifficulty == (if c.difficulty.Some? && c.difficulty.value != 0 then c.difficulty.value else 4)
      && |r.beatsInCycle| == |c.enabledBeats|
      && (forall i :: 0 <= i < |c.enabledBeats| ==> r.beatsInCycle[i].position == c.enabledBeats[i])
      && AllAt(r.beatsInCycle, Hidden)
      && r.isRunning && r.isRevealing && r.revealedBeats == {}
      && r.currentMilestone == 0 && r.currentPattern == 1 && r.revealPercent == 10.0
      && r.currentAngle == 0.0 && r.roundStartAngle.None? && !r.firstTapMade
  {
    StagesTile(1);
  }

  /** `loadChallenge`, its first frame included, stores the challenge and
      its pattern, and leaves the two fields the settings menu owns, the
      pattern key and the completed counter, as they were. */
  lemma LoadChallengeKeepsTracking(g: GameView, c: RhythmLibrary.Challenge, early: seq<bool>, delta: real)
    requires |early| >= |c.enabledBeats|
    ensures LoadChallenge(g, c, early, delta).game.currentPatternKey == g.currentPatternKey
    ensures LoadChallenge(g, c, early, delta).game.totalCompletedRhythms == g.totalCompletedRhythms
    ensures LoadChallenge(g, c, early, delta).game.currentChallenge == Some(c)
    ensures LoadChallenge(g, c, early, delta).game.originalPatternBeats == c.enabledBeats
  {
    var r := ResetForChallenge(g, c, early);
    var a := r.currentAngle + ScannerTravel(r, delta);
    assert Frame(r, delta) == RevealFrame(CenterRotation(r, FogTravel(r, delta)).(currentAngle := a));
  }

  /** `loadNextPattern` keeps the stage and the stored pattern, switches to
      the stage's tempo, and rebuilds every beat silver at milestone 1 with
      the reveal skipped. */
  lemma LoadNextPatternSetup(g: GameView, early: seq<bool>)
    requires 1 <= g.currentPattern <= 3 && |early| >= |g.originalPatternBeats|
    ensures var r := RestartStage(ResetForStage(g), early);
      && r.currentPattern == g.currentPattern && r.originalPatternBeats == g.originalPatternBeats
      && r.bpmCalc == Some(BpmCalculator.Create(PatternConfigOf(g.currentPattern).bpm))
      && r.currentMilestone == 1 && !r.isRevealing && r.isRunning
      && r.roundStartAngle.None? && !r.roundMissTriggered && !r.cometAnimating && r.currentAngle == 5.0
    ensures var r := RestartStage(ResetForStage(g), early);
      && |r.beatsInCycle| == |g.originalPatternBeats|
      && (forall i :: 0 <= i < |g.originalPatternBeats| ==> r.beatsInCycle[i].position == g.originalPatternBeats[i])
      && AllAt(r.beatsInCycle, Silver)
  {
    RestartBeats(ResetForStage(g), early);
  }

  lemma RestartBeats(g: GameView, early: seq<bool>)
    requires 1 <= g.currentPattern <= 3 && 0 <= g.currentMilestone <= 3 && g.bpmCalc.Some?
    requires |early| >= |g.originalPatternBeats|
    ensures |RestartStage(g, early).beatsInCycle| == |g.originalPatternBeats|
    ensures forall i :: 0 <= i < |g.originalPatternBeats| ==>
      RestartStage(g, early).beatsInCycle[i].position == g.originalPatternBeats[i]
    ensures AllAt(RestartStage(g, early).beatsInCycle, Silver)
  {
  }

  /** Changing the difficulty keeps every beat, state included. */
  lemma ChangeDifficultyKeepsBeats(g: GameView, difficulty: int)
    ensures ChangeDifficulty(g, difficulty).beatsInCycle == g.beatsInCycle
    ensures ChangeDifficulty(g, difficulty).currentDifficulty == difficulty
  {
  }

  // --------------------------------------------------------------- comet

  /** The comet's deadline: it completes once it has travelled a full turn
      from where it started, and not before. */
  lemma CometDeadline(g: GameView, a: real)
    requires CometAllowed(g)
    ensures a - g.cometStartAngle < 360.0 ==>
      CometAt(g, a).game.cometAnimating == g.cometAnimating && CometAt(g, a).game.cometAngle == a
      && CometAt(g, a).timers == []
    ensures a - g.cometStartAngle >= 360.0 ==> !CometAt(g, a).game.cometAnimating
  {
    if a - g.cometStartAngle >= 360.0 {
      CometLands(g.(cometAngle := a));
    }
  }

  lemma CometLands(g: GameView)
    requires CometAllowed(g)
    ensures !CompleteComet(g).game.cometAnimating
  {
    if !AllAt(g.beatsInCycle, Gone) {
      RoundMissEffects(g.(cometAnimating := false, roundMissTriggered := true));
    }
  }

  /** When the comet lands, a cleared dial is a victory hold and anything
      left is a round miss. */
  lemma CompleteCometFacts(g: GameView)
    requires CometAllowed(g)
    ensures AllAt(g.beatsInCycle, Gone) ==>
      && !CompleteComet(g).game.isRunning && CompleteComet(g).game.isVictoryHold
      && !CompleteComet(g).game.cometAnimating && CompleteComet(g).timers == [EndVictoryHold]
    ensures !AllAt(g.beatsInCycle, Gone) ==>
      CompleteComet(g) == RoundMiss(g.(cometAnimating := false, roundMissTriggered := true))
  {
  }

  /** Cancelling stops the comet and changes nothing else. */
  lemma CancelCometFacts(g: GameView)
    ensures !CancelComet(g).cometAnimating
    ensures CancelComet(g) == g.(cometAnimating := false)
  {
  }

  /** The end of a victory hold completes the stage. */
  lemma VictoryHoldEnds(g: GameView)
    ensures g.currentPattern < 3 ==>
      VictoryHoldElapsed(g) == Step(g.(isVictoryHold := false, currentPattern := g.currentPattern + 1), [StageHandoff])
    ensures g.currentPattern >= 3 ==> VictoryHoldElapsed(g).game.victoryComplete
  {
    PatternCompleteFacts(g.(isVictoryHold := false));
  }
}
