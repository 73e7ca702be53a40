/** The game's invariant `GameSpec.Inv` holds after every operation and
    every timer continuation that starts from a state where it holds. Each
    proof follows the branches of its operation. */
module GameInvariant {
  import opened Wrappers
  import opened Labels
  import opened Beats
  import opened Stages
  import opened Experience
  import opened GameSpec
  import BpmCalculator
  import RhythmLibrary

  /** A frame whose scanner step stays below a full turn (at 60 frames per
      second, any tempo below 14400 BPM). */
  predicate FrameFits(g: GameView, delta: real)
  {
    0.0 <= ScannerTravel(g, delta) < 360.0
  }

  lemma MilestoneStates(m: int)
    requires 0 <= m <= 3
    ensures MilestoneConfigs(m).baseState != MilestoneConfigs(m).targetState
    ensures m < 3 ==> MilestoneConfigs(m).targetState == MilestoneConfigs(m + 1).baseState
    ensures MilestoneConfigs(3).targetState == Gone
  {
    if m < 3 { MilestonesChain(m); }
  }

  lemma LoadChallengeKeepsInv(g: GameView, c: RhythmLibrary.Challenge, early: seq<bool>, delta: real)
    requires Inv(g) && |early| >= |c.enabledBeats|
    requires 0.0 <= delta < 3.0
    ensures Inv(LoadChallenge(g, c, early, delta).game)
  {
    var r := ResetForChallenge(g, c, early);
    assert Inv(r);
    assert r.bpmCalc.value.rotationSpeed == 120.0;
    FrameKeepsInv(r, delta);
  }

  lemma FrameKeepsInv(g: GameView, delta: real)
    requires Inv(g) && FrameAllowed(g) && FrameFits(g, delta)
    ensures Inv(Frame(g, delta).game)
  {
    FrameByKeepsInv(g, ScannerTravel(g, delta), FogTravel(g, delta));
  }

  lemma FrameByKeepsInv(g: GameView, step: real, turn: real)
    requires Inv(g) && FrameAllowed(g) && 0.0 <= step < 360.0
    ensures Inv(FrameBy(g, step, turn).game)
  {
    if g.isRunning || g.isVictoryHold {
      CenterRotationKeepsInv(g, turn);
      if g.isRunning {
        AdvanceKeepsInv(CenterRotation(g, turn), step);
      }
    }
  }

  lemma CenterRotationKeepsInv(g: GameView, turn: real)
    requires Inv(g)
    ensures Inv(CenterRotation(g, turn))
  {
    if g.isVictoryHold || !g.firstTapMade {
      FogStillKeepsInv(g, turn);
    } else {
      FogTurnsKeepsInv(g, turn);
    }
  }

  lemma FogStillKeepsInv(g: GameView, turn: real)
    requires Inv(g) && (g.isVictoryHold || !g.firstTapMade)
    ensures Inv(CenterRotation(g, turn))
  {
  }

  lemma FogTurnsKeepsInv(g: GameView, turn: real)
    requires Inv(g) && !g.isVictoryHold && g.firstTapMade
    ensures Inv(CenterRotation(g, turn))
  {
  }

  lemma AdvanceKeepsInv(g: GameView, step: real)
    requires Inv(g) && FrameAllowed(g) && g.isRunning && 0.0 <= step < 360.0
    ensures Inv(Advance(g, step).game)
  {
    if g.isRevealing {
      RevealFrameKeepsInv(g, g.currentAngle + step);
    } else {
      ScanStepKeepsInv(g, g.currentAngle + step);
    }
  }

  /** A scoring frame after the scanner reached `a`, before wrapping. */
  lemma ScanStepKeepsInv(g: GameView, a: real)
    requires Inv(g) && 0 <= g.currentMilestone <= 3 && !g.isRevealing && 0.0 <= a < 720.0
    ensures Inv(ScanFrame(g.(currentAngle := WrapOnce(a))).game)
  {
    AngleKeepsInv(g, WrapOnce(a));
    ScanFrameKeepsInv(g.(currentAngle := WrapOnce(a)));
  }

  /** Moving the scanner to an angle on the dial keeps the invariant. */
  lemma AngleKeepsInv(g: GameView, w: real)
    requires Inv(g) && 0.0 <= w < 360.0
    ensures Inv(g.(currentAngle := w))
  {
  }

  lemma RevealKeepsValid(beats: seq<Beat>, revealed: set<Label>, scanner: real)
    requires AllValid(beats)
    ensures AllValid(RevealFrom(beats, revealed, scanner, 0).0)
    ensures |RevealFrom(beats, revealed, scanner, 0).0| == |beats|
  {
    var r := RevealFrom(beats, revealed, scanner, 0);
    forall j | 0 <= j < |r.0| ensures ValidBeat(r.0[j]) {
      assert ValidBeat(beats[j]);
    }
  }

  /** A reveal frame after the scanner reached `a`. */
  lemma RevealFrameKeepsInv(g: GameView, a: real)
    requires Inv(g) && 0.0 <= a < 720.0 && g.isRevealing
    ensures Inv(RevealFrame(g.(currentAngle := a)).game)
  {
    RevealKeepsValid(g.beatsInCycle, g.revealedBeats, a);
    if a >= 345.0 {
      RevealEndKeepsInv(g, a);
    } else {
      RevealGoesOnKeepsInv(g, a);
    }
  }

  lemma RevealEndKeepsInv(g: GameView, a: real)
    requires Inv(g) && 345.0 <= a < 720.0 && g.isRevealing
    requires AllValid(RevealFrom(g.beatsInCycle, g.revealedBeats, a, 0).0)
    requires |RevealFrom(g.beatsInCycle, g.revealedBeats, a, 0).0| == |g.beatsInCycle|
    ensures Inv(RevealFrame(g.(currentAngle := a)).game)
  {
  }

  lemma RevealGoesOnKeepsInv(g: GameView, a: real)
    requires Inv(g) && 0.0 <= a < 345.0 && g.isRevealing
    requires AllValid(RevealFrom(g.beatsInCycle, g.revealedBeats, a, 0).0)
    requires |RevealFrom(g.beatsInCycle, g.revealedBeats, a, 0).0| == |g.beatsInCycle|
    ensures Inv(RevealFrame(g.(currentAngle := a)).game)
  {
  }

  lemma ScanFrameKeepsInv(g: GameView)
    requires Inv(g) && 0 <= g.currentMilestone <= 3 && !g.isRevealing
    ensures Inv(ScanFrame(g).game)
  {
    var s1 := CheckForMisses(g);
    CheckForMissesKeepsInv(g);
    CheckForCompleteCycleKeepsInv(s1.game);
  }

  lemma CheckForMissesKeepsInv(g: GameView)
    requires Inv(g) && 0 <= g.currentMilestone <= 3
    ensures Inv(CheckForMisses(g).game)
  {
    if MissDue(g) {
      RoundMissKeepsInv(g.(roundMissTriggered := true));
    } else {
    }
  }

  lemma CheckForCompleteCycleKeepsInv(g: GameView)
    requires Inv(g) && 0 <= g.currentMilestone <= 3 && !g.isRevealing
    ensures Inv(CheckForCompleteCycle(g).game)
  {
    if AllAt(g.beatsInCycle, Config(g).targetState) && !g.cycleJustCompleted {
      var s := PerfectCycle(g.(cycleJustCompleted := true));
      PerfectCycleKeepsInv(g.(cycleJustCompleted := true));
    } else {
    }
  }

  lemma PerfectCycleKeepsInv(g: GameView)
    requires Inv(g) && 0 <= g.currentMilestone <= 3 && !g.isRevealing
    requires AllAt(g.beatsInCycle, Config(g).targetState)
    ensures Inv(PerfectCycle(g).game)
  {
    MilestoneStates(g.currentMilestone);
    var m := g.currentMilestone + 1;
    if m >= 4 {
      var g1 := g.(currentMilestone := m);
      assert Inv(g1);
      if !g1.cometAnimating {
        PatternCompleteKeepsInv(g1);
      } else {
      }
    } else {
      var g1 := g.(currentMilestone := m, roundStartAngle := None, roundMissTriggered := false);
      assert AllIn(g.beatsInCycle, MilestoneConfigs(m).baseState, MilestoneConfigs(m).targetState);
      assert Inv(g1);
    }
  }

  lemma PatternCompleteKeepsInv(g: GameView)
    requires Inv(g)
    ensures Inv(PatternComplete(g).game)
  {
    if g.currentPattern >= 3 {
      FullVictoryKeepsInv(g);
    } else {
    }
  }

  lemma FullVictoryKeepsInv(g: GameView)
    requires Inv(g)
    ensures Inv(FullVictory(g).game)
  {
    var g1 := g.(isRunning := false, isVictoryHold := true, victoryComplete := true, revealPercent := 100.0);
    assert Inv(g1);
    AddXPKeepsInv(g1, XPPerChallenge);
  }

  lemma AddXPKeepsInv(g: GameView, points: int)
    requires Inv(g)
    ensures Inv(AddXP(g, points).game)
  {
    var xp := g.currentXP + points;
    if xp >= PointsRequired(g.currentXPLevel) {
    } else {
    }
  }

  lemma TapKeepsInv(g: GameView)
    requires Inv(g) && TapAllowed(g)
    ensures Inv(Tap(g).game)
  {
    if g.isRevealing || g.isVictoryHold {
    } else {
      match TapTarget(g)
      case Some(i) =>
        OnBeatHitKeepsInv(g, i);
      case None =>
        if g.roundStartAngle.Some? {
          RoundMissKeepsInv(g.(roundMissTriggered := true));
        } else {
        }
    }
  }

  lemma HitKeepsFit(beats: seq<Beat>, i: nat, m: int, n: nat)
    requires 0 <= m <= 3 && i < |beats|
    requires BeatsFit(beats, m, false, n) && beats[i].state == MilestoneConfigs(m).baseState
    ensures BeatsFit(beats[i := HitBeat(beats[i], MilestoneConfigs(m))], m, false, n)
  {
    var b := HitBeat(beats[i], MilestoneConfigs(m));
    assert ValidBeat(beats[i]);
    var beats' := beats[i := b];
    forall j | 0 <= j < |beats'| ensures ValidBeat(beats'[j]) {
      if j != i { assert ValidBeat(beats[j]); }
    }
  }

  lemma OnBeatHitKeepsInv(g: GameView, i: nat)
    requires Inv(g) && !g.isRevealing && 0 <= g.currentMilestone <= 3 && i < |g.beatsInCycle|
    requires g.beatsInCycle[i].state == Config(g).baseState
    ensures Inv(OnBeatHit(g, i))
  {
    var g2 := BeginHit(g);
    BeginHitKeepsInv(g);
    HitKeepsFit(g2.beatsInCycle, i, g2.currentMilestone, |g2.originalPatternBeats|);
    var g3 := g2.(beatsInCycle := g2.beatsInCycle[i := HitBeat(g2.beatsInCycle[i], Config(g2))]);
    assert Inv(g3);
    UpdateRevealMaskKeepsInv(g3);
  }

  lemma BeginHitKeepsInv(g: GameView)
    requires Inv(g) && 0 <= g.currentMilestone <= 3
    ensures Inv(BeginHit(g))
  {
    FirstTapKeepsInv(g);
    RoundStartKeepsInv(FirstTap(g));
  }

  lemma FirstTapKeepsInv(g: GameView)
    requires Inv(g)
    ensures Inv(FirstTap(g))
  {
    if !g.firstTapMade {
      FogStartsKeepsInv(g);
    }
  }

  lemma FogStartsKeepsInv(g: GameView)
    requires Inv(g) && !g.firstTapMade
    ensures Inv(FirstTap(g))
  {
  }

  lemma RoundStartKeepsInv(g: GameView)
    requires Inv(g) && 0 <= g.currentMilestone <= 3
    ensures Inv(RoundStart(g))
  {
    if g.roundStartAngle.None? {
      if Config(g).targetState == Gone {
        RoundWithCometKeepsInv(g);
      } else {
        RoundWithoutCometKeepsInv(g);
      }
    }
  }

  lemma RoundWithCometKeepsInv(g: GameView)
    requires Inv(g) && 0 <= g.currentMilestone <= 3 && g.roundStartAngle.None? && Config(g).targetState == Gone
    ensures Inv(RoundStart(g))
  {
  }

  lemma RoundWithoutCometKeepsInv(g: GameView)
    requires Inv(g) && 0 <= g.currentMilestone <= 3 && g.roundStartAngle.None? && Config(g).targetState != Gone
    ensures Inv(RoundStart(g))
  {
  }

  lemma UpdateRevealMaskKeepsInv(g: GameView)
    requires Inv(g) && 0 <= g.currentMilestone <= 3 && |g.beatsInCycle| > 0
    ensures Inv(UpdateRevealMask(g))
  {
    if !Config(g).isReveal {
      StagesTile(g.currentPattern);
      PercentKeepsInv(g, RevealPercent(g.currentPattern, g.currentMilestone,
                                       CountAt(g.beatsInCycle, Config(g).targetState), |g.beatsInCycle|));
    }
  }

  /** Setting the reveal to a percentage keeps the invariant. */
  lemma PercentKeepsInv(g: GameView, p: real)
    requires Inv(g) && 0.0 <= p <= 100.0
    ensures Inv(g.(revealPercent := p))
  {
  }

  lemma RoundMissKeepsInv(g: GameView)
    requires Inv(g) && 0 <= g.currentMilestone <= 3
    ensures Inv(RoundMiss(g).game)
  {
    var g1 := CancelComet(g);
    if g.cometAnimating { assert Inv(g1); } else { assert Inv(g1); }
    RevertKeepsFit(g1.beatsInCycle, g1.currentMilestone, g1.isRevealing, |g1.originalPatternBeats|);
    StagesTile(g.currentPattern);
    var r := RevertAll(g1.beatsInCycle, Config(g1));
    var g2 := g1.(beatsInCycle := r, revealPercent := RoundStartPercent(g1.currentPattern, g1.currentMilestone));
    assert Inv(g2);
  }

  /** Reverting the attempt's hits keeps the beats fitting the milestone. */
  lemma RevertKeepsFit(beats: seq<Beat>, m: int, revealing: bool, n: nat)
    requires 0 <= m <= 3 && BeatsFit(beats, m, revealing, n)
    ensures BeatsFit(RevertAll(beats, MilestoneConfigs(m)), m, revealing, n)
  {
    MilestoneStates(m);
    RevertAllProperties(beats, MilestoneConfigs(m));
  }

  lemma CometTickKeepsInv(g: GameView, delta: real)
    requires Inv(g) && CometAllowed(g)
    ensures Inv(CometTick(g, delta).game)
  {
    CometMoveKeepsInv(g, CometReach(g, delta));
  }

  lemma CometMoveKeepsInv(g: GameView, a: real)
    requires Inv(g) && CometAllowed(g)
    ensures Inv(CometMove(g, a).game)
  {
    if g.cometAnimating {
      CometFliesKeepsInv(g, a);
    }
  }

  lemma CometFliesKeepsInv(g: GameView, a: real)
    requires Inv(g) && CometAllowed(g)
    ensures Inv(CometAt(g, a).game)
  {
    CometAngleKeepsInv(g, a);
    if a - g.cometStartAngle >= 360.0 {
      CometLandsKeepsInv(g, a);
    } else {
      CometGoesOnKeepsInv(g, a);
    }
  }

  lemma CometLandsKeepsInv(g: GameView, a: real)
    requires CometAllowed(g) && Inv(g.(cometAngle := a)) && CometAllowed(g.(cometAngle := a))
    requires a - g.cometStartAngle >= 360.0
    ensures Inv(CometAt(g, a).game)
  {
    CompleteCometKeepsInv(g.(cometAngle := a));
  }

  lemma CometGoesOnKeepsInv(g: GameView, a: real)
    requires CometAllowed(g) && Inv(g.(cometAngle := a))
    requires a - g.cometStartAngle < 360.0
    ensures Inv(CometAt(g, a).game)
  {
  }

  /** Moving the comet changes nothing the invariant or the comet's
      completion reads. */
  lemma CometAngleKeepsInv(g: GameView, a: real)
    requires Inv(g) && CometAllowed(g)
    ensures Inv(g.(cometAngle := a)) && CometAllowed(g.(cometAngle := a))
  {
  }

  lemma CompleteCometKeepsInv(g: GameView)
    requires Inv(g) && CometAllowed(g)
    ensures Inv(CompleteComet(g).game)
  {
    var g1 := g.(cometAnimating := false);
    if AllAt(g.beatsInCycle, Gone) {
    } else {
      RoundMissKeepsInv(g1.(roundMissTriggered := true));
    }
  }

  lemma VictoryHoldElapsedKeepsInv(g: GameView)
    requires Inv(g)
    ensures Inv(VictoryHoldElapsed(g).game)
  {
    PatternCompleteKeepsInv(g.(isVictoryHold := false));
  }

  lemma MissSettledKeepsInv(g: GameView)
    requires Inv(g)
    ensures Inv(MissSettled(g))
  {
  }

  lemma CooldownElapsedKeepsInv(g: GameView)
    requires Inv(g)
    ensures Inv(CooldownElapsed(g))
  {
  }

  lemma HandleLevelUpKeepsInv(g: GameView, overflow: int)
    requires Inv(g)
    ensures Inv(HandleLevelUp(g, overflow).game)
  {
    if g.currentXPLevel < LevelCount() {
    } else {
    }
  }

  lemma LevelUpEffectElapsedKeepsInv(g: GameView, overflow: int)
    requires Inv(g)
    ensures Inv(LevelUpEffectElapsed(g, overflow).game)
  {
  }

  lemma OverflowDelayElapsedKeepsInv(g: GameView, overflow: int)
    requires Inv(g)
    ensures Inv(OverflowDelayElapsed(g, overflow).game)
  {
    if overflow > 0 {
      AddXPKeepsInv(g, overflow);
    } else {
    }
  }

  lemma LoadNextPatternKeepsInv(g: GameView, early: seq<bool>, delta: real)
    requires Inv(g) && |early| >= |g.originalPatternBeats|
    requires 0.0 <= delta < 2.0
    ensures Inv(LoadNextPattern(g, early, delta).game)
  {
    var g1 := ResetForStage(g);
    StagesTile(g.currentPattern);
    if |g.originalPatternBeats| > 0 {
      var g2 := RestartStage(g1, early);
      assert Inv(g2);
      assert g2.bpmCalc.value.rotationSpeed <= 180.0;
      FrameKeepsInv(g2, delta);
    } else {
      assert Inv(g1);
    }
  }

  lemma StartNewChallengeKeepsInv(g: GameView)
    requires Inv(g)
    ensures Inv(StartNewChallenge(g))
  {
  }

  lemma ChangeDifficultyKeepsInv(g: GameView, difficulty: int)
    requires Inv(g)
    ensures Inv(ChangeDifficulty(g, difficulty))
  {
  }
}
