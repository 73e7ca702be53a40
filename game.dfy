/** `RhythmGame` (game.js) as a class whose gameplay fields, held together
    in the record `view`, the operations update in place. Every method is
    proved against the function of `GameSpec` that specifies it: the state
    `view` afterwards is that function of the state before, and the timers
    the method returns are the `setTimeout` continuations it schedules.
    `Valid()` is the invariant of `GameInvariant`, kept by every public
    method. */
module Game {
  import opened Wrappers
  import opened Labels
  import opened Beats
  import opened Stages
  import opened Experience
  import opened GameSpec
  import GameInvariant
  import BpmCalculator
  import RhythmLibrary

  /** `maxBaboonOffset`: a baboon marker starts 15 degrees off its beat. */
  const MaxBaboonOffset: int := 15

  class RhythmGame {
    /** The gameplay fields of the object, held as one record. */
    var view: GameView

    ghost predicate Valid()
      reads this
    {
      Inv(view)
    }

    constructor()
      ensures view == Initial() && Valid()
    {
      view := Initial();
    }

    /** `loadChallenge(challenge)`: reset for stage 1, build hidden beats
        from the challenge's pattern, start the reveal and run the first
        frame at once; `delta` is the gap, in seconds, between the clock
        read that resets the frame time and the one the frame takes, close
        to 0 and bounded here by 3. `early[i]` is the coin flip that puts
        beat `i`'s baboon marker early. */
    method LoadChallenge(c: RhythmLibrary.Challenge, early: seq<bool>, delta: real) returns (timers: seq<Timer>)
      requires Valid() && |early| >= |c.enabledBeats| && 0.0 <= delta < 3.0
      modifies this
      ensures Valid()
      ensures view == GameSpec.LoadChallenge(old(view), c, early, delta).game
      ensures timers == GameSpec.LoadChallenge(old(view), c, early, delta).timers
    {
      GameInvariant.LoadChallengeKeepsInv(view, c, early, delta);
      view := view.(isRunning := false);
      view := view.(isVictoryHold := false);
      view := view.(victoryComplete := false);
      view := view.(roundStartAngle := None);
      view := view.(roundMissTriggered := false);
      view := view.(centerRotationAngle := 0.0);
      view := view.(firstTapMade := false);
      view := view.(centerRotationSpeed := 0.0);
      view := view.(cometAnimating := false);
      view := view.(currentPattern := 1);
      view := view.(currentMilestone := 0);
      view := view.(revealPercent := PatternConfigOf(1).startPercent);
      view := view.(currentAngle := 0.0);
      view := view.(currentChallenge := Some(c));
      view := view.(currentDifficulty := ChallengeDifficulty(c));
      view := view.(originalPatternBeats := c.enabledBeats);
      view := view.(bpmCalc := Some(BpmCalculator.Create(PatternConfigOf(view.currentPattern).bpm)));
      view := view.(cycleJustCompleted := false);
      view := view.(beatsInCycle := MakeBeats(c.enabledBeats, early, Hidden, BeatRotationOffset));
      view := view.(currentAngle := 0.0);
      view := view.(isRunning := true);
      view := view.(revealedBeats := {});
      view := view.(isRevealing := true);
      timers := AnimateFrame(delta);
    }

    /** One `animate()` frame, `delta` seconds after the previous one, from
        a state that keeps the invariant. */
    method Animate(delta: real) returns (timers: seq<Timer>)
      requires Valid() && FrameAllowed(view) && GameInvariant.FrameFits(view, delta)
      modifies this
      ensures Valid()
      ensures view == Frame(old(view), delta).game && timers == Frame(old(view), delta).timers
    {
      GameInvariant.FrameKeepsInv(view, delta);
      timers := AnimateFrame(delta);
    }

    /** The body of `animate()`. */
    method AnimateFrame(delta: real) returns (timers: seq<Timer>)
      requires FrameAllowed(view)
      modifies this
      ensures view == Frame(old(view), delta).game && timers == Frame(old(view), delta).timers
    {
      ghost var s0 := view;
      if !view.isRunning && !view.isVictoryHold {
        timers := [];
        return;
      }
      UpdateCenterRotation(delta);
      if !view.isRunning {
        timers := [];
        return;
      }
      var step := view.bpmCalc.value.rotationSpeed * delta;
      assert step == ScannerTravel(s0, delta);
      timers := AdvanceScanner(step);
    }

    /** The running part of `animate()`: the scanner moves on by `step`
        degrees, then reveals or scores. */
    method AdvanceScanner(step: real) returns (timers: seq<Timer>)
      requires FrameAllowed(view) && view.isRunning
      modifies this
      ensures view == Advance(old(view), step).game && timers == Advance(old(view), step).timers
    {
      if view.isRevealing {
        timers := RevealStep(step);
      } else {
        timers := ScanStep(step);
      }
    }

    /** The reveal branch of `animate()`. */
    method RevealStep(step: real) returns (timers: seq<Timer>)
      requires FrameAllowed(view) && view.isRunning && view.isRevealing
      modifies this
      ensures view == Advance(old(view), step).game && timers == Advance(old(view), step).timers
    {
      MoveScanner(step);
      timers := RevealFrame();
    }

    /** The scoring branch of `animate()`: the scanner moves on by `step`
        and wraps once at 360 degrees. */
    method ScanStep(step: real) returns (timers: seq<Timer>)
      requires 0 <= view.currentMilestone <= 3 && 1 <= view.currentPattern <= 3
      modifies this
      ensures view == ScanAdvance(old(view), step).game && timers == ScanAdvance(old(view), step).timers
    {
      var angle := view.currentAngle + step;
      timers := ScanAt(WrapOnce(angle));
    }

    /** The scanner at its new `angle`, then a scoring frame. */
    method ScanAt(angle: real) returns (timers: seq<Timer>)
      requires 0 <= view.currentMilestone <= 3 && 1 <= view.currentPattern <= 3
      modifies this
      ensures view == GameSpec.ScanFrame(old(view).(currentAngle := angle)).game
      ensures timers == GameSpec.ScanFrame(old(view).(currentAngle := angle)).timers
    {
      view := view.(currentAngle := angle);
      timers := ScanFrame();
    }

    /** `currentAngle += step`. */
    method MoveScanner(step: real)
      modifies this
      ensures view == old(view).(currentAngle := old(view.currentAngle) + step)
    {
      view := view.(currentAngle := view.currentAngle + step);
    }

    /** `updateCenterRotation(delta)`. */
    method UpdateCenterRotation(delta: real)
      modifies this
      ensures view == CenterRotation(old(view), FogTravel(old(view), delta))
    {
      if view.isVictoryHold || !view.firstTapMade {
        return;
      }
      var angle := view.centerRotationAngle + FogTravel(view, delta);
      if angle >= 360.0 {
        angle := angle - 360.0;
      }
      view := view.(centerRotationAngle := angle);
    }

    /** The reveal branch of `animate()`, the scanner already advanced. */
    method RevealFrame() returns (timers: seq<Timer>)
      modifies this
      ensures view == GameSpec.RevealFrame(old(view)).game
      ensures timers == GameSpec.RevealFrame(old(view)).timers
    {
      RevealPassedBeats();
      if view.currentAngle >= 345.0 {
        var angle := view.currentAngle - 360.0;
        if angle < 0.0 {
          angle := angle + 360.0;
        }
        view := view.(isRevealing := false, currentAngle := angle);
        ForceSilver();
        view := view.(currentMilestone := 1, cycleJustCompleted := true);
        timers := [ClearCooldown];
      } else {
        timers := [];
      }
    }

    /** The reveal `forEach`: a beat the scanner has reached and that is not
        revealed yet turns silver and is marked revealed. */
    method RevealPassedBeats()
      modifies this
      ensures var r := RevealFrom(old(view.beatsInCycle), old(view.revealedBeats), view.currentAngle, 0);
        view == old(view).(beatsInCycle := r.0, revealedBeats := r.1)
    {
      var beats := view.beatsInCycle;
      var revealed := view.revealedBeats;
      var i := 0;
      while i < |beats|
        invariant 0 <= i <= |beats| == |view.beatsInCycle|
        invariant RevealFrom(beats, revealed, view.currentAngle, i) == RevealFrom(view.beatsInCycle, view.revealedBeats, view.currentAngle, 0)
      {
        if beats[i].position !in revealed && view.currentAngle >= beats[i].angle {
          revealed := revealed + {beats[i].position};
          beats := beats[i := beats[i].(state := Silver)];
        }
        i := i + 1;
      }
      view := view.(beatsInCycle := beats);
      view := view.(revealedBeats := revealed);
    }

    /** The end of the reveal sets every beat to silver. */
    method ForceSilver()
      modifies this
      ensures view == old(view).(beatsInCycle := SetAllState(old(view.beatsInCycle), Silver))
    {
      var beats := view.beatsInCycle;
      var i := 0;
      while i < |beats|
        invariant 0 <= i <= |beats| == |view.beatsInCycle|
        invariant forall k :: 0 <= k < i ==> beats[k] == view.beatsInCycle[k].(state := Silver)
        invariant forall k :: i <= k < |beats| ==> beats[k] == view.beatsInCycle[k]
      {
        beats := beats[i := beats[i].(state := Silver)];
        i := i + 1;
      }
      view := view.(beatsInCycle := beats);
    }

    /** The scoring branch of `animate()`, the scanner already advanced and
        wrapped. */
    method ScanFrame() returns (timers: seq<Timer>)
      requires 0 <= view.currentMilestone <= 3 && 1 <= view.currentPattern <= 3
      modifies this
      ensures view == GameSpec.ScanFrame(old(view)).game
      ensures timers == GameSpec.ScanFrame(old(view)).timers
    {
      var t1 := CheckForMisses();
      var t2 := CheckForCompleteCycle();
      timers := t1 + t2;
    }

    /** `checkForMisses()`. */
    method CheckForMisses() returns (timers: seq<Timer>)
      requires 0 <= view.currentMilestone <= 3 && 1 <= view.currentPattern <= 3
      modifies this
      ensures view == GameSpec.CheckForMisses(old(view)).game
      ensures timers == GameSpec.CheckForMisses(old(view)).timers
    {
      if view.roundStartAngle.None? || view.roundMissTriggered {
        timers := [];
        return;
      }
      var base := MilestoneConfigs(view.currentMilestone).baseState;
      var sliceWidth := SliceWidth(view.currentDifficulty);
      var tolerance := sliceWidth / 2.0;
      var missWindow := sliceWidth / 2.0 + tolerance;
      var start := view.roundStartAngle.value;
      var i := 0;
      while i < |view.beatsInCycle|
        invariant 0 <= i <= |view.beatsInCycle|
        invariant forall k :: 0 <= k < i ==> !Missed(view.beatsInCycle[k], base, view.currentAngle, start, missWindow)
      {
        var beat := view.beatsInCycle[i];
        if beat.state == base {
          var scannerDistance := view.currentAngle - start;
          if scannerDistance < 0.0 {
            scannerDistance := scannerDistance + 360.0;
          }
          var beatDistance := beat.angle - start;
          if beatDistance < 0.0 {
            beatDistance := beatDistance + 360.0;
          }
          if scannerDistance > beatDistance + missWindow {
            break;
          }
        }
        i := i + 1;
      }
      if i < |view.beatsInCycle| {
        assert Missed(view.beatsInCycle[i], base, view.currentAngle, start, missWindow);
        view := view.(roundMissTriggered := true);
        timers := HandleRoundMiss();
      } else {
        timers := [];
      }
    }

    /** `checkForCompleteCycle()`. */
    method CheckForCompleteCycle() returns (timers: seq<Timer>)
      requires 0 <= view.currentMilestone <= 3
      modifies this
      ensures view == GameSpec.CheckForCompleteCycle(old(view)).game
      ensures timers == GameSpec.CheckForCompleteCycle(old(view)).timers
    {
      var allAtTarget := AllAt(view.beatsInCycle, MilestoneConfigs(view.currentMilestone).targetState);
      if allAtTarget && !view.cycleJustCompleted {
        view := view.(cycleJustCompleted := true);
        var t := HandlePerfectCycle();
        timers := t + [ClearCooldown];
      } else {
        timers := [];
      }
    }

    /** `handleTap()`. */
    method HandleTap() returns (timers: seq<Timer>)
      requires Valid() && TapAllowed(view)
      modifies this
      ensures Valid()
      ensures view == Tap(old(view)).game && timers == Tap(old(view)).timers
    {
      GameInvariant.TapKeepsInv(view);
      timers := TapStep();
    }

    /** The body of `handleTap()`. */
    method TapStep() returns (timers: seq<Timer>)
      requires TapAllowed(view)
      modifies this
      ensures view == Tap(old(view)).game && timers == Tap(old(view)).timers
    {
      if view.isRevealing || view.isVictoryHold {
        timers := [];
        return;
      }
      var hit := FindHit(Config(view).baseState, TapTolerance(view.currentDifficulty));
      match hit {
        case Some(i) =>
          OnBeatHit(i);
          timers := [];
        case None =>
          if view.roundStartAngle.Some? {
            view := view.(roundMissTriggered := true);
            timers := HandleRoundMiss();
          } else {
            timers := [];
          }
      }
    }

    /** The search loop of `handleTap()`: the first beat at `base` within
        `tolerance` of the scanner, by circular distance. */
    method FindHit(base: BeatState, tolerance: real) returns (hit: Option<nat>)
      ensures hit == FirstHit(view.beatsInCycle, base, view.currentAngle, tolerance, 0)
    {
      var beats := view.beatsInCycle;
      var i := 0;
      while i < |beats|
        invariant 0 <= i <= |beats|
        invariant FirstHit(beats, base, view.currentAngle, tolerance, i)
               == FirstHit(beats, base, view.currentAngle, tolerance, 0)
      {
        var beat := beats[i];
        if beat.state == base {
          var angleDiff := Abs(view.currentAngle - beat.angle);
          if angleDiff > 180.0 {
            angleDiff := 360.0 - angleDiff;
          }
          if angleDiff <= tolerance {
            return Some(i);
          }
        }
        i := i + 1;
      }
      return None;
    }

    /** `onBeatHit(beatsInCycle[i])`. */
    method OnBeatHit(i: nat)
      requires 0 <= view.currentMilestone <= 3 && 1 <= view.currentPattern <= 3 && i < |view.beatsInCycle|
      modifies this
      ensures view == GameSpec.OnBeatHit(old(view), i)
    {
      StartHit();
      ChangeHitBeat(i);
      UpdateRevealMask();
    }

    /** The start of `onBeatHit`: the first tap fixes the fog's speed, and
        the first hit of an attempt records where it started (and, in the
        last milestone, launches the comet from there). */
    method StartHit()
      requires 0 <= view.currentMilestone <= 3
      modifies this
      ensures view == BeginHit(old(view))
    {
      ghost var s0 := view;
      if !view.firstTapMade {
        view := view.(firstTapMade := true, centerRotationSpeed := FirstTapSpeed(view));
      }
      assert view == FirstTap(s0);
      if view.roundStartAngle.None? {
        view := view.(roundStartAngle := Some(view.currentAngle));
        if MilestoneConfigs(view.currentMilestone).targetState == Gone {
          StartCometAnimation(view.currentAngle);
        }
      }
    }

    /** The hit beat moves to the milestone's target and, unless the target
        is `gone`, its baboon marker steps 5 degrees toward the beat. */
    method ChangeHitBeat(i: nat)
      requires 0 <= view.currentMilestone <= 3 && i < |view.beatsInCycle|
      modifies this
      ensures view == old(view).(beatsInCycle := old(view.beatsInCycle)[i := HitBeat(old(view.beatsInCycle)[i], Config(old(view)))])
    {
      var milestone := MilestoneConfigs(view.currentMilestone);
      var beat := view.beatsInCycle[i].(state := milestone.targetState);
      if beat.baboonOffset != 0 && milestone.targetState != Gone {
        beat := beat.(baboonOffset := StepTowardZero(beat.baboonOffset));
      }
      view := view.(beatsInCycle := view.beatsInCycle[i := beat]);
    }

    /** `updateRevealMask()`. */
    method UpdateRevealMask()
      requires 0 <= view.currentMilestone <= 3 && 1 <= view.currentPattern <= 3 && |view.beatsInCycle| > 0
      modifies this
      ensures view == GameSpec.UpdateRevealMask(old(view))
    {
      var milestone := MilestoneConfigs(view.currentMilestone);
      if milestone.isReveal {
        return;
      }
      var numSlices := |view.beatsInCycle|;
      var hitsThisRound := CountAt(view.beatsInCycle, milestone.targetState);
      var patternConfig := PatternConfigOf(view.currentPattern);
      var percentPerRound := (patternConfig.endPercent - patternConfig.startPercent) / 3.0;
      var countingRound := view.currentMilestone - 1;
      var roundStart := patternConfig.startPercent + (countingRound as real) * percentPerRound;
      var incrementPerSlice := percentPerRound / (numSlices as real);
      RevealPercentFormula(view.currentPattern, view.currentMilestone, hitsThisRound, numSlices);
      view := view.(revealPercent := roundStart + (hitsThisRound as real) * incrementPerSlice);
    }

    /** The start of `startCometAnimation(startAngle)`. */
    method StartCometAnimation(startAngle: real)
      modifies this
      ensures view == StartComet(old(view), startAngle)
    {
      view := view.(cometStartAngle := startAngle);
      view := view.(cometAngle := startAngle);
      view := view.(cometAnimating := true);
    }

    /** `cancelCometAnimation()`. */
    method CancelCometAnimation()
      modifies this
      ensures view == CancelComet(old(view))
    {
      if !view.cometAnimating {
        return;
      }
      view := view.(cometAnimating := false);
    }

    /** One `animateComet` frame, `delta` seconds after the previous one. */
    method AnimateComet(delta: real) returns (timers: seq<Timer>)
      requires Valid() && CometAllowed(view)
      modifies this
      ensures Valid()
      ensures view == CometTick(old(view), delta).game && timers == CometTick(old(view), delta).timers
    {
      GameInvariant.CometTickKeepsInv(view, delta);
      timers := CometStep(delta);
    }

    /** The body of `animateComet()`. */
    method CometStep(delta: real) returns (timers: seq<Timer>)
      requires CometAllowed(view)
      modifies this
      ensures view == CometTick(old(view), delta).game && timers == CometTick(old(view), delta).timers
    {
      var speed := if view.bpmCalc.Some? then view.bpmCalc.value.rotationSpeed else 90.0;
      var travel := speed * delta;
      var angle := view.cometAngle + travel;
      assert angle == CometReach(view, delta);
      timers := CometMoveTo(angle);
    }

    /** A comet frame: the comet, if flying, reaches `angle`. */
    method CometMoveTo(angle: real) returns (timers: seq<Timer>)
      requires CometAllowed(view)
      modifies this
      ensures view == CometMove(old(view), angle).game && timers == CometMove(old(view), angle).timers
    {
      if !view.cometAnimating {
        timers := [];
        return;
      }
      timers := CometFly(angle);
    }

    /** The flying comet reaches `angle`; once it has travelled a full lap
        from where it started, the animation completes. */
    method CometFly(angle: real) returns (timers: seq<Timer>)
      requires CometAllowed(view)
      modifies this
      ensures view == CometAt(old(view), angle).game && timers == CometAt(old(view), angle).timers
    {
      var traveledAngle := angle - view.cometStartAngle;
      if traveledAngle >= 360.0 {
        view := view.(cometAngle := angle);
        timers := CompleteCometAnimation();
      } else {
        view := view.(cometAngle := angle);
        timers := [];
      }
    }

    /** `completeCometAnimation()`. */
    method CompleteCometAnimation() returns (timers: seq<Timer>)
      requires CometAllowed(view)
      modifies this
      ensures view == CompleteComet(old(view)).game && timers == CompleteComet(old(view)).timers
    {
      view := view.(cometAnimating := false);
      var allGone := AllAt(view.beatsInCycle, Gone);
      if allGone {
        view := view.(isRunning := false);
        view := view.(isVictoryHold := true);
        timers := [GameSpec.EndVictoryHold];
      } else {
        view := view.(roundMissTriggered := true);
        timers := HandleRoundMiss();
      }
    }

    /** The end of the victory hold after the comet. */
    method EndVictoryHold() returns (timers: seq<Timer>)
      requires Valid()
      modifies this
      ensures Valid()
      ensures view == VictoryHoldElapsed(old(view)).game
      ensures timers == VictoryHoldElapsed(old(view)).timers
    {
      GameInvariant.VictoryHoldElapsedKeepsInv(view);
      view := view.(isVictoryHold := false);
      timers := HandlePatternComplete();
    }

    /** `handleRoundMiss()`. */
    method HandleRoundMiss() returns (timers: seq<Timer>)
      requires 0 <= view.currentMilestone <= 3 && 1 <= view.currentPattern <= 3
      modifies this
      ensures view == RoundMiss(old(view)).game && timers == RoundMiss(old(view)).timers
    {
      CancelCometAnimation();
      RevertHitBeats();
      ResetRoundReveal();
      timers := [SettleAfterMiss];
    }

    /** The reveal of `handleRoundMiss` goes back to where the current round
        started. */
    method ResetRoundReveal()
      requires 0 <= view.currentMilestone <= 3 && 1 <= view.currentPattern <= 3
      modifies this
      ensures view == old(view).(revealPercent := RoundStartPercent(old(view.currentPattern), old(view.currentMilestone)))
    {
      var patternConfig := PatternConfigOf(view.currentPattern);
      var percentPerRound := (patternConfig.endPercent - patternConfig.startPercent) / 3.0;
      var startPercent := if view.currentMilestone > 0
        then patternConfig.startPercent + ((view.currentMilestone - 1) as real) * percentPerRound
        else patternConfig.startPercent;
      assert startPercent == RoundStartPercent(view.currentPattern, view.currentMilestone);
      view := view.(revealPercent := startPercent);
    }

    /** The `forEach` of `handleRoundMiss`: every beat at the milestone's
        target goes back to its base, its baboon marker one step back. */
    method RevertHitBeats()
      requires 0 <= view.currentMilestone <= 3
      modifies this
      ensures view == old(view).(beatsInCycle := RevertAll(old(view.beatsInCycle), Config(old(view))))
    {
      var milestone := MilestoneConfigs(view.currentMilestone);
      var beats := view.beatsInCycle;
      var i := 0;
      while i < |beats|
        invariant 0 <= i <= |beats| == |view.beatsInCycle|
        invariant forall k :: 0 <= k < i ==> beats[k] == RevertBeat(view.beatsInCycle[k], milestone)
        invariant forall k :: i <= k < |beats| ==> beats[k] == view.beatsInCycle[k]
      {
        var beat := beats[i];
        if beat.state == milestone.targetState {
          var offset := if beat.baboonDirection > 0 then MinInt(MaxBaboonOffset, beat.baboonOffset + 5)
                        else Max(-MaxBaboonOffset, beat.baboonOffset - 5);
          beats := beats[i := beat.(state := milestone.baseState, baboonOffset := offset)];
        }
        i := i + 1;
      }
      view := view.(beatsInCycle := beats);
    }

    /** `handlePerfectCycle()`. */
    method HandlePerfectCycle() returns (timers: seq<Timer>)
      modifies this
      ensures view == PerfectCycle(old(view)).game && timers == PerfectCycle(old(view)).timers
    {
      view := view.(currentMilestone := view.currentMilestone + 1);
      if view.currentMilestone >= 4 {
        if !view.cometAnimating {
          timers := HandlePatternComplete();
        } else {
          timers := [];
        }
      } else {
        view := view.(roundStartAngle := None);
        view := view.(roundMissTriggered := false);
        timers := [];
      }
    }

    /** `handlePatternComplete()`. */
    method HandlePatternComplete() returns (timers: seq<Timer>)
      modifies this
      ensures view == PatternComplete(old(view)).game
      ensures timers == PatternComplete(old(view)).timers
    {
      if view.currentPattern >= 3 {
        timers := HandleFullVictory();
      } else {
        view := view.(currentPattern := view.currentPattern + 1);
        timers := [StageHandoff];
      }
    }

    /** `handleFullVictory()`, whose `fillXPMeter()` adds a challenge's XP. */
    method HandleFullVictory() returns (timers: seq<Timer>)
      modifies this
      ensures view == FullVictory(old(view)).game && timers == FullVictory(old(view)).timers
    {
      view := view.(isRunning := false);
      view := view.(isVictoryHold := true);
      view := view.(victoryComplete := true);
      view := view.(revealPercent := 100.0);
      timers := AddXP(XPPerChallenge);
    }

    /** `addXP(points)`. */
    method AddXP(points: int) returns (timers: seq<Timer>)
      modifies this
      ensures view == GameSpec.AddXP(old(view), points).game
      ensures timers == GameSpec.AddXP(old(view), points).timers
    {
      var required := PointsRequired(view.currentXPLevel);
      view := view.(currentXP := view.currentXP + points);
      timers := if view.currentXP >= required then [LevelUp(view.currentXP - required)] else [];
    }

    /** `handleLevelUp(overflow)`. */
    method HandleLevelUp(overflow: int) returns (timers: seq<Timer>)
      requires Valid()
      modifies this
      ensures Valid()
      ensures view == GameSpec.HandleLevelUp(old(view), overflow).game
      ensures timers == GameSpec.HandleLevelUp(old(view), overflow).timers
    {
      GameInvariant.HandleLevelUpKeepsInv(view, overflow);
      if view.currentXPLevel < |XPLevels| {
        view := view.(currentXPLevel := view.currentXPLevel + 1);
      }
      timers := [ResetXP(overflow)];
    }

    /** The end of the level-up effect, 2 s after `handleLevelUp`. */
    method EndLevelUpEffect(overflow: int) returns (timers: seq<Timer>)
      requires Valid()
      modifies this
      ensures Valid()
      ensures view == LevelUpEffectElapsed(old(view), overflow).game
      ensures timers == LevelUpEffectElapsed(old(view), overflow).timers
    {
      GameInvariant.LevelUpEffectElapsedKeepsInv(view, overflow);
      view := view.(currentXP := 0);
      timers := [GameSpec.ApplyOverflow(overflow)];
    }

    /** The overflow timer, 100 ms after the effect ends. */
    method ApplyOverflow(overflow: int) returns (timers: seq<Timer>)
      requires Valid()
      modifies this
      ensures Valid()
      ensures view == OverflowDelayElapsed(old(view), overflow).game
      ensures timers == OverflowDelayElapsed(old(view), overflow).timers
    {
      GameInvariant.OverflowDelayElapsedKeepsInv(view, overflow);
      if overflow > 0 {
        timers := AddXP(overflow);
      } else {
        timers := [];
      }
    }

    /** `loadNextPattern()`, run by the stage hand-off timer. */
    method LoadNextPattern(early: seq<bool>, delta: real) returns (timers: seq<Timer>)
      requires Valid() && |early| >= |view.originalPatternBeats| && 0.0 <= delta < 2.0
      modifies this
      ensures Valid()
      ensures view == GameSpec.LoadNextPattern(old(view), early, delta).game
      ensures timers == GameSpec.LoadNextPattern(old(view), early, delta).timers
    {
      GameInvariant.LoadNextPatternKeepsInv(view, early, delta);
      ResetStage();
      if |view.originalPatternBeats| > 0 {
        RebuildStage(early);
        timers := AnimateFrame(delta);
      } else {
        timers := [];
      }
    }

    /** The fields `loadNextPattern` resets first. */
    method ResetStage()
      requires 1 <= view.currentPattern <= 3
      modifies this
      ensures view == ResetForStage(old(view))
    {
      view := view.(currentMilestone := 1);
      view := view.(roundStartAngle := None);
      view := view.(roundMissTriggered := false);
      view := view.(isVictoryHold := false);
      view := view.(cycleJustCompleted := false);
      view := view.(cometAnimating := false);
      view := view.(currentAngle := 5.0);
      view := view.(bpmCalc := Some(BpmCalculator.Create(PatternConfigOf(view.currentPattern).bpm)));
    }

    /** The stored pattern's beats rebuilt silver, and the scanner restarted. */
    method RebuildStage(early: seq<bool>)
      requires |early| >= |view.originalPatternBeats|
      requires view.bpmCalc.Some? && 1 <= view.currentPattern <= 3 && 0 <= view.currentMilestone <= 3
      modifies this
      ensures view == RestartStage(old(view), early)
    {
      view := view.(beatsInCycle := MakeBeats(view.originalPatternBeats, early, Silver, BeatRotationOffset));
      view := view.(isRevealing := false);
      view := view.(revealedBeats := LabelSet(view.originalPatternBeats));
      view := view.(isRunning := true);
    }

    /** `startNewChallenge()`, after a full victory. */
    method StartNewChallenge()
      requires Valid()
      modifies this
      ensures Valid() && view == GameSpec.StartNewChallenge(old(view))
    {
      GameInvariant.StartNewChallengeKeepsInv(view);
      view := view.(victoryComplete := false);
      view := view.(isVictoryHold := false);
      view := view.(currentPattern := 1);
      view := view.(currentMilestone := 0);
      view := view.(firstTapMade := false);
      view := view.(centerRotationSpeed := 0.0);
      view := view.(revealPercent := PatternConfigOf(1).startPercent);
      view := view.(currentAngle := 0.0);
    }

    /** The difficulty slider: `currentDifficulty` and `rebuildSlices()`. */
    method ChangeDifficulty(difficulty: int)
      requires Valid()
      modifies this
      ensures Valid() && view == GameSpec.ChangeDifficulty(old(view), difficulty)
    {
      GameInvariant.ChangeDifficultyKeepsInv(view, difficulty);
      view := view.(currentDifficulty := difficulty);
    }

    /** The cooldown timer of `checkForCompleteCycle` and of the reveal end. */
    method CooldownElapsed()
      requires Valid()
      modifies this
      ensures Valid() && view == GameSpec.CooldownElapsed(old(view))
    {
      GameInvariant.CooldownElapsedKeepsInv(view);
      view := view.(cycleJustCompleted := false);
    }

    /** The settle timer after a round miss. */
    method MissSettled()
      requires Valid()
      modifies this
      ensures Valid() && view == GameSpec.MissSettled(old(view))
    {
      GameInvariant.MissSettledKeepsInv(view);
      view := view.(roundStartAngle := None);
      view := view.(roundMissTriggered := false);
    }
  }
}
