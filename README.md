# MelodyQuest rhythm core in Dafny

MelodyQuest is a browser rhythm game. A scanner sweeps a circle of eight
beat positions and the player taps a drum pad as the scanner crosses each
beat slice. A pattern is played in three stages at rising tempo (80, 100
and 120 BPM), and each stage has a reveal pass followed by three scored
milestones. Each milestone moves every beat one colour up:
silver → white → gold → gone. A stage uncovers one third of a hidden
picture (10–40 %, 40–70 %, 70–100 %), and the last milestone is played
against a comet that must not finish its lap first. Patterns come from
four groups of 25, and a settings menu walks through the group in order,
never offering a pattern already completed until the group is reset.

This project models that core and proves properties of it:

- `Game` (game.dfy): class `RhythmGame`, the game's state machine. Its
  methods carry the loops of the source (reveal, miss check, hit search,
  revert), and each is proved equal to a specification function of module
  `GameSpec` (game_spec.dfy). Every `setTimeout` continuation is a method
  of its own, and every operation returns the timers it schedules as a
  `seq<Timer>`.
- `GameSpec` (game_spec.dfy): the gameplay state as the record `GameView`,
  one function per operation, and the invariant `Inv`: in milestones 1..3
  every beat is at the milestone's base or target state, plus bounds on
  the angle, the percent, the stage, the milestone and the XP.
- `GameInvariant` (game_invariant.dfy): every operation and every timer
  continuation preserves `Inv`.
- `GameProperties` (game_properties.dfy): the promises of the game rules
  (tap handling, hit effects, miss detection, round miss, progression, XP
  chain, comet deadline, stage reload).
- `Beats` (beats.dfy): pure beat helpers (milestone table, angles,
  rotation, widths, circular distance, beat updates, searches).
- `Stages` (stages.dfy): the stage table and the reveal-percent arithmetic.
- `Experience` (experience.dfy): the XP level table and
  `adjustColorBrightness` with hex parsing and printing.
- `Labels` (labels.dfy): the eight beat labels `1`, `1A`, …, `4A`.
- `BpmCalculator` (bpm_calculator.dfy): `BPMCalculator` of challenges.js.
- `RhythmLibrary` (rhythm_library.dfy): the pattern groups,
  `createChallengeFromPattern`, `getGroupsInfo`, and class
  `PatternProgress`, which holds the completed-pattern sets and their
  operations.
- `Settings` (settings.dfy): class `SettingsMenu` with `loadNewRhythm`,
  `selectGroup` and `skipToNextPattern` over a real `RhythmGame` and
  `PatternProgress`.

Angles, speeds and percents are exact `real` numbers. Beat colours are
the datatype `BeatState`, and beat labels are the datatype `Label`. Wall
time enters only as the `delta` parameters. The random early/late choice
of each baboon marker enters as the `early: seq<bool>` parameter.

## Model

| member | source | states |
|---|---|---|
| Labels.Parse | game.js:187-205 | parsing succeeds exactly on label texts: a parsed label prints back as the same text, and the text of every label parses to that label |
| Labels.ParseText | game.js:187-205 | every label's text parses back to that label |
| Beats.MilestonesChain | game.js:37-42 | each milestone's target state is the next one's base state, base and target differ, only milestone 0 is the reveal, and milestone 3 ends at gone |
| Beats.GetBeatAngle | game.js:197-205 | a position string that is not an inherited `Object.prototype` key has an angle exactly when it is one of the eight labels |
| Beats.DialIndex | game.js:188-189 | the dial index of a label is below 8 |
| Beats.DialIndexInverse | game.js:188-189 | the label→index map and the index→label table are inverse |
| Beats.LabelAngle | game.js:197-205 | a label's angle is 45° times its dial index, within [0, 360) |
| Beats.LabelAngleAgrees | game.js:197-205 | the string lookup of a label's text gives the label's angle |
| Beats.JsRem | game.js:193 | JavaScript `%`: the remainder lies strictly between −b and b, equals the Euclidean one for a non-negative dividend and is non-positive for a negative one |
| Beats.RotateBeatPosition | game.js:187-195 | `rotateBeatPosition`; `RotateLabelAgrees` states that on a label's text it gives the rotated label |
| Beats.RotateLabel | game.js:187-195 | the rotated label's dial index is the old index plus twice the offset, mod 8 |
| Beats.RotateLabelAgrees | game.js:187-195 | `rotateBeatPosition` on a label's text gives the rotated label's text |
| Beats.RotateLabelProperties | game.js:187-195 | a zero offset leaves the label unchanged, and the index shifts by twice the offset mod 8 |
| Beats.RotateLabelInjective | game.js:187-195 | rotation by the same offset never maps two labels to one |
| Beats.SliceWidth | game.js:213-214 | widths are 8 + 4·d for difficulties 1..5, and 24 for any other difficulty; always within [12, 28] |
| Beats.TapTolerance | game.js:655-658 | the tap tolerance is three quarters of the slice width, within [9, 21] |
| Beats.MissWindow | game.js:604-607 | the miss window w/2 + w/2 equals the slice width |
| Beats.CircularDistance | game.js:666-667 | for angles in [0, 360) the distance is min(\|Δ\|, 360 − \|Δ\|), within [0, 180] |
| Beats.CircularDistanceSymmetric | game.js:666-667 | the circular distance is symmetric |
| Beats.Wrap | game.js:612-615 | a difference within [−360, 360) becomes an angle in [0, 360) that differs from it by 0 or 360 |
| Beats.WrapIsModulo | game.js:612-615 | on [−360, 360) the single add-360 equals the true modulo |
| Beats.CountAt | game.js:744-747 | the count of beats at a state is at most the length, equals it exactly when all beats are at the state, and is 0 exactly when none is |
| Beats.CountAtStep | game.js:744-747 | moving one beat onto the state raises the count by exactly one |
| Beats.MakeBeats | game.js:503-522 | one beat per position, in order, each keeping its original position, rotated, at the given state, with offset 15 in the chosen direction |
| Beats.StepTowardZero | game.js:716-724 | a baboon offset moves 5° toward 0 and never crosses 0 |
| Beats.HitBeat | game.js:707-724 | the hit beat reaches the target state, keeps its position, angle and direction, keeps its offset when the target is gone, and otherwise has its \|offset\| reduced by 5 down to 0 |
| Beats.RevertBeat | game.js:1340-1362 | a beat at the target state goes back to the base state with its offset moved 5° in its direction, clamped to [−15, 15]; any other beat is untouched |
| Beats.RevertAll | game.js:1340-1362 | reverting acts on every beat separately and keeps the length |
| Beats.RevertAllProperties | game.js:1340-1362 | after a revert no beat is at the target state, and beats that were all at base or target are all at base |
| Beats.SetAllState | game.js:572-583 | every beat gets the state and nothing else of any beat changes |
| Beats.FirstHit | game.js:660-673 | the found index is the first beat at the base state within the tolerance; none is found exactly when no beat qualifies |
| Beats.RevealFrom | game.js:552-564 | the revealed set grows by exactly the positions of the beats the scanner has reached; a beat turns silver exactly when it is reached and its position was revealed neither before the pass nor by an earlier beat of it; every other beat, reached or not, is unchanged |
| Beats.PassedFrom | game.js:552-564 | the reached positions of a slice are those of its first beat and of the rest |
| Beats.RevealStepTaken | game.js:553-559 | revealing beat i and then the rest gives the pass's result from i |
| Beats.RevealStepSkipped | game.js:553-559 | skipping beat i and then the rest gives the pass's result from i |
| Stages.StagesTile | game.js:26-30 | the three stages tile 10–100 % without gaps and their tempos rise |
| Stages.PercentPerRound | game.js:746-755 | a round uncovers one third of its stage's range, that is 10 % |
| Stages.RoundStartPercent | game.js:1364-1376 | a round starts at the stage start plus (m − 1) thirds, within the stage's range |
| Stages.RevealPercent | game.js:737-765 | the percent after h of n hits lies within its round's third, is the round's end when h = n and its start when h = 0 |
| Stages.RevealPercentMonotone | game.js:737-765 | more hits never uncover less |
| Stages.RoundsChain | game.js:737-765 | a finished round ends where the next round starts, and the last round ends where the next stage starts |
| Stages.RevealPercentFormula | game.js:737-765 | percent = start + (m − 1)·R/3 + h·(R/3)/n |
| Stages.FractionBounds | game.js:757-763 | h·(w/n) lies within [0, w] and equals w when h = n |
| Stages.ShareMonotone | game.js:757-763 | h·(w/n) grows with h |
| Experience.GetCurrentLevelConfig | game.js:1045-1047 | the config of levels 1..7 is that level, any other level gets level 7's; 100 points are always required |
| Experience.PointsRequired | game.js:97-113 | every level requires 100 points |
| Experience.LevelCount | game.js:97-113 | there are seven levels |
| Experience.GetNextLevelConfig | game.js:1050-1052 | a next level exists exactly for levels 0..6 and is the level after |
| Experience.LevelColorsWellFormed | game.js:97-113 | every level's colour is a lower-case `#rrggbb` and the levels are numbered 1..7 in order |
| Experience.AdjustColorBrightness | game.js:1238-1245 | the result is a `#rrggbb` colour whose channels are the input's channels plus the step, each clamped to [0, 255] |
| Experience.Clamp | game.js:1242-1244 | a channel is clamped to [0, 255] |
| Experience.Channels | game.js:1239-1241 | the three channels of a colour are bytes |
| Experience.ColorValue | game.js:1239 | a six-digit colour parses to a value below 2^24 |
| Experience.PrintedColor | game.js:1245 | printing three bytes gives a lower-case colour whose channels are those bytes |
| Experience.AdjustByZero | game.js:1238-1245 | a step of 0 leaves a lower-case colour unchanged |
| Experience.ToHexLeadingOne | game.js:1245 | `(2^24 + v).toString(16)` is "1" followed by v as six hex digits |
| Experience.ParseFixedHex | game.js:1238-1245 | parsing fixed-width hex gives back the value |
| Experience.FixedHexOfParse | game.js:1238-1245 | printing a parsed lower-case hex string gives back the string |
| Experience.HexDigit | game.js:1245 | each digit printed is lower-case hex and parses back to its value |
| Experience.HexDigitOfValue | game.js:1238-1245 | a lower-case hex digit prints back as itself |
| BpmCalculator.Create | challenges.js:44-49 | quarter = 60/bpm, full rotation = 4·quarter, speed·full = 360 and speed = 1.5·bpm |
| BpmCalculator.SpeedIsOneAndAHalfBpm | challenges.js:46-48 | 360 / (4·60/bpm) = 1.5·bpm |
| BpmCalculator.GetBeatAngle | challenges.js:52-64 | for keys other than the inherited `Object.prototype` names, a defined angle is a multiple of 45 in [0, 360) |
| BpmCalculator.BeatAngleTable | challenges.js:52-64 | the eight labels map to 0, 45, …, 315; the numbers 1..4 agree with the labels `1`..`4`; distinct labels give distinct angles |
| BpmCalculator.BeatAngleUndefinedElsewhere | challenges.js:52-64 | any other key, other than an inherited `Object.prototype` name, gives no angle |
| BpmCalculator.GetTimeAtAngle | challenges.js:67-69 | time · speed = angle |
| BpmCalculator.TimeAtAngleLinear | challenges.js:67-69 | the time is 0 at 0°, a full rotation at 360°, and additive |
| BpmCalculator.GetSliceWidthDegrees | challenges.js:78-88 | widths are 8 + 4·d for difficulties 1..5 and 20 otherwise |
| BpmCalculator.SliceWidthIncreasing | challenges.js:78-88 | the width strictly increases with the difficulty |
| BpmCalculator.GetHitToleranceDegrees | challenges.js:72-75 | the tolerance is half the slice width |
| BpmCalculator.GetHitZoneWidthDegrees | challenges.js:91-94 | the hit zone equals the tolerance, within [6, 14] |
| RhythmLibrary.CreateChallengeFromPattern | rhythm-library.js:123-138 | `createChallengeFromPattern` for group names other than the inherited `Object.prototype` names; `ChallengeFields` states its fields and the group difficulties |
| RhythmLibrary.ChallengeFields | rhythm-library.js:123-138 | the challenge keeps the pattern and the bpm; starter→4, intermediate→3, advanced→2, expert→1, and an unknown group name that is not an inherited `Object.prototype` name has no difficulty |
| RhythmLibrary.GetGroupsInfo | rhythm-library.js:204-235 | `getGroupsInfo` without display text; `GroupsInfoAgrees` states that it agrees with the library |
| RhythmLibrary.GroupsInfoAgrees | rhythm-library.js:204-235 | each group's info counts its 25 patterns and carries the same difficulty as `createChallengeFromPattern` |
| RhythmLibrary.FirstOpen | rhythm-library.js:171-180 | the found index is the lowest one whose key is not completed; none exactly when every key is completed |
| RhythmLibrary.NextPatternFromGroup | rhythm-library.js:161-184 | `getNextPatternFromGroup` for group names other than the inherited `Object.prototype` names; `NextPatternIsFirstUncompleted` states that it returns the first uncompleted pattern in both directions |
| RhythmLibrary.NextPatternIsFirstUncompleted | rhythm-library.js:161-184 | for group names other than the inherited `Object.prototype` names, the result is empty exactly when the group is unknown or every key is completed; otherwise it is the lowest-index uncompleted pattern with its `join(',')` key |
| RhythmLibrary.CompletedKeyNeverOffered | rhythm-library.js:171-179 | a completed key is never offered |
| RhythmLibrary.ResetGroupOffersFirst | rhythm-library.js:171-194 | after a reset a non-empty group offers its first pattern |
| RhythmLibrary.KeysOfMember | rhythm-library.js:172 | every pattern's key is among the group's keys |
| RhythmLibrary.KeysOfSize | rhythm-library.js:172 | a list has at most as many distinct keys as patterns |
| RhythmLibrary.PatternKeyInjective | rhythm-library.js:172 | two patterns with the same `join(',')` key are the same pattern, because no label's spelling holds a comma |
| RhythmLibrary.KeysOfWithin | rhythm-library.js:172 | patterns drawn from another list add no key outside that list's keys |
| RhythmLibrary.KeysOfSource | rhythm-library.js:172 | every key of a list is the key of one of its patterns |
| RhythmLibrary.KeysOfDistinct | rhythm-library.js:172 | pairwise different patterns have as many distinct keys as patterns |
| RhythmLibrary.SameKeysAsDistinct | rhythm-library.js:172 | two lists drawing on each other's patterns have the same keys, as many as the second list has patterns when these differ pairwise |
| RhythmLibrary.StarterDistinctKeys | rhythm-library.js:6-32 | the starter group's 25 patterns have exactly 15 distinct keys, so the group is exhausted after 15 completions |
| RhythmLibrary.PatternProgress.constructor | rhythm-library.js:153-158 | every group starts with an empty completed set |
| RhythmLibrary.PatternProgress.GetNextPatternFromGroup | rhythm-library.js:161-184 | for group names other than the inherited `Object.prototype` names, the search loop returns exactly the first uncompleted pattern and changes no set |
| RhythmLibrary.PatternProgress.MarkPatternCompleted | rhythm-library.js:187-189 | the key is added to that group's set and every other group is unchanged |
| RhythmLibrary.PatternProgress.ResetGroupProgress | rhythm-library.js:192-194 | only that group's set is emptied |
| RhythmLibrary.PatternProgress.GetGroupProgress | rhythm-library.js:197-201 | total is the group's length and completed is its set's size |
| RhythmLibrary.IsLastInGroupCount | rhythm-library.js:177 | `isLastInGroup` holds exactly when the completed count is the length minus one |
| RhythmLibrary.StarterNeverLast | rhythm-library.js:172-177 | with only starter keys completed, the count stays at or below 15 and no starter pattern is ever reported last |
| RhythmLibrary.CompletedWithinKeys | rhythm-library.js:172 | when every completed key is the key of one of its group's patterns, a group's completed set lies within that group's key set |
| RhythmLibrary.StarterGroup | rhythm-library.js:6-32 | the starter group has 25 patterns |
| RhythmLibrary.SubsetSize | rhythm-library.js:177 | a subset is no larger than its superset |
| RhythmLibrary.LibraryPatternsWellFormed | rhythm-library.js:4-120 | every group has 25 patterns of 1..8 beats |
| RhythmLibrary.StarterWellFormed | rhythm-library.js:6-32 | the starter group has 25 patterns of 1..8 beats |
| RhythmLibrary.IntermediateWellFormed | rhythm-library.js:35-61 | the intermediate group has 25 patterns of 1..8 beats |
| RhythmLibrary.AdvancedWellFormed | rhythm-library.js:64-90 | the advanced group has 25 patterns of 1..8 beats |
| RhythmLibrary.ExpertWellFormed | rhythm-library.js:93-119 | the expert group has 25 patterns of 1..8 beats |
| GameSpec.Initial | game.js:5-45 | the constructed game satisfies the invariant: stopped, no beats, milestone 0, stage 1, level 1 with 0 XP, difficulty 4 |
| GameSpec.ChallengeDifficulty | game.js:488 | `challenge.difficulty \|\| 4`: a missing or 0 difficulty becomes 4 |
| GameSpec.ResetForChallenge | game.js:418-530 | the reset state allows a frame |
| GameSpec.CenterRotation | game.js:171-185 | turning the fog touches no gameplay field |
| GameSpec.CheckForMisses | game.js:600-623 | the miss check keeps the stage, milestone and reveal flag |
| GameSpec.BeginHit | game.js:693-705 | the first-tap and round-start part of a hit keeps the beats, stage and milestone |
| GameSpec.FirstTap | game.js:693-696 | the first-tap step keeps the beats, stage and milestone |
| GameSpec.RoundStart | game.js:698-705 | the round-start step keeps the beats, stage and milestone |
| GameSpec.StartRound | game.js:698-705 | starting a round keeps the beats, stage and milestone |
| GameSpec.RoundMiss | game.js:1329-1390 | a round miss keeps the stage, milestone and reveal flag |
| GameSpec.ResetForStage | game.js:866-907 | the stage reset keeps the stage and the stored pattern, sets the new tempo and milestone 1 |
| GameSpec.RestartStage | game.js:910-945 | the rebuilt stage allows a frame |
| GameSpec.LoadChallenge | game.js:418-532 | `loadChallenge` and its first frame; `LoadChallengeSetup` and `LoadChallengeKeepsTracking` state its result, `LoadChallengeKeepsInv` that it keeps the invariant |
| GameSpec.Frame | game.js:534-598 | one `animate` frame; `FrameKeepsInv` states that a frame of less than one lap keeps the invariant |
| GameSpec.FrameBy | game.js:534-598 | a frame by given scanner and fog steps; `FrameByKeepsInv` states that it keeps the invariant |
| GameSpec.Advance | game.js:548-594 | the scanner step followed by the reveal or the scoring branch; `AdvanceKeepsInv` states that it keeps the invariant |
| GameSpec.ScanAdvance | game.js:548-594 | the scoring branch with its single wrap; `ScanStepKeepsInv` and `ScanStepAngle` state its invariant and angle |
| GameSpec.WrapOnce | game.js:591 | the single subtraction of 360; `ScannerWraps` states that it keeps the angle in [0, 360) |
| GameSpec.RevealFrame | game.js:551-589 | the reveal frame; `RevealFrameKeepsInv` states that it keeps the invariant, `RevealEndAngle` what the end of the reveal leaves |
| GameSpec.ScanFrame | game.js:590-594 | the miss check and then the cycle check; `ScanFrameKeepsInv` and `ScanFrameKeepsAngle` state its invariant and angle |
| GameSpec.MissDue | game.js:610-620 | the beat-miss test; `CheckForMissesFires` states it as the firing condition in both directions |
| GameSpec.CheckForCompleteCycle | game.js:625-634 | the perfect-cycle check; `CheckForCompleteCycleKeepsInv` and `CheckForCompleteCycleKeepsAngle` state its invariant and angle |
| GameSpec.TapTarget | game.js:660-673 | the beat a tap hits; `TapHitsFirstInWindow` states that it is the first base-state beat within the tap window |
| GameSpec.Tap | game.js:636-687 | `handleTap`; `TapIgnored`, `TapHitsFirstInWindow` and `TapWithoutHit` state its three outcomes, `TapKeepsInv` that it keeps the invariant |
| GameSpec.FirstTapSpeed | game.js:695 | the fog speed fixed by the first tap; `OnBeatHitFirstTap` states that it is half the scanner speed |
| GameSpec.OnBeatHit | game.js:689-731 | `onBeatHit`; `OnBeatHitChangesOneBeat`, `OnBeatHitStartsRound` and `OnBeatHitReveal` state its effect, `OnBeatHitKeepsInv` that it keeps the invariant |
| GameSpec.UpdateRevealMask | game.js:733-774 | `updateRevealMask`; `MaskPercent` and `MaskKeepsBeats` state its result, `UpdateRevealMaskKeepsInv` that it keeps the invariant |
| GameSpec.StartComet | game.js:1393-1415 | the comet's start; `RoundStartsWithComet` states where the round start launches it |
| GameSpec.CancelComet | game.js:1517-1533 | `cancelCometAnimation`; `CancelCometFacts` states that only the comet stops |
| GameSpec.CometTick | game.js:1417-1452 | one comet frame; `CometDeadline` states when it lands, `CometTickKeepsInv` that it keeps the invariant |
| GameSpec.CometMove | game.js:1419-1450 | a comet move to a given angle; `CometMoveKeepsInv` states that it keeps the invariant |
| GameSpec.CompleteComet | game.js:1457-1514 | `completeCometAnimation`; `CompleteCometFacts` states its two outcomes, `CompleteCometKeepsInv` that it keeps the invariant |
| GameSpec.VictoryHoldElapsed | game.js:1497-1500 | the end of the victory hold; `VictoryHoldEnds` states that the stage completes |
| GameSpec.MissSettled | game.js:1386-1389 | the settle after a miss; `MissSettledKeepsInv` states that it keeps the invariant |
| GameSpec.CooldownElapsed | game.js:588 | the cooldown clear; `CooldownElapsedKeepsInv` states that it keeps the invariant |
| GameSpec.PerfectCycle | game.js:776-817 | `handlePerfectCycle`; `PerfectCycleAdvances`, `NextMilestone`, `LastMilestoneDone` and `LastMilestoneWaits` state its effect |
| GameSpec.PatternComplete | game.js:820-836 | `handlePatternComplete`; `PatternCompleteFacts` states that the stage advances or the game ends in victory |
| GameSpec.FullVictory | game.js:957-991 | `handleFullVictory`; `FullVictoryKeepsInv` states that it keeps the invariant, `PatternCompleteFacts` its XP |
| GameSpec.AddXP | game.js:1055-1072 | `addXP`; `AddXPFacts` states when a level up is scheduled |
| GameSpec.HandleLevelUp | game.js:1092-1107 | `handleLevelUp`; `HandleLevelUpFacts` states that the level rises only below 7 |
| GameSpec.LevelUpEffectElapsed | game.js:1109-1113 | the XP reset; `LevelUpChain` states the whole level-up chain |
| GameSpec.OverflowDelayElapsed | game.js:1127-1133 | re-adding the overflow; `LevelUpChain` states the whole level-up chain |
| GameSpec.LoadNextPattern | game.js:866-954 | `loadNextPattern` and its first frame; `LoadNextPatternSetup` states its result, `LoadNextPatternKeepsInv` that it keeps the invariant |
| GameSpec.StartNewChallenge | game.js:1268-1322 | `startNewChallenge`; `StartNewChallengeKeepsInv` states that it keeps the invariant |
| GameSpec.ChangeDifficulty | game.js:132-160 | the difficulty slider; `ChangeDifficultyKeepsBeats` states that the beats are kept, `ChangeDifficultyKeepsInv` the invariant |
| GameInvariant.MilestoneStates | game.js:37-42 | base and target differ, milestones chain, and milestone 3 ends at gone |
| GameInvariant.LoadChallengeKeepsInv | game.js:418-532 | loading a challenge preserves the invariant |
| GameInvariant.FrameKeepsInv | game.js:534-598 | a frame preserves the invariant while it moves the scanner less than a lap |
| GameInvariant.FrameByKeepsInv | game.js:534-598 | a frame preserves the invariant for any step below 360° |
| GameInvariant.CenterRotationKeepsInv | game.js:171-185 | turning the fog preserves the invariant |
| GameInvariant.FogStillKeepsInv | game.js:172-174 | a still fog preserves the invariant |
| GameInvariant.FogTurnsKeepsInv | game.js:176-184 | a turning fog preserves the invariant |
| GameInvariant.AdvanceKeepsInv | game.js:548-594 | a scanner step preserves the invariant |
| GameInvariant.ScanStepKeepsInv | game.js:590-594 | a scoring frame after the wrap preserves the invariant |
| GameInvariant.AngleKeepsInv | game.js:591 | any angle in [0, 360) keeps the invariant |
| GameInvariant.RevealKeepsValid | game.js:552-564 | revealing keeps every beat well formed and the count of beats |
| GameInvariant.RevealFrameKeepsInv | game.js:551-589 | a reveal frame preserves the invariant |
| GameInvariant.RevealEndKeepsInv | game.js:566-589 | the end of the reveal (all silver, milestone 1) preserves the invariant |
| GameInvariant.RevealGoesOnKeepsInv | game.js:552-565 | a reveal frame before 345° preserves the invariant |
| GameInvariant.ScanFrameKeepsInv | game.js:590-594 | the miss check and cycle check preserve the invariant |
| GameInvariant.CheckForMissesKeepsInv | game.js:600-623 | the miss check preserves the invariant |
| GameInvariant.CheckForCompleteCycleKeepsInv | game.js:625-634 | the cycle check preserves the invariant |
| GameInvariant.PerfectCycleKeepsInv | game.js:776-817 | a perfect cycle (all beats at target) preserves the invariant |
| GameInvariant.PatternCompleteKeepsInv | game.js:820-836 | stage completion preserves the invariant |
| GameInvariant.FullVictoryKeepsInv | game.js:957-991 | full victory preserves the invariant |
| GameInvariant.AddXPKeepsInv | game.js:1055-1072 | adding XP preserves the invariant |
| GameInvariant.TapKeepsInv | game.js:636-687 | a tap preserves the invariant |
| GameInvariant.HitKeepsFit | game.js:664-670 | hitting a base-state beat keeps every beat at base or target |
| GameInvariant.OnBeatHitKeepsInv | game.js:689-731 | a hit preserves the invariant |
| GameInvariant.BeginHitKeepsInv | game.js:693-705 | the first-tap and round-start steps preserve the invariant |
| GameInvariant.FirstTapKeepsInv | game.js:693-696 | the first-tap step preserves the invariant |
| GameInvariant.FogStartsKeepsInv | game.js:693-696 | starting the fog preserves the invariant |
| GameInvariant.RoundStartKeepsInv | game.js:698-705 | starting a round preserves the invariant |
| GameInvariant.RoundWithCometKeepsInv | game.js:698-705 | starting the final round with the comet preserves the invariant |
| GameInvariant.RoundWithoutCometKeepsInv | game.js:698-705 | starting another round preserves the invariant |
| GameInvariant.UpdateRevealMaskKeepsInv | game.js:733-774 | the reveal update preserves the invariant |
| GameInvariant.PercentKeepsInv | game.js:768-772 | any percent in [0, 100] keeps the invariant |
| GameInvariant.RoundMissKeepsInv | game.js:1329-1390 | a round miss preserves the invariant |
| GameInvariant.RevertKeepsFit | game.js:1340-1362 | reverting keeps every beat at base or target |
| GameInvariant.CometTickKeepsInv | game.js:1417-1452 | a comet tick preserves the invariant |
| GameInvariant.CometMoveKeepsInv | game.js:1417-1452 | moving the comet preserves the invariant |
| GameInvariant.CometFliesKeepsInv | game.js:1421-1452 | moving a flying comet preserves the invariant |
| GameInvariant.CometLandsKeepsInv | game.js:1425-1428 | a comet reaching a lap preserves the invariant |
| GameInvariant.CometGoesOnKeepsInv | game.js:1430-1449 | a comet short of a lap preserves the invariant |
| GameInvariant.CometAngleKeepsInv | game.js:1421-1423 | any comet angle keeps the invariant and the comet's precondition |
| GameInvariant.CompleteCometKeepsInv | game.js:1457-1514 | the comet's completion preserves the invariant |
| GameInvariant.VictoryHoldElapsedKeepsInv | game.js:1497-1500 | the end of the victory hold preserves the invariant |
| GameInvariant.MissSettledKeepsInv | game.js:1386-1389 | the settle after a miss preserves the invariant |
| GameInvariant.CooldownElapsedKeepsInv | game.js:588 | the cooldown clear preserves the invariant |
| GameInvariant.HandleLevelUpKeepsInv | game.js:1092-1107 | a level up preserves the invariant |
| GameInvariant.LevelUpEffectElapsedKeepsInv | game.js:1109-1113 | the XP reset preserves the invariant |
| GameInvariant.OverflowDelayElapsedKeepsInv | game.js:1127-1133 | re-adding the overflow preserves the invariant |
| GameInvariant.LoadNextPatternKeepsInv | game.js:866-954 | reloading the pattern for the next stage preserves the invariant |
| GameInvariant.StartNewChallengeKeepsInv | game.js:1268-1322 | leaving victory preserves the invariant |
| GameInvariant.ChangeDifficultyKeepsInv | game.js:132-160 | changing the difficulty preserves the invariant |
| GameProperties.TapIgnored | game.js:643 | a tap during the reveal or the victory hold changes nothing and schedules nothing |
| GameProperties.TapHitsFirstInWindow | game.js:655-673 | the beat hit is the first one in array order at the base state within 0.75·width, and only that beat changes |
| GameProperties.TapWithoutHit | game.js:675-686 | with no beat in the window, a tap is a round miss if a round has started and changes nothing otherwise |
| GameProperties.OnBeatHitChangesOneBeat | game.js:689-731 | a hit changes exactly the hit beat, which reaches the target state |
| GameProperties.MaskKeepsBeats | game.js:733-774 | the reveal update touches only the percent |
| GameProperties.OnBeatHitFirstTap | game.js:693-696 | after a hit the first tap is recorded; on the first tap the fog speed becomes half the scanner speed, later taps keep it |
| GameProperties.OnBeatHitStartsRound | game.js:698-705 | the round start is set only when unset, to the scanner angle; in the final milestone the comet starts there |
| GameProperties.BeginHitFacts | game.js:693-705 | the first-tap and round-start rules together, with the percent untouched |
| GameProperties.FirstTapFacts | game.js:693-696 | the first-tap rule, with round and comet untouched |
| GameProperties.FogStarts | game.js:693-696 | on the first tap exactly the tap flag and the fog speed change |
| GameProperties.RoundStartFacts | game.js:698-705 | the round-start rule, with the fog and percent untouched |
| GameProperties.RoundGoesOn | game.js:698-705 | an attempt already under way is left as it is |
| GameProperties.RoundStartsWithComet | game.js:698-705 | the final milestone's first hit starts the round and the comet at the scanner angle |
| GameProperties.RoundStartsWithoutComet | game.js:698-705 | an earlier milestone's first hit starts the round and leaves the comet alone |
| GameProperties.OnBeatHitReveal | game.js:727-765 | after a hit in milestone 1..3 the percent is start_p + (m − 1)·R/3 + h·(R/3)/n, counting the new hit |
| GameProperties.MaskPercent | game.js:733-774 | the reveal update sets the percent from the count of beats at target, and does nothing in the reveal milestone |
| GameProperties.MilestoneStates | game.js:37-42 | base and target differ, and only milestone 0 is the reveal |
| GameProperties.CheckForMissesIdle | game.js:601 | without a started round, or once a miss fired, the check does nothing |
| GameProperties.CheckForMissesFires | game.js:600-623 | the check fires exactly when some base-state beat is passed by more than the width, both measured from the round start mod 360 |
| GameProperties.CheckForMissesOnce | game.js:600-623 | the fired flag is set exactly when a miss is due, and a second check changes nothing |
| GameProperties.RoundMissEffects | game.js:1329-1390 | a round miss reverts exactly the target-state beats, resets the percent to the round's start, stops the comet and schedules the settle |
| GameProperties.RoundMissRestartsRound | game.js:1340-1376 | after a miss every beat is back at base, none at target, and the percent is the round's start |
| GameProperties.PerfectCycleAdvances | game.js:776-817 | a perfect cycle raises the milestone by exactly one; below 4 it clears the attempt, at 4 it completes the stage unless the comet is flying |
| GameProperties.NextMilestone | game.js:779-816 | below 4 the milestone rises and the attempt is cleared |
| GameProperties.LastMilestoneDone | game.js:779-806 | after the last milestone without a comet the stage completes |
| GameProperties.LastMilestoneWaits | game.js:779-806 | after the last milestone with a comet flying nothing else happens |
| GameProperties.PatternCompleteFacts | game.js:820-836 | below stage 3 the stage rises by one and the hand-off is scheduled; at stage 3 the game stops in victory with 100 % and 60 XP added |
| GameProperties.AddXPFacts | game.js:1055-1072 | the points are added and a level up is scheduled exactly when the requirement is reached |
| GameProperties.HandleLevelUpFacts | game.js:1092-1107 | the level rises only while below 7 |
| GameProperties.LevelUpChain | game.js:1055-1137 | the whole level-up chain ends with XP at the overflow, the level raised unless 7, and another level up if the overflow reaches 100 |
| GameProperties.ScannerWraps | game.js:548-591 | outside the reveal the scanner subtracts 360 once and stays in [0, 360) |
| GameProperties.ScanStepAngle | game.js:590-594 | the scoring checks leave the wrapped angle unchanged |
| GameProperties.ScanFrameKeepsAngle | game.js:592-593 | the scoring checks keep the scanner angle |
| GameProperties.CheckForMissesKeepsAngle | game.js:600-623 | the miss check keeps the scanner angle |
| GameProperties.CheckForCompleteCycleKeepsAngle | game.js:625-634 | the cycle check keeps the scanner angle |
| GameProperties.PerfectCycleKeepsAngle | game.js:776-817 | a perfect cycle keeps the scanner angle |
| GameProperties.RevealEndAngle | game.js:566-589 | at 345° the reveal ends: an angle below 360 is kept as it is, one above loses 360; all beats silver, milestone 1, cooldown set and scheduled |
| GameProperties.LoadChallengeSetup | game.js:418-530 | loading sets the tempo to stage 1 (80 BPM, 120°/s) whatever the challenge's bpm, the difficulty to the challenge's or 4, one hidden beat per position, and the reveal from angle 0 |
| GameProperties.LoadChallengeKeepsTracking | game.js:418-532 | loading keeps the pattern key and the rhythm count, and stores the challenge and its beats |
| GameProperties.LoadNextPatternSetup | game.js:866-945 | the next stage keeps stage and pattern, takes the stage's tempo, restarts at milestone 1 and angle 5 with the same beats all silver |
| GameProperties.RestartBeats | game.js:910-945 | the rebuilt beats are the stored pattern, in order, all silver |
| GameProperties.ChangeDifficultyKeepsBeats | game.js:132-160 | a new difficulty keeps every beat as it was |
| GameProperties.CometDeadline | game.js:1421-1452 | the comet flies on below a lap, moving to the new angle, and lands at a lap |
| GameProperties.CometLands | game.js:1457-1514 | after completion the comet is no longer flying |
| GameProperties.CompleteCometFacts | game.js:1457-1514 | with every beat gone the game holds in victory and schedules its end; otherwise the comet counts as a round miss |
| GameProperties.CancelCometFacts | game.js:1517-1533 | cancelling only stops the comet |
| GameProperties.VictoryHoldEnds | game.js:1497-1500 | the end of the hold completes the stage |
| Game.RhythmGame.constructor | game.js:5-45 | the new game is the initial state |
| Game.RhythmGame.LoadChallenge | game.js:418-532 | the new state and timers are those of `GameSpec.LoadChallenge`, and the invariant holds |
| Game.RhythmGame.Animate | game.js:534-598 | a frame is `GameSpec.Frame` and keeps the invariant |
| Game.RhythmGame.AnimateFrame | game.js:534-598 | a frame is `GameSpec.Frame` |
| Game.RhythmGame.AdvanceScanner | game.js:548-594 | the scanner step is `GameSpec.Advance` |
| Game.RhythmGame.MoveScanner | game.js:548 | the angle grows by the step and nothing else changes |
| Game.RhythmGame.RevealStep | game.js:548-589 | a reveal frame is the reveal branch of `GameSpec.Advance`: the scanner moves on and the passed beats are uncovered |
| Game.RhythmGame.ScanStep | game.js:548-594 | a scoring frame is `GameSpec.ScanAdvance`: the scanner moves on, wraps once at 360 and the scoring checks run |
| Game.RhythmGame.ScanAt | game.js:591-593 | with the scanner at the given angle the frame is `GameSpec.ScanFrame` |
| Game.RhythmGame.UpdateCenterRotation | game.js:171-185 | the fog turns as `GameSpec.CenterRotation` |
| Game.RhythmGame.RevealFrame | game.js:551-589 | the reveal frame is `GameSpec.RevealFrame` |
| Game.RhythmGame.RevealPassedBeats | game.js:552-564 | the reveal loop gives `RevealFrom` |
| Game.RhythmGame.ForceSilver | game.js:572-583 | the loop sets every beat silver |
| Game.RhythmGame.ScanFrame | game.js:590-594 | the scoring frame is `GameSpec.ScanFrame` |
| Game.RhythmGame.CheckForMisses | game.js:600-623 | the loop is `GameSpec.CheckForMisses` |
| Game.RhythmGame.CheckForCompleteCycle | game.js:625-634 | the check is `GameSpec.CheckForCompleteCycle` |
| Game.RhythmGame.HandleTap | game.js:636-687 | the hit search loop and its outcome are `GameSpec.Tap`, and the invariant holds |
| Game.RhythmGame.TapStep | game.js:643-686 | a tap is ignored while revealing or holding a victory, scores the hit beat, or, once a round has started, misses the round |
| Game.RhythmGame.FindHit | game.js:660-673 | the search returns the first beat at the base state whose circular distance from the scanner is within the tolerance, as `FirstHit` |
| Game.RhythmGame.OnBeatHit | game.js:689-731 | the hit is `GameSpec.OnBeatHit` |
| Game.RhythmGame.StartHit | game.js:693-705 | the first-tap and round-start steps are `BeginHit` |
| Game.RhythmGame.ChangeHitBeat | game.js:707-724 | only the hit beat changes, to `HitBeat` |
| Game.RhythmGame.UpdateRevealMask | game.js:733-774 | the count loop and percent are `GameSpec.UpdateRevealMask` |
| Game.RhythmGame.StartCometAnimation | game.js:1393-1415 | the comet starts at the given angle |
| Game.RhythmGame.CancelCometAnimation | game.js:1517-1533 | the comet stops |
| Game.RhythmGame.AnimateComet | game.js:1417-1452 | a comet tick is `GameSpec.CometTick` and keeps the invariant |
| Game.RhythmGame.CometStep | game.js:1418-1450 | the comet flies at the scanner's speed, 90 degrees a second without a calculator, as `GameSpec.CometTick` |
| Game.RhythmGame.CometMoveTo | game.js:1419-1450 | a comet that is not flying changes nothing; a flying one reaches the angle as `GameSpec.CometMove` |
| Game.RhythmGame.CometFly | game.js:1427-1450 | the comet reaches the angle and completes once it has travelled a full lap from its start |
| Game.RhythmGame.CompleteCometAnimation | game.js:1457-1514 | the completion is `GameSpec.CompleteComet` |
| Game.RhythmGame.EndVictoryHold | game.js:1497-1500 | the hold timer is `VictoryHoldElapsed` and keeps the invariant |
| Game.RhythmGame.HandleRoundMiss | game.js:1329-1390 | the miss is `GameSpec.RoundMiss` |
| Game.RhythmGame.ResetRoundReveal | game.js:1364-1376 | the percent returns to the round's start |
| Game.RhythmGame.RevertHitBeats | game.js:1340-1362 | the revert loop gives `RevertAll` |
| Game.RhythmGame.HandlePerfectCycle | game.js:776-817 | the step is `GameSpec.PerfectCycle` |
| Game.RhythmGame.HandlePatternComplete | game.js:820-836 | the step is `GameSpec.PatternComplete` |
| Game.RhythmGame.HandleFullVictory | game.js:957-991 | the step is `GameSpec.FullVictory` |
| Game.RhythmGame.AddXP | game.js:1055-1072 | the step is `GameSpec.AddXP` |
| Game.RhythmGame.HandleLevelUp | game.js:1092-1107 | the step is `GameSpec.HandleLevelUp` and keeps the invariant |
| Game.RhythmGame.EndLevelUpEffect | game.js:1109-1113 | the XP reset timer keeps the invariant |
| Game.RhythmGame.ApplyOverflow | game.js:1127-1133 | re-adding the overflow keeps the invariant |
| Game.RhythmGame.LoadNextPattern | game.js:866-954 | the reload is `GameSpec.LoadNextPattern` and keeps the invariant |
| Game.RhythmGame.ResetStage | game.js:866-907 | the resets are `ResetForStage` |
| Game.RhythmGame.RebuildStage | game.js:910-945 | the rebuild is `RestartStage` |
| Game.RhythmGame.StartNewChallenge | game.js:1268-1322 | the step is `GameSpec.StartNewChallenge` and keeps the invariant |
| Game.RhythmGame.ChangeDifficulty | game.js:132-160 | the slider is `GameSpec.ChangeDifficulty` and keeps the invariant |
| Game.RhythmGame.CooldownElapsed | game.js:588 | the cooldown timer clears the flag and keeps the invariant |
| Game.RhythmGame.MissSettled | game.js:1386-1389 | the settle timer clears the attempt and keeps the invariant |
| Settings.NewRhythm | settings-controller.js:123-145 | a found pattern is returned with the sets unchanged; an exhausted group is reset and yields its first pattern |
| Settings.NewRhythmIsFirstOpen | settings-controller.js:123-145 | the pattern loaded is the lowest-index one not completed in the resulting sets |
| Settings.OfferedFits | rhythm-library.js:161-184 | an offered pattern has at most 8 beats |
| Settings.ExhaustedGroupNotEmpty | settings-controller.js:140-144 | an exhausted group has a non-empty completed set, so the reset shrinks it (the recursion's measure) |
| Settings.RetryFindsPattern | settings-controller.js:140-144 | after the reset the retry finds a pattern, so the recursion stops after one step |
| Settings.Counted | settings-controller.js:154-157 | the count rises by one exactly when a key is set, and nothing else changes |
| Settings.Marked | settings-controller.js:154-155 | a set key is added to the current group's set; otherwise the sets are unchanged |
| Settings.LoadedPatternTracked | settings-controller.js:125-135 | after loading, the game holds the new key and the new challenge, and the count is unchanged |
| Settings.SkipCountsOnce | settings-controller.js:147-162 | a skip raises the count by exactly one when a key was set, and the new key is the loaded pattern's |
| Settings.NewRhythmKeepsKeys | settings-controller.js:123-145 | the key `loadNewRhythm` hands to the game is a key of the group, and the completed sets it leaves hold only group keys |
| Settings.NewRhythmStarterNeverLast | settings-controller.js:123-145 | in the starter group, with only group keys completed, the pattern loaded is never flagged last |
| Settings.MarkedKeepsKeys | settings-controller.js:154-155 | marking a key of the current group keeps only group keys completed |
| Settings.MenuStarterNeverLast | rhythm-library.js:172-177 | in every reachable menu state the starter group's completed count is at most 15, so a starter pattern is never reported last |
| Settings.SettingsMenu.constructor | settings-controller.js:3-10 | the menu starts on the starter group at 80 BPM with no pattern, and its invariant holds: only group keys are completed and the game's key is unset or a key of the starter group |
| Settings.SettingsMenu.LoadNewRhythm | settings-controller.js:123-145 | the loaded pattern, the key written to the game, the completed sets and the game state are those of `NewRhythm` and `GameSpec.LoadChallenge`; the group stays, and the menu invariant is re-established with the new key in the group |
| Settings.SettingsMenu.LoadPattern | settings-controller.js:127-135 | the pattern and key are stored and exactly that challenge is loaded |
| Settings.SettingsMenu.SelectGroup | settings-controller.js:81-88 | the group changes first, and the pattern loaded comes from the new group |
| Settings.SettingsMenu.SkipToNextPattern | settings-controller.js:147-162 | victory is left first if it was reached, the current key is marked and counted once, and then the next pattern loads |
| Settings.SettingsMenu.LeaveVictory | settings-controller.js:149-151 | `startNewChallenge` runs exactly when victory is complete |
| Settings.SettingsMenu.CountCurrentPattern | settings-controller.js:154-158 | the key is marked in the current group and the count raised, only when a key is set |

## Left out

- Game.RhythmGame: the 27 gameplay fields of `RhythmGame` are held together in the one record field `view`. Each assignment of the source updates one field of that record. This keeps the frame reasoning small enough to verify. The model does not capture aliasing between fields.
- Beat objects are values in a sequence, not shared references. `updateBeatSlice` writing `beat.state` is an update of that sequence element.
- All DOM, SVG and CSS work is rendering only: slices and their pixel widths, baboon slices, fog scale and opacity, medallion glow, feedback text, victory video and prompt, dice highlight, XP meter visuals, and the reveal circle's radius. The radius is kept as `revealPercent`.
- Event listeners, the bootstrap code and the keyframe styles of settings-controller.js are I/O wiring.
- `requestAnimationFrame`, `performance.now` and the `lastFrameTime` field are replaced by the `delta` parameters. The caller runs the next frame.
- `setTimeout` delays (500, 1500, 1600 and 2000 ms) are not modelled. Each continuation that changes game state is its own method. Each operation returns the continuations it schedules, in order, as `timers`.
- `Math.random` for the baboon direction becomes the `early` parameter.
- Floating point: angles, speeds and percents are exact reals, with no IEEE rounding.
- Comet rendering (trail dashes, transforms, opacity) is left out. Only the deadline at one lap and the completion logic are kept.
- `getCurrentRotationSpeed` is dead code: no milestone config has a rotation speed.
- The `CHALLENGES` table of challenges.js is unused data.
- `getRandomChallengeFromGroup` needs randomness and is not called by the modelled code.
- Names, descriptions and icons of challenges and groups are display strings, and `Challenge` does not carry them.
- `showFeedback`, `updateDisplay`, `updateActiveButtons`, `updateRhythmCounter` and `applySettings` of the settings menu only render, or just call `loadNewRhythm`.
- Game.RhythmGame.Animate: a frame at milestone 4 is excluded by the precondition `FrameAllowed`. The source would dereference the missing `milestoneConfigs[4]` there and throw.
- Game.RhythmGame.HandleTap: a tap at milestone 4 is excluded by the precondition `TapAllowed`, for the same reason.
- Game.RhythmGame.Animate: `FrameFits` requires a frame to move the scanner less than one lap. The single subtraction of 360 is a modulo only then.
- Slice-element guards: the source changes a beat's state only when the beat has a slice element. This holds for `updateBeatSlice` (game.js:385-386), which hits, reverts, reveals and the slice rebuild go through, and for the direct write in `ForceSilver` (game.js:572-579). Every beat has a slice after `createSlices`, so the model always changes the state. This covers Game.RhythmGame.ForceSilver, OnBeatHit, RevertHitBeats, RevealPassedBeats and ChangeDifficulty, and `Beats.HitBeat`, `Beats.RevertAll` and `Beats.RevealFrom`.
- Beats.GetBeatAngle: object-literal lookups in JavaScript also match the names inherited from `Object.prototype` (`constructor`, `toString`, `valueOf`, …). For these, `angleMap[position]` is a function rather than `undefined`. The model gives no angle there. Every library position is one of the eight labels (`RhythmLibrary.LibraryPatternsWellFormed`), so the game never looks up such a name.
- Beats.RotateBeatPosition: the same inherited names pass the source's `undefined` test on `beatMap`, and the lookup of `reverseMap[NaN]` then yields `undefined`. The model returns the string unchanged. This is not reached, for the same reason.
- BpmCalculator.GetBeatAngle: `beatMap[key]` returns the inherited function for `Object.prototype` names, where the model gives no angle. Only the eight labels and the numbers 1..4 are modelled as keys.
- BpmCalculator.BeatAngleUndefinedElsewhere: it states no angle for every other key. That excludes the inherited `Object.prototype` names, which in JavaScript give a defined non-angle value.
- RhythmLibrary.CreateChallengeFromPattern, RhythmLibrary.ChallengeFields, RhythmLibrary.NextPatternFromGroup, RhythmLibrary.NextPatternIsFirstUncompleted, RhythmLibrary.PatternProgress.GetNextPatternFromGroup: the lookups `difficultyMap[groupName]` and `RHYTHM_GROUPS[groupName]` also match the names inherited from `Object.prototype` (`constructor`, `hasOwnProperty`, `isPrototypeOf`, …). For these, `difficultyMap` yields a function where the model gives no difficulty. `RHYTHM_GROUPS["constructor"]` is the function `Object`, whose `length` of 1 passes the guard at rhythm-library.js:163, and `patterns[0].join(',')` then throws a TypeError at rhythm-library.js:172. The model treats all these names as unknown groups and gives no pattern. The menu only ever passes one of the four group names, so no caller reaches them.
- Experience.AdjustColorBrightness: the step `Math.round(2.55 * percent)` of game.js:1240 is not modelled. The member takes the rounded integer step as its argument, because the product is floating point.
- RhythmLibrary.PatternProgress.MarkPatternCompleted, RhythmLibrary.PatternProgress.ResetGroupProgress, RhythmLibrary.PatternProgress.GetGroupProgress: an unknown group name is excluded by the precondition. The source throws a TypeError there (rhythm-library.js:188, :193, :199). Every caller passes the menu's current group, which is always one of the four.
- Game.RhythmGame.LoadChallenge: beat positions come from the eight labels, which every library pattern uses. Numeric positions and unknown labels are not modelled.
- Settings.SettingsMenu.constructor: the game handed in must hold no key or a starter key, and the progress only group keys. The source's constructor takes any game; the page start-up (game.js:1561-1566) gives it a fresh progress and the starter group's first key.
- Settings.SettingsMenu.SelectGroup: an unknown group name is excluded by the precondition. The source throws there in `updateDisplay` and `resetGroupProgress`.
- Settings.SettingsMenu.LoadNewRhythm: `|early| >= 8` and `delta < 3` are required. Every library pattern has at most 8 beats. `delta` is the gap between the clock read in `loadChallenge` and the one its immediate first frame takes, close to 0; the bound of 3 seconds, which keeps that frame within one lap, over-approximates it.
- The width fallbacks differ as in the source. game.js uses 24 for an unknown difficulty (`Beats.SliceWidth`), and challenges.js uses 20 (`BpmCalculator.GetSliceWidthDegrees`).
- `loadChallenge` ignores the challenge's bpm and always starts at stage 1's 80 BPM, as `GameProperties.LoadChallengeSetup` states.
