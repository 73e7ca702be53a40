/** The pure beat-level rules of `RhythmGame` (game.js): the colour states,
    the four milestone configurations, the dial geometry, and the per-beat
    updates that the game's loops apply to `beatsInCycle`. */
module Beats {
  import opened Wrappers
  import opened Labels

  datatype BeatState = Hidden | Silver | White | Gold | Gone

  /** One entry of `milestoneConfigs`. */
  datatype MilestoneConfig = MilestoneConfig(baseState: BeatState, targetState: BeatState, isReveal: bool)

  /** `milestoneConfigs[m]`: milestone 0 is the reveal round, 1..3 score. */
  function MilestoneConfigs(m: int): MilestoneConfig
    requires 0 <= m <= 3
  {
    if m == 0 then MilestoneConfig(Hidden, Silver, true)
    else if m == 1 then MilestoneConfig(Silver, White, false)
    else if m == 2 then MilestoneConfig(White, Gold, false)
    else MilestoneConfig(Gold, Gone, false)
  }

  /** Each milestone moves one step along hidden, silver, white, gold, gone,
      and the next milestone starts where the previous one ends. */
  lemma MilestonesChain(m: nat)
    requires m < 3
    ensures MilestoneConfigs(m).targetState == MilestoneConfigs(m + 1).baseState
    ensures MilestoneConfigs(m).baseState != MilestoneConfigs(m).targetState
    ensures MilestoneConfigs(m + 1).isReveal == false
    ensures MilestoneConfigs(3).targetState == Gone
  {
  }

  /** One record of `beatsInCycle` (the SVG element references are left out). */
  datatype Beat = Beat(
    position: Label,
    originalPosition: Label,
    angle: real,
    state: BeatState,
    baboonOffset: int,
    baboonDirection: int)

  /** The game's own `getBeatAngle`, on the string form of a position.
      Names inherited from `Object.prototype` are not modelled. */
  function GetBeatAngle(position: string): (r: Option<real>)
    ensures r.Some? <==> Parse(position).Some?
  {
    if position == "1" then Some(0.0) else if position == "1A" then Some(45.0)
    else if position == "2" then Some(90.0) else if position == "2A" then Some(135.0)
    else if position == "3" then Some(180.0) else if position == "3A" then Some(225.0)
    else if position == "4" then Some(270.0) else if position == "4A" then Some(315.0)
    else None
  }

  /** The index of a label on the dial (`beatMap` of `rotateBeatPosition`). */
  function DialIndex(l: Label): (k: nat)
    ensures k < 8
  {
    match l
    case L1 => 0 case L1A => 1 case L2 => 2 case L2A => 3
    case L3 => 4 case L3A => 5 case L4 => 6 case L4A => 7
  }

  /** `reverseMap`. */
  function DialLabel(k: nat): Label
    requires k < 8
  {
    [L1, L1A, L2, L2A, L3, L3A, L4, L4A][k]
  }

  lemma DialIndexInverse(l: Label, k: nat)
    requires k < 8
    ensures DialLabel(DialIndex(l)) == l
    ensures DialIndex(DialLabel(k)) == k
  {
  }

  /** The angle of a label: 45 degrees per dial step. */
  function LabelAngle(l: Label): (a: real)
    ensures a == 45.0 * (DialIndex(l) as real)
    ensures 0.0 <= a < 360.0
  {
    45.0 * (DialIndex(l) as real)
  }

  /** The label angle is what `getBeatAngle` gives for the label's string. */
  lemma LabelAngleAgrees(l: Label)
    ensures GetBeatAngle(Text(l)) == Some(LabelAngle(l))
  {
  }

  /** JavaScript's `%`, which truncates toward zero. */
  function JsRem(a: int, b: int): (r: int)
    requires b > 0
    ensures -b < r < b
    ensures a >= 0 ==> r == a % b
    ensures a < 0 ==> r <= 0
  {
    if a >= 0 then a % b else -((-a) % b)
  }

  /** `rotateBeatPosition` for a rotation offset: a string that is not a
      label (nor an inherited `Object.prototype` name, which is not modelled)
      comes back unchanged; a negative shifted index reads `reverseMap[-k]`,
      which is `undefined`. */
  function RotateBeatPosition(position: string, offset: int): Option<string>
  {
    match Parse(position)
    case None => Some(position)
    case Some(l) =>
      var k := JsRem(DialIndex(l) + offset * 2, 8);
      if k < 0 then None else Some(Text(DialLabel(k)))
  }

  /** The rotation as a map on labels, for a non-negative offset. */
  function RotateLabel(l: Label, offset: nat): (r: Label)
    ensures DialIndex(r) == (DialIndex(l) + 2 * offset) % 8
  {
    var k := (DialIndex(l) + offset * 2) % 8;
    DialIndexInverse(l, k);
    DialLabel(k)
  }

  /** The rotation on labels agrees with `rotateBeatPosition` on strings. */
  lemma RotateLabelAgrees(l: Label, offset: nat)
    ensures RotateBeatPosition(Text(l), offset) == Some(Text(RotateLabel(l, offset)))
  {
    ParseText(l);
  }

  /** Rotation shifts the angle by 90 degrees per offset step, modulo 360,
      and offset 0 (the only value the game uses) is the identity. */
  lemma RotateLabelProperties(l: Label, offset: nat)
    ensures RotateLabel(l, 0) == l
    ensures DialIndex(RotateLabel(l, offset)) == (DialIndex(l) + 2 * offset) % 8
  {
    DialIndexInverse(l, DialIndex(l));
  }

  /** Rotation by a fixed offset is injective on labels. */
  lemma RotateLabelInjective(a: Label, b: Label, offset: nat)
    requires RotateLabel(a, offset) == RotateLabel(b, offset)
    ensures a == b
  {
    var ka, kb := DialIndex(a), DialIndex(b);
    assert (ka + 2 * offset) % 8 == (kb + 2 * offset) % 8;
    ModShiftCancel(ka, kb, 2 * offset);
    DialIndexInverse(a, 0);
    DialIndexInverse(b, 0);
  }

  lemma ModShiftCancel(a: nat, b: nat, s: nat)
    requires a < 8 && b < 8 && (a + s) % 8 == (b + s) % 8
    ensures a == b
  {
    var q := s / 8;
    var r := s % 8;
    assert s == 8 * q + r;
    assert (a + s) % 8 == (a + r) % 8;
    assert (b + s) % 8 == (b + r) % 8;
  }

  /** The slice width the game uses (`widthMap[currentDifficulty] || 24`). */
  function SliceWidth(difficulty: int): (w: real)
    ensures 12.0 <= w <= 28.0
    ensures !(1 <= difficulty <= 5) ==> w == 24.0
    ensures 1 <= difficulty <= 5 ==> w == 8.0 + 4.0 * (difficulty as real)
  {
    if difficulty == 1 then 12.0
    else if difficulty == 2 then 16.0
    else if difficulty == 3 then 20.0
    else if difficulty == 4 then 24.0
    else if difficulty == 5 then 28.0
    else 24.0
  }

  /** The tap window, three quarters of the slice width. */
  function TapTolerance(difficulty: int): (t: real)
    ensures 4.0 * t == 3.0 * SliceWidth(difficulty)
    ensures 9.0 <= t <= 21.0
  {
    SliceWidth(difficulty) * 0.75
  }

  /** The miss window: half the slice width plus a tolerance of half the
      slice width, which is the whole width. */
  function MissWindow(difficulty: int): (w: real)
    ensures w == SliceWidth(difficulty)
  {
    SliceWidth(difficulty) / 2.0 + SliceWidth(difficulty) / 2.0
  }

  /** The angular distance of `handleTap`: `|a - b|`, folded once at 180. */
  function CircularDistance(a: real, b: real): (d: real)
    ensures d == Min(Abs(a - b), 360.0 - Abs(a - b)) || d == Abs(a - b)
    ensures 0.0 <= a < 360.0 && 0.0 <= b < 360.0 ==>
      (0.0 <= d <= 180.0 && d == Min(Abs(a - b), 360.0 - Abs(a - b)))
  {
    var diff := Abs(a - b);
    if diff > 180.0 then 360.0 - diff else diff
  }

  /** The distance does not depend on which angle comes first. */
  lemma CircularDistanceSymmetric(a: real, b: real)
    ensures CircularDistance(a, b) == CircularDistance(b, a)
  {
    assert Abs(a - b) == Abs(b - a);
  }

  function Abs(x: real): real { if x < 0.0 then -x else x }
  function Min(x: real, y: real): real { if x <= y then x else y }

  /** The one-sided wrap of `checkForMisses`: add 360 once if negative. For
      a difference of two dial angles it is the remainder modulo 360. */
  function Wrap(x: real): (r: real)
    ensures -360.0 <= x < 360.0 ==> 0.0 <= r < 360.0 && (r == x || r == x + 360.0)
  {
    if x < 0.0 then x + 360.0 else x
  }

  /** `Wrap` of a difference of two dial angles is the modulo-360 remainder:
      the only value in [0, 360) that differs from it by `k` whole turns. */
  lemma WrapIsModulo(x: real, r: real, k: int)
    requires -360.0 <= x < 360.0
    requires 0.0 <= r < 360.0 && r - x == 360.0 * (k as real)
    ensures Wrap(x) == r
  {
    assert k == 0 || k == 1;
  }

  /** Every beat is at one of two states. */
  predicate AllIn(beats: seq<Beat>, s: BeatState, t: BeatState)
  {
    forall i :: 0 <= i < |beats| ==> beats[i].state == s || beats[i].state == t
  }

  /** Every beat is at state `s` (`beatsInCycle.every(...)`). */
  predicate AllAt(beats: seq<Beat>, s: BeatState)
  {
    forall i :: 0 <= i < |beats| ==> beats[i].state == s
  }

  /** `beatsInCycle.filter(b => b.state === s).length`. */
  function CountAt(beats: seq<Beat>, s: BeatState): (n: nat)
    ensures n <= |beats|
    ensures n == |beats| <==> AllAt(beats, s)
    ensures n == 0 <==> forall i :: 0 <= i < |beats| ==> beats[i].state != s
  {
    if beats == [] then 0
    else
      var rest := CountAt(beats[1..], s);
      assert forall i :: 1 <= i < |beats| ==> beats[i] == beats[1..][i - 1];
      (if beats[0].state == s then 1 else 0) + rest
  }

  /** Changing one beat from another state to `s` adds one to the count. */
  lemma {:induction false} CountAtStep(beats: seq<Beat>, i: nat, b: Beat, s: BeatState)
    requires i < |beats| && beats[i].state != s && b.state == s
    ensures CountAt(beats[i := b], s) == CountAt(beats, s) + 1
  {
    if i > 0 {
      assert beats[i := b][1..] == beats[1..][i - 1 := b];
      CountAtStep(beats[1..], i - 1, b, s);
    } else {
      assert beats[i := b][1..] == beats[1..];
    }
  }

  /** A beat the game considers valid: its angle is its label's angle, and its
      baboon marker sits on its own side of the beat within 15 degrees. */
  predicate ValidBeat(b: Beat)
  {
    && b.angle == LabelAngle(b.position)
    && (b.baboonDirection == 1 || b.baboonDirection == -1)
    && -15 <= b.baboonOffset <= 15
    && (b.baboonDirection > 0 ==> b.baboonOffset >= 0)
    && (b.baboonDirection < 0 ==> b.baboonOffset <= 0)
  }

  predicate AllValid(beats: seq<Beat>)
  {
    forall i :: 0 <= i < |beats| ==> ValidBeat(beats[i])
  }

  /** The beat records built from a pattern (`enabledBeats.map(...)`): the
      position rotated by `offset`, its angle, state `s`, and a baboon
      marker 15 degrees early when `early[i]` holds and late otherwise. */
  function MakeBeats(positions: seq<Label>, early: seq<bool>, s: BeatState, offset: nat): (r: seq<Beat>)
    requires |early| >= |positions|
    ensures |r| == |positions| && AllValid(r) && AllAt(r, s)
    ensures forall i :: 0 <= i < |r| ==>
      (r[i].originalPosition == positions[i]
       && r[i].position == RotateLabel(positions[i], offset)
       && r[i].baboonOffset == 15 * r[i].baboonDirection
       && (r[i].baboonDirection == -1 <==> early[i]))
  {
    seq(|positions|, i requires 0 <= i < |positions| =>
      var rotated := RotateLabel(positions[i], offset);
      var direction := if early[i] then -1 else 1;
      Beat(rotated, positions[i], LabelAngle(rotated), s, direction * 15, direction))
  }

  /** The baboon step of `onBeatHit`: 5 degrees toward 0, never past it. */
  function StepTowardZero(offset: int): (r: int)
    ensures offset >= 0 ==> r == if offset >= 5 then offset - 5 else 0
    ensures offset <= 0 ==> r == if offset <= -5 then offset + 5 else 0
  {
    if offset > 0 then Max(0, offset - 5) else MinInt(0, offset + 5)
  }

  function Max(a: int, b: int): int { if a >= b then a else b }
  function MinInt(a: int, b: int): int { if a <= b then a else b }

  /** What `onBeatHit` does to the hit beat: it moves to the milestone's
      target and, unless the target is `gone`, its nonzero baboon offset
      steps toward 0. */
  function HitBeat(b: Beat, cfg: MilestoneConfig): (r: Beat)
    ensures r.state == cfg.targetState
    ensures r.position == b.position && r.originalPosition == b.originalPosition && r.angle == b.angle
    ensures r.baboonDirection == b.baboonDirection
    ensures cfg.targetState == Gone ==> r.baboonOffset == b.baboonOffset
    ensures cfg.targetState != Gone ==> Abs((r.baboonOffset) as real) == (if Abs(b.baboonOffset as real) >= 5.0 then Abs(b.baboonOffset as real) - 5.0 else 0.0)
    ensures ValidBeat(b) ==> ValidBeat(r)
  {
    var t := b.(state := cfg.targetState);
    if t.baboonOffset != 0 && cfg.targetState != Gone then t.(baboonOffset := StepTowardZero(t.baboonOffset)) else t
  }

  /** What `handleRoundMiss` does to one beat: a beat at the target goes back
      to the base and its baboon marker snaps one 5-degree step back in its
      own direction, clamped at 15; any other beat is untouched. */
  function RevertBeat(b: Beat, cfg: MilestoneConfig): (r: Beat)
    ensures b.state != cfg.targetState ==> r == b
    ensures b.state == cfg.targetState ==>
      && r.state == cfg.baseState
      && r == b.(state := cfg.baseState, baboonOffset := r.baboonOffset)
      && r.baboonOffset == (if b.baboonDirection > 0 then MinInt(15, b.baboonOffset + 5) else Max(-15, b.baboonOffset - 5))
    ensures ValidBeat(b) ==> ValidBeat(r)
  {
    if b.state == cfg.targetState then
      var offset := if b.baboonDirection > 0 then MinInt(15, b.baboonOffset + 5) else Max(-15, b.baboonOffset - 5);
      b.(state := cfg.baseState, baboonOffset := offset)
    else b
  }

  /** The revert applied to every beat. */
  function RevertAll(beats: seq<Beat>, cfg: MilestoneConfig): (r: seq<Beat>)
    ensures |r| == |beats|
    ensures forall i :: 0 <= i < |beats| ==> r[i] == RevertBeat(beats[i], cfg)
  {
    seq(|beats|, i requires 0 <= i < |beats| => RevertBeat(beats[i], cfg))
  }

  /** After a round miss no beat is left at the target: if every beat was at
      the base or the target, every beat is now at the base, however many
      had been hit, and validity is kept. */
  lemma RevertAllProperties(beats: seq<Beat>, cfg: MilestoneConfig)
    requires cfg.baseState != cfg.targetState
    ensures CountAt(RevertAll(beats, cfg), cfg.targetState) == 0
    ensures AllIn(beats, cfg.baseState, cfg.targetState) ==> AllAt(RevertAll(beats, cfg), cfg.baseState)
    ensures AllValid(beats) ==> AllValid(RevertAll(beats, cfg))
  {
    var r := RevertAll(beats, cfg);
    assert forall i :: 0 <= i < |r| ==> r[i].state != cfg.targetState;
  }

  /** Every beat set to one state (the forced silver at the end of the reveal). */
  function SetAllState(beats: seq<Beat>, s: BeatState): (r: seq<Beat>)
    ensures |r| == |beats| && AllAt(r, s)
    ensures forall i :: 0 <= i < |beats| ==> r[i] == beats[i].(state := s)
    ensures AllValid(beats) ==> AllValid(r)
  {
    seq(|beats|, i requires 0 <= i < |beats| => beats[i].(state := s))
  }

  /** The first beat, from index `from` on, that is at `base` and within
      `tolerance` of the scanner (the search loop of `handleTap`). */
  function FirstHit(beats: seq<Beat>, base: BeatState, scanner: real, tolerance: real, from: nat): (r: Option<nat>)
    requires from <= |beats|
    ensures r.Some? ==>
      (from <= r.value < |beats|
       && beats[r.value].state == base
       && CircularDistance(scanner, beats[r.value].angle) <= tolerance)
    ensures r.Some? ==> forall j :: from <= j < r.value ==>
      !(beats[j].state == base && CircularDistance(scanner, beats[j].angle) <= tolerance)
    ensures r.None? <==> forall j :: from <= j < |beats| ==>
      !(beats[j].state == base && CircularDistance(scanner, beats[j].angle) <= tolerance)
    decreases |beats| - from
  {
    if from == |beats| then None
    else if beats[from].state == base && CircularDistance(scanner, beats[from].angle) <= tolerance then Some(from)
    else FirstHit(beats, base, scanner, tolerance, from + 1)
  }

  /** The miss test of `checkForMisses` for one beat, with both distances
      taken from the angle where the attempt started. */
  predicate Missed(b: Beat, base: BeatState, scanner: real, roundStart: real, window: real)
  {
    b.state == base && Wrap(scanner - roundStart) > Wrap(b.angle - roundStart) + window
  }

  /** Some beat has been missed. */
  predicate AnyMissed(beats: seq<Beat>, base: BeatState, scanner: real, roundStart: real, window: real)
  {
    exists i :: 0 <= i < |beats| && Missed(beats[i], base, scanner, roundStart, window)
  }

  /** The positions of the beats of `bs` the scanner at `scanner` has
      reached. */
  function Passed(bs: seq<Beat>, scanner: real): set<Label>
  {
    if bs == [] then {}
    else (if scanner >= bs[0].angle then {bs[0].position} else {}) + Passed(bs[1..], scanner)
  }

  /** `Passed` over `beats[i..j]` takes beat `i` and then the rest. */
  lemma PassedFrom(beats: seq<Beat>, scanner: real, i: nat, j: nat)
    requires i < j <= |beats|
    ensures Passed(beats[i..j], scanner)
      == (if scanner >= beats[i].angle then {beats[i].position} else {}) + Passed(beats[i + 1..j], scanner)
  {
    assert beats[i..j][1..] == beats[i + 1..j];
  }

  /** A beat the reveal pass turns silver: the scanner has reached it and
      its position is neither revealed before the pass nor taken by an
      earlier beat of the pass. */
  predicate Reveals(beats: seq<Beat>, revealed: set<Label>, scanner: real, i: nat, j: nat)
    requires i <= j < |beats|
  {
    scanner >= beats[j].angle && beats[j].position !in revealed + Passed(beats[i..j], scanner)
  }

  /** The reveal pass of `animate` from index `i` on: a beat whose position
      has not been revealed yet and whose angle the scanner has reached is
      recorded as revealed and turned silver, in array order. Afterwards
      exactly the reached positions are added to the revealed set, exactly
      the beats `Reveals` picks are silver, and every other beat is as it
      was. */
  function RevealFrom(beats: seq<Beat>, revealed: set<Label>, scanner: real, i: nat): (r: (seq<Beat>, set<Label>))
    requires i <= |beats|
    ensures |r.0| == |beats|
    ensures r.1 == revealed + Passed(beats[i..], scanner)
    ensures forall j :: 0 <= j < i ==> r.0[j] == beats[j]
    ensures forall j :: i <= j < |beats| ==>
      r.0[j] == if Reveals(beats, revealed, scanner, i, j) then beats[j].(state := Silver) else beats[j]
    decreases |beats| - i
  {
    if i == |beats| then
      assert beats[i..] == [];
      (beats, revealed)
    else if beats[i].position !in revealed && scanner >= beats[i].angle then
      var updated := beats[i := beats[i].(state := Silver)];
      var next := RevealFrom(updated, revealed + {beats[i].position}, scanner, i + 1);
      RevealStepTaken(beats, revealed, scanner, i, updated, next);
      next
    else
      var next := RevealFrom(beats, revealed, scanner, i + 1);
      RevealStepSkipped(beats, revealed, scanner, i, next);
      next
  }

  /** The step of `RevealFrom` that reveals beat `i`. */
  lemma RevealStepTaken(beats: seq<Beat>, revealed: set<Label>, scanner: real, i: nat,
                        updated: seq<Beat>, next: (seq<Beat>, set<Label>))
    requires i < |beats| && beats[i].position !in revealed && scanner >= beats[i].angle
    requires updated == beats[i := beats[i].(state := Silver)]
    requires |next.0| == |beats|
    requires next.1 == revealed + {beats[i].position} + Passed(updated[i + 1..], scanner)
    requires forall j :: 0 <= j < i + 1 ==> next.0[j] == updated[j]
    requires forall j :: i + 1 <= j < |beats| ==>
      next.0[j] == if Reveals(updated, revealed + {beats[i].position}, scanner, i + 1, j) then updated[j].(state := Silver) else updated[j]
    ensures next.1 == revealed + Passed(beats[i..], scanner)
    ensures forall j :: 0 <= j < i ==> next.0[j] == beats[j]
    ensures forall j :: i <= j < |beats| ==>
      next.0[j] == if Reveals(beats, revealed, scanner, i, j) then beats[j].(state := Silver) else beats[j]
  {
    assert updated[i + 1..] == beats[i + 1..];
    PassedFrom(beats, scanner, i, |beats|);
    assert beats[i..|beats|] == beats[i..];
    assert beats[i..i] == [];
    forall j | i + 1 <= j < |beats|
      ensures Reveals(updated, revealed + {beats[i].position}, scanner, i + 1, j) == Reveals(beats, revealed, scanner, i, j)
    {
      assert updated[i + 1..j] == beats[i + 1..j];
      PassedFrom(beats, scanner, i, j);
    }
  }

  /** The step of `RevealFrom` that leaves beat `i` as it is. */
  lemma RevealStepSkipped(beats: seq<Beat>, revealed: set<Label>, scanner: real, i: nat,
                          next: (seq<Beat>, set<Label>))
    requires i < |beats| && !(beats[i].position !in revealed && scanner >= beats[i].angle)
    requires |next.0| == |beats|
    requires next.1 == revealed + Passed(beats[i + 1..], scanner)
    requires forall j :: 0 <= j < i + 1 ==> next.0[j] == beats[j]
    requires forall j :: i + 1 <= j < |beats| ==>
      next.0[j] == if Reveals(beats, revealed, scanner, i + 1, j) then beats[j].(state := Silver) else beats[j]
    ensures next.1 == revealed + Passed(beats[i..], scanner)
    ensures forall j :: 0 <= j < i ==> next.0[j] == beats[j]
    ensures forall j :: i <= j < |beats| ==>
      next.0[j] == if Reveals(beats, revealed, scanner, i, j) then beats[j].(state := Silver) else beats[j]
  {
    PassedFrom(beats, scanner, i, |beats|);
    assert beats[i..|beats|] == beats[i..];
    assert beats[i..i] == [];
    forall j | i + 1 <= j < |beats|
      ensures Reveals(beats, revealed, scanner, i + 1, j) == Reveals(beats, revealed, scanner, i, j)
    {
      PassedFrom(beats, scanner, i, j);
    }
  }
}
