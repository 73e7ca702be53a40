/** Tempo arithmetic of `BPMCalculator` (challenges.js): durations, angular
    speed, the label-to-angle table and the difficulty tables. */
module BpmCalculator {
  import opened Wrappers

  /** The object built by `new BPMCalculator(bpm)`: three fields derived once. */
  datatype Calculator = Calculator(
    bpm: real,
    quarterNoteDuration: real,   // seconds per quarter note
    fullRotationDuration: real,  // seconds per 360-degree sweep (4 beats)
    rotationSpeed: real)         // degrees per second

  /** The constructor; `bpm > 0` because the source divides by it. */
  function Create(bpm: real): (c: Calculator)
    requires bpm > 0.0
    ensures c.bpm == bpm
    ensures c.quarterNoteDuration * bpm == 60.0
    ensures c.fullRotationDuration == 4.0 * c.quarterNoteDuration
    ensures c.rotationSpeed * c.fullRotationDuration == 360.0
    ensures c.rotationSpeed == 1.5 * bpm
  {
    var quarter := 60.0 / bpm;
    var full := quarter * 4.0;
    SpeedIsOneAndAHalfBpm(bpm, quarter, full);
    Calculator(bpm, quarter, full, 360.0 / full)
  }

  lemma SpeedIsOneAndAHalfBpm(bpm: real, quarter: real, full: real)
    requires bpm > 0.0 && quarter == 60.0 / bpm && full == quarter * 4.0
    ensures full > 0.0 && 360.0 / full == 1.5 * bpm
  {
    assert quarter * bpm == 60.0;
    assert full * bpm == 240.0;
    assert (1.5 * bpm) * full == 360.0;
  }

  /** A calculator as the constructor leaves it. */
  predicate Valid(c: Calculator)
  {
    c.bpm > 0.0 && c == Create(c.bpm)
  }

  /** A key of `beatMap`: the table is indexed both by numbers and by strings;
      JavaScript turns a number key into its decimal string. */
  datatype BeatKey = NumberKey(n: int) | StringKey(s: string)

  /** `getBeatAngle`: the eight labels at 45-degree steps; any other key
      modelled here is `undefined`. Names inherited from `Object.prototype`
      are not keys of this model. */
  function GetBeatAngle(key: BeatKey): (r: Option<int>)
    ensures r.Some? ==> 0 <= r.value < 360 && r.value % 45 == 0
  {
    match key
    case NumberKey(n) =>
      if 1 <= n <= 4 then Some(90 * (n - 1)) else None
    case StringKey(s) =>
      if s == "1" then Some(0)
      else if s == "1A" then Some(45)
      else if s == "2" then Some(90)
      else if s == "2A" then Some(135)
      else if s == "3" then Some(180)
      else if s == "3A" then Some(225)
      else if s == "4" then Some(270)
      else if s == "4A" then Some(315)
      else None
  }

  /** The eight string labels in dial order. */
  const Labels: seq<string> := ["1", "1A", "2", "2A", "3", "3A", "4", "4A"]

  /** Label k of the dial sits at 45·k degrees, so the table is injective on
      the eight labels, and a number key agrees with its string spelling. */
  lemma BeatAngleTable()
    ensures forall k :: 0 <= k < 8 ==> GetBeatAngle(StringKey(Labels[k])) == Some(45 * k)
    ensures forall n :: 1 <= n <= 4 ==> GetBeatAngle(NumberKey(n)) == GetBeatAngle(StringKey(Labels[2 * (n - 1)]))
    ensures forall j, k :: 0 <= j < 8 && 0 <= k < 8 && j != k ==>
      GetBeatAngle(StringKey(Labels[j])) != GetBeatAngle(StringKey(Labels[k]))
  {
  }

  /** A string key outside the eight labels, or a number outside 1..4, has no
      angle (inherited `Object.prototype` names are not modelled). */
  lemma BeatAngleUndefinedElsewhere(key: BeatKey)
    requires key.StringKey? ==> key.s !in Labels
    requires key.NumberKey? ==> !(1 <= key.n <= 4)
    ensures GetBeatAngle(key) == None
  {
  }

  /** `getTimeAtAngle`. */
  function GetTimeAtAngle(c: Calculator, angle: real): (t: real)
    requires Valid(c)
    ensures t * c.rotationSpeed == angle
  {
    var t := (angle / 360.0) * c.fullRotationDuration;
    assert t * c.rotationSpeed == (angle / 360.0) * (c.fullRotationDuration * c.rotationSpeed);
    t
  }

  /** Time is linear in the angle: 0 at 0 degrees, a full rotation at 360. */
  lemma TimeAtAngleLinear(c: Calculator, a: real, b: real)
    requires Valid(c)
    ensures GetTimeAtAngle(c, 0.0) == 0.0
    ensures GetTimeAtAngle(c, 360.0) == c.fullRotationDuration
    ensures GetTimeAtAngle(c, a + b) == GetTimeAtAngle(c, a) + GetTimeAtAngle(c, b)
  {
  }

  /** `getSliceWidthDegrees`: the width table, 20 for any other difficulty
      (`widthMap[difficulty] || 20`). */
  function GetSliceWidthDegrees(difficulty: int): (w: real)
    ensures 12.0 <= w <= 28.0
    ensures !(1 <= difficulty <= 5) ==> w == 20.0
    ensures 1 <= difficulty <= 5 ==> w == 8.0 + 4.0 * (difficulty as real)
  {
    if difficulty == 1 then 12.0
    else if difficulty == 2 then 16.0
    else if difficulty == 3 then 20.0
    else if difficulty == 4 then 24.0
    else if difficulty == 5 then 28.0
    else 20.0
  }

  /** Wider slices for higher difficulty numbers, strictly. */
  lemma SliceWidthIncreasing(d1: int, d2: int)
    requires 1 <= d1 < d2 <= 5
    ensures GetSliceWidthDegrees(d1) < GetSliceWidthDegrees(d2)
  {
  }

  /** `getHitToleranceDegrees`: half the slice width. */
  function GetHitToleranceDegrees(difficulty: int): (t: real)
    ensures 2.0 * t == GetSliceWidthDegrees(difficulty)
  {
    GetSliceWidthDegrees(difficulty) / 2.0
  }

  /** `getHitZoneWidthDegrees`: the same value as the tolerance. */
  function GetHitZoneWidthDegrees(difficulty: int): (z: real)
    ensures z == GetHitToleranceDegrees(difficulty)
    ensures 6.0 <= z <= 14.0
  {
    GetHitToleranceDegrees(difficulty)
  }
}
