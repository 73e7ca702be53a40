/** The pattern supply of rhythm-library.js: the four pattern groups, the
    conversion of a pattern into a challenge, and the per-group sets of
    completed pattern keys that make the supply walk each group in order. */
module RhythmLibrary {
  import opened Wrappers
  import opened Labels

  /** A rhythm pattern: beat labels in play order. */
  type Pattern = seq<Label>

  const StarterPatterns: seq<Pattern> := [
    [L1, L2, L3], [L1, L2, L4], [L1, L3], [L1, L3, L4], [L2, L4],
    [L3, L4], [L2, L3, L4], [L2, L3], [L1, L2], [L1, L4],
    [L2, L3, L4], [L1, L2, L3, L4], [L1, L3, L4], [L2, L4], [L1, L2, L4],
    [L3], [L1], [L2], [L4], [L1, L4],
    [L2, L3], [L1, L2, L3], [L3, L4], [L1, L3], [L2, L4]
  ]

  const IntermediatePatterns: seq<Pattern> := [
    [L1, L1A, L2, L3, L4], [L1, L2, L2A, L3, L4], [L1, L2, L3, L3A, L4],
    [L1, L2, L3, L4, L4A], [L1, L1A, L2, L2A, L3, L4], [L1, L1A, L2, L3, L3A, L4],
    [L1, L2, L2A, L3, L3A, L4], [L1, L2, L2A, L3, L4, L4A], [L1, L2, L3, L3A, L4, L4A],
    [L1, L1A, L2, L3, L4, L4A], [L1, L1A, L2, L2A, L3, L3A, L4],
    [L1, L1A, L2, L2A, L3, L4, L4A], [L1, L1A, L2, L3, L3A, L4, L4A],
    [L1, L2, L2A, L3, L3A, L4, L4A], [L1, L1A, L2, L2A, L3, L3A, L4, L4A],
    [L1, L2, L3, L4], [L1, L1A, L2, L4], [L1, L3, L3A, L4], [L1, L2, L3, L4A],
    [L1, L1A, L3, L4], [L1, L2, L2A, L4], [L1, L3, L4, L4A], [L1, L1A, L2, L3],
    [L2, L2A, L3, L4], [L1, L2, L3, L3A]
  ]

  const AdvancedPatterns: seq<Pattern> := [
    [L1, L1A, L2, L2A, L3], [L1, L1A, L2, L3, L3A], [L1, L3, L3A, L4, L4A],
    [L1, L2, L2A, L4], [L1, L2, L2A, L4, L4A], [L1, L2, L2A, L3A, L4, L4A],
    [L1, L3, L4, L4A], [L2, L2A, L3, L4], [L1, L1A, L3, L4], [L1, L2, L3, L3A],
    [L2, L3, L3A, L4], [L1, L1A, L2, L4], [L1, L2, L3A, L4], [L1, L1A, L3, L3A, L4],
    [L1, L2, L2A, L3, L4], [L1, L1A, L2, L3, L4], [L2, L2A, L3, L3A, L4],
    [L1, L2, L3, L4, L4A], [L1, L1A, L2, L2A, L4], [L1, L2, L3, L3A, L4],
    [L1, L1A, L3, L4, L4A], [L2, L2A, L3, L4, L4A], [L1, L2, L2A, L3, L3A],
    [L1, L1A, L2, L3A, L4], [L1, L2A, L3, L3A, L4]
  ]

  const ExpertPatterns: seq<Pattern> := [
    [L2, L3, L4], [L2, L2A, L3, L4], [L2, L2A, L3, L3A, L4], [L2, L2A, L3, L3A, L4A],
    [L1A, L2A, L3A, L4A], [L1A, L2A, L3, L3A, L4A], [L1A, L3, L4], [L2, L2A, L4, L4A],
    [L1, L1A, L3, L3A], [L2, L3, L3A], [L2A, L3, L4], [L1A, L2, L4], [L2, L3A, L4A],
    [L1A, L3, L3A, L4], [L2A, L3, L3A, L4], [L1A, L2A, L4], [L2, L4, L4A],
    [L1A, L2, L3, L4], [L2, L2A, L3], [L3, L3A, L4A], [L1A, L3A, L4], [L2A, L3, L4A],
    [L1A, L2A, L3, L4], [L2, L3, L4A], [L1A, L2, L3A, L4]
  ]

  /** `RHYTHM_GROUPS`. */
  const RhythmGroups: map<string, seq<Pattern>> := map[
    "starter" := StarterPatterns,
    "intermediate" := IntermediatePatterns,
    "advanced" := AdvancedPatterns,
    "expert" := ExpertPatterns
  ]

  /** The group names, which are also the keys of the completed-set table. */
  const GroupNames: set<string> := {"starter", "intermediate", "advanced", "expert"}

  /** `array.join(sep)` over the labels' strings. */
  function Join(p: Pattern, sep: string): string
  {
    if |p| == 0 then ""
    else if |p| == 1 then Text(p[0])
    else Text(p[0]) + sep + Join(p[1..], sep)
  }

  /** The tracking key of a pattern, `pattern.join(',')`. */
  function PatternKey(p: Pattern): string
  {
    Join(p, ",")
  }

  /** What `createChallengeFromPattern` keeps of a pattern (its display name
      and description are left out). */
  datatype Challenge = Challenge(bpm: real, enabledBeats: Pattern, difficulty: Option<int>)

  /** `difficultyMap[groupName]`; `undefined` for any other name except the
      inherited `Object.prototype` names, which are not modelled. */
  function GroupDifficulty(groupName: string): Option<int>
  {
    if groupName == "starter" then Some(4)
    else if groupName == "intermediate" then Some(3)
    else if groupName == "advanced" then Some(2)
    else if groupName == "expert" then Some(1)
    else None
  }

  function CreateChallengeFromPattern(pattern: Pattern, groupName: string, bpm: real): Challenge
  {
    Challenge(bpm, pattern, GroupDifficulty(groupName))
  }

  /** The challenge keeps the pattern and the tempo; the four groups get
      difficulties 4, 3, 2, 1 in the order starter, intermediate, advanced,
      expert, and any other group name gets none (inherited
      `Object.prototype` names aside). */
  lemma ChallengeFields(pattern: Pattern, groupName: string, bpm: real)
    ensures CreateChallengeFromPattern(pattern, groupName, bpm).enabledBeats == pattern
    ensures CreateChallengeFromPattern(pattern, groupName, bpm).bpm == bpm
    ensures groupName in GroupNames <==> CreateChallengeFromPattern(pattern, groupName, bpm).difficulty.Some?
    ensures GroupDifficulty("starter") == Some(4) && GroupDifficulty("intermediate") == Some(3)
    ensures GroupDifficulty("advanced") == Some(2) && GroupDifficulty("expert") == Some(1)
  {
  }

  /** What `getGroupsInfo` says of a group beyond its display text. */
  datatype GroupInfo = GroupInfo(patternCount: nat, difficulty: int)

  function GetGroupsInfo(): map<string, GroupInfo>
  {
    map[
      "starter" := GroupInfo(|StarterPatterns|, 4),
      "intermediate" := GroupInfo(|IntermediatePatterns|, 3),
      "advanced" := GroupInfo(|AdvancedPatterns|, 2),
      "expert" := GroupInfo(|ExpertPatterns|, 1)
    ]
  }

  /** The group table agrees with the library: same groups, 25 patterns each,
      and the advertised difficulty is the one challenges get. */
  lemma GroupsInfoAgrees(g: string)
    requires g in GroupNames
    ensures g in GetGroupsInfo() && g in RhythmGroups
    ensures GetGroupsInfo()[g].patternCount == |RhythmGroups[g]| == 25
    ensures GroupDifficulty(g) == Some(GetGroupsInfo()[g].difficulty)
  {
  }

  /** What `getNextPatternFromGroup` returns when it finds a pattern. */
  datatype NextPattern = NextPattern(challenge: Challenge, patternKey: string, isLastInGroup: bool)

  /** The lowest index at or after `from` whose key is not in `done`. */
  function FirstOpen(patterns: seq<Pattern>, done: set<string>, from: nat): (r: Option<nat>)
    requires from <= |patterns|
    ensures r.Some? ==> from <= r.value < |patterns| && PatternKey(patterns[r.value]) !in done
    ensures r.Some? ==> forall j :: from <= j < r.value ==> PatternKey(patterns[j]) in done
    ensures r.None? <==> forall j :: from <= j < |patterns| ==> PatternKey(patterns[j]) in done
    decreases |patterns| - from
  {
    if from == |patterns| then None
    else if PatternKey(patterns[from]) !in done then Some(from)
    else FirstOpen(patterns, done, from + 1)
  }

  /** The result of `getNextPatternFromGroup(groupName, bpm)` against the
      completed sets `completed`. */
  function NextPatternFromGroup(groupName: string, bpm: real, completed: map<string, set<string>>): Option<NextPattern>
    requires groupName in RhythmGroups ==> groupName in completed
  {
    if groupName !in RhythmGroups || |RhythmGroups[groupName]| == 0 then None
    else
      var patterns := RhythmGroups[groupName];
      var done := completed[groupName];
      match FirstOpen(patterns, done, 0)
      case None => None
      case Some(i) =>
        Some(NextPattern(CreateChallengeFromPattern(patterns[i], groupName, bpm),
                         PatternKey(patterns[i]), |done| == |patterns| - 1))
  }

  /** The next pattern is the lowest-indexed one not yet completed, and there
      is none exactly when the group is unknown, empty or fully completed.
      Inherited `Object.prototype` names, on which the source throws, are
      modelled as unknown. */
  lemma NextPatternIsFirstUncompleted(groupName: string, bpm: real, completed: map<string, set<string>>)
    requires groupName in RhythmGroups ==> groupName in completed
    ensures var r := NextPatternFromGroup(groupName, bpm, completed);
      r.None? <==> (groupName !in RhythmGroups
                    || forall j :: 0 <= j < |RhythmGroups[groupName]| ==> PatternKey(RhythmGroups[groupName][j]) in completed[groupName])
    ensures var r := NextPatternFromGroup(groupName, bpm, completed);
      r.Some? ==> exists i :: (0 <= i < |RhythmGroups[groupName]|
        && r.value.challenge.enabledBeats == RhythmGroups[groupName][i]
        && r.value.patternKey == PatternKey(RhythmGroups[groupName][i])
        && r.value.patternKey !in completed[groupName]
        && (forall j :: 0 <= j < i ==> PatternKey(RhythmGroups[groupName][j]) in completed[groupName]))
  {
    if groupName in RhythmGroups && |RhythmGroups[groupName]| > 0 {
      var o := FirstOpen(RhythmGroups[groupName], completed[groupName], 0);
      if o.Some? {
        var i := o.value;
        assert 0 <= i < |RhythmGroups[groupName]|;
      }
    }
  }

  /** Once a key is in a group's completed set, no pattern with that key is
      offered for the group. */
  lemma CompletedKeyNeverOffered(groupName: string, bpm: real, completed: map<string, set<string>>, key: string)
    requires groupName in RhythmGroups && groupName in completed
    requires key in completed[groupName]
    ensures var r := NextPatternFromGroup(groupName, bpm, completed); r.Some? ==> r.value.patternKey != key
  {
  }

  /** With an empty completed set, a known group always offers its first pattern. */
  lemma ResetGroupOffersFirst(groupName: string, bpm: real, completed: map<string, set<string>>)
    requires groupName in RhythmGroups && groupName in completed && completed[groupName] == {}
    ensures |RhythmGroups[groupName]| > 0 ==> NextPatternFromGroup(groupName, bpm, completed).Some?
    ensures |RhythmGroups[groupName]| > 0 ==> NextPatternFromGroup(groupName, bpm, completed).value.challenge.enabledBeats == RhythmGroups[groupName][0]
  {
  }

  /** The distinct keys of a list of patterns. */
  function KeysOf(patterns: seq<Pattern>): set<string>
  {
    if patterns == [] then {} else {PatternKey(patterns[0])} + KeysOf(patterns[1..])
  }

  lemma {:induction false} KeysOfMember(patterns: seq<Pattern>, i: nat)
    requires i < |patterns|
    ensures PatternKey(patterns[i]) in KeysOf(patterns)
  {
    if i > 0 {
      KeysOfMember(patterns[1..], i - 1);
    }
  }

  lemma {:induction false} KeysOfSize(patterns: seq<Pattern>)
    ensures |KeysOf(patterns)| <= |patterns|
  {
    if patterns != [] {
      KeysOfSize(patterns[1..]);
    }
  }

  /** A label's spelling has one or two characters, none of them a comma. */
  lemma TextShape(l: Label)
    ensures 1 <= |Text(l)| <= 2
    ensures forall c :: c in Text(l) ==> c != ','
  {
  }

  /** Different patterns have different keys: no label's spelling holds the
      separator, so the key splits back into the labels. */
  lemma {:induction false} PatternKeyInjective(p: Pattern, q: Pattern)
    requires PatternKey(p) == PatternKey(q)
    ensures p == q
  {
    if p == [] || q == [] {
      if p != [] { TextShape(p[0]); }
      if q != [] { TextShape(q[0]); }
    } else {
      var a, b := Text(p[0]), Text(q[0]);
      TextShape(p[0]);
      TextShape(q[0]);
      var kp, kq := PatternKey(p), PatternKey(q);
      assert kp[..|a|] == a && kq[..|b|] == b;
      if |p| == 1 && |q| == 1 {
        ParseText(p[0]);
        ParseText(q[0]);
      } else if |p| == 1 {
        assert false;
      } else if |q| == 1 {
        assert false;
      } else {
        assert kp[|a|] == ',' && kq[|b|] == ',';
        if |a| < |b| {
          assert false;
        } else if |b| < |a| {
          assert false;
        }
        assert a == b;
        ParseText(p[0]);
        ParseText(q[0]);
        assert kp[|a| + 1..] == PatternKey(p[1..]);
        assert kq[|b| + 1..] == PatternKey(q[1..]);
        PatternKeyInjective(p[1..], q[1..]);
        assert p == [p[0]] + p[1..];
        assert q == [q[0]] + q[1..];
      }
    }
  }

  /** The starter group's fifteen different patterns: every non-empty
      selection of the quarter beats 1..4. */
  const StarterSelections: seq<Pattern> := [
    [L1], [L2], [L3], [L4],
    [L1, L2], [L1, L3], [L1, L4], [L2, L3], [L2, L4], [L3, L4],
    [L1, L2, L3], [L1, L2, L4], [L1, L3, L4], [L2, L3, L4],
    [L1, L2, L3, L4]
  ]

  /** Patterns drawn from `b` give no key outside `b`'s keys. */
  lemma {:induction false} KeysOfWithin(a: seq<Pattern>, b: seq<Pattern>)
    requires forall i :: 0 <= i < |a| ==> a[i] in b
    ensures KeysOf(a) <= KeysOf(b)
  {
    if a != [] {
      var j :| 0 <= j < |b| && b[j] == a[0];
      KeysOfMember(b, j);
      KeysOfWithin(a[1..], b);
    }
  }

  /** Every key of a list is the key of one of its patterns. */
  lemma {:induction false} KeysOfSource(patterns: seq<Pattern>, k: string) returns (i: nat)
    requires k in KeysOf(patterns)
    ensures i < |patterns| && PatternKey(patterns[i]) == k
  {
    if PatternKey(patterns[0]) == k {
      i := 0;
    } else {
      var j := KeysOfSource(patterns[1..], k);
      i := j + 1;
    }
  }

  /** Pairwise different patterns have as many keys as patterns. */
  lemma {:induction false} KeysOfDistinct(patterns: seq<Pattern>)
    requires forall i, j :: 0 <= i < j < |patterns| ==> patterns[i] != patterns[j]
    ensures |KeysOf(patterns)| == |patterns|
  {
    if patterns != [] {
      if PatternKey(patterns[0]) in KeysOf(patterns[1..]) {
        var k := KeysOfSource(patterns[1..], PatternKey(patterns[0]));
        PatternKeyInjective(patterns[0], patterns[1..][k]);
      }
      KeysOfDistinct(patterns[1..]);
    }
  }

  /** The starter group has exactly 15 distinct keys for its 25 patterns, so
      it is exhausted after 15 completions. */
  lemma StarterDistinctKeys()
    ensures |KeysOf(StarterPatterns)| == 15
  {
    StarterFromSelections();
    SelectionsFromStarter();
    SelectionsDistinct();
    SameKeysAsDistinct(StarterPatterns, StarterSelections);
  }

  /** Two lists drawing on each other's patterns have one key set, whose size
      is the length of the second when its patterns differ pairwise. */
  lemma SameKeysAsDistinct(a: seq<Pattern>, b: seq<Pattern>)
    requires forall i :: 0 <= i < |a| ==> a[i] in b
    requires forall i :: 0 <= i < |b| ==> b[i] in a
    requires forall i, j :: 0 <= i < j < |b| ==> b[i] != b[j]
    ensures KeysOf(a) == KeysOf(b) && |KeysOf(a)| == |b|
  {
    KeysOfWithin(a, b);
    KeysOfWithin(b, a);
    KeysOfDistinct(b);
  }

  lemma StarterFromSelections()
    ensures forall i :: 0 <= i < |StarterPatterns| ==> StarterPatterns[i] in StarterSelections
  {
  }

  lemma SelectionsFromStarter()
    ensures forall i :: 0 <= i < |StarterSelections| ==> StarterSelections[i] in StarterPatterns
  {
  }

  lemma SelectionsDistinct()
    ensures forall i, j :: 0 <= i < j < |StarterSelections| ==> StarterSelections[i] != StarterSelections[j]
  {
  }

  /** `k` is the key of one of group `g`'s patterns. */
  predicate IsGroupKey(g: string, k: string)
  {
    g in RhythmGroups && exists i :: 0 <= i < |RhythmGroups[g]| && PatternKey(RhythmGroups[g][i]) == k
  }

  /** Every completed key of a group is the key of one of that group's
      patterns. */
  predicate OnlyKeysOf(completed: map<string, set<string>>)
  {
    forall g, k :: g in completed && k in completed[g] ==> IsGroupKey(g, k)
  }

  /** Under `OnlyKeysOf` a group's completed set lies within its key set. */
  lemma CompletedWithinKeys(completed: map<string, set<string>>, g: string)
    requires OnlyKeysOf(completed) && g in completed && g in RhythmGroups
    ensures completed[g] <= KeysOf(RhythmGroups[g])
  {
    forall k | k in completed[g]
      ensures k in KeysOf(RhythmGroups[g])
    {
      var i :| 0 <= i < |RhythmGroups[g]| && PatternKey(RhythmGroups[g][i]) == k;
      KeysOfMember(RhythmGroups[g], i);
    }
  }

  /** Progress counts for a group (`getGroupProgress`). */
  datatype Progress = Progress(completed: nat, total: nat)

  /** The module-level `completedPatterns` table. */
  class PatternProgress {
    var completed: map<string, set<string>>

    ghost predicate Valid()
      reads this
    {
      completed.Keys == GroupNames
    }

    /** Every completed key of every group is a key of one of its patterns. */
    ghost predicate OnlyGroupKeys()
      reads this
    {
      OnlyKeysOf(completed)
    }

    constructor()
      ensures Valid() && OnlyGroupKeys()
      ensures forall g :: g in GroupNames ==> completed[g] == {}
    {
      completed := map g | g in GroupNames :: {};
    }

    /** `getNextPatternFromGroup`: a first-uncompleted linear search that
        returns early and changes nothing. */
    method GetNextPatternFromGroup(groupName: string, bpm: real) returns (r: Option<NextPattern>)
      requires Valid()
      ensures r == NextPatternFromGroup(groupName, bpm, completed)
    {
      if groupName !in RhythmGroups || |RhythmGroups[groupName]| == 0 {
        return None;
      }
      var patterns := RhythmGroups[groupName];
      var done := completed[groupName];
      var i := 0;
      while i < |patterns|
        invariant 0 <= i <= |patterns|
        invariant FirstOpen(patterns, done, 0) == FirstOpen(patterns, done, i)
      {
        var patternKey := PatternKey(patterns[i]);
        if patternKey !in done {
          return Some(NextPattern(CreateChallengeFromPattern(patterns[i], groupName, bpm),
                                  patternKey, |done| == |patterns| - 1));
        }
        i := i + 1;
      }
      return None;
    }

    /** `markPatternCompleted`: the source throws for an unknown group. */
    method MarkPatternCompleted(groupName: string, patternKey: string)
      requires Valid() && groupName in GroupNames
      modifies this
      ensures Valid()
      ensures completed == old(completed)[groupName := old(completed)[groupName] + {patternKey}]
    {
      completed := completed[groupName := completed[groupName] + {patternKey}];
    }

    /** `resetGroupProgress`: the source throws for an unknown group. */
    method ResetGroupProgress(groupName: string)
      requires Valid() && groupName in GroupNames
      modifies this
      ensures Valid()
      ensures completed == old(completed)[groupName := {}]
    {
      completed := completed[groupName := {}];
    }

    /** `getGroupProgress`: the source throws for an unknown group. */
    method GetGroupProgress(groupName: string) returns (p: Progress)
      requires Valid() && groupName in GroupNames
      ensures p.total == |RhythmGroups[groupName]|
      ensures p.completed == |completed[groupName]|
    {
      var total := if groupName in RhythmGroups then |RhythmGroups[groupName]| else 0;
      p := Progress(|completed[groupName]|, total);
    }
  }

  /** `isLastInGroup` holds iff the completed set is one short of the
      group's length. */
  lemma IsLastInGroupCount(groupName: string, bpm: real, completed: map<string, set<string>>)
    requires groupName in RhythmGroups && groupName in completed
    ensures var r := NextPatternFromGroup(groupName, bpm, completed);
      r.Some? ==> (r.value.isLastInGroup <==> |completed[groupName]| == |RhythmGroups[groupName]| - 1)
  {
  }

  /** A group's completed count is bounded by its distinct keys; so, for the
      starter group, it never exceeds 15 and the "last in group" flag is never
      raised. */
  lemma StarterNeverLast(bpm: real, completed: map<string, set<string>>)
    requires "starter" in completed && completed["starter"] <= KeysOf(StarterPatterns)
    ensures |completed["starter"]| <= 15 < |StarterPatterns| - 1
    ensures var r := NextPatternFromGroup("starter", bpm, completed); r.Some? ==> !r.value.isLastInGroup
  {
    StarterDistinctKeys();
    SubsetSize(completed["starter"], KeysOf(StarterPatterns));
    StarterGroup();
    IsLastInGroupCount("starter", bpm, completed);
  }

  lemma StarterGroup()
    ensures "starter" in RhythmGroups && RhythmGroups["starter"] == StarterPatterns && |StarterPatterns| == 25
  {
  }

  lemma SubsetSize(a: set<string>, b: set<string>)
    requires a <= b
    ensures |a| <= |b|
  {
    assert b == a + (b - a);
  }

  /** Every pattern of the library has between one and eight beats. */
  lemma LibraryPatternsWellFormed(g: string, i: nat)
    requires g in RhythmGroups && i < |RhythmGroups[g]|
    ensures |RhythmGroups[g]| == 25
    ensures 1 <= |RhythmGroups[g][i]| <= 8
  {
    if g == "starter" { StarterWellFormed(i); }
    else if g == "intermediate" { IntermediateWellFormed(i); }
    else if g == "advanced" { AdvancedWellFormed(i); }
    else { ExpertWellFormed(i); }
  }

  lemma StarterWellFormed(i: nat)
    requires i < |StarterPatterns|
    ensures |StarterPatterns| == 25 && 1 <= |StarterPatterns[i]| <= 8
  {
  }

  lemma IntermediateWellFormed(i: nat)
    requires i < |IntermediatePatterns|
    ensures |IntermediatePatterns| == 25 && 1 <= |IntermediatePatterns[i]| <= 8
  {
  }

  lemma AdvancedWellFormed(i: nat)
    requires i < |AdvancedPatterns|
    ensures |AdvancedPatterns| == 25 && 1 <= |AdvancedPatterns[i]| <= 8
  {
  }

  lemma ExpertWellFormed(i: nat)
    requires i < |ExpertPatterns|
    ensures |ExpertPatterns| == 25 && 1 <= |ExpertPatterns[i]| <= 8
  {
  }
}
