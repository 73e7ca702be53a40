/** The pattern cycling of `SettingsMenu` (settings-controller.js): the
    current group, the fixed tempo, the pattern shown, and the three
    operations that pick the next pattern and hand it to the game. */
module Settings {
  import opened Wrappers
  import opened RhythmLibrary
  import GameSpec
  import Game
  import GameProperties

  /** The completed table `loadNewRhythm` works on: one set per group. */
  predicate Tracked(completed: map<string, set<string>>)
  {
    completed.Keys == GroupNames
  }

  /** What `loadNewRhythm` loads and the completed table it leaves: the
      group's next pattern if there is one; otherwise the group's progress
      is reset and the retry takes the group's first pattern. */
  function NewRhythm(group: string, bpm: real, completed: map<string, set<string>>): (r: (NextPattern, map<string, set<string>>))
    requires group in GroupNames && Tracked(completed)
    ensures Tracked(r.1) && |r.0.challenge.enabledBeats| <= 8
    ensures NextPatternFromGroup(group, bpm, completed).Some? ==> r == (NextPatternFromGroup(group, bpm, completed).value, completed)
    ensures NextPatternFromGroup(group, bpm, completed).None? ==>
      && r.1 == completed[group := {}]
      && r.0.challenge.enabledBeats == RhythmGroups[group][0]
      && r.0.patternKey == PatternKey(RhythmGroups[group][0])
  {
    GroupsInfoAgrees(group);
    OfferedFits(group, bpm, completed);
    match NextPatternFromGroup(group, bpm, completed)
    case Some(n) => (n, completed)
    case None =>
      var reset := completed[group := {}];
      ResetGroupOffersFirst(group, bpm, reset);
      OfferedFits(group, bpm, reset);
      (NextPatternFromGroup(group, bpm, reset).value, reset)
  }

  /** The pattern `loadNewRhythm` loads is one of the group's patterns, not
      in the completed table it leaves, and every pattern before it in the
      group is in that table. */
  lemma NewRhythmIsFirstOpen(group: string, bpm: real, completed: map<string, set<string>>)
    requires group in GroupNames && Tracked(completed)
    ensures var (n, done) := NewRhythm(group, bpm, completed);
      exists i :: 0 <= i < |RhythmGroups[group]|
        && n.challenge == CreateChallengeFromPattern(RhythmGroups[group][i], group, bpm)
        && n.patternKey == PatternKey(RhythmGroups[group][i]) && n.patternKey !in done[group]
        && (forall j :: 0 <= j < i ==> PatternKey(RhythmGroups[group][j]) in done[group])
  {
    GroupsInfoAgrees(group);
    var (n, done) := NewRhythm(group, bpm, completed);
    NextPatternIsFirstUncompleted(group, bpm, done);
    NextPatternIsFirstUncompleted(group, bpm, completed);
    assert NextPatternFromGroup(group, bpm, done) == Some(n);
  }

  /** A pattern the group offers has at most eight beats, so `early` has
      a coin flip for every one. */
  lemma OfferedFits(group: string, bpm: real, completed: map<string, set<string>>)
    requires group in GroupNames && Tracked(completed)
    ensures NextPatternFromGroup(group, bpm, completed).Some? ==>
      |NextPatternFromGroup(group, bpm, completed).value.challenge.enabledBeats| <= 8
  {
    GroupsInfoAgrees(group);
    NextPatternIsFirstUncompleted(group, bpm, completed);
    var r := NextPatternFromGroup(group, bpm, completed);
    if r.Some? {
      var i :| 0 <= i < |RhythmGroups[group]| && r.value.challenge.enabledBeats == RhythmGroups[group][i];
      LibraryPatternsWellFormed(group, i);
    }
  }

  /** When the group has no next pattern, every one of its 25 patterns'
      keys is completed, so the completed set is not empty and the reset
      makes it smaller: the retry of `loadNewRhythm` is its last. */
  lemma ExhaustedGroupNotEmpty(group: string, bpm: real, completed: map<string, set<string>>)
    requires group in GroupNames && Tracked(completed)
    requires NextPatternFromGroup(group, bpm, completed).None?
    ensures |completed[group]| > 0
  {
    GroupsInfoAgrees(group);
    NextPatternIsFirstUncompleted(group, bpm, completed);
    assert PatternKey(RhythmGroups[group][0]) in completed[group];
  }

  /** The retry after a reset offers a pattern, so it does not recurse again. */
  lemma RetryFindsPattern(group: string, bpm: real, completed: map<string, set<string>>)
    requires group in GroupNames && Tracked(completed)
    ensures NextPatternFromGroup(group, bpm, completed[group := {}]).Some?
    ensures NewRhythm(group, bpm, completed[group := {}]) == (NextPatternFromGroup(group, bpm, completed[group := {}]).value, completed[group := {}])
  {
    GroupsInfoAgrees(group);
    ResetGroupOffersFirst(group, bpm, completed[group := {}]);
  }

  /** The key `loadNewRhythm` hands to the game is one of the group's
      keys, and the completed table it leaves still holds only group keys. */
  lemma NewRhythmKeepsKeys(group: string, bpm: real, completed: map<string, set<string>>)
    requires group in GroupNames && Tracked(completed) && OnlyKeysOf(completed)
    ensures KeyInGroup(Some(NewRhythm(group, bpm, completed).0.patternKey), group)
    ensures OnlyKeysOf(NewRhythm(group, bpm, completed).1)
  {
    GroupsInfoAgrees(group);
    NewRhythmIsFirstOpen(group, bpm, completed);
  }

  /** In the starter group `loadNewRhythm` never loads a pattern flagged as
      the group's last, as long as only group keys are completed. */
  lemma NewRhythmStarterNeverLast(bpm: real, completed: map<string, set<string>>)
    requires Tracked(completed) && OnlyKeysOf(completed)
    ensures !NewRhythm("starter", bpm, completed).0.isLastInGroup
  {
    StarterGroup();
    if NextPatternFromGroup("starter", bpm, completed).Some? {
      CompletedWithinKeys(completed, "starter");
      StarterNeverLast(bpm, completed);
    } else {
      RetryFindsPattern("starter", bpm, completed);
      IsLastInGroupCount("starter", bpm, completed["starter" := {}]);
    }
  }

  /** The game's pattern key, when set, is one of the group's keys: both
      writers of `currentPatternKey` take it from the group in force. */
  predicate KeyInGroup(key: Option<string>, group: string)
  {
    key.None? || IsGroupKey(group, key.value)
  }

  /** Marking a key of the group completed keeps only group keys completed. */
  lemma MarkedKeepsKeys(completed: map<string, set<string>>, group: string, key: Option<string>)
    requires group in completed && OnlyKeysOf(completed) && KeyInGroup(key, group)
    ensures OnlyKeysOf(Marked(completed, group, key))
  {
  }

  /** The game fields `skipToNextPattern` changes before loading: the
      current key is counted once when it is set. */
  function Counted(g: GameSpec.GameView): (r: GameSpec.GameView)
    ensures r.totalCompletedRhythms == g.totalCompletedRhythms + (if Truthy(g.currentPatternKey) then 1 else 0)
    ensures r == g.(totalCompletedRhythms := r.totalCompletedRhythms)
  {
    if Truthy(g.currentPatternKey) then g.(totalCompletedRhythms := g.totalCompletedRhythms + 1) else g
  }

  /** JavaScript truthiness of `game.currentPatternKey`: set and not empty. */
  predicate Truthy(key: Option<string>)
  {
    key.Some? && key.value != ""
  }

  /** The completed table after `skipToNextPattern` has marked the key. */
  function Marked(completed: map<string, set<string>>, group: string, key: Option<string>): (r: map<string, set<string>>)
    requires group in completed
    ensures Truthy(key) ==> r == completed[group := completed[group] + {key.value}]
    ensures !Truthy(key) ==> r == completed
  {
    if Truthy(key) then completed[group := completed[group] + {key.value}] else completed
  }

  /** The game after `loadNewRhythm` loaded `n`: it plays `n`'s challenge
      and pattern and keeps `n`'s key, and the completed counter is the one
      it had before. */
  lemma LoadedPatternTracked(g: GameSpec.GameView, n: NextPattern, early: seq<bool>, delta: real)
    requires |early| >= |n.challenge.enabledBeats|
    ensures var after := GameSpec.LoadChallenge(g.(currentPatternKey := Some(n.patternKey)), n.challenge, early, delta).game;
      && after.currentPatternKey == Some(n.patternKey)
      && after.currentChallenge == Some(n.challenge)
      && after.originalPatternBeats == n.challenge.enabledBeats
      && after.totalCompletedRhythms == g.totalCompletedRhythms
  {
    GameProperties.LoadChallengeKeepsTracking(g.(currentPatternKey := Some(n.patternKey)), n.challenge, early, delta);
  }

  /** `skipToNextPattern` counts exactly one completed rhythm when a key was
      set and none otherwise, whether or not it first left a won game. */
  lemma SkipCountsOnce(g: GameSpec.GameView, n: NextPattern, early: seq<bool>, delta: real)
    requires |early| >= |n.challenge.enabledBeats|
    ensures var g0 := if g.victoryComplete then GameSpec.StartNewChallenge(g) else g;
      var after := GameSpec.LoadChallenge(Counted(g0).(currentPatternKey := Some(n.patternKey)), n.challenge, early, delta).game;
      && after.totalCompletedRhythms == g.totalCompletedRhythms + (if Truthy(g.currentPatternKey) then 1 else 0)
      && after.currentPatternKey == Some(n.patternKey)
  {
    var g0 := if g.victoryComplete then GameSpec.StartNewChallenge(g) else g;
    LoadedPatternTracked(Counted(g0), n, early, delta);
  }

  class SettingsMenu {
    const game: Game.RhythmGame
    const progress: PatternProgress
    /** `currentGroup`: the group patterns are drawn from. */
    var currentGroup: string
    /** `currentBPM`: fixed at 80 and never reassigned. */
    const currentBpm: real
    /** `currentPattern`: the beats of the pattern last loaded. */
    var currentPattern: Option<Pattern>

    /** What `loadNewRhythm` needs: a known group, and only group keys in
        the completed table. */
    ghost predicate Ready()
      reads this, game, progress
    {
      game.Valid() && progress.Valid() && currentGroup in GroupNames && progress.OnlyGroupKeys()
    }

    /** Between operations, in addition, the game's key is one of the
        current group's keys. */
    ghost predicate Valid()
      reads this, game, progress
    {
      Ready() && KeyInGroup(game.view.currentPatternKey, currentGroup)
    }

    /** The constructor: the starter group at 80 BPM, no pattern yet. The
        game it is given holds no key or a starter key, as the page's
        start-up leaves it. */
    constructor(game: Game.RhythmGame, progress: PatternProgress)
      requires game.Valid() && progress.Valid() && progress.OnlyGroupKeys()
      requires KeyInGroup(game.view.currentPatternKey, "starter")
      ensures this.game == game && this.progress == progress
      ensures currentGroup == "starter" && currentBpm == 80.0 && currentPattern == None
      ensures Valid()
    {
      this.game := game;
      this.progress := progress;
      currentGroup := "starter";
      currentBpm := 80.0;
      currentPattern := None;
    }

    /** `loadNewRhythm()`: store the next pattern of the current group and
        its key, and load it into the game; when the group is exhausted,
        reset its progress and try once more. `early` is the coin flips
        of `loadChallenge` and `delta` the gap between the two clock reads
        around its immediate first frame. */
    method LoadNewRhythm(early: seq<bool>, delta: real) returns (timers: seq<GameSpec.Timer>)
      requires Ready() && |early| >= 8 && 0.0 <= delta < 3.0
      modifies this, game, progress
      ensures Valid()
      ensures currentGroup == old(currentGroup)
      ensures var (n, done) := NewRhythm(old(currentGroup), currentBpm, old(progress.completed));
        && progress.completed == done
        && currentPattern == Some(n.challenge.enabledBeats)
        && game.view == GameSpec.LoadChallenge(old(game.view).(currentPatternKey := Some(n.patternKey)), n.challenge, early, delta).game
        && timers == GameSpec.LoadChallenge(old(game.view).(currentPatternKey := Some(n.patternKey)), n.challenge, early, delta).timers
      decreases |progress.completed[currentGroup]|
    {
      ghost var r := NewRhythm(currentGroup, currentBpm, progress.completed);
      var nextResult := progress.GetNextPatternFromGroup(currentGroup, currentBpm);
      NewRhythmKeepsKeys(currentGroup, currentBpm, progress.completed);
      if nextResult.Some? {
        assert r.0 == nextResult.value;
        timers := LoadPattern(nextResult.value, early, delta);
      } else {
        ExhaustedGroupNotEmpty(currentGroup, currentBpm, progress.completed);
        RetryFindsPattern(currentGroup, currentBpm, progress.completed);
        progress.ResetGroupProgress(currentGroup);
        timers := LoadNewRhythm(early, delta);
      }
    }

    /** The branch of `loadNewRhythm` that found a pattern: show it, store
        its key in the game and load its challenge. */
    method LoadPattern(next: NextPattern, early: seq<bool>, delta: real) returns (timers: seq<GameSpec.Timer>)
      requires Ready() && KeyInGroup(Some(next.patternKey), currentGroup)
      requires |next.challenge.enabledBeats| <= 8 <= |early| && 0.0 <= delta < 3.0
      modifies this, game
      ensures Valid()
      ensures currentGroup == old(currentGroup) && currentPattern == Some(next.challenge.enabledBeats)
      ensures game.view == GameSpec.LoadChallenge(old(game.view).(currentPatternKey := Some(next.patternKey)), next.challenge, early, delta).game
      ensures timers == GameSpec.LoadChallenge(old(game.view).(currentPatternKey := Some(next.patternKey)), next.challenge, early, delta).timers
    {
      currentPattern := Some(next.challenge.enabledBeats);
      game.view := game.view.(currentPatternKey := Some(next.patternKey));
      GameProperties.LoadChallengeKeepsTracking(game.view, next.challenge, early, delta);
      timers := game.LoadChallenge(next.challenge, early, delta);
    }

    /** `selectGroup(groupName)`: switch group, then load from it. */
    method SelectGroup(groupName: string, early: seq<bool>, delta: real) returns (timers: seq<GameSpec.Timer>)
      requires Valid() && groupName in GroupNames && |early| >= 8 && 0.0 <= delta < 3.0
      modifies this, game, progress
      ensures Valid()
      ensures currentGroup == groupName
      ensures var (n, done) := NewRhythm(groupName, currentBpm, old(progress.completed));
        && progress.completed == done
        && currentPattern == Some(n.challenge.enabledBeats)
        && game.view == GameSpec.LoadChallenge(old(game.view).(currentPatternKey := Some(n.patternKey)), n.challenge, early, delta).game
        && timers == GameSpec.LoadChallenge(old(game.view).(currentPatternKey := Some(n.patternKey)), n.challenge, early, delta).timers
    {
      currentGroup := groupName;
      timers := LoadNewRhythm(early, delta);
    }

    /** `skipToNextPattern()`: leave a won game, count the current pattern
        as completed if there is one, and load the next. */
    method SkipToNextPattern(early: seq<bool>, delta: real) returns (timers: seq<GameSpec.Timer>)
      requires Valid() && |early| >= 8 && 0.0 <= delta < 3.0
      modifies this, game, progress
      ensures Valid()
      ensures currentGroup == old(currentGroup)
      ensures var g0 := if old(game.view.victoryComplete) then GameSpec.StartNewChallenge(old(game.view)) else old(game.view);
        var (n, done) := NewRhythm(currentGroup, currentBpm, Marked(old(progress.completed), currentGroup, old(game.view.currentPatternKey)));
        && progress.completed == done
        && currentPattern == Some(n.challenge.enabledBeats)
        && game.view == GameSpec.LoadChallenge(Counted(g0).(currentPatternKey := Some(n.patternKey)), n.challenge, early, delta).game
        && timers == GameSpec.LoadChallenge(Counted(g0).(currentPatternKey := Some(n.patternKey)), n.challenge, early, delta).timers
    {
      LeaveVictory();
      CountCurrentPattern();
      timers := LoadNewRhythm(early, delta);
    }

    /** The start of `skipToNextPattern`: a won game starts a new challenge. */
    method LeaveVictory()
      requires Valid()
      modifies game
      ensures Valid()
      ensures game.view == if old(game.view.victoryComplete) then GameSpec.StartNewChallenge(old(game.view)) else old(game.view)
    {
      if game.view.victoryComplete {
        game.StartNewChallenge();
      }
    }

    /** The middle of `skipToNextPattern`: a set key is marked completed in
        the current group and counted. */
    method CountCurrentPattern()
      requires Valid()
      modifies game, progress
      ensures Valid()
      ensures progress.completed == Marked(old(progress.completed), currentGroup, old(game.view.currentPatternKey))
      ensures game.view == Counted(old(game.view))
    {
      MarkedKeepsKeys(progress.completed, currentGroup, game.view.currentPatternKey);
      if Truthy(game.view.currentPatternKey) {
        progress.MarkPatternCompleted(currentGroup, game.view.currentPatternKey.value);
        game.view := game.view.(totalCompletedRhythms := game.view.totalCompletedRhythms + 1);
      }
    }
  }

  /** For the running menu the starter group's completed count stays at or
      below 15, so the starter group never reports a pattern as its last. */
  lemma MenuStarterNeverLast(m: SettingsMenu, bpm: real)
    requires m.Valid()
    ensures |m.progress.completed["starter"]| <= 15 < |StarterPatterns| - 1
    ensures var r := NextPatternFromGroup("starter", bpm, m.progress.completed); r.Some? ==> !r.value.isLastInGroup
  {
    StarterGroup();
    CompletedWithinKeys(m.progress.completed, "starter");
    StarterNeverLast(bpm, m.progress.completed);
  }
}
