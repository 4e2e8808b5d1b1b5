/** The rollback transaction: the database functions that undo releases until the target is active, and
    the administrator's call around them. */
module RollbackStore {
  import opened Prelude
  import opened Rollback
  import opened RollbackChain

  // --- what the database functions do ---

  /** The live rows are the after-images of the release: nothing has drifted since. */
  predicate InStep(live: map<string, Document>, changes: map<string, Change>) {
    forall c | c in changes :: Row(live, c) == changes[c].after
  }

  predicate Undoable(s: Storage) {
    && s.active.Some? && s.active.value in s.releases
    && var release := s.releases[s.active.value];
    && release.status == Active && release.previous.Some?
    && !Incomplete(s.releases, s.active.value)
    && InStep(s.live, release.changes)
  }

  function Retire(releases: map<string, Release>, watermark: string): map<string, Release>
    requires watermark in releases
  {
    releases[watermark := releases[watermark].(status := Retired)]
  }

  /** rollback_creator_search_release_v9 on the active release; None when it raises. */
  function UndoRelease(s: Storage): Option<Storage> {
    if !Undoable(s) then None else
      var w := s.active.value;
      var prior := s.releases[w].previous.value;
      var retired := Retire(s.releases, w);
      if prior !in retired || retired[prior].status != Retired then None
      else Some(s.(
        live := Undo(s.live, s.releases[w].changes),
        releases := retired[prior := retired[prior].(status := Active)],
        active := Some(prior)))
  }

  /** rollback_creator_search_to_watermark_v1; `left` releases may still be undone. */
  function RollbackTo(s: Storage, target: string, left: nat): Option<Storage>
    decreases left
  {
    if s.active == Some(target) && target in s.releases then Some(s)
    else if s.active.None? || s.active.value !in s.releases || !s.releases[s.active.value].rollable || left == 0
      then None
    else
      var next := UndoRelease(s);
      if next.None? then None else RollbackTo(next.value, target, left - 1)
  }

  /** rollback_creator_search_incremental_storage_v1 */
  function RollbackStorage(s: Storage, target: string, expected: nat): Option<Storage> {
    if !s.modes.incremental || !s.modes.live then None else
      var done := RollbackTo(s, target, DEPTH_LIMIT);
      if done.None? || |done.value.live| != expected || |Legacy(done.value, target)| != expected
         || Differences(Legacy(done.value, target), Bodies(done.value.live)) != {} then None
      else Some(done.value.(modes := Modes(false, false)))
  }

  // --- the same, written out ---

  /** The active release may be undone: it is marked active, its changes are recorded, the live rows are its
      after-images, and its predecessor is there and retired. */
  ghost predicate MayUndo(s: Storage) {
    && s.active.Some? && s.active.value in s.releases
    && var w := s.active.value;
    var release := s.releases[w];
    && release.status == Active && Recorded(s.releases, w)
    && (forall c | c in release.changes :: Row(s.live, c) == release.changes[c].after)
    && release.previous.Some? && release.previous.value in s.releases
    && (release.previous.value == w || s.releases[release.previous.value].status == Retired)
  }

  /** The changed channels have their before-images; the predecessor is active, the release retired. */
  ghost predicate UndoneRelease(s: Storage, t: Storage)
    requires MayUndo(s)
  {
    var w := s.active.value;
    var release := s.releases[w];
    var prior := release.previous.value;
    && t.active == Some(prior) && Restored(s.live, release.changes, t.live)
    && t.releases.Keys == s.releases.Keys
    && (forall x | x in s.releases :: t.releases[x] == s.releases[x].(
          status := if x == prior then Active else if x == w then Retired else s.releases[x].status))
    && t.legacy == s.legacy && t.modes == s.modes && t.inFlight == s.inFlight
  }

  lemma UndoReleaseMeans(s: Storage)
    ensures UndoRelease(s).Some? <==> MayUndo(s)
    ensures UndoRelease(s).Some? ==> UndoneRelease(s, UndoRelease(s).value)
  {
    if s.active.Some? {
      RecordedIff(s.releases, s.active.value);
      if s.active.value in s.releases {
        UndoRestores(s.live, s.releases[s.active.value].changes);
      }
    }
  }

  /** The loop: releases are undone one by one, none of them the target, each of a kind that can be undone, until
      the target is active. */
  ghost predicate LoopRun(run: seq<Storage>, target: string) {
    && run != [] && run[|run| - 1].active == Some(target) && target in run[|run| - 1].releases
    && forall i | 0 <= i < |run| - 1 :: LoopStep(run[i], run[i + 1], target)
  }

  ghost predicate LoopStep(s: Storage, t: Storage, target: string) {
    && s.active != Some(target) && MayUndo(s) && s.releases[s.active.value].rollable
    && t == UndoRelease(s).value && UndoneRelease(s, t)
  }

  lemma {:induction false} LoopRuns(s: Storage, target: string, left: nat) returns (run: seq<Storage>)
    requires RollbackTo(s, target, left).Some?
    ensures LoopRun(run, target) && |run| <= left + 1 && run[0] == s
    ensures Some(run[|run| - 1]) == RollbackTo(s, target, left)
    decreases left
  {
    run := [s];
    if s.active == Some(target) {
      LoopStops(s, target, left);
    } else {
      LoopGoesOn(s, target, left);
      var rest := LoopRuns(UndoRelease(s).value, target, left - 1);
      RunExtends(s, rest, target);
      run := [s] + rest;
    }
  }

  lemma LoopStops(s: Storage, target: string, left: nat)
    requires RollbackTo(s, target, left).Some? && s.active == Some(target)
    ensures RollbackTo(s, target, left) == Some(s) && LoopRun([s], target)
  {
  }

  lemma LoopGoesOn(s: Storage, target: string, left: nat)
    requires RollbackTo(s, target, left).Some? && s.active != Some(target)
    ensures left > 0 && UndoRelease(s).Some? && LoopStep(s, UndoRelease(s).value, target)
    ensures RollbackTo(s, target, left) == RollbackTo(UndoRelease(s).value, target, left - 1)
  {
    UndoReleaseMeans(s);
  }

  lemma RunExtends(s: Storage, rest: seq<Storage>, target: string)
    requires LoopRun(rest, target) && LoopStep(s, rest[0], target)
    ensures LoopRun([s] + rest, target) && ([s] + rest)[|rest|] == rest[|rest| - 1]
  {
    var run := [s] + rest;
    forall i | 0 <= i < |run| - 1
      ensures LoopStep(run[i], run[i + 1], target)
    {
      if i > 0 {
        assert LoopStep(rest[i - 1], rest[i - 1 + 1], target);
      }
    }
  }

  /** Conversely the loop ends, at its last state, if there is such a run within its safety limit. */
  lemma {:induction false} LoopEnds(run: seq<Storage>, target: string, left: nat)
    requires LoopRun(run, target) && |run| <= left + 1
    ensures RollbackTo(run[0], target, left) == Some(run[|run| - 1])
    decreases left
  {
    if |run| > 1 {
      RunGoesOn(run, target);
      UndoReleaseMeans(run[0]);
      LoopEnds(run[1..], target, left - 1);
    }
  }

  lemma RunGoesOn(run: seq<Storage>, target: string)
    requires LoopRun(run, target) && |run| > 1
    ensures LoopStep(run[0], run[1], target) && LoopRun(run[1..], target)
  {
    assert LoopStep(run[0], run[0 + 1], target);
    forall i | 0 <= i < |run[1..]| - 1
      ensures LoopStep(run[1..][i], run[1..][i + 1], target)
    {
      assert LoopStep(run[i + 1], run[i + 1 + 1], target);
    }
  }

  /** The database function goes through exactly if both modes are on, the loop ends, and then the live rows are as
      many as expected and have the bodies of the legacy snapshot; it turns both modes off. */
  lemma StorageMeans(s: Storage, target: string, expected: nat)
    ensures RollbackStorage(s, target, expected).Some? <==>
      && s.modes.incremental && s.modes.live && RollbackTo(s, target, DEPTH_LIMIT).Some?
      && var t := RollbackTo(s, target, DEPTH_LIMIT).value;
      && |t.live| == expected && target in t.legacy.Keys + (if expected == 0 then {target} else {})
      && forall c :: BodyAt(t, target, c) == RowBody(t.live, c)
    ensures RollbackStorage(s, target, expected).Some? ==>
      RollbackStorage(s, target, expected).value
      == RollbackTo(s, target, DEPTH_LIMIT).value.(modes := Modes(false, false))
  {
    if RollbackTo(s, target, DEPTH_LIMIT).Some? {
      var t := RollbackTo(s, target, DEPTH_LIMIT).value;
      NoDifferences(Legacy(t, target), Bodies(t.live));
      BodiesMatch(t, target, t.live);
      BodiesCount(t.live);
      assert Differences(Legacy(t, target), Bodies(t.live)) == {}
        <==> |Differences(Legacy(t, target), Bodies(t.live))| == 0;
    }
  }

  // --- the loop goes where the query looked ---

  /** Undoing releases changes statuses only, and the query does not read them. */
  predicate SameHistory(a: map<string, Release>, b: map<string, Release>) {
    a.Keys == b.Keys && forall w | w in a :: a[w].(status := Active) == b[w].(status := Active)
  }

  lemma {:induction false} WalkSame(a: map<string, Release>, b: map<string, Release>, watermark: string,
                                    target: string, left: nat)
    requires SameHistory(a, b)
    ensures Walk(b, watermark, target, left) == Walk(a, watermark, target, left)
    decreases left
  {
    if watermark in a {
      assert a[watermark].(status := Active) == b[watermark].(status := Active);
      if watermark != target && left > 0 && a[watermark].previous.Some? {
        WalkSame(a, b, a[watermark].previous.value, target, left - 1);
      }
    }
  }

  lemma {:induction false} UndoAllSame(live: map<string, Document>, a: map<string, Release>, b: map<string, Release>,
                                       undone: seq<string>)
    requires SameHistory(a, b)
    ensures UndoAll(live, b, undone) == UndoAll(live, a, undone)
    decreases undone
  {
    if undone != [] {
      assert undone[0] in a ==> a[undone[0]].(status := Active) == b[undone[0]].(status := Active);
      UndoAllSame(Undo(live, Changes(a, undone[0])), a, b, undone[1..]);
    }
  }

  /** t is s after undoing exactly the releases on the path of the query. */
  ghost predicate Follows(s: Storage, t: Storage, target: string, left: nat) {
    s.active.Some?
    && var path := Walk(s.releases, s.active.value, target, left);
    && path.reached && t.active == Some(target)
    && t.live == UndoAll(s.live, s.releases, path.undone)
    && SameHistory(s.releases, t.releases) && t.legacy == s.legacy && t.modes == s.modes && t.inFlight == s.inFlight
  }

  /** next is s after undoing its active release. */
  ghost predicate Undoes(s: Storage, next: Storage) {
    && s.active.Some? && s.active.value in s.releases && next.active == s.releases[s.active.value].previous
    && next.active.Some?
    && next.live == Undo(s.live, s.releases[s.active.value].changes)
    && SameHistory(s.releases, next.releases)
    && next.legacy == s.legacy && next.modes == s.modes && next.inFlight == s.inFlight
  }

  lemma UndoReleaseUndoes(s: Storage)
    requires UndoRelease(s).Some?
    ensures Undoes(s, UndoRelease(s).value)
  {
  }

  lemma FollowsStep(s: Storage, next: Storage, t: Storage, target: string, left: nat)
    requires Undoes(s, next) && left > 0 && s.active.value != target && Follows(next, t, target, left - 1)
    ensures Follows(s, t, target, left)
  {
    WalkSame(s.releases, next.releases, next.active.value, target, left - 1);
    var path := Walk(s.releases, s.active.value, target, left);
    var rest := Walk(s.releases, next.active.value, target, left - 1);
    assert path.undone[1..] == rest.undone;
    UndoAllSame(next.live, s.releases, next.releases, rest.undone);
    SameTwice(s.releases, next.releases, t.releases);
  }

  /** If the loop ends, it has followed the path of the query and undone exactly its releases. */
  lemma {:induction false} LoopFollowsPath(s: Storage, target: string, left: nat)
    requires s.active.Some? && RollbackTo(s, target, left).Some?
    ensures Follows(s, RollbackTo(s, target, left).value, target, left)
    decreases left
  {
    if s.active.value != target {
      LoopGoesOn(s, target, left);
      var next := UndoRelease(s).value;
      UndoReleaseUndoes(s);
      LoopFollowsPath(next, target, left - 1);
      FollowsStep(s, next, RollbackTo(next, target, left - 1).value, target, left);
    }
  }

  lemma SameTwice(a: map<string, Release>, b: map<string, Release>, c: map<string, Release>)
    requires SameHistory(a, b) && SameHistory(b, c)
    ensures SameHistory(a, c)
  {
    forall w | w in a
      ensures a[w].(status := Active) == c[w].(status := Active)
    {
      assert a[w].(status := Active) == b[w].(status := Active);
    }
  }

  // --- when the loop ends ---

  /** A path that reaches the target does not depend on how far one may look. */
  lemma {:induction false} PathUnique(releases: map<string, Release>, watermark: string, target: string, left: nat,
                                      more: nat)
    requires Walk(releases, watermark, target, left).reached && left <= more
    ensures Walk(releases, watermark, target, more) == Walk(releases, watermark, target, left)
    decreases left
  {
    if watermark != target {
      PathUnique(releases, releases[watermark].previous.value, target, left - 1, more - 1);
    }
  }

  ghost predicate AllComplete(releases: map<string, Release>, undone: seq<string>) {
    forall w | w in undone :: w in releases && releases[w].rollable && !Incomplete(releases, w)
  }

  /** Of the target and the releases to undo, the active one is active and the others are retired. */
  ghost predicate Statuses(releases: map<string, Release>, active: string, undone: seq<string>, target: string) {
    forall w | w in releases && (w == target || w in undone) :: releases[w].status == if w == active then Active
      else Retired
  }

  /** The statuses and the recorded history of a chain that has only ever been published to. */
  ghost predicate Published(s: Storage, target: string, left: nat, states: seq<map<string, Document>>) {
    s.active.Some?
    && var path := Walk(s.releases, s.active.value, target, left);
    && path.reached
    && History(s.releases, path.undone, states) && states[0] == s.live
    && AllComplete(s.releases, path.undone)
    && Statuses(s.releases, s.active.value, path.undone, target)
  }

  lemma PublishedUndoes(s: Storage, target: string, left: nat, states: seq<map<string, Document>>)
    requires Published(s, target, left, states) && s.active.value != target
    ensures UndoRelease(s).Some?
    ensures Published(UndoRelease(s).value, target, left - 1, states[1..])
  {
    var w := s.active.value;
    var path := Walk(s.releases, w, target, left);
    var prior := s.releases[w].previous.value;
    var rest := Walk(s.releases, prior, target, left - 1);
    assert path.undone[0] == w && path.undone[1..] == rest.undone;
    assert Records(states[0 + 1], Changes(s.releases, path.undone[0]), states[0]);
    PublishedInStep(s, states, path.undone);
    PriorIsNext(s.releases, prior, target, left - 1);
    NotAgain(s.releases, w, target, left);
    assert w in path.undone && (prior == target || prior in path.undone);
    UndoReleaseUndoes(s);
    PublishedRest(s, UndoRelease(s).value, target, left, states, path.undone, prior);
  }

  lemma PublishedRest(s: Storage, next: Storage, target: string, left: nat, states: seq<map<string, Document>>,
                      undone: seq<string>, prior: string)
    requires Published(s, target, left, states) && Undoes(s, next) && s.active.value != target
      && next.active == Some(prior)
    requires undone == Walk(s.releases, s.active.value, target, left).undone && left > 0
    requires s.active.value !in undone[1..]
    requires forall x | x in s.releases ::
      next.releases[x].status == if x == prior then Active else if x == s.active.value then Retired
        else s.releases[x].status
    ensures Published(next, target, left - 1, states[1..])
  {
    PathRest(s.releases, next.releases, s.active.value, prior, target, left, undone);
    HistoryRest(s.releases, next.releases, undone, states);
    LiveRest(s, next, undone, states);
    CompleteRest(s.releases, next.releases, undone);
    StatusesRest(s.releases, next.releases, s.active.value, prior, undone, target);
  }

  lemma PathRest(a: map<string, Release>, b: map<string, Release>, watermark: string, prior: string, target: string,
                 left: nat, undone: seq<string>)
    requires SameHistory(a, b) && left > 0 && watermark != target && watermark in a
      && a[watermark].previous == Some(prior)
    requires Walk(a, watermark, target, left) == Path(undone, true)
    ensures undone != [] && undone[0] == watermark && Walk(b, prior, target, left - 1) == Path(undone[1..], true)
  {
    WalkSame(a, b, prior, target, left - 1);
    assert undone[1..] == Walk(a, prior, target, left - 1).undone;
  }

  lemma LiveRest(s: Storage, next: Storage, undone: seq<string>, states: seq<map<string, Document>>)
    requires Undoes(s, next) && undone != [] && undone[0] == s.active.value
    requires History(s.releases, undone, states) && states[0] == s.live
    ensures next.live == states[1]
  {
    assert Records(states[0 + 1], Changes(s.releases, undone[0]), states[0]);
    UndoRecovers(states[1], s.releases[undone[0]].changes, states[0]);
  }

  lemma CompleteRest(a: map<string, Release>, b: map<string, Release>, undone: seq<string>)
    requires undone != [] && AllComplete(a, undone) && SameHistory(a, b)
    ensures AllComplete(b, undone[1..])
  {
    forall x | x in undone[1..]
      ensures x in b && b[x].rollable && !Incomplete(b, x)
    {
      assert x in undone;
      assert a[x].(status := Active) == b[x].(status := Active);
    }
  }

  lemma StatusesRest(a: map<string, Release>, b: map<string, Release>, active: string, prior: string,
                     undone: seq<string>, target: string)
    requires undone != [] && Statuses(a, active, undone, target) && a.Keys == b.Keys
    requires active != target && active !in undone[1..]
    requires forall x | x in a :: b[x].status == if x == prior then Active else if x == active then Retired
      else a[x].status
    ensures Statuses(b, prior, undone[1..], target)
  {
    forall w | w in b && (w == target || w in undone[1..])
      ensures b[w].status == if w == prior then Active else Retired
    {
      assert w in undone[1..] ==> w in undone;
    }
  }

  lemma PublishedInStep(s: Storage, states: seq<map<string, Document>>, undone: seq<string>)
    requires undone != [] && undone[0] in s.releases && |states| > 1 && states[0] == s.live
    requires Records(states[1], Changes(s.releases, undone[0]), states[0])
    ensures InStep(s.live, s.releases[undone[0]].changes)
  {
    forall c | c in s.releases[undone[0]].changes
      ensures Row(s.live, c) == s.releases[undone[0]].changes[c].after
    {
      assert RecordsChannel(states[1], Changes(s.releases, undone[0]), states[0], c);
    }
  }

  /** The predecessor is the target, or the next release to be undone. */
  lemma PriorIsNext(releases: map<string, Release>, prior: string, target: string, left: nat)
    requires Walk(releases, prior, target, left).reached
    ensures prior in releases && (prior == target || prior in Walk(releases, prior, target, left).undone)
  {
  }

  /** A path that reaches the target passes every release once. */
  lemma NotAgain(releases: map<string, Release>, watermark: string, target: string, left: nat)
    requires watermark in releases && watermark != target && Walk(releases, watermark, target, left).reached
    ensures watermark !in Walk(releases, watermark, target, left).undone[1..]
  {
    var path := Walk(releases, watermark, target, left);
    if k :| 1 <= k < |path.undone| && path.undone[k] == watermark {
      Suffix(releases, watermark, target, left, k);
      PathUnique(releases, watermark, target, left - k, left);
    }
  }

  lemma {:induction false} Suffix(releases: map<string, Release>, watermark: string, target: string, left: nat, k: nat)
    requires Walk(releases, watermark, target, left).reached && k < |Walk(releases, watermark, target, left).undone|
    ensures k <= left
    ensures
      var path := Walk(releases, watermark, target, left);
      Walk(releases, path.undone[k], target, left - k) == Path(path.undone[k..], true)
    decreases k
  {
    var path := Walk(releases, watermark, target, left);
    if k > 0 {
      var prior := releases[watermark].previous.value;
      assert path.undone[1..] == Walk(releases, prior, target, left - 1).undone;
      Suffix(releases, prior, target, left - 1, k - 1);
    } else {
      assert path.undone[0..] == path.undone;
    }
  }

  lemma HistoryRest(a: map<string, Release>, b: map<string, Release>, undone: seq<string>,
                    states: seq<map<string, Document>>)
    requires undone != [] && History(a, undone, states) && SameHistory(a, b)
    ensures History(b, undone[1..], states[1..])
  {
    forall i | 0 <= i < |undone[1..]|
      ensures Records(states[1..][i + 1], Changes(b, undone[1..][i]), states[1..][i])
    {
      assert Records(states[i + 1 + 1], Changes(a, undone[i + 1]), states[i + 1]);
      assert undone[i + 1] in a ==> a[undone[i + 1]].(status := Active) == b[undone[i + 1]].(status := Active);
    }
  }

  /** On such a chain the loop never raises, and it restores the rows that were live at the target. */
  lemma {:induction false} PublishedRollsBack(s: Storage, target: string, left: nat, states: seq<map<string, Document>>)
    requires Published(s, target, left, states)
    ensures RollbackTo(s, target, left).Some?
    ensures RollbackTo(s, target, left).value.live == states[|states| - 1]
    decreases left
  {
    if s.active.value != target {
      PublishedUndoes(s, target, left, states);
      PublishedRollsBack(UndoRelease(s).value, target, left - 1, states[1..]);
    }
  }

  lemma BodiesCount(rows: map<string, Document>)
    ensures |Bodies(rows)| == |rows|
  {
    assert Bodies(rows).Keys == rows.Keys;
    assert |Bodies(rows)| == |Bodies(rows).Keys| && |rows| == |rows.Keys|;
  }

  /** A rollback that the evidence clears goes through on a chain that has only been published to; it
      leaves the rows that were live at the target. */
  lemma ClearRollsBack(s: Storage, target: string, states: seq<map<string, Document>>)
    requires Published(s, target, DEPTH_LIMIT, states) && s.modes == Modes(true, true)
    requires Clear(Inspect(s, target))
    ensures
      var done := RollbackStorage(s, target, Inspect(s, target).expectedCount);
      done.Some? && done.value.live == states[|states| - 1] && done.value.active == Some(target)
  {
    ClearMeans(s, target);
    PublishedRollsBack(s, target, DEPTH_LIMIT, states);
    LoopFollowsPath(s, target, DEPTH_LIMIT);
    var t := RollbackTo(s, target, DEPTH_LIMIT).value;
    NoDifferences(Legacy(s, target), Bodies(t.live));
    OnePassIsStepwise(s.live, s.releases, PathTo(s, target).undone);
    BodiesCount(t.live);
  }

  /** Whatever the chain, a rollback that goes through leaves what the query computed, which is the
      legacy snapshot of the target. */
  lemma RolledBackMeans(s: Storage, target: string, expected: nat)
    requires RollbackStorage(s, target, expected).Some?
    ensures
      var t := RollbackStorage(s, target, expected).value;
      && t.active == Some(target) && PathTo(s, target).reached
      && Bodies(t.live) == ExpectedTarget(s, target) == Legacy(s, target)
      && t.legacy == s.legacy && t.modes == Modes(false, false)
  {
    LoopFollowsPath(s, target, DEPTH_LIMIT);
    var t := RollbackTo(s, target, DEPTH_LIMIT).value;
    OnePassIsStepwise(s.live, s.releases, PathTo(s, target).undone);
    assert |Differences(Legacy(t, target), Bodies(t.live))| == 0;
    NoDifferences(Legacy(t, target), Bodies(t.live));
  }

  // --- the transaction ---

  class SearchStorage {
    var active: Option<string>
    var releases: map<string, Release>
    var live: map<string, Document>
    var legacy: map<string, map<string, string>>
    var modes: Modes
    var inFlight: nat

    function Snapshot(): Storage
      reads this
    {
      Storage(active, releases, live, legacy, modes, inFlight)
    }

    /** Replaces the changed rows by their before-images; the check afterwards always passes. */
    method Restore(changes: map<string, Change>) returns (raised: bool)
      modifies this`live
      ensures live == Undo(old(live), changes)
      ensures !raised
    {
      live := live - changes.Keys;
      live := live + map c | c in changes && changes[c].before.Some? :: changes[c].before.value;
      raised := exists c | c in changes :: Row(live, c) != changes[c].before;
    }

    /** rollback_creator_search_release_v9 */
    method RollbackRelease() returns (raised: bool)
      modifies this
      ensures raised <==> !MayUndo(old(Snapshot()))
      ensures !raised ==> UndoneRelease(old(Snapshot()), Snapshot())
      ensures raised <==> UndoRelease(old(Snapshot())).None?
      ensures !raised ==> Snapshot() == UndoRelease(old(Snapshot())).value
    {
      UndoReleaseMeans(Snapshot());
      if active.None? || active.value !in releases {
        return true;
      }
      var w := active.value;
      var release := releases[w];
      if release.status != Active || release.previous.None? || Incomplete(releases, w) {
        return true;
      }
      if exists c | c in release.changes :: Row(live, c) != release.changes[c].after {
        return true;
      }
      var unrestored := Restore(release.changes);
      var prior := release.previous.value;
      releases := Retire(releases, w);
      if prior !in releases || releases[prior].status != Retired {
        return true;
      }
      releases := releases[prior := releases[prior].(status := Active)];
      active := Some(prior);
      return unrestored;
    }

    /** One turn of the loop. */
    method UndoActive() returns (raised: bool)
      modifies this
      ensures raised <==> UndoRelease(old(Snapshot())).None?
      ensures !raised ==> Snapshot() == UndoRelease(old(Snapshot())).value
    {
      raised := RollbackRelease();
    }

    /** rollback_creator_search_to_watermark_v1 */
    method RollbackToWatermark(target: string) returns (raised: bool, count: nat)
      modifies this
      ensures raised <==> RollbackTo(old(Snapshot()), target, DEPTH_LIMIT).None?
      ensures !raised ==> Snapshot() == RollbackTo(old(Snapshot()), target, DEPTH_LIMIT).value
    {
      count := 0;
      while true
        invariant count <= DEPTH_LIMIT
        invariant RollbackTo(Snapshot(), target, DEPTH_LIMIT - count)
          == RollbackTo(old(Snapshot()), target, DEPTH_LIMIT)
        decreases DEPTH_LIMIT - count
      {
        if active == Some(target) && target in releases {
          return false, count;
        }
        if active.None? || active.value !in releases || !releases[active.value].rollable {
          return true, count;
        }
        raised := UndoActive();
        if raised {
          return;
        }
        count := count + 1;
        if count > DEPTH_LIMIT {
          return true, count;
        }
      }
    }

    /** rollback_creator_search_incremental_storage_v1 */
    method RollbackIncremental(target: string, expected: nat) returns (raised: bool, count: nat)
      modifies this
      ensures raised <==> RollbackStorage(old(Snapshot()), target, expected).None?
      ensures !raised ==> Snapshot() == RollbackStorage(old(Snapshot()), target, expected).value
    {
      count := 0;
      if !modes.incremental || !modes.live {
        return true, count;
      }
      raised, count := RollbackToWatermark(target);
      if raised {
        return;
      }
      if |live| != expected || |Legacy(Snapshot(), target)| != expected
         || Differences(Legacy(Snapshot(), target), Bodies(live)) != {} {
        return true, count;
      }
      modes := Modes(false, false);
    }

    /** The administrator's rollback: everything is checked again inside the transaction, and any
        refusal leaves the storage as it was. */
    method Rollback(expectedActive: string, expectedLiveCount: nat, target: string, approved: Evidence)
      returns (ok: bool, count: nat)
      modifies this
      ensures
        var s := old(Snapshot());
        ok <==>
          && s.active == Some(expectedActive) && |s.live| == expectedLiveCount
          && s.modes == Modes(true, true) && s.inFlight == 0
          && Inspect(s, target) == approved && Clear(approved)
          && RollbackStorage(s, target, approved.expectedCount).Some?
      ensures ok ==>
        && active == Some(target) && modes == Modes(false, false)
        && Bodies(live) == ExpectedTarget(old(Snapshot()), target) == Legacy(old(Snapshot()), target)
      ensures !ok ==> Snapshot() == old(Snapshot())
    {
      count := 0;
      if active != Some(expectedActive) || |live| != expectedLiveCount {
        return false, count;
      }
      if !modes.incremental || !modes.live || inFlight != 0 {
        return false, count;
      }
      var locked := Inspect(Snapshot(), target);
      if locked != approved {
        return false, count;
      }
      var blockers := RollbackTargetBlockers(locked);
      if blockers != [] {
        return false, count;
      }
      var begin := Snapshot();
      var raised;
      raised, count := RollbackIncremental(target, locked.expectedCount);
      if raised {
        Abort(begin);
        return false, count;
      }
      RolledBackMeans(begin, target, locked.expectedCount);
      ok := true;
    }

    method Abort(begin: Storage)
      modifies this
      ensures Snapshot() == begin
    {
      active, releases, live, legacy, modes, inFlight :=
        begin.active, begin.releases, begin.live, begin.legacy, begin.modes, begin.inFlight;
    }
  }
}
