/** Going back to an old search release: the one-pass query that rebuilds its rows from before-images,
    and the database function that undoes the releases one by one. */
module Rollback {
  import opened Prelude

  /** A row of creator_search_live; `body` is the row without its watermark. */
  datatype Document = Document(watermark: string, body: string)

  datatype Change = Change(before: Option<Document>, after: Option<Document>)

  datatype ReleaseStatus = Active | Retired | Unpublished

  /** A release with its rows of creator_search_changes; `rollable`: its storage mode is shadow or
      incremental. */
  datatype Release = Release(
    previous: Option<string>,
    status: ReleaseStatus,
    rollable: bool,
    changedCount: Option<nat>,
    changes: map<string, Change>)

  datatype Modes = Modes(incremental: bool, live: bool)

  /** `legacy` holds the creator_search_current rows of each watermark, without the watermark. */
  datatype Storage = Storage(
    active: Option<string>,
    releases: map<string, Release>,
    live: map<string, Document>,
    legacy: map<string, map<string, string>>,
    modes: Modes,
    inFlight: nat)

  const DEPTH_LIMIT: nat := 10000

  // --- the one-pass query ---

  /** The releases from the active one back to the target, newest first, without the target. */
  datatype Path = Path(undone: seq<string>, reached: bool)

  function Walk(releases: map<string, Release>, watermark: string, target: string, left: nat): Path
    decreases left
  {
    if watermark !in releases then Path([], false)
    else if watermark == target then Path([], true)
    else if left == 0 || releases[watermark].previous.None? then Path([watermark], false)
    else
      var rest := Walk(releases, releases[watermark].previous.value, target, left - 1);
      Path([watermark] + rest.undone, rest.reached)
  }

  function PathTo(s: Storage, target: string): Path {
    if s.active.None? then Path([], false) else Walk(s.releases, s.active.value, target, DEPTH_LIMIT)
  }

  function Changes(releases: map<string, Release>, watermark: string): map<string, Change> {
    if watermark in releases then releases[watermark].changes else map[]
  }

  function Befores(changes: map<string, Change>): map<string, Option<Document>> {
    map c | c in changes :: changes[c].before
  }

  /** DISTINCT ON (channel_id) ... ORDER BY channel_id, depth DESC: the deepest before-image wins. */
  function Overrides(releases: map<string, Release>, undone: seq<string>): map<string, Option<Document>> {
    if undone == [] then map[] else Befores(Changes(releases, undone[0])) + Overrides(releases, undone[1..])
  }

  /** The live rows that are not overridden, and the overrides that are rows. */
  function Overridden(live: map<string, Document>, overrides: map<string, Option<Document>>): map<string, Document> {
    map c | c in live.Keys + overrides.Keys && (c in overrides ==> overrides[c].Some?) ::
      if c in overrides then overrides[c].value else live[c]
  }

  function Bodies(rows: map<string, Document>): map<string, string> {
    map c | c in rows :: rows[c].body
  }

  function ExpectedTarget(s: Storage, target: string): map<string, string> {
    Bodies(Overridden(s.live, Overrides(s.releases, PathTo(s, target).undone)))
  }

  // --- undoing the releases one by one ---

  /** Delete the changed channels, then insert their before-images. */
  function Undo(live: map<string, Document>, changes: map<string, Change>): map<string, Document> {
    map c | c in live.Keys + changes.Keys && (c in changes ==> changes[c].before.Some?) ::
      if c in changes then changes[c].before.value else live[c]
  }

  function UndoAll(live: map<string, Document>, releases: map<string, Release>,
                   undone: seq<string>): map<string, Document>
    decreases undone
  {
    if undone == [] then live else UndoAll(Undo(live, Changes(releases, undone[0])), releases, undone[1..])
  }

  lemma OverrideTwice(live: map<string, Document>, changes: map<string, Change>, deeper: map<string, Option<Document>>)
    ensures Overridden(Undo(live, changes), deeper) == Overridden(live, Befores(changes) + deeper)
  {
    var a, b := Overridden(Undo(live, changes), deeper), Overridden(live, Befores(changes) + deeper);
    forall c
      ensures c in a <==> c in b
      ensures c in a ==> a[c] == b[c]
    {
    }
  }

  /** One pass equals step by step, for every chain: overriding with the deepest before-images is
      undoing the releases newest to oldest. */
  lemma {:induction false} OnePassIsStepwise(live: map<string, Document>, releases: map<string, Release>,
                                             undone: seq<string>)
    ensures Overridden(live, Overrides(releases, undone)) == UndoAll(live, releases, undone)
    decreases undone
  {
    if undone != [] {
      var changes := Changes(releases, undone[0]);
      OnePassIsStepwise(Undo(live, changes), releases, undone[1..]);
      OverrideTwice(live, changes, Overrides(releases, undone[1..]));
    }
  }

  // --- exact before-images ---

  function Row(rows: map<string, Document>, c: string): Option<Document> {
    if c in rows then Some(rows[c]) else None
  }

  /** A release took `before` to `after` and recorded both images of every channel it changed. */
  ghost predicate Records(before: map<string, Document>, changes: map<string, Change>, after: map<string, Document>) {
    forall c :: RecordsChannel(before, changes, after, c)
  }

  predicate RecordsChannel(before: map<string, Document>, changes: map<string, Change>, after: map<string, Document>,
                           c: string) {
    if c in changes then changes[c].before == Row(before, c) && changes[c].after == Row(after, c)
    else Row(before, c) == Row(after, c)
  }

  lemma UndoRecovers(before: map<string, Document>, changes: map<string, Change>, after: map<string, Document>)
    requires Records(before, changes, after)
    ensures Undo(after, changes) == before
  {
    forall c
      ensures Row(Undo(after, changes), c) == Row(before, c)
    {
      assert RecordsChannel(before, changes, after, c);
    }
    SameRows(Undo(after, changes), before);
  }

  lemma SameRows(a: map<string, Document>, b: map<string, Document>)
    requires forall c :: Row(a, c) == Row(b, c)
    ensures a == b
  {
    forall c
      ensures c in a <==> c in b
      ensures c in a ==> a[c] == b[c]
    {
      assert Row(a, c) == Row(b, c);
    }
  }

  /** states[i] was live when undone[i] had been published; the last one is the target's state. */
  ghost predicate History(releases: map<string, Release>, undone: seq<string>, states: seq<map<string, Document>>) {
    && |states| == |undone| + 1
    && forall i | 0 <= i < |undone| :: Records(states[i + 1], Changes(releases, undone[i]), states[i])
  }

  lemma {:induction false} StepwiseRecovers(releases: map<string, Release>, undone: seq<string>,
                                            states: seq<map<string, Document>>)
    requires History(releases, undone, states)
    ensures UndoAll(states[0], releases, undone) == states[|undone|]
    decreases undone
  {
    if undone != [] {
      assert Records(states[0 + 1], Changes(releases, undone[0]), states[0]);
      UndoRecovers(states[1], Changes(releases, undone[0]), states[0]);
      forall i | 0 <= i < |undone[1..]|
        ensures Records(states[1..][i + 1], Changes(releases, undone[1..][i]), states[1..][i])
      {
        assert Records(states[i + 1 + 1], Changes(releases, undone[i + 1]), states[i + 1]);
      }
      StepwiseRecovers(releases, undone[1..], states[1..]);
    }
  }

  /** With exact before-images the query computes the rows that were live at the target release. */
  lemma QueryRecoversTarget(s: Storage, target: string, states: seq<map<string, Document>>)
    requires History(s.releases, PathTo(s, target).undone, states) && states[0] == s.live
    ensures ExpectedTarget(s, target) == Bodies(states[|states| - 1])
  {
    OnePassIsStepwise(s.live, s.releases, PathTo(s, target).undone);
    StepwiseRecovers(s.releases, PathTo(s, target).undone, states);
  }

  // --- the evidence ---

  /** The channels on which two row sets differ, as in the full join. */
  function Differences(a: map<string, string>, b: map<string, string>): set<string> {
    set c | c in a.Keys + b.Keys && (c !in a || c !in b || a[c] != b[c])
  }

  lemma NoDifferences(a: map<string, string>, b: map<string, string>)
    ensures |Differences(a, b)| == 0 <==> a == b
  {
    if Differences(a, b) == {} {
      forall c
        ensures c in a <==> c in b
        ensures c in a ==> a[c] == b[c]
      {
        assert c !in Differences(a, b);
      }
    } else {
      var c :| c in Differences(a, b);
    }
  }

  predicate Incomplete(releases: map<string, Release>, watermark: string) {
    var changes := |Changes(releases, watermark)|;
    watermark !in releases || changes == 0 || releases[watermark].changedCount != Some(changes)
  }

  function ChainErrors(releases: map<string, Release>, undone: seq<string>): nat {
    if undone == [] then 0 else (if Incomplete(releases, undone[0]) then 1 else 0) + ChainErrors(releases, undone[1..])
  }

  lemma {:induction false} NoChainErrors(releases: map<string, Release>, undone: seq<string>)
    ensures ChainErrors(releases, undone) == 0 <==> forall w | w in undone :: !Incomplete(releases, w)
  {
    if undone != [] {
      NoChainErrors(releases, undone[1..]);
      assert forall w :: w in undone <==> w == undone[0] || w in undone[1..];
    }
  }

  datatype Evidence = Evidence(present: bool, reachable: bool, count: nat, expectedCount: nat, parityDiffs: nat,
                               chainErrors: nat)

  function Legacy(s: Storage, target: string): map<string, string> {
    if target in s.legacy then s.legacy[target] else map[]
  }

  /** INSPECT_ROLLBACK_TARGET_SQL */
  function Inspect(s: Storage, target: string): Evidence {
    var path := PathTo(s, target);
    Evidence(
      target in s.releases,
      path.reached,
      |Legacy(s, target)|,
      |ExpectedTarget(s, target)|,
      |Differences(ExpectedTarget(s, target), Legacy(s, target))|,
      ChainErrors(s.releases, path.undone))
  }

  datatype Blocker = ReleaseMissing | NotReachable | IncompleteChanges(n: nat) | SnapshotDiffers

  /** rollbackTargetBlockers */
  method RollbackTargetBlockers(e: Evidence) returns (blockers: seq<Blocker>)
    ensures ReleaseMissing in blockers <==> !e.present
    ensures NotReachable in blockers <==> !e.reachable
    ensures IncompleteChanges(e.chainErrors) in blockers <==> e.chainErrors != 0
    ensures blockers == [] <==> Clear(e)
  {
    blockers := [];
    if !e.present {
      blockers := blockers + [ReleaseMissing];
    }
    if !e.reachable {
      blockers := blockers + [NotReachable];
    }
    if e.chainErrors != 0 {
      blockers := blockers + [IncompleteChanges(e.chainErrors)];
    }
    if e.present && e.reachable && e.chainErrors == 0 && (e.count != e.expectedCount || e.parityDiffs != 0) {
      blockers := blockers + [SnapshotDiffers];
    }
  }

  predicate Clear(e: Evidence) {
    e.present && e.reachable && e.chainErrors == 0 && e.count == e.expectedCount && e.parityDiffs == 0
  }

  /** Nothing blocks the rollback if and only if the chain reaches the target, its change history is
      complete, and the legacy snapshot of the target is exactly what undoing the releases would leave. */
  lemma ClearMeans(s: Storage, target: string)
    ensures
      var path := PathTo(s, target);
      Clear(Inspect(s, target)) <==>
        && path.reached
        && (forall w | w in path.undone :: !Incomplete(s.releases, w))
        && Legacy(s, target) == Bodies(UndoAll(s.live, s.releases, path.undone))
  {
    var path := PathTo(s, target);
    NoDifferences(ExpectedTarget(s, target), Legacy(s, target));
    NoChainErrors(s.releases, path.undone);
    OnePassIsStepwise(s.live, s.releases, path.undone);
    if path.reached {
      ReachedExists(s.releases, s.active.value, target, DEPTH_LIMIT);
    }
  }

  lemma {:induction false} ReachedExists(releases: map<string, Release>, watermark: string, target: string, left: nat)
    requires Walk(releases, watermark, target, left).reached
    ensures target in releases
    decreases left
  {
    if watermark != target {
      ReachedExists(releases, releases[watermark].previous.value, target, left - 1);
    }
  }
}
