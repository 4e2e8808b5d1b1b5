/** Invariants of the written content rows, and the write loop itself. */
module VideoRows {
  import opened Prelude
  import opened Publication
  import opened VideoReplay
  import opened VideoTable

  /** The reasons the ingress contract lets a revision carry never name the transient rewrite. */
  ghost predicate ReasonsOk(rev: Revision) {
    && (forall a | a in rev.document.exits :: a.reason != WINDOW_REWRITE)
    && (forall a | a in rev.document.retractions :: a.reason != WINDOW_REWRITE)
  }

  /** A showing record has the position of its payload and no reason; any other record has no position
      and a reason, never the transient one. */
  predicate Settled(content: Content) {
    if content.status == Showing
    then content.position == Some(content.item.position) && content.reason == None
    else content.position == None && content.reason.Some? && content.reason.value != WINDOW_REWRITE
  }

  ghost predicate AllSettled(videos: map<string, Content>) {
    forall id | id in videos :: Settled(videos[id])
  }

  /** The unique index on active positions and the check that they are positive. */
  ghost predicate Writable(videos: map<string, Content>) {
    && (forall id | Shows(videos, id) :: videos[id].position.Some? && videos[id].position.value > 0)
    && (forall a, b | Shows(videos, a) && Shows(videos, b) && videos[a].position == videos[b].position :: a == b)
  }

  lemma {:induction false} CollectReasons(values: seq<Removal>, found: map<string, string>)
    requires forall id | id in found :: found[id] in RETRACTION_REASONS
    ensures var all := Collect(values, found);
      all.Some? ==> forall id | id in all.value :: all.value[id] in RETRACTION_REASONS
    decreases values
  {
    if values != [] && Collect(values, found).Some? {
      CollectReasons(values[1..], found[values[0].contentId := values[0].reason]);
    }
  }

  lemma {:induction false} UpsertAllSettles(view: View, items: seq<Item>, rev: Revision)
    requires AllSettled(view.videos)
    ensures AllSettled(UpsertAll(view, items, rev).videos)
    decreases items
  {
    if items != [] {
      UpsertAllSettles(Upsert(view, items[0], rev), items[1..], rev);
    }
  }

  lemma {:induction false} RemoveAllSettles(view: View, actions: seq<Removal>, rev: Revision, status: WindowStatus)
    requires AllSettled(view.videos) && status != Showing
    requires forall a | a in actions :: a.reason != WINDOW_REWRITE
    ensures AllSettled(RemoveAll(view, actions, rev, status).view.videos)
    decreases actions
  {
    if actions != [] && Removable(view.videos, actions[0].contentId, status) {
      RemoveAllSettles(Remove(view, actions[0], rev, status), actions[1..], rev, status);
    }
  }

  lemma ChangeSettles(header: bool, view: View, rev: Revision, cutover: bool)
    requires AllSettled(view.videos) && ReasonsOk(rev)
    ensures AllSettled(Change(header, view, rev, cutover).view.videos)
  {
    if rev.kind == Bootstrap {
      var history := Historical(rev, cutover);
      if history.Some? {
        if rev.recovery.Some? {
          CollectReasons(rev.recovery.value.retractions, map[]);
        }
        UpsertAllSettles(WithdrawAll(view, rev, history.value), rev.document.items, rev);
      }
    } else if header {
      UpsertAllSettles(view, rev.document.upserts, rev);
      var upserted := UpsertAll(view, rev.document.upserts, rev);
      RemoveAllSettles(upserted, rev.document.exits, rev, Exited);
      var exits := RemoveAll(upserted, rev.document.exits, rev, Exited);
      RemoveAllSettles(exits.view, rev.document.retractions, rev, Retracted);
    }
  }

  lemma {:induction false} SimulateSettles(h: Digest, header: bool, view: View, revs: seq<Revision>, cutover: bool)
    requires AllSettled(view.videos) && (forall r | r in revs :: ReasonsOk(r))
    ensures AllSettled(Simulate(h, header, view, revs, cutover).view.videos)
    decreases revs
  {
    if revs != [] {
      ChangeSettles(header, view, revs[0], cutover);
      SimulateSettles(h, true, Change(header, view, revs[0], cutover).view, revs[1..], cutover);
    }
  }

  /** After a batch without a failure the window is what the last revision declares: the showing
      videos are listed at positions 1..n without repeats and hash to its result hash. */
  lemma {:induction false} AcceptedWindow(h: Digest, header: bool, view: View, revs: seq<Revision>, cutover: bool)
    requires revs != [] && !Simulate(h, header, view, revs, cutover).failed
    ensures ResultMatches(h, revs[|revs| - 1], Simulate(h, header, view, revs, cutover).view.videos)
    decreases revs
  {
    var edit := Apply(h, header, view, revs[0], cutover);
    if |revs| > 1 {
      AcceptedWindow(h, true, edit.view, revs[1..], cutover);
    }
  }

  lemma MatchedIsWritable(h: Digest, rev: Revision, videos: map<string, Content>)
    requires ResultMatches(h, rev, videos) && AllSettled(videos)
    ensures Writable(videos)
  {
    var ids :| Listing(videos, ids) && h.window(rev.document.policy, Payloads(videos, ids)) == Some(rev.resultHash);
    forall a, b | Shows(videos, a) && Shows(videos, b) && videos[a].position == videos[b].position
      ensures a == b
    {
      var i :| 0 <= i < |ids| && ids[i] == a;
      var j :| 0 <= j < |ids| && ids[j] == b;
    }
    forall a | Shows(videos, a)
      ensures videos[a].position.value > 0
    {
      var i :| 0 <= i < |ids| && ids[i] == a;
    }
  }

  /** The transient reason never stays behind, and settled rows stay settled. */
  lemma PersistSettles(h: Digest, header: bool, table: map<string, Content>, revs: seq<Revision>, cutover: bool)
    requires AllSettled(table) && (forall r | r in revs :: ReasonsOk(r))
    ensures AllSettled(Persist(table, Simulate(h, header, Load(table, BatchRefs(revs)), revs, cutover).view))
  {
    PartialViewRefinesTable(h, header, table, BatchRefs(revs), revs, cutover);
    SimulateSettles(h, header, LoadAll(table), revs, cutover);
  }

  /** The table after the clearing update and the writes of the records in `done`. */
  ghost function Written(table: map<string, Content>, view: View, done: set<string>): map<string, Content> {
    map id | id in table.Keys + done && (id in table || Writes(view, id)) ::
      if id in done && Writes(view, id) then view.videos[id] else Cleared(table[id])
  }

  lemma WrittenKeepsIndex(table: map<string, Content>, view: View, done: set<string>)
    requires Writable(view.videos) && done <= view.videos.Keys
    ensures Writable(Written(table, view, done))
  {
  }

  lemma WrittenEnds(table: map<string, Content>, view: View)
    ensures Written(table, view, view.videos.Keys) == Persist(table, view)
  {
    assert forall id :: Writes(view, id) ==> id in view.videos.Keys;
  }

  // --- replay on one stream, from an empty table ---

  ghost function Replayed(h: Digest, revs: seq<Revision>): Replay {
    Simulate(h, false, View(map[], {}), revs, false)
  }

  lemma OverwriteKept(videos: map<string, Content>, whole: View)
    requires Keeps(View(videos, {}), whole)
    ensures Overwrite(videos, whole) == whole.videos
  {
  }

  /** Committing a batch on top of the committed replay of `before` gives the committed replay of both. */
  lemma BatchExtendsReplay(h: Digest, before: seq<Revision>, batch: seq<Revision>)
    requires !Replayed(h, before).failed
    ensures
      var table := Replayed(h, before).view.videos;
      var replay := Simulate(h, before != [], Load(table, BatchRefs(batch)), batch, false);
      var both := Replayed(h, before + batch);
      && replay.failed == both.failed && both.accepted == |before| + replay.accepted
      && Persist(table, replay.view) == both.view.videos
  {
    var table := Replayed(h, before).view.videos;
    SimulateConcat(h, false, View(map[], {}), before, batch, false);
    PartialViewRefinesTable(h, before != [], table, BatchRefs(batch), batch, false);
    SimulateTouched(h, before != [], Replayed(h, before).view, {}, batch, false);
    var whole := Simulate(h, before != [], LoadAll(table), batch, false).view;
    SimulateKeeps(h, before != [], LoadAll(table), batch, false);
    OverwriteKept(table, whole);
  }
}
