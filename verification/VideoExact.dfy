/** When the rows after a video batch are exactly the replay of its accepted revisions, and when they keep
    the window those declare. */
module VideoExact {
  import opened Prelude
  import opened Publication
  import opened VideoReplay
  import opened VideoTable
  import VideoRows

  // --- a revision that fails half way ---

  /** The revision is refused before its first write, or has nothing to write at all. */
  predicate StopsBeforeWriting(header: bool, videos: map<string, Content>, rev: Revision, cutover: bool) {
    if rev.kind == Bootstrap then
      Historical(rev, cutover).None? || (rev.document.items == [] && forall id | id in videos ::
                                         videos[id].status != Showing)
    else
      !header || (
        && rev.document.upserts == []
        && if rev.document.exits != []
           then !Removable(videos, rev.document.exits[0].contentId, Exited)
           else rev.document.retractions != [] ==> !Removable(videos, rev.document.retractions[0].contentId, Retracted))
  }

  /** Some touched record names the revision. */
  ghost predicate Marked(view: View, revisionId: string) {
    exists id :: id in view.touched && id in view.videos && view.videos[id].revisionId == revisionId
  }

  ghost predicate Unnamed(videos: map<string, Content>, revisionId: string) {
    forall id | id in videos :: videos[id].revisionId != revisionId
  }

  lemma {:induction false} UpsertAllMarks(view: View, items: seq<Item>, rev: Revision)
    requires Marked(view, rev.id) || items != []
    ensures Marked(UpsertAll(view, items, rev), rev.id)
    decreases items
  {
    if items != [] {
      var next := Upsert(view, items[0], rev);
      assert items[0].contentId in next.touched && next.videos[items[0].contentId].revisionId == rev.id;
      UpsertAllMarks(next, items[1..], rev);
    }
  }

  lemma {:induction false} RemoveAllMarks(view: View, actions: seq<Removal>, rev: Revision, status: WindowStatus)
    requires Marked(view, rev.id) || (actions != [] && Removable(view.videos, actions[0].contentId, status))
    ensures Marked(RemoveAll(view, actions, rev, status).view, rev.id)
    decreases actions
  {
    if actions != [] && Removable(view.videos, actions[0].contentId, status) {
      var next := Remove(view, actions[0], rev, status);
      assert actions[0].contentId in next.touched && next.videos[actions[0].contentId].revisionId == rev.id;
      RemoveAllMarks(next, actions[1..], rev, status);
    }
  }

  lemma WriterIsMarked(header: bool, view: View, rev: Revision, cutover: bool)
    requires !StopsBeforeWriting(header, view.videos, rev, cutover)
    ensures Marked(Change(header, view, rev, cutover).view, rev.id)
  {
    if rev.kind == Bootstrap {
      var cleared := WithdrawAll(view, rev, Historical(rev, cutover).value);
      if id :| id in view.videos && view.videos[id].status == Showing {
        assert id in cleared.touched && cleared.videos[id].revisionId == rev.id;
      }
      UpsertAllMarks(cleared, rev.document.items, rev);
    } else {
      var upserted := UpsertAll(view, rev.document.upserts, rev);
      if rev.document.upserts != [] {
        UpsertAllMarks(view, rev.document.upserts, rev);
      }
      var exits := RemoveAll(upserted, rev.document.exits, rev, Exited);
      if Marked(upserted, rev.id) || rev.document.exits != [] {
        RemoveAllMarks(upserted, rev.document.exits, rev, Exited);
      }
      if !exits.failed {
        RemoveAllMarks(exits.view, rev.document.retractions, rev, Retracted);
      }
    }
  }

  lemma NonWriterLeavesAll(header: bool, view: View, rev: Revision, cutover: bool)
    requires StopsBeforeWriting(header, view.videos, rev, cutover)
    ensures Change(header, view, rev, cutover).view == view
  {
    if rev.kind == Bootstrap && Historical(rev, cutover).Some? {
      var cleared := WithdrawAll(view, rev, Historical(rev, cutover).value);
      assert cleared.videos == view.videos && cleared.touched == view.touched;
    }
  }

  lemma {:induction false} UpsertAllUnnamed(view: View, items: seq<Item>, rev: Revision, other: string)
    requires Unnamed(view.videos, other) && rev.id != other
    ensures Unnamed(UpsertAll(view, items, rev).videos, other)
    decreases items
  {
    if items != [] {
      UpsertAllUnnamed(Upsert(view, items[0], rev), items[1..], rev, other);
    }
  }

  lemma {:induction false} RemoveAllUnnamed(view: View, actions: seq<Removal>, rev: Revision, status: WindowStatus,
                                            other: string)
    requires Unnamed(view.videos, other) && rev.id != other
    ensures Unnamed(RemoveAll(view, actions, rev, status).view.videos, other)
    decreases actions
  {
    if actions != [] && Removable(view.videos, actions[0].contentId, status) {
      RemoveAllUnnamed(Remove(view, actions[0], rev, status), actions[1..], rev, status, other);
    }
  }

  lemma ChangeUnnamed(header: bool, view: View, rev: Revision, cutover: bool, other: string)
    requires Unnamed(view.videos, other) && rev.id != other
    ensures Unnamed(Change(header, view, rev, cutover).view.videos, other)
  {
    if rev.kind == Bootstrap {
      var history := Historical(rev, cutover);
      if history.Some? {
        UpsertAllUnnamed(WithdrawAll(view, rev, history.value), rev.document.items, rev, other);
      }
    } else if header {
      UpsertAllUnnamed(view, rev.document.upserts, rev, other);
      var upserted := UpsertAll(view, rev.document.upserts, rev);
      RemoveAllUnnamed(upserted, rev.document.exits, rev, Exited, other);
      var exits := RemoveAll(upserted, rev.document.exits, rev, Exited);
      RemoveAllUnnamed(exits.view, rev.document.retractions, rev, Retracted, other);
    }
  }

  lemma {:induction false} SimulateUnnamed(h: Digest, header: bool, view: View, revs: seq<Revision>, cutover: bool,
                                           other: string)
    requires Unnamed(view.videos, other) && (forall r | r in revs :: r.id != other)
    ensures Unnamed(Simulate(h, header, view, revs, cutover).view.videos, other)
    decreases revs
  {
    if revs != [] {
      ChangeUnnamed(header, view, revs[0], cutover, other);
      SimulateUnnamed(h, true, Change(header, view, revs[0], cutover).view, revs[1..], cutover, other);
    }
  }

  /** The accepted prefix alone replays without a failure; the whole batch is the prefix followed by
      the first changes of the revision that failed. */
  lemma {:induction false} FailedTail(h: Digest, header: bool, view: View, revs: seq<Revision>, cutover: bool)
    requires Simulate(h, header, view, revs, cutover).failed
    ensures
      var all := Simulate(h, header, view, revs, cutover);
      var prefix := Simulate(h, header, view, revs[..all.accepted], cutover);
      && !prefix.failed
      && all.view == Change(header || all.accepted > 0, prefix.view, revs[all.accepted], cutover).view
    decreases revs
  {
    var edit := Apply(h, header, view, revs[0], cutover);
    if !edit.failed {
      FailedTail(h, true, edit.view, revs[1..], cutover);
      var n := Simulate(h, true, edit.view, revs[1..], cutover).accepted;
      assert revs[..n + 1][1..] == revs[1..][..n];
    }
  }

  /** The rows after a batch: a domain of which nothing was accepted is not written at all. */
  function AfterBatch(table: map<string, Content>, replay: Replay): map<string, Content> {
    if replay.accepted == 0 then table else Persist(table, replay.view)
  }

  /** Writing back what was loaded changes nothing. */
  lemma LoadedWritesBack(table: map<string, Content>, refs: set<string>)
    ensures Persist(table, Load(table, refs)) == table
  {
  }

  /** What a replay of the revisions over the whole table leaves. */
  ghost function ExactTable(h: Digest, header: bool, table: map<string, Content>, revs: seq<Revision>, cutover: bool)
    : map<string, Content>
  {
    Simulate(h, header, LoadAll(table), revs, cutover).view.videos
  }

  lemma {:induction false} PrefixRefs(revs: seq<Revision>, n: nat)
    requires n <= |revs|
    ensures BatchRefs(revs[..n]) <= BatchRefs(revs)
  {
    if n > 0 {
      assert revs[..n][1..] == revs[1..][..n - 1];
      PrefixRefs(revs[1..], n - 1);
    }
  }

  /** Writing back the replay of a prefix, on the rows loaded for the batch, gives its exact table. */
  lemma LoadedPrefix(h: Digest, header: bool, table: map<string, Content>, revs: seq<Revision>, n: nat, cutover: bool)
    requires n <= |revs|
    ensures
      var prefix := Simulate(h, header, Load(table, BatchRefs(revs)), revs[..n], cutover);
      Persist(table, prefix.view) == ExactTable(h, header, table, revs[..n], cutover)
  {
    PrefixRefs(revs, n);
    PartialViewRefinesTable(h, header, table, BatchRefs(revs), revs[..n], cutover);
    SimulateKeeps(h, header, LoadAll(table), revs[..n], cutover);
    VideoRows.OverwriteKept(table, Simulate(h, header, LoadAll(table), revs[..n], cutover).view);
  }

  /** The rows after a batch are what a replay of exactly its accepted revisions over the whole table
      leaves, if and only if no revision failed after an accepted one, or the one that failed was stopped
      before its first write. Ids are fresh: the failing revision is neither named in the table nor among
      the accepted ones. */
  lemma PrefixExactIff(h: Digest, header: bool, table: map<string, Content>, revs: seq<Revision>, cutover: bool)
    requires forall r, id | r in revs && id in table :: table[id].revisionId != r.id
    requires forall i, j | 0 <= i < j < |revs| :: revs[i].id != revs[j].id
    ensures
      var view := Load(table, BatchRefs(revs));
      var all := Simulate(h, header, view, revs, cutover);
      var prefix := Simulate(h, header, view, revs[..all.accepted], cutover).view;
      AfterBatch(table, all) == ExactTable(h, header, table, revs[..all.accepted], cutover)
      <==> (all.failed && all.accepted > 0 ==> StopsBeforeWriting(true, prefix.videos, revs[all.accepted], cutover))
  {
    var view := Load(table, BatchRefs(revs));
    var all := Simulate(h, header, view, revs, cutover);
    LoadedPrefix(h, header, table, revs, all.accepted, cutover);
    if all.accepted == 0 {
      LoadedWritesBack(table, BatchRefs(revs));
    } else if all.failed {
      FailedTail(h, header, view, revs, cutover);
      var prefix := Simulate(h, header, view, revs[..all.accepted], cutover).view;
      var failing := revs[all.accepted];
      if StopsBeforeWriting(true, prefix.videos, failing, cutover) {
        NonWriterLeavesAll(true, prefix, failing, cutover);
      } else {
        WriterIsMarked(true, prefix, failing, cutover);
        SimulateUnnamed(h, header, view, revs[..all.accepted], cutover, failing.id);
        MarkIsStored(table, all.view, prefix, failing.id);
      }
    } else {
      assert revs[..all.accepted] == revs;
    }
  }

  lemma MarkIsStored(table: map<string, Content>, marked: View, clean: View, revisionId: string)
    requires Marked(marked, revisionId) && Unnamed(clean.videos, revisionId)
    requires forall id | id in table :: table[id].revisionId != revisionId
    ensures Persist(table, marked) != Persist(table, clean)
  {
    var id :| id in marked.touched && id in marked.videos && marked.videos[id].revisionId == revisionId;
    var a, b := Persist(table, marked), Persist(table, clean);
    assert id in a && a[id].revisionId == revisionId;
    assert id in b ==> b[id].revisionId != revisionId;
  }

  // --- the window after a batch ---

  /** Every record carries the payload of its own content id. */
  ghost predicate KeyedByItem(videos: map<string, Content>) {
    forall id | id in videos :: videos[id].item.contentId == id
  }

  /** The same items show. */
  ghost predicate SameActive(a: map<string, Content>, b: map<string, Content>) {
    && (forall id :: Shows(a, id) <==> Shows(b, id))
    && (forall id | Shows(a, id) && Shows(b, id) :: a[id].item == b[id].item)
  }

  /** The hash tells windows apart. */
  ghost predicate Injective(h: Digest) {
    forall p, q, x, y | h.window(p, x) == h.window(q, y) && h.window(p, x).Some? :: p == q && x == y
  }

  lemma {:induction false} UpsertAllKeyed(view: View, items: seq<Item>, rev: Revision)
    requires KeyedByItem(view.videos)
    ensures KeyedByItem(UpsertAll(view, items, rev).videos)
    decreases items
  {
    if items != [] {
      UpsertAllKeyed(Upsert(view, items[0], rev), items[1..], rev);
    }
  }

  lemma {:induction false} RemoveAllKeyed(view: View, actions: seq<Removal>, rev: Revision, status: WindowStatus)
    requires KeyedByItem(view.videos)
    ensures KeyedByItem(RemoveAll(view, actions, rev, status).view.videos)
    decreases actions
  {
    if actions != [] && Removable(view.videos, actions[0].contentId, status) {
      RemoveAllKeyed(Remove(view, actions[0], rev, status), actions[1..], rev, status);
    }
  }

  lemma ChangeKeyed(header: bool, view: View, rev: Revision, cutover: bool)
    requires KeyedByItem(view.videos)
    ensures KeyedByItem(Change(header, view, rev, cutover).view.videos)
  {
    if rev.kind == Bootstrap {
      var history := Historical(rev, cutover);
      if history.Some? {
        UpsertAllKeyed(WithdrawAll(view, rev, history.value), rev.document.items, rev);
      }
    } else if header {
      UpsertAllKeyed(view, rev.document.upserts, rev);
      var upserted := UpsertAll(view, rev.document.upserts, rev);
      RemoveAllKeyed(upserted, rev.document.exits, rev, Exited);
      var exits := RemoveAll(upserted, rev.document.exits, rev, Exited);
      RemoveAllKeyed(exits.view, rev.document.retractions, rev, Retracted);
    }
  }

  lemma {:induction false} SimulateKeyed(h: Digest, header: bool, view: View, revs: seq<Revision>, cutover: bool)
    requires KeyedByItem(view.videos)
    ensures KeyedByItem(Simulate(h, header, view, revs, cutover).view.videos)
    decreases revs
  {
    if revs != [] {
      ChangeKeyed(header, view, revs[0], cutover);
      SimulateKeyed(h, true, Change(header, view, revs[0], cutover).view, revs[1..], cutover);
    }
  }

  lemma SameActiveMatches(h: Digest, rev: Revision, a: map<string, Content>, b: map<string, Content>)
    requires SameActive(a, b) && ResultMatches(h, rev, a)
    ensures ResultMatches(h, rev, b)
  {
    var ids :| Listing(a, ids) && h.window(rev.document.policy, Payloads(a, ids)) == Some(rev.resultHash);
    assert Listing(b, ids);
    assert Payloads(a, ids) == Payloads(b, ids);
  }

  lemma MatchesSameActive(h: Digest, rev: Revision, a: map<string, Content>, b: map<string, Content>)
    requires Injective(h) && KeyedByItem(a) && KeyedByItem(b)
    requires ResultMatches(h, rev, a) && ResultMatches(h, rev, b)
    ensures SameActive(a, b)
  {
    var xs :| Listing(a, xs) && h.window(rev.document.policy, Payloads(a, xs)) == Some(rev.resultHash);
    var ys :| Listing(b, ys) && h.window(rev.document.policy, Payloads(b, ys)) == Some(rev.resultHash);
    assert Payloads(a, xs) == Payloads(b, ys);
    forall i | 0 <= i < |xs|
      ensures xs[i] == ys[i] && a[xs[i]].item == b[ys[i]].item
    {
      assert Payloads(a, xs)[i] == Payloads(b, ys)[i];
    }
    assert xs == ys;
  }

  /** After a batch of which something was accepted, the records in memory show the window that the last
      accepted revision declares if and only if the first changes of a failing revision leave the active
      items as they were. */
  lemma WindowKeptIff(h: Digest, header: bool, view: View, revs: seq<Revision>, cutover: bool)
    requires KeyedByItem(view.videos) && Injective(h)
    requires Simulate(h, header, view, revs, cutover).accepted > 0
    ensures
      var all := Simulate(h, header, view, revs, cutover);
      var prefix := Simulate(h, header, view, revs[..all.accepted], cutover).view;
      ResultMatches(h, revs[all.accepted - 1], all.view.videos)
      <==> (all.failed ==>
              SameActive(prefix.videos, Change(true, prefix, revs[all.accepted], cutover).view.videos))
  {
    var all := Simulate(h, header, view, revs, cutover);
    var accepted := revs[..all.accepted];
    var prefix := Simulate(h, header, view, accepted, cutover);
    if all.failed {
      FailedTail(h, header, view, revs, cutover);
    } else {
      assert accepted == revs;
    }
    VideoRows.AcceptedWindow(h, header, view, accepted, cutover);
    SimulateKeyed(h, header, view, accepted, cutover);
    SimulateKeyed(h, header, view, revs, cutover);
    if ResultMatches(h, revs[all.accepted - 1], all.view.videos) {
      MatchesSameActive(h, revs[all.accepted - 1], prefix.view.videos, all.view.videos);
    } else if SameActive(prefix.view.videos, all.view.videos) {
      SameActiveMatches(h, revs[all.accepted - 1], prefix.view.videos, all.view.videos);
    }
  }

  lemma AcceptedPasses(h: Digest, header: bool, view: View, revs: seq<Revision>, cutover: bool)
    ensures
      var all := Simulate(h, header, view, revs, cutover);
      var prefix := Simulate(h, header, view, revs[..all.accepted], cutover);
      !prefix.failed && (!all.failed ==> prefix == all)
  {
    var all := Simulate(h, header, view, revs, cutover);
    if all.failed {
      FailedTail(h, header, view, revs, cutover);
    } else {
      assert revs[..all.accepted] == revs;
    }
  }

  // One window with video a, then a delta that adds video b and drops the unknown video c.
  function Window1(): Revision {
    Revision("r1", "s", Domain.Video, 1, None, Bootstrap, None, "one",
             Document("", "", [Item("a", 1, "")], [], [], []), None)
  }

  function Delta2(position: int): Revision {
    Revision("r2", "s", Domain.Video, 2, Some(1), Incremental, Some("one"), "two",
             Document("", "", [], [Item("b", position, "")], [Removal("c", "aged_out")], []), None)
  }

  function OnlyA(): View {
    View(map["a" := Shown(Item("a", 1, ""), Window1())], {"a"})
  }

  function BothAB(position: int): View {
    Upsert(OnlyA(), Item("b", position, ""), Delta2(position))
  }

  lemma Window1Applies(h: Digest)
    requires h.window("", [Item("a", 1, "")]) == Some("one")
    ensures Apply(h, false, View(map[], {}), Window1(), false) == Edit(OnlyA(), false)
  {
    var cleared := WithdrawAll(View(map[], {}), Window1(), map[]);
    assert cleared == View(map[], {});
    assert UpsertAll(cleared, [Item("a", 1, "")], Window1()) == OnlyA();
    assert Listing(OnlyA().videos, ["a"]);
    assert Payloads(OnlyA().videos, ["a"]) == [Item("a", 1, "")];
  }

  /** The delta is refused at its exit of an unknown video and leaves its upsert behind. */
  lemma FailedDeltaLeaks(h: Digest, position: int)
    requires h.window("", [Item("a", 1, "")]) == Some("one")
    ensures Simulate(h, false, View(map[], {}), [Window1(), Delta2(position)], false)
      == Replay(BothAB(position), 1, true)
    ensures Simulate(h, false, View(map[], {}), [Window1()], false) == Replay(OnlyA(), 1, false)
    ensures !StopsBeforeWriting(true, OnlyA().videos, Delta2(position), false)
  {
    Window1Applies(h);
    var delta, b := Delta2(position), Item("b", position, "");
    assert UpsertAll(OnlyA(), [b], delta) == BothAB(position);
    assert Apply(h, true, OnlyA(), delta, false) == Edit(BothAB(position), true);
    assert [Window1(), delta][1..] == [delta] && [Window1()][1..] == [];
    assert Simulate(h, true, OnlyA(), [delta], false) == Replay(BothAB(position), 0, true);
  }
}
