/** result.content_current, by content id: loading part of it, writing the replayed records back, and
    what the written rows are. */
module VideoTable {
  import opened Prelude
  import opened Publication
  import opened VideoReplay

  function Ids(items: seq<Item>): set<string> {
    set i | 0 <= i < |items| :: items[i].contentId
  }

  function RemovalIds(actions: seq<Removal>): set<string> {
    set i | 0 <= i < |actions| :: actions[i].contentId
  }

  function Refs(doc: Document): set<string> {
    Ids(doc.items) + Ids(doc.upserts) + RemovalIds(doc.exits) + RemovalIds(doc.retractions)
  }

  function BatchRefs(revs: seq<Revision>): set<string> {
    if revs == [] then {} else Refs(revs[0].document) + BatchRefs(revs[1..])
  }

  predicate Loads(table: map<string, Content>, refs: set<string>, id: string) {
    id in table && (table[id].status == Showing || id in refs)
  }

  /** loadVideoState: the active rows and the rows the batch mentions. */
  function Load(table: map<string, Content>, refs: set<string>): View {
    View(map id | id in table && (table[id].status == Showing || id in refs) :: table[id], {})
  }

  /** The rows that stay in the database. */
  function Rest(table: map<string, Content>, refs: set<string>): map<string, Content> {
    map id | id in table && table[id].status != Showing && id !in refs :: table[id]
  }

  /** The whole table in memory. */
  function LoadAll(table: map<string, Content>): View {
    View(table, {})
  }

  predicate Writes(view: View, id: string) {
    id in view.videos && (view.videos[id].status == Showing || id in view.touched)
  }

  function Cleared(row: Content): Content {
    if row.status == Showing
    then row.(position := None, status := Exited, reason := Some(WINDOW_REWRITE))
    else row
  }

  function ClearAll(table: map<string, Content>): map<string, Content> {
    map id | id in table :: Cleared(table[id])
  }

  /** persistVideoState: clear every active position, then upsert every active or touched record. */
  function Persist(table: map<string, Content>, view: View): map<string, Content> {
    map id | id in table.Keys + view.videos.Keys && (id in table || Writes(view, id)) ::
      if Writes(view, id) then view.videos[id] else Cleared(table[id])
  }

  /** What a replay over the whole table would leave: the active and the touched rows are new. */
  function Overwrite(table: map<string, Content>, view: View): map<string, Content> {
    map id | id in table.Keys + view.videos.Keys && (id in table || Writes(view, id)) ::
      if Writes(view, id) then view.videos[id] else table[id]
  }

  // --- the frame: records that do not show and are not mentioned take no part ---

  ghost predicate Apart(rest: map<string, Content>, videos: map<string, Content>, refs: set<string>) {
    && rest.Keys !! videos.Keys
    && rest.Keys !! refs
    && (forall id | id in rest :: rest[id].status != Showing)
  }

  function With(view: View, rest: map<string, Content>): View {
    View(view.videos + rest, view.touched)
  }

  lemma {:induction false} UpsertAllFrame(view: View, rest: map<string, Content>, items: seq<Item>, rev: Revision,
                                          refs: set<string>)
    requires Apart(rest, view.videos, refs) && Ids(items) <= refs
    ensures UpsertAll(With(view, rest), items, rev) == With(UpsertAll(view, items, rev), rest)
    ensures Apart(rest, UpsertAll(view, items, rev).videos, refs)
    decreases items
  {
    if items != [] {
      var next := Upsert(view, items[0], rev);
      assert items[0].contentId in Ids(items);
      assert Upsert(With(view, rest), items[0], rev) == With(next, rest);
      assert Ids(items[1..]) <= Ids(items) by {
        forall i | 0 <= i < |items[1..]|
          ensures items[1..][i].contentId in Ids(items)
        {
          assert items[1..][i] == items[i + 1];
        }
      }
      UpsertAllFrame(next, rest, items[1..], rev, refs);
    }
  }

  lemma {:induction false} RemoveAllFrame(view: View, rest: map<string, Content>, actions: seq<Removal>, rev: Revision,
                                          status: WindowStatus, refs: set<string>)
    requires Apart(rest, view.videos, refs) && RemovalIds(actions) <= refs
    ensures
      var edit := RemoveAll(view, actions, rev, status);
      && RemoveAll(With(view, rest), actions, rev, status) == Edit(With(edit.view, rest), edit.failed)
      && Apart(rest, edit.view.videos, refs)
    decreases actions
  {
    if actions != [] {
      assert actions[0].contentId in RemovalIds(actions);
      if Removable(view.videos, actions[0].contentId, status) {
        var next := Remove(view, actions[0], rev, status);
        assert Remove(With(view, rest), actions[0], rev, status) == With(next, rest);
        assert RemovalIds(actions[1..]) <= RemovalIds(actions) by {
          forall i | 0 <= i < |actions[1..]|
            ensures actions[1..][i].contentId in RemovalIds(actions)
          {
            assert actions[1..][i] == actions[i + 1];
          }
        }
        RemoveAllFrame(next, rest, actions[1..], rev, status, refs);
      }
    }
  }

  lemma ListingFrame(videos: map<string, Content>, rest: map<string, Content>, ids: seq<string>, refs: set<string>)
    requires Apart(rest, videos, refs)
    ensures Listing(videos, ids) <==> Listing(videos + rest, ids)
  {
    forall id
      ensures Shows(videos, id) <==> Shows(videos + rest, id)
      ensures Shows(videos, id) ==> videos[id] == (videos + rest)[id]
    {
    }
  }

  lemma ResultFrame(h: Digest, rev: Revision, videos: map<string, Content>, rest: map<string, Content>,
                    refs: set<string>)
    requires Apart(rest, videos, refs)
    ensures ResultMatches(h, rev, videos) <==> ResultMatches(h, rev, videos + rest)
  {
    forall ids
      ensures Listing(videos, ids) <==> Listing(videos + rest, ids)
      ensures Listing(videos, ids) ==> Payloads(videos, ids) == Payloads(videos + rest, ids)
    {
      ListingFrame(videos, rest, ids, refs);
    }
  }

  lemma WithdrawFrame(view: View, rest: map<string, Content>, rev: Revision, history: map<string, string>,
                      refs: set<string>)
    requires Apart(rest, view.videos, refs)
    ensures WithdrawAll(With(view, rest), rev, history) == With(WithdrawAll(view, rev, history), rest)
    ensures Apart(rest, WithdrawAll(view, rev, history).videos, refs)
  {
    var a, b := WithdrawAll(With(view, rest), rev, history), With(WithdrawAll(view, rev, history), rest);
    assert a.videos == b.videos;
    assert a.touched == b.touched;
  }

  lemma ChangeFrame(header: bool, view: View, rest: map<string, Content>, rev: Revision, cutover: bool,
                    refs: set<string>)
    requires Apart(rest, view.videos, refs) && Refs(rev.document) <= refs
    ensures
      var edit := Change(header, view, rev, cutover);
      && Change(header, With(view, rest), rev, cutover) == Edit(With(edit.view, rest), edit.failed)
      && Apart(rest, edit.view.videos, refs)
  {
    if rev.kind == Bootstrap {
      var history := Historical(rev, cutover);
      if history.Some? {
        WithdrawFrame(view, rest, rev, history.value, refs);
        UpsertAllFrame(WithdrawAll(view, rev, history.value), rest, rev.document.items, rev, refs);
      }
    } else if header {
      UpsertAllFrame(view, rest, rev.document.upserts, rev, refs);
      var upserted := UpsertAll(view, rev.document.upserts, rev);
      RemoveAllFrame(upserted, rest, rev.document.exits, rev, Exited, refs);
      var exits := RemoveAll(upserted, rev.document.exits, rev, Exited);
      if !exits.failed {
        RemoveAllFrame(exits.view, rest, rev.document.retractions, rev, Retracted, refs);
      }
    }
  }

  lemma {:induction false} SimulateFrame(h: Digest, header: bool, view: View, rest: map<string, Content>,
                                         revs: seq<Revision>, cutover: bool, refs: set<string>)
    requires Apart(rest, view.videos, refs) && BatchRefs(revs) <= refs
    ensures
      var replay := Simulate(h, header, view, revs, cutover);
      && Simulate(h, header, With(view, rest), revs, cutover)
         == Replay(With(replay.view, rest), replay.accepted, replay.failed)
      && Apart(rest, replay.view.videos, refs)
    decreases revs
  {
    if revs != [] {
      ChangeFrame(header, view, rest, revs[0], cutover, refs);
      var edit := Change(header, view, revs[0], cutover);
      ResultFrame(h, revs[0], edit.view.videos, rest, refs);
      SimulateFrame(h, true, edit.view, rest, revs[1..], cutover, refs);
    }
  }

  // --- what stays untouched stays as it was ---

  ghost predicate Keeps(before: View, after: View) {
    && before.touched <= after.touched <= before.touched + after.videos.Keys
    && before.videos.Keys <= after.videos.Keys
    && (forall id | id !in after.touched ::
          (id in after.videos <==> id in before.videos)
            && (id in after.videos ==> after.videos[id] == before.videos[id]))
  }

  lemma {:induction false} UpsertAllKeeps(view: View, items: seq<Item>, rev: Revision)
    ensures Keeps(view, UpsertAll(view, items, rev))
    decreases items
  {
    if items != [] {
      UpsertAllKeeps(Upsert(view, items[0], rev), items[1..], rev);
    }
  }

  lemma {:induction false} RemoveAllKeeps(view: View, actions: seq<Removal>, rev: Revision, status: WindowStatus)
    ensures Keeps(view, RemoveAll(view, actions, rev, status).view)
    decreases actions
  {
    if actions != [] && Removable(view.videos, actions[0].contentId, status) {
      RemoveAllKeeps(Remove(view, actions[0], rev, status), actions[1..], rev, status);
    }
  }

  lemma ChangeKeeps(header: bool, view: View, rev: Revision, cutover: bool)
    ensures Keeps(view, Change(header, view, rev, cutover).view)
  {
    if rev.kind == Bootstrap {
      var history := Historical(rev, cutover);
      if history.Some? {
        UpsertAllKeeps(WithdrawAll(view, rev, history.value), rev.document.items, rev);
      }
    } else if header {
      UpsertAllKeeps(view, rev.document.upserts, rev);
      var upserted := UpsertAll(view, rev.document.upserts, rev);
      RemoveAllKeeps(upserted, rev.document.exits, rev, Exited);
      var exits := RemoveAll(upserted, rev.document.exits, rev, Exited);
      RemoveAllKeeps(exits.view, rev.document.retractions, rev, Retracted);
    }
  }

  lemma {:induction false} SimulateKeeps(h: Digest, header: bool, view: View, revs: seq<Revision>, cutover: bool)
    ensures Keeps(view, Simulate(h, header, view, revs, cutover).view)
    decreases revs
  {
    if revs != [] {
      ChangeKeeps(header, view, revs[0], cutover);
      SimulateKeeps(h, true, Change(header, view, revs[0], cutover).view, revs[1..], cutover);
    }
  }

  // --- the partial view refines the whole table ---

  lemma LoadSplits(table: map<string, Content>, refs: set<string>)
    ensures LoadAll(table) == With(Load(table, refs), Rest(table, refs))
    ensures Apart(Rest(table, refs), Load(table, refs).videos, refs)
  {
    assert LoadAll(table).videos == With(Load(table, refs), Rest(table, refs)).videos;
  }

  /** Loading only the active and the mentioned rows, replaying the batch on them and writing the
      active or touched records back gives the table that a replay over all rows would give, and the
      same verdict on every revision. In particular the clearing update is fully undone. */
  lemma PartialViewRefinesTable(h: Digest, header: bool, table: map<string, Content>, refs: set<string>,
                                revs: seq<Revision>, cutover: bool)
    requires BatchRefs(revs) <= refs
    ensures
      var part := Simulate(h, header, Load(table, refs), revs, cutover);
      var whole := Simulate(h, header, LoadAll(table), revs, cutover);
      && part.accepted == whole.accepted && part.failed == whole.failed
      && Persist(table, part.view) == Overwrite(table, whole.view)
  {
    var view, rest := Load(table, refs), Rest(table, refs);
    LoadSplits(table, refs);
    SimulateFrame(h, header, view, rest, revs, cutover, refs);
    SimulateKeeps(h, header, view, revs, cutover);
    var part := Simulate(h, header, view, revs, cutover).view;
    WriteBack(table, refs, view, rest, part);
  }

  lemma WriteBack(table: map<string, Content>, refs: set<string>, view: View, rest: map<string, Content>, part: View)
    requires view == Load(table, refs) && rest == Rest(table, refs)
    requires Apart(rest, part.videos, refs) && Keeps(view, part)
    ensures Persist(table, part) == Overwrite(table, With(part, rest))
  {
    var whole := With(part, rest);
    var a, b := Persist(table, part), Overwrite(table, whole);
    forall id
      ensures id in a <==> id in b
      ensures id in a ==> a[id] == b[id]
    {
      StillThere(table, refs, part, id);
    }
  }

  lemma StillThere(table: map<string, Content>, refs: set<string>, part: View, id: string)
    requires Keeps(Load(table, refs), part) && Apart(Rest(table, refs), part.videos, refs)
    ensures id in Rest(table, refs) ==> !Writes(With(part, Rest(table, refs)), id) && !Writes(part, id)
    ensures id in table && !Writes(part, id) ==> table[id].status != Showing
  {
    if id in table && id !in Rest(table, refs) {
      assert id in Load(table, refs).videos;
    }
  }
}
