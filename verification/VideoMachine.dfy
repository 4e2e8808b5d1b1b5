/** The mutable video state of one simulation, and the write loop, as the source runs them. */
module VideoMachine {
  import opened Prelude
  import opened Publication
  import opened VideoReplay
  import opened VideoTable
  import opened VideoRows

  // --- the active items in window order ---

  predicate Positioned(videos: map<string, Content>, ids: seq<string>) {
    && (forall i | 0 <= i < |ids| :: Shows(videos, ids[i]))
    && (forall i, j | 0 <= i < j < |ids| :: videos[ids[i]].item.position <= videos[ids[j]].item.position)
  }

  predicate NoRepeat(ids: seq<string>) {
    forall i, j | 0 <= i < j < |ids| :: ids[i] != ids[j]
  }

  /** Where the id belongs in an ordered list: before it nothing is further back in the window. */
  method InsertionPoint(videos: map<string, Content>, ids: seq<string>, id: string) returns (at: nat)
    requires Positioned(videos, ids) && Shows(videos, id)
    ensures at <= |ids|
    ensures forall i | 0 <= i < at :: videos[ids[i]].item.position <= videos[id].item.position
    ensures forall i | at <= i < |ids| :: videos[id].item.position < videos[ids[i]].item.position
  {
    at := |ids|;
    while at > 0 && videos[ids[at - 1]].item.position > videos[id].item.position
      invariant at <= |ids|
      invariant forall i | at <= i < |ids| :: videos[id].item.position < videos[ids[i]].item.position
    {
      at := at - 1;
    }
  }

  /** activeVideoItems, by content id. */
  method ActiveInOrder(videos: map<string, Content>) returns (ids: seq<string>)
    ensures Positioned(videos, ids) && NoRepeat(ids)
    ensures forall id :: id in ids <==> Shows(videos, id)
  {
    ids := [];
    var left := set id | id in videos && videos[id].status == Showing;
    while left != {}
      invariant Positioned(videos, ids) && NoRepeat(ids)
      invariant forall id :: Shows(videos, id) <==> id in ids || id in left
      invariant forall id | id in left :: id !in ids
      decreases |left|
    {
      var id :| id in left;
      var at := InsertionPoint(videos, ids, id);
      Inserted(videos, ids, id, at);
      ids := ids[..at] + [id] + ids[at..];
      left := left - {id};
    }
  }

  lemma Inserted(videos: map<string, Content>, ids: seq<string>, id: string, at: nat)
    requires Positioned(videos, ids) && NoRepeat(ids) && Shows(videos, id) && id !in ids && at <= |ids|
    requires forall i | 0 <= i < at :: videos[ids[i]].item.position <= videos[id].item.position
    requires forall i | at <= i < |ids| :: videos[id].item.position < videos[ids[i]].item.position
    ensures
      var more := ids[..at] + [id] + ids[at..];
      && Positioned(videos, more) && NoRepeat(more)
      && forall x :: x in more <==> x == id || x in ids
  {
    var more := ids[..at] + [id] + ids[at..];
    forall x
      ensures x in more <==> x == id || x in ids
    {
      assert ids == ids[..at] + ids[at..];
    }
  }

  /** If the window can be listed at positions 1..n at all, then its ordered items are that listing. */
  lemma OrderedIsListing(videos: map<string, Content>, ids: seq<string>, listing: seq<string>)
    requires Positioned(videos, ids) && NoRepeat(ids) && (forall id :: id in ids <==> Shows(videos, id))
    requires Listing(videos, listing)
    ensures Listing(videos, ids)
  {
    SameLength(videos, ids, listing);
    forall i, j | 0 <= i < j < |ids|
      ensures videos[ids[i]].item.position < videos[ids[j]].item.position
    {
      assert ids[i] in ids && ids[j] in ids;
      var a :| 0 <= a < |listing| && listing[a] == ids[i];
      var b :| 0 <= b < |listing| && listing[b] == ids[j];
    }
    forall i | 0 <= i < |ids|
      ensures 1 <= videos[ids[i]].item.position <= |ids|
    {
      assert ids[i] in ids;
      var a :| 0 <= a < |listing| && listing[a] == ids[i];
    }
    forall i | 0 <= i < |ids|
      ensures videos[ids[i]].item.position == i + 1
    {
      Above(videos, ids, i);
      Below(videos, ids, i);
    }
  }

  ghost predicate Rising(videos: map<string, Content>, ids: seq<string>) {
    && (forall i | 0 <= i < |ids| :: Shows(videos, ids[i]))
    && (forall i, j | 0 <= i < j < |ids| :: videos[ids[i]].item.position < videos[ids[j]].item.position)
  }

  lemma {:induction false} Above(videos: map<string, Content>, ids: seq<string>, i: nat)
    requires Rising(videos, ids) && i < |ids| && videos[ids[0]].item.position >= 1
    ensures videos[ids[i]].item.position >= i + 1
    decreases i
  {
    if i > 0 {
      Above(videos, ids, i - 1);
    }
  }

  lemma {:induction false} Below(videos: map<string, Content>, ids: seq<string>, i: nat)
    requires Rising(videos, ids) && i < |ids| && videos[ids[|ids| - 1]].item.position <= |ids|
    ensures videos[ids[i]].item.position <= i + 1
    decreases |ids| - i
  {
    if i < |ids| - 1 {
      Below(videos, ids, i + 1);
    }
  }

  function Members(ids: seq<string>): set<string> {
    set i | 0 <= i < |ids| :: ids[i]
  }

  lemma {:induction false} MemberCount(ids: seq<string>)
    requires NoRepeat(ids)
    ensures |Members(ids)| == |ids|
  {
    if ids != [] {
      var n := |ids| - 1;
      MemberCount(ids[..n]);
      assert Members(ids) == Members(ids[..n]) + {ids[n]};
    }
  }

  lemma SameLength(videos: map<string, Content>, ids: seq<string>, listing: seq<string>)
    requires NoRepeat(ids) && (forall id :: id in ids <==> Shows(videos, id)) && Listing(videos, listing)
    ensures |ids| == |listing|
  {
    forall i, j | 0 <= i < j < |listing|
      ensures listing[i] != listing[j]
    {
      assert videos[listing[i]].item.position == i + 1 && videos[listing[j]].item.position == j + 1;
    }
    MemberCount(ids);
    MemberCount(listing);
    forall id
      ensures id in Members(ids) <==> id in Members(listing)
    {
      assert id in Members(ids) <==> id in ids;
      assert id in Members(listing) <==> id in listing;
    }
    assert Members(ids) == Members(listing);
  }

  /** assertVideoResult: orders the active items, checks the positions, and compares the hash. */
  method AssertVideoResult(h: Digest, rev: Revision, videos: map<string, Content>) returns (ok: bool)
    ensures ok <==> ResultMatches(h, rev, videos)
  {
    var ids := ActiveInOrder(videos);
    forall other | Listing(videos, other)
      ensures Listing(videos, ids) && other == ids
    {
      OrderedIsListing(videos, ids, other);
      ListingUnique(videos, other, ids);
    }
    ok := true;
    for i := 0 to |ids|
      invariant ok ==> forall k | 0 <= k < i :: videos[ids[k]].item.position == k + 1
      invariant !ok ==> exists k | 0 <= k < |ids| :: videos[ids[k]].item.position != k + 1
    {
      if videos[ids[i]].item.position != i + 1 {
        ok := false;
      }
    }
    if ok {
      assert Listing(videos, ids);
      ok := h.window(rev.document.policy, Payloads(videos, ids)) == Some(rev.resultHash);
    }
  }

  // --- going through the records one by one ---

  ghost predicate Split(all: set<string>, done: set<string>, left: set<string>) {
    done !! left && done + left == all
  }

  lemma Moved(all: set<string>, done: set<string>, left: set<string>, id: string)
    requires Split(all, done, left) && id in left
    ensures Split(all, done + {id}, left - {id})
    ensures id in all && id !in done && done <= all
  {
  }

  // --- withdrawing one record after the other ---

  function Replaced(video: Content, rev: Revision, history: map<string, string>, id: string): Content {
    if id in history then Withdrawn(video, rev, Retracted, history[id])
    else Withdrawn(video, rev, Exited, BOOTSTRAP_REPLACED)
  }

  ghost function WithdrawSome(view: View, rev: Revision, history: map<string, string>, done: set<string>): View {
    View(
      map id | id in view.videos ::
        if view.videos[id].status == Showing && id in done then Replaced(view.videos[id], rev, history, id)
          else view.videos[id],
      view.touched + set id | id in view.videos && view.videos[id].status == Showing && id in done)
  }

  lemma NoneWithdrawn(view: View, rev: Revision, history: map<string, string>)
    ensures WithdrawSome(view, rev, history, {}) == view
  {
    assert WithdrawSome(view, rev, history, {}).videos == view.videos;
    assert WithdrawSome(view, rev, history, {}).touched == view.touched;
  }

  lemma AllWithdrawn(view: View, rev: Revision, history: map<string, string>)
    ensures WithdrawSome(view, rev, history, view.videos.Keys) == WithdrawAll(view, rev, history)
  {
    assert WithdrawSome(view, rev, history, view.videos.Keys).videos == WithdrawAll(view, rev, history).videos;
    assert WithdrawSome(view, rev, history, view.videos.Keys).touched == WithdrawAll(view, rev, history).touched;
  }

  lemma OneWithdrawn(view: View, rev: Revision, history: map<string, string>, done: set<string>, id: string)
    requires id in view.videos && id !in done
    ensures
      var now := WithdrawSome(view, rev, history, done);
      && now.videos.Keys == view.videos.Keys && now.videos[id] == view.videos[id]
      && WithdrawSome(view, rev, history, done + {id})
         == if view.videos[id].status != Showing then now
            else View(now.videos[id := Replaced(view.videos[id], rev, history, id)], now.touched + {id})
  {
    var now, next := WithdrawSome(view, rev, history, done), WithdrawSome(view, rev, history, done + {id});
    if view.videos[id].status == Showing {
      assert next.videos == now.videos[id := Replaced(view.videos[id], rev, history, id)];
      assert next.touched == now.touched + {id};
    } else {
      assert next.videos == now.videos;
      assert next.touched == now.touched;
    }
  }

  // --- the state that a simulation changes in place ---

  /** The object { header, records } of one simulation. */
  class VideoState {
    var header: bool
    var records: map<string, Content>
    var touched: set<string>

    ghost function Current(): View
      reads this
    {
      View(records, touched)
    }

    constructor (header: bool, view: View)
      ensures this.header == header && Current() == view
    {
      this.header := header;
      this.records := view.videos;
      this.touched := view.touched;
    }

    method Put(items: seq<Item>, rev: Revision)
      modifies this
      ensures header == old(header)
      ensures Current() == UpsertAll(old(Current()), items, rev)
    {
      for i := 0 to |items|
        invariant header == old(header)
        invariant UpsertAll(Current(), items[i..], rev) == UpsertAll(old(Current()), items, rev)
      {
        var item := items[i];
        assert items[i..][0] == item && items[i..][1..] == items[i + 1..];
        records := records[item.contentId := Shown(item, rev)];
        touched := touched + {item.contentId};
      }
    }

    /** Stops at the first action without a target; what was removed before stays removed. */
    method Drop(actions: seq<Removal>, rev: Revision, status: WindowStatus) returns (failed: bool)
      modifies this
      ensures header == old(header)
      ensures Edit(Current(), failed) == RemoveAll(old(Current()), actions, rev, status)
    {
      for i := 0 to |actions|
        invariant header == old(header)
        invariant RemoveAll(Current(), actions[i..], rev, status) == RemoveAll(old(Current()), actions, rev, status)
      {
        var action := actions[i];
        assert actions[i..][0] == action && actions[i..][1..] == actions[i + 1..];
        if action.contentId !in records || (status == Exited && records[action.contentId].status != Showing) {
          return true;
        }
        records := records[action.contentId := Withdrawn(records[action.contentId], rev, status, action.reason)];
        touched := touched + {action.contentId};
      }
      return false;
    }

    method WithdrawOne(id: string, rev: Revision, history: map<string, string>, ghost before: View,
                       ghost done: set<string>)
      requires id in before.videos && id !in done && Current() == WithdrawSome(before, rev, history, done)
      modifies this
      ensures header == old(header)
      ensures Current() == WithdrawSome(before, rev, history, done + {id})
    {
      OneWithdrawn(before, rev, history, done, id);
      if records[id].status == Showing {
        records := records[id := Replaced(records[id], rev, history, id)];
        touched := touched + {id};
      }
    }

    method Withdraw(rev: Revision, history: map<string, string>)
      modifies this
      ensures header == old(header)
      ensures Current() == WithdrawAll(old(Current()), rev, history)
    {
      ghost var before := Current();
      ghost var done := {};
      var left := records.Keys;
      NoneWithdrawn(before, rev, history);
      while left != {}
        invariant header == old(header)
        invariant Split(before.videos.Keys, done, left)
        invariant Current() == WithdrawSome(before, rev, history, done)
        decreases |left|
      {
        var id :| id in left;
        Moved(before.videos.Keys, done, left, id);
        WithdrawOne(id, rev, history, before, done);
        left := left - {id};
        done := done + {id};
      }
      AllWithdrawn(before, rev, history);
    }

    method Rewrite(rev: Revision, cutover: bool) returns (failed: bool)
      modifies this
      ensures header == old(header)
      ensures Edit(Current(), failed) == Change(old(header), old(Current()), rev, cutover)
    {
      if rev.kind == Bootstrap {
        var history := Historical(rev, cutover);
        if history.None? {
          return true;
        }
        Withdraw(rev, history.value);
        Put(rev.document.items, rev);
        failed := false;
      } else if !header {
        failed := true;
      } else {
        Put(rev.document.upserts, rev);
        failed := Drop(rev.document.exits, rev, Exited);
        if !failed {
          failed := Drop(rev.document.retractions, rev, Retracted);
        }
      }
    }

    /** applyVideoRevision: the header moves on only if the result is the declared one. */
    method ApplyRevision(h: Digest, rev: Revision, cutover: bool) returns (failed: bool)
      modifies this
      ensures header == (old(header) || !failed)
      ensures Edit(Current(), failed) == Apply(h, old(header), old(Current()), rev, cutover)
    {
      failed := Rewrite(rev, cutover);
      if !failed {
        var ok := AssertVideoResult(h, rev, records);
        failed := !ok;
        if ok {
          header := true;
        }
      }
    }

    /** simulateDomain for videos: stops at the first failure and keeps the records as they then are. */
    method Simulate(h: Digest, revs: seq<Revision>, cutover: bool) returns (accepted: nat, failed: bool)
      modifies this
      ensures accepted <= |revs|
      ensures Replay(Current(), accepted, failed) == VideoReplay.Simulate(h, old(header), old(Current()), revs, cutover)
    {
      accepted := 0;
      while accepted < |revs|
        invariant accepted <= |revs| && header == (old(header) || accepted > 0)
        invariant
          var rest := VideoReplay.Simulate(h, header, Current(), revs[accepted..], cutover);
          VideoReplay.Simulate(h, old(header), old(Current()), revs, cutover)
          == Replay(rest.view, accepted + rest.accepted, rest.failed)
      {
        assert revs[accepted..][0] == revs[accepted] && revs[accepted..][1..] == revs[accepted + 1..];
        failed := ApplyRevision(h, revs[accepted], cutover);
        if failed {
          return;
        }
        accepted := accepted + 1;
      }
      failed := false;
    }
  }

  // --- the writes ---

  /** The write breaks the unique index on active positions, or the check that they are positive. */
  predicate Breaks(table: map<string, Content>, id: string, content: Content) {
    content.status == Showing && (
      || content.position.None? || content.position.value <= 0
      || exists other | other in table ::
           other != id && table[other].status == Showing && table[other].position == content.position)
  }

  lemma BreakIsRefused(table: map<string, Content>, view: View, done: set<string>, id: string)
    requires done <= view.videos.Keys && id in view.videos && Writes(view, id)
    requires Breaks(Written(table, view, done), id, view.videos[id])
    ensures !Writable(view.videos)
  {
  }

  lemma FittingStaysWritable(table: map<string, Content>, view: View, done: set<string>, id: string)
    requires done <= view.videos.Keys && id in view.videos && id !in done
    requires WritableOn(view.videos, done)
    requires Writes(view, id) ==> !Breaks(Written(table, view, done), id, view.videos[id])
    ensures WritableOn(view.videos, done + {id})
  {
    var written := Written(table, view, done);
    forall a | a in done && Shows(view.videos, a) && Shows(view.videos, id)
      && view.videos[a].position == view.videos[id].position
      ensures a == id
    {
      assert a in written;
    }
  }

  /** Writable, as far as the records in `ids` go. */
  ghost predicate WritableOn(videos: map<string, Content>, ids: set<string>) {
    && (forall id | id in ids && Shows(videos, id) :: videos[id].position.Some? && videos[id].position.value > 0)
    && (forall a, b | a in ids && b in ids && Shows(videos, a) && Shows(videos, b)
        && videos[a].position == videos[b].position :: a == b)
  }

  /** The upsert of one record, after those in `done`. */
  method WriteOne(now: map<string, Content>, view: View, id: string, ghost table: map<string, Content>,
                  ghost done: set<string>)
    returns (after: map<string, Content>, refused: bool)
    requires done <= view.videos.Keys && id in view.videos && id !in done
    requires now == Written(table, view, done) && WritableOn(view.videos, done)
    ensures refused ==> !Writable(view.videos)
    ensures !refused ==> after == Written(table, view, done + {id}) && WritableOn(view.videos, done + {id})
  {
    OneMore(table, view, done, id);
    after := now;
    if Writes(view, id) {
      if Breaks(now, id, view.videos[id]) {
        BreakIsRefused(table, view, done, id);
        return after, true;
      }
      after := after[id := view.videos[id]];
    }
    FittingStaysWritable(table, view, done, id);
    refused := false;
  }

  /** persistVideoState: the clearing update, then one upsert per active or touched record. It is
      refused at the first write that breaks an index, and that happens if and only if the active
      records do not have distinct positive positions. */
  method PersistVideo(table: map<string, Content>, view: View) returns (after: map<string, Content>, refused: bool)
    ensures refused <==> !Writable(view.videos)
    ensures !refused ==> after == Persist(table, view)
  {
    after := ClearAll(table);
    var left := view.videos.Keys;
    ghost var done := {};
    NoneWritten(table, view);
    while left != {}
      invariant Split(view.videos.Keys, done, left)
      invariant after == Written(table, view, done)
      invariant WritableOn(view.videos, done)
      decreases |left|
    {
      var id :| id in left;
      Moved(view.videos.Keys, done, left, id);
      after, refused := WriteOne(after, view, id, table, done);
      if refused {
        return;
      }
      left := left - {id};
      done := done + {id};
    }
    WrittenEnds(table, view);
    AllWritable(view.videos);
    refused := false;
  }

  lemma NoneWritten(table: map<string, Content>, view: View)
    ensures Written(table, view, {}) == ClearAll(table)
  {
  }

  lemma AllWritable(videos: map<string, Content>)
    requires WritableOn(videos, videos.Keys)
    ensures Writable(videos)
  {
  }

  lemma OneMore(table: map<string, Content>, view: View, done: set<string>, id: string)
    requires id in view.videos && id !in done
    ensures
      var written := Written(table, view, done);
      Written(table, view, done + {id})
      == if Writes(view, id) then written[id := view.videos[id]] else written
  {
  }
}
