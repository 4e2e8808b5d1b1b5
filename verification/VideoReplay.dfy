/** applyVideoRevision and simulateDomain for the video domain, as the source runs them: the records
    are changed in place, so a revision that fails half way leaves its first changes behind. */
module VideoReplay {
  import opened Prelude
  import opened Publication

  datatype WindowStatus = Showing | Exited | Retracted

  /** One content record; `item` is its payload. */
  datatype Content = Content(
    item: Item,
    position: Option<int>,
    status: WindowStatus,
    reason: Option<string>,
    sequence: nat,
    revisionId: string)

  /** The records in memory and the content ids whose record was touched. */
  datatype View = View(videos: map<string, Content>, touched: set<string>)

  /** The records after an operation, and whether it threw. */
  datatype Edit = Edit(view: View, failed: bool)

  const BOOTSTRAP_REPLACED := "bootstrap_replaced"
  const WINDOW_REWRITE := "window_rewrite"
  const RETRACTION_REASONS :=
    {"source_deleted", "source_unlisted", "source_private", "source_unavailable", "policy_removed"}

  predicate Shows(videos: map<string, Content>, id: string) {
    id in videos && videos[id].status == Showing
  }

  // --- single changes ---

  function Shown(item: Item, rev: Revision): Content {
    Content(item, Some(item.position), Showing, None, rev.sequence, rev.id)
  }

  function Withdrawn(video: Content, rev: Revision, status: WindowStatus, reason: string): Content {
    Content(video.item, None, status, Some(reason), rev.sequence, rev.id)
  }

  function Upsert(view: View, item: Item, rev: Revision): View {
    View(view.videos[item.contentId := Shown(item, rev)], view.touched + {item.contentId})
  }

  function UpsertAll(view: View, items: seq<Item>, rev: Revision): View
    decreases items
  {
    if items == [] then view else UpsertAll(Upsert(view, items[0], rev), items[1..], rev)
  }

  /** A window exit needs an active record, a retraction any record. */
  predicate Removable(videos: map<string, Content>, id: string, status: WindowStatus) {
    id in videos && (status == Exited ==> videos[id].status == Showing)
  }

  function Remove(view: View, action: Removal, rev: Revision, status: WindowStatus): View
    requires Removable(view.videos, action.contentId, status)
  {
    View(
      view.videos[action.contentId := Withdrawn(view.videos[action.contentId], rev, status, action.reason)],
      view.touched + {action.contentId})
  }

  function RemoveAll(view: View, actions: seq<Removal>, rev: Revision, status: WindowStatus): Edit
    decreases actions
  {
    if actions == [] then Edit(view, false)
    else if !Removable(view.videos, actions[0].contentId, status) then Edit(view, true)
    else RemoveAll(Remove(view, actions[0], rev, status), actions[1..], rev, status)
  }

  /** Historical retractions of a recovery bootstrap; None when the evidence is invalid. */
  function Historical(rev: Revision, cutover: bool): Option<map<string, string>> {
    if !cutover || rev.kind != Bootstrap || rev.recovery.None? || !rev.recovery.value.supported
    then Some(map[])
    else Collect(rev.recovery.value.retractions, map[])
  }

  function Collect(values: seq<Removal>, found: map<string, string>): Option<map<string, string>> {
    if values == [] then Some(found)
    else if values[0].contentId == "" || values[0].reason !in RETRACTION_REASONS || values[0].contentId in found
      then None
    else Collect(values[1..], found[values[0].contentId := values[0].reason])
  }

  /** A bootstrap first withdraws everything that shows. */
  function WithdrawAll(view: View, rev: Revision, history: map<string, string>): View {
    View(
      map id | id in view.videos ::
        if view.videos[id].status != Showing then view.videos[id]
        else if id in history then Withdrawn(view.videos[id], rev, Retracted, history[id])
        else Withdrawn(view.videos[id], rev, Exited, BOOTSTRAP_REPLACED),
      view.touched + set id | id in view.videos && view.videos[id].status == Showing)
  }

  // --- the resulting window ---

  /** `ids` lists what shows, in window order, at positions 1, 2, 3, ... */
  ghost predicate Listing(videos: map<string, Content>, ids: seq<string>) {
    && (forall i | 0 <= i < |ids| :: Shows(videos, ids[i]) && videos[ids[i]].item.position == i + 1)
    && (forall id | Shows(videos, id) :: id in ids)
  }

  lemma ListingPrefix(videos: map<string, Content>, a: seq<string>, b: seq<string>)
    requires Listing(videos, a) && Listing(videos, b)
    ensures |a| <= |b|
    ensures forall i | 0 <= i < |a| :: a[i] == b[i]
  {
    forall i | 0 <= i < |a|
      ensures i < |b| && a[i] == b[i]
    {
      assert Shows(videos, a[i]);
      var j :| 0 <= j < |b| && b[j] == a[i];
      assert videos[b[j]].item.position == j + 1;
    }
    if a != [] {
      assert a[|a| - 1] == b[|a| - 1];
    }
  }

  lemma ListingUnique(videos: map<string, Content>, a: seq<string>, b: seq<string>)
    requires Listing(videos, a) && Listing(videos, b)
    ensures a == b
  {
    ListingPrefix(videos, a, b);
    ListingPrefix(videos, b, a);
  }

  function Payloads(videos: map<string, Content>, ids: seq<string>): (items: seq<Item>)
    requires forall i | 0 <= i < |ids| :: ids[i] in videos
    ensures |items| == |ids|
    ensures forall i | 0 <= i < |ids| :: items[i] == videos[ids[i]].item
  {
    if ids == [] then [] else [videos[ids[0]].item] + Payloads(videos, ids[1..])
  }

  /** assertVideoResult passes. */
  ghost predicate ResultMatches(h: Digest, rev: Revision, videos: map<string, Content>) {
    exists ids ::
      && Listing(videos, ids)
      && h.window(rev.document.policy, Payloads(videos, ids)) == Some(rev.resultHash)
  }

  /** applyVideoRevision; `header` tells whether a video current exists. */
  ghost function Apply(h: Digest, header: bool, view: View, rev: Revision, cutover: bool): Edit {
    var edit := Change(header, view, rev, cutover);
    if edit.failed then edit else Edit(edit.view, !ResultMatches(h, rev, edit.view.videos))
  }

  /** Everything applyVideoRevision does before it checks the result. */
  function Change(header: bool, view: View, rev: Revision, cutover: bool): Edit {
    if rev.kind == Bootstrap then
      var history := Historical(rev, cutover);
      if history.None? then Edit(view, true)
      else Edit(UpsertAll(WithdrawAll(view, rev, history.value), rev.document.items, rev), false)
    else if !header then Edit(view, true)
    else
      var exits := RemoveAll(UpsertAll(view, rev.document.upserts, rev), rev.document.exits, rev, Exited);
      if exits.failed then exits
      else RemoveAll(exits.view, rev.document.retractions, rev, Retracted)
  }

  /** The records when the replay stopped, how many revisions were accepted, whether one threw. */
  datatype Replay = Replay(view: View, accepted: nat, failed: bool)

  /** simulateDomain for a video batch: it keeps whatever the failing revision did to the records. */
  ghost function Simulate(h: Digest, header: bool, view: View, revs: seq<Revision>, cutover: bool): (r: Replay)
    ensures r.accepted <= |revs| && (r.failed <==> r.accepted < |revs|)
    decreases revs
  {
    if revs == [] then Replay(view, 0, false) else
      var edit := Apply(h, header, view, revs[0], cutover);
      if edit.failed then Replay(edit.view, 0, true) else
        var rest := Simulate(h, true, edit.view, revs[1..], cutover);
        Replay(rest.view, rest.accepted + 1, rest.failed)
  }

  lemma {:induction false} SimulateConcat(h: Digest, header: bool, view: View, a: seq<Revision>, b: seq<Revision>,
                                          cutover: bool)
    requires !Simulate(h, header, view, a, cutover).failed
    ensures
      var first := Simulate(h, header, view, a, cutover);
      var second := Simulate(h, header || a != [], first.view, b, cutover);
      Simulate(h, header, view, a + b, cutover) == Replay(second.view, |a| + second.accepted, second.failed)
    decreases a
  {
    if a == [] {
      assert a + b == b;
    } else {
      assert (a + b)[1..] == a[1..] + b;
      var edit := Apply(h, header, view, a[0], cutover);
      SimulateConcat(h, true, edit.view, a[1..], b, cutover);
    }
  }

  // --- the touched flags play no part in what happens to the records ---

  lemma {:induction false} UpsertAllTouched(view: View, touched: set<string>, items: seq<Item>, rev: Revision)
    ensures UpsertAll(View(view.videos, touched), items, rev).videos == UpsertAll(view, items, rev).videos
    decreases items
  {
    if items != [] {
      UpsertAllTouched(Upsert(view, items[0], rev), touched + {items[0].contentId}, items[1..], rev);
    }
  }

  lemma {:induction false} RemoveAllTouched(view: View, touched: set<string>, actions: seq<Removal>, rev: Revision,
                                            status: WindowStatus)
    ensures
      var a, b := RemoveAll(View(view.videos, touched), actions, rev, status), RemoveAll(view, actions, rev, status);
      a.view.videos == b.view.videos && a.failed == b.failed
    decreases actions
  {
    if actions != [] && Removable(view.videos, actions[0].contentId, status) {
      RemoveAllTouched(Remove(view, actions[0], rev, status), touched + {actions[0].contentId}, actions[1..], rev,
                       status);
    }
  }

  lemma ApplyTouched(h: Digest, header: bool, view: View, touched: set<string>, rev: Revision, cutover: bool)
    ensures
      var a, b := Apply(h, header, View(view.videos, touched), rev, cutover), Apply(h, header, view, rev, cutover);
      a.view.videos == b.view.videos && a.failed == b.failed
  {
    var other := View(view.videos, touched);
    if rev.kind == Bootstrap {
      var history := Historical(rev, cutover);
      if history.Some? {
        var a, b := WithdrawAll(other, rev, history.value), WithdrawAll(view, rev, history.value);
        assert a.videos == b.videos;
        UpsertAllTouched(b, a.touched, rev.document.items, rev);
      }
    } else if header {
      UpsertAllTouched(view, touched, rev.document.upserts, rev);
      var a, b := UpsertAll(other, rev.document.upserts, rev), UpsertAll(view, rev.document.upserts, rev);
      RemoveAllTouched(b, a.touched, rev.document.exits, rev, Exited);
      var c, d := RemoveAll(a, rev.document.exits, rev, Exited), RemoveAll(b, rev.document.exits, rev, Exited);
      RemoveAllTouched(d.view, c.view.touched, rev.document.retractions, rev, Retracted);
    }
  }

  lemma {:induction false} SimulateTouched(h: Digest, header: bool, view: View, touched: set<string>,
                                           revs: seq<Revision>, cutover: bool)
    ensures
      var a, b := Simulate(h, header, View(view.videos, touched), revs, cutover),
        Simulate(h, header, view, revs, cutover);
      a.view.videos == b.view.videos && a.accepted == b.accepted && a.failed == b.failed
    decreases revs
  {
    if revs != [] {
      ApplyTouched(h, header, view, touched, revs[0], cutover);
      var a, b := Apply(h, header, View(view.videos, touched), revs[0], cutover),
        Apply(h, header, view, revs[0], cutover);
      SimulateTouched(h, true, b.view, a.view.touched, revs[1..], cutover);
    }
  }
}
