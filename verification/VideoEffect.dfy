/** What a video revision does to each record, written out, and when it fails. */
module VideoEffect {
  import opened Prelude
  import opened Publication
  import opened VideoReplay
  import opened VideoTable
  import opened VideoExact

  /** The last item given for the id. */
  ghost function LastItem(items: seq<Item>, id: string): Option<Item> {
    if items == [] then None
    else if LastItem(items[1..], id).Some? then LastItem(items[1..], id)
    else if items[0].contentId == id then Some(items[0]) else None
  }

  /** The reason of the last action on the id. */
  ghost function LastReason(actions: seq<Removal>, id: string): Option<string> {
    if actions == [] then None
    else if LastReason(actions[1..], id).Some? then LastReason(actions[1..], id)
    else if actions[0].contentId == id then Some(actions[0].reason) else None
  }

  lemma {:induction false} LastItemSome(items: seq<Item>, id: string)
    ensures LastItem(items, id).Some? <==> exists i :: 0 <= i < |items| && items[i].contentId == id
  {
    if items != [] {
      LastItemSome(items[1..], id);
      if i :| 0 <= i < |items| && items[i].contentId == id {
        assert i > 0 ==> items[1..][i - 1] == items[i];
      }
    }
  }

  lemma {:induction false} LastReasonSome(actions: seq<Removal>, id: string)
    ensures LastReason(actions, id).Some? <==> exists i :: 0 <= i < |actions| && actions[i].contentId == id
  {
    if actions != [] {
      LastReasonSome(actions[1..], id);
      if i :| 0 <= i < |actions| && actions[i].contentId == id {
        assert i > 0 ==> actions[1..][i - 1] == actions[i];
      }
    }
  }

  /** The payload of the id after the upserts. */
  ghost function Payload(before: map<string, Content>, items: seq<Item>, id: string): Option<Item> {
    if LastItem(items, id).Some? then LastItem(items, id)
    else if id in before then Some(before[id].item) else None
  }

  ghost predicate SameAt(before: map<string, Content>, after: map<string, Content>, id: string) {
    (id in after <==> id in before) && (id in after ==> after[id] == before[id])
  }

  /** A delta: retracted or moved out with the reason given last, else shown with the item given last,
      else as before. */
  ghost predicate DeltaAt(before: map<string, Content>, after: map<string, Content>, rev: Revision, id: string) {
    var doc := rev.document;
    if LastReason(doc.retractions, id).Some? then
      && id in after && Some(after[id].item) == Payload(before, doc.upserts, id)
      && after[id] == Content(after[id].item, None, Retracted, LastReason(doc.retractions, id), rev.sequence, rev.id)
    else if LastReason(doc.exits, id).Some? then
      && id in after && Some(after[id].item) == Payload(before, doc.upserts, id)
      && after[id] == Content(after[id].item, None, Exited, LastReason(doc.exits, id), rev.sequence, rev.id)
    else if LastItem(doc.upserts, id).Some? then
      var item := LastItem(doc.upserts, id).value;
      id in after && after[id] == Content(item, Some(item.position), Showing, None, rev.sequence, rev.id)
    else SameAt(before, after, id)
  }

  /** The reason for which recovery evidence says that the video was retracted. */
  ghost function Evidence(rev: Revision, cutover: bool, id: string): Option<string> {
    if cutover && rev.recovery.Some? && rev.recovery.value.supported
    then LastReason(rev.recovery.value.retractions, id) else None
  }

  /** A bootstrap: shown with the item given last; else, if it showed, retracted for the reason that the
      evidence names, or moved out as replaced; else as before. */
  ghost predicate BootstrapAt(before: map<string, Content>, after: map<string, Content>, rev: Revision, cutover: bool,
                              id: string) {
    if LastItem(rev.document.items, id).Some? then
      var item := LastItem(rev.document.items, id).value;
      id in after && after[id] == Content(item, Some(item.position), Showing, None, rev.sequence, rev.id)
    else if id in before && before[id].status == Showing then
      id in after && after[id]
        == if Evidence(rev, cutover, id).Some?
           then Content(before[id].item, None, Retracted, Evidence(rev, cutover, id), rev.sequence, rev.id)
           else Content(before[id].item, None, Exited, Some("bootstrap_replaced"), rev.sequence, rev.id)
    else SameAt(before, after, id)
  }

  ghost predicate Follows(before: map<string, Content>, after: map<string, Content>, rev: Revision, cutover: bool) {
    forall id ::
      if rev.kind == Bootstrap then BootstrapAt(before, after, rev, cutover, id) else DeltaAt(before, after, rev, id)
  }

  // --- the lists, one after the other ---

  lemma {:induction false} UpsertAllAt(view: View, items: seq<Item>, rev: Revision, id: string)
    ensures
      var after := UpsertAll(view, items, rev).videos;
      if LastItem(items, id).Some?
      then
        var item := LastItem(items, id).value;
        id in after && after[id] == Content(item, Some(item.position), Showing, None, rev.sequence, rev.id)
      else SameAt(view.videos, after, id)
    decreases items
  {
    if items != [] {
      UpsertAllAt(Upsert(view, items[0], rev), items[1..], rev, id);
    }
  }

  lemma {:induction false} RemoveAllAt(view: View, actions: seq<Removal>, rev: Revision, status: WindowStatus,
                                       id: string)
    requires !RemoveAll(view, actions, rev, status).failed
    ensures
      var after := RemoveAll(view, actions, rev, status).view.videos;
      if LastReason(actions, id).Some?
      then
        && id in view.videos && id in after
        && after[id] == Content(view.videos[id].item, None, status, LastReason(actions, id), rev.sequence, rev.id)
      else SameAt(view.videos, after, id)
    decreases actions
  {
    if actions != [] {
      RemoveAllAt(Remove(view, actions[0], rev, status), actions[1..], rev, status, id);
    }
  }

  lemma DeltaFollows(header: bool, view: View, rev: Revision, cutover: bool, id: string)
    requires rev.kind != Bootstrap && !Change(header, view, rev, cutover).failed
    ensures DeltaAt(view.videos, Change(header, view, rev, cutover).view.videos, rev, id)
  {
    var upserted := UpsertAll(view, rev.document.upserts, rev);
    var exits := RemoveAll(upserted, rev.document.exits, rev, Exited);
    UpsertAllAt(view, rev.document.upserts, rev, id);
    RemoveAllAt(upserted, rev.document.exits, rev, Exited, id);
    RemoveAllAt(exits.view, rev.document.retractions, rev, Retracted, id);
  }

  // --- the evidence of a recovery ---

  /** The evidence is sound: ids given, each once, with one of the five reasons for a retraction. */
  ghost predicate SoundEvidence(values: seq<Removal>) {
    && (forall i | 0 <= i < |values| :: values[i].contentId != "" && values[i].reason in
          {"source_deleted", "source_unlisted", "source_private", "source_unavailable", "policy_removed"})
    && (forall i, j | 0 <= i < j < |values| :: values[i].contentId != values[j].contentId)
  }

  lemma {:induction false} CollectMeans(values: seq<Removal>, found: map<string, string>)
    ensures Collect(values, found).Some?
      <==> (SoundEvidence(values) && forall i | 0 <= i < |values| :: values[i].contentId !in found)
    ensures Collect(values, found).Some? ==> forall id ::
      (id in Collect(values, found).value <==> id in found || LastReason(values, id).Some?)
      && (LastReason(values, id).Some? ==> LastReason(values, id) == Some(Collect(values, found).value[id]))
      && (LastReason(values, id).None? && id in found ==> Collect(values, found).value[id] == found[id])
    decreases values
  {
    if values != [] && values[0].contentId != "" && values[0].reason in RETRACTION_REASONS
      && values[0].contentId !in found {
      CollectMeans(values[1..], found[values[0].contentId := values[0].reason]);
      CollectNext(values, found);
      LastReasonSome(values[1..], values[0].contentId);
    }
  }

  lemma CollectNext(values: seq<Removal>, found: map<string, string>)
    requires values != [] && values[0].contentId != "" && values[0].reason in RETRACTION_REASONS
    requires values[0].contentId !in found
    ensures
      var more := found[values[0].contentId := values[0].reason];
      (SoundEvidence(values) && forall i | 0 <= i < |values| :: values[i].contentId !in found)
      <==> (SoundEvidence(values[1..]) && forall i | 0 <= i < |values[1..]| :: values[1..][i].contentId !in more)
  {
    assert forall i | 0 <= i < |values[1..]| :: values[1..][i] == values[i + 1];
    assert forall i | 0 < i < |values| :: values[i] == values[1..][i - 1];
  }

  lemma BootstrapFollows(header: bool, view: View, rev: Revision, cutover: bool, id: string)
    requires rev.kind == Bootstrap && !Change(header, view, rev, cutover).failed
    ensures BootstrapAt(view.videos, Change(header, view, rev, cutover).view.videos, rev, cutover, id)
  {
    var history := Historical(rev, cutover).value;
    if cutover && rev.recovery.Some? && rev.recovery.value.supported {
      CollectMeans(rev.recovery.value.retractions, map[]);
    }
    assert id in history <==> Evidence(rev, cutover, id).Some?;
    UpsertAllAt(WithdrawAll(view, rev, history), rev.document.items, rev, id);
  }

  /** A revision that goes through does to every record what is written here, and nothing else. */
  lemma ChangeFollows(header: bool, view: View, rev: Revision, cutover: bool)
    requires !Change(header, view, rev, cutover).failed
    ensures Follows(view.videos, Change(header, view, rev, cutover).view.videos, rev, cutover)
  {
    forall id
      ensures
        var after := Change(header, view, rev, cutover).view.videos;
        if rev.kind == Bootstrap then BootstrapAt(view.videos, after, rev, cutover, id)
        else DeltaAt(view.videos, after, rev, id)
    {
      if rev.kind == Bootstrap {
        BootstrapFollows(header, view, rev, cutover, id);
      } else {
        DeltaFollows(header, view, rev, cutover, id);
      }
    }
  }

  // --- when a revision fails ---

  /** Every exit names a video that shows, each another; every retraction a video that is known. */
  ghost predicate TargetsThere(videos: map<string, Content>, doc: Document) {
    && (forall i | 0 <= i < |doc.exits| ::
          Shows(videos, doc.exits[i].contentId) || LastItem(doc.upserts, doc.exits[i].contentId).Some?)
    && (forall i, j | 0 <= i < j < |doc.exits| :: doc.exits[i].contentId != doc.exits[j].contentId)
    && (forall i | 0 <= i < |doc.retractions| ::
          doc.retractions[i].contentId in videos || LastItem(doc.upserts, doc.retractions[i].contentId).Some?)
  }

  lemma {:induction false} ExitsFailIff(view: View, actions: seq<Removal>, rev: Revision)
    ensures RemoveAll(view, actions, rev, Exited).failed <==>
      !((forall i | 0 <= i < |actions| :: Shows(view.videos, actions[i].contentId))
        && forall i, j | 0 <= i < j < |actions| :: actions[i].contentId != actions[j].contentId)
    decreases actions
  {
    if actions != [] && Shows(view.videos, actions[0].contentId) {
      var next := Remove(view, actions[0], rev, Exited);
      ExitsFailIff(next, actions[1..], rev);
      assert forall id :: Shows(next.videos, id) <==> Shows(view.videos, id) && id != actions[0].contentId;
      assert forall i | 0 <= i < |actions[1..]| :: actions[1..][i] == actions[i + 1];
      assert forall i | 0 < i < |actions| :: actions[i] == actions[1..][i - 1];
    }
  }

  lemma {:induction false} RetractionsFailIff(view: View, actions: seq<Removal>, rev: Revision)
    ensures RemoveAll(view, actions, rev, Retracted).failed
      <==> exists i :: 0 <= i < |actions| && actions[i].contentId !in view.videos
    decreases actions
  {
    if actions != [] && actions[0].contentId in view.videos {
      var next := Remove(view, actions[0], rev, Retracted);
      RetractionsFailIff(next, actions[1..], rev);
      assert next.videos.Keys == view.videos.Keys;
      assert forall i | 0 <= i < |actions[1..]| :: actions[1..][i] == actions[i + 1];
      assert forall i | 0 < i < |actions| :: actions[i] == actions[1..][i - 1];
    }
  }

  lemma DeltaFailsIff(view: View, rev: Revision, cutover: bool)
    requires rev.kind != Bootstrap
    ensures Change(true, view, rev, cutover).failed <==> !TargetsThere(view.videos, rev.document)
  {
    var upserted := UpsertAll(view, rev.document.upserts, rev);
    var exits := RemoveAll(upserted, rev.document.exits, rev, Exited);
    forall id
      ensures Shows(upserted.videos, id) <==> Shows(view.videos, id) || LastItem(rev.document.upserts, id).Some?
      ensures id in upserted.videos <==> id in view.videos || LastItem(rev.document.upserts, id).Some?
      ensures !exits.failed ==> (id in exits.view.videos <==> id in upserted.videos)
    {
      UpsertAllAt(view, rev.document.upserts, rev, id);
      if !exits.failed {
        RemoveAllAt(upserted, rev.document.exits, rev, Exited, id);
      }
    }
    ExitsFailIff(upserted, rev.document.exits, rev);
    RetractionsFailIff(exits.view, rev.document.retractions, rev);
  }

  /** applyVideoRevision goes through if and only if a delta has a window to change and its targets, the
      evidence of a recovery bootstrap is sound, and the resulting window is the declared one. */
  lemma AppliesIff(h: Digest, header: bool, view: View, rev: Revision, cutover: bool)
    ensures !Apply(h, header, view, rev, cutover).failed <==>
      && (if rev.kind == Bootstrap
          then cutover && rev.recovery.Some? && rev.recovery.value.supported ==>
                 SoundEvidence(rev.recovery.value.retractions)
          else header && TargetsThere(view.videos, rev.document))
      && ResultMatches(h, rev, Change(header, view, rev, cutover).view.videos)
  {
    if rev.kind == Bootstrap {
      if rev.recovery.Some? {
        CollectMeans(rev.recovery.value.retractions, map[]);
      }
    } else if header {
      DeltaFailsIff(view, rev, cutover);
    }
  }

  // --- a batch ---

  /** From table to table, one revision after the other. */
  ghost predicate Edits(tables: seq<map<string, Content>>, revs: seq<Revision>, cutover: bool) {
    |tables| == |revs| + 1 && forall i | 0 <= i < |revs| :: Follows(tables[i], tables[i + 1], revs[i], cutover)
  }

  lemma {:induction false} ReplayEdits(h: Digest, header: bool, view: View, revs: seq<Revision>, cutover: bool)
    returns (tables: seq<map<string, Content>>)
    requires !Simulate(h, header, view, revs, cutover).failed
    ensures Edits(tables, revs, cutover)
    ensures tables[0] == view.videos && tables[|revs|] == Simulate(h, header, view, revs, cutover).view.videos
    decreases revs
  {
    tables := [view.videos];
    if revs != [] {
      var next := Change(header, view, revs[0], cutover).view;
      ChangeFollows(header, view, revs[0], cutover);
      var rest := ReplayEdits(h, true, next, revs[1..], cutover);
      tables := tables + rest;
      assert forall i | 0 < i <= |revs| :: tables[i] == rest[i - 1];
    }
  }
}
