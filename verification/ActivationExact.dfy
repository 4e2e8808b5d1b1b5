/** The stored videos in every history: when a run leaves exactly its accepted revisions there. */
module ActivationExact {
  import opened Prelude
  import opened Publication
  import opened Selection
  import opened VideoReplay
  import opened VideoTable
  import opened VideoExact
  import VideoEffect
  import opened Activation
  import opened ActivationRows
  import opened ActivationSafety
  import opened ActivationCommit

  /** The video trial of a run. */
  ghost function Tried(h: Digest, s: State, o: Owner): Trial {
    TrialOf(h, s, o.stream, RecoveryCutover(o), Video)
  }

  /** The records in memory after the accepted video revisions. */
  ghost function PrefixView(h: Digest, s: State, o: Owner): View {
    var t := Tried(h, s, o);
    Simulate(h, s.header.Some?, Load(s.content, BatchRefs(t.ready)), t.ready[..t.accepted], RecoveryCutover(o)).view
  }

  /** No video revision fails after an accepted one, or the one that does stops before its first write. */
  ghost predicate StopsCleanly(h: Digest, s: State, o: Owner) {
    var t := Tried(h, s, o);
    t.failed && t.accepted > 0 ==>
      StopsBeforeWriting(true, PrefixView(h, s, o).videos, t.ready[t.accepted], RecoveryCutover(o))
  }

  /** What a replay of exactly the accepted video revisions over all stored rows leaves. */
  ghost function ExactContent(h: Digest, s: State, o: Owner): map<string, Content> {
    var t := Tried(h, s, o);
    ExactTable(h, s.header.Some?, s.content, t.ready[..t.accepted], RecoveryCutover(o))
  }

  // --- what a run does to the stored videos ---

  lemma RunContent(s: State, o: Owner, p: Plan)
    requires p.gate.Some? ==> Halts(p.gate.value)
    requires p.stop.Some? ==> Halts(p.stop.value)
    requires o.previous != Some(o.stream)
    ensures
      var (t, outcome) := Run(s, o, p);
      if Commits(outcome) && p.batch.video != []
      then t.content == Persist(s.content, p.view) && t.header == Some(Last(p.batch.video))
      else t.content == s.content && t.header == s.header
  {
    if Commits(Run(s, o, p).1) {
      RunCommits(s, o, p);
    } else {
      RunHalts(s, o, p);
    }
  }

  /** The trial and the table of the video part of a run. */
  lemma ActivatedContent(h: Digest, s: State, o: Owner)
    requires o.previous != Some(o.stream)
    ensures
      var (t, outcome) := Run(s, o, PlanOf(h, s, o));
      && t.content == (if Commits(outcome) then AfterBatch(s.content, WholeReplay(h, s, o)) else s.content)
      && t.header == (if Commits(outcome) && Tried(h, s, o).accepted > 0
                      then Some(Tried(h, s, o).ready[Tried(h, s, o).accepted - 1]) else s.header)
  {
    GatesHalt(h, s, o, RecoveryCutover(o));
    var p, tried := PlanOf(h, s, o), Tried(h, s, o);
    RunContent(s, o, p);
    assert p.batch.video == tried.ready[..tried.accepted];
  }

  ghost function WholeReplay(h: Digest, s: State, o: Owner): Replay {
    var ready := Tried(h, s, o).ready;
    Simulate(h, s.header.Some?, Load(s.content, BatchRefs(ready)), ready, RecoveryCutover(o))
  }

  // --- every id in the content rows belongs to a revision that is never pending again ---

  ghost predicate Spent(s: State, k: Key) {
    k in s.rows && (s.rows[k].status == Quarantined || s.rows[k].revision in Items(s.log))
  }

  ghost predicate UniqueIds(rows: map<Key, Row>) {
    forall a, b | a in rows && b in rows && rows[a].revision.id == rows[b].revision.id :: a == b
  }

  ghost predicate NameSpent(s: State, revisionId: string) {
    exists k :: Spent(s, k) && s.rows[k].revision.id == revisionId
  }

  ghost predicate NamesOk(s: State) {
    UniqueIds(s.rows) && forall id | id in s.content :: NameSpent(s, s.content[id].revisionId)
  }

  /** Rows stay, keep their revision and stay quarantined; audit items stay. */
  ghost predicate Remains(s: State, t: State) {
    && (forall k | k in s.rows ::
          && k in t.rows && t.rows[k].revision == s.rows[k].revision
          && (s.rows[k].status == Quarantined ==> t.rows[k].status == Quarantined))
    && (forall r | r in Items(s.log) :: r in Items(t.log))
  }

  lemma NameStaysSpent(s: State, t: State, revisionId: string)
    requires Remains(s, t) && NameSpent(s, revisionId)
    ensures NameSpent(t, revisionId)
  {
    var k :| Spent(s, k) && s.rows[k].revision.id == revisionId;
    assert Spent(t, k);
  }

  lemma RemainsKeepsNames(s: State, t: State)
    requires NamesOk(s) && Remains(s, t) && t.content == s.content && UniqueIds(t.rows)
    ensures NamesOk(t)
  {
    forall id | id in t.content
      ensures NameSpent(t, t.content[id].revisionId)
    {
      NameStaysSpent(s, t, s.content[id].revisionId);
    }
  }

  lemma CommittedRowRemains(s: State, o: Owner, cut: bool, rows: map<Key, Row>, batch: Batch, k: Key)
    requires RowsOk(s.rows) && MarksOk(s, rows) && BatchOk(s, o, cut, rows, batch) && k in rows
    ensures
      var row := CommittedRow(rows[k], o, cut, batch, k);
      && row.revision == s.rows[k].revision
      && (rows[k].status == Quarantined ==> row.status == Quarantined)
    ensures s.rows[k].status == Quarantined ==> rows[k].status == Quarantined
  {
    assert Quiet(s.rows[k], rows[k]) && RowOk(s.rows, k);
    if k.stream == o.stream && rows[k].revision in batch.Of(k.domain) {
      assert Fresh(s, o, rows, k.domain, rows[k].revision);
    }
  }

  lemma CommitRemains(s: State, o: Owner, cut: bool, rows: map<Key, Row>, batch: Batch, view: View)
    requires RowsOk(s.rows) && MarksOk(s, rows) && BatchOk(s, o, cut, rows, batch)
    ensures
      var t := Commit(s, o, cut, rows, batch, view);
      && Remains(s, t) && t.rows.Keys == s.rows.Keys
      && Items(t.log) == Items(s.log) + batch.All()
      && forall k | k in rows && rows[k].status == Quarantined :: t.rows[k].status == Quarantined
  {
    var t := Commit(s, o, cut, rows, batch, view);
    assert t.log[..|t.log| - 1] == s.log;
    forall k | k in s.rows
      ensures t.rows[k].revision == s.rows[k].revision
      ensures rows[k].status == Quarantined ==> t.rows[k].status == Quarantined
      ensures s.rows[k].status == Quarantined ==> rows[k].status == Quarantined
    {
      CommittedRowRemains(s, o, cut, rows, batch, k);
    }
  }

  lemma MarksRemain(s: State, t: State)
    requires t == s.(rows := t.rows) && MarksOk(s, t.rows)
    ensures Remains(s, t) && t.rows.Keys == s.rows.Keys
  {
    forall k | k in s.rows
      ensures t.rows[k].revision == s.rows[k].revision
      ensures s.rows[k].status == Quarantined ==> t.rows[k].status == Quarantined
    {
      assert Quiet(s.rows[k], t.rows[k]);
    }
  }

  lemma SameIds(s: State, t: State)
    requires UniqueIds(s.rows) && Remains(s, t) && t.rows.Keys == s.rows.Keys
    ensures UniqueIds(t.rows)
  {
  }

  /** The revision that failed is quarantined by the marks of the run. */
  lemma FailedIsQuarantined(h: Digest, s: State, o: Owner)
    requires RowsOk(s.rows) && Tried(h, s, o).failed
    ensures
      var t := Tried(h, s, o);
      var failing := t.ready[t.accepted];
      var rows := TriedRows(h, s, o, RecoveryCutover(o), true);
      && KeyOf(failing) in rows && rows[KeyOf(failing)].revision == failing
      && rows[KeyOf(failing)].status == Quarantined
  {
    var cut, t := RecoveryCutover(o), Tried(h, s, o);
    var failing := t.ready[t.accepted];
    assert failing in Pick(s, o.stream, cut, Video).ready;
    PickMembers(s, o.stream, cut, Video, failing);
    PickedQuiet(s, o.stream, cut, KeyOf(failing));
    assert Considered(s, o, cut, true, Video);
    assert TriedRow(h, s, o, cut, true, KeyOf(failing)).status == Quarantined;
  }

  /** A replay leaves the names that were there, those of its accepted revisions and that of the failing one. */
  lemma ReplayNames(h: Digest, s: State, o: Owner, other: string)
    requires Unnamed(s.content, other)
    requires var t := Tried(h, s, o);
      && (forall r | r in t.ready[..t.accepted] :: r.id != other)
      && (t.failed ==> t.ready[t.accepted].id != other)
    ensures Unnamed(AfterBatch(s.content, WholeReplay(h, s, o)), other)
  {
    var t, cut, header := Tried(h, s, o), RecoveryCutover(o), s.header.Some?;
    var view := Load(s.content, BatchRefs(t.ready));
    SimulateUnnamed(h, header, view, t.ready[..t.accepted], cut, other);
    if t.failed {
      FailedTail(h, header, view, t.ready, cut);
      ChangeUnnamed(header || t.accepted > 0, PrefixView(h, s, o), t.ready[t.accepted], cut, other);
    } else {
      assert t.ready[..t.accepted] == t.ready;
    }
    PersistUnnamed(s.content, WholeReplay(h, s, o).view, other);
  }

  lemma PersistUnnamed(table: map<string, Content>, view: View, other: string)
    requires Unnamed(table, other) && Unnamed(view.videos, other)
    ensures Unnamed(Persist(table, view), other)
  {
  }

  /** After a commit the names of the accepted revisions and of the failing one are spent. */
  lemma TriedNamesSpent(h: Digest, s: State, o: Owner, view: View, r: Revision)
    requires RowsOk(s.rows)
    requires var t := Tried(h, s, o);
      r in t.ready[..t.accepted] || (t.failed && r == t.ready[t.accepted])
    ensures
      var cut := RecoveryCutover(o);
      NameSpent(Commit(s, o, cut, TriedRows(h, s, o, cut, true), AcceptedBatch(h, s, o, cut), view), r.id)
  {
    var cut, tried := RecoveryCutover(o), Tried(h, s, o);
    var rows, batch := TriedRows(h, s, o, cut, true), AcceptedBatch(h, s, o, cut);
    var t := Commit(s, o, cut, rows, batch, view);
    TriedOk(h, s, o, cut, true);
    AcceptedOk(h, s, o, cut);
    CommitRemains(s, o, cut, rows, batch, view);
    assert batch.Of(Video) == batch.video == tried.ready[..tried.accepted];
    if r in batch.video {
      assert Fresh(s, o, rows, Video, r);
      assert r in batch.All();
    } else {
      FailedIsQuarantined(h, s, o);
      assert Quiet(s.rows[KeyOf(r)], rows[KeyOf(r)]);
    }
    assert Spent(t, KeyOf(r));
  }

  lemma CommitKeepsNames(h: Digest, s: State, o: Owner)
    requires RowsOk(s.rows) && NamesOk(s) && o.previous != Some(o.stream)
    requires Commits(Run(s, o, PlanOf(h, s, o)).1)
    ensures NamesOk(Run(s, o, PlanOf(h, s, o)).0)
  {
    var cut, p, tried := RecoveryCutover(o), PlanOf(h, s, o), Tried(h, s, o);
    var t := Run(s, o, p).0;
    GatesHalt(h, s, o, cut);
    RunCommits(s, o, p);
    ActivatedContent(h, s, o);
    TriedOk(h, s, o, cut, true);
    AcceptedOk(h, s, o, cut);
    CommitRemains(s, o, cut, p.rows, p.batch, p.view);
    SameIds(s, t);
    forall id | id in t.content
      ensures NameSpent(t, t.content[id].revisionId)
    {
      var name := t.content[id].revisionId;
      if !Unnamed(s.content, name) {
        var before :| before in s.content && s.content[before].revisionId == name;
        NameStaysSpent(s, t, name);
      } else if r :| r in tried.ready[..tried.accepted] && r.id == name {
        TriedNamesSpent(h, s, o, p.view, r);
      } else if tried.failed && tried.ready[tried.accepted].id == name {
        TriedNamesSpent(h, s, o, p.view, tried.ready[tried.accepted]);
      } else {
        ReplayNames(h, s, o, name);
        assert false;
      }
    }
  }

  lemma ActivationKeepsNames(h: Digest, s: State)
    requires Inv(s) && NamesOk(s)
    ensures NamesOk(Activate(h, s).0)
  {
    RowsAreOk(s);
    var t := Activate(h, s).0;
    if s.owner.Some? && Commits(Activate(h, s).1) {
      CommitKeepsNames(h, s, s.owner.value);
    } else {
      if s.owner.Some? {
        PlanIsOk(h, s, s.owner.value);
        RunMarks(s, s.owner.value, PlanOf(h, s, s.owner.value));
      } else {
        AwaitOk(s);
      }
      MarksRemain(s, t);
      SameIds(s, t);
      RemainsKeepsNames(s, t);
    }
  }

  lemma ArrivalKeepsNames(s: State, s': State, r: Revision, status: Status)
    requires NamesOk(s) && Arrives(s, s', r, status)
    ensures NamesOk(s')
  {
    RemainsKeepsNames(s, s');
  }

  lemma ReopeningKeepsNames(s: State, s': State, keys: set<Key>)
    requires NamesOk(s) && Reopens(s, s', keys)
    ensures NamesOk(s')
  {
    assert forall k | k in s.rows :: s'.rows[k].revision == s.rows[k].revision;
    RemainsKeepsNames(s, s');
  }

  lemma MoveKeepsNames(h: Digest, s: State, s': State)
    requires Inv(s) && NamesOk(s) && Moves(h, s, s')
    ensures NamesOk(s')
  {
    if s' == Activate(h, s).0 {
      ActivationKeepsNames(h, s);
    } else if r, status :| Arrives(s, s', r, status) {
      ArrivalKeepsNames(s, s', r, status);
    } else if keys :| Reopens(s, s', keys) {
      ReopeningKeepsNames(s, s', keys);
    } else {
      var o :| Owns(s, s', o);
      RemainsKeepsNames(s, s');
    }
  }

  lemma {:induction false} HistoryKeepsNames(h: Digest, states: seq<State>)
    requires History(h, states)
    ensures NamesOk(states[|states| - 1])
  {
    if |states| > 1 {
      HistoryPrefix(h, states);
      HistoryKeepsInv(h, states[..|states| - 1]);
      HistoryKeepsNames(h, states[..|states| - 1]);
      MoveKeepsNames(h, states[|states| - 2], states[|states| - 1]);
    }
  }

  // --- prefix-exactness of a run ---

  lemma PendingIsUnspent(s: State, stream: string, d: Domain, r: Revision, id: string)
    requires Inv(s) && NamesOk(s) && IsPending(s.rows, stream, d, r) && id in s.content
    ensures s.content[id].revisionId != r.id
  {
    var k :| Spent(s, k) && s.rows[k].revision.id == s.content[id].revisionId;
    assert s.rows[k].revision in Items(s.log) ==> ItemStored(s.rows, s.rows[k].revision);
    assert RowInv(s.rows, s.cursors, k);
    assert s.rows[KeyOf(r)].revision == r;
  }

  lemma PendingIdsDiffer(rows: map<Key, Row>, stream: string, d: Domain, a: Revision, b: Revision)
    requires UniqueIds(rows) && IsPending(rows, stream, d, a) && IsPending(rows, stream, d, b)
    requires a.sequence != b.sequence
    ensures a.id != b.id
  {
    assert rows[KeyOf(a)].revision == a && rows[KeyOf(b)].revision == b;
  }

  lemma ReadyIsFresh(h: Digest, s: State, o: Owner)
    requires Inv(s) && NamesOk(s)
    ensures
      var ready := Tried(h, s, o).ready;
      && (forall r, id | r in ready && id in s.content :: s.content[id].revisionId != r.id)
      && (forall i, j | 0 <= i < j < |ready| :: ready[i].id != ready[j].id)
  {
    RowsAreOk(s);
    var cut := RecoveryCutover(o);
    var ready := Pick(s, o.stream, cut, Video).ready;
    forall r, id | r in ready && id in s.content
      ensures s.content[id].revisionId != r.id
    {
      PickMembers(s, o.stream, cut, Video, r);
      PendingIsUnspent(s, o.stream, Video, r, id);
    }
    PickChain(s, o.stream, cut, Video);
    var cursor := CursorFor(s, cut, Video);
    forall i, j | 0 <= i < j < |ready|
      ensures ready[i].id != ready[j].id
    {
      ChainSequence(ready, Next(cursor), Tip(cursor), i);
      ChainSequence(ready, Next(cursor), Tip(cursor), j);
      PickMembers(s, o.stream, cut, Video, ready[i]);
      PickMembers(s, o.stream, cut, Video, ready[j]);
      PendingIdsDiffer(s.rows, o.stream, Video, ready[i], ready[j]);
    }
  }

  /** In every history: a run that commits leaves in the content rows exactly its accepted video
      revisions, if and only if no video revision failed after an accepted one or the one that failed was
      stopped before its first write. A run that does not commit leaves them as they were. */
  lemma HistoryExactIff(h: Digest, states: seq<State>, o: Owner)
    requires History(h, states) && states[|states| - 1].owner == Some(o)
    ensures
      var s := states[|states| - 1];
      var (t, outcome) := Activate(h, s);
      if Commits(outcome) then t.content == ExactContent(h, s, o) <==> StopsCleanly(h, s, o)
      else t.content == s.content
  {
    var s := states[|states| - 1];
    HistoryKeepsInv(h, states);
    HistoryKeepsNames(h, states);
    ActivatedContent(h, s, o);
    ReadyIsFresh(h, s, o);
    PrefixExactIff(h, s.header.Some?, s.content, Tried(h, s, o).ready, RecoveryCutover(o));
  }

  /** Unless a revision that failed had begun to write, a run takes the stored records through the accepted
      video revisions, one after the other, each doing to every record what it says. */
  lemma HistoryEdits(h: Digest, states: seq<State>, o: Owner) returns (tables: seq<map<string, Content>>)
    requires History(h, states) && states[|states| - 1].owner == Some(o)
    requires Commits(Activate(h, states[|states| - 1]).1) && StopsCleanly(h, states[|states| - 1], o)
    ensures
      var s := states[|states| - 1];
      var accepted := Tried(h, s, o).ready[..Tried(h, s, o).accepted];
      && VideoEffect.Edits(tables, accepted, RecoveryCutover(o))
      && tables[0] == s.content && tables[|accepted|] == Activate(h, s).0.content
  {
    var s := states[|states| - 1];
    HistoryExactIff(h, states, o);
    WholePasses(h, s, o);
    tables := VideoEffect.ReplayEdits(h, s.header.Some?, LoadAll(s.content),
                                      Tried(h, s, o).ready[..Tried(h, s, o).accepted], RecoveryCutover(o));
  }

  lemma WholePasses(h: Digest, s: State, o: Owner)
    ensures
      var t := Tried(h, s, o);
      !Simulate(h, s.header.Some?, LoadAll(s.content), t.ready[..t.accepted], RecoveryCutover(o)).failed
  {
    var t, cut := Tried(h, s, o), RecoveryCutover(o);
    AcceptedPasses(h, s.header.Some?, Load(s.content, BatchRefs(t.ready)), t.ready, cut);
    PrefixRefs(t.ready, t.accepted);
    PartialViewRefinesTable(h, s.header.Some?, s.content, BatchRefs(t.ready), t.ready[..t.accepted], cut);
  }
}
