/** A run that activates something keeps the invariant. */
module ActivationCommit {
  import opened Prelude
  import opened Publication
  import opened Selection
  import opened VideoReplay
  import opened VideoTable
  import opened VideoRows
  import opened Activation
  import opened ActivationRows
  import opened ActivationSafety

  /** The accepted revisions are pending rows, unmarked by the run, that continue the cursors. */
  ghost predicate BatchOk(s: State, o: Owner, cut: bool, rows: map<Key, Row>, batch: Batch) {
    && (forall d: Domain, r | r in batch.Of(d) :: Fresh(s, o, rows, d, r))
    && (forall d: Domain :: Continues(CursorFor(s, cut, d), batch.Of(d)))
  }

  ghost predicate Fresh(s: State, o: Owner, rows: map<Key, Row>, d: Domain, r: Revision) {
    && IsPending(s.rows, o.stream, d, r)
    && KeyOf(r) in rows && rows[KeyOf(r)] == s.rows[KeyOf(r)]
  }

  ghost predicate MarksOk(s: State, rows: map<Key, Row>) {
    && rows.Keys == s.rows.Keys
    && (forall k | k in rows :: Quiet(s.rows[k], rows[k]))
  }

  /** Before a cutover all cursors are on the previous stream, otherwise on the stream itself; a
      cutover activates all three domains. */
  ghost predicate StreamsOk(s: State, o: Owner, cut: bool, batch: Batch) {
    && o.previous != Some(o.stream)
    && (if cut then o.previous.Some? && !CursorsElsewhere(s, o.previous.value) else !CursorsElsewhere(s, o.stream))
    && (cut ==> forall d: Domain :: batch.Of(d) != [])
  }

  // --- the audit log ---

  lemma LaneGrows(s: State, o: Owner, cut: bool, rows: map<Key, Row>, batch: Batch, stream: string, d: Domain)
    requires BatchOk(s, o, cut, rows, batch)
    ensures Lane(batch.All(), stream, d) == if stream == o.stream then batch.Of(d) else []
  {
    var a, b, c := batch.channel, batch.video, batch.agent;
    LaneConcat(a + b, c, stream, d);
    LaneConcat(a, b, stream, d);
    BatchLane(s, o, cut, rows, batch, stream, d, Channel);
    BatchLane(s, o, cut, rows, batch, stream, d, Video);
    BatchLane(s, o, cut, rows, batch, stream, d, Agent);
  }

  lemma BatchLane(s: State, o: Owner, cut: bool, rows: map<Key, Row>, batch: Batch, stream: string, d: Domain,
                  e: Domain)
    requires BatchOk(s, o, cut, rows, batch)
    ensures Lane(batch.Of(e), stream, d) == if stream == o.stream && d == e then batch.Of(e) else []
  {
    forall r | r in batch.Of(e)
      ensures r.stream == o.stream && r.domain == e
    {
      assert Fresh(s, o, rows, e, r);
    }
    if stream == o.stream && d == e {
      LaneAll(batch.Of(e), stream, d);
    } else {
      LaneNone(batch.Of(e), stream, d);
    }
  }

  /** On the stream being activated the lane so far ends exactly where the accepted run begins. */
  lemma LaneMeetsRun(s: State, o: Owner, cut: bool, rows: map<Key, Row>, batch: Batch, d: Domain)
    requires RowsInv(s.rows, s.cursors, s.log) && LaneOk(s.cursors, s.log, o.stream, d)
    requires BatchOk(s, o, cut, rows, batch) && StreamsOk(s, o, cut, batch) && batch.Of(d) != []
    ensures
      var lane := Lane(Items(s.log), o.stream, d);
      |lane| + 1 == Next(CursorFor(s, cut, d)) && TipAfter(lane, None) == Tip(CursorFor(s, cut, d))
  {
    var lane := Lane(Items(s.log), o.stream, d);
    if cut {
      var first := batch.Of(d)[0];
      assert Fresh(s, o, rows, d, first) && Continues(CursorFor(s, cut, d), batch.Of(d));
      forall i | 0 <= i < |lane|
        ensures ItemStored(s.rows, lane[i]) && lane[i].stream == o.stream && lane[i].domain == d
      {
        LaneMember(Items(s.log), o.stream, d, lane[i]);
      }
    } else if lane != [] {
      ChainSequence(lane, 1, None, |lane| - 1);
    }
  }

  lemma LaneExtends(s: State, o: Owner, cut: bool, rows: map<Key, Row>, batch: Batch, d: Domain)
    requires RowsInv(s.rows, s.cursors, s.log) && LaneOk(s.cursors, s.log, o.stream, d)
    requires BatchOk(s, o, cut, rows, batch) && StreamsOk(s, o, cut, batch)
    ensures Chain(Lane(Items(s.log), o.stream, d) + batch.Of(d), 1, None)
  {
    var lane, accepted := Lane(Items(s.log), o.stream, d), batch.Of(d);
    if accepted != [] {
      LaneMeetsRun(s, o, cut, rows, batch, d);
      assert Continues(CursorFor(s, cut, d), batch.Of(d));
      ChainConcat(lane, accepted, 1, None);
    } else {
      assert lane + [] == lane;
    }
  }

  lemma LaneAfter(cursors: map<Domain, Cursor>, log: seq<Activation>, later: seq<Activation>, batch: Batch,
                  stream: string, active: string, d: Domain)
    requires LaneOk(cursors, log, stream, d)
    requires Lane(Items(later), stream, d) == Lane(Items(log), stream, d) + if stream == active then batch.Of(d) else []
    requires stream == active ==> Chain(Lane(Items(log), stream, d) + batch.Of(d), 1, None)
    requires batch.Of(d) != [] ==> Last(batch.Of(d)).stream == active
    ensures LaneOk(CommittedCursors(cursors, batch), later, stream, d)
  {
    assert Lane(Items(log), stream, d) + [] == Lane(Items(log), stream, d);
  }

  lemma CommittedLane(s: State, o: Owner, cut: bool, rows: map<Key, Row>, batch: Batch, stream: string, d: Domain,
                      log: seq<Activation>)
    requires RowsInv(s.rows, s.cursors, s.log) && LaneOk(s.cursors, s.log, stream, d)
    requires BatchOk(s, o, cut, rows, batch) && StreamsOk(s, o, cut, batch)
    requires Items(log) == Items(s.log) + batch.All()
    ensures LaneOk(CommittedCursors(s.cursors, batch), log, stream, d)
  {
    LaneConcat(Items(s.log), batch.All(), stream, d);
    LaneGrows(s, o, cut, rows, batch, stream, d);
    if stream == o.stream {
      LaneExtends(s, o, cut, rows, batch, d);
    }
    if batch.Of(d) != [] {
      assert Last(batch.Of(d)) in batch.Of(d);
      assert Fresh(s, o, rows, d, Last(batch.Of(d)));
    }
    LaneAfter(s.cursors, s.log, log, batch, stream, o.stream, d);
  }

  function Put(cursors: map<Domain, Cursor>, d: Domain, items: seq<Revision>): map<Domain, Cursor> {
    if items == [] then cursors else cursors[d := CursorOf(Last(items))]
  }

  lemma AdvanceThree(cursors: map<Domain, Cursor>, a: seq<Revision>, b: seq<Revision>, c: seq<Revision>)
    requires forall r | r in a :: r.domain == Channel
    requires forall r | r in b :: r.domain == Video
    requires forall r | r in c :: r.domain == Agent
    ensures Advance(cursors, a + b + c) == Put(Put(Put(cursors, Channel, a), Video, b), Agent, c)
  {
    AdvanceConcat(cursors, a + b, c);
    AdvanceConcat(cursors, a, b);
    AdvanceOneDomain(cursors, a, Channel);
    AdvanceOneDomain(Put(cursors, Channel, a), b, Video);
    AdvanceOneDomain(Put(Put(cursors, Channel, a), Video, b), c, Agent);
  }

  lemma PutThree(cursors: map<Domain, Cursor>, batch: Batch)
    ensures Put(Put(Put(cursors, Channel, batch.channel), Video, batch.video), Agent, batch.agent)
      == CommittedCursors(cursors, batch)
  {
    var puts := Put(Put(Put(cursors, Channel, batch.channel), Video, batch.video), Agent, batch.agent);
    forall d: Domain
      ensures d in puts <==> d in CommittedCursors(cursors, batch)
      ensures d in puts ==> puts[d] == CommittedCursors(cursors, batch)[d]
    {
      match d case Channel => case Video => case Agent =>
    }
  }

  lemma CommittedVector(s: State, o: Owner, cut: bool, rows: map<Key, Row>, batch: Batch)
    requires BatchOk(s, o, cut, rows, batch)
    ensures Advance(s.cursors, batch.All()) == CommittedCursors(s.cursors, batch)
  {
    InDomain(s, o, cut, rows, batch, Channel);
    InDomain(s, o, cut, rows, batch, Video);
    InDomain(s, o, cut, rows, batch, Agent);
    assert batch.Of(Channel) == batch.channel && batch.Of(Video) == batch.video && batch.Of(Agent) == batch.agent;
    AdvanceThree(s.cursors, batch.channel, batch.video, batch.agent);
    PutThree(s.cursors, batch);
  }

  lemma InDomain(s: State, o: Owner, cut: bool, rows: map<Key, Row>, batch: Batch, d: Domain)
    requires BatchOk(s, o, cut, rows, batch)
    ensures forall r | r in batch.Of(d) :: r.domain == d
  {
    forall r | r in batch.Of(d)
      ensures r.domain == d
    {
      assert Fresh(s, o, rows, d, r);
    }
  }

  lemma CommittedLog(s: State, o: Owner, cut: bool, rows: map<Key, Row>, batch: Batch)
    requires RowsInv(s.rows, s.cursors, s.log) && LogInv(s.cursors, s.log)
    requires BatchOk(s, o, cut, rows, batch) && StreamsOk(s, o, cut, batch)
    ensures
      var cursors := CommittedCursors(s.cursors, batch);
      LogInv(cursors, s.log + [Activation(o.stream, s.cursors, cursors, batch.All())])
  {
    var cursors := CommittedCursors(s.cursors, batch);
    var log := s.log + [Activation(o.stream, s.cursors, cursors, batch.All())];
    assert log[..|log| - 1] == s.log;
    CommittedVector(s, o, cut, rows, batch);
    forall stream, d
      ensures LaneOk(cursors, log, stream, d)
    {
      assert LaneOk(s.cursors, s.log, stream, d);
      CommittedLane(s, o, cut, rows, batch, stream, d, log);
    }
  }

  // --- the rows ---

  /** After the commit every cursor is on the stream that was activated. */
  lemma CommittedStream(s: State, o: Owner, cut: bool, rows: map<Key, Row>, batch: Batch)
    requires BatchOk(s, o, cut, rows, batch) && StreamsOk(s, o, cut, batch)
    ensures
      var cursors := CommittedCursors(s.cursors, batch);
      forall d | d in cursors :: cursors[d].stream == o.stream
  {
    var cursors := CommittedCursors(s.cursors, batch);
    forall d | d in cursors
      ensures cursors[d].stream == o.stream
    {
      if batch.Of(d) != [] {
        assert Last(batch.Of(d)) in batch.Of(d);
        assert Fresh(s, o, rows, d, Last(batch.Of(d)));
      }
    }
  }

  /** In a domain that the batch advances: the last accepted row is active, and no other of the stream. */
  lemma AdvancedRowInv(s: State, o: Owner, cut: bool, rows: map<Key, Row>, batch: Batch, k: Key)
    requires RowsOk(s.rows) && RowsInv(s.rows, s.cursors, s.log)
    requires BatchOk(s, o, cut, rows, batch) && StreamsOk(s, o, cut, batch) && MarksOk(s, rows) && k in rows
    requires k.stream == o.stream && batch.Of(k.domain) != []
    ensures RowInv(CommittedRows(rows, o, cut, batch), CommittedCursors(s.cursors, batch), k)
  {
    assert RowOk(s.rows, k) && Quiet(s.rows[k], rows[k]);
    var d, accepted := k.domain, batch.Of(k.domain);
    assert Last(accepted) in accepted;
    assert Fresh(s, o, rows, d, Last(accepted));
    assert CommittedCursors(s.cursors, batch)[d] == CursorOf(Last(accepted));
    if rows[k].revision in accepted {
      assert Fresh(s, o, rows, d, rows[k].revision);
    }
    assert rows[k].revision == Last(accepted) <==> k == KeyOf(Last(accepted));
  }

  lemma CommittedRowInv(s: State, o: Owner, cut: bool, rows: map<Key, Row>, batch: Batch, k: Key)
    requires RowsOk(s.rows) && RowsInv(s.rows, s.cursors, s.log)
    requires BatchOk(s, o, cut, rows, batch) && StreamsOk(s, o, cut, batch) && MarksOk(s, rows) && k in rows
    ensures RowInv(CommittedRows(rows, o, cut, batch), CommittedCursors(s.cursors, batch), k)
  {
    if k.stream == o.stream && batch.Of(k.domain) != [] {
      AdvancedRowInv(s, o, cut, rows, batch, k);
    } else {
      assert RowInv(s.rows, s.cursors, k) && RowOk(s.rows, k) && Quiet(s.rows[k], rows[k]);
      CommittedStream(s, o, cut, rows, batch);
    }
  }

  lemma CommittedCursorStored(s: State, o: Owner, cut: bool, rows: map<Key, Row>, batch: Batch, d: Domain)
    requires RowsInv(s.rows, s.cursors, s.log) && d in CommittedCursors(s.cursors, batch)
    requires BatchOk(s, o, cut, rows, batch) && MarksOk(s, rows)
    ensures CursorStored(CommittedRows(rows, o, cut, batch), CommittedCursors(s.cursors, batch), d)
  {
    var accepted := batch.Of(d);
    if accepted != [] {
      assert Last(accepted) in accepted;
      assert Fresh(s, o, rows, d, Last(accepted));
    } else {
      assert CursorStored(s.rows, s.cursors, d);
      assert Quiet(s.rows[CursorKey(s.cursors[d], d)], rows[CursorKey(s.cursors[d], d)]);
    }
  }

  lemma CommittedStaysDone(row: Row, o: Owner, cut: bool, batch: Batch, k: Key)
    requires
      || row.status == Active || row.status == Superseded
      || (k.stream == o.stream && row.revision in batch.Of(k.domain))
    ensures
      var after := CommittedRow(row, o, cut, batch, k);
      after.revision == row.revision && (after.status == Active || after.status == Superseded)
  {
  }

  lemma CommittedItem(s: State, o: Owner, cut: bool, rows: map<Key, Row>, batch: Batch, r: Revision)
    requires RowsInv(s.rows, s.cursors, s.log)
    requires BatchOk(s, o, cut, rows, batch) && MarksOk(s, rows)
    requires r in Items(s.log) || exists d: Domain :: r in batch.Of(d)
    ensures ItemStored(CommittedRows(rows, o, cut, batch), r)
  {
    if d :| r in batch.Of(d) {
      assert Fresh(s, o, rows, d, r);
    } else {
      assert ItemStored(s.rows, r);
      assert Quiet(s.rows[KeyOf(r)], rows[KeyOf(r)]);
    }
    CommittedStaysDone(rows[KeyOf(r)], o, cut, batch, KeyOf(r));
  }

  lemma CommittedRowsInv(s: State, o: Owner, cut: bool, rows: map<Key, Row>, batch: Batch, log: seq<Activation>)
    requires RowsOk(s.rows) && RowsInv(s.rows, s.cursors, s.log)
    requires BatchOk(s, o, cut, rows, batch) && StreamsOk(s, o, cut, batch) && MarksOk(s, rows)
    requires Items(log) == Items(s.log) + batch.All()
    ensures RowsInv(CommittedRows(rows, o, cut, batch), CommittedCursors(s.cursors, batch), log)
  {
    var after, cursors := CommittedRows(rows, o, cut, batch), CommittedCursors(s.cursors, batch);
    forall k | k in after
      ensures RowInv(after, cursors, k)
    {
      CommittedRowInv(s, o, cut, rows, batch, k);
    }
    forall d | d in cursors
      ensures CursorStored(after, cursors, d)
    {
      CommittedCursorStored(s, o, cut, rows, batch, d);
    }
    forall r | r in Items(log)
      ensures ItemStored(after, r)
    {
      assert r in Items(s.log) || r in batch.Of(Channel) || r in batch.Of(Video) || r in batch.Of(Agent);
      CommittedItem(s, o, cut, rows, batch, r);
    }
  }

  // --- the current results ---

  lemma CommittedCurrents(s: State, o: Owner, cut: bool, rows: map<Key, Row>, batch: Batch, view: View)
    requires Currents(s)
    ensures Currents(Commit(s, o, cut, rows, batch, view))
  {
    assert batch.Of(Video) == batch.video;
  }

  lemma CommitKeepsInv(s: State, o: Owner, cut: bool, rows: map<Key, Row>, batch: Batch, view: View)
    requires Inv(s) && s.owner == Some(o)
    requires BatchOk(s, o, cut, rows, batch) && StreamsOk(s, o, cut, batch) && MarksOk(s, rows)
    requires
      var content := Commit(s, o, cut, rows, batch, view).content;
      AllSettled(content) && Writable(content)
    ensures Inv(Commit(s, o, cut, rows, batch, view))
  {
    var t := Commit(s, o, cut, rows, batch, view);
    RowsAreOk(s);
    assert t.log[..|t.log| - 1] == s.log;
    CommittedRowsInv(s, o, cut, rows, batch, t.log);
    CommittedLog(s, o, cut, rows, batch);
    CommittedStream(s, o, cut, rows, batch);
    CommittedCurrents(s, o, cut, rows, batch, view);
  }

  // --- the batch that a run accepts ---

  lemma AcceptedChain(h: Digest, s: State, o: Owner, cut: bool, d: Domain)
    ensures Continues(CursorFor(s, cut, d), Accepted(h, s, o, cut, d))
  {
    PickChain(s, o.stream, cut, d);
    var t := TrialOf(h, s, o.stream, cut, d);
    var cursor := CursorFor(s, cut, d);
    assert t.ready == t.ready[..t.accepted] + t.ready[t.accepted..];
    ChainConcat(t.ready[..t.accepted], t.ready[t.accepted..], Next(cursor), Tip(cursor));
  }

  lemma AcceptedOk(h: Digest, s: State, o: Owner, cut: bool)
    requires RowsOk(s.rows)
    ensures BatchOk(s, o, cut, TriedRows(h, s, o, cut, true), AcceptedBatch(h, s, o, cut))
  {
    var rows, batch := TriedRows(h, s, o, cut, true), AcceptedBatch(h, s, o, cut);
    forall d: Domain
      ensures batch.Of(d) == Accepted(h, s, o, cut, d)
      ensures Continues(CursorFor(s, cut, d), batch.Of(d))
    {
      AcceptedChain(h, s, o, cut, d);
    }
    forall d: Domain, r | r in batch.Of(d)
      ensures Fresh(s, o, rows, d, r)
    {
      AcceptedMembers(h, s, o, cut, d, r);
      AcceptedUnmarked(h, s, o, cut, KeyOf(r));
    }
  }

  lemma TriedOk(h: Digest, s: State, o: Owner, cut: bool, agentToo: bool)
    requires RowsOk(s.rows)
    ensures MarksOk(s, TriedRows(h, s, o, cut, agentToo))
  {
    forall k | k in s.rows
      ensures Quiet(s.rows[k], TriedRows(h, s, o, cut, agentToo)[k])
    {
      TriedQuiet(h, s, o, cut, agentToo, k);
    }
  }

  lemma AcceptedContent(h: Digest, s: State, o: Owner, cut: bool)
    requires RowsOk(s.rows) && AllSettled(s.content)
    requires Writable(TrialOf(h, s, o.stream, cut, Video).view.videos)
    ensures
      var content := Persist(s.content, TrialOf(h, s, o.stream, cut, Video).view);
      AllSettled(content) && Writable(content)
  {
    var ready := Pick(s, o.stream, cut, Video).ready;
    forall r | r in ready
      ensures ReasonsOk(r)
    {
      PickMembers(s, o.stream, cut, Video, r);
      assert RowOk(s.rows, KeyOf(r));
    }
    PersistSettles(h, s.header.Some?, s.content, ready, cut);
    var view := TrialOf(h, s, o.stream, cut, Video).view;
    WrittenEnds(s.content, view);
    WrittenKeepsIndex(s.content, view, view.videos.Keys);
  }

  // --- what every run plans ---

  /** What the gates ask of the domains that are activated. */
  predicate BatchMeetsGate(s: State, o: Owner, batch: Batch) {
    && (RecoveryCutover(o) || PackageBootstrap(s, o) ==> batch.channel != [] && batch.video != [] && batch.agent != [])
    && (CoreBootstrap(s, o, RecoveryCutover(o)) ==> batch.channel != [] && batch.video != [])
  }

  predicate Halts(outcome: Outcome) {
    !outcome.Activated? && !outcome.CutoverActivated? && !outcome.AwaitingOwnership?
  }

  ghost predicate PlanOk(s: State, o: Owner, p: Plan) {
    && MarksOk(s, p.picked) && MarksOk(s, p.stopped) && MarksOk(s, p.rows)
    && BatchOk(s, o, RecoveryCutover(o), p.rows, p.batch)
    && (p.gate.None? && p.stop.None? ==> BatchMeetsGate(s, o, p.batch))
    && (p.gate.Some? ==> Halts(p.gate.value))
    && (p.stop.Some? ==> Halts(p.stop.value))
    && ContentOk(s, p.view)
  }

  ghost predicate ContentOk(s: State, view: View) {
    AllSettled(s.content) && Writable(view.videos) ==>
      AllSettled(Persist(s.content, view)) && Writable(Persist(s.content, view))
  }

  /** What a passed gate and passed trials say about the accepted batch. */
  lemma PassedGate(h: Digest, s: State, o: Owner, cut: bool, d: Domain)
    requires Gate(s, o, cut).None? && TrialGate(h, s, o, cut).None?
    requires cut || PackageBootstrap(s, o) || (CoreBootstrap(s, o, cut) && d != Agent)
    ensures Accepted(h, s, o, cut, d) != []
    ensures !TrialOf(h, s, o.stream, cut, d).failed
  {
    assert d !in MissingDomains(s, o.stream, cut);
    assert !Fails(h, s, o, cut, d);
  }

  lemma AcceptedMeetsGate(h: Digest, s: State, o: Owner)
    requires Gate(s, o, RecoveryCutover(o)).None? && TrialGate(h, s, o, RecoveryCutover(o)).None?
    ensures BatchMeetsGate(s, o, AcceptedBatch(h, s, o, RecoveryCutover(o)))
  {
    var cut := RecoveryCutover(o);
    if cut || PackageBootstrap(s, o) || CoreBootstrap(s, o, cut) {
      PassedGate(h, s, o, cut, Channel);
      PassedGate(h, s, o, cut, Video);
    }
    if cut || PackageBootstrap(s, o) {
      PassedGate(h, s, o, cut, Agent);
    }
  }

  lemma GatesHalt(h: Digest, s: State, o: Owner, cut: bool)
    ensures var gate := Gate(s, o, cut); gate.Some? ==> Halts(gate.value)
    ensures var stop := TrialGate(h, s, o, cut); stop.Some? ==> Halts(stop.value)
  {
  }

  lemma PickedOk(s: State, stream: string, cut: bool)
    requires RowsOk(s.rows)
    ensures MarksOk(s, PickedRows(s, stream, cut))
  {
    forall k | k in s.rows
      ensures Quiet(s.rows[k], PickedRows(s, stream, cut)[k])
    {
      PickedQuiet(s, stream, cut, k);
    }
  }

  lemma PlanIsOk(h: Digest, s: State, o: Owner)
    requires RowsOk(s.rows)
    ensures PlanOk(s, o, PlanOf(h, s, o))
  {
    var cut := RecoveryCutover(o);
    PickedOk(s, o.stream, cut);
    TriedOk(h, s, o, cut, false);
    TriedOk(h, s, o, cut, true);
    AcceptedOk(h, s, o, cut);
    GatesHalt(h, s, o, cut);
    if Gate(s, o, cut).None? && TrialGate(h, s, o, cut).None? {
      AcceptedMeetsGate(h, s, o);
    }
    if AllSettled(s.content) && Writable(TrialOf(h, s, o.stream, cut, Video).view.videos) {
      AcceptedContent(h, s, o, cut);
    }
  }

  // --- every step, every history ---

  lemma AwaitOk(s: State)
    requires RowsOk(s.rows)
    ensures MarksOk(s, Await(s).rows)
  {
    forall k | k in s.rows
      ensures Quiet(s.rows[k], Await(s).rows[k])
    {
      assert RowOk(s.rows, k);
    }
  }

  predicate Commits(outcome: Outcome) {
    outcome == Activated || outcome == CutoverActivated
  }

  lemma RunHalts(s: State, o: Owner, p: Plan)
    requires !Commits(Run(s, o, p).1)
    ensures
      var t := Run(s, o, p).0;
      || t == Await(s) || t == s
      || t == s.(rows := p.picked) || t == s.(rows := p.stopped) || t == s.(rows := p.rows)
  {
  }

  /** A run that does not commit only marks rows. */
  lemma RunMarks(s: State, o: Owner, p: Plan)
    requires RowsOk(s.rows) && PlanOk(s, o, p) && !Commits(Run(s, o, p).1)
    ensures
      var t := Run(s, o, p).0;
      t == s.(rows := t.rows) && MarksOk(s, t.rows)
  {
    AwaitOk(s);
    RunHalts(s, o, p);
  }

  lemma RunCommits(s: State, o: Owner, p: Plan)
    requires p.gate.Some? ==> Halts(p.gate.value)
    requires p.stop.Some? ==> Halts(p.stop.value)
    requires o.previous != Some(o.stream) && Commits(Run(s, o, p).1)
    ensures Refusal(s, o).None? && p.gate.None? && p.stop.None? && p.batch.All() != []
    ensures Run(s, o, p).0 == Commit(s, o, RecoveryCutover(o), p.rows, p.batch, p.view)
    ensures p.batch.video != [] ==> Writable(p.view.videos)
  {
  }

  lemma CommitStreams(s: State, o: Owner, batch: Batch)
    requires Refusal(s, o).None? && BatchMeetsGate(s, o, batch) && o.previous != Some(o.stream)
    ensures StreamsOk(s, o, RecoveryCutover(o), batch)
  {
  }

  /** The recovery evidence that keeps a pending revision of another stream alive. */
  predicate Evidenced(r: Revision) {
    r.recovery.Some? && r.recovery.value.supported && r.recovery.value.evidenced
  }

  /** Nothing of another stream is pending, except evidenced recovery revisions. */
  ghost predicate OthersRetired(rows: map<Key, Row>, stream: string) {
    forall k | k in rows && k.stream != stream && Pending(rows[k].status) :: Evidenced(rows[k].revision)
  }

  lemma PlanRetires(h: Digest, s: State, o: Owner)
    ensures
      var p := PlanOf(h, s, o);
      OthersRetired(p.picked, o.stream) && OthersRetired(p.stopped, o.stream) && OthersRetired(p.rows, o.stream)
  {
    var cut := RecoveryCutover(o);
    assert OthersRetired(PickedRows(s, o.stream, cut), o.stream);
    forall k | k in s.rows && k.stream != o.stream
      ensures TriedRow(h, s, o, cut, true, k) == PickedRows(s, o.stream, cut)[k] == TriedRow(h, s, o, cut, false, k)
    {
    }
  }

  lemma CommitRetires(rows: map<Key, Row>, o: Owner, cut: bool, batch: Batch)
    requires OthersRetired(rows, o.stream)
    ensures OthersRetired(CommittedRows(rows, o, cut, batch), o.stream)
  {
  }

  /** A run that is not refused retires the pending revisions of all other streams. */
  lemma RunRetires(s: State, o: Owner, p: Plan)
    requires OthersRetired(p.picked, o.stream) && OthersRetired(p.stopped, o.stream) && OthersRetired(p.rows, o.stream)
    requires Refusal(s, o).None? && Run(s, o, p).1 != WriteRefused
    ensures OthersRetired(Run(s, o, p).0.rows, o.stream)
  {
    CommitRetires(p.rows, o, RecoveryCutover(o), p.batch);
    var t := Run(s, o, p).0;
    assert t.rows == p.picked || t.rows == p.stopped || t.rows == p.rows
      || t.rows == CommittedRows(p.rows, o, RecoveryCutover(o), p.batch);
  }

  /** A run that is neither refused nor rolled back leaves nothing of another stream pending, except
      evidenced recovery revisions. */
  lemma ActivationRetires(h: Digest, s: State)
    requires s.owner.Some? && Refusal(s, s.owner.value).None? && Activate(h, s).1 != WriteRefused
    ensures OthersRetired(Activate(h, s).0.rows, s.owner.value.stream)
  {
    PlanRetires(h, s, s.owner.value);
    RunRetires(s, s.owner.value, PlanOf(h, s, s.owner.value));
  }

  lemma RunKeepsInv(s: State, o: Owner, p: Plan)
    requires Inv(s) && s.owner == Some(o) && PlanOk(s, o, p)
    ensures Inv(Run(s, o, p).0)
  {
    RowsAreOk(s);
    if Commits(Run(s, o, p).1) {
      RunCommits(s, o, p);
      CommitStreams(s, o, p.batch);
      CommitKeepsInv(s, o, RecoveryCutover(o), p.rows, p.batch, p.view);
    } else {
      RunMarks(s, o, p);
      QuietKeepsInv(s, Run(s, o, p).0.rows);
    }
  }

  lemma ActivationKeepsInv(h: Digest, s: State)
    requires Inv(s)
    ensures Inv(Activate(h, s).0)
  {
    RowsAreOk(s);
    if s.owner.None? {
      AwaitOk(s);
      QuietKeepsInv(s, Await(s).rows);
    } else {
      PlanIsOk(h, s, s.owner.value);
      RunKeepsInv(s, s.owner.value, PlanOf(h, s, s.owner.value));
    }
  }

  lemma MoveKeepsInv(h: Digest, s: State, s': State)
    requires Inv(s) && Moves(h, s, s')
    ensures Inv(s')
  {
    if s' == Activate(h, s).0 {
      ActivationKeepsInv(h, s);
    } else if r, status :| Arrives(s, s', r, status) {
      ArrivalKeepsInv(s, s', r, status);
    } else if keys :| Reopens(s, s', keys) {
      ReopeningKeepsInv(s, s', keys);
    }
  }

  lemma EmptyInv()
    ensures Inv(EMPTY)
  {
  }

  lemma HistoryPrefix(h: Digest, states: seq<State>)
    requires History(h, states) && |states| > 1
    ensures History(h, states[..|states| - 1]) && Moves(h, states[|states| - 2], states[|states| - 1])
  {
    var before := states[..|states| - 1];
    forall i | 0 <= i < |before| - 1
      ensures Moves(h, before[i], before[i + 1])
    {
      assert Moves(h, states[i], states[i + 1]);
    }
    var n := |states| - 2;
    assert Moves(h, states[n], states[n + 1]);
  }

  /** In every state of every history: exactly the rows that the cursors name are active; all cursors
      are on one stream; the audit log replays to the cursors, and its items form, per stream and
      domain, one linked chain 1..n that ends at the cursor; the current results belong to the
      cursors; no content row keeps the transient rewrite reason and no two active rows share a
      position. */
  lemma {:induction false} HistoryKeepsInv(h: Digest, states: seq<State>)
    requires History(h, states)
    ensures Inv(states[|states| - 1])
  {
    if |states| == 1 {
      EmptyInv();
    } else {
      HistoryPrefix(h, states);
      HistoryKeepsInv(h, states[..|states| - 1]);
      MoveKeepsInv(h, states[|states| - 2], states[|states| - 1]);
    }
  }
}
