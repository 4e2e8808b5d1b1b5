/** Where every revision row ends up after a run, by its place; and what a commit stores. */
module ActivationOutcome {
  import opened Prelude
  import opened Publication
  import opened Selection
  import opened VideoReplay
  import opened VideoTable
  import opened VideoRows
  import opened Activation
  import opened ActivationRows
  import opened ActivationSafety
  import opened ActivationCommit
  import Effects = ActivationEffects
  import Window = ActivationWindow

  // --- the rows of the owner's stream ---

  /** How far the row is beyond the cursor: 0 for the next revision. A cutover starts from nothing. */
  function Distance(s: State, o: Owner, k: Key): int {
    k.sequence - 1 - if o.status == Owning && k.domain in s.cursors then s.cursors[k.domain].sequence else 0
  }

  ghost function TrialAt(h: Digest, s: State, o: Owner, d: Domain): Trial {
    TrialOf(h, s, o.stream, RecoveryCutover(o), d)
  }

  /** The row after a run, by its place i. Of the ready run the accepted part is applied if the run commits: the
      last becomes active, the earlier ones and the row that was active are superseded. `tried`: the domain was
      simulated; then the revision that failed is quarantined, and `rest`: those after it wait. A row behind the
      cursor is superseded, the one that breaks the run quarantined, rows beyond it wait. */
  function RowAt(row: Row, i: int, t: Trial, tried: bool, rest: bool, commits: bool): Row {
    if row.status == Active then Row(row.revision, row.valid, if commits && t.accepted > 0 then Superseded else Active)
    else if row.status == Quarantined || row.status == Superseded then row
    else if i < 0 then Row(row.revision, true, Superseded)
    else if i > |t.ready| then Row(row.revision, true, WaitingGap)
    else if i == |t.ready| then Row(row.revision, false, Quarantined)
    else if i < t.accepted then
      if !commits then row else Row(row.revision, true, if i == t.accepted - 1 then Active else Superseded)
    else if !tried then row
    else if i == t.accepted then Row(row.revision, false, Quarantined)
    else if rest then Row(row.revision, true, WaitingGap)
    else row
  }

  ghost function RowAfter(h: Digest, s: State, o: Owner, k: Key, tried: bool, rest: bool, commits: bool): Row
    requires k in s.rows
  {
    RowAt(s.rows[k], Distance(s, o, k), TrialAt(h, s, o, k.domain), tried, rest, commits)
  }

  lemma DistanceIs(s: State, o: Owner, k: Key)
    requires Effects.MayActivate(s, o)
    ensures Distance(s, o, k) == k.sequence - Next(CursorFor(s, RecoveryCutover(o), k.domain))
  {
  }

  lemma PickedAt(h: Digest, s: State, o: Owner, k: Key)
    requires RowsOk(s.rows) && k in s.rows && k.stream == o.stream && Effects.MayActivate(s, o)
    ensures PickedRows(s, o.stream, RecoveryCutover(o))[k] == RowAfter(h, s, o, k, false, false, false)
  {
    DistanceIs(s, o, k);
    assert RowOk(s.rows, k);
    PickMembers(s, o.stream, RecoveryCutover(o), k.domain, s.rows[k].revision);
  }

  /** The row stands at i in the run, if it is pending, and nowhere else. */
  ghost predicate StandsAt(row: Row, i: int, t: Trial) {
    && t.accepted <= |t.ready| && (t.failed <==> t.accepted < |t.ready|)
    && (row.valid <==> row.status != Quarantined)
    && (forall j | 0 <= j < |t.ready| && t.ready[j] == row.revision :: j == i && Pending(row.status))
    && (Pending(row.status) && 0 <= i < |t.ready| ==> t.ready[i] == row.revision)
  }

  lemma RowStands(h: Digest, s: State, o: Owner, k: Key)
    requires RowsOk(s.rows) && k in s.rows && k.stream == o.stream && Effects.MayActivate(s, o)
    ensures StandsAt(s.rows[k], Distance(s, o, k), TrialAt(h, s, o, k.domain))
  {
    var cut, d, r := RecoveryCutover(o), k.domain, s.rows[k].revision;
    var t, cursor := TrialAt(h, s, o, d), CursorFor(s, cut, d);
    DistanceIs(s, o, k);
    assert RowOk(s.rows, k);
    PickMembers(s, o.stream, cut, d, r);
    PickChain(s, o.stream, cut, d);
    forall j | 0 <= j < |t.ready| && t.ready[j] == r
      ensures j == Distance(s, o, k) && Pending(s.rows[k].status)
    {
      ChainSequence(t.ready, Next(cursor), Tip(cursor), j);
    }
    if Pending(s.rows[k].status) && 0 <= Distance(s, o, k) < |t.ready| {
      var j :| 0 <= j < |t.ready| && t.ready[j] == r;
      ChainSequence(t.ready, Next(cursor), Tip(cursor), j);
    }
  }

  /** The marks of a trial, by place. */
  lemma TrialMarksAt(row: Row, i: int, t: Trial, rest: bool)
    requires StandsAt(row, i, t)
    ensures MarkTrial(RowAt(row, i, t, false, false, false), t, rest) == RowAt(row, i, t, true, rest, false)
  {
    if t.failed {
      assert row.revision in t.ready[t.accepted + 1..]
        <==> exists j :: t.accepted < j < |t.ready| && t.ready[j] == row.revision by {
        if j :| t.accepted < j < |t.ready| && t.ready[j] == row.revision {
          assert t.ready[t.accepted + 1..][j - t.accepted - 1] == row.revision;
        }
      }
    }
  }

  lemma TriedAt(h: Digest, s: State, o: Owner, agentToo: bool, k: Key)
    requires RowsOk(s.rows) && k in s.rows && k.stream == o.stream && Effects.MayActivate(s, o)
    ensures
      var core := CoreBootstrap(s, o, RecoveryCutover(o));
      TriedRow(h, s, o, RecoveryCutover(o), agentToo, k)
      == RowAfter(h, s, o, k, agentToo || k.domain != Agent || !core, k.domain != Agent || !core, false)
  {
    PickedAt(h, s, o, k);
    RowStands(h, s, o, k);
    var core := CoreBootstrap(s, o, RecoveryCutover(o));
    TrialMarksAt(s.rows[k], Distance(s, o, k), TrialAt(h, s, o, k.domain), k.domain != Agent || !core);
  }

  /** The commit, by place. */
  lemma CommitMarksAt(row: Row, i: int, t: Trial, rest: bool)
    requires StandsAt(row, i, t)
    ensures ApplyRow(RowAt(row, i, t, true, rest, false), t.ready[..t.accepted]) == RowAt(row, i, t, true, rest, true)
  {
    var applied := t.ready[..t.accepted];
    assert row.revision in applied <==> exists j :: 0 <= j < t.accepted && t.ready[j] == row.revision by {
      if j :| 0 <= j < t.accepted && t.ready[j] == row.revision {
        assert applied[j] == row.revision;
      }
    }
    if t.accepted > 0 {
      assert Last(applied) == t.ready[t.accepted - 1];
    }
  }

  // --- the outcome of a run ---

  /** The run has stopped at the first gate: nothing was simulated. */
  predicate AtGate(outcome: Outcome) {
    outcome == InconsistentPackage || outcome == InconsistentCore
    || outcome == WaitingCutover || outcome == WaitingPackage || outcome == WaitingCore
  }

  /** The run has stopped after the trials. */
  predicate AtTrials(outcome: Outcome) {
    outcome == CutoverQuarantined || outcome == PackageQuarantined || outcome == CoreQuarantined
  }

  lemma GateKinds(h: Digest, s: State, o: Owner, cut: bool)
    ensures var gate := Gate(s, o, cut); gate.Some? ==> AtGate(gate.value)
    ensures var stop := TrialGate(h, s, o, cut); stop.Some? ==> AtTrials(stop.value)
  {
  }

  lemma NotTurnedAway(s: State, o: Owner, p: Plan, outcome: Outcome)
    requires outcome == Run(s, o, p).1 && !Effects.Refused(outcome)
    ensures Refusal(s, o).None?
  {
  }

  /** How a run that is not turned away goes on. */
  lemma RunGoesOn(s: State, o: Owner, p: Plan)
    requires Refusal(s, o).None?
    ensures p.gate.Some? ==> Run(s, o, p) == (s.(rows := p.picked), p.gate.value)
    ensures p.gate.None? && p.stop.Some? ==> Run(s, o, p) == (s.(rows := p.stopped), p.stop.value)
    ensures p.gate.None? && p.stop.None? ==>
      var (t, outcome) := Run(s, o, p);
      || ((outcome == Idle || outcome == WaitingGaps) && t.rows == p.rows)
      || outcome == WriteRefused
      || (Commits(outcome) && t.rows == CommittedRows(p.rows, o, RecoveryCutover(o), p.batch))
  {
  }

  lemma RunRows(s: State, o: Owner, p: Plan, outcome: Outcome)
    requires p.gate.Some? ==> AtGate(p.gate.value)
    requires p.stop.Some? ==> AtTrials(p.stop.value)
    requires Refusal(s, o).None? && outcome == Run(s, o, p).1 && outcome != WriteRefused
    ensures Run(s, o, p).0.rows
      == if AtGate(outcome) then p.picked
         else if AtTrials(outcome) then p.stopped
         else if Commits(outcome) then CommittedRows(p.rows, o, RecoveryCutover(o), p.batch)
         else p.rows
  {
    RunGoesOn(s, o, p);
  }

  /** Every row of the owner's stream after a run that was neither turned away nor rolled back. The agent domain
      is not simulated if the core has to start first and did not; the agent revisions after one that failed
      then keep their status. */
  lemma RowAfterRun(h: Digest, s: State, o: Owner, k: Key)
    requires Inv(s) && s.owner == Some(o) && k in s.rows && k.stream == o.stream
    requires !Effects.Refused(Activate(h, s).1) && Activate(h, s).1 != WriteRefused
    ensures
      var (t, outcome) := Activate(h, s);
      var core := k.domain == Agent && CoreBootstrap(s, o, RecoveryCutover(o));
      && k in t.rows
      && t.rows[k]
         == RowAfter(h, s, o, k, !AtGate(outcome) && !(core && AtTrials(outcome)), !core, Commits(outcome))
  {
    RowsAreOk(s);
    var p, outcome := PlanOf(h, s, o), Activate(h, s).1;
    GateKinds(h, s, o, RecoveryCutover(o));
    NotTurnedAway(s, o, p, outcome);
    RunRows(s, o, p, outcome);
    Effects.RefusalIff(s, o);
    PlannedRows(h, s, o, k);
    var core := k.domain == Agent && CoreBootstrap(s, o, RecoveryCutover(o));
    ByOutcome(s.rows[k], Distance(s, o, k), TrialAt(h, s, o, k.domain), core, outcome);
  }

  /** The four rows that a plan may leave under a key. */
  lemma PlannedRows(h: Digest, s: State, o: Owner, k: Key)
    requires Inv(s) && s.owner == Some(o) && k in s.rows && k.stream == o.stream && Effects.MayActivate(s, o)
    ensures
      var p, row, i, t := PlanOf(h, s, o), s.rows[k], Distance(s, o, k), TrialAt(h, s, o, k.domain);
      var core := k.domain == Agent && CoreBootstrap(s, o, RecoveryCutover(o));
      && k in p.picked && p.picked[k] == RowAt(row, i, t, false, !core, false)
      && k in p.stopped && p.stopped[k] == RowAt(row, i, t, !core, !core, false)
      && k in p.rows && p.rows[k] == RowAt(row, i, t, true, !core, false)
      && CommittedRow(p.rows[k], o, RecoveryCutover(o), p.batch, k) == RowAt(row, i, t, true, !core, true)
  {
    RowsAreOk(s);
    PickedAt(h, s, o, k);
    UntriedRest(s.rows[k], Distance(s, o, k), TrialAt(h, s, o, k.domain));
    TriedAt(h, s, o, false, k);
    TriedAt(h, s, o, true, k);
    CommittedAt(h, s, o, k);
  }

  lemma ByOutcome(row: Row, i: int, t: Trial, core: bool, outcome: Outcome)
    ensures
      RowAt(row, i, t, !AtGate(outcome) && !(core && AtTrials(outcome)), !core, Commits(outcome))
      == if AtGate(outcome) then RowAt(row, i, t, false, !core, false)
         else if AtTrials(outcome) then RowAt(row, i, t, !core, !core, false)
         else if Commits(outcome) then RowAt(row, i, t, true, !core, true)
         else RowAt(row, i, t, true, !core, false)
  {
  }

  lemma CommittedAt(h: Digest, s: State, o: Owner, k: Key)
    requires RowsOk(s.rows) && k in s.rows && k.stream == o.stream && o.previous != Some(o.stream)
    requires Effects.MayActivate(s, o)
    ensures
      var cut := RecoveryCutover(o);
      CommittedRow(TriedRow(h, s, o, cut, true, k), o, cut, AcceptedBatch(h, s, o, cut), k)
      == RowAfter(h, s, o, k, true, k.domain != Agent || !CoreBootstrap(s, o, cut), true)
  {
    var cut, t := RecoveryCutover(o), TrialAt(h, s, o, k.domain);
    TriedAt(h, s, o, true, k);
    RowStands(h, s, o, k);
    CommitMarksAt(s.rows[k], Distance(s, o, k), t, k.domain != Agent || !CoreBootstrap(s, o, cut));
    assert AcceptedBatch(h, s, o, cut).Of(k.domain) == t.ready[..t.accepted];
  }

  lemma UntriedRest(row: Row, i: int, t: Trial)
    ensures RowAt(row, i, t, false, true, false) == RowAt(row, i, t, false, false, false)
  {
  }

  // --- the rows of other streams, and runs that are turned away ---

  /** A row of another stream after a run: superseded if it was pending and does not carry supported and
      evidenced recovery; also, `retires`, if it was active on the stream that a cutover leaves. */
  function OtherRow(row: Row, retires: bool): Row {
    var recovery := row.revision.recovery;
    var kept := recovery.Some? && recovery.value.supported && recovery.value.evidenced;
    if (Pending(row.status) && !kept) || (retires && row.status == Active)
    then Row(row.revision, row.valid, Superseded) else row
  }

  lemma OtherRowAfterRun(h: Digest, s: State, o: Owner, k: Key)
    requires Inv(s) && s.owner == Some(o) && k in s.rows && k.stream != o.stream
    requires !Effects.Refused(Activate(h, s).1) && Activate(h, s).1 != WriteRefused
    ensures
      var (t, outcome) := Activate(h, s);
      k in t.rows && t.rows[k] == OtherRow(s.rows[k], outcome == CutoverActivated && o.previous == Some(k.stream))
  {
    GateKinds(h, s, o, RecoveryCutover(o));
    OtherPlanned(h, s, o, k);
    OtherRun(s, o, PlanOf(h, s, o), k);
  }

  lemma OtherRun(s: State, o: Owner, p: Plan, k: Key)
    requires p.gate.Some? ==> AtGate(p.gate.value)
    requires p.stop.Some? ==> AtTrials(p.stop.value)
    requires k in s.rows && k.stream != o.stream && k in p.picked && k in p.stopped && k in p.rows
    requires p.picked[k] == p.stopped[k] == p.rows[k] == RetireRow(s.rows[k])
    requires !Effects.Refused(Run(s, o, p).1) && Run(s, o, p).1 != WriteRefused
    ensures
      var (t, outcome) := Run(s, o, p);
      k in t.rows && t.rows[k] == OtherRow(s.rows[k], outcome == CutoverActivated && o.previous == Some(k.stream))
  {
    var outcome := Run(s, o, p).1;
    NotTurnedAway(s, o, p, outcome);
    RunRows(s, o, p, outcome);
    CutoverCommits(s, o, p);
    OtherAmong(s, o, p, k, outcome);
  }

  lemma OtherAmong(s: State, o: Owner, p: Plan, k: Key, outcome: Outcome)
    requires k in s.rows && k.stream != o.stream && k in p.picked && k in p.stopped && k in p.rows
    requires p.picked[k] == p.stopped[k] == p.rows[k] == RetireRow(s.rows[k])
    ensures
      var cut := RecoveryCutover(o);
      var rows := if AtGate(outcome) then p.picked else if AtTrials(outcome) then p.stopped
        else if Commits(outcome) then CommittedRows(p.rows, o, cut, p.batch) else p.rows;
      && k in rows
      && rows[k] == OtherRow(s.rows[k], Commits(outcome) && cut && o.previous == Some(k.stream))
  {
    OtherCommitted(s.rows[k], o, RecoveryCutover(o), p.batch, k);
  }

  lemma OtherCommitted(row: Row, o: Owner, cut: bool, batch: Batch, k: Key)
    requires k.stream != o.stream
    ensures RetireRow(row) == OtherRow(row, false)
    ensures CommittedRow(RetireRow(row), o, cut, batch, k) == OtherRow(row, cut && o.previous == Some(k.stream))
  {
  }

  lemma CutoverCommits(s: State, o: Owner, p: Plan)
    requires p.gate.Some? ==> AtGate(p.gate.value)
    requires p.stop.Some? ==> AtTrials(p.stop.value)
    ensures Run(s, o, p).1 == CutoverActivated <==> Commits(Run(s, o, p).1) && RecoveryCutover(o)
  {
  }

  lemma OtherPlanned(h: Digest, s: State, o: Owner, k: Key)
    requires k in s.rows && k.stream != o.stream
    ensures
      var p := PlanOf(h, s, o);
      && k in p.picked && k in p.stopped && k in p.rows
      && p.picked[k] == p.stopped[k] == p.rows[k] == RetireRow(s.rows[k])
  {
    var cut := RecoveryCutover(o);
    assert TriedRow(h, s, o, cut, true, k) == PickedRows(s, o.stream, cut)[k] == TriedRow(h, s, o, cut, false, k);
  }

  /** A run that is turned away marks at most that pending rows wait for ownership. */
  lemma TurnedAway(h: Digest, s: State)
    requires Effects.Refused(Activate(h, s).1)
    ensures
      var (t, outcome) := Activate(h, s);
      && t.rows.Keys == s.rows.Keys && t == s.(rows := t.rows)
      && forall k | k in s.rows ::
           t.rows[k] == if outcome == AwaitingOwnership && Pending(s.rows[k].status)
                        then Row(s.rows[k].revision, s.rows[k].valid, WaitingOwnership) else s.rows[k]
  {
    if s.owner.Some? {
      var o := s.owner.value;
      GateKinds(h, s, o, RecoveryCutover(o));
      PlanTurnedAway(s, o, PlanOf(h, s, o));
    }
  }

  lemma PlanTurnedAway(s: State, o: Owner, p: Plan)
    requires p.gate.Some? ==> AtGate(p.gate.value)
    requires p.stop.Some? ==> AtTrials(p.stop.value)
    requires Effects.Refused(Run(s, o, p).1)
    ensures
      var (t, outcome) := Run(s, o, p);
      if outcome == AwaitingOwnership then t == Await(s) else t == s
  {
  }

  /** When a run is turned away. */
  lemma TurnedAwayIff(h: Digest, s: State)
    ensures Activate(h, s).1 == AwaitingOwnership <==>
      s.owner.None? || (s.owner.value.status != Owning && !Effects.Recovers(s.owner.value))
    ensures Activate(h, s).1 == CutoverCursorMismatch <==>
      s.owner.Some? && Effects.Recovers(s.owner.value) && !Effects.MayActivate(s, s.owner.value)
    ensures Activate(h, s).1 == CutoverRequired <==>
      s.owner.Some? && s.owner.value.status == Owning && !Effects.MayActivate(s, s.owner.value)
  {
    if s.owner.Some? {
      var o := s.owner.value;
      GateKinds(h, s, o, RecoveryCutover(o));
      Effects.RefusalIff(s, o);
      PlanTurnedAwayIff(s, o, PlanOf(h, s, o));
    }
  }

  lemma PlanTurnedAwayIff(s: State, o: Owner, p: Plan)
    requires p.gate.Some? ==> AtGate(p.gate.value)
    requires p.stop.Some? ==> AtTrials(p.stop.value)
    ensures forall outcome | Effects.Refused(outcome) :: Run(s, o, p).1 == outcome <==> Refusal(s, o) == Some(outcome)
  {
  }

  lemma NothingPendingMeans(s: State, stream: string)
    requires RowsOk(s.rows)
    ensures NothingPending(s, stream) <==> forall k | k in s.rows && k.stream == stream :: !PendingAt(s, k)
  {
    if NothingPending(s, stream) {
      forall k | k in s.rows && k.stream == stream
        ensures !PendingAt(s, k)
      {
        assert RowOk(s.rows, k);
        PendingMember(s.rows, stream, k.domain, s.rows[k].revision);
        match k.domain case Channel => case Video => case Agent =>
      }
    } else {
      var d: Domain :| PendingRows(s.rows, stream, d) != [];
      var r := PendingRows(s.rows, stream, d)[0];
      PendingMember(s.rows, stream, d, r);
      assert PendingAt(s, KeyOf(r));
    }
  }

  // --- what is ready, and what is accepted ---

  /** The revision may follow: the first is a bootstrap without a predecessor, any other names the sequence and
      the hash before it and changes the result. */
  predicate Linked(r: Revision, before: Option<Hash>) {
    match before
    case None => r.kind == Bootstrap && r.previousSequence == None && r.previousHash == None
    case Some(hash) =>
      && r.kind != Bootstrap && r.sequence > 0 && r.previousSequence == Some(r.sequence - 1)
      && r.previousHash == Some(hash) && r.resultHash != hash
  }

  /** The hash before place i of the run. */
  ghost function HashBefore(s: State, o: Owner, d: Domain, ready: seq<Revision>, i: nat): Option<Hash>
    requires i <= |ready|
  {
    if i > 0 then Some(ready[i - 1].resultHash)
    else if o.status == Owning && d in s.cursors then Some(s.cursors[d].hash) else None
  }

  ghost predicate PendingAt(s: State, k: Key) {
    k in s.rows && s.rows[k].valid && Pending(s.rows[k].status)
  }

  ghost function PlaceKey(s: State, o: Owner, d: Domain, i: nat): Key {
    Key(o.stream, d, i + 1 + if o.status == Owning && d in s.cursors then s.cursors[d].sequence else 0)
  }

  lemma ReadyAt(h: Digest, s: State, o: Owner, d: Domain, i: nat)
    requires RowsOk(s.rows) && Effects.MayActivate(s, o) && i < |TrialAt(h, s, o, d).ready|
    ensures
      var ready, k := TrialAt(h, s, o, d).ready, PlaceKey(s, o, d, i);
      PendingAt(s, k) && s.rows[k].revision == ready[i] && Linked(ready[i], HashBefore(s, o, d, ready, i))
  {
    var ready := Pick(s, o.stream, RecoveryCutover(o), d).ready;
    ReadyInChain(s, o, d, i);
    PlaceIs(s, o, d, ready, i);
    ReadyIsPending(s, o, d, ready[i]);
    PendingPlace(s, o, d, ready[i]);
  }

  lemma ReadyInChain(s: State, o: Owner, d: Domain, i: nat)
    requires i < |Pick(s, o.stream, RecoveryCutover(o), d).ready|
    ensures
      var ready, cursor := Pick(s, o.stream, RecoveryCutover(o), d).ready, CursorFor(s, RecoveryCutover(o), d);
      && ready[i].sequence == Next(cursor) + i
      && Linked(ready[i], if i > 0 then Some(ready[i - 1].resultHash) else Tip(cursor))
  {
    var cut := RecoveryCutover(o);
    var ready, cursor := Pick(s, o.stream, cut, d).ready, CursorFor(s, cut, d);
    PickChain(s, o.stream, cut, d);
    ChainSequence(ready, Next(cursor), Tip(cursor), i);
    ChainLinks(ready, Next(cursor), Tip(cursor), i);
  }

  lemma PlaceIs(s: State, o: Owner, d: Domain, ready: seq<Revision>, i: nat)
    requires Effects.MayActivate(s, o) && i <= |ready|
    ensures
      var cursor := CursorFor(s, RecoveryCutover(o), d);
      && PlaceKey(s, o, d, i) == Key(o.stream, d, Next(cursor) + i)
      && HashBefore(s, o, d, ready, i) == if i > 0 then Some(ready[i - 1].resultHash) else Tip(cursor)
  {
  }

  lemma ReadyIsPending(s: State, o: Owner, d: Domain, r: Revision)
    requires RowsOk(s.rows) && r in Pick(s, o.stream, RecoveryCutover(o), d).ready
    ensures IsPending(s.rows, o.stream, d, r)
  {
    PickMembers(s, o.stream, RecoveryCutover(o), d, r);
  }

  lemma PendingPlace(s: State, o: Owner, d: Domain, r: Revision)
    requires RowsOk(s.rows) && IsPending(s.rows, o.stream, d, r)
    ensures
      var k := Key(o.stream, d, r.sequence);
      PendingAt(s, k) && s.rows[k].revision == r
  {
  }

  lemma ReadyEnds(h: Digest, s: State, o: Owner, d: Domain)
    requires RowsOk(s.rows) && Effects.MayActivate(s, o)
    ensures
      var ready := TrialAt(h, s, o, d).ready;
      PendingAt(s, PlaceKey(s, o, d, |ready|)) ==>
        !Linked(s.rows[PlaceKey(s, o, d, |ready|)].revision, HashBefore(s, o, d, ready, |ready|))
  {
    var cut := RecoveryCutover(o);
    var ready, cursor := Pick(s, o.stream, cut, d).ready, CursorFor(s, cut, d);
    var k := PlaceKey(s, o, d, |ready|);
    if PendingAt(s, k) {
      var r := s.rows[k].revision;
      assert RowOk(s.rows, k);
      PickMembers(s, o.stream, cut, d, r);
      SelectLinks(PendingRows(s.rows, o.stream, d), cursor);
      LinkedIs(r, TipAfter(ready, Tip(cursor)));
    }
  }

  lemma LinkedIs(r: Revision, before: Option<Hash>)
    ensures Linked(r, before) <==> Admissible(r, before)
  {
  }

  /** The ready run: the pending revisions after the cursor, one after the other, each linked to the one before,
      as far as that goes. */
  lemma ReadyMeans(h: Digest, s: State, o: Owner, d: Domain)
    requires Inv(s) && Effects.MayActivate(s, o)
    ensures
      var ready := TrialAt(h, s, o, d).ready;
      && (forall i | 0 <= i < |ready| ::
            && PendingAt(s, PlaceKey(s, o, d, i)) && s.rows[PlaceKey(s, o, d, i)].revision == ready[i]
            && Linked(ready[i], HashBefore(s, o, d, ready, i)))
      && (PendingAt(s, PlaceKey(s, o, d, |ready|)) ==>
            !Linked(s.rows[PlaceKey(s, o, d, |ready|)].revision, HashBefore(s, o, d, ready, |ready|)))
  {
    RowsAreOk(s);
    forall i | 0 <= i < |TrialAt(h, s, o, d).ready|
      ensures
        var ready, k := TrialAt(h, s, o, d).ready, PlaceKey(s, o, d, i);
        PendingAt(s, k) && s.rows[k].revision == ready[i] && Linked(ready[i], HashBefore(s, o, d, ready, i))
    {
      ReadyAt(h, s, o, d, i);
    }
    ReadyEnds(h, s, o, d);
  }

  // --- every outcome ---

  ghost predicate SomeUnready(s: State, o: Owner) {
    exists d :: d in Effects.Joint(s, o) && Pick(s, o.stream, RecoveryCutover(o), d).ready == []
  }

  ghost predicate SomeFailed(h: Digest, s: State, o: Owner) {
    exists d :: d in Effects.Joint(s, o) && TrialAt(h, s, o, d).failed
  }

  function ByKind(o: Owner, cutover: Outcome, package: Outcome, core: Outcome): Outcome {
    if o.status != Owning then cutover else if o.mode == Automatic then package else core
  }

  /** How a run ends: turned away; on domains that do not belong together; waiting for a domain that has to
      start with the others; on one of these that failed; with nothing accepted; on the index; or activated. */
  ghost predicate EndsAs(h: Digest, s: State, o: Owner, outcome: Outcome) {
    if !Effects.MayActivate(s, o) then
      outcome == if o.status == Owning then CutoverRequired
        else if Effects.Recovers(o) then CutoverCursorMismatch else AwaitingOwnership
    else if Effects.Torn(s, o) then outcome == if o.mode == Automatic then InconsistentPackage else InconsistentCore
    else if SomeUnready(s, o) then outcome == ByKind(o, WaitingCutover, WaitingPackage, WaitingCore)
    else if SomeFailed(h, s, o) then outcome == ByKind(o, CutoverQuarantined, PackageQuarantined, CoreQuarantined)
    else if !Effects.SomeAccepted(h, s, o) then
      outcome == if exists k :: k in s.rows && k.stream == o.stream && PendingAt(s, k) then WaitingGaps else Idle
    else if TrialAt(h, s, o, Video).accepted > 0 && !Writable(TrialAt(h, s, o, Video).view.videos) then
      outcome == WriteRefused
    else outcome == if o.status == Owning then Activated else CutoverActivated
  }

  lemma EveryOutcome(h: Digest, s: State, o: Owner)
    requires Inv(s) && s.owner == Some(o)
    ensures EndsAs(h, s, o, Activate(h, s).1)
  {
    RowsAreOk(s);
    Effects.RefusalIff(s, o);
    PlanEnds(s, o, PlanOf(h, s, o));
    if Effects.MayActivate(s, o) {
      GateLabel(s, o);
      if Gate(s, o, RecoveryCutover(o)).None? {
        TrialLabel(h, s, o);
        BatchEnds(h, s, o);
        NothingPendingMeans(s, o.stream);
      }
    }
  }

  lemma PlanEnds(s: State, o: Owner, p: Plan)
    ensures
      var outcome := Run(s, o, p).1;
      if Refusal(s, o).Some? then outcome == Refusal(s, o).value
      else if p.gate.Some? then outcome == p.gate.value
      else if p.stop.Some? then outcome == p.stop.value
      else if p.batch.All() == [] then outcome == if p.idle then Idle else WaitingGaps
      else if p.batch.video != [] && !Writable(p.view.videos) then outcome == WriteRefused
      else outcome == if RecoveryCutover(o) then CutoverActivated else Activated
  {
  }

  lemma BatchEnds(h: Digest, s: State, o: Owner)
    ensures AcceptedBatch(h, s, o, RecoveryCutover(o)).All() != [] <==> Effects.SomeAccepted(h, s, o)
    ensures AcceptedBatch(h, s, o, RecoveryCutover(o)).video != [] <==> TrialAt(h, s, o, Video).accepted > 0
  {
    Effects.AcceptedSome(h, s, o);
  }

  lemma GateLabel(s: State, o: Owner)
    requires Effects.MayActivate(s, o)
    ensures
      var gate := Gate(s, o, RecoveryCutover(o));
      if Effects.Torn(s, o) then gate == Some(if o.mode == Automatic then InconsistentPackage else InconsistentCore)
      else if SomeUnready(s, o) then gate == Some(ByKind(o, WaitingCutover, WaitingPackage, WaitingCore))
      else gate.None?
  {
    Effects.GateIff(s, o);
    if Gate(s, o, RecoveryCutover(o)).Some? {
      GateKind(s, o);
    }
  }

  lemma GateKind(s: State, o: Owner)
    requires Effects.MayActivate(s, o) && Gate(s, o, RecoveryCutover(o)).Some?
    ensures Gate(s, o, RecoveryCutover(o)) ==
      Some(if Effects.Torn(s, o) then if o.mode == Automatic then InconsistentPackage else InconsistentCore
           else ByKind(o, WaitingCutover, WaitingPackage, WaitingCore))
  {
    assert s.cursors.Keys == {} <==> s.cursors == map[];
  }

  lemma TrialLabel(h: Digest, s: State, o: Owner)
    requires Effects.MayActivate(s, o) && Gate(s, o, RecoveryCutover(o)).None?
    ensures
      var stop := TrialGate(h, s, o, RecoveryCutover(o));
      if SomeFailed(h, s, o) then stop == Some(ByKind(o, CutoverQuarantined, PackageQuarantined, CoreQuarantined))
      else stop.None?
  {
    Effects.TrialGateIff(h, s, o);
    if TrialGate(h, s, o, RecoveryCutover(o)).Some? {
      TrialKind(h, s, o);
    }
  }

  lemma TrialKind(h: Digest, s: State, o: Owner)
    requires Effects.MayActivate(s, o) && TrialGate(h, s, o, RecoveryCutover(o)).Some?
    ensures TrialGate(h, s, o, RecoveryCutover(o))
      == Some(ByKind(o, CutoverQuarantined, PackageQuarantined, CoreQuarantined))
  {
  }

  lemma {:induction false} ChainLinks(run: seq<Revision>, expected: nat, tip: Option<Hash>, i: nat)
    requires Chain(run, expected, tip) && i < |run|
    ensures Linked(run[i], if i > 0 then Some(run[i - 1].resultHash) else tip)
  {
    if i > 0 {
      ChainLinks(run[1..], expected + 1, Some(run[0].resultHash), i - 1);
    }
  }

  lemma {:induction false} FactsMean(h: Digest, revs: seq<Revision>)
    ensures
      var n := FactsAccepted(h, revs);
      && n <= |revs| && (forall i | 0 <= i < n :: h.facts(revs[i].document) == revs[i].resultHash)
      && (n < |revs| ==> h.facts(revs[n].document) != revs[n].resultHash)
  {
    if revs != [] {
      FactsMean(h, revs[1..]);
    }
  }

  /** In the channel and agent domains exactly the leading revisions whose payload has its result hash are
      accepted. */
  lemma AcceptedFacts(h: Digest, s: State, o: Owner, d: Domain)
    requires d != Video
    ensures
      var t := TrialAt(h, s, o, d);
      && (forall i | 0 <= i < t.accepted :: h.facts(t.ready[i].document) == t.ready[i].resultHash)
      && (t.accepted < |t.ready| ==> h.facts(t.ready[t.accepted].document) != t.ready[t.accepted].resultHash)
      && (t.failed <==> t.accepted < |t.ready|)
  {
    FactsMean(h, TrialAt(h, s, o, d).ready);
  }

  // --- what a commit stores ---

  ghost function AcceptedAt(h: Digest, s: State, o: Owner, d: Domain): seq<Revision> {
    TrialAt(h, s, o, d).ready[..TrialAt(h, s, o, d).accepted]
  }

  ghost function AcceptedAll(h: Digest, s: State, o: Owner): Batch {
    Batch(AcceptedAt(h, s, o, Channel), AcceptedAt(h, s, o, Video), AcceptedAt(h, s, o, Agent))
  }

  /** The cursor and the current result of each domain are those of its last accepted revision; where nothing was
      accepted they stay. The log gains one entry, with the vectors before and after and all accepted revisions. */
  ghost predicate Stores(s: State, t: State, stream: string, batch: Batch) {
    && (forall d: Domain ::
          if batch.Of(d) == [] then (d in t.cursors <==> d in s.cursors)
            && (d in s.cursors ==> t.cursors[d] == s.cursors[d])
          else
            var r := batch.Of(d)[|batch.Of(d)| - 1];
            d in t.cursors && t.cursors[d] == Cursor(r.stream, r.sequence, r.id, r.resultHash))
    && (forall d: Domain | d != Video ::
          if batch.Of(d) == [] then (d in t.facts <==> d in s.facts) && (d in s.facts ==> t.facts[d] == s.facts[d])
          else d in t.facts && t.facts[d] == batch.Of(d)[|batch.Of(d)| - 1])
    && Video !in t.facts
    && t.header == (if batch.video == [] then s.header else Some(batch.video[|batch.video| - 1]))
    && t.log == s.log + [Activation(stream, s.cursors, t.cursors, batch.channel + batch.video + batch.agent)]
  }

  lemma CommitStores(h: Digest, s: State, o: Owner)
    requires Inv(s) && s.owner == Some(o) && Commits(Activate(h, s).1)
    ensures Stores(s, Activate(h, s).0, o.stream, AcceptedAll(h, s, o))
  {
    var cut, p := RecoveryCutover(o), PlanOf(h, s, o);
    GatesHalt(h, s, o, cut);
    RunCommits(s, o, p);
    BatchStores(s, o, cut, p.rows, p.batch, p.view);
    assert p.batch == AcceptedAll(h, s, o);
  }

  lemma BatchStores(s: State, o: Owner, cut: bool, rows: map<Key, Row>, batch: Batch, view: View)
    requires Currents(s)
    ensures Stores(s, Commit(s, o, cut, rows, batch, view), o.stream, batch)
  {
    CursorsStored(s.cursors, batch);
    FactsStored(s, batch);
  }

  lemma CursorsStored(cursors: map<Domain, Cursor>, batch: Batch)
    ensures
      var stored := CommittedCursors(cursors, batch);
      forall d: Domain ::
        if batch.Of(d) == [] then (d in stored <==> d in cursors) && (d in cursors ==> stored[d] == cursors[d])
        else
          var r := batch.Of(d)[|batch.Of(d)| - 1];
          d in stored && stored[d] == Cursor(r.stream, r.sequence, r.id, r.resultHash)
  {
  }

  lemma FactsStored(s: State, batch: Batch)
    requires Currents(s)
    ensures
      var stored := CommittedFacts(s.facts, batch);
      && Video !in stored
      && forall d: Domain | d != Video ::
           if batch.Of(d) == [] then (d in stored <==> d in s.facts) && (d in s.facts ==> stored[d] == s.facts[d])
           else d in stored && stored[d] == batch.Of(d)[|batch.Of(d)| - 1]
  {
  }

  /** In every history, whatever was activated in the channel and agent domains has the hash of its payload. */
  ghost predicate HashesOk(h: Digest, s: State) {
    forall r | r in Items(s.log) && r.domain != Video :: h.facts(r.document) == r.resultHash
  }

  lemma ActivationKeepsHashes(h: Digest, s: State)
    requires Inv(s) && HashesOk(h, s)
    ensures HashesOk(h, Activate(h, s).0)
  {
    var t := Activate(h, s).0;
    if s.owner.Some? && Commits(Activate(h, s).1) {
      var o := s.owner.value;
      CommitStores(h, s, o);
      LogGrows(s.log, t.log[|s.log|]);
      forall r | r in Items(t.log) && r.domain != Video
        ensures h.facts(r.document) == r.resultHash
      {
        if r !in Items(s.log) {
          AcceptedHashes(h, s, o, r);
        }
      }
    } else {
      LogStays(h, s);
    }
  }

  lemma LogGrows(log: seq<Activation>, last: Activation)
    ensures Items(log + [last]) == Items(log) + last.items
  {
    assert (log + [last])[..|log|] == log;
  }

  lemma AcceptedHashes(h: Digest, s: State, o: Owner, r: Revision)
    requires Inv(s)
    requires r.domain != Video && r in AcceptedAll(h, s, o).All()
    ensures h.facts(r.document) == r.resultHash
  {
    RowsAreOk(s);
    AcceptedFacts(h, s, o, Channel);
    AcceptedFacts(h, s, o, Agent);
    if r in AcceptedAt(h, s, o, Video) {
      AcceptedMembers(h, s, o, RecoveryCutover(o), Video, r);
    }
  }

  lemma LogStays(h: Digest, s: State)
    requires !Commits(Activate(h, s).1)
    ensures Activate(h, s).0.log == s.log
  {
    if s.owner.Some? {
      RunHalts(s, s.owner.value, PlanOf(h, s, s.owner.value));
    }
  }

  lemma {:induction false} HistoryHashes(h: Digest, states: seq<State>)
    requires History(h, states)
    ensures HashesOk(h, states[|states| - 1])
  {
    if |states| > 1 {
      HistoryPrefix(h, states);
      HistoryKeepsInv(h, states[..|states| - 1]);
      HistoryHashes(h, states[..|states| - 1]);
      MoveKeepsHashes(h, states[|states| - 2], states[|states| - 1]);
    }
  }

  lemma MoveKeepsHashes(h: Digest, s: State, s': State)
    requires Inv(s) && HashesOk(h, s) && Moves(h, s, s')
    ensures HashesOk(h, s')
  {
    if s' == Activate(h, s).0 {
      ActivationKeepsHashes(h, s);
    } else {
      Window.OnlyRunsWrite(h, s, s');
    }
  }
}
