/** Without arrivals the activation runs reach a fixpoint. */
module ActivationSettles {
  import opened Prelude
  import opened Publication
  import opened Selection
  import opened VideoReplay
  import opened VideoTable
  import opened Activation
  import opened ActivationRows
  import opened ActivationSafety
  import opened ActivationCommit

  function PendingKeys(rows: map<Key, Row>): set<Key> {
    set k | k in rows && rows[k].valid && Pending(rows[k].status)
  }

  // --- a run never adds to what is pending ---

  lemma QuietShrinks(s: State, rows: map<Key, Row>)
    requires MarksOk(s, rows)
    ensures PendingKeys(rows) <= PendingKeys(s.rows)
  {
    forall k | k in PendingKeys(rows)
      ensures k in PendingKeys(s.rows)
    {
      assert Quiet(s.rows[k], rows[k]);
    }
  }

  lemma CommittedRowsShrink(rows: map<Key, Row>, o: Owner, cut: bool, batch: Batch)
    ensures PendingKeys(CommittedRows(rows, o, cut, batch)) <= PendingKeys(rows)
  {
  }

  lemma AcceptedLeaves(s: State, o: Owner, cut: bool, rows: map<Key, Row>, batch: Batch, d: Domain, r: Revision)
    requires MarksOk(s, rows) && BatchOk(s, o, cut, rows, batch) && r in batch.Of(d)
    ensures KeyOf(r) in PendingKeys(s.rows)
    ensures KeyOf(r) !in PendingKeys(CommittedRows(rows, o, cut, batch))
  {
    assert Fresh(s, o, rows, d, r);
  }

  lemma CommitShrinks(s: State, o: Owner, cut: bool, rows: map<Key, Row>, batch: Batch)
    requires MarksOk(s, rows) && BatchOk(s, o, cut, rows, batch) && batch.All() != []
    ensures PendingKeys(CommittedRows(rows, o, cut, batch)) < PendingKeys(s.rows)
  {
    QuietShrinks(s, rows);
    CommittedRowsShrink(rows, o, cut, batch);
    var r := batch.All()[0];
    var d := if r in batch.channel then Channel else if r in batch.video then Video else Agent;
    assert r in batch.Of(d);
    AcceptedLeaves(s, o, cut, rows, batch, d, r);
  }

  /** A failed trial quarantines a row. */
  lemma FailureShrinks(h: Digest, s: State, o: Owner, cut: bool, agentToo: bool, d: Domain)
    requires RowsOk(s.rows)
    requires Considered(s, o, cut, agentToo, d) && TrialOf(h, s, o.stream, cut, d).failed
    ensures PendingKeys(TriedRows(h, s, o, cut, agentToo)) < PendingKeys(s.rows)
  {
    TriedOk(h, s, o, cut, agentToo);
    var rows := TriedRows(h, s, o, cut, agentToo);
    QuietShrinks(s, rows);
    var t := TrialOf(h, s, o.stream, cut, d);
    var r := t.ready[t.accepted];
    PickMembers(s, o.stream, cut, d, r);
    PickedQuiet(s, o.stream, cut, KeyOf(r));
    assert KeyOf(r) in PendingKeys(s.rows) && rows[KeyOf(r)].status == Quarantined;
  }

  /** A row is quarantined that was not. */
  ghost predicate Quarantines(before: map<Key, Row>, after: map<Key, Row>) {
    exists k | k in before && k in after :: after[k].status == Quarantined && before[k].status != Quarantined
  }

  lemma QuarantineShrinks(s: State, rows: map<Key, Row>)
    requires MarksOk(s, rows) && Quarantines(s.rows, rows)
    ensures PendingKeys(rows) < PendingKeys(s.rows)
  {
    QuietShrinks(s, rows);
    var k :| k in s.rows && k in rows && rows[k].status == Quarantined && s.rows[k].status != Quarantined;
    assert Quiet(s.rows[k], rows[k]);
    assert k in PendingKeys(s.rows) && k !in PendingKeys(rows);
  }

  /** A run that changes anything but the marks of rows, or quarantines a row, leaves strictly less
      pending; no run leaves more. */
  lemma RunShrinks(s: State, o: Owner, p: Plan)
    requires Inv(s) && s.owner == Some(o) && PlanOk(s, o, p)
    ensures
      var t := Run(s, o, p).0;
      && PendingKeys(t.rows) <= PendingKeys(s.rows)
      && (t != s.(rows := t.rows) || Quarantines(s.rows, t.rows) ==> PendingKeys(t.rows) < PendingKeys(s.rows))
  {
    RowsAreOk(s);
    var t := Run(s, o, p).0;
    if Commits(Run(s, o, p).1) {
      RunCommits(s, o, p);
      CommitShrinks(s, o, RecoveryCutover(o), p.rows, p.batch);
    } else {
      RunMarks(s, o, p);
      QuietShrinks(s, t.rows);
      if Quarantines(s.rows, t.rows) {
        QuarantineShrinks(s, t.rows);
      }
    }
  }

  // --- a run that leaves the pending rows as they are would not change anything again ---

  /** The two states differ in row marks only, and the same rows are pending. */
  ghost predicate SamePending(s: State, t: State) {
    && t == s.(rows := t.rows) && MarksOk(s, t.rows)
    && PendingKeys(t.rows) == PendingKeys(s.rows)
  }

  lemma {:induction false} RowsAtSame(rows: map<Key, Row>, marked: map<Key, Row>, stream: string, d: Domain,
                                      sequences: seq<nat>)
    requires forall n | n in sequences :: Key(stream, d, n) in rows && Key(stream, d, n) in marked
    requires forall n | n in sequences :: marked[Key(stream, d, n)].revision == rows[Key(stream, d, n)].revision
    ensures RowsAt(marked, stream, d, sequences) == RowsAt(rows, stream, d, sequences)
    decreases sequences
  {
    if sequences != [] {
      RowsAtSame(rows, marked, stream, d, sequences[1..]);
    }
  }

  lemma SequencesSame(s: State, t: State, stream: string, d: Domain)
    requires SamePending(s, t)
    ensures PendingSequences(t.rows, stream, d) == PendingSequences(s.rows, stream, d)
  {
    forall n: nat
      ensures n in PendingSequences(t.rows, stream, d) <==> n in PendingSequences(s.rows, stream, d)
    {
      var k := Key(stream, d, n);
      assert k in PendingKeys(t.rows) <==> k in PendingKeys(s.rows);
    }
  }

  lemma PickSame(s: State, t: State, stream: string, cut: bool, d: Domain)
    requires SamePending(s, t)
    ensures Pick(t, stream, cut, d) == Pick(s, stream, cut, d)
  {
    SequencesSame(s, t, stream, d);
    var sequences := Sorted(PendingSequences(s.rows, stream, d));
    forall n | n in sequences
      ensures Key(stream, d, n) in s.rows && t.rows[Key(stream, d, n)].revision == s.rows[Key(stream, d, n)].revision
    {
      assert n in PendingSequences(s.rows, stream, d);
      assert Quiet(s.rows[Key(stream, d, n)], t.rows[Key(stream, d, n)]);
    }
    RowsAtSame(s.rows, t.rows, stream, d, sequences);
  }

  lemma PickedAgain(s: State, stream: string, cut: bool)
    requires SamePending(s, s.(rows := PickedRows(s, stream, cut)))
    ensures PickedRows(s.(rows := PickedRows(s, stream, cut)), stream, cut) == PickedRows(s, stream, cut)
  {
    var t := s.(rows := PickedRows(s, stream, cut));
    forall k | k in s.rows
      ensures PickedRows(t, stream, cut)[k] == t.rows[k]
    {
      PickSame(s, t, stream, cut, k.domain);
    }
  }

  lemma GateSame(s: State, t: State, o: Owner, cut: bool)
    requires SamePending(s, t)
    ensures Gate(t, o, cut) == Gate(s, o, cut)
  {
    forall d: Domain
      ensures Missing(t, o.stream, cut, d) == Missing(s, o.stream, cut, d)
    {
      PickSame(s, t, o.stream, cut, d);
    }
    assert MissingDomains(t, o.stream, cut) == MissingDomains(s, o.stream, cut);
  }

  /** Nothing that is tried fails. */
  ghost predicate AllPass(h: Digest, s: State, o: Owner, cut: bool) {
    forall d: Domain | Considered(s, o, cut, true, d) :: !TrialOf(h, s, o.stream, cut, d).failed
  }

  lemma TriedIsPicked(h: Digest, s: State, o: Owner, cut: bool)
    requires AllPass(h, s, o, cut)
    ensures TriedRows(h, s, o, cut, true) == PickedRows(s, o.stream, cut)
  {
    forall k | k in s.rows
      ensures TriedRow(h, s, o, cut, true, k) == PickedRows(s, o.stream, cut)[k]
    {
    }
  }

  lemma TrialSame(h: Digest, s: State, t: State, o: Owner, cut: bool, d: Domain)
    requires SamePending(s, t)
    ensures TrialOf(h, t, o.stream, cut, d) == TrialOf(h, s, o.stream, cut, d)
    ensures Considered(t, o, cut, true, d) == Considered(s, o, cut, true, d)
  {
    PickSame(s, t, o.stream, cut, d);
  }

  lemma PassesNoStop(h: Digest, s: State, o: Owner, cut: bool)
    requires AllPass(h, s, o, cut)
    ensures TrialGate(h, s, o, cut).None?
  {
    forall d: Domain
      ensures !Fails(h, s, o, cut, d)
    {
      assert Considered(s, o, cut, false, d) ==> Considered(s, o, cut, true, d);
    }
  }

  /** If the trials of the run left the pending rows as they were, none of them failed. */
  lemma UnchangedMeansPass(h: Digest, s: State, o: Owner, cut: bool)
    requires RowsOk(s.rows)
    requires PendingKeys(TriedRows(h, s, o, cut, true)) == PendingKeys(s.rows)
    ensures AllPass(h, s, o, cut)
  {
    forall d: Domain | Considered(s, o, cut, true, d)
      ensures !TrialOf(h, s, o.stream, cut, d).failed
    {
      if TrialOf(h, s, o.stream, cut, d).failed {
        FailureShrinks(h, s, o, cut, true, d);
      }
    }
  }

  lemma StopShrinks(h: Digest, s: State, o: Owner, cut: bool)
    requires RowsOk(s.rows) && TrialGate(h, s, o, cut).Some?
    ensures PendingKeys(TriedRows(h, s, o, cut, false)) < PendingKeys(s.rows)
  {
    var d := if Fails(h, s, o, cut, Channel) then Channel else if Fails(h, s, o, cut, Video) then Video else Agent;
    assert Fails(h, s, o, cut, d);
    FailureShrinks(h, s, o, cut, false, d);
  }

  /** The run after a run that only marked rows and passed its trials plans the same. */
  lemma PlansTheSame(h: Digest, s: State, o: Owner)
    requires RowsOk(s.rows) && AllPass(h, s, o, RecoveryCutover(o))
    requires SamePending(s, s.(rows := PlanOf(h, s, o).rows))
    ensures
      var p := PlanOf(h, s, o);
      var q := PlanOf(h, s.(rows := p.rows), o);
      q.gate == p.gate && q.stop.None? && q.batch == p.batch && q.rows == p.rows
  {
    var cut := RecoveryCutover(o);
    TriedIsPicked(h, s, o, cut);
    var t := s.(rows := PickedRows(s, o.stream, cut));
    GateSame(s, t, o, cut);
    forall d: Domain
      ensures TrialOf(h, t, o.stream, cut, d) == TrialOf(h, s, o.stream, cut, d)
      ensures Considered(t, o, cut, true, d) == Considered(s, o, cut, true, d)
    {
      TrialSame(h, s, t, o, cut, d);
    }
    PassesNoStop(h, t, o, cut);
    TriedIsPicked(h, t, o, cut);
    PickedAgain(s, o.stream, cut);
  }

  lemma RefusedAgain(s: State, o: Owner, p: Plan, q: Plan)
    requires Refusal(s, o).Some?
    ensures Run(Run(s, o, p).0, o, q).0 == Run(s, o, p).0
  {
    if Refusal(s, o) == Some(AwaitingOwnership) {
      assert Await(Await(s)) == Await(s);
    }
  }

  lemma GatedAgain(s: State, o: Owner, p: Plan, q: Plan)
    requires Refusal(s, o).None? && p.gate.Some?
    requires q.gate == p.gate && q.picked == p.picked
    ensures Run(Run(s, o, p).0, o, q).0 == Run(s, o, p).0
  {
  }

  lemma IdleAgain(s: State, o: Owner, p: Plan, q: Plan)
    requires Refusal(s, o).None? && p.gate.None? && p.stop.None? && p.batch.All() == []
    requires q.gate.None? && q.stop.None? && q.batch == p.batch && q.rows == p.rows
    ensures Run(Run(s, o, p).0, o, q).0 == Run(s, o, p).0
  {
  }

  /** If a run leaves as much pending as before, the next run changes nothing at all. */
  lemma QuietRunIsLast(h: Digest, s: State)
    requires Inv(s)
    requires PendingKeys(Activate(h, s).0.rows) == PendingKeys(s.rows)
    ensures Activate(h, Activate(h, s).0).0 == Activate(h, s).0
  {
    RowsAreOk(s);
    if s.owner.None? {
      assert Await(Await(s)) == Await(s);
    } else {
      PlanIsOk(h, s, s.owner.value);
      QuietPlanIsLast(h, s, s.owner.value);
    }
  }

  lemma QuietPlanIsLast(h: Digest, s: State, o: Owner)
    requires Inv(s) && s.owner == Some(o) && PlanOk(s, o, PlanOf(h, s, o)) && RowsOk(s.rows)
    requires PendingKeys(Run(s, o, PlanOf(h, s, o)).0.rows) == PendingKeys(s.rows)
    ensures
      var t := Run(s, o, PlanOf(h, s, o)).0;
      t.owner == s.owner && Run(t, o, PlanOf(h, t, o)).0 == t
  {
    var cut, p := RecoveryCutover(o), PlanOf(h, s, o);
    if Refusal(s, o).Some? {
      QuietRefused(s, o, p, PlanOf(h, Run(s, o, p).0, o));
    } else if p.gate.Some? {
      var t := s.(rows := p.picked);
      GateSame(s, t, o, cut);
      PickedAgain(s, o.stream, cut);
      GatedAgain(s, o, p, PlanOf(h, t, o));
    } else if p.stop.Some? {
      StopShrinks(h, s, o, cut);
    } else if p.batch.All() == [] {
      UnchangedMeansPass(h, s, o, cut);
      PlansTheSame(h, s, o);
      IdleAgain(s, o, p, PlanOf(h, s.(rows := p.rows), o));
    } else {
      QuietCommit(s, o, p);
    }
  }

  lemma QuietRefused(s: State, o: Owner, p: Plan, q: Plan)
    requires Refusal(s, o).Some?
    ensures Run(s, o, p).0.owner == s.owner
    ensures Run(Run(s, o, p).0, o, q).0 == Run(s, o, p).0
  {
    RefusedAgain(s, o, p, q);
  }

  lemma QuietCommit(s: State, o: Owner, p: Plan)
    requires Inv(s) && s.owner == Some(o) && PlanOk(s, o, p)
    requires Refusal(s, o).None? && p.gate.None? && p.stop.None? && p.batch.All() != []
    requires PendingKeys(Run(s, o, p).0.rows) == PendingKeys(s.rows)
    ensures Run(s, o, p).0 == s
  {
    if Commits(Run(s, o, p).1) {
      RunCommits(s, o, p);
      CommitShrinks(s, o, RecoveryCutover(o), p.rows, p.batch);
    }
  }

  lemma ActivationShrinks(h: Digest, s: State)
    requires Inv(s)
    ensures
      var t := Activate(h, s).0;
      && PendingKeys(t.rows) <= PendingKeys(s.rows)
      && (t != s.(rows := t.rows) || Quarantines(s.rows, t.rows) ==> PendingKeys(t.rows) < PendingKeys(s.rows))
  {
    RowsAreOk(s);
    if s.owner.Some? {
      PlanIsOk(h, s, s.owner.value);
      RunShrinks(s, s.owner.value, PlanOf(h, s, s.owner.value));
    } else {
      AwaitOk(s);
      QuietShrinks(s, Await(s).rows);
    }
  }

  /** A run reaches a fixpoint, or leaves less to do. */
  lemma SettleStep(h: Digest, s: State, t: State)
    requires Inv(s) && t == Activate(h, s).0
    ensures Inv(t)
    ensures Activate(h, t).0 == t || |PendingKeys(t.rows)| < |PendingKeys(s.rows)|
  {
    ActivationShrinks(h, s);
    ActivationKeepsInv(h, s);
    if PendingKeys(t.rows) == PendingKeys(s.rows) {
      QuietRunIsLast(h, s);
    } else {
      Smaller(PendingKeys(t.rows), PendingKeys(s.rows));
    }
  }

  /** One run, as a step on states. */
  ghost function Runner(h: Digest): State -> State {
    s => Activate(h, s).0
  }

  /** Without arrivals and ownership changes a fixpoint is reached after at most one run more than
      there are pending revisions. */
  lemma Settles(h: Digest, s: State, n: nat)
    requires Inv(s) && n > |PendingKeys(s.rows)|
    ensures
      var t := Power(Runner(h), s, n);
      Activate(h, t).0 == t
  {
    var keeps := x => Inv(x);
    var size := (x: State) => |PendingKeys(x.rows)|;
    forall x | keeps(x)
      ensures Progresses(Runner(h), keeps, size, x)
    {
      SettleStep(h, x, Activate(h, x).0);
    }
    PowerSettles(Runner(h), keeps, size, s, n);
  }

  lemma Smaller(a: set<Key>, b: set<Key>)
    requires a < b
    ensures |a| < |b|
  {
    assert b == a + (b - a);
    assert b - a != {};
  }
}
