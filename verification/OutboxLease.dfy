/** The leases of an outbox row and of its plan, and what the consumer may do to them. */
module OutboxLease {
  import opened Prelude
  import opened Outbox
  import opened OutboxSafety

  /** Pending: the plan is planned. Publishing: the plan is finished, or it is dispatching or running
      under the very lease of the row. Otherwise the row is done, and the plan is past dispatching. */
  predicate Coupled(row: Row, plan: Plan) {
    match row.status
    case Pending => plan.status == Planned && plan.lease.None? && row.lease.None?
    case Publishing =>
      && row.lease.Some?
      && if Finished(plan.status) then plan.lease.None?
         else (plan.status == Dispatching || plan.status == Running) && plan.lease == row.lease
    case _ => plan.status != Planned && plan.status != Dispatching
  }

  ghost predicate AllCoupled(s: System) {
    && (forall id | id in s.outbox :: id in s.plans && Coupled(s.outbox[id], s.plans[id]))
    && (forall id | id in s.plans && id !in s.outbox :: s.plans[id].lease.None?)
  }

  /** What the publisher relies on: the consumer leaves a plan alone while its row waits, does not
      cancel it while its row is being published, and does not take it back to running once finished. */
  predicate Considerate(row: RowStatus, from: PlanStatus, to: PlanStatus) {
    match row
    case Pending => false
    case Publishing => to != Cancelled && (to == Running ==> !Finished(from))
    case _ => true
  }

  /** A move of the applier keeps the coupling if and only if it is considerate. */
  lemma CouplingKeptIff(row: Row, plan: Plan, to: PlanStatus)
    requires Coupled(row, plan) && Applies(plan.status, to)
    ensures Coupled(row, Applied(plan, to)) <==> Considerate(row.status, plan.status, to)
  {
  }

  predicate ConsiderateStep(s: System, step: Step) {
    step.Apply? && step.id in s.outbox && step.id in s.plans ==>
      Considerate(s.outbox[step.id].status, s.plans[step.id].status, step.to)
  }

  lemma ClaimKeepsCoupling(s: System, ids: set<string>, lease: Lease)
    requires AllCoupled(s) && (forall id | id in ids :: id in s.plans && id in s.outbox)
    ensures AllCoupled(Claim(s, ids, lease))
  {
  }

  lemma ConfirmKeepsCoupling(c: Config, s: System, f: Flight)
    requires AllCoupled(s)
    ensures AllCoupled(Confirm(c, s, f))
  {
    var t := Confirm(c, s, f);
    forall id | id in t.outbox
      ensures id in t.plans && Coupled(t.outbox[id], t.plans[id])
    {
      assert Coupled(s.outbox[id], s.plans[id]);
    }
  }

  lemma ReportKeepsCoupling(s: System, f: Flight, deadLetter: bool, retryAt: nat)
    requires AllCoupled(s)
    ensures AllCoupled(Report(s, f, deadLetter, retryAt))
  {
    var t := Report(s, f, deadLetter, retryAt);
    forall id | id in t.outbox
      ensures id in t.plans && Coupled(t.outbox[id], t.plans[id])
    {
      assert Coupled(s.outbox[id], s.plans[id]);
    }
  }

  lemma ApplyKeepsCoupling(s: System, id: string, to: PlanStatus)
    requires AllCoupled(s) && id in s.plans && Applies(s.plans[id].status, to)
    requires id in s.outbox ==> Considerate(s.outbox[id].status, s.plans[id].status, to)
    ensures AllCoupled(s.(plans := s.plans[id := Applied(s.plans[id], to)]))
  {
    var t := s.(plans := s.plans[id := Applied(s.plans[id], to)]);
    forall x | x in t.outbox
      ensures x in t.plans && Coupled(t.outbox[x], t.plans[x])
    {
      assert Coupled(s.outbox[x], s.plans[x]);
      if x == id {
        CouplingKeptIff(s.outbox[id], s.plans[id], to);
      }
    }
  }

  lemma StepKeepsCoupling(c: Config, s: System, step: Step)
    requires AllCoupled(s) && Enabled(c, s, step) && ConsiderateStep(s, step)
    ensures AllCoupled(After(c, s, step))
  {
    match step
    case ClaimSome(ids, owner, expires) => ClaimKeepsCoupling(s, ids, Lease(owner, expires));
    case ConfirmOne(f) => ConfirmKeepsCoupling(c, s, f);
    case ReportOne(f, retryAt) => ReportKeepsCoupling(s, f, f.phase.deadLetter, retryAt);
    case Apply(id, to) => ApplyKeepsCoupling(s, id, to);
    case _ =>
  }

  ghost predicate ConsiderateRun(c: Config, states: seq<System>, steps: seq<Step>) {
    Run(c, states, steps) && forall i | 0 <= i < |steps| :: ConsiderateStep(states[i], steps[i])
  }

  /** With a considerate consumer the leases of rows and plans stay coupled in every run, with any
      number of publishers, crashes and expired leases. */
  lemma {:induction false} RunKeepsCoupling(c: Config, states: seq<System>, steps: seq<Step>)
    requires ConsiderateRun(c, states, steps)
    ensures AllCoupled(states[|steps|])
    decreases |steps|
  {
    if steps != [] {
      var n := |steps| - 1;
      RunPrefix(c, states, steps);
      forall i | 0 <= i < n
        ensures ConsiderateStep(states[..n + 1][i], steps[..n][i])
      {
        assert ConsiderateStep(states[i], steps[i]);
      }
      RunKeepsCoupling(c, states[..n + 1], steps[..n]);
      StepKeepsCoupling(c, states[n], steps[n]);
    }
  }

  /** markPublished by the holder of the lease never throws in such a run; markFailed throws if and only
      if the consumer has moved the plan on from dispatching. */
  lemma HolderMarks(c: Config, states: seq<System>, steps: seq<Step>, f: Flight, deadLetter: bool, retryAt: nat)
    requires ConsiderateRun(c, states, steps) && HoldsIn(states[|steps|], f)
    ensures
      var s := states[|steps|];
      && MarkPublished(s, f).1 == Done
      && f.plan in s.plans
      && (MarkFailed(s, f, deadLetter, retryAt).1 == Threw <==> s.plans[f.plan].status != Dispatching)
  {
    RunKeepsCoupling(c, states, steps);
  }

  lemma CoupledIsConsiderate(c: Config, s: System, step: Step)
    requires AllCoupled(s) && Enabled(c, s, step) && AllCoupled(After(c, s, step))
    ensures ConsiderateStep(s, step)
  {
    if step.Apply? && step.id in s.outbox {
      CouplingKeptIff(s.outbox[step.id], s.plans[step.id], step.to);
    }
  }

  /** A run keeps rows and plans coupled in every state if and only if its consumer is considerate. */
  lemma CoupledRunIff(c: Config, states: seq<System>, steps: seq<Step>)
    requires Run(c, states, steps)
    ensures (forall i | 0 <= i < |states| :: AllCoupled(states[i])) <==> ConsiderateRun(c, states, steps)
  {
    if ConsiderateRun(c, states, steps) {
      forall i | 0 <= i < |states|
        ensures AllCoupled(states[i])
      {
        ConsiderateUpTo(c, states, steps, i);
      }
    } else if forall i | 0 <= i < |states| :: AllCoupled(states[i]) {
      var i :| 0 <= i < |steps| && !ConsiderateStep(states[i], steps[i]);
      assert Enabled(c, states[i], steps[i]) && states[i + 1] == After(c, states[i], steps[i]);
      CoupledIsConsiderate(c, states[i], steps[i]);
    }
  }

  lemma {:induction false} ConsiderateUpTo(c: Config, states: seq<System>, steps: seq<Step>, i: nat)
    requires ConsiderateRun(c, states, steps) && i < |states|
    ensures AllCoupled(states[i])
  {
    if i > 0 {
      ConsiderateUpTo(c, states, steps, i - 1);
      assert Enabled(c, states[i - 1], steps[i - 1]) && states[i - 1 + 1] == After(c, states[i - 1], steps[i - 1]);
      StepKeepsCoupling(c, states[i - 1], steps[i - 1]);
    }
  }
}
