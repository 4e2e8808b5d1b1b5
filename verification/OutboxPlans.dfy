/** What can happen to a plan: its next status, and when it carries a lease. */
module OutboxPlans {
  import opened Prelude
  import opened Outbox
  import opened OutboxMarks

  // --- the next status ---

  /** The consumer starts or finishes any plan that has neither succeeded nor been cancelled, and cancels those
      that are not finished. */
  ghost predicate ConsumerMay(from: PlanStatus, to: PlanStatus) {
    || (to in {Running, Succeeded, Partial, Failed} && from !in {Succeeded, Cancelled})
    || (to == Cancelled && from in {Planned, Dispatching, Dispatched, Running})
  }

  /** A publisher that holds the leases of the row and of its dispatching plan is about to mark it published. */
  ghost predicate AboutToPublish(s: System, id: string)
    requires id in s.plans
  {
    && s.plans[id].status == Dispatching
    && exists f :: f in s.flights && f.plan == id && f.phase == Enqueued && Found(s, f) && PlanLeased(s, f)
  }

  /** Such a publisher is about to return the row, or to give it up. */
  ghost predicate AboutToReport(s: System, id: string, deadLetter: bool)
    requires id in s.plans
  {
    && s.plans[id].status == Dispatching
    && exists f :: f in s.flights && f.plan == id && f.phase == Refused(deadLetter) && Found(s, f) && PlanLeased(s, f)
  }

  ghost predicate MayBecome(s: System, id: string, to: PlanStatus)
    requires id in s.plans
  {
    || to == s.plans[id].status
    || ConsumerMay(s.plans[id].status, to)
    || (to == Dispatching && Due(s, id))
    || (to == Dispatched && AboutToPublish(s, id))
    || (to == Planned && AboutToReport(s, id, false))
    || (to == Failed && AboutToReport(s, id, true))
  }

  ghost predicate Becomes(c: Config, s: System, step: Step, id: string, to: PlanStatus) {
    Enabled(c, s, step) && id in After(c, s, step).plans && After(c, s, step).plans[id].status == to
  }

  /** Which statuses a plan can have next, in every state: its own, those that the consumer may give it,
      dispatching if its row is due, dispatched, planned or failed if a holder of the leases is about to mark it. */
  lemma NextStatusIff(c: Config, s: System, id: string, to: PlanStatus)
    requires id in s.plans
    ensures (exists step :: Becomes(c, s, step, id, to)) <==> MayBecome(s, id, to)
  {
    if step :| Becomes(c, s, step, id, to) {
      StepGives(c, s, step, id);
    }
    if MayBecome(s, id, to) {
      var step := StepTo(c, s, id, to);
    }
  }

  lemma StepGives(c: Config, s: System, step: Step, id: string)
    requires Enabled(c, s, step) && id in s.plans
    ensures id in After(c, s, step).plans && MayBecome(s, id, After(c, s, step).plans[id].status)
  {
    match step
    case ClaimSome(ids, owner, expires) => DueIff(s, id);
    case ConfirmOne(f) => MarksAreRight(s, f, false, 0);
    case ReportOne(f, retryAt) => MarksAreRight(s, f, f.phase.deadLetter, retryAt);
    case _ =>
  }

  lemma StepTo(c: Config, s: System, id: string, to: PlanStatus) returns (step: Step)
    requires id in s.plans && MayBecome(s, id, to)
    ensures Becomes(c, s, step, id, to)
  {
    if to == s.plans[id].status {
      step := Tick(s.now);
    } else if ConsumerMay(s.plans[id].status, to) {
      step := Step.Apply(id, to);
    } else if to == Dispatching {
      DueIff(s, id);
      step := ClaimSome({id}, "", 0);
    } else if to == Dispatched {
      step := StepPublish(c, s, id);
    } else {
      step := StepReport(c, s, id, to == Failed);
    }
  }

  lemma StepPublish(c: Config, s: System, id: string) returns (step: Step)
    requires id in s.plans && AboutToPublish(s, id)
    ensures Becomes(c, s, step, id, Dispatched)
  {
    var f :| f in s.flights && f.plan == id && f.phase == Enqueued && Found(s, f) && PlanLeased(s, f);
    MarksAreRight(s, f, false, 0);
    step := ConfirmOne(f);
  }

  lemma StepReport(c: Config, s: System, id: string, deadLetter: bool) returns (step: Step)
    requires id in s.plans && AboutToReport(s, id, deadLetter)
    ensures Becomes(c, s, step, id, if deadLetter then Failed else Planned)
  {
    var f :| f in s.flights && f.plan == id && f.phase == Refused(deadLetter) && Found(s, f) && PlanLeased(s, f);
    MarksAreRight(s, f, deadLetter, 0);
    step := ReportOne(f, 0);
  }

  // --- leases of plans ---

  /** A dispatching plan carries a lease, and no other plan does but one that was started under it. */
  ghost predicate LeasedWhile(s: System) {
    forall id | id in s.plans ::
      && (s.plans[id].status == Dispatching ==> s.plans[id].lease.Some?)
      && (s.plans[id].lease.Some? ==> s.plans[id].status == Dispatching || s.plans[id].status == Running)
  }

  lemma StepKeepsLeased(c: Config, s: System, step: Step)
    requires LeasedWhile(s) && Enabled(c, s, step)
    ensures LeasedWhile(After(c, s, step))
  {
  }

  lemma {:induction false} RunKeepsLeased(c: Config, states: seq<System>, steps: seq<Step>, i: nat)
    requires Run(c, states, steps) && i < |states|
    ensures LeasedWhile(states[i])
  {
    if i > 0 {
      RunKeepsLeased(c, states, steps, i - 1);
      StepKeepsLeased(c, states[i - 1], steps[i - 1]);
      assert states[i - 1 + 1] == After(c, states[i - 1], steps[i - 1]);
    }
  }
}
