/** What sending a row and marking it does to the row, its plan and the queue, written out. */
module OutboxMarks {
  import opened Prelude
  import opened Outbox

  /** The mark finds the row: it is being published under a lease of the publisher. */
  ghost predicate Found(s: System, f: Flight) {
    && f.plan in s.outbox && s.outbox[f.plan].status == Publishing
    && s.outbox[f.plan].lease.Some? && s.outbox[f.plan].lease.value.owner == f.owner
  }

  /** The plan carries a lease of the publisher. */
  ghost predicate PlanLeased(s: System, f: Flight) {
    f.plan in s.plans && s.plans[f.plan].lease.Some? && s.plans[f.plan].lease.value.owner == f.owner
  }

  /** Everything but the row and the plan of the flight is as it was. */
  ghost predicate OthersSame(s: System, t: System, id: string) {
    && t.now == s.now && t.queue == s.queue && t.flights == s.flights
    && t.plans.Keys == s.plans.Keys && t.outbox.Keys == s.outbox.Keys
    && (forall x | x in s.plans && x != id :: t.plans[x] == s.plans[x])
    && (forall x | x in s.outbox && x != id :: t.outbox[x] == s.outbox[x])
  }

  /** markPublished. The row is published and both leases end; a plan that was dispatching is dispatched, any
      other keeps its status. It is lost if the row is not leased to the publisher; it throws if the plan is
      neither leased to it while dispatching or running, nor finished. */
  ghost predicate PublishRight(s: System, t: System, f: Flight, marked: Marked) {
    && (marked == Lost <==> !Found(s, f))
    && (marked == Done <==>
          && Found(s, f) && f.plan in s.plans
          && var status := s.plans[f.plan].status;
          || status == Succeeded || status == Partial || status == Failed
          || ((status == Dispatching || status == Running) && PlanLeased(s, f)))
    && (marked != Done ==> t == s)
    && (marked == Done ==>
          && OthersSame(s, t, f.plan) && t.returned == s.returned
          && t.outbox[f.plan] == s.outbox[f.plan].(status := Published, lease := None)
          && t.plans[f.plan] == s.plans[f.plan].(
               status := if s.plans[f.plan].status == Dispatching then Dispatched else s.plans[f.plan].status,
               lease := None))
  }

  /** markFailed. The row goes back to pending until the retry time, its plan back to planned; or the row is a
      dead letter and the plan failed. It throws unless the plan is dispatching and leased to the publisher. */
  ghost predicate FailRight(s: System, t: System, f: Flight, deadLetter: bool, retryAt: nat, marked: Marked) {
    && (marked == Lost <==> !Found(s, f))
    && (marked == Done <==> Found(s, f) && PlanLeased(s, f) && s.plans[f.plan].status == Dispatching)
    && (marked != Done ==> t == s)
    && (marked == Done ==>
          && OthersSame(s, t, f.plan)
          && t.outbox[f.plan] == (if deadLetter then s.outbox[f.plan].(status := DeadLetter, lease := None)
               else s.outbox[f.plan].(status := RowStatus.Pending, nextAttempt := retryAt, lease := None))
          && t.plans[f.plan] == s.plans[f.plan].(status := if deadLetter then Failed else Planned, lease := None))
  }

  /** publishDispatchOutboxRow. A row that does not validate is never sent. Otherwise the job is added under
      its id unless one is there, and if the call succeeds the job that is there must carry the payload. What
      is refused for its content is given up at once; what failed for another reason when the attempts are
      used up. */
  ghost predicate SendRight(c: Config, before: map<Text, Text>, after: map<Text, Text>, f: Flight, fault: Fault,
                            phase: Phase) {
    var valid := c.accepts(f.plan, f.job, f.payload, f.scheduledAt);
    && after == (if valid && fault != NotAdded && f.job !in before then before[f.job := f.payload] else before)
    && (phase == Enqueued <==> valid && fault == NoFault && (f.job in before ==> before[f.job] == f.payload))
    && (phase != Enqueued ==> phase == Refused(
          !valid || (fault == NoFault && f.job in before) || (fault != NoFault && f.attempt >= c.maxAttempts)))
  }

  lemma MarksAreRight(s: System, f: Flight, deadLetter: bool, retryAt: nat)
    ensures PublishRight(s, MarkPublished(s, f).0, f, MarkPublished(s, f).1)
    ensures FailRight(s, MarkFailed(s, f, deadLetter, retryAt).0, f, deadLetter, retryAt,
                      MarkFailed(s, f, deadLetter, retryAt).1)
  {
  }

  lemma SendIsRight(c: Config, queue: map<Text, Text>, f: Flight, fault: Fault)
    ensures SendRight(c, queue, QueueAfter(c, queue, f, fault), f, fault, PhaseAfter(c, queue, f, fault))
  {
  }

  /** How a row that is sent once, undisturbed, ends: published if its job is in the queue with its payload,
      given up if its content is refused or its attempts are used up, and waiting again otherwise. */
  ghost predicate EndRight(c: Config, queue: map<Text, Text>, f: Flight, fault: Fault, status: RowStatus) {
    var valid := c.accepts(f.plan, f.job, f.payload, f.scheduledAt);
    var taken := f.job in queue && queue[f.job] != f.payload;
    if !valid || (fault == NoFault && taken) then status == DeadLetter
    else if fault == NoFault then status == Published
    else status == if f.attempt >= c.maxAttempts then DeadLetter else RowStatus.Pending
  }
}
