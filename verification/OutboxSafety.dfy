/** What holds of the outbox in every state of every run, whatever the consumer does. */
module OutboxSafety {
  import opened Prelude
  import opened Outbox

  /** Why a row may be given up: the attempts are used up, the row does not validate, or the queue holds
      another payload under its job id. */
  predicate Hopeless(c: Config, queue: map<Text, Text>, attempts: nat, id: string, job: Text,
                     payload: Text, scheduledAt: Option<nat>) {
    || attempts >= c.maxAttempts
    || !c.accepts(id, job, payload, scheduledAt)
    || (job in queue && queue[job] != payload)
  }

  predicate Enqueues(queue: map<Text, Text>, job: Text, payload: Text) {
    job in queue && queue[job] == payload
  }

  ghost predicate RowOk(c: Config, id: string, row: Row, plan: Plan, queue: map<Text, Text>, returned: set<nat>) {
    && plan.scheduledAt == Some(row.releasedAt) && InWindow(row.releasedAt)
    && (row.job, row.payload) == c.envelope(id, row.releasedAt)
    && plan.attempts == row.attempts
    && (row.status == Publishing <==> row.lease.Some?)
    && (row.status == Published ==> Enqueues(queue, row.job, row.payload))
    && (row.status == DeadLetter ==> Hopeless(c, queue, row.attempts, id, row.job, row.payload, Some(row.releasedAt)))
    && (forall n | n in returned :: 0 < n <= row.attempts && n < c.maxAttempts)
  }

  ghost predicate FlightOk(c: Config, f: Flight, row: Row, queue: map<Text, Text>, returned: set<nat>) {
    && f.job == row.job && f.payload == row.payload && f.scheduledAt == Some(row.releasedAt)
    && 0 < f.attempt <= row.attempts && f.attempt !in returned
    && (f.phase == Enqueued ==> Enqueues(queue, f.job, f.payload))
    && (f.phase == Refused(true) ==> Hopeless(c, queue, f.attempt, f.plan, f.job, f.payload, f.scheduledAt))
    && (f.phase == Refused(false) ==> f.attempt < c.maxAttempts)
  }

  ghost predicate RowsOk(c: Config, s: System) {
    && (forall id | id in s.outbox ::
          id in s.plans && RowOk(c, id, s.outbox[id], s.plans[id], s.queue, Returned(s, id)))
    && (forall id | id in s.returned :: id in s.outbox)
  }

  /** A plan has a scheduled_at only if it has an outbox row; before that it has not been attempted. */
  ghost predicate PlansOk(s: System) {
    forall id | id in s.plans :: if s.plans[id].scheduledAt.Some? then id in s.outbox else s.plans[id].attempts == 0
  }

  ghost predicate JobsUnique(s: System) {
    forall a, b | a in s.outbox && b in s.outbox && s.outbox[a].job == s.outbox[b].job :: a == b
  }

  ghost predicate FlightsOk(c: Config, s: System) {
    && (forall f | f in s.flights ::
          f.plan in s.outbox && FlightOk(c, f, s.outbox[f.plan], s.queue, Returned(s, f.plan)))
    && (forall f, g | f in s.flights && g in s.flights && f.plan == g.plan && f.attempt == g.attempt :: f == g)
  }

  ghost predicate Inv(c: Config, s: System) {
    RowsOk(c, s) && PlansOk(s) && JobsUnique(s) && FlightsOk(c, s)
  }

  // --- the queue only grows ---

  predicate Extends(queue: map<Text, Text>, more: map<Text, Text>) {
    forall job | job in queue :: job in more && more[job] == queue[job]
  }

  lemma QueueExtends(c: Config, queue: map<Text, Text>, f: Flight, fault: Fault)
    ensures Extends(queue, QueueAfter(c, queue, f, fault))
  {
  }

  lemma MoreQueue(c: Config, s: System, queue: map<Text, Text>)
    requires Inv(c, s) && Extends(s.queue, queue)
    ensures Inv(c, s.(queue := queue))
  {
    var t := s.(queue := queue);
    forall id | id in t.outbox
      ensures RowOk(c, id, t.outbox[id], t.plans[id], queue, Returned(t, id))
    {
      assert RowOk(c, id, s.outbox[id], s.plans[id], s.queue, Returned(s, id));
    }
    forall f | f in t.flights
      ensures FlightOk(c, f, t.outbox[f.plan], queue, Returned(t, f.plan))
    {
      assert FlightOk(c, f, s.outbox[f.plan], s.queue, Returned(s, f.plan));
    }
  }

  // --- flights land, or move on to another phase ---

  lemma FewerFlights(c: Config, s: System, flights: set<Flight>)
    requires Inv(c, s) && flights <= s.flights
    ensures Inv(c, s.(flights := flights))
  {
    var t := s.(flights := flights);
    forall id | id in t.outbox
      ensures RowOk(c, id, t.outbox[id], t.plans[id], t.queue, Returned(t, id))
    {
      assert RowOk(c, id, s.outbox[id], s.plans[id], s.queue, Returned(s, id));
    }
  }

  lemma PhaseChanges(c: Config, s: System, f: Flight, phase: Phase)
    requires Inv(c, s) && f in s.flights
    requires FlightOk(c, f.(phase := phase), s.outbox[f.plan], s.queue, Returned(s, f.plan))
    ensures Inv(c, s.(flights := s.flights - {f} + {f.(phase := phase)}))
  {
    var t := s.(flights := s.flights - {f} + {f.(phase := phase)});
    forall id | id in t.outbox
      ensures RowOk(c, id, t.outbox[id], t.plans[id], t.queue, Returned(t, id))
    {
      assert RowOk(c, id, s.outbox[id], s.plans[id], s.queue, Returned(s, id));
    }
  }

  // --- one row and its plan change ---

  lemma OneRowChanges(c: Config, s: System, id: string, plan: Plan, row: Row)
    requires Inv(c, s) && id in s.outbox
    requires row.job == s.outbox[id].job && row.payload == s.outbox[id].payload
      && row.releasedAt == s.outbox[id].releasedAt
    requires row.attempts == s.outbox[id].attempts
    requires plan.scheduledAt.Some?
    requires RowOk(c, id, row, plan, s.queue, Returned(s, id))
    ensures Inv(c, s.(plans := s.plans[id := plan], outbox := s.outbox[id := row]))
  {
    var t := s.(plans := s.plans[id := plan], outbox := s.outbox[id := row]);
    forall x | x in t.outbox
      ensures x in t.plans && RowOk(c, x, t.outbox[x], t.plans[x], t.queue, Returned(t, x))
    {
      if x != id {
        assert RowOk(c, x, s.outbox[x], s.plans[x], s.queue, Returned(s, x));
      }
    }
    forall f | f in t.flights
      ensures f.plan in t.outbox && FlightOk(c, f, t.outbox[f.plan], t.queue, Returned(t, f.plan))
    {
      assert FlightOk(c, f, s.outbox[f.plan], s.queue, Returned(s, f.plan));
    }
  }

  lemma ReturnRecorded(c: Config, s: System, f: Flight)
    requires Inv(c, s) && f in s.flights && f.attempt < c.maxAttempts
    ensures Inv(c, s.(returned := s.returned[f.plan := Returned(s, f.plan) + {f.attempt}], flights := s.flights - {f}))
  {
    var t := s.(returned := s.returned[f.plan := Returned(s, f.plan) + {f.attempt}], flights := s.flights - {f});
    assert FlightOk(c, f, s.outbox[f.plan], s.queue, Returned(s, f.plan));
    forall x | x in t.outbox
      ensures x in t.plans && RowOk(c, x, t.outbox[x], t.plans[x], t.queue, Returned(t, x))
    {
      assert RowOk(c, x, s.outbox[x], s.plans[x], s.queue, Returned(s, x));
    }
    forall g | g in t.flights
      ensures g.plan in t.outbox && FlightOk(c, g, t.outbox[g.plan], t.queue, Returned(t, g.plan))
    {
      assert FlightOk(c, g, s.outbox[g.plan], s.queue, Returned(s, g.plan));
    }
  }

  // --- the steps ---

  lemma CreateKeeps(c: Config, s: System, step: Step)
    requires Inv(c, s) && step.Create? && Enabled(c, s, step)
    ensures Inv(c, After(c, s, step))
  {
    var t := After(c, s, step);
    forall x | x in t.outbox
      ensures x in t.plans && RowOk(c, x, t.outbox[x], t.plans[x], t.queue, Returned(t, x))
    {
      assert RowOk(c, x, s.outbox[x], s.plans[x], s.queue, Returned(s, x));
    }
  }

  lemma StageKeeps(c: Config, s: System, id: string, at: nat)
    requires Inv(c, s) && Stageable(c, s, id, at)
    ensures Inv(c, Stage(c, s, id, at))
  {
    var t := Stage(c, s, id, at);
    forall x | x in t.outbox
      ensures x in t.plans && RowOk(c, x, t.outbox[x], t.plans[x], t.queue, Returned(t, x))
    {
      if x != id {
        assert RowOk(c, x, s.outbox[x], s.plans[x], s.queue, Returned(s, x));
      }
    }
    forall f | f in t.flights
      ensures f.plan in t.outbox && FlightOk(c, f, t.outbox[f.plan], t.queue, Returned(t, f.plan))
    {
      assert FlightOk(c, f, s.outbox[f.plan], s.queue, Returned(s, f.plan));
    }
  }

  lemma ClaimKeepsRows(c: Config, s: System, ids: set<string>, lease: Lease)
    requires Inv(c, s) && forall id | id in ids :: id in s.plans && id in s.outbox
    ensures RowsOk(c, Claim(s, ids, lease))
  {
    var t := Claim(s, ids, lease);
    forall x | x in t.outbox
      ensures x in t.plans && RowOk(c, x, t.outbox[x], t.plans[x], t.queue, Returned(t, x))
    {
      assert RowOk(c, x, s.outbox[x], s.plans[x], s.queue, Returned(s, x));
    }
  }

  /** A flight of the claim carries an attempt number that no earlier flight has. */
  lemma ClaimedFlight(c: Config, s: System, ids: set<string>, lease: Lease, f: Flight)
    requires Inv(c, s) && (forall id | id in ids :: id in s.plans && id in s.outbox)
    requires f in Claim(s, ids, lease).flights
    ensures
      var t := Claim(s, ids, lease);
      f.plan in t.outbox && FlightOk(c, f, t.outbox[f.plan], t.queue, Returned(t, f.plan))
    ensures f in s.flights
      || (f.plan in ids && f == FlightOf(f.plan, ClaimedRow(s.outbox[f.plan], lease), s.plans[f.plan], lease.owner))
  {
    if f in s.flights {
      assert FlightOk(c, f, s.outbox[f.plan], s.queue, Returned(s, f.plan));
    } else {
      assert RowOk(c, f.plan, s.outbox[f.plan], s.plans[f.plan], s.queue, Returned(s, f.plan));
    }
  }

  lemma ClaimKeepsFlights(c: Config, s: System, ids: set<string>, lease: Lease)
    requires Inv(c, s) && forall id | id in ids :: id in s.plans && id in s.outbox
    ensures FlightsOk(c, Claim(s, ids, lease))
  {
    var t := Claim(s, ids, lease);
    forall f | f in t.flights
      ensures f.plan in t.outbox && FlightOk(c, f, t.outbox[f.plan], t.queue, Returned(t, f.plan))
    {
      ClaimedFlight(c, s, ids, lease, f);
    }
    forall f, g | f in t.flights && g in t.flights && f.plan == g.plan && f.attempt == g.attempt
      ensures f == g
    {
      ClaimedFlight(c, s, ids, lease, f);
      ClaimedFlight(c, s, ids, lease, g);
      assert f in s.flights ==> FlightOk(c, f, s.outbox[f.plan], s.queue, Returned(s, f.plan));
      assert g in s.flights ==> FlightOk(c, g, s.outbox[g.plan], s.queue, Returned(s, g.plan));
    }
  }

  lemma ClaimKeeps(c: Config, s: System, ids: set<string>, lease: Lease)
    requires Inv(c, s) && forall id | id in ids :: id in s.plans && id in s.outbox
    ensures Inv(c, Claim(s, ids, lease))
  {
    ClaimKeepsRows(c, s, ids, lease);
    ClaimKeepsFlights(c, s, ids, lease);
  }

  lemma SendKeeps(c: Config, s: System, f: Flight, fault: Fault)
    requires Inv(c, s) && f in s.flights
    ensures Inv(c, Publish(c, s, f, fault))
  {
    var queue := QueueAfter(c, s.queue, f, fault);
    QueueExtends(c, s.queue, f, fault);
    MoreQueue(c, s, queue);
    var t := s.(queue := queue);
    assert FlightOk(c, f, t.outbox[f.plan], t.queue, Returned(t, f.plan));
    PhaseChanges(c, t, f, PhaseAfter(c, s.queue, f, fault));
  }

  lemma ConfirmKeeps(c: Config, s: System, f: Flight)
    requires Inv(c, s) && f in s.flights && f.phase == Enqueued
    ensures Inv(c, Confirm(c, s, f))
  {
    var (t, marked) := MarkPublished(s, f);
    assert FlightOk(c, f, s.outbox[f.plan], s.queue, Returned(s, f.plan));
    assert RowOk(c, f.plan, s.outbox[f.plan], s.plans[f.plan], s.queue, Returned(s, f.plan));
    if marked == Done {
      OneRowChanges(c, s, f.plan, PublishedPlan(s.plans[f.plan]),
                    s.outbox[f.plan].(status := Published, lease := None));
      FewerFlights(c, t, s.flights - {f});
    } else if marked == Threw {
      PhaseChanges(c, s, f, Refused(f.attempt >= c.maxAttempts));
    } else {
      FewerFlights(c, s, s.flights - {f});
    }
  }

  lemma ReportKeeps(c: Config, s: System, f: Flight, deadLetter: bool, retryAt: nat)
    requires Inv(c, s) && f in s.flights && f.phase == Refused(deadLetter)
    ensures Inv(c, Report(s, f, deadLetter, retryAt))
  {
    var (t, marked) := MarkFailed(s, f, deadLetter, retryAt);
    assert FlightOk(c, f, s.outbox[f.plan], s.queue, Returned(s, f.plan));
    assert RowOk(c, f.plan, s.outbox[f.plan], s.plans[f.plan], s.queue, Returned(s, f.plan));
    if marked == Done {
      var plan := s.plans[f.plan].(status := if deadLetter then Failed else Planned, lease := None);
      var row := FailedRow(s.outbox[f.plan], deadLetter, retryAt);
      OneRowChanges(c, s, f.plan, plan, row);
      var u := s.(plans := s.plans[f.plan := plan], outbox := s.outbox[f.plan := row]);
      if deadLetter {
        FewerFlights(c, u, s.flights - {f});
      } else {
        ReturnRecorded(c, u, f);
      }
    } else {
      FewerFlights(c, s, s.flights - {f});
    }
  }

  lemma ApplyKeeps(c: Config, s: System, id: string, to: PlanStatus)
    requires Inv(c, s) && id in s.plans
    ensures Inv(c, s.(plans := s.plans[id := Applied(s.plans[id], to)]))
  {
    var t := s.(plans := s.plans[id := Applied(s.plans[id], to)]);
    forall x | x in t.outbox
      ensures x in t.plans && RowOk(c, x, t.outbox[x], t.plans[x], t.queue, Returned(t, x))
    {
      assert RowOk(c, x, s.outbox[x], s.plans[x], s.queue, Returned(s, x));
    }
  }

  lemma TickKeeps(c: Config, s: System, now: nat)
    requires Inv(c, s)
    ensures Inv(c, s.(now := now))
  {
    var t := s.(now := now);
    forall x | x in t.outbox
      ensures x in t.plans && RowOk(c, x, t.outbox[x], t.plans[x], t.queue, Returned(t, x))
    {
      assert RowOk(c, x, s.outbox[x], s.plans[x], s.queue, Returned(s, x));
    }
  }

  lemma StepKeeps(c: Config, s: System, step: Step)
    requires Inv(c, s) && Enabled(c, s, step)
    ensures Inv(c, After(c, s, step))
  {
    match step
    case Tick(now) => TickKeeps(c, s, now);
    case Create(id, tasks, day, eligibleAt) => CreateKeeps(c, s, step);
    case StageOne(id, at) => StageKeeps(c, s, id, at);
    case ClaimSome(ids, owner, expires) => ClaimKeeps(c, s, ids, Lease(owner, expires));
    case Send(f, fault) => SendKeeps(c, s, f, fault);
    case ConfirmOne(f) => ConfirmKeeps(c, s, f);
    case ReportOne(f, retryAt) => ReportKeeps(c, s, f, f.phase.deadLetter, retryAt);
    case Crash(gone) => FewerFlights(c, s, s.flights - gone);
    case Apply(id, to) => ApplyKeeps(c, s, id, to);
  }

  lemma RunPrefix(c: Config, states: seq<System>, steps: seq<Step>)
    requires Run(c, states, steps) && steps != []
    ensures
      var n := |steps| - 1;
      && Run(c, states[..n + 1], steps[..n])
      && Enabled(c, states[n], steps[n]) && states[n + 1] == After(c, states[n], steps[n])
  {
    var n := |steps| - 1;
    forall i | 0 <= i < n
      ensures Enabled(c, states[..n + 1][i], steps[..n][i])
        && states[..n + 1][i + 1] == After(c, states[..n + 1][i], steps[..n][i])
    {
      assert Enabled(c, states[i], steps[i]);
    }
  }

  lemma {:induction false} RunKeepsInv(c: Config, states: seq<System>, steps: seq<Step>)
    requires Run(c, states, steps)
    ensures Inv(c, states[|steps|])
    decreases |steps|
  {
    if steps != [] {
      var n := |steps| - 1;
      RunPrefix(c, states, steps);
      RunKeepsInv(c, states[..n + 1], steps[..n]);
      StepKeeps(c, states[n], steps[n]);
    }
  }

  // --- exactly one job, however often a row is sent ---

  /** A job that is in the queue is never replaced, and no step changes which job a row stands for. */
  lemma StepKeepsJobs(c: Config, s: System, step: Step)
    requires Enabled(c, s, step)
    ensures Extends(s.queue, After(c, s, step).queue)
    ensures forall id | id in s.outbox ::
      && id in After(c, s, step).outbox
      && After(c, s, step).outbox[id].job == s.outbox[id].job
      && After(c, s, step).outbox[id].payload == s.outbox[id].payload
  {
  }

  /** At-least-once sending enqueues exactly once: in every state of every run the job ids of the rows
      are distinct, and a published row's job is in the queue with the row's payload. */
  lemma PublishedIsEnqueued(c: Config, states: seq<System>, steps: seq<Step>, id: string)
    requires Run(c, states, steps)
    requires var s := states[|steps|]; id in s.outbox && s.outbox[id].status == Published
    ensures
      var s := states[|steps|];
      && s.outbox[id].job in s.queue && s.queue[s.outbox[id].job] == s.outbox[id].payload
      && (forall other | other in s.outbox && s.outbox[other].job == s.outbox[id].job :: other == id)
  {
    RunKeepsInv(c, states, steps);
    var s := states[|steps|];
    assert RowOk(c, id, s.outbox[id], s.plans[id], s.queue, Returned(s, id));
  }

  predicate Final(row: Row) {
    row.status == Published || row.status == DeadLetter
  }

  lemma FinalRowStays(c: Config, s: System, step: Step, id: string)
    requires Enabled(c, s, step) && id in s.outbox && Final(s.outbox[id])
    ensures id in After(c, s, step).outbox && After(c, s, step).outbox[id] == s.outbox[id]
  {
  }

  /** published and dead_letter are final: from then on the row is the same in every state. */
  lemma {:induction false} FinalForever(c: Config, states: seq<System>, steps: seq<Step>, id: string, i: nat, j: nat)
    requires Run(c, states, steps) && i <= j < |states|
    requires id in states[i].outbox && Final(states[i].outbox[id])
    ensures id in states[j].outbox && states[j].outbox[id] == states[i].outbox[id]
    decreases j - i
  {
    if i < j {
      FinalForever(c, states, steps, id, i, j - 1);
      FinalRowStays(c, states[j - 1], steps[j - 1], id);
      assert states[j - 1 + 1] == After(c, states[j - 1], steps[j - 1]);
    }
  }

  /** A job that is in the queue stays there with the data it was added with. */
  lemma {:induction false} JobsForever(c: Config, states: seq<System>, steps: seq<Step>, job: Text, i: nat, j: nat)
    requires Run(c, states, steps) && i <= j < |states| && job in states[i].queue
    ensures job in states[j].queue && states[j].queue[job] == states[i].queue[job]
    decreases j - i
  {
    if i < j {
      JobsForever(c, states, steps, job, i, j - 1);
      StepKeepsJobs(c, states[j - 1], steps[j - 1]);
      assert states[j - 1 + 1] == After(c, states[j - 1], steps[j - 1]);
    }
  }

  /** A publisher whose lease has ended or was taken over changes no plan, no row and no job. */
  lemma LostLeaseChangesNothing(c: Config, s: System, f: Flight, step: Step)
    requires Enabled(c, s, step) && (step.ConfirmOne? || step.ReportOne?) && step.flight == f && !HoldsIn(s, f)
    ensures
      var t := After(c, s, step);
      t.plans == s.plans && t.outbox == s.outbox && t.queue == s.queue && t.returned == s.returned
  {
  }

  lemma {:induction false} BoundedCount(numbers: set<nat>, bound: nat)
    requires forall n | n in numbers :: 0 < n < bound
    ensures numbers == {} || |numbers| < bound
    decreases bound
  {
    if numbers != {} {
      var rest := numbers - {bound - 1};
      BoundedCount(rest, bound - 1);
      assert numbers == rest + {bound - 1} || numbers == rest;
    }
  }

  /** A row returns to pending fewer than maxAttempts times: every return is recorded under its own
      attempt number, and there are fewer than maxAttempts of them. */
  lemma ReturnsAreBounded(c: Config, states: seq<System>, steps: seq<Step>, id: string)
    requires Run(c, states, steps) && c.maxAttempts > 0
    ensures |Returned(states[|steps|], id)| < c.maxAttempts
  {
    RunKeepsInv(c, states, steps);
    var s := states[|steps|];
    if id in s.returned {
      assert RowOk(c, id, s.outbox[id], s.plans[id], s.queue, Returned(s, id));
    }
    BoundedCount(Returned(s, id), c.maxAttempts);
  }

  lemma OnlyReportsReturn(c: Config, s: System, step: Step, id: string)
    requires Enabled(c, s, step) && id in s.outbox && id in After(c, s, step).outbox
    requires s.outbox[id].status != Pending && After(c, s, step).outbox[id].status == Pending
    ensures step.ReportOne? && step.flight.plan == id && step.flight in s.flights
    ensures After(c, s, step).returned == s.returned[id := Returned(s, id) + {step.flight.attempt}]
  {
  }

  /** Every return to pending adds one to the count. */
  lemma ReturnIsCounted(c: Config, s: System, step: Step, id: string)
    requires FlightsOk(c, s) && Enabled(c, s, step) && id in s.outbox && id in After(c, s, step).outbox
    requires s.outbox[id].status != Pending && After(c, s, step).outbox[id].status == Pending
    ensures |Returned(After(c, s, step), id)| == |Returned(s, id)| + 1
  {
    OnlyReportsReturn(c, s, step, id);
    var f := step.flight;
    assert FlightOk(c, f, s.outbox[f.plan], s.queue, Returned(s, f.plan));
    assert Returned(After(c, s, step), id) == Returned(s, id) + {f.attempt};
  }

  /** A dead letter has used up its attempts, does not validate, or found another payload under its id. */
  lemma DeadLetterIsHopeless(c: Config, states: seq<System>, steps: seq<Step>, id: string)
    requires Run(c, states, steps)
    requires var s := states[|steps|]; id in s.outbox && s.outbox[id].status == DeadLetter
    ensures
      var s := states[|steps|];
      var row := s.outbox[id];
      || row.attempts >= c.maxAttempts
      || !c.accepts(id, row.job, row.payload, Some(row.releasedAt))
      || (row.job in s.queue && s.queue[row.job] != row.payload)
  {
    RunKeepsInv(c, states, steps);
    var s := states[|steps|];
    assert RowOk(c, id, s.outbox[id], s.plans[id], s.queue, Returned(s, id));
  }

  /** In every state of every run a plan has a scheduled_at if and only if it has an outbox row, and
      the row's payload was built for that very time, which lies in the dispatch window. */
  lemma ScheduledIffStaged(c: Config, states: seq<System>, steps: seq<Step>, id: string)
    requires Run(c, states, steps) && id in states[|steps|].plans
    ensures
      var s := states[|steps|];
      && (s.plans[id].scheduledAt.Some? <==> id in s.outbox)
      && (id in s.outbox ==>
            && s.plans[id].scheduledAt == Some(s.outbox[id].releasedAt) && InWindow(s.outbox[id].releasedAt)
            && (s.outbox[id].job, s.outbox[id].payload) == c.envelope(id, s.outbox[id].releasedAt))
  {
    RunKeepsInv(c, states, steps);
    var s := states[|steps|];
    if id in s.outbox {
      assert RowOk(c, id, s.outbox[id], s.plans[id], s.queue, Returned(s, id));
    }
  }
}
