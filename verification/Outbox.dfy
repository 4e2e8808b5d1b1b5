/** The dispatch outbox as a step relation: plans are staged, claimed under leases by publishers that
    may crash at any point, published to a queue keyed by job id, and moved on by a consumer. */
module Outbox {
  import opened Prelude
  import CanonicalJson

  type Text = CanonicalJson.Text

  datatype PlanStatus = Planned | Dispatching | Dispatched | Running | Succeeded | Partial | Failed | Cancelled

  datatype Lease = Lease(owner: string, expires: nat)

  /** run_about, run_video, run_agent */
  datatype Tasks = Tasks(about: bool, video: bool, agent: bool)

  /** feature_clock.daily_channel_plans; `day` is plan_day as a number of days. */
  datatype Plan = Plan(
    tasks: Tasks,
    day: nat,
    eligibleAt: nat,
    status: PlanStatus,
    scheduledAt: Option<nat>,
    lease: Option<Lease>,
    attempts: nat)

  datatype RowStatus = Pending | Publishing | Published | DeadLetter

  /** feature_clock.dispatch_outbox; plan_id is unique, so a row is keyed by its plan. `payload` is the
      canonical text of payload_json, `releasedAt` its scheduled_at. */
  datatype Row = Row(
    job: Text,
    payload: Text,
    releasedAt: nat,
    status: RowStatus,
    attempts: nat,
    nextAttempt: nat,
    lease: Option<Lease>)

  /** How far a publisher has come with a claimed row. */
  datatype Phase = Claimed | Enqueued | Refused(deadLetter: bool)

  /** A claimed row in the hands of a publisher: what the claim returned, among it the scheduled_at of
      the plan, and the phase. */
  datatype Flight = Flight(owner: string, plan: string, attempt: nat, job: Text, payload: Text,
                           scheduledAt: Option<nat>, phase: Phase)

  /** Times are in milliseconds. `returned` is a history variable: the claims of each plan that ended
      in a return to pending, by attempt number. */
  datatype System = System(
    now: nat,
    plans: map<string, Plan>,
    outbox: map<string, Row>,
    queue: map<Text, Text>,
    flights: set<Flight>,
    returned: map<string, set<nat>>)

  /** `envelope` gives the job id and the canonical payload of a plan released at a time; `accepts`
      tells whether validateDispatchOutboxRow passes for the row of a plan, given its job, its payload and
      the plan's time. */
  datatype Config = Config(
    maxAttempts: nat,
    accepts: (string, Text, Text, Option<nat>) -> bool,
    envelope: (string, nat) -> (Text, Text))

  predicate InWindow(t: nat) {
    var minute := (t / 60000) % 1440;
    30 <= minute < 21 * 60 + 30
  }

  const DAY: nat := 86400000

  // --- staging ---

  /** The plan can be released now: it waits unscheduled, and its day and its time have come. */
  predicate Releasable(plan: Plan, at: nat) {
    && plan.status == Planned && plan.scheduledAt.None?
    && plan.day == at / DAY && plan.eligibleAt <= at
  }

  function Staged(c: Config, id: string, at: nat): Row {
    Row(c.envelope(id, at).0, c.envelope(id, at).1, at, Pending, 0, at, None)
  }

  predicate Stageable(c: Config, s: System, id: string, at: nat) {
    && id in s.plans && Releasable(s.plans[id], at) && InWindow(at)
    && id !in s.outbox
    && (forall other | other in s.outbox :: s.outbox[other].job != c.envelope(id, at).0)
  }

  function Stage(c: Config, s: System, id: string, at: nat): System
    requires id in s.plans
  {
    s.(plans := s.plans[id := s.plans[id].(scheduledAt := Some(at))],
       outbox := s.outbox[id := Staged(c, id, at)])
  }

  // --- claiming ---

  /** Rows of the plan may be claimed. */
  predicate Open(status: PlanStatus) {
    status == Planned || status == Dispatching
  }

  predicate Claimable(now: nat, plan: Plan, row: Row) {
    && ((row.status == Pending && row.nextAttempt <= now)
        || (row.status == Publishing && row.lease.Some? && row.lease.value.expires <= now))
    && Open(plan.status)
    && plan.scheduledAt.Some? && plan.scheduledAt.value <= now
    && InWindow(now)
  }

  /** The row may be claimed, written out: it waits and its time has come, or the lease on it has run out;
      its plan is open and was released by now; and the time of day is 00:30 to 21:30. */
  ghost predicate Due(s: System, id: string) {
    && id in s.outbox && id in s.plans
    && (|| (s.outbox[id].status == Pending && s.outbox[id].nextAttempt <= s.now)
        || (s.outbox[id].status == Publishing && s.outbox[id].lease.Some? && s.outbox[id].lease.value.expires <= s.now))
    && (s.plans[id].status == Planned || s.plans[id].status == Dispatching)
    && s.plans[id].scheduledAt.Some? && s.plans[id].scheduledAt.value <= s.now
    && 1800000 <= s.now % 86400000 < 77400000
  }

  lemma DueIff(s: System, id: string)
    ensures Due(s, id) <==> ClaimableIn(s, id)
  {
    TimeOfDay(s.now);
  }

  lemma TimeOfDay(t: nat)
    ensures InWindow(t) <==> 1800000 <= t % 86400000 < 77400000
  {
    var day, rest := t / 86400000, t % 86400000;
    assert t == 86400000 * day + rest;
    assert t / 60000 == 1440 * day + rest / 60000;
    assert (1440 * day + rest / 60000) % 1440 == rest / 60000;
  }

  predicate ClaimableIn(s: System, id: string) {
    id in s.plans && id in s.outbox && Claimable(s.now, s.plans[id], s.outbox[id])
  }

  function ClaimedRow(row: Row, lease: Lease): Row {
    row.(status := Publishing, attempts := row.attempts + 1, lease := Some(lease))
  }

  function ClaimedPlan(plan: Plan, lease: Lease): Plan {
    plan.(status := Dispatching, attempts := plan.attempts + 1, lease := Some(lease))
  }

  function FlightOf(id: string, row: Row, plan: Plan, owner: string): Flight {
    Flight(owner, id, row.attempts, row.job, row.payload, plan.scheduledAt, Phase.Claimed)
  }

  function Claim(s: System, ids: set<string>, lease: Lease): System
    requires forall id | id in ids :: id in s.plans && id in s.outbox
  {
    s.(plans := map id | id in s.plans :: if id in ids then ClaimedPlan(s.plans[id], lease) else s.plans[id],
       outbox := map id | id in s.outbox :: if id in ids then ClaimedRow(s.outbox[id], lease) else s.outbox[id],
       flights := s.flights + set id | id in ids ::
         FlightOf(id, ClaimedRow(s.outbox[id], lease), s.plans[id], lease.owner))
  }

  // --- publishing ---

  /** What can happen to the calls on the queue: they go through, they fail before the job is added, or
      the job is added and the reply is lost. */
  datatype Fault = NoFault | NotAdded | ReplyLost

  function QueueAfter(c: Config, queue: map<Text, Text>, f: Flight, fault: Fault): map<Text, Text> {
    if !c.accepts(f.plan, f.job, f.payload, f.scheduledAt) || fault == NotAdded || f.job in queue then queue
    else queue[f.job := f.payload]
  }

  function PhaseAfter(c: Config, queue: map<Text, Text>, f: Flight, fault: Fault): Phase {
    if !c.accepts(f.plan, f.job, f.payload, f.scheduledAt) then Refused(true)
    else if fault != NoFault then Refused(f.attempt >= c.maxAttempts)
    else if f.job in queue && queue[f.job] != f.payload then Refused(true)
    else Enqueued
  }

  function Publish(c: Config, s: System, f: Flight, fault: Fault): System {
    s.(queue := QueueAfter(c, s.queue, f, fault),
       flights := s.flights - {f} + {f.(phase := PhaseAfter(c, s.queue, f, fault))})
  }

  // --- marking ---

  predicate Holds(row: Row, owner: string) {
    row.status == Publishing && row.lease.Some? && row.lease.value.owner == owner
  }

  predicate HoldsIn(s: System, f: Flight) {
    f.plan in s.outbox && Holds(s.outbox[f.plan], f.owner)
  }

  datatype Marked = Lost | Threw | Done

  predicate LeasedTo(plan: Plan, owner: string) {
    plan.lease.Some? && plan.lease.value.owner == owner
  }

  predicate Finished(status: PlanStatus) {
    status == Succeeded || status == Partial || status == Failed
  }

  predicate TakesPublished(plan: Plan, owner: string) {
    ((plan.status == Dispatching || plan.status == Running) && LeasedTo(plan, owner)) || Finished(plan.status)
  }

  predicate TakesFailed(plan: Plan, owner: string) {
    plan.status == Dispatching && LeasedTo(plan, owner)
  }

  function PublishedPlan(plan: Plan): Plan {
    plan.(status := if plan.status == Dispatching then Dispatched else plan.status, lease := None)
  }

  function MarkPublished(s: System, f: Flight): (System, Marked) {
    if !HoldsIn(s, f) then (s, Lost)
    else if f.plan !in s.plans || !TakesPublished(s.plans[f.plan], f.owner) then (s, Threw)
    else (s.(plans := s.plans[f.plan := PublishedPlan(s.plans[f.plan])],
             outbox := s.outbox[f.plan := s.outbox[f.plan].(status := Published, lease := None)]), Done)
  }

  function FailedRow(row: Row, deadLetter: bool, retryAt: nat): Row {
    row.(status := if deadLetter then DeadLetter else Pending,
         nextAttempt := if deadLetter then row.nextAttempt else retryAt,
         lease := None)
  }

  function MarkFailed(s: System, f: Flight, deadLetter: bool, retryAt: nat): (System, Marked) {
    if !HoldsIn(s, f) then (s, Lost)
    else if f.plan !in s.plans || !TakesFailed(s.plans[f.plan], f.owner) then (s, Threw)
    else (s.(plans := s.plans[f.plan :=
               s.plans[f.plan].(status := if deadLetter then Failed else Planned, lease := None)],
             outbox := s.outbox[f.plan := FailedRow(s.outbox[f.plan], deadLetter, retryAt)],
             returned := if deadLetter then s.returned
                         else s.returned[f.plan := Returned(s, f.plan) + {f.attempt}]), Done)
  }

  function Returned(s: System, id: string): set<nat> {
    if id in s.returned then s.returned[id] else {}
  }

  /** After the queue took the job: mark it, and turn a throw into a failure. */
  function Confirm(c: Config, s: System, f: Flight): System {
    var (t, marked) := MarkPublished(s, f);
    t.(flights := if marked == Threw then s.flights - {f} + {f.(phase := Refused(f.attempt >= c.maxAttempts))}
       else s.flights - {f})
  }

  /** After a failure: return the row or give it up. A throw ends the publisher's pass. */
  function Report(s: System, f: Flight, deadLetter: bool, retryAt: nat): System {
    MarkFailed(s, f, deadLetter, retryAt).0.(flights := s.flights - {f})
  }

  // --- the consumer ---

  /** The observation applier reduces a plan to running or to a final status, or cancels it. */
  predicate Applies(from: PlanStatus, to: PlanStatus) {
    if to == Cancelled then from == Planned || from == Dispatching || from == Dispatched || from == Running
    else
      && (to == Running || Finished(to))
      && from != Succeeded && from != Cancelled
  }

  function Applied(plan: Plan, to: PlanStatus): Plan {
    plan.(status := to, lease := if to == Running then plan.lease else None)
  }

  // --- the step relation ---

  datatype Step =
    | Tick(now: nat)
    | Create(id: string, tasks: Tasks, day: nat, eligibleAt: nat)
    | StageOne(id: string, at: nat)
    | ClaimSome(ids: set<string>, owner: string, expires: nat)
    | Send(flight: Flight, fault: Fault)
    | ConfirmOne(flight: Flight)
    | ReportOne(flight: Flight, retryAt: nat)
    | Crash(gone: set<Flight>)
    | Apply(id: string, to: PlanStatus)

  predicate Enabled(c: Config, s: System, step: Step) {
    match step
    case Tick(now) => now >= s.now
    case Create(id, tasks, day, eligibleAt) => id !in s.plans && id !in s.outbox
    case StageOne(id, at) => Stageable(c, s, id, at)
    case ClaimSome(ids, owner, expires) => forall id | id in ids :: ClaimableIn(s, id)
    case Send(f, fault) => f in s.flights && f.phase == Phase.Claimed
    case ConfirmOne(f) => f in s.flights && f.phase == Enqueued
    case ReportOne(f, retryAt) => f in s.flights && f.phase.Refused?
    case Crash(gone) => true
    case Apply(id, to) => id in s.plans && Applies(s.plans[id].status, to)
  }

  function After(c: Config, s: System, step: Step): System
    requires Enabled(c, s, step)
  {
    match step
    case Tick(now) => s.(now := now)
    case Create(id, tasks, day, eligibleAt) =>
      s.(plans := s.plans[id := Plan(tasks, day, eligibleAt, Planned, None, None, 0)])
    case StageOne(id, at) => Stage(c, s, id, at)
    case ClaimSome(ids, owner, expires) => Claim(s, ids, Lease(owner, expires))
    case Send(f, fault) => Publish(c, s, f, fault)
    case ConfirmOne(f) => Confirm(c, s, f)
    case ReportOne(f, retryAt) => Report(s, f, f.phase.deadLetter, retryAt)
    case Crash(gone) => s.(flights := s.flights - gone)
    case Apply(id, to) => s.(plans := s.plans[id := Applied(s.plans[id], to)])
  }

  /** Nothing has been staged yet; the queue may hold anything. */
  predicate Initial(s: System) {
    s.plans == map[] && s.outbox == map[] && s.flights == {} && s.returned == map[]
  }

  ghost predicate Run(c: Config, states: seq<System>, steps: seq<Step>) {
    && |states| == |steps| + 1 && Initial(states[0])
    && (forall i | 0 <= i < |steps| ::
          Enabled(c, states[i], steps[i]) && states[i + 1] == After(c, states[i], steps[i]))
  }

  /** The state after the steps, as long as each of them is enabled. */
  function Reach(c: Config, s: System, steps: seq<Step>): Option<System>
    decreases steps
  {
    if steps == [] then Some(s)
    else if Enabled(c, s, steps[0]) then Reach(c, After(c, s, steps[0]), steps[1..])
    else None
  }

  lemma {:induction false} ReachConcat(c: Config, s: System, a: seq<Step>, b: seq<Step>)
    requires Reach(c, s, a).Some?
    ensures Reach(c, s, a + b) == Reach(c, Reach(c, s, a).value, b)
    decreases a
  {
    if a == [] {
      assert a + b == b;
    } else {
      assert (a + b)[1..] == a[1..] + b;
      ReachConcat(c, After(c, s, a[0]), a[1..], b);
    }
  }
}
