/** The outbox with the envelope and the validator that the dispatcher really uses. */
module OutboxEnvelope {
  import opened Prelude
  import opened Outbox
  import opened OutboxSafety
  import CanonicalJson
  import CanonicalValue
  import JsonText
  import Envelope

  /** The columns of the plan rows that the envelope is built from; they never change. */
  type Columns = string -> Envelope.Plan

  /** The row of the plan, as the validator is given it: `stored` is what payload_json reads back as. */
  ghost function Given(r: Envelope.Runtime, plans: Columns, id: string, job: Text, payload: Text,
                       stored: CanonicalJson.Json, at: Option<nat>): Envelope.OutboxRow
    requires Envelope.Sane(r)
  {
    var p := plans(id);
    Envelope.OutboxRow(Envelope.UuidV5(r, p.id), p.id, job, Envelope.QUEUE, stored,
                       Envelope.T("sha256:") + r.sha256(payload), at)
  }

  /** A JSON value whose canonical text is the payload. */
  ghost predicate ReadsAs(stored: CanonicalJson.Json, payload: Text) {
    CanonicalValue.Keyed(stored) && JsonText.Printable(stored) && JsonText.CanonicalText(stored) == Some(payload)
  }

  /** The validator passes, in whatever key order the payload is stored. */
  ghost predicate Validates(r: Envelope.Runtime, plans: Columns, id: string, job: Text, payload: Text, at: Option<nat>)
    requires Envelope.Sane(r)
  {
    forall stored | ReadsAs(stored, payload) :: Envelope.Accepts(r, Given(r, plans, id, job, payload, stored, at))
  }

  /** The job id and the canonical payload of the envelope. */
  ghost function Built(r: Envelope.Runtime, plans: Columns, id: string, at: nat): (Text, Text)
    requires Envelope.Sane(r)
  {
    var text := JsonText.CanonicalText(Envelope.Payload(r, plans(id), at));
    (Envelope.JobId(r, plans(id)), if text.Some? then text.value else [])
  }

  ghost predicate Uses(c: Config, r: Envelope.Runtime, plans: Columns)
    requires Envelope.Sane(r)
  {
    && (forall id, at :: c.envelope(id, at) == Built(r, plans, id, at))
    && (forall id, job, payload, at :: c.accepts(id, job, payload, at) == Validates(r, plans, id, job, payload, at))
  }

  /** The plan row meets the checks of its table and has something to do. */
  ghost predicate PlanFits(r: Envelope.Runtime, p: Envelope.Plan, plan: Plan) {
    && Envelope.WellFormed(r, p) && p.tasks != Tasks(false, false, false)
    && plan.tasks == p.tasks && plan.day == p.day
  }

  /** The step creates well-formed plans only and stages in years of four digits. */
  ghost predicate Proper(r: Envelope.Runtime, plans: Columns, step: Step) {
    match step
    case Create(id, tasks, day, eligibleAt) =>
      PlanFits(r, plans(id), Plan(tasks, day, eligibleAt, Planned, None, None, 0))
    case StageOne(id, at) => at <= Envelope.LAST_TIME
    case _ => true
  }

  ghost predicate AllFit(r: Envelope.Runtime, plans: Columns, s: System) {
    && (forall id | id in s.plans :: PlanFits(r, plans(id), s.plans[id]))
    && (forall id | id in s.outbox :: id in s.plans && OnItsDay(s.plans[id], s.outbox[id].releasedAt))
  }

  predicate OnItsDay(plan: Plan, at: nat) {
    plan.day == at / DAY && at <= Envelope.LAST_TIME
  }

  /** What the envelope is built from stays: tasks and day of a plan, the release time of a row. */
  lemma StepKeepsFacts(c: Config, s: System, step: Step)
    requires Enabled(c, s, step)
    ensures
      var t := After(c, s, step);
      && (forall id | id in s.plans ::
            id in t.plans && t.plans[id].tasks == s.plans[id].tasks && t.plans[id].day == s.plans[id].day)
      && (forall id | id in s.outbox :: id in t.outbox && t.outbox[id].releasedAt == s.outbox[id].releasedAt)
      && (forall id | id in t.plans && id !in s.plans :: step.Create? && step.id == id)
      && (forall id | id in t.outbox && id !in s.outbox :: step.StageOne? && step.id == id)
  {
  }

  lemma StepKeepsFit(c: Config, r: Envelope.Runtime, plans: Columns, s: System, step: Step)
    requires AllFit(r, plans, s) && Enabled(c, s, step) && Proper(r, plans, step)
    ensures AllFit(r, plans, After(c, s, step))
  {
    StepKeepsFacts(c, s, step);
    var t := After(c, s, step);
    forall id | id in t.plans
      ensures PlanFits(r, plans(id), t.plans[id])
    {
      if id in s.plans {
        assert PlanFits(r, plans(id), s.plans[id]);
      }
    }
    forall id | id in t.outbox
      ensures id in t.plans && OnItsDay(t.plans[id], t.outbox[id].releasedAt)
    {
      if id in s.outbox {
        assert OnItsDay(s.plans[id], s.outbox[id].releasedAt);
      }
    }
  }

  ghost predicate ProperRun(c: Config, r: Envelope.Runtime, plans: Columns, states: seq<System>, steps: seq<Step>) {
    Run(c, states, steps) && forall i | 0 <= i < |steps| :: Proper(r, plans, steps[i])
  }

  lemma {:induction false} RunKeepsFit(c: Config, r: Envelope.Runtime, plans: Columns, states: seq<System>,
                                       steps: seq<Step>)
    requires ProperRun(c, r, plans, states, steps)
    ensures AllFit(r, plans, states[|steps|])
    decreases |steps|
  {
    if steps != [] {
      var n := |steps| - 1;
      RunPrefix(c, states, steps);
      forall i | 0 <= i < n
        ensures Proper(r, plans, steps[..n][i])
      {
        assert Proper(r, plans, steps[i]);
      }
      RunKeepsFit(c, r, plans, states[..n + 1], steps[..n]);
      assert Proper(r, plans, steps[n]);
      StepKeepsFit(c, r, plans, states[n], steps[n]);
    }
  }

  lemma PayloadReads(r: Envelope.Runtime, plans: Columns, id: string, at: nat)
    requires Envelope.Sane(r) && Envelope.WellFormed(r, plans(id))
    ensures ReadsAs(Envelope.Payload(r, plans(id), at), Built(r, plans, id, at).1)
  {
    var built := Envelope.Payload(r, plans(id), at);
    Envelope.PayloadKeyed(r, plans(id), at);
    JsonText.CanonicalTextIff(built, built);
  }

  lemma GivenIsBuilt(r: Envelope.Runtime, plans: Columns, id: string, at: nat, payload: Text,
                     stored: CanonicalJson.Json)
    requires Envelope.Sane(r) && JsonText.CanonicalText(Envelope.Payload(r, plans(id), at)) == Some(payload)
    requires Envelope.Build(r, plans(id), at).Some?
    ensures Given(r, plans, id, Built(r, plans, id, at).0, payload, stored, Some(at))
      == Envelope.Build(r, plans(id), at).value.(payload := stored)
  {
  }

  lemma StoredValidates(r: Envelope.Runtime, plans: Columns, id: string, plan: Plan, at: nat, payload: Text,
                        stored: CanonicalJson.Json)
    requires Envelope.Sane(r) && PlanFits(r, plans(id), plan) && OnItsDay(plan, at) && InWindow(at)
    requires ReadsAs(stored, payload) && ReadsAs(Envelope.Payload(r, plans(id), at), payload)
    ensures Envelope.Accepts(r, Given(r, plans, id, Built(r, plans, id, at).0, payload, stored, Some(at)))
  {
    JsonText.CanonicalTextIff(stored, Envelope.Payload(r, plans(id), at));
    Envelope.ProducerMeetsConsumer(r, plans(id), at, stored);
    GivenIsBuilt(r, plans, id, at, payload, stored);
  }

  /** What the producer writes for a fitting plan on its day is what the validator accepts. */
  lemma BuiltValidates(r: Envelope.Runtime, plans: Columns, id: string, plan: Plan, at: nat)
    requires Envelope.Sane(r) && PlanFits(r, plans(id), plan) && OnItsDay(plan, at) && InWindow(at)
    ensures
      var (job, payload) := Built(r, plans, id, at);
      && Validates(r, plans, id, job, payload, Some(at))
      && ReadsAs(Envelope.Payload(r, plans(id), at), payload)
  {
    var (job, payload) := Built(r, plans, id, at);
    PayloadReads(r, plans, id, at);
    forall stored | ReadsAs(stored, payload)
      ensures Envelope.Accepts(r, Given(r, plans, id, job, payload, stored, Some(at)))
    {
      StoredValidates(r, plans, id, plan, at, payload, stored);
    }
  }

  /** With the dispatcher's own envelope and validator and well-formed plans, in every state of every run
      every row passes the validation, so a dead letter has used its attempts or found another payload
      under its job id. */
  lemma EveryRowValidates(c: Config, r: Envelope.Runtime, plans: Columns, states: seq<System>, steps: seq<Step>,
                          id: string)
    requires Envelope.Sane(r) && Uses(c, r, plans) && ProperRun(c, r, plans, states, steps)
    requires id in states[|steps|].outbox
    ensures
      var s := states[|steps|];
      var row := s.outbox[id];
      && c.accepts(id, row.job, row.payload, Some(row.releasedAt))
      && (exists stored :: ReadsAs(stored, row.payload))
      && (row.status == DeadLetter ==>
            row.attempts >= c.maxAttempts || (row.job in s.queue && s.queue[row.job] != row.payload))
  {
    var s := states[|steps|];
    var row := s.outbox[id];
    RunKeepsInv(c, states, steps);
    RunKeepsFit(c, r, plans, states, steps);
    assert RowOk(c, id, row, s.plans[id], s.queue, Returned(s, id));
    assert PlanFits(r, plans(id), s.plans[id]) && OnItsDay(s.plans[id], row.releasedAt);
    BuiltValidates(r, plans, id, s.plans[id], row.releasedAt);
    assert c.envelope(id, row.releasedAt) == Built(r, plans, id, row.releasedAt);
  }
}
