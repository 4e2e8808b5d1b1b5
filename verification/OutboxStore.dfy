/** The transactions of the outbox store and one pass of a publisher, as the source runs them. An
    undisturbed pass is a run of the step relation. */
module OutboxStore {
  import opened Prelude
  import opened Outbox
  import opened OutboxSafety
  import opened OutboxMarks

  ghost predicate NoRepeat(ids: seq<string>) {
    forall i, j | 0 <= i < j < |ids| :: ids[i] != ids[j]
  }

  /** The members that are kept, in their order. */
  function Filter(ids: seq<string>, keep: string -> bool): seq<string> {
    if ids == [] then [] else (if keep(ids[0]) then [ids[0]] else []) + Filter(ids[1..], keep)
  }

  lemma {:induction false} FilterMeans(ids: seq<string>, keep: string -> bool)
    requires NoRepeat(ids)
    ensures NoRepeat(Filter(ids, keep))
    ensures forall id :: id in Filter(ids, keep) <==> id in ids && keep(id)
  {
    if ids != [] {
      FilterMeans(ids[1..], keep);
      assert forall id :: id in ids <==> id == ids[0] || id in ids[1..];
    }
  }

  /** Whoever is kept and stands before one that is taken is taken too. */
  ghost predicate FrontOf(ids: seq<string>, keep: string -> bool, taken: seq<string>) {
    forall i, j | 0 <= i < j < |ids| && keep(ids[i]) && ids[j] in taken :: ids[i] in taken
  }

  lemma FrontGrows(ids: seq<string>, keep: string -> bool, rest: seq<string>, taken: seq<string>)
    requires ids != [] && FrontOf(ids[1..], keep, rest) && (forall id | id in rest :: id in taken)
    requires forall id | id in taken :: id in rest || id == ids[0]
    requires NoRepeat(ids) && (keep(ids[0]) && taken != [] ==> ids[0] in taken)
    ensures FrontOf(ids, keep, taken)
  {
    forall i, j | 0 <= i < j < |ids| && keep(ids[i]) && ids[j] in taken
      ensures ids[i] in taken
    {
      assert ids[1..][j - 1] == ids[j];
      if i > 0 {
        assert ids[1..][i - 1] == ids[i];
      }
    }
  }

  lemma {:induction false} TakeIsFront(ids: seq<string>, keep: string -> bool, limit: nat)
    requires NoRepeat(ids)
    ensures FrontOf(ids, keep, Take(Filter(ids, keep), limit))
    ensures |Take(Filter(ids, keep), limit)| < limit ==> Take(Filter(ids, keep), limit) == Filter(ids, keep)
  {
    if ids != [] {
      var all, rest := Filter(ids, keep), Filter(ids[1..], keep);
      if keep(ids[0]) && limit > 0 {
        TakeIsFront(ids[1..], keep, limit - 1);
        assert Take(all, limit) == [ids[0]] + Take(rest, limit - 1);
        FrontGrows(ids, keep, Take(rest, limit - 1), Take(all, limit));
      } else if !keep(ids[0]) {
        TakeIsFront(ids[1..], keep, limit);
        assert all == rest;
        FrontGrows(ids, keep, Take(rest, limit), Take(all, limit));
      } else {
        assert Take(all, limit) == [];
      }
    }
  }

  predicate MayClaim(s: System, locked: set<string>, id: string) {
    ClaimableIn(s, id) && id !in locked
  }

  /** The claimable rows that are not locked elsewhere, in the order of the query. */
  function Candidates(s: System, order: seq<string>, locked: set<string>): seq<string> {
    Filter(order, id => MayClaim(s, locked, id))
  }

  function Take(ids: seq<string>, limit: nat): seq<string> {
    if |ids| <= limit then ids else ids[..limit]
  }

  /** `ids` has been taken from the front of `all`; if there is still room, `rest` is what follows. */
  ghost predicate Taken(all: seq<string>, ids: seq<string>, rest: seq<string>, limit: nat) {
    && |ids| <= limit && ids <= all
    && (|ids| < limit ==> ids + rest == all)
  }

  lemma TakenNext(all: seq<string>, ids: seq<string>, id: string, rest: seq<string>, limit: nat)
    requires |ids| < limit && Taken(all, ids, [id] + rest, limit)
    ensures Taken(all, ids + [id], rest, limit)
  {
    assert ids + ([id] + rest) == (ids + [id]) + rest;
  }

  function Members(ids: seq<string>): set<string> {
    set id | id in ids
  }

  function FlightsOf(plans: map<string, Plan>, outbox: map<string, Row>, ids: seq<string>,
                     lease: Lease): (r: seq<Flight>)
    requires forall id | id in ids :: id in plans && id in outbox
    ensures |r| == |ids|
    ensures forall i | 0 <= i < |ids| :: r[i] == FlightOf(ids[i], ClaimedRow(outbox[ids[i]], lease), plans[ids[i]],
                                                          lease.owner)
  {
    if ids == [] then [] else
      [FlightOf(ids[0], ClaimedRow(outbox[ids[0]], lease), plans[ids[0]], lease.owner)]
        + FlightsOf(plans, outbox, ids[1..], lease)
  }

  lemma CandidatesClaimable(s: System, order: seq<string>, locked: set<string>)
    requires NoRepeat(order)
    ensures forall id | id in Candidates(s, order, locked) :: id in order && ClaimableIn(s, id) && id !in locked
    ensures NoRepeat(Candidates(s, order, locked))
  {
    FilterMeans(order, id => MayClaim(s, locked, id));
  }

  /** The right rows are claimed: each due, not locked elsewhere and claimed once; no more than the limit, and
      no fewer while another is due; and in the order of the query. */
  ghost predicate ClaimsDue(s: System, order: seq<string>, locked: set<string>, limit: nat, ids: seq<string>) {
    && |ids| <= limit && NoRepeat(ids)
    && (forall id | id in ids :: id in order && id !in locked && Due(s, id))
    && (forall id | id in order && id !in locked && Due(s, id) && id !in ids :: |ids| == limit)
    && (forall i, j | 0 <= i < j < |order| && order[i] !in locked && Due(s, order[i]) && order[j] in ids ::
          order[i] in ids)
  }

  /** The rows and their plans carry the lease and one attempt more; the others are as they were. */
  ghost predicate ClaimEffect(s: System, t: System, ids: seq<string>, lease: Lease) {
    && t.plans.Keys == s.plans.Keys && t.outbox.Keys == s.outbox.Keys
    && (forall id | id in s.outbox :: t.outbox[id] == if id !in ids then s.outbox[id] else
          s.outbox[id].(status := RowStatus.Publishing, attempts := s.outbox[id].attempts + 1, lease := Some(lease)))
    && (forall id | id in s.plans :: t.plans[id] == if id !in ids then s.plans[id] else
          s.plans[id].(status := Dispatching, attempts := s.plans[id].attempts + 1, lease := Some(lease)))
  }

  /** What the publisher is given of each row. */
  ghost predicate ClaimReports(s: System, claimed: seq<Flight>, ids: seq<string>, owner: string) {
    |claimed| == |ids| && forall i | 0 <= i < |ids| ::
      && ids[i] in s.outbox && ids[i] in s.plans
      && claimed[i] == Flight(owner, ids[i], s.outbox[ids[i]].attempts + 1, s.outbox[ids[i]].job,
                              s.outbox[ids[i]].payload, s.plans[ids[i]].scheduledAt, Phase.Claimed)
  }

  lemma CandidatesAreDue(s: System, order: seq<string>, locked: set<string>, limit: nat)
    requires NoRepeat(order)
    ensures ClaimsDue(s, order, locked, limit, Take(Candidates(s, order, locked), limit))
  {
    var keep, ids := (id => MayClaim(s, locked, id)), Take(Candidates(s, order, locked), limit);
    FilterMeans(order, keep);
    TakeIsFront(order, keep, limit);
    forall id
      ensures Due(s, id) <==> ClaimableIn(s, id)
    {
      DueIff(s, id);
    }
    assert forall id | id in ids :: id in Filter(order, keep);
    assert forall id :: keep(id) <==> Due(s, id) && id !in locked;
  }

  lemma ClaimHasEffect(s: System, ids: seq<string>, lease: Lease)
    requires forall id | id in ids :: id in s.plans && id in s.outbox
    ensures ClaimEffect(s, Claim(s, Members(ids), lease), ids, lease)
    ensures ClaimReports(s, FlightsOf(s.plans, s.outbox, ids, lease), ids, lease.owner)
  {
    assert forall id :: id in Members(ids) <==> id in ids;
    assert forall i | 0 <= i < |ids| :: ids[i] in ids;
  }

  datatype Summary = Summary(claimed: nat, published: nat, retried: nat, deadLettered: nat, leaseLost: nat)

  /** Where a row that is sent once, undisturbed, ends up. */
  function EndsAs(phase: Phase): RowStatus {
    match phase
    case Refused(deadLetter) => if deadLetter then DeadLetter else Pending
    case _ => Published
  }

  /** The publisher's lease on the row and on its plan is intact, and the row is still to be sent. */
  predicate InHand(s: System, f: Flight) {
    && f in s.flights && f.phase == Phase.Claimed
    && HoldsIn(s, f) && f.plan in s.plans && TakesFailed(s.plans[f.plan], f.owner)
  }

  predicate SameBut(s: System, t: System, id: string) {
    && s.plans.Keys == t.plans.Keys && s.outbox.Keys == t.outbox.Keys && s.now == t.now
    && (forall x | x in s.plans && x != id :: t.plans[x] == s.plans[x])
    && (forall x | x in s.outbox && x != id :: t.outbox[x] == s.outbox[x])
  }

  lemma {:induction false} ReachKeepsInv(c: Config, s: System, steps: seq<Step>)
    requires Inv(c, s) && Reach(c, s, steps).Some?
    ensures Inv(c, Reach(c, s, steps).value)
    decreases steps
  {
    if steps != [] {
      StepKeeps(c, s, steps[0]);
      ReachKeepsInv(c, After(c, s, steps[0]), steps[1..]);
    }
  }

  lemma ReachTwo(c: Config, s: System, a: Step, b: Step)
    requires Enabled(c, s, a) && Enabled(c, After(c, s, a), b)
    ensures Reach(c, s, [a, b]) == Some(After(c, After(c, s, a), b))
  {
    assert [a, b][1..] == [b] && [b][1..] == [];
    assert Reach(c, After(c, s, a), [b]) == Some(After(c, After(c, s, a), b));
  }

  /** The flight changes phase in place: no other flight carries the same attempt. */
  lemma OnlyFlight(c: Config, s: System, f: Flight, phase: Phase)
    requires FlightsOk(c, s) && f in s.flights
    ensures s.flights - {f} + {f.(phase := phase)} - {f.(phase := phase)} == s.flights - {f}
  {
  }

  class DispatchStore {
    var now: nat
    var plans: map<string, Plan>
    var outbox: map<string, Row>
    var queue: map<Text, Text>
    ghost var flights: set<Flight>
    ghost var returned: map<string, set<nat>>

    ghost function Snapshot(): System
      reads this
    {
      System(now, plans, outbox, queue, flights, returned)
    }

    constructor (queue: map<Text, Text>)
      ensures Initial(Snapshot()) && this.queue == queue
    {
      this.queue := queue;
      now, plans, outbox, flights, returned := 0, map[], map[], {}, map[];
    }

    /** The ids that the claiming query selects. */
    method SelectClaimable(limit: nat, order: seq<string>, locked: set<string>) returns (ids: seq<string>)
      ensures ids == Take(Candidates(Snapshot(), order, locked), limit)
    {
      ids := [];
      ghost var all := Candidates(Snapshot(), order, locked);
      for i := 0 to |order|
        invariant Taken(all, ids, Candidates(Snapshot(), order[i..], locked), limit)
      {
        var id := order[i];
        assert order[i..][0] == id && order[i..][1..] == order[i + 1..];
        if |ids| < limit && id !in locked && id in plans && id in outbox && Claimable(now, plans[id], outbox[id]) {
          TakenNext(all, ids, id, Candidates(Snapshot(), order[i + 1..], locked), limit);
          ids := ids + [id];
        }
      }
    }

    method LeaseRows(chosen: set<string>, lease: Lease)
      modifies this`outbox
      ensures outbox == map id | id in old(outbox) :: if id in chosen then ClaimedRow(old(outbox)[id], lease)
        else old(outbox)[id]
    {
      outbox := map id | id in outbox :: if id in chosen then ClaimedRow(outbox[id], lease) else outbox[id];
    }

    method LeasePlans(chosen: set<string>, lease: Lease) returns (found: nat)
      requires forall id | id in chosen :: id in plans && Open(plans[id].status)
      modifies this`plans
      ensures plans == map id | id in old(plans) :: if id in chosen then ClaimedPlan(old(plans)[id], lease)
        else old(plans)[id]
      ensures found == |chosen|
    {
      var ids := set id | id in chosen && id in plans && Open(plans[id].status);
      assert ids == chosen;
      plans := map id | id in plans :: if id in ids then ClaimedPlan(plans[id], lease) else plans[id];
      found := |ids|;
    }

    /** claimBatch: the first rows of the query that are due and not locked elsewhere, up to the limit, get
        the lease, then their plans. The plans found are as many as the rows, so that, as one step, the check
        for a divergence never fires. */
    method ClaimBatch(owner: string, limit: nat, expires: nat, order: seq<string>, locked: set<string>)
      returns (claimed: seq<Flight>, diverged: bool, ghost ids: seq<string>)
      requires NoRepeat(order)
      modifies this
      ensures ClaimsDue(old(Snapshot()), order, locked, limit, ids)
      ensures ClaimEffect(old(Snapshot()), Snapshot(), ids, Lease(owner, expires))
      ensures ClaimReports(old(Snapshot()), claimed, ids, owner)
      ensures
        var s, lease := old(Snapshot()), Lease(owner, expires);
        && ids == Take(Candidates(s, order, locked), limit) && (forall id | id in ids :: ClaimableIn(s, id))
        && claimed == FlightsOf(s.plans, s.outbox, ids, lease)
        && Snapshot() == Claim(s, Members(ids), lease)
      ensures !diverged
    {
      var lease := Lease(owner, expires);
      CandidatesClaimable(Snapshot(), order, locked);
      CandidatesAreDue(Snapshot(), order, locked, limit);
      var chosen := SelectClaimable(limit, order, locked);
      ids := chosen;
      assert forall id | id in ids :: id in Candidates(Snapshot(), order, locked);
      assert forall id | id in ids :: ClaimableIn(Snapshot(), id);
      ClaimHasEffect(Snapshot(), ids, lease);
      claimed := FlightsOf(plans, outbox, chosen, lease);
      diverged := ClaimIds(chosen, lease);
    }

    method ClaimIds(ids: seq<string>, lease: Lease) returns (diverged: bool)
      requires forall id | id in ids :: ClaimableIn(Snapshot(), id)
      modifies this
      ensures forall id | id in Members(ids) :: id in old(plans) && id in old(outbox)
      ensures Snapshot() == Claim(old(Snapshot()), Members(ids), lease)
      ensures !diverged
    {
      var chosen := Members(ids);
      ghost var taken := set id | id in chosen :: FlightOf(id, ClaimedRow(outbox[id], lease), plans[id], lease.owner);
      LeaseRows(chosen, lease);
      var found := LeasePlans(chosen, lease);
      diverged := found != |chosen|;
      flights := flights + taken;
    }

    /** markPublished; a throw rolls the update of the row back. */
    method MarkPublished(f: Flight) returns (marked: Marked)
      modifies this`plans, this`outbox
      ensures PublishRight(old(Snapshot()), Snapshot(), f, marked)
      ensures (Snapshot(), marked) == Outbox.MarkPublished(old(Snapshot()), f)
    {
      MarksAreRight(Snapshot(), f, false, 0);
      if f.plan !in outbox || outbox[f.plan].status != RowStatus.Publishing || outbox[f.plan].lease.None?
         || outbox[f.plan].lease.value.owner != f.owner {
        return Lost;
      }
      if f.plan !in plans || !TakesPublished(plans[f.plan], f.owner) {
        return Threw;
      }
      outbox := outbox[f.plan := outbox[f.plan].(status := RowStatus.Published, lease := None)];
      plans := plans[f.plan := PublishedPlan(plans[f.plan])];
      return Done;
    }

    /** markFailed. */
    method MarkFailed(f: Flight, deadLetter: bool, retryAt: nat) returns (marked: Marked)
      modifies this`plans, this`outbox, this`returned
      ensures FailRight(old(Snapshot()), Snapshot(), f, deadLetter, retryAt, marked)
      ensures (Snapshot(), marked) == Outbox.MarkFailed(old(Snapshot()), f, deadLetter, retryAt)
    {
      MarksAreRight(Snapshot(), f, deadLetter, retryAt);
      if f.plan !in outbox || outbox[f.plan].status != RowStatus.Publishing || outbox[f.plan].lease.None?
         || outbox[f.plan].lease.value.owner != f.owner {
        return Lost;
      }
      if f.plan !in plans || !TakesFailed(plans[f.plan], f.owner) {
        return Threw;
      }
      outbox := outbox[f.plan := FailedRow(outbox[f.plan], deadLetter, retryAt)];
      plans := plans[f.plan := plans[f.plan].(status := if deadLetter then Failed else Planned, lease := None)];
      if !deadLetter {
        returned := returned[f.plan := Returned(Snapshot(), f.plan) + {f.attempt}];
      }
      return Done;
    }

    /** publishDispatchOutboxRow: get the job or add it, then compare. */
    method Send(c: Config, f: Flight, fault: Fault) returns (phase: Phase)
      modifies this`queue, this`flights
      ensures SendRight(c, old(queue), queue, f, fault, phase)
      ensures phase == PhaseAfter(c, old(queue), f, fault)
      ensures Snapshot() == Publish(c, old(Snapshot()), f, fault)
    {
      SendIsRight(c, queue, f, fault);
      phase := Enqueued;
      if !c.accepts(f.plan, f.job, f.payload, f.scheduledAt) {
        phase := Refused(true);
      } else if fault == NotAdded {
        phase := Refused(f.attempt >= c.maxAttempts);
      } else {
        if f.job !in queue {
          queue := queue[f.job := f.payload];
        }
        if fault == ReplyLost {
          phase := Refused(f.attempt >= c.maxAttempts);
        } else if queue[f.job] != f.payload {
          phase := Refused(true);
        }
      }
      flights := flights - {f} + {f.(phase := phase)};
    }

    /** The mark that follows the sending: Enqueued is confirmed, anything else reported. */
    method MarkSent(c: Config, sent: Flight, retryAt: nat)
      requires HoldsIn(Snapshot(), sent) && sent.plan in plans && TakesFailed(plans[sent.plan], sent.owner)
      modifies this
      ensures Snapshot() == if sent.phase.Refused? then Report(old(Snapshot()), sent, sent.phase.deadLetter, retryAt)
        else Confirm(c, old(Snapshot()), sent)
    {
      var marked;
      if sent.phase.Refused? {
        marked := MarkFailed(sent, sent.phase.deadLetter, retryAt);
      } else {
        marked := MarkPublished(sent);
      }
      flights := flights - {sent};
    }

    /** One row of a pass: send it, and mark it by the outcome. */
    method ProcessOne(c: Config, f: Flight, fault: Fault, retryAt: nat)
      returns (status: RowStatus, ghost steps: seq<Step>)
      requires Inv(c, Snapshot()) && InHand(Snapshot(), f)
      modifies this
      ensures EndRight(c, old(queue), f, fault, status)
      ensures SameBut(old(Snapshot()), Snapshot(), f.plan) && f.plan in outbox && outbox[f.plan].status == status
      ensures flights == old(flights) - {f}
      ensures Reach(c, old(Snapshot()), steps) == Some(Snapshot())
      ensures |queue| <= |old(queue)| + 1
    {
      steps := Pass(c, Snapshot(), f, fault, retryAt);
      PassEnds(c, Snapshot(), f, fault, retryAt);
      var phase := Send(c, f, fault);
      MarkSent(c, f.(phase := phase), retryAt);
      status := EndsAs(phase);
    }

    /** runOnce without a disturbance: a run of the step relation that loses no lease and leaves no
        claimed row in publishing; the summary counts where the rows that were due ended up. */
    method RunOnce(c: Config, owner: string, limit: nat, expires: nat, order: seq<string>, locked: set<string>,
                   fault: string -> Fault, retryAt: string -> nat)
      returns (summary: Summary, ghost steps: seq<Step>, ghost ids: seq<string>)
      requires Inv(c, Snapshot()) && NoRepeat(order)
      modifies this
      ensures Reach(c, old(Snapshot()), steps) == Some(Snapshot())
      ensures ClaimsDue(old(Snapshot()), order, locked, limit, ids)
      ensures
        && summary.claimed == |ids| == summary.published + summary.retried + summary.deadLettered
        && summary.leaseLost == 0
        && summary.published == CountAs(outbox, ids, Published)
        && summary.retried == CountAs(outbox, ids, Pending)
        && summary.deadLettered == CountAs(outbox, ids, DeadLetter)
      ensures |queue| <= |old(queue)| + limit
    {
      summary, steps, ids := Summary(0, 0, 0, 0, 0), [], [];
      if limit == 0 {
        return;
      }
      var claimed;
      claimed, steps, ids := ClaimStep(c, owner, limit, expires, order, locked);
      ghost var rest;
      summary, rest := ProcessAll(c, claimed, fault, retryAt, ids);
      ReachConcat(c, old(Snapshot()), steps, rest);
      steps := steps + rest;
      assert ids[..|ids|] == ids;
    }

    /** The claim of a pass, as a step. */
    method ClaimStep(c: Config, owner: string, limit: nat, expires: nat, order: seq<string>, locked: set<string>)
      returns (claimed: seq<Flight>, ghost steps: seq<Step>, ghost ids: seq<string>)
      requires Inv(c, Snapshot()) && NoRepeat(order)
      modifies this
      ensures Reach(c, old(Snapshot()), steps) == Some(Snapshot())
      ensures ClaimsDue(old(Snapshot()), order, locked, limit, ids)
      ensures Inv(c, Snapshot()) && Remaining(Snapshot(), claimed, 0) && queue == old(queue)
      ensures |claimed| == |ids| && forall i | 0 <= i < |ids| :: claimed[i].plan == ids[i]
    {
      ghost var s := Snapshot();
      var diverged;
      claimed, diverged, ids := ClaimBatch(owner, limit, expires, order, locked);
      ClaimIsStep(c, s, ids, Lease(owner, expires), claimed);
      steps := [ClaimSome(Members(ids), owner, expires)];
    }

    method ProcessAll(c: Config, claimed: seq<Flight>, fault: string -> Fault, retryAt: string -> nat,
                      ghost ids: seq<string>)
      returns (summary: Summary, ghost steps: seq<Step>)
      requires Inv(c, Snapshot()) && Remaining(Snapshot(), claimed, 0)
      requires |ids| == |claimed| && NoRepeat(ids) && forall i | 0 <= i < |ids| :: claimed[i].plan == ids[i]
      modifies this
      ensures summary.claimed == |ids| && Tallied(summary, outbox, ids, |ids|)
      ensures |queue| <= |old(queue)| + |ids|
      ensures Reach(c, old(Snapshot()), steps) == Some(Snapshot())
    {
      summary := Summary(|claimed|, 0, 0, 0, 0);
      steps := [];
      for i := 0 to |claimed|
        invariant Inv(c, Snapshot()) && Remaining(Snapshot(), claimed, i)
        invariant Reach(c, old(Snapshot()), steps) == Some(Snapshot())
        invariant summary.claimed == |ids| && Tallied(summary, outbox, ids, i)
        invariant |queue| <= |old(queue)| + i
      {
        ghost var before := Snapshot();
        ghost var pass;
        summary, pass := ProcessNext(c, claimed, i, fault, retryAt, summary, ids);
        ReachConcat(c, old(Snapshot()), steps, pass);
        steps := steps + pass;
      }
    }

    method ProcessNext(c: Config, claimed: seq<Flight>, i: nat, fault: string -> Fault, retryAt: string -> nat,
                       before: Summary, ghost ids: seq<string>)
      returns (summary: Summary, ghost steps: seq<Step>)
      requires Inv(c, Snapshot()) && Remaining(Snapshot(), claimed, i) && i < |claimed|
      requires |ids| == |claimed| && NoRepeat(ids) && forall i | 0 <= i < |ids| :: claimed[i].plan == ids[i]
      requires Tallied(before, outbox, ids, i)
      modifies this
      ensures summary.claimed == before.claimed && Tallied(summary, outbox, ids, i + 1)
      ensures Inv(c, Snapshot()) && Remaining(Snapshot(), claimed, i + 1)
      ensures Reach(c, old(Snapshot()), steps) == Some(Snapshot())
      ensures |queue| <= |old(queue)| + 1
    {
      var f := claimed[i];
      ghost var s := Snapshot();
      var status;
      status, steps := ProcessOne(c, f, fault(f.plan), retryAt(f.plan));
      ReachKeepsInv(c, s, steps);
      RemainingRest(s, Snapshot(), claimed, i);
      TallyMore(before, s.outbox, outbox, ids, i, status);
      summary := Tally(before, status);
    }
  }

  ghost predicate Remaining(s: System, claimed: seq<Flight>, i: nat) {
    forall j | i <= j < |claimed| :: InHand(s, claimed[j])
  }

  lemma RemainingRest(s: System, t: System, claimed: seq<Flight>, i: nat)
    requires i < |claimed| && Remaining(s, claimed, i) && SameBut(s, t, claimed[i].plan)
      && t.flights == s.flights - {claimed[i]}
    requires forall a, b | 0 <= a < b < |claimed| :: claimed[a].plan != claimed[b].plan
    ensures Remaining(t, claimed, i + 1)
  {
  }

  /** How many of the rows have the status. */
  ghost function CountAs(outbox: map<string, Row>, ids: seq<string>, status: RowStatus): nat {
    if ids == [] then 0 else
      var n := |ids| - 1;
      CountAs(outbox, ids[..n], status) + if ids[n] in outbox && outbox[ids[n]].status == status then 1 else 0
  }

  function Tally(summary: Summary, status: RowStatus): Summary {
    if status == Published then summary.(published := summary.published + 1)
    else if status == Pending then summary.(retried := summary.retried + 1)
    else summary.(deadLettered := summary.deadLettered + 1)
  }

  /** The summary counts the first i rows. */
  ghost predicate Tallied(summary: Summary, outbox: map<string, Row>, ids: seq<string>, i: nat) {
    && i <= |ids| && summary.leaseLost == 0
    && i == summary.published + summary.retried + summary.deadLettered
    && summary.published == CountAs(outbox, ids[..i], Published)
    && summary.retried == CountAs(outbox, ids[..i], Pending)
    && summary.deadLettered == CountAs(outbox, ids[..i], DeadLetter)
  }

  lemma TallyMore(summary: Summary, outbox: map<string, Row>, after: map<string, Row>, ids: seq<string>, i: nat,
                  status: RowStatus)
    requires i < |ids| && NoRepeat(ids) && ids[i] in after && after[ids[i]].status == status && status != Publishing
    requires outbox.Keys == after.Keys && forall x | x in outbox && x != ids[i] :: after[x] == outbox[x]
    requires Tallied(summary, outbox, ids, i)
    ensures Tallied(Tally(summary, status), after, ids, i + 1)
  {
    CountMore(outbox, after, ids, i, status);
  }

  lemma {:induction false} CountFrame(outbox: map<string, Row>, after: map<string, Row>, ids: seq<string>,
                                      status: RowStatus)
    requires forall id | id in ids :: (id in after <==> id in outbox) && (id in outbox ==> after[id] == outbox[id])
    ensures CountAs(after, ids, status) == CountAs(outbox, ids, status)
  {
    if ids != [] {
      CountFrame(outbox, after, ids[..|ids| - 1], status);
    }
  }

  lemma CountMore(outbox: map<string, Row>, after: map<string, Row>, ids: seq<string>, i: nat, status: RowStatus)
    requires i < |ids| && NoRepeat(ids) && ids[i] in after && after[ids[i]].status == status
    requires outbox.Keys == after.Keys && forall x | x in outbox && x != ids[i] :: after[x] == outbox[x]
    ensures forall any :: CountAs(after, ids[..i + 1], any) == CountAs(outbox, ids[..i], any) + if any == status then 1
      else 0
  {
    forall any
      ensures CountAs(after, ids[..i + 1], any) == CountAs(outbox, ids[..i], any) + if any == status then 1 else 0
    {
      CountFrame(outbox, after, ids[..i], any);
      assert ids[..i + 1][..i] == ids[..i];
    }
  }

  /** The claim is one step, and leaves every claimed row in the publisher's hand. */
  lemma ClaimIsStep(c: Config, s: System, ids: seq<string>, lease: Lease, claimed: seq<Flight>)
    requires Inv(c, s) && (forall id | id in ids :: ClaimableIn(s, id)) && NoRepeat(ids)
    requires forall id | id in ids :: id in s.plans && id in s.outbox
    requires claimed == FlightsOf(s.plans, s.outbox, ids, lease)
    ensures
      var step := ClaimSome(Members(ids), lease.owner, lease.expires);
      var t := Claim(s, Members(ids), lease);
      && Reach(c, s, [step]) == Some(t) && Inv(c, t) && Remaining(t, claimed, 0)
      && (forall i | 0 <= i < |ids| :: claimed[i].plan == ids[i])
  {
    var step := ClaimSome(Members(ids), lease.owner, lease.expires);
    assert [step][1..] == [];
    StepKeeps(c, s, step);
    forall i | 0 <= i < |ids|
      ensures InHand(Claim(s, Members(ids), lease), claimed[i])
    {
      assert ids[i] in Members(ids);
    }
  }

  /** The two steps of a row that is sent and marked without a disturbance. */
  function Pass(c: Config, s: System, f: Flight, fault: Fault, retryAt: nat): seq<Step> {
    var sent := f.(phase := PhaseAfter(c, s.queue, f, fault));
    [Step.Send(f, fault), if sent.phase.Refused? then ReportOne(sent, retryAt) else ConfirmOne(sent)]
  }

  function Passed(c: Config, s: System, f: Flight, fault: Fault, retryAt: nat): System {
    var t, sent := Publish(c, s, f, fault), f.(phase := PhaseAfter(c, s.queue, f, fault));
    if sent.phase.Refused? then Report(t, sent, sent.phase.deadLetter, retryAt) else Confirm(c, t, sent)
  }

  lemma PassEnds(c: Config, s: System, f: Flight, fault: Fault, retryAt: nat)
    requires Inv(c, s) && InHand(s, f)
    ensures
      var t := Passed(c, s, f, fault, retryAt);
      && Reach(c, s, Pass(c, s, f, fault, retryAt)) == Some(t)
      && SameBut(s, t, f.plan) && f.plan in t.outbox
      && t.outbox[f.plan].status == EndsAs(PhaseAfter(c, s.queue, f, fault))
      && EndRight(c, s.queue, f, fault, t.outbox[f.plan].status)
      && t.flights == s.flights - {f} && |t.queue| <= |s.queue| + 1
  {
    OneJobMore(c, s.queue, f, fault);
    var phase := PhaseAfter(c, s.queue, f, fault);
    var sent, t := f.(phase := phase), Publish(c, s, f, fault);
    OnlyFlight(c, s, f, phase);
    SentMarks(c, t, sent, retryAt);
    ReachTwo(c, s, Step.Send(f, fault), if phase.Refused? then ReportOne(sent, retryAt) else ConfirmOne(sent));
  }

  lemma OneJobMore(c: Config, queue: map<Text, Text>, f: Flight, fault: Fault)
    ensures |QueueAfter(c, queue, f, fault)| <= |queue| + 1
  {
    var after := QueueAfter(c, queue, f, fault);
    assert after.Keys == queue.Keys || after.Keys == queue.Keys + {f.job};
    assert |after| == |after.Keys| && |queue| == |queue.Keys|;
  }

  lemma SentMarks(c: Config, s: System, sent: Flight, retryAt: nat)
    requires HoldsIn(s, sent) && sent.plan in s.plans && TakesFailed(s.plans[sent.plan], sent.owner)
    ensures
      var t := if sent.phase.Refused? then Report(s, sent, sent.phase.deadLetter, retryAt) else Confirm(c, s, sent);
      && SameBut(s, t, sent.plan) && sent.plan in t.outbox
      && t.outbox[sent.plan].status == EndsAs(sent.phase) && t.flights == s.flights - {sent} && t.queue == s.queue
  {
  }
}
