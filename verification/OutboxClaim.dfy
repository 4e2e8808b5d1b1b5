/** When rows are claimed, and by whom a lease can be ended. claimBatch locks outbox rows only: the consumer
    may move plans between its two statements. */
module OutboxClaim {
  import opened Prelude
  import opened Outbox

  /** What the consumer does between the statements. */
  predicate OnlyApplies(moves: seq<Step>) {
    forall i | 0 <= i < |moves| :: moves[i].Apply?
  }

  predicate Touches(moves: seq<Step>, ids: set<string>) {
    exists i :: 0 <= i < |moves| && moves[i].Apply? && moves[i].id in ids
  }

  /** The plans that the second statement finds. */
  function Found(t: System, ids: set<string>): set<string> {
    set id | id in ids && id in t.plans && Open(t.plans[id].status)
  }

  /** The rows are leased as they were in s, the plans found are leased as they are in t; the attempts and
      times that the publisher is given are those of s. */
  function TwoStatements(s: System, t: System, ids: set<string>, lease: Lease): System
    requires forall id | id in ids :: id in s.plans && id in s.outbox
  {
    t.(outbox := map id | id in s.outbox :: if id in ids then ClaimedRow(s.outbox[id], lease) else s.outbox[id],
       plans := map id | id in t.plans :: if id in Found(t, ids) then ClaimedPlan(t.plans[id], lease) else t.plans[id],
       flights := s.flights + set id | id in ids ::
         FlightOf(id, ClaimedRow(s.outbox[id], lease), s.plans[id], lease.owner))
  }

  /** The consumer changes nothing but plans; a plan it touches is open no more. */
  ghost predicate MovedOn(s: System, t: System, moves: seq<Step>) {
    && t == s.(plans := t.plans) && t.plans.Keys == s.plans.Keys
    && (forall id | id in s.plans ::
          && t.plans[id].scheduledAt == s.plans[id].scheduledAt
          && if Touches(moves, {id}) then !Open(t.plans[id].status) else t.plans[id] == s.plans[id])
  }

  lemma {:induction false} AppliesMoveOn(c: Config, s: System, moves: seq<Step>)
    requires OnlyApplies(moves) && Reach(c, s, moves).Some?
    ensures MovedOn(s, Reach(c, s, moves).value, moves)
    decreases moves
  {
    if moves != [] {
      assert moves[0].Apply?;
      var next := After(c, s, moves[0]);
      AppliesMoveOn(c, next, moves[1..]);
      var t := Reach(c, next, moves[1..]).value;
      forall id | id in s.plans
        ensures t.plans[id].scheduledAt == s.plans[id].scheduledAt
        ensures if Touches(moves, {id}) then !Open(t.plans[id].status) else t.plans[id] == s.plans[id]
      {
        TouchesRest(moves, id);
      }
    }
  }

  lemma TouchesRest(moves: seq<Step>, id: string)
    requires moves != [] && moves[0].Apply?
    ensures Touches(moves, {id}) <==> moves[0].id == id || Touches(moves[1..], {id})
  {
    if i :| 0 <= i < |moves| && moves[i].Apply? && moves[i].id == id {
      assert i > 0 ==> moves[1..][i - 1] == moves[i];
    }
    if i :| 0 <= i < |moves[1..]| && moves[1..][i].Apply? && moves[1..][i].id == id {
      assert moves[i + 1].id == id;
    }
  }

  lemma FewerFound(found: set<string>, ids: set<string>)
    requires found <= ids
    ensures |found| == |ids| <==> found == ids
  {
    assert ids == found + (ids - found);
    assert |ids| == |found| + |ids - found|;
  }

  /** With moves of the consumer in between, the check for a divergence fires if and only if one of them
      touched a plan of the batch, and all is rolled back. Otherwise the two statements amount to the
      moves followed by the claim as one step. */
  lemma ClaimSerialises(c: Config, s: System, ids: set<string>, lease: Lease, moves: seq<Step>)
    requires forall id | id in ids :: id in s.plans && id in s.outbox && ClaimableIn(s, id)
    requires OnlyApplies(moves) && Reach(c, s, moves).Some?
    ensures
      var t := Reach(c, s, moves).value;
      && (|Found(t, ids)| != |ids| <==> Touches(moves, ids))
      && (|Found(t, ids)| == |ids| ==>
            && (forall id | id in ids :: ClaimableIn(t, id))
            && TwoStatements(s, t, ids, lease) == Claim(t, ids, lease))
  {
    var t := Reach(c, s, moves).value;
    AppliesMoveOn(c, s, moves);
    FewerFound(Found(t, ids), ids);
    if id :| id in ids && Touches(moves, {id}) {
      assert id !in Found(t, ids);
      assert Touches(moves, ids);
    } else {
      assert !Touches(moves, ids) by {
        if i :| 0 <= i < |moves| && moves[i].Apply? && moves[i].id in ids {
          assert Touches(moves, {moves[i].id});
        }
      }
      forall id | id in ids
        ensures ClaimableIn(t, id) && t.plans[id] == s.plans[id]
      {
        assert !Touches(moves, {id});
      }
      assert Found(t, ids) == ids;
    }
  }

  // --- leases ---

  /** The row is being published under a lease that has not run out. */
  predicate Leased(s: System, id: string, lease: Lease) {
    id in s.outbox && s.outbox[id].status == Publishing && s.outbox[id].lease == Some(lease) && s.now < lease.expires
  }

  /** The step is a mark, published or failed, of the row by the owner of the lease. */
  predicate MarkedBy(step: Step, id: string, owner: string) {
    (step.ConfirmOne? || step.ReportOne?) && step.flight.plan == id && step.flight.owner == owner
  }

  /** While a lease runs, nothing but a mark of its owner changes the row, and nothing but that and the
      consumer changes its plan; in particular nobody claims them. */
  lemma LeaseRespected(c: Config, s: System, step: Step, id: string, lease: Lease)
    requires Enabled(c, s, step) && Leased(s, id, lease) && !MarkedBy(step, id, lease.owner)
    ensures
      var t := After(c, s, step);
      && id in t.outbox && t.outbox[id] == s.outbox[id]
      && (id in s.plans && !(step.Apply? && step.id == id) ==> id in t.plans && t.plans[id] == s.plans[id])
  {
    if step.ClaimSome? && id in step.ids {
      DueIff(s, id);
    }
  }

  /** Over a run: as long as the lease has not run out and its owner has not marked the row, the row stays
      as it is. */
  lemma {:induction false} LeaseHolds(c: Config, states: seq<System>, steps: seq<Step>, id: string, lease: Lease,
                                      i: nat, j: nat)
    requires Run(c, states, steps) && i <= j < |states| && Leased(states[i], id, lease)
    requires forall k | i <= k < j :: states[k].now < lease.expires && !MarkedBy(steps[k], id, lease.owner)
    ensures id in states[j].outbox && states[j].outbox[id] == states[i].outbox[id]
    decreases j - i
  {
    if i < j {
      LeaseHolds(c, states, steps, id, lease, i, j - 1);
      LeaseRespected(c, states[j - 1], steps[j - 1], id, lease);
      assert states[j - 1 + 1] == After(c, states[j - 1], steps[j - 1]);
    }
  }

  /** A row is claimed only when it is due; it and its plan then carry the same lease and one attempt more. */
  lemma ClaimedWhenDue(c: Config, s: System, step: Step, id: string)
    requires Enabled(c, s, step) && id in s.outbox && After(c, s, step).outbox[id].attempts != s.outbox[id].attempts
    ensures step.ClaimSome? && Due(s, id)
    ensures
      var t, lease := After(c, s, step), Some(Lease(step.owner, step.expires));
      && t.outbox[id] == s.outbox[id].(status := Publishing, attempts := s.outbox[id].attempts + 1, lease := lease)
      && t.plans[id] == s.plans[id].(status := Dispatching, attempts := s.plans[id].attempts + 1, lease := lease)
  {
    DueIff(s, id);
  }
}
