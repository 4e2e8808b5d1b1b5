/** stageBatch, and one cycle of the dispatcher: the budget, the staging, the publishing. */
module Staging {
  import opened Prelude
  import opened Outbox
  import opened OutboxSafety
  import opened OutboxStore
  import Budget

  // --- what is counted, and what may be chosen ---

  /** What waits in the outbox for the release time. */
  ghost function Undelivered(s: System, at: nat): set<string> {
    set id | id in s.outbox && id in s.plans
      && (s.outbox[id].status == RowStatus.Pending || s.outbox[id].status == RowStatus.Publishing)
      && s.plans[id].scheduledAt.Some? && s.plans[id].scheduledAt.value <= at
  }

  /** Those of plans with an agent task and no other. */
  ghost function UndeliveredAgents(s: System, at: nat): set<string> {
    set id | id in s.outbox && id in s.plans
      && (s.outbox[id].status == RowStatus.Pending || s.outbox[id].status == RowStatus.Publishing)
      && s.plans[id].scheduledAt.Some? && s.plans[id].scheduledAt.value <= at
      && s.plans[id].tasks.agent && !s.plans[id].tasks.about && !s.plans[id].tasks.video
  }

  /** Plans with an agent task that are released but not finished; `applied`: the agent observation of the
      plan has been applied. */
  ghost function UnderWay(s: System, applied: set<string>): set<string> {
    set id | id in s.plans && s.plans[id].tasks.agent && id !in applied
      && (|| (s.plans[id].status == Planned && s.plans[id].scheduledAt.Some?)
          || s.plans[id].status == Dispatching || s.plans[id].status == Dispatched || s.plans[id].status == Running)
  }

  /** The plan is planned for the day of the release, unscheduled, eligible by then, and nobody holds it. */
  ghost predicate Available(s: System, order: seq<string>, locked: set<string>, at: nat, id: string) {
    && id in order && id !in locked && id in s.plans
    && s.plans[id].status == Planned && s.plans[id].scheduledAt.None?
    && s.plans[id].day == at / 86400000 && s.plans[id].eligibleAt <= at
  }

  /** The plan has an agent task and no other. */
  ghost predicate AgentAlone(s: System, id: string) {
    id in s.plans && s.plans[id].tasks.agent && !s.plans[id].tasks.about && !s.plans[id].tasks.video
  }

  ghost predicate ChannelWork(s: System, id: string) {
    id in s.plans && (s.plans[id].tasks.about || s.plans[id].tasks.video)
  }

  /** The plans in `ids` are scheduled and have a pending row; everything else is as it was. */
  ghost function StagedAll(c: Config, s: System, ids: set<string>, at: nat): System {
    s.(plans := map id | id in s.plans :: if id in ids then s.plans[id].(scheduledAt := Some(at)) else s.plans[id],
       outbox := map id | id in s.outbox.Keys + ids ::
         if id in ids then Row(c.envelope(id, at).0, c.envelope(id, at).1, at, RowStatus.Pending, 0, at, None)
         else s.outbox[id])
  }

  /** The room for agent-only plans that is left besides the room for all: rows waiting, and plans under way. */
  ghost predicate AgentRoomUsed(s: System, at: nat, agentOnly: nat, agentTarget: nat, applied: set<string>, n: nat) {
    |UndeliveredAgents(s, at)| + n >= agentOnly || |UnderWay(s, applied)| + n >= agentTarget
  }

  /** The agent-only plans and the other plans that are chosen: available, none twice, within the rooms, in
      the order of the query; one is left behind only if a room is used up. */
  ghost predicate ChosenRight(s: System, order: seq<string>, locked: set<string>, at: nat, total: nat, agentOnly: nat,
                              agentTarget: nat, applied: set<string>, agents: seq<string>, regulars: seq<string>) {
    var all := |Undelivered(s, at)| + |agents| + |regulars|;
    && NoRepeat(agents) && NoRepeat(regulars)
    && (forall id | id in agents :: Available(s, order, locked, at, id) && AgentAlone(s, id))
    && (forall id | id in regulars :: Available(s, order, locked, at, id) && ChannelWork(s, id))
    && (agents + regulars != [] ==> all <= total)
    && (agents != [] ==> |UndeliveredAgents(s, at)| + |agents| <= agentOnly)
    && (agents != [] ==> |UnderWay(s, applied)| + |agents| <= agentTarget)
    && (forall id | Available(s, order, locked, at, id) && AgentAlone(s, id) && id !in agents ::
          all >= total || AgentRoomUsed(s, at, agentOnly, agentTarget, applied, |agents|))
    && (forall id | Available(s, order, locked, at, id) && ChannelWork(s, id) && id !in regulars :: all >= total)
    && (forall i, j | 0 <= i < j < |order| && Available(s, order, locked, at, order[i]) && AgentAlone(s, order[i])
          && order[j] in agents :: order[i] in agents)
    && (forall i, j | 0 <= i < j < |order| && Available(s, order, locked, at, order[i]) && ChannelWork(s, order[i])
          && order[j] in regulars :: order[i] in regulars)
  }

  // --- the counts and the choice of the source ---

  method CountPending(store: DispatchStore, at: nat) returns (total: nat, agents: nat)
    ensures total == |Undelivered(store.Snapshot(), at)| && agents == |UndeliveredAgents(store.Snapshot(), at)|
  {
    var plans, outbox := store.plans, store.outbox;
    var rows := set id | id in outbox && id in plans && outbox[id].status in {RowStatus.Pending, RowStatus.Publishing}
                         && plans[id].scheduledAt.Some? && plans[id].scheduledAt.value <= at;
    var alone := set id | id in rows && plans[id].tasks.agent && !(plans[id].tasks.about || plans[id].tasks.video);
    assert rows == Undelivered(store.Snapshot(), at);
    assert alone == UndeliveredAgents(store.Snapshot(), at);
    return |rows|, |alone|;
  }

  method CountOutstanding(store: DispatchStore, applied: set<string>) returns (n: nat)
    ensures n == |UnderWay(store.Snapshot(), applied)|
  {
    var plans := store.plans;
    var ids := set id | id in plans && plans[id].tasks.agent
                        && plans[id].status in {Planned, Dispatching, Dispatched, Running}
                        && (plans[id].status != Planned || plans[id].scheduledAt.Some?)
                        && id !in applied;
    assert ids == UnderWay(store.Snapshot(), applied);
    return |ids|;
  }

  /** What a selecting query yields: available plans of the kind, each once, the first in its order. */
  ghost predicate Selected(s: System, order: seq<string>, locked: set<string>, at: nat, alone: bool, limit: nat,
                           ids: seq<string>) {
    && NoRepeat(ids) && |ids| <= limit
    && (forall id | id in ids :: Wanted(s, order, locked, at, alone, id))
    && (forall id | Wanted(s, order, locked, at, alone, id) && id !in ids :: |ids| == limit)
    && (forall i, j | 0 <= i < j < |order| && Wanted(s, order, locked, at, alone, order[i]) && order[j] in ids ::
          order[i] in ids)
  }

  ghost predicate Wanted(s: System, order: seq<string>, locked: set<string>, at: nat, alone: bool, id: string) {
    Available(s, order, locked, at, id) && if alone then AgentAlone(s, id) else ChannelWork(s, id)
  }

  /** The query for agent-only plans, or for those with channel work. */
  method SelectPlans(store: DispatchStore, order: seq<string>, locked: set<string>, at: nat, alone: bool, limit: nat)
    returns (ids: seq<string>)
    requires NoRepeat(order)
    ensures Selected(store.Snapshot(), order, locked, at, alone, limit, ids)
  {
    ids := [];
    ghost var s := store.Snapshot();
    for i := 0 to |order|
      invariant s == store.Snapshot() && NoRepeat(ids) && |ids| <= limit
      invariant forall id | id in ids :: Wanted(s, order, locked, at, alone, id) && id in order[..i]
      invariant forall j | 0 <= j < i && Wanted(s, order, locked, at, alone, order[j]) && order[j] !in ids ::
        |ids| == limit
      invariant forall j, k | 0 <= j < k < i && Wanted(s, order, locked, at, alone, order[j]) && order[k] in ids ::
        order[j] in ids
    {
      var id := order[i];
      assert order[..i + 1] == order[..i] + [id] && id in order;
      assert id !in order[..i];
      if |ids| < limit && id !in locked && id in store.plans && Releasable(store.plans[id], at) {
        var tasks := store.plans[id].tasks;
        if if alone then tasks.agent && !tasks.about && !tasks.video else tasks.about || tasks.video {
          ids := ids + [id];
        }
      }
    }
    assert order[..|order|] == order;
  }

  // --- the transaction ---

  function StageSteps(ids: seq<string>, at: nat): seq<Step> {
    if ids == [] then [] else StageSteps(ids[..|ids| - 1], at) + [StageOne(ids[|ids| - 1], at)]
  }

  lemma StageOneMore(c: Config, s: System, ids: seq<string>, i: nat, at: nat, t: System)
    requires i < |ids| && Reach(c, s, StageSteps(ids[..i], at)) == Some(t) && Stageable(c, t, ids[i], at)
    ensures Reach(c, s, StageSteps(ids[..i + 1], at)) == Some(Stage(c, t, ids[i], at))
  {
    assert ids[..i + 1][..i] == ids[..i];
    ReachConcat(c, s, StageSteps(ids[..i], at), [StageOne(ids[i], at)]);
    assert [StageOne(ids[i], at)][1..] == [];
  }

  /** The update of one plan and the insert of its outbox row; a unique key may refuse the insert. */
  method StagePlan(store: DispatchStore, c: Config, id: string, at: nat) returns (refused: bool)
    requires id in store.plans && Releasable(store.plans[id], at) && InWindow(at)
    modifies store`plans, store`outbox
    ensures refused <==> !Stageable(c, old(store.Snapshot()), id, at)
    ensures !refused ==> store.Snapshot() == Stage(c, old(store.Snapshot()), id, at)
  {
    var row := Staged(c, id, at);
    if id in store.outbox || exists other | other in store.outbox :: store.outbox[other].job == row.job {
      return true;
    }
    store.plans := store.plans[id := store.plans[id].(scheduledAt := Some(at))];
    store.outbox := store.outbox[id := row];
    return false;
  }

  lemma {:induction false} MembersCount(ids: seq<string>)
    requires NoRepeat(ids)
    ensures |Members(ids)| == |ids|
  {
    if ids != [] {
      var n := |ids| - 1;
      MembersCount(ids[..n]);
      assert ids == ids[..n] + [ids[n]];
      assert Members(ids) == Members(ids[..n]) + {ids[n]};
    }
  }

  lemma StagedOne(c: Config, s: System, ids: set<string>, id: string, at: nat)
    requires id !in ids && id in s.plans && id !in s.outbox
    ensures id in StagedAll(c, s, ids, at).plans && StagedAll(c, s, ids, at).plans[id] == s.plans[id]
    ensures Stage(c, StagedAll(c, s, ids, at), id, at) == StagedAll(c, s, ids + {id}, at)
  {
    var before, after := StagedAll(c, s, ids, at), StagedAll(c, s, ids + {id}, at);
    assert Stage(c, before, id, at).plans == after.plans;
    assert Stage(c, before, id, at).outbox == after.outbox;
  }

  /** Some row of the batch already exists, or its job id is taken, also by another plan of the batch. */
  ghost predicate Collides(c: Config, s: System, ids: seq<string>, at: nat) {
    exists i | 0 <= i < |ids| ::
      || ids[i] in s.outbox
      || (exists other | other in s.outbox :: s.outbox[other].job == c.envelope(ids[i], at).0)
      || (exists j | 0 <= j < |ids| && j != i :: c.envelope(ids[j], at).0 == c.envelope(ids[i], at).0)
  }

  lemma NotStageable(c: Config, s: System, ids: seq<string>, i: nat, at: nat)
    requires NoRepeat(ids) && i < |ids| && ids[i] in s.plans && Releasable(s.plans[ids[i]], at) && InWindow(at)
    requires !Stageable(c, StagedAll(c, s, Members(ids[..i]), at), ids[i], at)
    ensures Collides(c, s, ids, at)
  {
    var t, id := StagedAll(c, s, Members(ids[..i]), at), ids[i];
    assert id !in Members(ids[..i]);
    if id !in s.outbox {
      var other :| other in t.outbox && t.outbox[other].job == c.envelope(id, at).0;
      if other in Members(ids[..i]) {
        var j :| 0 <= j < i && ids[j] == other;
      } else {
        assert other in s.outbox && s.outbox[other].job == c.envelope(id, at).0;
      }
    }
  }

  /** After the first i plans. */
  ghost predicate StagedSome(c: Config, s: System, ids: seq<string>, i: nat, at: nat, t: System)
    requires i <= |ids|
  {
    && t == StagedAll(c, s, Members(ids[..i]), at) && Reach(c, s, StageSteps(ids[..i], at)) == Some(t)
    && forall j | 0 <= j < i :: ids[j] !in s.outbox
  }

  lemma StagedNext(c: Config, s: System, ids: seq<string>, i: nat, at: nat, t: System)
    requires NoRepeat(ids) && i < |ids| && ids[i] in s.plans && StagedSome(c, s, ids, i, at, t)
    requires Stageable(c, t, ids[i], at)
    ensures StagedSome(c, s, ids, i + 1, at, Stage(c, t, ids[i], at))
  {
    assert ids[i] !in Members(ids[..i]);
    StagedOne(c, s, Members(ids[..i]), ids[i], at);
    StageOneMore(c, s, ids, i, at, t);
    assert Members(ids[..i + 1]) == Members(ids[..i]) + {ids[i]};
  }

  lemma StillThere(c: Config, s: System, ids: seq<string>, i: nat, at: nat, t: System)
    requires NoRepeat(ids) && i < |ids| && ids[i] in s.plans && t == StagedAll(c, s, Members(ids[..i]), at)
    ensures ids[i] in t.plans && t.plans[ids[i]] == s.plans[ids[i]]
  {
    assert ids[i] !in Members(ids[..i]);
  }

  method StagePlans(store: DispatchStore, c: Config, ids: seq<string>, at: nat) returns (refused: bool)
    requires NoRepeat(ids) && InWindow(at)
    requires forall id | id in ids :: id in store.plans && Releasable(store.plans[id], at)
    modifies store`plans, store`outbox
    ensures refused ==> Collides(c, old(store.Snapshot()), ids, at)
    ensures !refused ==>
      && (forall id | id in ids :: id !in old(store.outbox))
      && store.Snapshot() == StagedAll(c, old(store.Snapshot()), Members(ids), at)
      && Reach(c, old(store.Snapshot()), StageSteps(ids, at)) == Some(store.Snapshot())
  {
    ghost var s := store.Snapshot();
    NoneStaged(c, s, at);
    for i := 0 to |ids|
      invariant StagedSome(c, s, ids, i, at, store.Snapshot())
    {
      assert ids[i] in ids;
      StillThere(c, s, ids, i, at, store.Snapshot());
      ghost var before := store.Snapshot();
      refused := StagePlan(store, c, ids[i], at);
      if refused {
        NotStageable(c, s, ids, i, at);
        return;
      }
      StagedNext(c, s, ids, i, at, before);
    }
    assert ids[..|ids|] == ids;
    refused := false;
  }

  lemma NoneStaged(c: Config, s: System, at: nat)
    ensures StagedAll(c, s, Members([]), at) == s
  {
    assert StagedAll(c, s, {}, at).plans == s.plans;
    assert StagedAll(c, s, {}, at).outbox == s.outbox;
  }

  lemma StagedSets(c: Config, s: System, ids: set<string>, agents: set<string>, at: nat)
    requires agents <= ids && forall id | id in ids :: id in s.plans && id !in s.outbox
    requires forall id | id in ids :: id in agents <==> AgentAlone(s, id)
    ensures Undelivered(StagedAll(c, s, ids, at), at) == Undelivered(s, at) + ids
    ensures UndeliveredAgents(StagedAll(c, s, ids, at), at) == UndeliveredAgents(s, at) + agents
    ensures Undelivered(s, at) !! ids && UndeliveredAgents(s, at) !! agents
  {
  }

  lemma NothingStaged(c: Config, s: System, at: nat, applied: set<string>, total: nat, agentOnly: nat, target: nat)
    ensures StagedAll(c, s, Members([] + []), at) == s
    ensures CountsWithin(s, s, at, total, agentOnly, target, applied, Members([]))
  {
    NoneStaged(c, s, at);
    assert Members([] + []) == Members([]) == {};
    NothingAdded(UnderWay(s, applied));
  }

  lemma NoRoom(s: System, order: seq<string>, locked: set<string>, at: nat, agentOnly: nat, target: nat,
               applied: set<string>)
    ensures ChosenRight(s, order, locked, at, 0, agentOnly, target, applied, [], [])
  {
  }

  lemma NothingAdded(ids: set<string>)
    ensures ids + {} == ids
  {
  }

  /** The three counts stay within their limits, unless they were above them. */
  ghost predicate CountsWithin(s: System, t: System, at: nat, total: nat, agentOnly: nat, agentTarget: nat,
                               applied: set<string>, staged: set<string>) {
    && |Undelivered(t, at)| <= Budget.Max(|Undelivered(s, at)|, total)
    && |UndeliveredAgents(t, at)| <= Budget.Max(|UndeliveredAgents(s, at)|, agentOnly)
    && |UnderWay(s, applied) + staged| <= Budget.Max(|UnderWay(s, applied)|, agentTarget)
  }

  lemma StagedWithin(c: Config, s: System, at: nat, total: nat, agentOnly: nat, agentTarget: nat, applied: set<string>,
                     agents: seq<string>, regulars: seq<string>)
    requires NoRepeat(agents) && NoRepeat(regulars) && forall id | id in agents + regulars :: id !in s.outbox
    requires forall id | id in agents ::
      AgentAlone(s, id) && s.plans[id].status == Planned && s.plans[id].scheduledAt.None?
    requires forall id | id in regulars :: ChannelWork(s, id)
    requires agents + regulars != [] ==> |Undelivered(s, at)| + |agents| + |regulars| <= total
    requires agents != [] ==> |UndeliveredAgents(s, at)| + |agents| <= agentOnly
    requires agents != [] ==> |UnderWay(s, applied)| + |agents| <= agentTarget
    ensures CountsWithin(s, StagedAll(c, s, Members(agents + regulars), at), at, total, agentOnly, agentTarget, applied,
                         Members(agents))
  {
    StagedCounts(c, s, at, applied, agents, regulars);
  }

  lemma StagedCounts(c: Config, s: System, at: nat, applied: set<string>, agents: seq<string>, regulars: seq<string>)
    requires NoRepeat(agents) && NoRepeat(regulars) && forall id | id in agents + regulars :: id !in s.outbox
    requires forall id | id in agents ::
      AgentAlone(s, id) && s.plans[id].status == Planned && s.plans[id].scheduledAt.None?
    requires forall id | id in regulars :: ChannelWork(s, id)
    ensures
      var t := StagedAll(c, s, Members(agents + regulars), at);
      && |Undelivered(t, at)| == |Undelivered(s, at)| + |agents| + |regulars|
      && |UndeliveredAgents(t, at)| == |UndeliveredAgents(s, at)| + |agents|
      && |UnderWay(s, applied) + Members(agents)| == |UnderWay(s, applied)| + |agents|
  {
    MembersCount(agents);
    MembersCount(regulars);
    MembersOf(agents, regulars);
    StagedSizes(c, s, at, Members(agents), Members(regulars));
    NotUnderWay(s, applied, Members(agents));
  }

  lemma MembersOf(a: seq<string>, b: seq<string>)
    ensures Members(a + b) == Members(a) + Members(b)
    ensures forall id :: id in Members(a) <==> id in a
    ensures forall id :: id in Members(b) <==> id in b
  {
  }

  lemma UnionSize(a: set<string>, b: set<string>)
    requires a !! b
    ensures |a + b| == |a| + |b|
  {
  }

  lemma NotUnderWay(s: System, applied: set<string>, ids: set<string>)
    requires forall id | id in ids :: id in s.plans && s.plans[id].status == Planned && s.plans[id].scheduledAt.None?
    ensures |UnderWay(s, applied) + ids| == |UnderWay(s, applied)| + |ids|
  {
    UnionSize(UnderWay(s, applied), ids);
  }

  lemma StagedSizes(c: Config, s: System, at: nat, alone: set<string>, others: set<string>)
    requires forall id | id in alone + others :: id !in s.outbox
    requires forall id | id in alone :: AgentAlone(s, id)
    requires forall id | id in others :: ChannelWork(s, id)
    ensures |Undelivered(StagedAll(c, s, alone + others, at), at)| == |Undelivered(s, at)| + |alone| + |others|
    ensures |UndeliveredAgents(StagedAll(c, s, alone + others, at), at)| == |UndeliveredAgents(s, at)| + |alone|
  {
    assert forall id | id in alone + others :: id in alone <==> AgentAlone(s, id);
    StagedSets(c, s, alone + others, alone, at);
    UnionSize(alone, others);
    UnionSize(Undelivered(s, at), alone + others);
    UnionSize(UndeliveredAgents(s, at), alone);
  }

  lemma ChosenApart(s: System, order: seq<string>, locked: set<string>, at: nat, total: nat, agentOnly: nat,
                    agentTarget: nat, applied: set<string>, agents: seq<string>, regulars: seq<string>)
    requires ChosenRight(s, order, locked, at, total, agentOnly, agentTarget, applied, agents, regulars)
    ensures NoRepeat(agents + regulars)
    ensures forall id | id in agents + regulars :: id in s.plans && Releasable(s.plans[id], at)
  {
    forall i, j | 0 <= i < j < |agents + regulars|
      ensures (agents + regulars)[i] != (agents + regulars)[j]
    {
      if i < |agents| && j >= |agents| {
        assert agents[i] in agents && regulars[j - |agents|] in regulars;
      }
    }
  }

  function Left(limit: nat, used: nat): nat {
    if used < limit then limit - used else 0
  }

  /** What is chosen, before anything is written: agent-only plans first, the others in what is left. */
  method Choose(store: DispatchStore, at: nat, total: nat, agentOnly: nat, agentTarget: nat,
                order: seq<string>, locked: set<string>, applied: set<string>)
    returns (agents: seq<string>, regulars: seq<string>)
    requires NoRepeat(order)
    ensures ChosenRight(store.Snapshot(), order, locked, at, total, agentOnly, agentTarget, applied, agents, regulars)
  {
    var pending, pendingAgents := CountPending(store, at);
    var room := Left(total, pending);
    if room == 0 {
      return [], [];
    }
    var outstanding := CountOutstanding(store, applied);
    var agentRoom := Budget.Min(room, Budget.Min(Left(agentOnly, pendingAgents), Left(agentTarget, outstanding)));
    agents := SelectPlans(store, order, locked, at, true, agentRoom);
    regulars := SelectPlans(store, order, locked, at, false, room - |agents|);
    ghost var s := store.Snapshot();
    assert forall id ::
      Wanted(s, order, locked, at, true, id) <==> Available(s, order, locked, at, id) && AgentAlone(s, id);
    assert forall id ::
      Wanted(s, order, locked, at, false, id) <==> Available(s, order, locked, at, id) && ChannelWork(s, id);
  }

  /** A batch as it should be: the right plans are chosen; each of them has a row, unless a unique key refused
      one and nothing is changed; and the counts stay within their limits. */
  ghost predicate BatchRight(c: Config, s: System, t: System, order: seq<string>, locked: set<string>, at: nat,
                             total: nat, agentOnly: nat, agentTarget: nat, applied: set<string>,
                             agents: seq<string>, regulars: seq<string>, refused: bool) {
    && ChosenRight(s, order, locked, at, total, agentOnly, agentTarget, applied, agents, regulars)
    && (if refused then t == s && Collides(c, s, agents + regulars, at)
        else t == StagedAll(c, s, Members(agents + regulars), at))
    && CountsWithin(s, t, at, total, agentOnly, agentTarget, applied, if refused then {} else Members(agents))
  }

  lemma NothingIsRight(c: Config, s: System, order: seq<string>, locked: set<string>, at: nat, agentOnly: nat,
                       agentTarget: nat, applied: set<string>)
    ensures BatchRight(c, s, s, order, locked, at, 0, agentOnly, agentTarget, applied, [], [], false)
  {
    NoRoom(s, order, locked, at, agentOnly, agentTarget, applied);
    NothingStaged(c, s, at, applied, 0, agentOnly, agentTarget);
  }

  lemma RefusedIsRight(c: Config, s: System, order: seq<string>, locked: set<string>, at: nat, total: nat,
                       agentOnly: nat, agentTarget: nat, applied: set<string>, agents: seq<string>,
                       regulars: seq<string>)
    requires ChosenRight(s, order, locked, at, total, agentOnly, agentTarget, applied, agents, regulars)
    requires Collides(c, s, agents + regulars, at)
    ensures BatchRight(c, s, s, order, locked, at, total, agentOnly, agentTarget, applied, agents, regulars, true)
  {
    NothingAdded(UnderWay(s, applied));
  }

  lemma StagedIsRight(c: Config, s: System, order: seq<string>, locked: set<string>, at: nat, total: nat,
                      agentOnly: nat, agentTarget: nat, applied: set<string>, agents: seq<string>,
                       regulars: seq<string>)
    requires ChosenRight(s, order, locked, at, total, agentOnly, agentTarget, applied, agents, regulars)
    requires forall id | id in agents + regulars :: id !in s.outbox
    ensures BatchRight(c, s, StagedAll(c, s, Members(agents + regulars), at), order, locked, at, total, agentOnly,
                       agentTarget, applied, agents, regulars, false)
  {
    StagedWithin(c, s, at, total, agentOnly, agentTarget, applied, agents, regulars);
  }

  /** The transaction, once the limits are known. */
  method StageWithin(store: DispatchStore, c: Config, at: nat, total: nat, agentOnly: nat, agentTarget: nat,
                     order: seq<string>, locked: set<string>, applied: set<string>)
    returns (staged: nat, refused: bool, ghost agents: seq<string>, ghost regulars: seq<string>, ghost steps: seq<Step>)
    requires NoRepeat(order) && InWindow(at)
    modifies store`plans, store`outbox
    ensures Reach(c, old(store.Snapshot()), steps) == Some(store.Snapshot())
    ensures BatchRight(c, old(store.Snapshot()), store.Snapshot(), order, locked, at, total, agentOnly, agentTarget,
                       applied, agents, regulars, refused)
    ensures staged == if refused then 0 else |agents| + |regulars|
  {
    ghost var s := store.Snapshot();
    var alone, others := Choose(store, at, total, agentOnly, agentTarget, order, locked, applied);
    agents, regulars := alone, others;
    ChosenApart(s, order, locked, at, total, agentOnly, agentTarget, applied, alone, others);
    refused, steps := StageOrRollBack(store, c, alone + others, at);
    if refused {
      RefusedIsRight(c, s, order, locked, at, total, agentOnly, agentTarget, applied, agents, regulars);
      return 0, true, agents, regulars, steps;
    }
    StagedIsRight(c, s, order, locked, at, total, agentOnly, agentTarget, applied, agents, regulars);
    staged := |alone| + |others|;
  }

  method StageOrRollBack(store: DispatchStore, c: Config, ids: seq<string>, at: nat)
    returns (refused: bool, ghost steps: seq<Step>)
    requires NoRepeat(ids) && InWindow(at)
    requires forall id | id in ids :: id in store.plans && Releasable(store.plans[id], at)
    modifies store`plans, store`outbox
    ensures Reach(c, old(store.Snapshot()), steps) == Some(store.Snapshot())
    ensures refused ==> Collides(c, old(store.Snapshot()), ids, at) && store.Snapshot() == old(store.Snapshot())
    ensures !refused ==>
      && (forall id | id in ids :: id !in old(store.outbox))
      && store.Snapshot() == StagedAll(c, old(store.Snapshot()), Members(ids), at)
  {
    var plans, outbox := store.plans, store.outbox;
    refused := StagePlans(store, c, ids, at);
    steps := StageSteps(ids, at);
    if refused {
      store.plans, store.outbox := plans, outbox;
      steps := [];
    }
  }

  /** Nothing is asked of the database if nothing may be released. */
  method StageLimited(store: DispatchStore, c: Config, at: nat, total: nat, agentOnly: nat, agentTarget: nat,
                      order: seq<string>, locked: set<string>, applied: set<string>)
    returns (staged: nat, refused: bool, ghost agents: seq<string>, ghost regulars: seq<string>, ghost steps: seq<Step>)
    requires NoRepeat(order) && InWindow(at)
    modifies store`plans, store`outbox
    ensures Reach(c, old(store.Snapshot()), steps) == Some(store.Snapshot())
    ensures BatchRight(c, old(store.Snapshot()), store.Snapshot(), order, locked, at, total, agentOnly, agentTarget,
                       applied, agents, regulars, refused)
    ensures staged == if refused then 0 else |agents| + |regulars|
  {
    if total == 0 {
      NothingIsRight(c, store.Snapshot(), order, locked, at, agentOnly, agentTarget, applied);
      return 0, false, [], [], [];
    }
    staged, refused, agents, regulars, steps :=
      StageWithin(store, c, at, total, agentOnly, agentTarget, order, locked, applied);
  }

  /** stageBatch: outside the window nothing is done; inside it a batch within the three limits, each held
      within its bounds. The result is a run of the step relation. */
  method StageBatch(store: DispatchStore, c: Config, at: nat, total: int, agentOnly: int, agentTarget: int,
                    order: seq<string>, locked: set<string>, applied: set<string>)
    returns (staged: nat, refused: bool, ghost agents: seq<string>, ghost regulars: seq<string>, ghost steps: seq<Step>)
    requires NoRepeat(order)
    modifies store`plans, store`outbox
    ensures Reach(c, old(store.Snapshot()), steps) == Some(store.Snapshot())
    ensures staged == if refused then 0 else |agents| + |regulars|
    ensures !(1800000 <= at % 86400000 < 77400000) ==>
      store.Snapshot() == old(store.Snapshot()) && !refused && agents == [] == regulars
    ensures 1800000 <= at % 86400000 < 77400000 ==>
      var limit := Budget.Max(0, Budget.Min(500, total));
      BatchRight(c, old(store.Snapshot()), store.Snapshot(), order, locked, at, limit,
                 Budget.Max(0, Budget.Min(limit, agentOnly)), Budget.Max(1, Budget.Min(100000, agentTarget)),
                 applied, agents, regulars, refused)
  {
    TimeOfDay(at);
    staged, refused, agents, regulars, steps := 0, false, [], [], [];
    if !InWindow(at) {
      return;
    }
    var limit := Budget.Max(0, Budget.Min(500, total));
    var alone, target := Budget.Max(0, Budget.Min(limit, agentOnly)), Budget.Max(1, Budget.Min(100000, agentTarget));
    staged, refused, agents, regulars, steps :=
      StageLimited(store, c, at, limit, alone, target, order, locked, applied);
  }

  // --- one cycle ---

  /** One cycle without a disturbance. Outside the window nothing happens. Inside it the right plans are
      staged for the sampled budget, unless a unique key refuses one; then what is due is claimed up to the
      same limit and sent. The jobs that are added keep the pressure of the queue at its channel target
      unless it was higher already. */
  method Cycle(store: DispatchStore, c: Config, t: Budget.Telemetry, o: Budget.Options, at: nat, owner: string,
               expires: nat, order: seq<string>, locked: set<string>, applied: set<string>, fault: string -> Fault,
               retryAt: string -> nat)
    returns (refused: bool, ghost agents: seq<string>, ghost regulars: seq<string>, ghost ids: seq<string>,
             ghost steps: seq<Step>)
    requires Budget.Bounded(o) && NoRepeat(order) && Inv(c, store.Snapshot())
    modifies store
    ensures Reach(c, old(store.Snapshot()), steps) == Some(store.Snapshot())
    ensures !(1800000 <= at % 86400000 < 77400000) ==> store.Snapshot() == old(store.Snapshot())
    ensures 1800000 <= at % 86400000 < 77400000 ==>
      var s, b := old(store.Snapshot()), Budget.Compute(t, o);
      var staged := if refused then s else StagedAll(c, s, Members(agents + regulars), at);
      && BatchRight(c, s, staged, order, locked, at, b.totalLimit, b.agentOnlyLimit,
                    Budget.Max(1, Budget.Min(100000, b.agentPendingTarget)), applied, agents, regulars, refused)
      && (if refused then store.Snapshot() == s else ClaimsDue(staged, order, locked, b.totalLimit, ids))
    ensures
      var b := Budget.Compute(t, o);
      && t.incremental.pressure + (|store.queue| - |old(store.queue)|)
         <= Budget.Max(t.incremental.pressure, b.channelTarget)
  {
    refused, agents, regulars, ids, steps := false, [], [], [], [];
    TimeOfDay(at);
    if !InWindow(at) {
      return;
    }
    var b := Budget.Compute(t, o);
    Budget.LimitFits(t, o);
    var staged;
    staged, refused, agents, regulars, steps :=
      StageBatch(store, c, at, b.totalLimit, b.agentOnlyLimit, b.agentPendingTarget, order, locked, applied);
    if refused {
      return;
    }
    ghost var staging := steps;
    ReachKeepsInv(c, old(store.Snapshot()), staging);
    var summary;
    ghost var publishing;
    summary, publishing, ids := store.RunOnce(c, owner, b.totalLimit, expires, order, locked, fault, retryAt);
    ReachConcat(c, old(store.Snapshot()), staging, publishing);
    steps := staging + publishing;
  }
}
