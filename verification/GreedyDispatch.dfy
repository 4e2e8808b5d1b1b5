/** buildAgentDispatchPlan: batches go, one at a time, to the least used configuration. */
module GreedyDispatch {
  import opened Prelude
  import Budget

  datatype AgentConfig = AgentConfig(id: nat, maxWorkers: int, enabled: bool)

  /** A configuration that can take work: its worker limit and what is outstanding at the start. */
  datatype Slot = Slot(config: AgentConfig, capacity: nat, outstanding: nat)

  /** agentConfigWorkerLimit */
  function WorkerLimit(config: AgentConfig): nat {
    if config.maxWorkers < 1 then 1 else if config.maxWorkers > 100 then 100 else config.maxWorkers
  }

  ghost predicate Proper(slots: seq<Slot>) {
    forall i | 0 <= i < |slots| :: slots[i].outstanding < slots[i].capacity
  }

  function Outstanding(outstanding: map<nat, nat>, id: nat): nat {
    if id in outstanding then outstanding[id] else 0
  }

  /** The enabled configurations with a valid id that are not full. */
  function Slots(configs: seq<AgentConfig>, outstanding: map<nat, nat>): (slots: seq<Slot>)
    ensures Proper(slots)
  {
    if configs == [] then [] else
      var c := configs[0];
      var slot := Slot(c, WorkerLimit(c), Outstanding(outstanding, c.id));
      (if c.enabled && c.id > 0 && slot.outstanding < slot.capacity then [slot] else [])
        + Slots(configs[1..], outstanding)
  }

  /** The configuration is enabled, has a positive id, and is below its worker limit, which lies between
      1 and 100. */
  ghost predicate TakesPart(c: AgentConfig, outstanding: map<nat, nat>) {
    && c.enabled && c.id > 0
    && (c.id in outstanding ==> outstanding[c.id] < Budget.Max(1, Budget.Min(100, c.maxWorkers)))
  }

  ghost predicate SlotFor(slot: Slot, c: AgentConfig, outstanding: map<nat, nat>) {
    && slot.config == c && slot.capacity == Budget.Max(1, Budget.Min(100, c.maxWorkers))
    && slot.outstanding == if c.id in outstanding then outstanding[c.id] else 0
  }

  /** `at` lists in rising order where, from n on, the configurations that take part stand; the slots are
      theirs. */
  ghost predicate StandAt(configs: seq<AgentConfig>, outstanding: map<nat, nat>, n: nat, slots: seq<Slot>,
                          at: seq<nat>) {
    && |at| == |slots| && (forall i, j | 0 <= i < j < |at| :: at[i] < at[j])
    && (forall i | 0 <= i < |at| :: n <= at[i] < |configs| && SlotFor(slots[i], configs[at[i]], outstanding))
    && (forall k | n <= k < |configs| :: k in at <==> TakesPart(configs[k], outstanding))
  }

  lemma FirstSlot(configs: seq<AgentConfig>, outstanding: map<nat, nat>, n: nat)
    requires n < |configs|
    ensures
      var c, slots, rest := configs[n], Slots(configs[n..], outstanding), Slots(configs[n + 1..], outstanding);
      if TakesPart(c, outstanding) then slots != [] && SlotFor(slots[0], c, outstanding) && slots == [slots[0]] + rest
      else slots == rest
  {
    assert configs[n..][0] == configs[n] && configs[n..][1..] == configs[n + 1..];
  }

  lemma StandNext(configs: seq<AgentConfig>, outstanding: map<nat, nat>, n: nat, slot: Slot, slots: seq<Slot>,
                  at: seq<nat>)
    requires n < |configs| && StandAt(configs, outstanding, n + 1, slots, at)
    requires TakesPart(configs[n], outstanding) && SlotFor(slot, configs[n], outstanding)
    ensures StandAt(configs, outstanding, n, [slot] + slots, [n] + at)
  {
    var more, all := [n] + at, [slot] + slots;
    assert forall i | 0 < i < |more| :: more[i] == at[i - 1] && all[i] == slots[i - 1];
    assert forall i, j | 0 <= i < j < |more| :: more[i] < more[j];
    forall i | 0 <= i < |more|
      ensures n <= more[i] < |configs| && SlotFor(all[i], configs[more[i]], outstanding)
    {
      if i > 0 {
        assert SlotFor(slots[i - 1], configs[at[i - 1]], outstanding);
      }
    }
    forall k | n <= k < |configs|
      ensures k in more <==> TakesPart(configs[k], outstanding)
    {
      assert k in more <==> k == n || k in at;
      if k == n {
        assert more[0] == k;
      } else {
        assert k in at <==> TakesPart(configs[k], outstanding);
      }
    }
  }

  lemma {:induction false} SlotsFrom(configs: seq<AgentConfig>, outstanding: map<nat, nat>, n: nat)
    returns (at: seq<nat>)
    requires n <= |configs|
    ensures StandAt(configs, outstanding, n, Slots(configs[n..], outstanding), at)
    decreases |configs| - n
  {
    at := [];
    if n < |configs| {
      at := SlotsFrom(configs, outstanding, n + 1);
      FirstSlot(configs, outstanding, n);
      if TakesPart(configs[n], outstanding) {
        StandNext(configs, outstanding, n, Slots(configs[n..], outstanding)[0], Slots(configs[n + 1..], outstanding),
                  at);
        at := [n] + at;
      }
    }
  }

  /** The slots are the configurations that take part, in their order, each with its limit and what is
      outstanding. */
  lemma SlotsAreEligible(configs: seq<AgentConfig>, outstanding: map<nat, nat>) returns (at: seq<nat>)
    ensures StandAt(configs, outstanding, 0, Slots(configs, outstanding), at)
  {
    assert configs[0..] == configs;
    at := SlotsFrom(configs, outstanding, 0);
  }

  // --- the order in which slots are chosen; `loads` is outstanding plus shares ---

  function Use(slot: Slot, load: nat): real {
    if slot.capacity == 0 then 0.0 else load as real / slot.capacity as real
  }

  predicate Free(slots: seq<Slot>, loads: seq<nat>, i: nat)
    requires |loads| == |slots|
  {
    i < |slots| && loads[i] < slots[i].capacity
  }

  /** The comparator of the sort, which is stable. */
  predicate Before(slots: seq<Slot>, loads: seq<nat>, i: nat, j: nat)
    requires |loads| == |slots| && i < |slots| && j < |slots|
  {
    var left, right := Use(slots[i], loads[i]), Use(slots[j], loads[j]);
    || left < right
    || (left == right && (
      || slots[i].capacity > slots[j].capacity
      || (slots[i].capacity == slots[j].capacity && (
        || slots[i].config.id < slots[j].config.id
        || (slots[i].config.id == slots[j].config.id && i < j)))))
  }

  ghost predicate IsFirst(slots: seq<Slot>, loads: seq<nat>, i: nat)
    requires |loads| == |slots|
  {
    Free(slots, loads, i) && forall j | 0 <= j < |slots| && j != i && Free(slots, loads, j) ::
      Before(slots, loads, i, j)
  }

  /** The first of the available slots, without sorting the rest; none if all are full. */
  method PickFirst(slots: seq<Slot>, loads: seq<nat>) returns (first: Option<nat>)
    requires |loads| == |slots|
    ensures first.Some? ==> IsFirst(slots, loads, first.value)
    ensures first.None? ==> forall i | 0 <= i < |slots| :: !Free(slots, loads, i)
  {
    first := None;
    for i := 0 to |slots|
      invariant first.None? ==> forall j | 0 <= j < i :: !Free(slots, loads, j)
      invariant first.Some? ==> first.value < i && Free(slots, loads, first.value)
      invariant first.Some? ==> forall j | 0 <= j < i && j != first.value && Free(slots, loads, j) ::
        Before(slots, loads, first.value, j)
    {
      if loads[i] < slots[i].capacity && (first.None? || Before(slots, loads, i, first.value)) {
        first := Some(i);
      }
    }
  }

  // --- allocations ---

  function Room(slot: Slot): nat {
    if slot.outstanding < slot.capacity then slot.capacity - slot.outstanding else 0
  }

  function TotalRoom(slots: seq<Slot>): nat {
    if slots == [] then 0 else TotalRoom(slots[..|slots| - 1]) + Room(slots[|slots| - 1])
  }

  function Total(a: seq<nat>): nat {
    if a == [] then 0 else Total(a[..|a| - 1]) + a[|a| - 1]
  }

  ghost predicate Feasible(slots: seq<Slot>, a: seq<nat>) {
    |a| == |slots| && forall i | 0 <= i < |slots| :: a[i] <= Room(slots[i])
  }

  /** How often slot i occurs in the plan. */
  function Times(plan: seq<nat>, i: nat): nat {
    if plan == [] then 0 else Times(plan[..|plan| - 1], i) + if plan[|plan| - 1] == i then 1 else 0
  }

  ghost predicate Counts(slots: seq<Slot>, plan: seq<nat>, a: seq<nat>) {
    |a| == |slots| && (forall k | 0 <= k < |plan| :: plan[k] < |slots|) && forall i | 0 <= i < |slots| ::
      a[i] == Times(plan, i)
  }

  /** Taking the last batch from any slot would leave it no more used than any slot with room. */
  ghost predicate Balanced(slots: seq<Slot>, a: seq<nat>)
    requires |a| == |slots|
  {
    forall i, j | 0 <= i < |slots| && 0 <= j < |slots| && a[i] > 0 && a[j] < Room(slots[j]) ::
      Use(slots[i], slots[i].outstanding + a[i] - 1) <= Use(slots[j], slots[j].outstanding + a[j])
  }

  lemma UseGrows(slot: Slot, low: nat, high: nat)
    requires low <= high
    ensures Use(slot, low) <= Use(slot, high)
  {
    if slot.capacity > 0 {
      Divides(low as real, high as real, slot.capacity as real);
    }
  }

  lemma Divides(low: real, high: real, divisor: real)
    requires low <= high && divisor > 0.0
    ensures low / divisor <= high / divisor
  {
    assert high / divisor - low / divisor == (high - low) / divisor;
  }

  lemma {:induction false} TotalOne(a: seq<nat>, i: nat)
    requires i < |a|
    ensures Total(a[i := a[i] + 1]) == Total(a) + 1
  {
    var n := |a| - 1;
    var b := a[i := a[i] + 1];
    if i < n {
      TotalOne(a[..n], i);
      assert b[..n] == a[..n][i := a[i] + 1];
    } else {
      assert b[..n] == a[..n];
    }
  }

  lemma {:induction false} TotalZero(a: seq<nat>)
    requires forall i | 0 <= i < |a| :: a[i] == 0
    ensures Total(a) == 0
  {
    if a != [] {
      TotalZero(a[..|a| - 1]);
    }
  }

  lemma {:induction false} TotalAtMost(slots: seq<Slot>, a: seq<nat>)
    requires Feasible(slots, a)
    ensures Total(a) <= TotalRoom(slots)
    ensures (forall i | 0 <= i < |slots| :: a[i] == Room(slots[i])) ==> Total(a) == TotalRoom(slots)
  {
    if a != [] {
      TotalAtMost(slots[..|slots| - 1], a[..|a| - 1]);
    }
  }

  lemma MoreTimes(slots: seq<Slot>, plan: seq<nat>, a: seq<nat>, first: nat)
    requires Counts(slots, plan, a) && first < |slots|
    ensures Counts(slots, plan + [first], a[first := a[first] + 1])
  {
    assert (plan + [first])[..|plan|] == plan;
  }

  lemma StaysBalanced(slots: seq<Slot>, a: seq<nat>, loads: seq<nat>, first: nat)
    requires Proper(slots) && Feasible(slots, a) && Balanced(slots, a) && |loads| == |slots|
    requires forall i | 0 <= i < |slots| :: loads[i] == slots[i].outstanding + a[i]
    requires IsFirst(slots, loads, first)
    ensures Balanced(slots, a[first := a[first] + 1])
  {
    var b := a[first := a[first] + 1];
    forall i, j | 0 <= i < |slots| && 0 <= j < |slots| && b[i] > 0 && b[j] < Room(slots[j])
      ensures Use(slots[i], slots[i].outstanding + b[i] - 1) <= Use(slots[j], slots[j].outstanding + b[j])
    {
      UseGrows(slots[j], loads[j], slots[j].outstanding + b[j]);
      assert Free(slots, loads, j) && Free(slots, loads, first);
    }
  }

  /** Everything that holds of a plan while it grows. */
  ghost predicate PlanOk(slots: seq<Slot>, plan: seq<nat>, shares: seq<nat>) {
    && Counts(slots, plan, shares) && Feasible(slots, shares) && Total(shares) == |plan|
    && Balanced(slots, shares)
    && forall k | 0 <= k < |plan| :: IsFirst(slots, Loads(slots, plan[..k]), plan[k])
  }

  lemma PlanGrows(slots: seq<Slot>, plan: seq<nat>, shares: seq<nat>, i: nat)
    requires Proper(slots) && PlanOk(slots, plan, shares) && IsFirst(slots, Loads(slots, plan), i)
    ensures PlanOk(slots, plan + [i], shares[i := shares[i] + 1])
  {
    StaysBalanced(slots, shares, Loads(slots, plan), i);
    MoreTimes(slots, plan, shares, i);
    TotalOne(shares, i);
    Extends(slots, plan, i);
  }

  lemma EmptyPlan(slots: seq<Slot>, shares: seq<nat>)
    requires |shares| == |slots| && forall i | 0 <= i < |slots| :: shares[i] == 0
    ensures PlanOk(slots, [], shares)
  {
    TotalZero(shares);
  }

  /** The greedy loop. The plan is as long as the limit and the room allow, exceeds no capacity, and
      is balanced; each choice is the first in the order of the sort after the choices before it. */
  method BuildPlan(slots: seq<Slot>, limit: nat) returns (plan: seq<nat>, shares: seq<nat>)
    requires Proper(slots)
    ensures |plan| == if limit <= TotalRoom(slots) then limit else TotalRoom(slots)
    ensures PlanOk(slots, plan, shares)
  {
    plan := [];
    shares := seq(|slots|, i => 0);
    EmptyPlan(slots, shares);
    while |plan| < limit
      invariant PlanOk(slots, plan, shares) && |plan| <= limit
      decreases limit - |plan|
    {
      var full;
      plan, shares, full := GiveOne(slots, plan, shares);
      if full {
        return;
      }
    }
    WithinRoom(slots, plan, shares);
  }

  /** One turn of the loop: the first available slot takes a batch, unless all are full. */
  method GiveOne(slots: seq<Slot>, plan: seq<nat>, shares: seq<nat>)
    returns (more: seq<nat>, after: seq<nat>, full: bool)
    requires Proper(slots) && PlanOk(slots, plan, shares)
    ensures PlanOk(slots, more, after)
    ensures full ==> more == plan && |plan| == TotalRoom(slots)
    ensures !full ==> |more| == |plan| + 1
  {
    var first := PickFirst(slots, Loads(slots, plan));
    if first.None? {
      FullMeansAll(slots, plan, shares);
      return plan, shares, true;
    }
    var i := first.value;
    PlanGrows(slots, plan, shares, i);
    return plan + [i], shares[i := shares[i] + 1], false;
  }

  lemma WithinRoom(slots: seq<Slot>, plan: seq<nat>, shares: seq<nat>)
    requires PlanOk(slots, plan, shares)
    ensures |plan| <= TotalRoom(slots)
  {
    TotalAtMost(slots, shares);
  }

  /** The loads after a plan. */
  function Loads(slots: seq<Slot>, plan: seq<nat>): seq<nat> {
    seq(|slots|, i requires 0 <= i < |slots| => slots[i].outstanding + Times(plan, i))
  }

  lemma Extends(slots: seq<Slot>, plan: seq<nat>, i: nat)
    requires forall k | 0 <= k < |plan| :: IsFirst(slots, Loads(slots, plan[..k]), plan[k])
    requires IsFirst(slots, Loads(slots, plan), i)
    ensures forall k | 0 <= k <= |plan| :: IsFirst(slots, Loads(slots, (plan + [i])[..k]), (plan + [i])[k])
  {
    forall k | 0 <= k <= |plan|
      ensures IsFirst(slots, Loads(slots, (plan + [i])[..k]), (plan + [i])[k])
    {
      assert (plan + [i])[..k] == plan[..k];
      assert plan[..|plan|] == plan;
    }
  }

  lemma FullMeansAll(slots: seq<Slot>, plan: seq<nat>, shares: seq<nat>)
    requires Proper(slots) && PlanOk(slots, plan, shares)
    requires forall i | 0 <= i < |slots| :: !Free(slots, Loads(slots, plan), i)
    ensures |plan| == TotalRoom(slots)
  {
    forall i | 0 <= i < |slots|
      ensures shares[i] == Room(slots[i])
    {
      assert !Free(slots, Loads(slots, plan), i);
    }
    TotalAtMost(slots, shares);
  }

  // --- a balanced allocation is optimal ---

  lemma {:induction false} SomewhereLess(a: seq<nat>, b: seq<nat>)
    requires |a| == |b| && Total(a) >= Total(b) && exists i :: 0 <= i < |a| && b[i] > a[i]
    ensures exists j :: 0 <= j < |a| && b[j] < a[j]
  {
    if forall j | 0 <= j < |a| :: b[j] >= a[j] {
      TotalMonotone(a, b);
    }
  }

  lemma {:induction false} TotalMonotone(a: seq<nat>, b: seq<nat>)
    requires |a| == |b| && forall i | 0 <= i < |a| :: a[i] <= b[i]
    ensures Total(a) <= Total(b)
    ensures (exists i :: 0 <= i < |a| && a[i] < b[i]) ==> Total(a) < Total(b)
  {
    if a != [] {
      var n := |a| - 1;
      TotalMonotone(a[..n], b[..n]);
      if i :| 0 <= i < |a| && a[i] < b[i] && i < n {
        assert a[..n][i] < b[..n][i];
      }
    }
  }

  /** Max-min: no feasible allocation of the same size has a higher minimum utilisation. Whatever slot
      is least used under a, some slot is used no more than that under b. */
  lemma BalancedMaximisesMinimum(slots: seq<Slot>, a: seq<nat>, b: seq<nat>, i: nat)
    requires Feasible(slots, a) && Balanced(slots, a) && Feasible(slots, b) && Total(b) == Total(a) && i < |slots|
    ensures exists j ::
      0 <= j < |slots| && Use(slots[j], slots[j].outstanding + b[j]) <= Use(slots[i], slots[i].outstanding + a[i])
  {
    if b[i] <= a[i] {
      UseGrows(slots[i], slots[i].outstanding + b[i], slots[i].outstanding + a[i]);
    } else {
      SomewhereLess(a, b);
      var j :| 0 <= j < |a| && b[j] < a[j];
      UseGrows(slots[j], slots[j].outstanding + b[j], slots[j].outstanding + a[j] - 1);
    }
  }

  /** The load that the k-th batch meets on a slot, relative to its capacity. */
  function Marginal(slot: Slot, k: nat): real
    requires k > 0
  {
    Use(slot, slot.outstanding + k - 1)
  }

  function SlotCost(slot: Slot, n: nat): real {
    if n == 0 then 0.0 else SlotCost(slot, n - 1) + Marginal(slot, n)
  }

  function Cost(slots: seq<Slot>, a: seq<nat>): real
    requires |a| == |slots|
  {
    if a == [] then 0.0 else Cost(slots[..|a| - 1], a[..|a| - 1]) + SlotCost(slots[|a| - 1], a[|a| - 1])
  }

  /** The cost above a price per batch. */
  function Surplus(slot: Slot, n: nat, price: real): real {
    if n == 0 then 0.0 else Surplus(slot, n - 1, price) + Marginal(slot, n) - price
  }

  function TotalSurplus(slots: seq<Slot>, a: seq<nat>, price: real): real
    requires |a| == |slots|
  {
    if a == [] then 0.0 else
      TotalSurplus(slots[..|a| - 1], a[..|a| - 1], price) + Surplus(slots[|a| - 1], a[|a| - 1], price)
  }

  function Worth(n: nat, price: real): real {
    if n == 0 then 0.0 else Worth(n - 1, price) + price
  }

  lemma {:induction false} WorthAdds(n: nat, m: nat, price: real)
    ensures Worth(n + m, price) == Worth(n, price) + Worth(m, price)
  {
    if m > 0 {
      WorthAdds(n, m - 1, price);
    }
  }

  lemma {:induction false} SlotSurplus(slot: Slot, n: nat, price: real)
    ensures SlotCost(slot, n) == Surplus(slot, n, price) + Worth(n, price)
  {
    if n > 0 {
      SlotSurplus(slot, n - 1, price);
    }
  }

  lemma {:induction false} CostIsSurplus(slots: seq<Slot>, a: seq<nat>, price: real)
    requires |a| == |slots|
    ensures Cost(slots, a) == TotalSurplus(slots, a, price) + Worth(Total(a), price)
  {
    if a != [] {
      var n := |a| - 1;
      CostIsSurplus(slots[..n], a[..n], price);
      SlotSurplus(slots[n], a[n], price);
      WorthAdds(Total(a[..n]), a[n], price);
    }
  }

  lemma {:induction false} SurplusAbove(slot: Slot, n: nat, m: nat, price: real)
    requires n <= m && (n < m ==> price <= Marginal(slot, n + 1))
    ensures Surplus(slot, n, price) <= Surplus(slot, m, price)
    decreases m - n
  {
    if n < m {
      SurplusAbove(slot, n, m - 1, price);
      UseGrows(slot, slot.outstanding + n, slot.outstanding + m - 1);
    }
  }

  lemma {:induction false} SurplusBelow(slot: Slot, n: nat, m: nat, price: real)
    requires m <= n && (m < n ==> Marginal(slot, n) <= price)
    ensures Surplus(slot, n, price) <= Surplus(slot, m, price)
    decreases n - m
  {
    if m < n {
      if m < n - 1 {
        UseGrows(slot, slot.outstanding + n - 2, slot.outstanding + n - 1);
      }
      SurplusBelow(slot, n - 1, m, price);
    }
  }

  /** A price that every batch taken is worth, and that every batch still possible costs at least. */
  ghost predicate Clears(slots: seq<Slot>, a: seq<nat>, price: real)
    requires |a| == |slots|
  {
    forall i | 0 <= i < |slots| ::
      && (a[i] > 0 ==> Marginal(slots[i], a[i]) <= price)
      && (a[i] < Room(slots[i]) ==> price <= Marginal(slots[i], a[i] + 1))
  }

  lemma {:induction false} ClearingHasLeastSurplus(slots: seq<Slot>, a: seq<nat>, b: seq<nat>, price: real)
    requires Feasible(slots, a) && Feasible(slots, b) && Clears(slots, a, price)
    ensures TotalSurplus(slots, a, price) <= TotalSurplus(slots, b, price)
  {
    if a != [] {
      var n := |a| - 1;
      ClearingHasLeastSurplus(slots[..n], a[..n], b[..n], price);
      if a[n] <= b[n] {
        SurplusAbove(slots[n], a[n], b[n], price);
      } else {
        SurplusBelow(slots[n], a[n], b[n], price);
      }
    }
  }

  /** Among the first n slots that take something, one whose last batch is the dearest. */
  lemma {:induction false} DearestTaken(slots: seq<Slot>, a: seq<nat>, n: nat, i: nat)
    requires |a| == |slots| && i < n <= |a| && a[i] > 0
    ensures exists m :: 0 <= m < n && IsDearest(slots, a, n, m)
    decreases n
  {
    if k :| 0 <= k < n - 1 && a[k] > 0 {
      DearestTaken(slots, a, n - 1, k);
      var m :| 0 <= m < n - 1 && IsDearest(slots, a, n - 1, m);
      var best := if a[n - 1] > 0 && Marginal(slots[n - 1], a[n - 1]) > Marginal(slots[m], a[m]) then n - 1 else m;
      assert IsDearest(slots, a, n, best);
    } else {
      assert IsDearest(slots, a, n, i);
    }
  }

  ghost predicate IsDearest(slots: seq<Slot>, a: seq<nat>, n: nat, m: nat)
    requires |a| == |slots| && m < n <= |a|
  {
    a[m] > 0 && forall i | 0 <= i < n && a[i] > 0 :: Marginal(slots[i], a[i]) <= Marginal(slots[m], a[m])
  }

  /** Least total load: no feasible allocation of the same size has a smaller sum of marginal loads. */
  lemma BalancedIsCheapest(slots: seq<Slot>, a: seq<nat>, b: seq<nat>)
    requires Feasible(slots, a) && Balanced(slots, a) && Feasible(slots, b) && Total(b) == Total(a)
    ensures Cost(slots, a) <= Cost(slots, b)
  {
    if i :| 0 <= i < |a| && a[i] > 0 {
      DearestTaken(slots, a, |a|, i);
      var m :| 0 <= m < |a| && IsDearest(slots, a, |a|, m);
      var price := Marginal(slots[m], a[m]);
      ClearingHasLeastSurplus(slots, a, b, price);
      CostIsSurplus(slots, a, price);
      CostIsSurplus(slots, b, price);
    } else {
      TotalMonotone(a, b);
      assert forall i | 0 <= i < |a| :: b[i] == 0;
      assert a == b;
    }
  }

  /** positiveInt, for a whole number. */
  function Clamped(n: int): nat {
    if n < 1 then 1 else if n > 100 then 100 else n
  }

  function Limit(workerCapacity: int, outstandingTotal: int, maxBatches: int): nat {
    var taken := if outstandingTotal > 0 then outstandingTotal else 0;
    var workers := (if workerCapacity > 0 then workerCapacity else 0) - taken;
    if workers <= 0 then 0 else if workers < Clamped(maxBatches) then workers else Clamped(maxBatches)
  }

  ghost predicate BestShares(slots: seq<Slot>, a: seq<nat>) {
    && Feasible(slots, a)
    && (forall b | Feasible(slots, b) && Total(b) == Total(a) ::
          && Cost(slots, a) <= Cost(slots, b)
          && (forall i | 0 <= i < |slots| :: NoHigher(slots, a, b, i)))
  }

  /** Some slot is used no more under b than slot i is under a. */
  ghost predicate NoHigher(slots: seq<Slot>, a: seq<nat>, b: seq<nat>, i: nat)
    requires |a| == |slots| == |b| && i < |slots|
  {
    exists j :: 0 <= j < |slots|
      && Use(slots[j], slots[j].outstanding + b[j]) <= Use(slots[i], slots[i].outstanding + a[i])
  }

  /** The load of slot i, as a share of its capacity, is below that of slot j; at equal shares the larger
      capacity, then the smaller id, then the earlier configuration comes first. */
  ghost predicate Precedes(slots: seq<Slot>, plan: seq<nat>, i: nat, j: nat)
    requires i < |slots| && j < |slots|
  {
    var a, b := slots[i], slots[j];
    var left, right := (a.outstanding + Times(plan, i)) * b.capacity, (b.outstanding + Times(plan, j)) * a.capacity;
    || left < right
    || (left == right && a.capacity > b.capacity)
    || (left == right && a.capacity == b.capacity && a.config.id < b.config.id)
    || (left == right && a.capacity == b.capacity && a.config.id == b.config.id && i < j)
  }

  lemma CrossMultiplied(a: nat, b: nat, c: nat, d: nat)
    requires b > 0 && d > 0
    ensures a as real / b as real < c as real / d as real <==> a * d < c * b
    ensures a as real / b as real == c as real / d as real <==> a * d == c * b
  {
    var x, y, z := a as real / b as real, c as real / d as real, b as real * d as real;
    assert a as real == x * b as real && c as real == y * d as real;
    assert (a * d) as real == x * z && (c * b) as real == y * z;
    Scaled(x, y, z);
  }

  lemma Scaled(x: real, y: real, z: real)
    requires z > 0.0
    ensures x < y <==> x * z < y * z
    ensures x == y <==> x * z == y * z
  {
    if x < y {
      assert (y - x) * z > 0.0;
    } else if x > y {
      assert (x - y) * z > 0.0;
    }
  }

  lemma BeforePrecedes(slots: seq<Slot>, plan: seq<nat>, i: nat, j: nat)
    requires Proper(slots) && i < |slots| && j < |slots|
    ensures Before(slots, Loads(slots, plan), i, j) <==> Precedes(slots, plan, i, j)
  {
    var a, b := slots[i], slots[j];
    CrossMultiplied(a.outstanding + Times(plan, i), a.capacity, b.outstanding + Times(plan, j), b.capacity);
  }

  /** The k-th batch goes to a slot that is not full and precedes every other that is not. */
  ghost predicate ChosenFirst(slots: seq<Slot>, plan: seq<nat>, k: nat)
    requires k < |plan|
  {
    var before, i := plan[..k], plan[k];
    && i < |slots| && slots[i].outstanding + Times(before, i) < slots[i].capacity
    && forall j | 0 <= j < |slots| && j != i && slots[j].outstanding + Times(before, j) < slots[j].capacity ::
         Precedes(slots, before, i, j)
  }

  lemma ChoicesInOrder(slots: seq<Slot>, plan: seq<nat>, shares: seq<nat>)
    requires Proper(slots) && PlanOk(slots, plan, shares)
    ensures forall k | 0 <= k < |plan| :: ChosenFirst(slots, plan, k)
  {
    forall k | 0 <= k < |plan|
      ensures ChosenFirst(slots, plan, k)
    {
      var loads := Loads(slots, plan[..k]);
      assert IsFirst(slots, loads, plan[k]);
      forall j | 0 <= j < |slots| && j != plan[k] && slots[j].outstanding + Times(plan[..k], j) < slots[j].capacity
        ensures Precedes(slots, plan[..k], plan[k], j)
      {
        assert Free(slots, loads, j);
        BeforePrecedes(slots, plan[..k], plan[k], j);
      }
    }
  }

  /** Fair in whole numbers: under any other allocation of the same size that fits, some slot is used no
      more, in proportion to its capacity, than slot i is. */
  lemma SharesAreFair(slots: seq<Slot>, a: seq<nat>, b: seq<nat>, i: nat)
    requires Proper(slots) && BestShares(slots, a) && |b| == |slots| && i < |slots| && Total(b) == Total(a)
    requires forall j | 0 <= j < |slots| :: slots[j].outstanding + b[j] <= slots[j].capacity
    ensures exists j :: 0 <= j < |slots| && NoMoreUsed(slots, b, j, a, i)
  {
    FitsIsFeasible(slots, b);
    assert NoHigher(slots, a, b, i);
    NoHigherMeans(slots, a, b, i);
  }

  lemma NoHigherMeans(slots: seq<Slot>, a: seq<nat>, b: seq<nat>, i: nat)
    requires Proper(slots) && |a| == |slots| == |b| && i < |slots| && NoHigher(slots, a, b, i)
    ensures exists j :: 0 <= j < |slots| && NoMoreUsed(slots, b, j, a, i)
  {
    var j :| 0 <= j < |slots|
      && Use(slots[j], slots[j].outstanding + b[j]) <= Use(slots[i], slots[i].outstanding + a[i]);
    UseMeans(slots[j], slots[j].outstanding + b[j], slots[i], slots[i].outstanding + a[i]);
    assert NoMoreUsed(slots, b, j, a, i);
  }

  lemma FitsIsFeasible(slots: seq<Slot>, b: seq<nat>)
    requires |b| == |slots| && forall j | 0 <= j < |slots| :: slots[j].outstanding + b[j] <= slots[j].capacity
    ensures Feasible(slots, b)
  {
  }

  lemma UseMeans(x: Slot, m: nat, y: Slot, n: nat)
    requires x.capacity > 0 && y.capacity > 0
    ensures Use(x, m) <= Use(y, n) <==> m * y.capacity <= n * x.capacity
  {
    CrossMultiplied(m, x.capacity, n, y.capacity);
  }

  /** In proportion to its capacity slot j is used no more under b than slot i is under a. */
  ghost predicate NoMoreUsed(slots: seq<Slot>, b: seq<nat>, j: nat, a: seq<nat>, i: nat)
    requires |a| == |b| == |slots| && i < |slots| && j < |slots|
  {
    (slots[j].outstanding + b[j]) * slots[i].capacity <= (slots[i].outstanding + a[i]) * slots[j].capacity
  }

  function RoomOf(slots: seq<Slot>): nat
    requires Proper(slots)
  {
    if slots == [] then 0
    else RoomOf(slots[..|slots| - 1]) + (slots[|slots| - 1].capacity - slots[|slots| - 1].outstanding)
  }

  lemma {:induction false} RoomIs(slots: seq<Slot>)
    requires Proper(slots)
    ensures TotalRoom(slots) == RoomOf(slots)
  {
    if slots != [] {
      RoomIs(slots[..|slots| - 1]);
    }
  }

  /** buildAgentDispatchPlan, with the indices it chose and the share of each configuration. The plan never
      gives work to more workers than there are left over, and never more than 100 or maxBatches batches; it
      is shorter than the room of the configurations only if one of these bounds is met. Each batch goes to
      the first configuration in the order, and the shares are the best possible, both for the least used
      configuration and for the sum of the marginal loads. */
  method BuildAgentDispatchPlan(configs: seq<AgentConfig>, outstanding: map<nat, nat>, outstandingTotal: int,
                                workerCapacity: int, maxBatches: int)
    returns (plan: seq<AgentConfig>, choices: seq<nat>, shares: seq<nat>)
    ensures plan != [] ==> |plan| + Budget.Max(0, outstandingTotal) <= workerCapacity
    ensures |plan| <= 100 && |plan| <= Budget.Max(1, maxBatches)
    ensures
      var room := RoomOf(Slots(configs, outstanding));
      && |plan| <= room
      && (|plan| < room ==>
            || |plan| == 100 || |plan| == Budget.Max(1, maxBatches)
            || workerCapacity <= |plan| + Budget.Max(0, outstandingTotal))
    ensures
      var slots := Slots(configs, outstanding);
      && |choices| == |plan| && |shares| == |slots|
      && (forall k | 0 <= k < |plan| :: ChosenFirst(slots, choices, k) && plan[k] == slots[choices[k]].config)
      && (forall i | 0 <= i < |slots| :: shares[i] == Times(choices, i))
      && BestShares(slots, shares)
  {
    var slots := Slots(configs, outstanding);
    choices, shares := BuildPlan(slots, Limit(workerCapacity, outstandingTotal, maxBatches));
    LimitMeans(workerCapacity, outstandingTotal, maxBatches);
    RoomIs(slots);
    BalancedIsBest(slots, shares);
    ChoicesInOrder(slots, choices, shares);
    plan := seq(|choices|, k requires 0 <= k < |choices| => slots[choices[k]].config);
  }

  lemma LimitMeans(workerCapacity: int, outstandingTotal: int, maxBatches: int)
    ensures
      var n := Limit(workerCapacity, outstandingTotal, maxBatches);
      && (n > 0 ==> n + Budget.Max(0, outstandingTotal) <= workerCapacity)
      && n <= 100 && n <= Budget.Max(1, maxBatches)
      && (n == 100 || n == Budget.Max(1, maxBatches) || workerCapacity <= n + Budget.Max(0, outstandingTotal))
  {
  }

  lemma BalancedIsBest(slots: seq<Slot>, a: seq<nat>)
    requires Feasible(slots, a) && Balanced(slots, a)
    ensures BestShares(slots, a)
  {
    forall b | Feasible(slots, b) && Total(b) == Total(a)
      ensures Cost(slots, a) <= Cost(slots, b)
      ensures forall i | 0 <= i < |slots| :: NoHigher(slots, a, b, i)
    {
      BalancedIsCheapest(slots, a, b);
      forall i | 0 <= i < |slots|
        ensures NoHigher(slots, a, b, i)
      {
        BalancedMaximisesMinimum(slots, a, b, i);
      }
    }
  }
}
