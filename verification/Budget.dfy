/** computeDispatchBudget: how many plans one dispatcher cycle may release. */
module Budget {
  import opened Prelude

  /** A queue as it was sampled; `pressure` is the sum of its pressure counts. */
  datatype Queue = Queue(paused: bool, workers: nat, concurrency: Option<nat>, pressure: nat)

  datatype Telemetry = Telemetry(incremental: Queue, full: Queue, agent: Queue, proxyReady: Option<nat>)

  /** The options after their bounds have been applied. */
  datatype Options = Options(
    releaseBatchSize: nat,
    bufferPerWorker: nat,
    maximumQueueBuffer: nat,
    minimumShare: real,
    agentShare: real,
    agentBatchSize: nat,
    agentBufferBatches: nat)

  predicate Bounded(o: Options) {
    && 1 <= o.releaseBatchSize <= 500 && 1 <= o.bufferPerWorker <= 20 && 1 <= o.maximumQueueBuffer <= 100000
    && 0.0 <= o.minimumShare <= 1.0 && 0.0 <= o.agentShare <= 1.0
    && 1 <= o.agentBatchSize <= 100 && 1 <= o.agentBufferBatches <= 10
  }

  function Min(a: int, b: int): int {
    if a < b then a else b
  }

  function Max(a: int, b: int): int {
    if a < b then b else a
  }

  function Ceiling(x: real): int {
    -(-x).Floor
  }

  function QueueCapacity(q: Queue, proxyReady: Option<nat>): nat {
    if q.paused || q.workers == 0 then 0 else
      var limited := if q.concurrency.Some? && q.concurrency.value > 0 then Min(q.workers, q.concurrency.value)
        else q.workers;
      if proxyReady.Some? then Min(limited, proxyReady.value) else limited
  }

  function ChannelTarget(capacity: nat, o: Options): nat {
    Min(o.maximumQueueBuffer, capacity * o.bufferPerWorker)
  }

  function Competing(t: Telemetry): nat {
    if t.full.paused then 0 else t.full.pressure
  }

  function Floor(target: nat, competing: nat, share: real): int {
    if competing > 0 then Ceiling(target as real * share) else target
  }

  function IncrementalTarget(target: nat, competing: nat, share: real): int {
    Max(Floor(target, competing, share), target - Min(target, competing))
  }

  function TotalLimit(target: int, pressure: nat, releaseBatchSize: nat): nat {
    Min(releaseBatchSize, Max(0, target - pressure))
  }

  function AgentOnlyLimit(total: nat, agentCapacity: nat, share: real): int {
    if total > 0 && agentCapacity > 0 then Max(1, Min(total, (total as real * share).Floor)) else 0
  }

  datatype Budget = Budget(totalLimit: nat, agentOnlyLimit: int, agentPendingTarget: int, channelTarget: nat,
                           incrementalTarget: int)

  function Compute(t: Telemetry, o: Options): Budget {
    var target := ChannelTarget(QueueCapacity(t.incremental, t.proxyReady), o);
    var incremental := IncrementalTarget(target, Competing(t), o.minimumShare);
    var total := TotalLimit(incremental, t.incremental.pressure, o.releaseBatchSize);
    var agentCapacity := QueueCapacity(t.agent, None);
    Budget(
      total,
      AgentOnlyLimit(total, agentCapacity, o.agentShare),
      o.agentBatchSize * Max(1, agentCapacity * o.agentBufferBatches),
      target,
      incremental)
  }

  // --- bounds ---

  lemma ShareGrows(low: nat, high: nat, share: real)
    requires low <= high && 0.0 <= share
    ensures Ceiling(low as real * share) <= Ceiling(high as real * share)
  {
    assert low as real * share <= high as real * share;
  }

  lemma RoundedUp(x: real, n: nat)
    requires 0.0 <= x <= n as real
    ensures 0 <= Ceiling(x) <= n && x <= Ceiling(x) as real < x + 1.0
    ensures 0 <= x.Floor <= n && x.Floor as real <= x < (x.Floor + 1) as real
  {
  }

  lemma ShareWithin(target: nat, share: real)
    requires 0.0 <= share <= 1.0
    ensures 0.0 <= target as real * share <= target as real
  {
    assert target as real - target as real * share == target as real * (1.0 - share);
  }

  lemma IncrementalBounds(target: nat, competing: nat, share: real)
    requires 0.0 <= share <= 1.0
    ensures
      var n := IncrementalTarget(target, competing, share);
      && 0 <= n <= target && n >= Ceiling(target as real * share) && n >= target - competing
      && (competing == 0 ==> n == target)
      && (n == target || n == Ceiling(target as real * share) || n == target - competing)
  {
    ShareWithin(target, share);
    RoundedUp(target as real * share, target);
  }

  /** The incremental target stays between the guaranteed share and the channel target. */
  lemma TargetBounds(t: Telemetry, o: Options)
    requires Bounded(o)
    ensures
      var b := Compute(t, o);
      && 0 <= b.incrementalTarget <= b.channelTarget
      && b.incrementalTarget >= Ceiling(b.channelTarget as real * o.minimumShare)
      && (Competing(t) == 0 ==> b.incrementalTarget == b.channelTarget)
      && b.incrementalTarget >= b.channelTarget - Competing(t)
  {
    IncrementalBounds(Compute(t, o).channelTarget, Competing(t), o.minimumShare);
  }

  lemma TargetAntitone(target: nat, low: nat, high: nat, share: real)
    requires low <= high && 0.0 <= share <= 1.0
    ensures IncrementalTarget(target, high, share) <= IncrementalTarget(target, low, share)
  {
    ShareWithin(target, share);
    RoundedUp(target as real * share, target);
  }

  lemma TargetMonotone(low: nat, high: nat, competing: nat, share: real)
    requires low <= high && 0.0 <= share <= 1.0
    ensures IncrementalTarget(low, competing, share) <= IncrementalTarget(high, competing, share)
  {
    ShareGrows(low, high, share);
  }

  lemma CapacityGrows(low: nat, high: nat, o: Options)
    requires low <= high
    ensures ChannelTarget(low, o) <= ChannelTarget(high, o)
  {
    assert low * o.bufferPerWorker <= high * o.bufferPerWorker;
  }

  /** More pressure on either queue never raises the limit, more capacity never lowers it. */
  lemma LimitMonotone(a: Telemetry, b: Telemetry, o: Options)
    requires Bounded(o)
    requires a.incremental.pressure >= b.incremental.pressure && Competing(a) >= Competing(b)
    requires QueueCapacity(a.incremental, a.proxyReady) <= QueueCapacity(b.incremental, b.proxyReady)
    ensures Compute(a, o).totalLimit <= Compute(b, o).totalLimit
  {
    var low, high := QueueCapacity(a.incremental, a.proxyReady), QueueCapacity(b.incremental, b.proxyReady);
    CapacityGrows(low, high, o);
    TargetMonotone(ChannelTarget(low, o), ChannelTarget(high, o), Competing(a), o.minimumShare);
    TargetAntitone(ChannelTarget(high, o), Competing(b), Competing(a), o.minimumShare);
  }

  /** Releasing as much as the limit allows fills the queue at most up to the channel target. */
  lemma LimitFits(t: Telemetry, o: Options)
    requires Bounded(o)
    ensures
      var b := Compute(t, o);
      && b.totalLimit <= o.releaseBatchSize
      && t.incremental.pressure + b.totalLimit <= Max(t.incremental.pressure, b.channelTarget)
      && 0 <= b.agentOnlyLimit <= b.totalLimit
      && (b.totalLimit > 0 && QueueCapacity(t.agent, None) > 0 ==> b.agentOnlyLimit > 0)
  {
    TargetBounds(t, o);
    AgentShare(Compute(t, o).totalLimit, QueueCapacity(t.agent, None), o.agentShare);
  }

  // --- what the numbers are, from the sample alone ---

  /** The least of what limits an open queue: its workers, a positive concurrency, the ready proxies. */
  ghost predicate LeastLimit(q: Queue, proxyReady: Option<nat>, n: nat) {
    && n <= q.workers
    && (q.concurrency.Some? && q.concurrency.value > 0 ==> n <= q.concurrency.value)
    && (proxyReady.Some? ==> n <= proxyReady.value)
    && (n == q.workers || (q.concurrency == Some(n) && n > 0) || proxyReady == Some(n))
  }

  lemma CapacityIsLeast(q: Queue, proxyReady: Option<nat>)
    ensures q.paused || q.workers == 0 ==> QueueCapacity(q, proxyReady) == 0
    ensures !q.paused ==> LeastLimit(q, proxyReady, QueueCapacity(q, proxyReady))
  {
  }

  /** A queue that is paused, has no worker or no ready proxy gets nothing. Otherwise the channel target is
      the buffer of the least of its limits, within the maximum buffer. */
  lemma TargetFollowsSample(t: Telemetry, o: Options)
    requires Bounded(o)
    ensures t.incremental.paused || t.incremental.workers == 0 || t.proxyReady == Some(0) ==>
      Compute(t, o).channelTarget == 0 && Compute(t, o).totalLimit == 0 && Compute(t, o).agentOnlyLimit == 0
    ensures !t.incremental.paused ==> exists n: nat ::
      && LeastLimit(t.incremental, t.proxyReady, n)
      && Compute(t, o).channelTarget
         == if n * o.bufferPerWorker < o.maximumQueueBuffer then n * o.bufferPerWorker else o.maximumQueueBuffer
  {
    CapacityIsLeast(t.incremental, t.proxyReady);
    TargetBounds(t, o);
  }

  /** The least whole number that is neither below the share nor below what the competitor leaves. */
  ghost predicate LeastShare(n: int, target: nat, competing: nat, share: real) {
    && n as real >= target as real * share && n >= target - competing
    && (n == 0 || n == target - competing || (n - 1) as real < target as real * share)
  }

  lemma IncrementalIsLeast(target: nat, competing: nat, share: real)
    requires 0.0 <= share <= 1.0
    ensures
      var n := IncrementalTarget(target, competing, share);
      if competing == 0 then n == target else LeastShare(n, target, competing, share)
  {
    ShareWithin(target, share);
    RoundedIsLeast(target, competing, target as real * share);
  }

  lemma RoundedIsLeast(target: nat, competing: nat, x: real)
    requires 0.0 <= x <= target as real
    ensures
      var n := Max(Ceiling(x), target - Min(target, competing));
      && n as real >= x && n >= target - competing && n >= 0
      && (n == 0 || n == target - competing || (n - 1) as real < x)
  {
    RoundedUp(x, target);
  }

  /** The incremental target leaves a competing full crawl that is not paused its room, but keeps the
      guaranteed share: it is the least whole number that does both. */
  lemma TargetIsLeast(t: Telemetry, o: Options)
    requires Bounded(o)
    ensures
      var b := Compute(t, o);
      if t.full.paused || t.full.pressure == 0 then b.incrementalTarget == b.channelTarget
      else LeastShare(b.incrementalTarget, b.channelTarget, t.full.pressure, o.minimumShare)
  {
    IncrementalIsLeast(Compute(t, o).channelTarget, Competing(t), o.minimumShare);
  }

  /** The limit is as large as the batch size and the incremental target allow. */
  lemma LimitIsLargest(t: Telemetry, o: Options)
    requires Bounded(o)
    ensures
      var b := Compute(t, o);
      && b.totalLimit <= o.releaseBatchSize
      && (b.totalLimit > 0 ==> t.incremental.pressure + b.totalLimit <= b.incrementalTarget)
      && (b.totalLimit < o.releaseBatchSize ==> t.incremental.pressure + b.totalLimit >= b.incrementalTarget)
  {
  }

  lemma AgentShare(total: nat, capacity: nat, share: real)
    requires 0.0 <= share <= 1.0
    ensures
      var n := AgentOnlyLimit(total, capacity, share);
      && (n == 0 <==> total == 0 || capacity == 0) && 0 <= n <= total
      && (n > 1 ==> n as real <= total as real * share)
      && (n > 0 ==> total as real * share < (n + 1) as real)
  {
    ShareWithin(total, share);
    RoundedUp(total as real * share, total);
  }

  /** Agent-only plans get their share of the limit, rounded down but at least one, while the agent queue
      has workers and is not paused. */
  lemma AgentLimitFollowsSample(t: Telemetry, o: Options)
    requires Bounded(o)
    ensures
      var b := Compute(t, o);
      && (b.agentOnlyLimit == 0 <==> b.totalLimit == 0 || t.agent.paused || t.agent.workers == 0)
      && (b.agentOnlyLimit > 1 ==> b.agentOnlyLimit as real <= b.totalLimit as real * o.agentShare)
      && (b.agentOnlyLimit > 0 ==> b.totalLimit as real * o.agentShare < (b.agentOnlyLimit + 1) as real)
  {
    CapacityIsLeast(t.agent, None);
    AgentShare(Compute(t, o).totalLimit, QueueCapacity(t.agent, None), o.agentShare);
  }

  /** The target of agents under way is a number of batches per worker, and one batch without workers. */
  lemma AgentTargetFollowsSample(t: Telemetry, o: Options)
    requires Bounded(o)
    ensures t.agent.paused || t.agent.workers == 0 ==> Compute(t, o).agentPendingTarget == o.agentBatchSize
    ensures !t.agent.paused && t.agent.workers > 0 ==> exists n: nat ::
      && LeastLimit(t.agent, None, n)
      && Compute(t, o).agentPendingTarget == o.agentBatchSize * (n * o.agentBufferBatches)
  {
    CapacityIsLeast(t.agent, None);
    var n := QueueCapacity(t.agent, None);
    if n > 0 {
      assert n * o.agentBufferBatches >= 1;
    }
  }
}
