/** recordAboutObservation as one atomic step: an idempotent, sequenced log with a cursor, an outbox and
    the metric registers. */
module AboutLog {
  import opened Prelude
  import opened AboutRegisters

  datatype Outcome = Complete | Partial | Failed

  datatype Readings = Readings(subscribers: Reading, views: Reading, videos: Reading) {
    function Of(m: Metric): Reading {
      match m case Subscribers => subscribers case Views => views case Videos => videos
    }
  }

  /** What the command hash covers; `details` stands for the plan, the run and the other current fields. */
  datatype Body = Body(channel: string, observedAt: nat, outcome: Outcome, readings: Readings, factsHash: string,
                       details: string)

  datatype Command = Command(key: string, body: Body)

  datatype KeyRow = KeyRow(observationId: string, hash: string)

  /** A row of crawl_observations, with the key it was claimed under. */
  datatype Entry = Entry(id: string, key: string, sequence: nat, body: Body)

  datatype Cursor = Cursor(
    sequence: nat,
    latest: Option<string>,
    latestAt: Option<nat>,
    complete: Option<string>,
    completeAt: Option<nat>,
    failures: nat,
    facts: Option<string>)

  datatype Event = Event(id: string, observationId: string, channel: string, sequence: nat, outcome: Outcome,
                         factsHash: string)

  type Registers = map<Metric, Register>

  /** `metrics` has the channels that exist. */
  datatype State = State(
    keys: map<string, KeyRow>,
    log: seq<Entry>,
    cursors: map<string, Cursor>,
    outbox: seq<Event>,
    metrics: map<string, Registers>)

  /** The hash functions; the command hash leaves the idempotency key out. */
  datatype Hashes = Hashes(command: Body -> string, facts: Readings -> string)

  datatype Reply =
    | Rejected
    | Conflict
    | Duplicate(observationId: string, found: Option<Entry>)
    | Recorded(entry: Entry, event: Event)

  const START := Cursor(0, None, None, None, None, 0, None)

  // --- validation ---

  predicate Agrees(r: Reading) {
    Resolved(r.status) <==> r.value.Some?
  }

  function ResolvedCount(r: Readings): nat {
    (if Resolved(r.subscribers.status) then 1 else 0) + (if Resolved(r.views.status) then 1 else 0)
      + (if Resolved(r.videos.status) then 1 else 0)
  }

  predicate Acceptable(h: Hashes, b: Body) {
    && Agrees(b.readings.subscribers) && Agrees(b.readings.views) && Agrees(b.readings.videos)
    && (b.outcome == Failed ==> ResolvedCount(b.readings) == 0)
    && (b.outcome == Complete <==> ResolvedCount(b.readings) == 3)
    && b.factsHash == h.facts(b.readings)
  }

  // --- the step ---

  function CursorAt(s: State, channel: string): Cursor {
    if channel in s.cursors then s.cursors[channel] else START
  }

  function Advance(c: Cursor, e: Entry): Cursor {
    Cursor(
      e.sequence,
      Some(e.id),
      Some(e.body.observedAt),
      if e.body.outcome == Complete then Some(e.id) else c.complete,
      if e.body.outcome == Complete then Some(e.body.observedAt) else c.completeAt,
      if e.body.outcome == Failed then c.failures + 1 else 0,
      if e.body.outcome == Failed then c.facts else Some(e.body.factsHash))
  }

  function UpdateMetrics(r: Registers, b: Body): Registers {
    map m | m in r :: Update(r[m], Timed(b.observedAt, b.readings.Of(m)))
  }

  function EventOf(e: Entry, eventId: string): Event {
    Event(eventId, e.id, e.body.channel, e.sequence, e.body.outcome, e.body.factsHash)
  }

  function Find(log: seq<Entry>, id: string): Option<Entry> {
    if log == [] then None else if log[0].id == id then Some(log[0]) else Find(log[1..], id)
  }

  function Append(h: Hashes, s: State, c: Command, e: Entry, eventId: string): State {
    var channel := c.body.channel;
    State(
      s.keys[c.key := KeyRow(e.id, h.command(c.body))],
      s.log + [e],
      s.cursors[channel := Advance(CursorAt(s, channel), e)],
      s.outbox + [EventOf(e, eventId)],
      if channel in s.metrics && c.body.outcome != Failed
      then s.metrics[channel := UpdateMetrics(s.metrics[channel], c.body)] else s.metrics)
  }

  /** The ids are random and given from outside. */
  function Record(h: Hashes, s: State, c: Command, id: string, eventId: string): (State, Reply) {
    if !Acceptable(h, c.body) then (s, Rejected)
    else if c.key in s.keys then
      if s.keys[c.key].hash != h.command(c.body) then (s, Conflict)
      else (s, Duplicate(s.keys[c.key].observationId, Find(s.log, s.keys[c.key].observationId)))
    else
      var e := Entry(id, c.key, CursorAt(s, c.body.channel).sequence + 1, c.body);
      (Append(h, s, c, e, eventId), Recorded(e, EventOf(e, eventId)))
  }

  // --- the step, written out ---

  /** The value is there exactly if the status says that it was read, exactly or as an estimate. */
  predicate ReadingOk(r: Reading) {
    r.value.Some? <==> r.status == Exact || r.status == Estimated
  }

  /** Every reading agrees with its status; a failed observation read nothing, a complete one everything, a
      partial one not everything; and the facts hash is that of the readings. */
  ghost predicate BodyOk(h: Hashes, b: Body) {
    var r := b.readings;
    var all := r.subscribers.value.Some? && r.views.value.Some? && r.videos.value.Some?;
    && ReadingOk(r.subscribers) && ReadingOk(r.views) && ReadingOk(r.videos)
    && (match b.outcome
        case Failed => r.subscribers.value.None? && r.views.value.None? && r.videos.value.None?
        case Partial => !all
        case Complete => all)
    && b.factsHash == h.facts(r)
  }

  /** The register takes a reading with a value that is not older than what it holds. */
  ghost predicate RegisterRight(before: Register, after: Register, at: nat, reading: Reading) {
    after == if reading.value.Some? && (before.observedAt == None || before.observedAt.value <= at)
             then Register(Some(reading), Some(at)) else before
  }

  /** A new observation: it has the next sequence of its channel; the cursor moves on to it, remembers the last
      complete one and the facts of the last that did not fail, and counts failures in a row. */
  ghost predicate CursorRight(before: Cursor, after: Cursor, id: string, b: Body) {
    after == Cursor(
      before.sequence + 1, Some(id), Some(b.observedAt),
      if b.outcome == Complete then Some(id) else before.complete,
      if b.outcome == Complete then Some(b.observedAt) else before.completeAt,
      if b.outcome == Failed then before.failures + 1 else 0,
      if b.outcome == Failed then before.facts else Some(b.factsHash))
  }

  ghost predicate StoredRight(h: Hashes, s: State, t: State, c: Command, id: string, eventId: string) {
    var b := c.body;
    var before := if b.channel in s.cursors then s.cursors[b.channel] else Cursor(0, None, None, None, None, 0, None);
    && t.log == s.log + [Entry(id, c.key, before.sequence + 1, b)]
    && t.outbox == s.outbox + [Event(eventId, id, b.channel, before.sequence + 1, b.outcome, b.factsHash)]
    && t.keys == s.keys[c.key := KeyRow(id, h.command(b))]
    && t.cursors.Keys == s.cursors.Keys + {b.channel} && CursorRight(before, t.cursors[b.channel], id, b)
    && (forall x | x in s.cursors && x != b.channel :: t.cursors[x] == s.cursors[x])
    && t.metrics.Keys == s.metrics.Keys && (forall x | x in s.metrics && x != b.channel :: t.metrics[x] == s.metrics[x])
    && (b.channel in s.metrics ==>
          && t.metrics[b.channel].Keys == s.metrics[b.channel].Keys
          && forall m | m in s.metrics[b.channel] ::
               RegisterRight(s.metrics[b.channel][m], t.metrics[b.channel][m], b.observedAt, ReadingOf(b.readings, m)))
  }

  function ReadingOf(r: Readings, m: Metric): Reading {
    match m case Subscribers => r.subscribers case Views => r.views case Videos => r.videos
  }

  /** One call: an observation that is not sound is rejected, a known key is answered from what was recorded
      under it or refused for another command, and a new observation is stored. */
  ghost predicate RecordRight(h: Hashes, s: State, t: State, c: Command, id: string, eventId: string, reply: Reply) {
    if !BodyOk(h, c.body) then t == s && reply == Rejected
    else if c.key in s.keys then
      && t == s
      && (s.keys[c.key].hash != h.command(c.body) ==> reply == Conflict)
      && (s.keys[c.key].hash == h.command(c.body) ==>
            && reply.Duplicate? && reply.observationId == s.keys[c.key].observationId
            && (reply.found.Some? ==> reply.found.value in s.log && reply.found.value.id == reply.observationId)
            && (reply.found.None? ==> forall e | e in s.log :: e.id != reply.observationId))
    else
      && StoredRight(h, s, t, c, id, eventId)
      && reply == Recorded(t.log[|s.log|], t.outbox[|s.outbox|])
  }

  lemma AcceptableIff(h: Hashes, b: Body)
    requires ReadingOk(b.readings.subscribers) && ReadingOk(b.readings.views) && ReadingOk(b.readings.videos)
    ensures Acceptable(h, b) <==> BodyOk(h, b)
  {
  }

  lemma {:induction false} FindMeans(log: seq<Entry>, id: string)
    ensures Find(log, id).Some? ==> Find(log, id).value in log && Find(log, id).value.id == id
    ensures Find(log, id).None? ==> forall e | e in log :: e.id != id
  {
    if log != [] {
      FindMeans(log[1..], id);
    }
  }

  lemma AppendIsRight(h: Hashes, s: State, c: Command, id: string, eventId: string)
    requires Acceptable(h, c.body)
    ensures
      var e := Entry(id, c.key, CursorAt(s, c.body.channel).sequence + 1, c.body);
      StoredRight(h, s, Append(h, s, c, e, eventId), c, id, eventId)
  {
    forall m: Metric
      ensures ReadingOf(c.body.readings, m) == c.body.readings.Of(m)
      ensures c.body.outcome == Failed ==> c.body.readings.Of(m).value.None?
    {
    }
  }

  lemma RecordIsRight(h: Hashes, s: State, c: Command, id: string, eventId: string)
    ensures
      var (t, reply) := Record(h, s, c, id, eventId);
      RecordRight(h, s, t, c, id, eventId, reply)
  {
    var r := c.body.readings;
    if ReadingOk(r.subscribers) && ReadingOk(r.views) && ReadingOk(r.videos) {
      AcceptableIff(h, c.body);
    }
    if Acceptable(h, c.body) {
      if c.key in s.keys {
        FindMeans(s.log, s.keys[c.key].observationId);
      } else {
        AppendIsRight(h, s, c, id, eventId);
      }
    }
  }

  // --- what the cursor stands for ---

  /** The observations of one channel, in the order they were recorded. */
  function Lane(log: seq<Entry>, channel: string): seq<Entry> {
    if log == [] then [] else
      var n := |log| - 1;
      Lane(log[..n], channel) + if log[n].body.channel == channel then [log[n]] else []
  }

  /** The last entries of the lane that are failures, without a gap. */
  function TrailingFailures(lane: seq<Entry>): nat {
    if lane == [] || lane[|lane| - 1].body.outcome != Failed then 0 else 1 + TrailingFailures(lane[..|lane| - 1])
  }

  function LastComplete(lane: seq<Entry>): Option<Entry> {
    if lane == [] then None
    else if lane[|lane| - 1].body.outcome == Complete then Some(lane[|lane| - 1])
    else LastComplete(lane[..|lane| - 1])
  }

  function LastUnfailed(lane: seq<Entry>): Option<Entry> {
    if lane == [] then None
    else if lane[|lane| - 1].body.outcome != Failed then Some(lane[|lane| - 1])
    else LastUnfailed(lane[..|lane| - 1])
  }

  /** The run of failures is as long as it can be. */
  lemma {:induction false} TrailingMeans(lane: seq<Entry>)
    ensures
      var k := TrailingFailures(lane);
      && k <= |lane|
      && (forall i | |lane| - k <= i < |lane| :: lane[i].body.outcome == Failed)
      && (k < |lane| ==> lane[|lane| - k - 1].body.outcome != Failed)
  {
    if lane != [] {
      TrailingMeans(lane[..|lane| - 1]);
    }
  }

  function Timings(lane: seq<Entry>, m: Metric): seq<Timed> {
    seq(|lane|, i requires 0 <= i < |lane| => Timed(lane[i].body.observedAt, lane[i].body.readings.Of(m)))
  }

  // --- the invariant ---

  ghost predicate CursorOk(c: Cursor, lane: seq<Entry>) {
    && c.sequence == |lane|
    && (lane == [] ==> c == START)
    && (lane != [] ==> c.latest == Some(lane[|lane| - 1].id) && c.latestAt == Some(lane[|lane| - 1].body.observedAt))
    && c.failures == TrailingFailures(lane)
    && c.complete == (if LastComplete(lane).Some? then Some(LastComplete(lane).value.id) else None)
    && c.completeAt == (if LastComplete(lane).Some? then Some(LastComplete(lane).value.body.observedAt) else None)
    && c.facts == (if LastUnfailed(lane).Some? then Some(LastUnfailed(lane).value.body.factsHash) else None)
  }

  ghost predicate Numbered(lane: seq<Entry>) {
    forall i | 0 <= i < |lane| :: lane[i].sequence == i + 1
  }

  ghost predicate MetricsOk(s: State, channel: string, lane: seq<Entry>) {
    channel in s.metrics ==> forall m: Metric ::
      m in s.metrics[channel] && s.metrics[channel][m] == Fold(EMPTY, Timings(lane, m))
  }

  ghost predicate ChannelOk(s: State, channel: string) {
    var lane := Lane(s.log, channel);
    Numbered(lane) && CursorOk(CursorAt(s, channel), lane) && MetricsOk(s, channel, lane)
  }

  ghost predicate EntryOk(h: Hashes, s: State, i: nat)
    requires i < |s.log|
  {
    var e := s.log[i];
    && Acceptable(h, e.body)
    && e.key in s.keys && s.keys[e.key] == KeyRow(e.id, h.command(e.body))
    && i < |s.outbox| && s.outbox[i].observationId == e.id
    && EventOf(e, s.outbox[i].id) == s.outbox[i]
  }

  ghost predicate KeyOk(s: State, key: string)
    requires key in s.keys
  {
    exists i :: 0 <= i < |s.log| && s.log[i].key == key && s.log[i].id == s.keys[key].observationId
  }

  ghost predicate Distinct(log: seq<Entry>) {
    forall i, j | 0 <= i < j < |log| :: log[i].key != log[j].key && log[i].id != log[j].id
  }

  ghost predicate Inv(h: Hashes, s: State) {
    && (forall channel :: ChannelOk(s, channel))
    && (forall i | 0 <= i < |s.log| :: EntryOk(h, s, i))
    && (forall key | key in s.keys :: KeyOk(s, key))
    && Distinct(s.log) && |s.outbox| == |s.log|
  }

  // --- the step keeps it ---

  lemma LaneAppend(log: seq<Entry>, e: Entry, channel: string)
    ensures Lane(log + [e], channel) == Lane(log, channel) + if e.body.channel == channel then [e] else []
  {
    assert (log + [e])[..|log|] == log;
  }

  lemma AdvanceOk(c: Cursor, lane: seq<Entry>, e: Entry)
    requires CursorOk(c, lane) && e.sequence == c.sequence + 1
    ensures CursorOk(Advance(c, e), lane + [e])
  {
    assert (lane + [e])[..|lane|] == lane;
  }

  lemma UpdateFolds(lane: seq<Entry>, e: Entry, m: Metric)
    ensures Fold(EMPTY, Timings(lane + [e], m))
      == Update(Fold(EMPTY, Timings(lane, m)), Timed(e.body.observedAt, e.body.readings.Of(m)))
  {
    var t := Timed(e.body.observedAt, e.body.readings.Of(m));
    assert Timings(lane + [e], m) == Timings(lane, m) + [t];
    FoldLast(EMPTY, Timings(lane, m), t);
  }

  lemma FailedReadsNothing(h: Hashes, b: Body, m: Metric)
    requires Acceptable(h, b) && b.outcome == Failed
    ensures b.readings.Of(m).value.None?
  {
  }

  lemma AppendMetrics(h: Hashes, s: State, c: Command, e: Entry, eventId: string, lane: seq<Entry>)
    requires MetricsOk(s, c.body.channel, lane) && Acceptable(h, c.body) && e.body == c.body
    ensures MetricsOk(Append(h, s, c, e, eventId), c.body.channel, lane + [e])
  {
    var t, channel := Append(h, s, c, e, eventId), c.body.channel;
    forall m: Metric | channel in s.metrics
      ensures m in t.metrics[channel] && t.metrics[channel][m] == Fold(EMPTY, Timings(lane + [e], m))
    {
      UpdateFolds(lane, e, m);
      if c.body.outcome == Failed {
        FailedReadsNothing(h, c.body, m);
      }
    }
  }

  lemma NumberedAppend(lane: seq<Entry>, e: Entry)
    requires Numbered(lane) && e.sequence == |lane| + 1
    ensures Numbered(lane + [e])
  {
  }

  lemma AppendOwnChannel(h: Hashes, s: State, c: Command, e: Entry, eventId: string, lane: seq<Entry>)
    requires lane == Lane(s.log, c.body.channel) && ChannelOk(s, c.body.channel) && Acceptable(h, c.body)
    requires e.body == c.body && e.sequence == CursorAt(s, c.body.channel).sequence + 1
    ensures Numbered(lane + [e]) && CursorOk(Advance(CursorAt(s, c.body.channel), e), lane + [e])
    ensures MetricsOk(Append(h, s, c, e, eventId), c.body.channel, lane + [e])
  {
    NumberedAppend(lane, e);
    AdvanceOk(CursorAt(s, c.body.channel), lane, e);
    AppendMetrics(h, s, c, e, eventId, lane);
  }

  lemma AppendOtherChannel(h: Hashes, s: State, c: Command, e: Entry, eventId: string, channel: string,
                           lane: seq<Entry>)
    requires channel != c.body.channel
    ensures CursorAt(Append(h, s, c, e, eventId), channel) == CursorAt(s, channel)
    ensures MetricsOk(Append(h, s, c, e, eventId), channel, lane) <==> MetricsOk(s, channel, lane)
  {
  }

  lemma AppendChannel(h: Hashes, s: State, c: Command, e: Entry, eventId: string, channel: string)
    requires ChannelOk(s, channel) && Acceptable(h, c.body)
    requires e.body == c.body && e.sequence == CursorAt(s, c.body.channel).sequence + 1
    ensures ChannelOk(Append(h, s, c, e, eventId), channel)
  {
    var lane := Lane(s.log, channel);
    LaneAppend(s.log, e, channel);
    if channel == c.body.channel {
      AppendOwnChannel(h, s, c, e, eventId, lane);
    } else {
      AppendOtherChannel(h, s, c, e, eventId, channel, lane);
      assert lane + [] == lane;
    }
  }

  lemma AppendKeys(h: Hashes, s: State, c: Command, e: Entry, eventId: string)
    requires (forall key | key in s.keys :: KeyOk(s, key)) && e.key == c.key
    ensures
      var t := Append(h, s, c, e, eventId);
      forall key | key in t.keys :: KeyOk(t, key)
  {
    var t := Append(h, s, c, e, eventId);
    forall key | key in t.keys
      ensures KeyOk(t, key)
    {
      if key == c.key {
        assert t.log[|s.log|] == e;
      } else {
        assert KeyOk(s, key);
        var i :| 0 <= i < |s.log| && s.log[i].key == key && s.log[i].id == s.keys[key].observationId;
        assert t.log[i] == s.log[i];
      }
    }
  }

  lemma AppendEntries(h: Hashes, s: State, c: Command, e: Entry, eventId: string)
    requires Inv(h, s) && Acceptable(h, c.body) && c.key !in s.keys && e.body == c.body && e.key == c.key
    requires forall x | x in s.log :: x.id != e.id
    ensures
      var t := Append(h, s, c, e, eventId);
      (forall i | 0 <= i < |t.log| :: EntryOk(h, t, i)) && Distinct(t.log)
  {
    var t := Append(h, s, c, e, eventId);
    forall i | 0 <= i < |t.log|
      ensures EntryOk(h, t, i)
      ensures i < |s.log| ==> t.log[i].key != e.key && t.log[i].id != e.id
    {
      if i < |s.log| {
        assert EntryOk(h, s, i) && s.log[i] in s.log;
      }
    }
  }

  lemma RecordKeeps(h: Hashes, s: State, c: Command, id: string, eventId: string)
    requires Inv(h, s) && forall x | x in s.log :: x.id != id
    ensures Inv(h, Record(h, s, c, id, eventId).0)
  {
    if Acceptable(h, c.body) && c.key !in s.keys {
      var e := Entry(id, c.key, CursorAt(s, c.body.channel).sequence + 1, c.body);
      AppendEntries(h, s, c, e, eventId);
      AppendKeys(h, s, c, e, eventId);
      forall channel
        ensures ChannelOk(Append(h, s, c, e, eventId), channel)
      {
        AppendChannel(h, s, c, e, eventId, channel);
      }
    }
  }

  // --- whole histories ---

  datatype Delivery = Delivery(command: Command, id: string, eventId: string)

  /** The channels exist with empty registers; nothing has been recorded. */
  ghost predicate Fresh(s: State) {
    && s.keys == map[] && s.log == [] && s.cursors == map[] && s.outbox == []
    && forall channel, m: Metric | channel in s.metrics :: m in s.metrics[channel] && s.metrics[channel][m] == EMPTY
  }

  function Deliver(h: Hashes, s: State, deliveries: seq<Delivery>): State
    decreases deliveries
  {
    if deliveries == [] then s else
      var d := deliveries[|deliveries| - 1];
      Record(h, Deliver(h, s, deliveries[..|deliveries| - 1]), d.command, d.id, d.eventId).0
  }

  ghost predicate DistinctIds(deliveries: seq<Delivery>) {
    forall i, j | 0 <= i < j < |deliveries| :: deliveries[i].id != deliveries[j].id
  }

  lemma {:induction false} LogIds(h: Hashes, s: State, deliveries: seq<Delivery>, id: string)
    requires s.log == [] && forall d | d in deliveries :: d.id != id
    ensures forall x | x in Deliver(h, s, deliveries).log :: x.id != id
    decreases deliveries
  {
    if deliveries != [] {
      LogIds(h, s, deliveries[..|deliveries| - 1], id);
    }
  }

  lemma FreshInv(h: Hashes, s: State)
    requires Fresh(s)
    ensures Inv(h, s)
  {
    forall channel
      ensures ChannelOk(s, channel)
    {
      assert Lane(s.log, channel) == [];
      forall m: Metric | channel in s.metrics
        ensures m in s.metrics[channel] && s.metrics[channel][m] == Fold(EMPTY, Timings([], m))
      {
      }
    }
  }

  /** After any deliveries, with redeliveries and conflicts among them: per channel the sequences are
      1..n, the cursor and the registers are the fold of the recorded observations, and every
      observation has its key and exactly one event. */
  lemma {:induction false} DeliverKeeps(h: Hashes, s: State, deliveries: seq<Delivery>)
    requires Fresh(s) && DistinctIds(deliveries)
    ensures Inv(h, Deliver(h, s, deliveries))
    decreases deliveries
  {
    if deliveries == [] {
      FreshInv(h, s);
    } else {
      var n := |deliveries| - 1;
      DeliverKeeps(h, s, deliveries[..n]);
      LogIds(h, s, deliveries[..n], deliveries[n].id);
      RecordKeeps(h, Deliver(h, s, deliveries[..n]), deliveries[n].command, deliveries[n].id, deliveries[n].eventId);
    }
  }

  lemma {:induction false} FindsEntry(log: seq<Entry>, i: nat)
    requires i < |log| && Distinct(log)
    ensures Find(log, log[i].id) == Some(log[i])
  {
    if i > 0 {
      FindsEntry(log[1..], i - 1);
    }
  }

  /** A command delivered again under its key changes nothing and is answered with the observation that
      was recorded for it; a key reused for another command changes nothing and is refused. */
  lemma KeyReused(h: Hashes, s: State, c: Command, i: nat, id: string, eventId: string)
    requires Inv(h, s) && i < |s.log| && s.log[i].key == c.key && Acceptable(h, c.body)
    requires forall a: Body, b: Body | h.command(a) == h.command(b) :: a == b
    ensures Record(h, s, c, id, eventId)
      == (s, if c.body == s.log[i].body then Duplicate(s.log[i].id, Some(s.log[i])) else Conflict)
  {
    assert EntryOk(h, s, i);
    FindsEntry(s.log, i);
  }

  /** The registers of a channel do not depend on the order in which its observations arrived, as long
      as resolved readings of a metric that were observed at the same time agree. */
  lemma RegistersConverge(h: Hashes, a: State, b: State, channel: string, m: Metric)
    requires Inv(h, a) && Inv(h, b) && channel in a.metrics && channel in b.metrics
    requires SameEntries(Timings(Lane(a.log, channel), m), Timings(Lane(b.log, channel), m))
    requires TiesAgree(Timings(Lane(a.log, channel), m))
    ensures m in a.metrics[channel] && m in b.metrics[channel] && a.metrics[channel][m] == b.metrics[channel][m]
  {
    assert ChannelOk(a, channel) && ChannelOk(b, channel);
    AgreeingTiesConverge(Timings(Lane(a.log, channel), m), Timings(Lane(b.log, channel), m));
  }

  /** In every state each register of a channel holds the latest resolved reading that its observations
      brought, in whatever order they came, as long as the times of those readings differ. */
  lemma RegisterIsLatest(h: Hashes, s: State, channel: string, m: Metric, i: nat)
    requires Inv(h, s) && channel in s.metrics && m in s.metrics[channel]
    requires
      var ts := Timings(Lane(s.log, channel), m);
      DistinctTimes(ts) && i < |ts| && Latest(ts, i)
    ensures
      var ts := Timings(Lane(s.log, channel), m);
      s.metrics[channel][m] == Register(Some(ts[i].reading), Some(ts[i].at))
  {
    assert ChannelOk(s, channel);
    var ts := Timings(Lane(s.log, channel), m);
    DistinctTimesConverge(ts, ts);
  }
}
