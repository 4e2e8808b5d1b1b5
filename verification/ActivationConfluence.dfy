/** Arrival order does not matter: what is activated depends on the revisions received, not on the
    order in which they came or on when the activator ran. */
module ActivationConfluence {
  import opened Prelude
  import opened Publication
  import opened Selection
  import opened VideoReplay
  import opened VideoTable
  import opened VideoRows
  import opened Activation
  import opened ActivationRows
  import opened ActivationSafety
  import opened ActivationCommit

  /** A linked chain from sequence 1 in one stream and domain. */
  ghost predicate Chained(chain: seq<Revision>, stream: string, d: Domain) {
    && Continues(None, chain)
    && (forall i | 0 <= i < |chain| :: chain[i].stream == stream && chain[i].domain == d)
  }

  /** The payloads have the hashes they declare. */
  ghost predicate Intact(h: Digest, chain: seq<Revision>, d: Domain) {
    && (forall r | r in chain :: ReasonsOk(r))
    && (if d == Video then !Replayed(h, chain).failed
        else forall r | r in chain :: h.facts(r.document) == r.resultHash)
  }

  /** The revisions that a producer publishes on one stream of a channel. */
  ghost predicate WellFormed(h: Digest, src: Batch, stream: string) {
    forall d: Domain :: Chained(src.Of(d), stream, d) && Intact(h, src.Of(d), d)
  }

  lemma KeyAt(chain: seq<Revision>, stream: string, d: Domain, i: nat)
    requires Chained(chain, stream, d) && i < |chain|
    ensures KeyOf(chain[i]) == Key(stream, d, i + 1)
  {
    ChainSequence(chain, 1, None, i);
  }

  /** How many leading revisions of the chain have been received. */
  function Received(rows: map<Key, Row>, chain: seq<Revision>): (n: nat)
    ensures n <= |chain|
    ensures forall i | 0 <= i < n :: KeyOf(chain[i]) in rows
    ensures n < |chain| ==> KeyOf(chain[n]) !in rows
    decreases chain
  {
    if chain == [] || KeyOf(chain[0]) !in rows then 0 else 1 + Received(rows, chain[1..])
  }

  /** The longest received prefixes meet the onboarding gate. */
  predicate GateMet(mode: Mode, src: Batch, rows: map<Key, Row>) {
    match mode
    case Independent => true
    case Automatic =>
      Received(rows, src.channel) > 0 && Received(rows, src.video) > 0 && Received(rows, src.agent) > 0
    case _ => Received(rows, src.channel) > 0 && Received(rows, src.video) > 0
  }

  /** How far a domain is activated once the activator has run. */
  function Target(mode: Mode, src: Batch, rows: map<Key, Row>, d: Domain): nat {
    if GateMet(mode, src, rows) then Received(rows, src.Of(d)) else 0
  }

  function Count(s: State, d: Domain): nat {
    if d in s.cursors then s.cursors[d].sequence else 0
  }

  // --- one domain ---

  /** The row is the one of its place in the chain; it is pending until n has passed it. */
  predicate RowAt(row: Row, k: Key, chain: seq<Revision>, stream: string, n: nat) {
    && k.stream == stream && 0 < k.sequence <= |chain| && row.revision == chain[k.sequence - 1]
    && row.valid && row.status != Quarantined
    && (Pending(row.status) <==> k.sequence > n)
    && (row.status == Active <==> k.sequence == n)
  }

  ghost predicate LaneRows(rows: map<Key, Row>, d: Domain, chain: seq<Revision>, stream: string, n: nat) {
    forall k | k in rows && k.domain == d :: RowAt(rows[k], k, chain, stream, n)
  }

  predicate CursorAt(cursor: Option<Cursor>, chain: seq<Revision>, n: nat) {
    n <= |chain| && cursor == if n > 0 then Some(CursorOf(chain[n - 1])) else None
  }

  lemma PendingAt(rows: map<Key, Row>, d: Domain, chain: seq<Revision>, stream: string, n: nat, r: Revision)
    requires Chained(chain, stream, d) && LaneRows(rows, d, chain, stream, n)
    ensures IsPending(rows, stream, d, r) <==>
      KeyOf(r) in rows && r.domain == d && n < r.sequence <= |chain| && r == chain[r.sequence - 1]
  {
    if KeyOf(r) in rows && r.domain == d {
      assert RowAt(rows[KeyOf(r)], KeyOf(r), chain, stream, n);
    }
  }

  lemma ChainMiddle(chain: seq<Revision>, a: nat, b: nat, cursor: Option<Cursor>)
    requires Continues(None, chain) && a <= b <= |chain| && CursorAt(cursor, chain, a)
    ensures Continues(cursor, chain[a..b])
  {
    assert chain == chain[..a] + chain[a..];
    ChainConcat(chain[..a], chain[a..], 1, None);
    assert chain[a..] == chain[a..b] + chain[b..];
    ChainConcat(chain[a..b], chain[b..], a + 1, TipAfter(chain[..a], None));
    if a > 0 {
      ChainSequence(chain, 1, None, a - 1);
    }
  }

  lemma FresherPending(rows: map<Key, Row>, d: Domain, chain: seq<Revision>, stream: string, n: nat, r: Revision)
    requires RowsOk(rows) && Chained(chain, stream, d) && LaneRows(rows, d, chain, stream, n)
    requires n <= Received(rows, chain) && r in chain[n..Received(rows, chain)]
    ensures r in PendingRows(rows, stream, d)
  {
    var i :| n <= i < Received(rows, chain) && chain[i] == r;
    KeyAt(chain, stream, d, i);
    PendingAt(rows, d, chain, stream, n, r);
    PendingMember(rows, stream, d, r);
  }

  lemma NoneBeyond(rows: map<Key, Row>, d: Domain, chain: seq<Revision>, stream: string, n: nat, r: Revision)
    requires RowsOk(rows) && Chained(chain, stream, d) && LaneRows(rows, d, chain, stream, n)
    requires r in PendingRows(rows, stream, d)
    ensures n < r.sequence && r.sequence != Received(rows, chain) + 1
  {
    PendingMember(rows, stream, d, r);
    PendingAt(rows, d, chain, stream, n, r);
  }

  lemma RunIsDrawn(rows: map<Key, Row>, d: Domain, chain: seq<Revision>, stream: string, n: nat, cursor: Option<Cursor>)
    requires RowsOk(rows) && Chained(chain, stream, d) && LaneRows(rows, d, chain, stream, n)
    requires n <= Received(rows, chain) && CursorAt(cursor, chain, n)
    ensures chain[n..Received(rows, chain)] <= Select(PendingRows(rows, stream, d), cursor).ready
  {
    var run := chain[n..Received(rows, chain)];
    ChainMiddle(chain, n, Received(rows, chain), cursor);
    forall r | r in run
      ensures r in PendingRows(rows, stream, d)
    {
      FresherPending(rows, d, chain, stream, n, r);
    }
    PendingSorted(rows, stream, d);
    LongestRun(PendingRows(rows, stream, d), cursor, run);
  }

  /** The selected run starts at the cursor and ends with the longest received prefix. */
  lemma ReadyIsFresher(rows: map<Key, Row>, d: Domain, chain: seq<Revision>, stream: string, n: nat,
                       cursor: Option<Cursor>)
    requires RowsOk(rows) && Chained(chain, stream, d) && LaneRows(rows, d, chain, stream, n)
    requires n <= Received(rows, chain) && CursorAt(cursor, chain, n)
    ensures Select(PendingRows(rows, stream, d), cursor).ready == chain[n..Received(rows, chain)]
  {
    var run, pending := chain[n..Received(rows, chain)], PendingRows(rows, stream, d);
    RunIsDrawn(rows, d, chain, stream, n, cursor);
    PendingSorted(rows, stream, d);
    var ready := Select(pending, cursor).ready;
    if |ready| > |run| {
      SelectEnds(pending, cursor, ready, |run|);
      if n > 0 {
        KeyAt(chain, stream, d, n - 1);
      }
      NoneBeyond(rows, d, chain, stream, n, ready[|run|]);
    }
  }

  lemma SelectEnds(pending: seq<Revision>, cursor: Option<Cursor>, ready: seq<Revision>, i: nat)
    requires StrictlySorted(pending) && ready == Select(pending, cursor).ready && i < |ready|
    ensures ready[i] in pending && ready[i].sequence == Next(cursor) + i
  {
    SelectLinks(pending, cursor);
    ChainSequence(ready, Next(cursor), Tip(cursor), i);
    SelectPlaces(pending, cursor, ready[i]);
  }

  /** The row is as before, or was pending and is pending in another way. */
  predicate StaysPut(before: Row, after: Row) {
    && after.revision == before.revision && after.valid == before.valid
    && (after == before || (Pending(before.status) && Pending(after.status)))
  }

  /** The marks of the selection leave every pending row pending. */
  lemma PickedStays(rows: map<Key, Row>, k: Key, chain: seq<Revision>, stream: string, n: nat, cursor: Option<Cursor>)
    requires RowsOk(rows) && Chained(chain, stream, k.domain) && LaneRows(rows, k.domain, chain, stream, n)
    requires n <= Received(rows, chain) && CursorAt(cursor, chain, n)
    requires k in rows
    ensures StaysPut(rows[k], MarkPick(rows[k], Select(PendingRows(rows, stream, k.domain), cursor)))
  {
    var r, pending := rows[k].revision, PendingRows(rows, stream, k.domain);
    ReadyIsFresher(rows, k.domain, chain, stream, n, cursor);
    PendingSorted(rows, stream, k.domain);
    SelectPlaces(pending, cursor, r);
    if n > 0 {
      KeyAt(chain, stream, k.domain, n - 1);
    }
    if r in pending {
      NoneBeyond(rows, k.domain, chain, stream, n, r);
      PendingMember(rows, stream, k.domain, r);
      assert KeyOf(r) == k by {
        assert RowOk(rows, k);
      }
    }
  }

  // --- the trials pass ---

  lemma {:induction false} FactsPass(h: Digest, revs: seq<Revision>)
    requires forall r | r in revs :: h.facts(r.document) == r.resultHash
    ensures FactsAccepted(h, revs) == |revs|
  {
    if revs != [] {
      assert revs[0] in revs;
      FactsPass(h, revs[1..]);
    }
  }

  lemma {:induction false} PrefixPasses(h: Digest, header: bool, view: View, a: seq<Revision>, b: seq<Revision>)
    requires !Simulate(h, header, view, a + b, false).failed
    ensures !Simulate(h, header, view, a, false).failed
    decreases a
  {
    if a != [] {
      assert (a + b)[1..] == a[1..] + b;
      PrefixPasses(h, true, Apply(h, header, view, a[0], false).view, a[1..], b);
    }
  }

  ghost predicate VideoAt(h: Digest, s: State, chain: seq<Revision>, n: nat) {
    && n <= |chain|
    && s.header == (if n > 0 then Some(chain[n - 1]) else None)
    && s.content == Replayed(h, chain[..n]).view.videos
  }

  /** Replaying the next revisions passes, and writing the outcome gives the replay of them all. */
  lemma VideoPasses(h: Digest, s: State, chain: seq<Revision>, n: nat, q: nat)
    requires VideoAt(h, s, chain, n) && n <= q <= |chain| && !Replayed(h, chain).failed
    ensures
      var replay := Simulate(h, s.header.Some?, Load(s.content, BatchRefs(chain[n..q])), chain[n..q], false);
      && !replay.failed
      && Persist(s.content, replay.view) == Replayed(h, chain[..q]).view.videos
  {
    assert chain == chain[..q] + chain[q..];
    PrefixPasses(h, false, View(map[], {}), chain[..q], chain[q..]);
    assert chain[..q] == chain[..n] + chain[n..q];
    PrefixPasses(h, false, View(map[], {}), chain[..n], chain[n..q]);
    BatchExtendsReplay(h, chain[..n], chain[n..q]);
  }

  lemma VideoWritable(h: Digest, s: State, chain: seq<Revision>, n: nat, q: nat)
    requires VideoAt(h, s, chain, n) && n < q <= |chain| && Intact(h, chain, Video)
    ensures
      var ready := chain[n..q];
      Writable(Simulate(h, s.header.Some?, Load(s.content, BatchRefs(ready)), ready, false).view.videos)
  {
    VideoPasses(h, s, chain, n, q);
    SimulateSettles(h, false, View(map[], {}), chain[..n], false);
    var view, ready := Load(s.content, BatchRefs(chain[n..q])), chain[n..q];
    SimulateSettles(h, s.header.Some?, view, ready, false);
    AcceptedWindow(h, s.header.Some?, view, ready, false);
    MatchedIsWritable(h, ready[|ready| - 1], Simulate(h, s.header.Some?, view, ready, false).view.videos);
  }

  // --- the whole channel ---

  ghost predicate CursorsAt(s: State, src: Batch) {
    forall d: Domain ::
      CursorAt(CursorFor(s, false, d), src.Of(d), Count(s, d)) && Count(s, d) <= Received(s.rows, src.Of(d))
  }

  ghost predicate FactsAt(s: State, src: Batch, d: Domain) {
    && (d in s.facts <==> d != Video && Count(s, d) > 0)
    && (d in s.facts && Count(s, d) <= |src.Of(d)| ==> s.facts[d] == src.Of(d)[Count(s, d) - 1])
  }

  ghost predicate LanesAt(s: State, src: Batch, stream: string) {
    forall d: Domain :: LaneRows(s.rows, d, src.Of(d), stream, Count(s, d))
  }

  predicate GateKept(mode: Mode, s: State) {
    match mode
    case Independent => true
    case Automatic => s.cursors == map[] || FullSet(s)
    case _ => (Channel in s.cursors <==> Video in s.cursors) && (Agent in s.cursors ==> Channel in s.cursors)
  }

  ghost predicate Conf(h: Digest, s: State, src: Batch, o: Owner) {
    && (s.owner.None? || s.owner == Some(o))
    && CursorsAt(s, src) && LanesAt(s, src, o.stream)
    && FactsAt(s, src, Channel) && FactsAt(s, src, Video) && FactsAt(s, src, Agent)
    && VideoAt(h, s, src.video, Count(s, Video))
    && GateKept(o.mode, s)
  }

  lemma RowsAreOk(h: Digest, s: State, src: Batch, stream: string)
    requires WellFormed(h, src, stream) && LanesAt(s, src, stream)
    ensures RowsOk(s.rows)
  {
    forall k | k in s.rows
      ensures RowOk(s.rows, k)
    {
      assert LaneRows(s.rows, k.domain, src.Of(k.domain), stream, Count(s, k.domain));
      assert RowAt(s.rows[k], k, src.Of(k.domain), stream, Count(s, k.domain));
      assert Chained(src.Of(k.domain), stream, k.domain);
      KeyAt(src.Of(k.domain), stream, k.domain, k.sequence - 1);
    }
  }

  function Fresher(s: State, src: Batch, d: Domain): seq<Revision>
    requires Count(s, d) <= Received(s.rows, src.Of(d))
  {
    src.Of(d)[Count(s, d)..Received(s.rows, src.Of(d))]
  }

  lemma ReadyAt(h: Digest, s: State, src: Batch, o: Owner, d: Domain)
    requires WellFormed(h, src, o.stream) && CursorsAt(s, src) && LanesAt(s, src, o.stream)
    ensures Pick(s, o.stream, false, d).ready == Fresher(s, src, d)
  {
    RowsAreOk(h, s, src, o.stream);
    ReadyIsFresher(s.rows, d, src.Of(d), o.stream, Count(s, d), CursorFor(s, false, d));
  }

  lemma FactsTrial(h: Digest, s: State, chain: seq<Revision>, d: Domain, n: nat, q: nat)
    requires d != Video && Intact(h, chain, d) && n <= q <= |chain|
    ensures Try(h, s, false, d, chain[n..q]).accepted == q - n
  {
    assert forall r | r in chain[n..q] :: r in chain;
    FactsPass(h, chain[n..q]);
  }

  lemma VideoTrial(h: Digest, s: State, chain: seq<Revision>, n: nat, q: nat)
    requires VideoAt(h, s, chain, n) && n <= q <= |chain| && Intact(h, chain, Video)
    ensures
      var t := Try(h, s, false, Video, chain[n..q]);
      && t.accepted == q - n
      && Persist(s.content, t.view) == Replayed(h, chain[..q]).view.videos
      && (n < q ==> Writable(t.view.videos))
  {
    VideoPasses(h, s, chain, n, q);
    if n < q {
      VideoWritable(h, s, chain, n, q);
    }
  }

  lemma TrialPasses(h: Digest, s: State, src: Batch, o: Owner, d: Domain)
    requires WellFormed(h, src, o.stream) && CursorsAt(s, src) && LanesAt(s, src, o.stream)
    requires VideoAt(h, s, src.video, Count(s, Video))
    ensures TrialOf(h, s, o.stream, false, d) == Try(h, s, false, d, Fresher(s, src, d))
    ensures TrialOf(h, s, o.stream, false, d).accepted == |Fresher(s, src, d)|
  {
    ReadyAt(h, s, src, o, d);
    assert Intact(h, src.Of(d), d);
    if d == Video {
      VideoTrial(h, s, src.video, Count(s, d), Received(s.rows, src.video));
    } else {
      FactsTrial(h, s, src.Of(d), d, Count(s, d), Received(s.rows, src.Of(d)));
    }
  }

  lemma PickedStaysAt(h: Digest, s: State, src: Batch, o: Owner, k: Key)
    requires WellFormed(h, src, o.stream) && CursorsAt(s, src) && LanesAt(s, src, o.stream) && k in s.rows
    ensures StaysPut(s.rows[k], PickedRows(s, o.stream, false)[k])
  {
    RowsAreOk(h, s, src, o.stream);
    assert LaneRows(s.rows, k.domain, src.Of(k.domain), o.stream, Count(s, k.domain));
    assert RowAt(s.rows[k], k, src.Of(k.domain), o.stream, Count(s, k.domain));
    PickedStays(s.rows, k, src.Of(k.domain), o.stream, Count(s, k.domain), CursorFor(s, false, k.domain));
  }

  // --- the plan of a run ---

  function Unready(s: State, src: Batch): set<Domain> {
    set d: Domain | Count(s, d) == Received(s.rows, src.Of(d))
  }

  ghost predicate AllStay(rows: map<Key, Row>, after: map<Key, Row>) {
    after.Keys == rows.Keys && forall k | k in rows :: StaysPut(rows[k], after[k])
  }

  /** The batch takes every domain to the end of its received prefix. */
  ghost predicate TakesAll(s: State, src: Batch, batch: Batch) {
    forall d: Domain :: Count(s, d) <= Received(s.rows, src.Of(d)) && batch.Of(d) == Fresher(s, src, d)
  }

  ghost predicate PlanExact(h: Digest, s: State, src: Batch, o: Owner, p: Plan) {
    && p.gate == GateOn(s, o, false, Unready(s, src))
    && p.stop.None?
    && AllStay(s.rows, p.picked) && AllStay(s.rows, p.rows)
    && TakesAll(s, src, p.batch)
    && Persist(s.content, p.view) == Replayed(h, src.video[..Received(s.rows, src.video)]).view.videos
    && (p.batch.video != [] ==> Writable(p.view.videos))
  }

  lemma PlanGate(h: Digest, s: State, src: Batch, o: Owner)
    requires WellFormed(h, src, o.stream) && CursorsAt(s, src) && LanesAt(s, src, o.stream)
    ensures Gate(s, o, false) == GateOn(s, o, false, Unready(s, src))
  {
    forall d: Domain
      ensures Missing(s, o.stream, false, d) <==> Count(s, d) == Received(s.rows, src.Of(d))
    {
      ReadyAt(h, s, src, o, d);
    }
    assert MissingDomains(s, o.stream, false) == Unready(s, src);
  }

  lemma PlanStays(h: Digest, s: State, src: Batch, o: Owner)
    requires WellFormed(h, src, o.stream) && CursorsAt(s, src) && LanesAt(s, src, o.stream)
    ensures AllStay(s.rows, PickedRows(s, o.stream, false))
  {
    forall k | k in s.rows
      ensures StaysPut(s.rows[k], PickedRows(s, o.stream, false)[k])
    {
      PickedStaysAt(h, s, src, o, k);
    }
  }

  /** Nothing that could be tried fails. */
  ghost predicate TrialsPass(h: Digest, s: State, stream: string) {
    forall d: Domain :: !TrialOf(h, s, stream, false, d).failed
  }

  lemma PassingTrials(h: Digest, s: State, o: Owner)
    requires TrialsPass(h, s, o.stream)
    ensures TrialGate(h, s, o, false).None?
    ensures TriedRows(h, s, o, false, true) == PickedRows(s, o.stream, false)
  {
    forall d: Domain
      ensures !Fails(h, s, o, false, d)
    {
    }
    forall k | k in s.rows
      ensures TriedRow(h, s, o, false, true, k) == PickedRows(s, o.stream, false)[k]
    {
    }
  }

  lemma PlanBatch(h: Digest, s: State, src: Batch, o: Owner, d: Domain)
    requires WellFormed(h, src, o.stream) && CursorsAt(s, src) && LanesAt(s, src, o.stream)
    requires VideoAt(h, s, src.video, Count(s, Video))
    ensures AcceptedBatch(h, s, o, false).Of(d) == Fresher(s, src, d)
    ensures !TrialOf(h, s, o.stream, false, d).failed
  {
    TrialPasses(h, s, src, o, d);
    BatchOf(h, s, o, d);
    TriedWhole(h, s, d, Fresher(s, src, d));
  }

  lemma BatchOf(h: Digest, s: State, o: Owner, d: Domain)
    ensures
      var t := TrialOf(h, s, o.stream, false, d);
      AcceptedBatch(h, s, o, false).Of(d) == t.ready[..t.accepted]
  {
  }

  lemma TriedWhole(h: Digest, s: State, d: Domain, ready: seq<Revision>)
    ensures
      var t := Try(h, s, false, d, ready);
      t.accepted == |ready| ==> t.ready[..t.accepted] == ready && !t.failed
  {
  }

  lemma PlanVideo(h: Digest, s: State, src: Batch, o: Owner)
    requires WellFormed(h, src, o.stream) && CursorsAt(s, src) && LanesAt(s, src, o.stream)
    requires VideoAt(h, s, src.video, Count(s, Video))
    ensures
      var q, view := Received(s.rows, src.video), TrialOf(h, s, o.stream, false, Video).view;
      && Persist(s.content, view) == Replayed(h, src.video[..q]).view.videos
      && (Fresher(s, src, Video) != [] ==> Writable(view.videos))
  {
    TrialPasses(h, s, src, o, Video);
    assert Intact(h, src.Of(Video), Video);
    VideoTrial(h, s, src.video, Count(s, Video), Received(s.rows, src.video));
  }

  lemma PlanIsExact(h: Digest, s: State, src: Batch, o: Owner)
    requires WellFormed(h, src, o.stream) && CursorsAt(s, src) && LanesAt(s, src, o.stream)
    requires VideoAt(h, s, src.video, Count(s, Video)) && o.status == Owning
    ensures PlanExact(h, s, src, o, PlanOf(h, s, o))
  {
    PlanGate(h, s, src, o);
    PlanStays(h, s, src, o);
    forall d: Domain
      ensures AcceptedBatch(h, s, o, false).Of(d) == Fresher(s, src, d)
      ensures !TrialOf(h, s, o.stream, false, d).failed
    {
      PlanBatch(h, s, src, o, d);
    }
    assert TrialsPass(h, s, o.stream);
    PassingTrials(h, s, o);
    PlanVideo(h, s, src, o);
    assert AcceptedBatch(h, s, o, false).Of(Video) == AcceptedBatch(h, s, o, false).video;
  }

  // --- the run ---

  /** The gate of the code is the gate on the received prefixes, and before it is met nothing is active. */
  lemma GateDecides(s: State, src: Batch, o: Owner)
    requires CursorsAt(s, src) && GateKept(o.mode, s)
    ensures GateOn(s, o, false, Unready(s, src)).None? <==> GateMet(o.mode, src, s.rows)
    ensures !GateMet(o.mode, src, s.rows) ==> forall d: Domain :: Count(s, d) == 0
  {
    CountAt(s, src, Channel);
    CountAt(s, src, Video);
    CountAt(s, src, Agent);
    assert src.Of(Channel) == src.channel && src.Of(Video) == src.video && src.Of(Agent) == src.agent;
    var unready := Unready(s, src);
    assert unready != {} <==> Channel in unready || Video in unready || Agent in unready by {
      if d :| d in unready {
        match d case Channel => case Video => case Agent =>
      }
    }
    assert s.cursors != map[] <==> Channel in s.cursors || Video in s.cursors || Agent in s.cursors by {
      if d :| d in s.cursors {
        match d case Channel => case Video => case Agent =>
      }
    }
    forall d: Domain | !GateMet(o.mode, src, s.rows)
      ensures Count(s, d) == 0
    {
      match d case Channel => case Video => case Agent =>
    }
  }

  lemma CountAt(s: State, src: Batch, d: Domain)
    requires CursorsAt(s, src)
    ensures d in s.cursors <==> 0 < Count(s, d)
    ensures Count(s, d) <= Received(s.rows, src.Of(d))
  {
    assert CursorAt(CursorFor(s, false, d), src.Of(d), Count(s, d));
  }

  lemma {:induction false} ReceivedGrows(rows: map<Key, Row>, more: map<Key, Row>, chain: seq<Revision>)
    requires rows.Keys <= more.Keys
    ensures Received(rows, chain) <= Received(more, chain)
  {
    if chain != [] && KeyOf(chain[0]) in rows {
      ReceivedGrows(rows, more, chain[1..]);
    }
  }

  lemma ReceivedSame(rows: map<Key, Row>, after: map<Key, Row>, chain: seq<Revision>)
    requires rows.Keys == after.Keys
    ensures Received(after, chain) == Received(rows, chain)
  {
    ReceivedGrows(rows, after, chain);
    ReceivedGrows(after, rows, chain);
  }

  lemma MarksKeepLane(rows: map<Key, Row>, after: map<Key, Row>, d: Domain, chain: seq<Revision>, stream: string,
                      n: nat)
    requires LaneRows(rows, d, chain, stream, n) && AllStay(rows, after)
    ensures LaneRows(after, d, chain, stream, n)
  {
    forall k | k in after && k.domain == d
      ensures RowAt(after[k], k, chain, stream, n)
    {
      assert RowAt(rows[k], k, chain, stream, n) && StaysPut(rows[k], after[k]);
    }
  }

  lemma MarksKeepPlaces(s: State, src: Batch, stream: string, rows: map<Key, Row>)
    requires CursorsAt(s, src) && LanesAt(s, src, stream) && AllStay(s.rows, rows)
    ensures CursorsAt(s.(rows := rows), src) && LanesAt(s.(rows := rows), src, stream)
  {
    var t := s.(rows := rows);
    forall d: Domain
      ensures CursorAt(CursorFor(t, false, d), src.Of(d), Count(t, d)) && Count(t, d) <= Received(rows, src.Of(d))
      ensures LaneRows(rows, d, src.Of(d), stream, Count(t, d))
    {
      ReceivedSame(s.rows, rows, src.Of(d));
      assert CursorAt(CursorFor(s, false, d), src.Of(d), Count(s, d));
      MarksKeepLane(s.rows, rows, d, src.Of(d), stream, Count(s, d));
    }
  }

  lemma RowsKeepVideo(h: Digest, s: State, t: State, chain: seq<Revision>, n: nat)
    requires t.header == s.header && t.content == s.content && VideoAt(h, s, chain, n)
    ensures VideoAt(h, t, chain, n)
  {
  }

  lemma RowsKeepGate(mode: Mode, s: State, t: State)
    requires t.cursors == s.cursors && GateKept(mode, s)
    ensures GateKept(mode, t)
  {
  }

  lemma RowsKeepFacts(s: State, t: State, src: Batch, d: Domain)
    requires t.cursors == s.cursors && t.facts == s.facts && FactsAt(s, src, d)
    ensures FactsAt(t, src, d)
  {
  }

  /** Apart from the rows, Conf reads nothing that marks and arrivals change. */
  lemma RowsKeepConf(h: Digest, s: State, src: Batch, o: Owner, t: State)
    requires Conf(h, s, src, o)
    requires t == s.(rows := t.rows) && CursorsAt(t, src) && LanesAt(t, src, o.stream)
    ensures Conf(h, t, src, o)
  {
    RowsKeepFacts(s, t, src, Channel);
    RowsKeepFacts(s, t, src, Video);
    RowsKeepFacts(s, t, src, Agent);
    RowsKeepVideo(h, s, t, src.video, Count(s, Video));
    RowsKeepGate(o.mode, s, t);
  }

  lemma MarksKeepConf(h: Digest, s: State, src: Batch, o: Owner, rows: map<Key, Row>)
    requires Conf(h, s, src, o) && AllStay(s.rows, rows)
    ensures Conf(h, s.(rows := rows), src, o)
  {
    MarksKeepPlaces(s, src, o.stream, rows);
    RowsKeepConf(h, s, src, o, s.(rows := rows));
  }

  lemma AwaitStays(h: Digest, s: State, src: Batch, o: Owner)
    requires Conf(h, s, src, o)
    ensures AllStay(s.rows, Await(s).rows)
  {
  }

  // One domain of a commit, with the chain, where it stood and how far it has been received.

  lemma CommitCursor(s: State, t: State, d: Domain, chain: seq<Revision>, stream: string, n: nat, q: nat, batch: Batch)
    requires Chained(chain, stream, d) && n <= q <= |chain| && batch.Of(d) == chain[n..q]
    requires CursorAt(CursorFor(s, false, d), chain, n) && n == Count(s, d)
    requires t.cursors == CommittedCursors(s.cursors, batch)
    ensures Count(t, d) == q && CursorAt(CursorFor(t, false, d), chain, q)
  {
    if n < q {
      assert Last(batch.Of(d)) == chain[q - 1];
      KeyAt(chain, stream, d, q - 1);
    }
  }

  lemma CommitRow(row: Row, after: Row, k: Key, chain: seq<Revision>, stream: string, n: nat, q: nat)
    requires Chained(chain, stream, k.domain) && n <= q <= |chain|
    requires RowAt(row, k, chain, stream, n) && StaysPut(row, after)
    ensures RowAt(ApplyRow(after, chain[n..q]), k, chain, stream, q)
  {
    var run, r := chain[n..q], row.revision;
    KeyAt(chain, stream, k.domain, k.sequence - 1);
    if n < q {
      assert run[|run| - 1] == chain[q - 1];
      KeyAt(chain, stream, k.domain, q - 1);
      if n < k.sequence <= q {
        assert r == chain[k.sequence - 1];
        assert run[k.sequence - 1 - n] == r;
      } else if r in run {
        var j :| 0 <= j < |run| && run[j] == r;
        assert chain[n + j] == r;
        KeyAt(chain, stream, k.domain, n + j);
      }
    }
  }

  lemma CommitLane(rows: map<Key, Row>, marked: map<Key, Row>, o: Owner, batch: Batch, d: Domain, chain: seq<Revision>,
                   n: nat, q: nat)
    requires Chained(chain, o.stream, d) && n <= q <= |chain| && batch.Of(d) == chain[n..q]
    requires LaneRows(rows, d, chain, o.stream, n) && AllStay(rows, marked)
    ensures LaneRows(CommittedRows(marked, o, false, batch), d, chain, o.stream, q)
  {
    var after := CommittedRows(marked, o, false, batch);
    forall k | k in after && k.domain == d
      ensures RowAt(after[k], k, chain, o.stream, q)
    {
      assert RowAt(rows[k], k, chain, o.stream, n);
      CommitRow(rows[k], marked[k], k, chain, o.stream, n, q);
    }
  }

  lemma CommitReaches(h: Digest, s: State, src: Batch, o: Owner, rows: map<Key, Row>, batch: Batch, view: View,
                      d: Domain)
    requires Chained(src.Of(d), o.stream, d) && CursorsAt(s, src) && LanesAt(s, src, o.stream)
    requires AllStay(s.rows, rows) && TakesAll(s, src, batch)
    ensures
      var t := Commit(s, o, false, rows, batch, view);
      && Count(t, d) == Received(s.rows, src.Of(d)) == Received(t.rows, src.Of(d))
      && CursorAt(CursorFor(t, false, d), src.Of(d), Count(t, d))
      && LaneRows(t.rows, d, src.Of(d), o.stream, Count(t, d))
  {
    var t := Commit(s, o, false, rows, batch, view);
    assert CursorAt(CursorFor(s, false, d), src.Of(d), Count(s, d));
    assert batch.Of(d) == Fresher(s, src, d);
    CommitCursor(s, t, d, src.Of(d), o.stream, Count(s, d), Received(s.rows, src.Of(d)), batch);
    CommitLane(s.rows, rows, o, batch, d, src.Of(d), Count(s, d), Received(s.rows, src.Of(d)));
    ReceivedSame(s.rows, t.rows, src.Of(d));
  }

  lemma CommitFacts(s: State, t: State, src: Batch, batch: Batch, d: Domain, q: nat)
    requires FactsAt(s, src, d) && t.facts == CommittedFacts(s.facts, batch)
    requires Count(s, d) <= q <= |src.Of(d)| && Count(t, d) == q && batch.Of(d) == src.Of(d)[Count(s, d)..q]
    ensures FactsAt(t, src, d)
  {
  }

  lemma CommitVideo(h: Digest, s: State, o: Owner, rows: map<Key, Row>, batch: Batch, view: View, chain: seq<Revision>,
                    n: nat, q: nat)
    requires VideoAt(h, s, chain, n) && n <= q <= |chain| && batch.video == chain[n..q]
    requires Persist(s.content, view) == Replayed(h, chain[..q]).view.videos
    ensures VideoAt(h, Commit(s, o, false, rows, batch, view), chain, q)
  {
  }

  lemma CommitPlaces(h: Digest, s: State, src: Batch, o: Owner, rows: map<Key, Row>, batch: Batch, view: View)
    requires WellFormed(h, src, o.stream) && CursorsAt(s, src) && LanesAt(s, src, o.stream)
    requires AllStay(s.rows, rows) && TakesAll(s, src, batch)
    ensures
      var t := Commit(s, o, false, rows, batch, view);
      && CursorsAt(t, src) && LanesAt(t, src, o.stream)
      && forall d: Domain :: Count(t, d) == Received(s.rows, src.Of(d))
  {
    var t := Commit(s, o, false, rows, batch, view);
    forall d: Domain
      ensures Count(t, d) == Received(s.rows, src.Of(d)) == Received(t.rows, src.Of(d))
      ensures CursorAt(CursorFor(t, false, d), src.Of(d), Count(t, d))
      ensures LaneRows(t.rows, d, src.Of(d), o.stream, Count(t, d))
    {
      assert Chained(src.Of(d), o.stream, d);
      CommitReaches(h, s, src, o, rows, batch, view, d);
    }
  }

  lemma CommitAllFacts(s: State, t: State, src: Batch, batch: Batch)
    requires FactsAt(s, src, Channel) && FactsAt(s, src, Video) && FactsAt(s, src, Agent) && TakesAll(s, src, batch)
    requires t.facts == CommittedFacts(s.facts, batch)
    requires forall d: Domain :: Count(t, d) == Received(s.rows, src.Of(d))
    ensures FactsAt(t, src, Channel) && FactsAt(t, src, Video) && FactsAt(t, src, Agent)
  {
    assert batch.Of(Channel) == Fresher(s, src, Channel);
    assert batch.Of(Video) == Fresher(s, src, Video);
    assert batch.Of(Agent) == Fresher(s, src, Agent);
    CommitFacts(s, t, src, batch, Channel, Received(s.rows, src.channel));
    CommitFacts(s, t, src, batch, Video, Received(s.rows, src.video));
    CommitFacts(s, t, src, batch, Agent, Received(s.rows, src.agent));
  }

  lemma CommitResults(h: Digest, s: State, src: Batch, o: Owner, p: Plan, t: State)
    requires Conf(h, s, src, o) && PlanExact(h, s, src, o, p)
    requires t == Commit(s, o, false, p.rows, p.batch, p.view)
    requires forall d: Domain :: Count(t, d) == Received(s.rows, src.Of(d))
    ensures FactsAt(t, src, Channel) && FactsAt(t, src, Video) && FactsAt(t, src, Agent)
    ensures VideoAt(h, t, src.video, Count(t, Video))
  {
    CommitAllFacts(s, t, src, p.batch);
    assert p.batch.Of(Video) == Fresher(s, src, Video);
    CommitVideo(h, s, o, p.rows, p.batch, p.view, src.video, Count(s, Video), Received(s.rows, src.video));
  }

  lemma GateStaysMet(mode: Mode, s: State, t: State, src: Batch)
    requires GateMet(mode, src, s.rows) && CursorsAt(t, src)
    requires forall d: Domain :: Count(t, d) == Received(s.rows, src.Of(d))
    ensures GateKept(mode, t)
  {
    CountAt(t, src, Channel);
    CountAt(t, src, Video);
    CountAt(t, src, Agent);
  }

  ghost predicate Reached(s: State, src: Batch, mode: Mode, t: State) {
    forall d: Domain :: Count(t, d) == Target(mode, src, s.rows, d)
  }

  lemma NotRefused(h: Digest, s: State, src: Batch, o: Owner)
    requires WellFormed(h, src, o.stream) && CursorsAt(s, src) && o.status == Owning
    ensures Refusal(s, o).None?
  {
    forall d | d in s.cursors
      ensures s.cursors[d].stream == o.stream
    {
      assert CursorAt(CursorFor(s, false, d), src.Of(d), Count(s, d));
      assert Chained(src.Of(d), o.stream, d);
      CountAt(s, src, d);
    }
  }

  /** The three ways in which a run with an exact plan can end. */
  lemma ExactRun(h: Digest, s: State, src: Batch, o: Owner, p: Plan)
    requires PlanExact(h, s, src, o, p) && Refusal(s, o).None? && o.status == Owning
    ensures
      var t := Run(s, o, p).0;
      if p.gate.Some? then t == s.(rows := p.picked)
      else if p.batch.All() == [] then t == s.(rows := p.rows)
      else t == Commit(s, o, false, p.rows, p.batch, p.view)
  {
  }

  lemma GatedRun(h: Digest, s: State, src: Batch, o: Owner, p: Plan)
    requires Conf(h, s, src, o) && PlanExact(h, s, src, o, p) && p.gate.Some?
    ensures Conf(h, s.(rows := p.picked), src, o) && Reached(s, src, o.mode, s.(rows := p.picked))
  {
    MarksKeepConf(h, s, src, o, p.picked);
    GateDecides(s, src, o);
  }

  lemma NothingFresh(s: State, src: Batch, batch: Batch)
    requires TakesAll(s, src, batch) && batch.All() == []
    ensures forall d: Domain :: Count(s, d) == Received(s.rows, src.Of(d))
  {
    forall d: Domain
      ensures Count(s, d) == Received(s.rows, src.Of(d))
    {
      assert batch.Of(d) == [];
      assert batch.Of(d) == Fresher(s, src, d);
    }
  }

  lemma IdleRun(h: Digest, s: State, src: Batch, o: Owner, p: Plan)
    requires Conf(h, s, src, o) && PlanExact(h, s, src, o, p) && p.gate.None? && p.batch.All() == []
    ensures Conf(h, s.(rows := p.rows), src, o) && Reached(s, src, o.mode, s.(rows := p.rows))
  {
    MarksKeepConf(h, s, src, o, p.rows);
    GateDecides(s, src, o);
    NothingFresh(s, src, p.batch);
  }

  lemma CommittingRun(h: Digest, s: State, src: Batch, o: Owner, p: Plan)
    requires WellFormed(h, src, o.stream) && Conf(h, s, src, o) && PlanExact(h, s, src, o, p) && p.gate.None?
    ensures
      var t := Commit(s, o, false, p.rows, p.batch, p.view);
      Conf(h, t, src, o) && Reached(s, src, o.mode, t)
  {
    var t := Commit(s, o, false, p.rows, p.batch, p.view);
    CommitPlaces(h, s, src, o, p.rows, p.batch, p.view);
    CommitResults(h, s, src, o, p, t);
    GateDecides(s, src, o);
    GateStaysMet(o.mode, s, t, src);
  }

  /** A run takes every domain to its target. */
  lemma RunReaches(h: Digest, s: State, src: Batch, o: Owner, p: Plan)
    requires WellFormed(h, src, o.stream) && Conf(h, s, src, o) && o.status == Owning
    requires PlanExact(h, s, src, o, p)
    ensures Conf(h, Run(s, o, p).0, src, o) && Reached(s, src, o.mode, Run(s, o, p).0)
  {
    NotRefused(h, s, src, o);
    ExactRun(h, s, src, o, p);
    if p.gate.Some? {
      GatedRun(h, s, src, o, p);
    } else if p.batch.All() == [] {
      IdleRun(h, s, src, o, p);
    } else {
      CommittingRun(h, s, src, o, p);
    }
  }

  lemma ActivationKeepsConf(h: Digest, s: State, src: Batch, o: Owner)
    requires WellFormed(h, src, o.stream) && Conf(h, s, src, o) && o.status == Owning
    ensures Conf(h, Activate(h, s).0, src, o)
    ensures s.owner == Some(o) ==> Reached(s, src, o.mode, Activate(h, s).0)
  {
    if s.owner.None? {
      AwaitStays(h, s, src, o);
      MarksKeepConf(h, s, src, o, Await(s).rows);
    } else {
      PlanIsExact(h, s, src, o);
      RunReaches(h, s, src, o, PlanOf(h, s, o));
    }
  }

  // --- arrivals ---

  lemma ArrivalKeepsLane(rows: map<Key, Row>, r: Revision, status: Status, d: Domain, chain: seq<Revision>,
                         stream: string, n: nat)
    requires LaneRows(rows, d, chain, stream, n) && Pending(status)
    requires r.domain == d ==> r.stream == stream && n < r.sequence <= |chain| && r == chain[r.sequence - 1]
    ensures LaneRows(rows[KeyOf(r) := Row(r, true, status)], d, chain, stream, n)
  {
    var after := rows[KeyOf(r) := Row(r, true, status)];
    forall k | k in after && k.domain == d
      ensures RowAt(after[k], k, chain, stream, n)
    {
      if k != KeyOf(r) {
        assert RowAt(rows[k], k, chain, stream, n);
      }
    }
  }

  lemma ArrivalIsAhead(s: State, src: Batch, stream: string, d: Domain, i: nat)
    requires Chained(src.Of(d), stream, d) && CursorsAt(s, src)
    requires i < |src.Of(d)| && KeyOf(src.Of(d)[i]) !in s.rows
    ensures src.Of(d)[i].sequence == i + 1 && Count(s, d) <= i
  {
    KeyAt(src.Of(d), stream, d, i);
    CountAt(s, src, d);
  }

  lemma ArrivalKeepsPlaces(s: State, s': State, src: Batch, stream: string, d: Domain, i: nat, status: Status)
    requires Chained(src.Of(d), stream, d) && CursorsAt(s, src) && LanesAt(s, src, stream)
    requires i < |src.Of(d)| && Arrives(s, s', src.Of(d)[i], status)
    ensures CursorsAt(s', src) && LanesAt(s', src, stream)
  {
    ArrivalIsAhead(s, src, stream, d, i);
    forall e: Domain
      ensures CursorAt(CursorFor(s', false, e), src.Of(e), Count(s', e)) && Count(s', e) <= Received(s'.rows, src.Of(e))
      ensures LaneRows(s'.rows, e, src.Of(e), stream, Count(s', e))
    {
      ReceivedGrows(s.rows, s'.rows, src.Of(e));
      assert CursorAt(CursorFor(s, false, e), src.Of(e), Count(s, e));
      ArrivalKeepsLane(s.rows, src.Of(d)[i], status, e, src.Of(e), stream, Count(s, e));
    }
  }

  lemma ArrivalKeepsConf(h: Digest, s: State, s': State, src: Batch, o: Owner, d: Domain, i: nat, status: Status)
    requires Chained(src.Of(d), o.stream, d) && Conf(h, s, src, o)
    requires i < |src.Of(d)| && Arrives(s, s', src.Of(d)[i], status)
    ensures Conf(h, s', src, o)
  {
    ArrivalKeepsPlaces(s, s', src, o.stream, d, i, status);
    RowsKeepConf(h, s, src, o, s');
  }

  // --- every history ---

  /** One step of a channel that is fed by `src`: a revision arrives, ownership is taken, a run. */
  ghost predicate Fed(h: Digest, s: State, s': State, src: Batch, o: Owner) {
    || (exists d: Domain, i: nat, status :: i < |src.Of(d)| && Arrives(s, s', src.Of(d)[i], status))
    || s' == s.(owner := Some(o))
    || s' == Activate(h, s).0
  }

  ghost predicate Feeding(h: Digest, states: seq<State>, src: Batch, o: Owner) {
    && WellFormed(h, src, o.stream) && o.status == Owning
    && states != [] && states[0] == EMPTY
    && (forall i | 0 <= i < |states| - 1 :: Fed(h, states[i], states[i + 1], src, o))
  }

  /** The last step is a run of a channel that is owned. */
  ghost predicate EndsInRun(h: Digest, states: seq<State>, o: Owner) {
    && |states| > 1 && states[|states| - 2].owner == Some(o)
    && states[|states| - 1] == Activate(h, states[|states| - 2]).0
  }

  lemma OwningKeepsConf(h: Digest, s: State, src: Batch, o: Owner)
    requires Conf(h, s, src, o)
    ensures Conf(h, s.(owner := Some(o)), src, o)
  {
    var t := s.(owner := Some(o));
    RowsKeepFacts(s, t, src, Channel);
    RowsKeepFacts(s, t, src, Video);
    RowsKeepFacts(s, t, src, Agent);
    RowsKeepVideo(h, s, t, src.video, Count(s, Video));
    RowsKeepGate(o.mode, s, t);
    OwningKeepsPlaces(s, src, o);
  }

  lemma OwningKeepsPlaces(s: State, src: Batch, o: Owner)
    requires CursorsAt(s, src) && LanesAt(s, src, o.stream)
    ensures CursorsAt(s.(owner := Some(o)), src) && LanesAt(s.(owner := Some(o)), src, o.stream)
  {
    var t := s.(owner := Some(o));
    forall d: Domain
      ensures CursorAt(CursorFor(t, false, d), src.Of(d), Count(t, d)) && Count(t, d) <= Received(t.rows, src.Of(d))
      ensures LaneRows(t.rows, d, src.Of(d), o.stream, Count(t, d))
    {
      assert CursorAt(CursorFor(s, false, d), src.Of(d), Count(s, d));
      assert LaneRows(s.rows, d, src.Of(d), o.stream, Count(s, d));
    }
  }

  lemma FedKeepsConf(h: Digest, s: State, s': State, src: Batch, o: Owner)
    requires WellFormed(h, src, o.stream) && Conf(h, s, src, o) && o.status == Owning && Fed(h, s, s', src, o)
    ensures Conf(h, s', src, o)
  {
    if d: Domain, i: nat, status :| i < |src.Of(d)| && Arrives(s, s', src.Of(d)[i], status) {
      assert Chained(src.Of(d), o.stream, d);
      ArrivalKeepsConf(h, s, s', src, o, d, i, status);
    } else if s' == s.(owner := Some(o)) {
      OwningKeepsConf(h, s, src, o);
    } else {
      ActivationKeepsConf(h, s, src, o);
    }
  }

  lemma {:induction false} FeedingKeepsConf(h: Digest, states: seq<State>, src: Batch, o: Owner)
    requires Feeding(h, states, src, o)
    ensures Conf(h, states[|states| - 1], src, o)
  {
    if |states| > 1 {
      FeedingPrefix(h, states, src, o);
      FeedingKeepsConf(h, states[..|states| - 1], src, o);
      FedKeepsConf(h, states[|states| - 2], states[|states| - 1], src, o);
    } else {
      EmptyConf(h, src, o);
    }
  }

  lemma EmptyConf(h: Digest, src: Batch, o: Owner)
    ensures Conf(h, EMPTY, src, o)
  {
    assert src.video[..0] == [];
  }

  /** For well-formed chains under active ownership, whatever the order of arrivals, ownership and
      runs: after a run the cursor of each domain names the last revision of its longest received
      prefix if the onboarding gate is met, and there is no cursor if it is not. */
  lemma CursorIsLongestPrefix(h: Digest, states: seq<State>, src: Batch, o: Owner, d: Domain)
    requires Feeding(h, states, src, o) && EndsInRun(h, states, o)
    ensures
      var s := states[|states| - 1];
      CursorAt(CursorFor(s, false, d), src.Of(d), Target(o.mode, src, s.rows, d))
  {
    LastRun(h, states, src, o);
    ReachedCursor(states[|states| - 1], src, o.mode, d);
  }

  lemma ReachedCursor(s: State, src: Batch, mode: Mode, d: Domain)
    requires CursorsAt(s, src) && Reached(s, src, mode, s)
    ensures CursorAt(CursorFor(s, false, d), src.Of(d), Target(mode, src, s.rows, d))
  {
  }

  lemma ActivationKeepsKeys(h: Digest, s: State)
    ensures Activate(h, s).0.rows.Keys == s.rows.Keys
  {
    if s.owner.Some? {
      RunKeepsKeys(s, s.owner.value, PlanOf(h, s, s.owner.value));
    }
  }

  lemma RunKeepsKeys(s: State, o: Owner, p: Plan)
    requires p.picked.Keys == p.stopped.Keys == p.rows.Keys == s.rows.Keys
    ensures Run(s, o, p).0.rows.Keys == s.rows.Keys
  {
  }

  lemma TargetSame(mode: Mode, src: Batch, rows: map<Key, Row>, after: map<Key, Row>, d: Domain)
    requires rows.Keys == after.Keys
    ensures Target(mode, src, after, d) == Target(mode, src, rows, d)
  {
    ReceivedSame(rows, after, src.channel);
    ReceivedSame(rows, after, src.video);
    ReceivedSame(rows, after, src.agent);
  }

  lemma AfterRun(h: Digest, s: State, src: Batch, o: Owner, t: State)
    requires WellFormed(h, src, o.stream) && Conf(h, s, src, o) && o.status == Owning && s.owner == Some(o)
    requires t == Activate(h, s).0
    ensures Conf(h, t, src, o) && Reached(t, src, o.mode, t)
  {
    ActivationKeepsConf(h, s, src, o);
    ActivationKeepsKeys(h, s);
    ReachedSame(s, src, o.mode, t);
  }

  lemma ReachedSame(s: State, src: Batch, mode: Mode, t: State)
    requires Reached(s, src, mode, t) && t.rows.Keys == s.rows.Keys
    ensures Reached(t, src, mode, t)
  {
    forall d: Domain
      ensures Count(t, d) == Target(mode, src, t.rows, d)
    {
      TargetSame(mode, src, s.rows, t.rows, d);
    }
  }

  lemma LastRun(h: Digest, states: seq<State>, src: Batch, o: Owner)
    requires Feeding(h, states, src, o) && EndsInRun(h, states, o)
    ensures
      var s := states[|states| - 1];
      Conf(h, s, src, o) && Reached(s, src, o.mode, s)
  {
    FeedingPrefix(h, states, src, o);
    var before := states[..|states| - 1];
    FeedingKeepsConf(h, before, src, o);
    AfterRun(h, before[|before| - 1], src, o, states[|states| - 1]);
  }

  /** Two histories of the same channel that have received the same revisions and end in a run agree
      on every cursor and current result, on the content table, and on which rows are active and
      which are pending. */
  lemma ArrivalOrderIsIrrelevant(h: Digest, left: seq<State>, right: seq<State>, src: Batch, o: Owner)
    requires Feeding(h, left, src, o) && EndsInRun(h, left, o)
    requires Feeding(h, right, src, o) && EndsInRun(h, right, o)
    requires left[|left| - 1].rows.Keys == right[|right| - 1].rows.Keys
    ensures
      var a, b := left[|left| - 1], right[|right| - 1];
      && a.cursors == b.cursors && a.facts == b.facts && a.header == b.header && a.content == b.content
      && forall k | k in a.rows ::
           && a.rows[k].revision == b.rows[k].revision
           && (a.rows[k].status == Active <==> b.rows[k].status == Active)
           && (Pending(a.rows[k].status) <==> Pending(b.rows[k].status))
  {
    var a, b := left[|left| - 1], right[|right| - 1];
    LastRun(h, left, src, o);
    LastRun(h, right, src, o);
    SameCounts(a, b, src, o.mode);
    SameCursors(h, a, b, src, o);
    SameVideo(h, a, b, src.video, Count(a, Video));
    forall k | k in a.rows
      ensures a.rows[k].revision == b.rows[k].revision
      ensures a.rows[k].status == Active <==> b.rows[k].status == Active
      ensures Pending(a.rows[k].status) <==> Pending(b.rows[k].status)
    {
      SameRow(a, b, src, o.stream, k);
    }
  }

  lemma SameCounts(a: State, b: State, src: Batch, mode: Mode)
    requires Reached(a, src, mode, a) && Reached(b, src, mode, b) && a.rows.Keys == b.rows.Keys
    ensures forall d: Domain :: Count(a, d) == Count(b, d)
  {
    forall d: Domain
      ensures Count(a, d) == Count(b, d)
    {
      TargetSame(mode, src, a.rows, b.rows, d);
    }
  }

  lemma SameCursors(h: Digest, a: State, b: State, src: Batch, o: Owner)
    requires CursorsAt(a, src) && CursorsAt(b, src)
    requires FactsAt(a, src, Channel) && FactsAt(a, src, Video) && FactsAt(a, src, Agent)
    requires FactsAt(b, src, Channel) && FactsAt(b, src, Video) && FactsAt(b, src, Agent)
    requires forall d: Domain :: Count(a, d) == Count(b, d)
    ensures a.cursors == b.cursors && a.facts == b.facts
  {
    forall d: Domain
      ensures d in a.cursors <==> d in b.cursors
      ensures d in a.cursors ==> a.cursors[d] == b.cursors[d]
      ensures d in a.facts <==> d in b.facts
      ensures d in a.facts ==> a.facts[d] == b.facts[d]
    {
      CountAt(a, src, d);
      CountAt(b, src, d);
      match d case Channel => case Video => case Agent =>
    }
  }

  lemma SameVideo(h: Digest, a: State, b: State, chain: seq<Revision>, n: nat)
    requires VideoAt(h, a, chain, n) && VideoAt(h, b, chain, n)
    ensures a.header == b.header && a.content == b.content
  {
  }

  lemma SameRow(a: State, b: State, src: Batch, stream: string, k: Key)
    requires LanesAt(a, src, stream) && LanesAt(b, src, stream)
    requires Count(a, k.domain) == Count(b, k.domain) && k in a.rows && k in b.rows
    ensures a.rows[k].revision == b.rows[k].revision
    ensures a.rows[k].status == Active <==> b.rows[k].status == Active
    ensures Pending(a.rows[k].status) <==> Pending(b.rows[k].status)
  {
    assert LaneRows(a.rows, k.domain, src.Of(k.domain), stream, Count(a, k.domain));
    assert LaneRows(b.rows, k.domain, src.Of(k.domain), stream, Count(b, k.domain));
    assert RowAt(a.rows[k], k, src.Of(k.domain), stream, Count(a, k.domain));
    assert RowAt(b.rows[k], k, src.Of(k.domain), stream, Count(b, k.domain));
  }

  lemma FeedingPrefix(h: Digest, states: seq<State>, src: Batch, o: Owner)
    requires Feeding(h, states, src, o) && |states| > 1
    ensures Feeding(h, states[..|states| - 1], src, o)
    ensures Fed(h, states[|states| - 2], states[|states| - 1], src, o)
  {
    var before := states[..|states| - 1];
    forall i | 0 <= i < |before| - 1
      ensures Fed(h, before[i], before[i + 1], src, o)
    {
      assert Fed(h, states[i], states[i + 1], src, o);
    }
    var n := |states| - 2;
    assert Fed(h, states[n], states[n + 1], src, o);
  }
}
