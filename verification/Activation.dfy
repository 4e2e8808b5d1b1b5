/** activateReady as one atomic step on the rows of a channel. */
module Activation {
  import opened Prelude
  import opened Publication
  import opened Selection
  import opened VideoReplay
  import opened VideoTable
  import opened VideoRows

  /** ownership_reference.onboarding_mode: automatic_bootstrap, legacy_tracked_adoption,
      dead_letter_recovery_cutover, anything else. */
  datatype Mode = Automatic | Independent | Recovering | Plain

  datatype OwnerStatus = Owning | CutoverPending

  /** publication.channel_ownership; `evidenced`: the evidence hash is canonical; `vector`: the
      previous_version_vector, a missing domain standing for null. */
  datatype Owner = Owner(
    stream: string,
    previous: Option<string>,
    status: OwnerStatus,
    mode: Mode,
    evidenced: bool,
    vector: Option<map<Domain, Cursor>>)

  /** One publication.activation row with its activation_item rows. */
  datatype Activation = Activation(
    stream: string,
    before: map<Domain, Cursor>,
    after: map<Domain, Cursor>,
    items: seq<Revision>)

  /** Everything stored for one channel. `facts` is entity_current and agent_current, `header` is
      video_current, `content` is content_current. */
  datatype State = State(
    owner: Option<Owner>,
    rows: map<Key, Row>,
    cursors: map<Domain, Cursor>,
    facts: map<Domain, Revision>,
    header: Option<Revision>,
    content: map<string, Content>,
    log: seq<Activation>)

  datatype Outcome =
    | AwaitingOwnership | CutoverCursorMismatch | CutoverRequired
    | InconsistentPackage | InconsistentCore
    | WaitingCutover | WaitingPackage | WaitingCore
    | CutoverQuarantined | PackageQuarantined | CoreQuarantined
    | Idle | WaitingGaps
    | WriteRefused // a unique index or a check refuses a content row: everything is rolled back
    | Activated | CutoverActivated

  predicate RecoveryCutover(o: Owner) {
    o.status == CutoverPending && o.mode == Recovering && o.evidenced && o.vector.Some?
  }

  /** The cursors do not belong to the stream they should belong to. */
  predicate CursorsElsewhere(s: State, stream: string) {
    exists d | d in s.cursors :: s.cursors[d].stream != stream
  }

  function AwaitRow(row: Row): Row {
    if Pending(row.status) then row.(status := WaitingOwnership) else row
  }

  // --- what is pending and what can be activated ---

  function PendingSequences(rows: map<Key, Row>, stream: string, d: Domain): set<nat> {
    set k | k in rows && k.stream == stream && k.domain == d && rows[k].valid && Pending(rows[k].status) :: k.sequence
  }

  function RowsAt(rows: map<Key, Row>, stream: string, d: Domain, sequences: seq<nat>): (r: seq<Revision>)
    requires forall n | n in sequences :: Key(stream, d, n) in rows
  {
    if sequences == [] then [] else
      [rows[Key(stream, d, sequences[0])].revision] + RowsAt(rows, stream, d, sequences[1..])
  }

  /** The valid pending rows of one domain in sequence order. */
  function PendingRows(rows: map<Key, Row>, stream: string, d: Domain): seq<Revision> {
    RowsAt(rows, stream, d, Sorted(PendingSequences(rows, stream, d)))
  }

  function CursorFor(s: State, cut: bool, d: Domain): Option<Cursor> {
    if cut || d !in s.cursors then None else Some(s.cursors[d])
  }

  function Pick(s: State, stream: string, cut: bool, d: Domain): Selection {
    Select(PendingRows(s.rows, stream, d), CursorFor(s, cut, d))
  }

  function Quarantine(row: Row): Row {
    Row(row.revision, false, Quarantined)
  }

  function MarkSuperseded(row: Row): Row {
    if row.status != Quarantined then row.(status := Superseded) else row
  }

  function MarkWaiting(row: Row): Row {
    if row.status == Active || row.status == Quarantined || row.status == Superseded then row
    else row.(status := WaitingGap)
  }

  /** Pending rows of other streams are retired, except evidenced recovery revisions. */
  function RetireRow(row: Row): Row {
    var recovery := row.revision.recovery;
    if Pending(row.status) && !(recovery.Some? && recovery.value.supported && recovery.value.evidenced)
    then row.(status := Superseded) else row
  }

  function MarkPick(row: Row, sel: Selection): Row {
    if row.revision in sel.superseded then MarkSuperseded(row)
    else if row.revision in sel.waiting then MarkWaiting(row)
    else if sel.conflict == Some(row.revision) then Quarantine(row)
    else row
  }

  /** The rows after the selections of all three domains. */
  function PickedRows(s: State, stream: string, cut: bool): map<Key, Row> {
    map k | k in s.rows ::
      if k.stream == stream then MarkPick(s.rows[k], Pick(s, stream, cut, k.domain)) else RetireRow(s.rows[k])
  }

  // --- simulation ---

  datatype Trial = Trial(ready: seq<Revision>, accepted: nat, failed: bool, view: View)

  /** channelState and agentState: the leading revisions whose payload still has its result hash. */
  function FactsAccepted(h: Digest, revs: seq<Revision>): (n: nat)
    ensures n <= |revs|
  {
    if revs != [] && h.facts(revs[0].document) == revs[0].resultHash then 1 + FactsAccepted(h, revs[1..]) else 0
  }

  ghost function Try(h: Digest, s: State, cut: bool, d: Domain, ready: seq<Revision>): (t: Trial)
    ensures t.ready == ready && t.accepted <= |ready| && (t.failed <==> t.accepted < |ready|)
  {
    if d == Video then
      var replay := Simulate(h, s.header.Some?, Load(s.content, BatchRefs(ready)), ready, cut);
      Trial(ready, replay.accepted, replay.failed, replay.view)
    else
      var n := FactsAccepted(h, ready);
      Trial(ready, n, n < |ready|, View(map[], {}))
  }

  ghost function TrialOf(h: Digest, s: State, stream: string, cut: bool, d: Domain): Trial {
    Try(h, s, cut, d, Pick(s, stream, cut, d).ready)
  }

  function MarkTrial(row: Row, t: Trial, rest: bool): Row
    requires t.failed ==> t.accepted < |t.ready|
  {
    if t.failed && row.revision == t.ready[t.accepted] then Quarantine(row)
    else if t.failed && rest && row.revision in t.ready[t.accepted + 1..] then MarkWaiting(row)
    else row
  }

  // --- gates ---

  /** The first activation of a channel whose channel and video must start together. */
  predicate CoreBootstrap(s: State, o: Owner, cut: bool) {
    !cut && o.mode != Automatic && o.mode != Independent && Channel !in s.cursors && Video !in s.cursors
  }

  /** The first activation of a channel whose three domains must start together. */
  predicate PackageBootstrap(s: State, o: Owner) {
    o.mode == Automatic && s.cursors == map[]
  }

  function Missing(s: State, stream: string, cut: bool, d: Domain): bool {
    Pick(s, stream, cut, d).ready == []
  }

  /** The domains without a revision that is ready. */
  function MissingDomains(s: State, stream: string, cut: bool): set<Domain> {
    set d: Domain | Missing(s, stream, cut, d)
  }

  predicate FullSet(s: State) {
    Channel in s.cursors && Video in s.cursors && Agent in s.cursors
  }

  function GateOn(s: State, o: Owner, cut: bool, missing: set<Domain>): Option<Outcome> {
    if o.mode == Automatic && s.cursors != map[] && !FullSet(s) then Some(InconsistentPackage)
    else if !cut && o.mode != Automatic && o.mode != Independent && (Channel in s.cursors) != (Video in s.cursors)
    then Some(InconsistentCore)
    else if cut && missing != {} then Some(WaitingCutover)
    else if PackageBootstrap(s, o) && missing != {} then Some(WaitingPackage)
    else if CoreBootstrap(s, o, cut) && (Channel in missing || Video in missing) then Some(WaitingCore)
    else None
  }

  /** The gate that stops the run before anything is simulated. */
  function Gate(s: State, o: Owner, cut: bool): Option<Outcome> {
    GateOn(s, o, cut, MissingDomains(s, o.stream, cut))
  }

  // --- trials ---

  /** Is the domain simulated at all, agent included once the core has passed? */
  predicate Considered(s: State, o: Owner, cut: bool, agentToo: bool, d: Domain) {
    !Missing(s, o.stream, cut, d) && (agentToo || d != Agent || !CoreBootstrap(s, o, cut))
  }

  ghost function TriedRow(h: Digest, s: State, o: Owner, cut: bool, agentToo: bool, k: Key): Row
    requires k in s.rows
  {
    var row := PickedRows(s, o.stream, cut)[k];
    if k.stream == o.stream && Considered(s, o, cut, agentToo, k.domain)
    then MarkTrial(row, TrialOf(h, s, o.stream, cut, k.domain), k.domain != Agent || !CoreBootstrap(s, o, cut))
    else row
  }

  ghost function TriedRows(h: Digest, s: State, o: Owner, cut: bool, agentToo: bool): map<Key, Row> {
    map k | k in s.rows :: TriedRow(h, s, o, cut, agentToo, k)
  }

  ghost predicate Fails(h: Digest, s: State, o: Owner, cut: bool, d: Domain) {
    Considered(s, o, cut, false, d) && TrialOf(h, s, o.stream, cut, d).failed
  }

  /** The gate that stops the run after a failed trial. */
  ghost function TrialGate(h: Digest, s: State, o: Owner, cut: bool): Option<Outcome> {
    var core := Fails(h, s, o, cut, Channel) || Fails(h, s, o, cut, Video);
    if cut && (core || Fails(h, s, o, cut, Agent)) then Some(CutoverQuarantined)
    else if PackageBootstrap(s, o) && (core || Fails(h, s, o, cut, Agent)) then Some(PackageQuarantined)
    else if CoreBootstrap(s, o, cut) && core then Some(CoreQuarantined)
    else None
  }

  /** The revisions that a run activates, by domain. */
  datatype Batch = Batch(channel: seq<Revision>, video: seq<Revision>, agent: seq<Revision>) {
    function Of(d: Domain): seq<Revision> {
      match d case Channel => channel case Video => video case Agent => agent
    }

    function All(): seq<Revision> {
      channel + video + agent
    }
  }

  ghost function Accepted(h: Digest, s: State, o: Owner, cut: bool, d: Domain): seq<Revision> {
    var t := TrialOf(h, s, o.stream, cut, d);
    t.ready[..t.accepted]
  }

  ghost function AcceptedBatch(h: Digest, s: State, o: Owner, cut: bool): Batch {
    Batch(Accepted(h, s, o, cut, Channel), Accepted(h, s, o, cut, Video), Accepted(h, s, o, cut, Agent))
  }

  // --- commit ---

  function Last(revs: seq<Revision>): Revision
    requires revs != []
  {
    revs[|revs| - 1]
  }

  /** setAppliedRevisionStatuses for one row of the stream and domain. */
  function ApplyRow(row: Row, applied: seq<Revision>): Row {
    if applied == [] then row
    else if row.revision == Last(applied) then row.(status := Active)
    else if row.revision in applied || row.status == Active then row.(status := Superseded)
    else row
  }

  function RetireActive(row: Row): Row {
    if row.status == Active then row.(status := Superseded) else row
  }

  function CommittedRow(row: Row, o: Owner, cut: bool, batch: Batch, k: Key): Row {
    var applied := if k.stream == o.stream then ApplyRow(row, batch.Of(k.domain)) else row;
    if cut && o.previous == Some(k.stream) then RetireActive(applied) else applied
  }

  function CommittedRows(rows: map<Key, Row>, o: Owner, cut: bool, batch: Batch): map<Key, Row> {
    map k | k in rows :: CommittedRow(rows[k], o, cut, batch, k)
  }

  function CommittedCursors(cursors: map<Domain, Cursor>, batch: Batch): map<Domain, Cursor> {
    map d: Domain | d in cursors || batch.Of(d) != [] ::
      if batch.Of(d) != [] then CursorOf(Last(batch.Of(d))) else cursors[d]
  }

  function CommittedFacts(facts: map<Domain, Revision>, batch: Batch): map<Domain, Revision> {
    map d: Domain | d in facts || (d != Video && batch.Of(d) != []) ::
      if d != Video && batch.Of(d) != [] then Last(batch.Of(d)) else facts[d]
  }

  /** The commit: `rows` already carry the marks of the run, `view` holds the replayed videos. */
  function Commit(s: State, o: Owner, cut: bool, rows: map<Key, Row>, batch: Batch, view: View): State {
    var cursors := CommittedCursors(s.cursors, batch);
    State(
      if cut then Some(o.(status := Owning)) else s.owner,
      CommittedRows(rows, o, cut, batch),
      cursors,
      CommittedFacts(s.facts, batch),
      if batch.video != [] then Some(Last(batch.video)) else s.header,
      if batch.video != [] then Persist(s.content, view) else s.content,
      s.log + [Activation(o.stream, s.cursors, cursors, batch.All())])
  }

  predicate NothingPending(s: State, stream: string) {
    && PendingRows(s.rows, stream, Channel) == []
    && PendingRows(s.rows, stream, Video) == []
    && PendingRows(s.rows, stream, Agent) == []
  }

  /** Everything a run works out before it writes: where it stops and which marks it leaves there,
      and, if it passes both gates, the final marks, the accepted revisions and the replayed videos. */
  datatype Plan = Plan(
    gate: Option<Outcome>,
    picked: map<Key, Row>,
    stop: Option<Outcome>,
    stopped: map<Key, Row>,
    rows: map<Key, Row>,
    batch: Batch,
    view: View,
    idle: bool)

  ghost function PlanOf(h: Digest, s: State, o: Owner): Plan {
    var cut := RecoveryCutover(o);
    Plan(
      Gate(s, o, cut), PickedRows(s, o.stream, cut),
      TrialGate(h, s, o, cut), TriedRows(h, s, o, cut, false),
      TriedRows(h, s, o, cut, true), AcceptedBatch(h, s, o, cut),
      TrialOf(h, s, o.stream, cut, Video).view, NothingPending(s, o.stream))
  }

  function Await(s: State): State {
    s.(rows := map k | k in s.rows :: AwaitRow(s.rows[k]))
  }

  /** The refusals before anything is selected. */
  function Refusal(s: State, o: Owner): Option<Outcome> {
    var cut := RecoveryCutover(o);
    if o.status != Owning && !cut then Some(AwaitingOwnership)
    else if cut && (o.previous.None? || CursorsElsewhere(s, o.previous.value) || Some(s.cursors) != o.vector)
    then Some(CutoverCursorMismatch)
    else if !cut && CursorsElsewhere(s, o.stream) then Some(CutoverRequired)
    else None
  }

  ghost function Run(s: State, o: Owner, p: Plan): (State, Outcome) {
    var cut := RecoveryCutover(o);
    var refusal := Refusal(s, o);
    if refusal == Some(AwaitingOwnership) then (Await(s), AwaitingOwnership)
    else if refusal.Some? then (s, refusal.value)
    else if p.gate.Some? then (s.(rows := p.picked), p.gate.value)
    else if p.stop.Some? then (s.(rows := p.stopped), p.stop.value)
    else if p.batch.All() == [] then (s.(rows := p.rows), if p.idle then Idle else WaitingGaps)
    else if p.batch.video != [] && !Writable(p.view.videos) then (s, WriteRefused)
    else (Commit(s, o, cut, p.rows, p.batch, p.view), if cut then CutoverActivated else Activated)
  }

  /** One run of activateReady. */
  ghost function Activate(h: Digest, s: State): (State, Outcome) {
    if s.owner.None? then (Await(s), AwaitingOwnership)
    else Run(s, s.owner.value, PlanOf(h, s, s.owner.value))
  }
}
