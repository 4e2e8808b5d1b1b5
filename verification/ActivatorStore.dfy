/** The activator as it runs: one transaction of statements that change the channel's rows in place.
    Every statement is tied to the step functions, and the whole transaction to Activate. */
module ActivatorStore {
  import opened Prelude
  import opened Publication
  import opened Selection
  import opened VideoReplay
  import opened VideoTable
  import opened VideoRows
  import opened VideoMachine
  import opened Activation
  import opened ActivationRows
  import Settles = ActivationSettles
  import Commits = ActivationCommit

  // --- the statements, one row at a time ---

  function Retired(rows: map<Key, Row>, stream: string): map<Key, Row> {
    map k | k in rows :: if k.stream != stream then RetireRow(rows[k]) else rows[k]
  }

  /** The marks of one selection, in the order of the statements: superseded, waiting, quarantine. */
  function MarkSelected(row: Row, sel: Selection): Row {
    var one := if row.revision in sel.superseded then MarkSuperseded(row) else row;
    var two := if row.revision in sel.waiting then MarkWaiting(one) else one;
    if sel.conflict == Some(row.revision) then Quarantine(two) else two
  }

  function Selected(rows: map<Key, Row>, sel: Selection): map<Key, Row> {
    map k | k in rows :: MarkSelected(rows[k], sel)
  }

  predicate Bounded(t: Trial) {
    t.failed ==> t.accepted < |t.ready|
  }

  function MarkAll(rows: map<Key, Row>, t: Trial, rest: bool): map<Key, Row>
    requires Bounded(t)
  {
    map k | k in rows :: MarkTrial(rows[k], t, rest)
  }

  /** setAppliedRevisionStatuses on one row: retire the active one, then the applied ones, then the last. */
  function MarkApplied(row: Row, k: Key, stream: string, d: Domain, applied: seq<Revision>): Row
    requires applied != []
  {
    var one := if k.stream == stream && k.domain == d then RetireActive(row) else row;
    var two := if row.revision in applied[..|applied| - 1] then one.(status := Superseded) else one;
    if row.revision == Last(applied) then two.(status := Active) else two
  }

  function Applied(rows: map<Key, Row>, stream: string, d: Domain, applied: seq<Revision>): map<Key, Row>
    requires applied != []
  {
    map k | k in rows :: MarkApplied(rows[k], k, stream, d, applied)
  }

  /** All members are revisions of the stream and the domain. */
  ghost predicate Of(revs: seq<Revision>, stream: string, d: Domain) {
    forall r | r in revs :: r.stream == stream && r.domain == d
  }

  // --- retiring other streams comes before the query, and does not change what it finds ---

  lemma RetiredPending(rows: map<Key, Row>, stream: string, d: Domain)
    ensures PendingRows(Retired(rows, stream), stream, d) == PendingRows(rows, stream, d)
  {
    var after := Retired(rows, stream);
    assert PendingSequences(after, stream, d) == PendingSequences(rows, stream, d);
    Settles.RowsAtSame(rows, after, stream, d, Sorted(PendingSequences(rows, stream, d)));
  }

  // --- the three selections together ---

  lemma SelectedHere(s: State, stream: string, cut: bool, k: Key, row: Row)
    requires RowsOk(s.rows) && k in s.rows && k.stream == stream && row == s.rows[k]
    ensures MarkSelected(row, Pick(s, stream, cut, k.domain)) == MarkPick(row, Pick(s, stream, cut, k.domain))
  {
    PickMembers(s, stream, cut, k.domain, row.revision);
  }

  lemma SelectedElsewhere(s: State, stream: string, cut: bool, d: Domain, k: Key, row: Row)
    requires RowsOk(s.rows) && k in s.rows && (k.stream != stream || k.domain != d)
      && row.revision == s.rows[k].revision
    ensures MarkSelected(row, Pick(s, stream, cut, d)) == row
  {
    assert RowOk(s.rows, k);
    PickMembers(s, stream, cut, d, row.revision);
  }

  lemma SelectionsPick(s: State, stream: string, cut: bool)
    requires RowsOk(s.rows)
    ensures
      Selected(Selected(Selected(Retired(s.rows, stream), Pick(s, stream, cut, Channel)), Pick(s, stream, cut, Video)),
        Pick(s, stream, cut, Agent))
      == PickedRows(s, stream, cut)
  {
    forall k | k in s.rows
      ensures
        MarkSelected(MarkSelected(MarkSelected(Retired(s.rows, stream)[k], Pick(s, stream, cut, Channel)),
          Pick(s, stream, cut, Video)), Pick(s, stream, cut, Agent))
        == PickedRows(s, stream, cut)[k]
    {
      SelectionsPickRow(s, stream, cut, k);
    }
  }

  lemma SelectionsPickRow(s: State, stream: string, cut: bool, k: Key)
    requires RowsOk(s.rows) && k in s.rows
    ensures
      MarkSelected(MarkSelected(MarkSelected(Retired(s.rows, stream)[k], Pick(s, stream, cut, Channel)),
        Pick(s, stream, cut, Video)), Pick(s, stream, cut, Agent))
      == if k.stream == stream then MarkPick(s.rows[k], Pick(s, stream, cut, k.domain)) else RetireRow(s.rows[k])
  {
    var row := Retired(s.rows, stream)[k];
    var picked := if k.stream == stream then MarkPick(row, Pick(s, stream, cut, k.domain)) else row;
    if k.stream == stream {
      SelectedHere(s, stream, cut, k, row);
    }
    forall d: Domain | k.stream != stream || k.domain != d
      ensures MarkSelected(row, Pick(s, stream, cut, d)) == row
      ensures MarkSelected(picked, Pick(s, stream, cut, d)) == picked
    {
      SelectedElsewhere(s, stream, cut, d, k, row);
      SelectedElsewhere(s, stream, cut, d, k, picked);
    }
  }

  // --- the trials together ---

  lemma PickOf(s: State, stream: string, cut: bool, d: Domain)
    requires RowsOk(s.rows)
    ensures Of(Pick(s, stream, cut, d).ready, stream, d)
  {
    forall r | r in Pick(s, stream, cut, d).ready
      ensures r.stream == stream && r.domain == d
    {
      PickMembers(s, stream, cut, d, r);
    }
  }

  lemma TrialElsewhere(rows: map<Key, Row>, k: Key, row: Row, t: Trial, rest: bool, stream: string, d: Domain)
    requires RowsOk(rows) && k in rows && row.revision == rows[k].revision
    requires Of(t.ready, stream, d) && (k.stream != stream || k.domain != d) && Bounded(t)
    ensures MarkTrial(row, t, rest) == row
  {
    assert RowOk(rows, k);
    if t.failed {
      assert t.ready[t.accepted] in t.ready;
      assert forall r | r in t.ready[t.accepted + 1..] :: r in t.ready;
    }
  }

  /** The trial of a domain that is not considered is taken to be this. */
  const UNTRIED := Trial([], 0, false, View(map[], {}))

  ghost predicate Tries(h: Digest, s: State, o: Owner, cut: bool, agentToo: bool, d: Domain, t: Trial) {
    if Considered(s, o, cut, agentToo, d) then t == TrialOf(h, s, o.stream, cut, d) else t == UNTRIED
  }

  /** The trial of what is ready reads the header and the content only. */
  ghost function TryReady(h: Digest, header: Option<Revision>, content: map<string, Content>, cut: bool, d: Domain,
                          ready: seq<Revision>): (t: Trial)
    ensures Bounded(t)
  {
    if ready == [] then UNTRIED else Try(h, State(None, map[], map[], map[], header, content, []), cut, d, ready)
  }

  lemma TryReads(h: Digest, s: State, cut: bool, d: Domain, ready: seq<Revision>)
    requires ready != []
    ensures Try(h, s, cut, d, ready) == TryReady(h, s.header, s.content, cut, d, ready)
  {
  }

  lemma TriesFrom(h: Digest, s: State, o: Owner, cut: bool, d: Domain, ready: seq<Revision>, t: Trial)
    requires ready == Pick(s, o.stream, cut, d).ready
    requires t == TryReady(h, s.header, s.content, cut, d, if d == Agent && CoreBootstrap(s, o, cut) then [] else ready)
    ensures Tries(h, s, o, cut, false, d, t)
  {
    if ready != [] {
      TryReads(h, s, cut, d, ready);
    }
  }

  lemma TrialsMark(h: Digest, s: State, o: Owner, cut: bool, channel: Trial, video: Trial, agent: Trial)
    requires RowsOk(s.rows)
    requires Tries(h, s, o, cut, false, Channel, channel) && Tries(h, s, o, cut, false, Video, video)
    requires Tries(h, s, o, cut, false, Agent, agent)
    ensures MarkAll(MarkAll(MarkAll(PickedRows(s, o.stream, cut), channel, true), video, true), agent, true)
      == TriedRows(h, s, o, cut, false)
  {
    var picked, tried := PickedRows(s, o.stream, cut), TriedRows(h, s, o, cut, false);
    forall k | k in picked
      ensures MarkTrial(MarkTrial(MarkTrial(picked[k], channel, true), video, true), agent, true) == tried[k]
    {
      TrialsMarkAt(h, s, o, cut, channel, video, agent, picked, k);
    }
    MarkThrice(picked, channel, video, agent, tried);
  }

  lemma MarkThrice(picked: map<Key, Row>, channel: Trial, video: Trial, agent: Trial, tried: map<Key, Row>)
    requires picked.Keys == tried.Keys && Bounded(channel) && Bounded(video) && Bounded(agent)
    requires forall k | k in picked ::
      MarkTrial(MarkTrial(MarkTrial(picked[k], channel, true), video, true), agent, true) == tried[k]
    ensures MarkAll(MarkAll(MarkAll(picked, channel, true), video, true), agent, true) == tried
  {
  }

  lemma TrialsMarkAt(h: Digest, s: State, o: Owner, cut: bool, channel: Trial, video: Trial, agent: Trial,
                     picked: map<Key, Row>, k: Key)
    requires RowsOk(s.rows) && k in s.rows && picked == PickedRows(s, o.stream, cut)
    requires Tries(h, s, o, cut, false, Channel, channel) && Tries(h, s, o, cut, false, Video, video)
    requires Tries(h, s, o, cut, false, Agent, agent)
    ensures MarkTrial(MarkTrial(MarkTrial(picked[k], channel, true), video, true), agent, true)
      == TriedRow(h, s, o, cut, false, k)
  {
    TriesOf(h, s, o, cut, Channel, channel);
    TriesOf(h, s, o, cut, Video, video);
    TriesOf(h, s, o, cut, Agent, agent);
    PickedQuiet(s, o.stream, cut, k);
    TrialsMarkRow(s.rows, k, picked[k], channel, video, agent, o.stream);
    OwnTrialMarks(h, s, o, cut, k, match k.domain case Channel => channel case Video => video case Agent => agent);
  }

  lemma TriesOf(h: Digest, s: State, o: Owner, cut: bool, d: Domain, t: Trial)
    requires RowsOk(s.rows) && Tries(h, s, o, cut, false, d, t)
    ensures Of(t.ready, o.stream, d)
  {
    PickOf(s, o.stream, cut, d);
  }

  lemma OwnTrialMarks(h: Digest, s: State, o: Owner, cut: bool, k: Key, t: Trial)
    requires k in s.rows && Tries(h, s, o, cut, false, k.domain, t)
    ensures TriedRow(h, s, o, cut, false, k)
      == if k.stream == o.stream then MarkTrial(PickedRows(s, o.stream, cut)[k], t, true)
        else PickedRows(s, o.stream, cut)[k]
  {
  }

  /** Only the trial of the row's own domain can mark it. */
  lemma TrialsMarkRow(rows: map<Key, Row>, k: Key, row: Row, channel: Trial, video: Trial, agent: Trial, stream: string)
    requires RowsOk(rows) && k in rows && row.revision == rows[k].revision
    requires Of(channel.ready, stream, Channel) && Of(video.ready, stream, Video) && Of(agent.ready, stream, Agent)
    requires Bounded(channel) && Bounded(video) && Bounded(agent)
    ensures
      MarkTrial(MarkTrial(MarkTrial(row, channel, true), video, true), agent, true)
      == if k.stream != stream then row
         else MarkTrial(row, match k.domain case Channel => channel case Video => video case Agent => agent, true)
  {
    var one := MarkTrial(row, channel, true);
    if k.stream != stream || k.domain != Channel {
      TrialElsewhere(rows, k, row, channel, true, stream, Channel);
    }
    if k.stream != stream || k.domain != Video {
      TrialElsewhere(rows, k, one, video, true, stream, Video);
    }
    if k.stream != stream || k.domain != Agent {
      TrialElsewhere(rows, k, MarkTrial(one, video, true), agent, true, stream, Agent);
    }
  }

  /** During a core bootstrap the agent is tried last, and what follows a failure is not marked. */
  lemma AgentTrialMarks(h: Digest, s: State, o: Owner, cut: bool)
    requires RowsOk(s.rows) && CoreBootstrap(s, o, cut) && !Missing(s, o.stream, cut, Agent)
    ensures MarkAll(TriedRows(h, s, o, cut, false), TrialOf(h, s, o.stream, cut, Agent), false)
      == TriedRows(h, s, o, cut, true)
  {
    var before, after := TriedRows(h, s, o, cut, false), TriedRows(h, s, o, cut, true);
    var t := TrialOf(h, s, o.stream, cut, Agent);
    forall k | k in before
      ensures MarkTrial(before[k], t, false) == after[k]
    {
      AgentTrialMarksAt(h, s, o, cut, k);
    }
  }

  lemma AgentTrialMarksAt(h: Digest, s: State, o: Owner, cut: bool, k: Key)
    requires RowsOk(s.rows) && CoreBootstrap(s, o, cut) && !Missing(s, o.stream, cut, Agent) && k in s.rows
    ensures MarkTrial(TriedRow(h, s, o, cut, false, k), TrialOf(h, s, o.stream, cut, Agent), false)
      == TriedRow(h, s, o, cut, true, k)
  {
    if k.stream != o.stream || k.domain != Agent {
      PickOf(s, o.stream, cut, Agent);
      TriedQuiet(h, s, o, cut, false, k);
      TrialElsewhere(s.rows, k, TriedRow(h, s, o, cut, false, k), TrialOf(h, s, o.stream, cut, Agent), false, o.stream,
                     Agent);
    }
  }

  lemma NoAgentTrial(h: Digest, s: State, o: Owner, cut: bool)
    requires !CoreBootstrap(s, o, cut) || Missing(s, o.stream, cut, Agent)
    ensures TriedRows(h, s, o, cut, false) == TriedRows(h, s, o, cut, true)
  {
    forall k | k in s.rows
      ensures TriedRow(h, s, o, cut, false, k) == TriedRow(h, s, o, cut, true, k)
    {
    }
  }

  // --- the commit, one domain at a time ---

  function PutDomain(s: State, stream: string, d: Domain, applied: seq<Revision>, view: View): State {
    if applied == [] then s else
      s.(rows := Applied(s.rows, stream, d, applied),
         cursors := s.cursors[d := CursorOf(Last(applied))],
         facts := if d == Video then s.facts else s.facts[d := Last(applied)],
         header := if d == Video then Some(Last(applied)) else s.header,
         content := if d == Video then Persist(s.content, view) else s.content)
  }

  function PutAll(s: State, stream: string, batch: Batch, view: View): State {
    PutDomain(PutDomain(PutDomain(s, stream, Channel, batch.channel, view), stream, Video, batch.video, view),
      stream, Agent, batch.agent, view)
  }

  function MarkIf(row: Row, k: Key, stream: string, d: Domain, applied: seq<Revision>): Row {
    if applied == [] then row else MarkApplied(row, k, stream, d, applied)
  }

  lemma AppliedHere(row: Row, k: Key, stream: string, applied: seq<Revision>)
    requires KeyOf(row.revision) == k && k.stream == stream
    ensures MarkIf(row, k, stream, k.domain, applied) == ApplyRow(row, applied)
  {
    if applied != [] {
      assert applied == applied[..|applied| - 1] + [Last(applied)];
    }
  }

  lemma AppliedElsewhere(row: Row, k: Key, stream: string, d: Domain, applied: seq<Revision>)
    requires KeyOf(row.revision) == k && (k.stream != stream || k.domain != d) && Of(applied, stream, d)
    ensures MarkIf(row, k, stream, d, applied) == row
  {
    if applied != [] {
      assert applied == applied[..|applied| - 1] + [Last(applied)];
      assert row.revision !in applied;
    }
  }

  lemma AppliedThrice(row: Row, k: Key, stream: string, batch: Batch)
    requires KeyOf(row.revision) == k && (forall d: Domain :: Of(batch.Of(d), stream, d))
    ensures
      MarkIf(MarkIf(MarkIf(row, k, stream, Channel, batch.channel), k, stream, Video, batch.video), k, stream, Agent,
             batch.agent)
      == if k.stream == stream then ApplyRow(row, batch.Of(k.domain)) else row
  {
    assert Of(batch.Of(Channel), stream, Channel) && Of(batch.Of(Video), stream, Video)
      && Of(batch.Of(Agent), stream, Agent);
    var done := if k.stream == stream then ApplyRow(row, batch.Of(k.domain)) else row;
    if k.stream == stream {
      AppliedHere(row, k, stream, batch.Of(k.domain));
    }
    forall d: Domain | k.stream != stream || k.domain != d
      ensures MarkIf(row, k, stream, d, batch.Of(d)) == row && MarkIf(done, k, stream, d, batch.Of(d)) == done
    {
      AppliedElsewhere(row, k, stream, d, batch.Of(d));
      AppliedElsewhere(done, k, stream, d, batch.Of(d));
    }
    match k.domain case Channel => case Video => case Agent =>
  }

  lemma PutRows(s: State, stream: string, batch: Batch, view: View, k: Key)
    requires RowsOk(s.rows) && k in s.rows && (forall d: Domain :: Of(batch.Of(d), stream, d))
    ensures k in PutAll(s, stream, batch, view).rows
    ensures PutAll(s, stream, batch, view).rows[k] == if k.stream == stream
      then ApplyRow(s.rows[k], batch.Of(k.domain)) else s.rows[k]
  {
    assert RowOk(s.rows, k);
    AppliedThrice(s.rows[k], k, stream, batch);
  }

  lemma PutFields(s: State, stream: string, batch: Batch, view: View)
    ensures
      var t := PutAll(s, stream, batch, view);
      && t.rows.Keys == s.rows.Keys && t.owner == s.owner && t.log == s.log
      && t.header == (if batch.video != [] then Some(Last(batch.video)) else s.header)
      && t.content == (if batch.video != [] then Persist(s.content, view) else s.content)
  {
  }

  lemma PutCursors(s: State, stream: string, batch: Batch, view: View)
    ensures PutAll(s, stream, batch, view).cursors == CommittedCursors(s.cursors, batch)
  {
    Commits.PutThree(s.cursors, batch);
  }

  lemma PutFacts(s: State, stream: string, batch: Batch, view: View)
    ensures PutAll(s, stream, batch, view).facts == CommittedFacts(s.facts, batch)
  {
    FactsTwice(s.facts, batch);
  }

  lemma FactsTwice(facts: map<Domain, Revision>, batch: Batch)
    ensures
      var one := if batch.channel == [] then facts else facts[Channel := Last(batch.channel)];
      var two := if batch.agent == [] then one else one[Agent := Last(batch.agent)];
      two == CommittedFacts(facts, batch)
  {
    var one := if batch.channel == [] then facts else facts[Channel := Last(batch.channel)];
    var two := if batch.agent == [] then one else one[Agent := Last(batch.agent)];
    forall d: Domain
      ensures d in two <==> d in CommittedFacts(facts, batch)
      ensures d in two ==> two[d] == CommittedFacts(facts, batch)[d]
    {
      match d case Channel => case Video => case Agent =>
    }
  }

  function SourceRetired(rows: map<Key, Row>, o: Owner): map<Key, Row> {
    map k | k in rows :: if o.previous == Some(k.stream) then RetireActive(rows[k]) else rows[k]
  }

  /** What follows the three domains: the source of a cutover, the audit rows, the ownership. */
  function Conclude(t: State, before: map<Domain, Cursor>, o: Owner, cut: bool, batch: Batch): State {
    t.(rows := if cut then SourceRetired(t.rows, o) else t.rows,
       owner := if cut then Some(o.(status := Owning)) else t.owner,
       log := t.log + [Activation(o.stream, before, t.cursors, batch.All())])
  }

  lemma CommitInSteps(s: State, o: Owner, cut: bool, rows: map<Key, Row>, batch: Batch, view: View)
    requires RowsOk(rows) && s.owner == Some(o) && (forall d: Domain :: Of(batch.Of(d), o.stream, d))
    ensures Conclude(PutAll(s.(rows := rows), o.stream, batch, view), s.cursors, o, cut, batch)
      == Commit(s, o, cut, rows, batch, view)
  {
    var before := s.(rows := rows);
    PutFields(before, o.stream, batch, view);
    PutCursors(before, o.stream, batch, view);
    PutFacts(before, o.stream, batch, view);
    CommitRows(before, o, cut, batch, view);
  }

  lemma CommitRows(s: State, o: Owner, cut: bool, batch: Batch, view: View)
    requires RowsOk(s.rows) && (forall d: Domain :: Of(batch.Of(d), o.stream, d))
    ensures
      var rows := PutAll(s, o.stream, batch, view).rows;
      (if cut then SourceRetired(rows, o) else rows) == CommittedRows(s.rows, o, cut, batch)
  {
    var rows := PutAll(s, o.stream, batch, view).rows;
    PutFields(s, o.stream, batch, view);
    forall k | k in s.rows
      ensures k in rows
      ensures rows[k] == if k.stream == o.stream then ApplyRow(s.rows[k], batch.Of(k.domain)) else s.rows[k]
    {
      PutRows(s, o.stream, batch, view, k);
    }
    RowsCommitted(s.rows, rows, o, cut, batch);
  }

  lemma RowsCommitted(rows: map<Key, Row>, put: map<Key, Row>, o: Owner, cut: bool, batch: Batch)
    requires put.Keys == rows.Keys
    requires forall k | k in rows :: put[k] == if k.stream == o.stream then ApplyRow(rows[k], batch.Of(k.domain))
      else rows[k]
    ensures (if cut then SourceRetired(put, o) else put) == CommittedRows(rows, o, cut, batch)
  {
  }

  function LaneRetired(rows: map<Key, Row>, stream: string, d: Domain): map<Key, Row> {
    map k | k in rows :: if k.stream == stream && k.domain == d then RetireActive(rows[k]) else rows[k]
  }

  function AllSuperseded(rows: map<Key, Row>, revs: seq<Revision>): map<Key, Row> {
    map k | k in rows :: if rows[k].revision in revs then rows[k].(status := Superseded) else rows[k]
  }

  function OneActive(rows: map<Key, Row>, r: Revision): map<Key, Row> {
    map k | k in rows :: if rows[k].revision == r then rows[k].(status := Active) else rows[k]
  }

  lemma AppliedInSteps(rows: map<Key, Row>, stream: string, d: Domain, applied: seq<Revision>)
    requires applied != []
    ensures OneActive(AllSuperseded(LaneRetired(rows, stream, d), applied[..|applied| - 1]), Last(applied))
      == Applied(rows, stream, d, applied)
  {
  }

  // --- the store ---

  class ChannelStore {
    var owner: Option<Owner>
    var rows: map<Key, Row>
    var cursors: map<Domain, Cursor>
    var facts: map<Domain, Revision>
    var header: Option<Revision>
    var content: map<string, Content>
    var log: seq<Activation>

    ghost function Snapshot(): State
      reads this
    {
      State(owner, rows, cursors, facts, header, content, log)
    }

    constructor ()
      ensures Snapshot() == State(None, map[], map[], map[], None, map[], [])
    {
      owner, rows, cursors, facts, header, content, log := None, map[], map[], map[], None, map[], [];
    }

    method MarkActivationStatuses(superseded: seq<Revision>, waiting: seq<Revision>)
      modifies this`rows
      ensures rows == map k | k in old(rows) ::
        var row := if old(rows)[k].revision in superseded then MarkSuperseded(old(rows)[k]) else old(rows)[k];
        if old(rows)[k].revision in waiting then MarkWaiting(row) else row
    {
      rows := map k | k in rows :: if rows[k].revision in superseded then MarkSuperseded(rows[k]) else rows[k];
      rows := map k | k in rows :: if rows[k].revision in waiting then MarkWaiting(rows[k]) else rows[k];
    }

    method QuarantineRevision(r: Revision)
      modifies this`rows
      ensures rows == map k | k in old(rows) :: if old(rows)[k].revision == r then Quarantine(old(rows)[k])
        else old(rows)[k]
    {
      rows := map k | k in rows :: if rows[k].revision == r then Quarantine(rows[k]) else rows[k];
    }

    method RetireOtherStreams(stream: string)
      modifies this`rows
      ensures rows == Retired(old(rows), stream)
    {
      rows := map k | k in rows :: if k.stream != stream then RetireRow(rows[k]) else rows[k];
    }

    method SelectDomain(pending: seq<Revision>, cursor: Option<Cursor>) returns (sel: Selection)
      modifies this`rows
      ensures sel == Select(pending, cursor)
      ensures rows == Selected(old(rows), sel)
    {
      sel := SelectContiguous(pending, cursor);
      MarkActivationStatuses(sel.superseded, sel.waiting);
      if sel.conflict.Some? {
        QuarantineRevision(sel.conflict.value);
      }
    }

    /** The query is run once, after other streams have been retired and before anything is marked. */
    method QueryPending(stream: string) returns (channels: seq<Revision>, videos: seq<Revision>, agents: seq<Revision>)
      modifies this`rows
      ensures rows == Retired(old(rows), stream)
      ensures channels == PendingRows(old(rows), stream, Channel)
      ensures videos == PendingRows(old(rows), stream, Video)
      ensures agents == PendingRows(old(rows), stream, Agent)
    {
      RetiredPending(rows, stream, Channel);
      RetiredPending(rows, stream, Video);
      RetiredPending(rows, stream, Agent);
      RetireOtherStreams(stream);
      channels := PendingRows(rows, stream, Channel);
      videos := PendingRows(rows, stream, Video);
      agents := PendingRows(rows, stream, Agent);
    }

    method SelectDomains(stream: string, cut: bool)
      returns (channel: Selection, video: Selection, agent: Selection, nothing: bool)
      requires RowsOk(rows)
      modifies this`rows
      ensures channel == Pick(old(Snapshot()), stream, cut, Channel)
      ensures video == Pick(old(Snapshot()), stream, cut, Video)
      ensures agent == Pick(old(Snapshot()), stream, cut, Agent)
      ensures nothing == NothingPending(old(Snapshot()), stream)
      ensures rows == PickedRows(old(Snapshot()), stream, cut)
    {
      SelectionsPick(Snapshot(), stream, cut);
      var channels, videos, agents := QueryPending(stream);
      nothing := channels == [] && videos == [] && agents == [];
      channel := SelectDomain(channels, if cut || Channel !in cursors then None else Some(cursors[Channel]));
      video := SelectDomain(videos, if cut || Video !in cursors then None else Some(cursors[Video]));
      agent := SelectDomain(agents, if cut || Agent !in cursors then None else Some(cursors[Agent]));
    }

    /** simulateDomain, and the marks that follow a failure. */
    method TryDomain(h: Digest, cut: bool, d: Domain, ready: seq<Revision>, rest: bool) returns (t: Trial)
      modifies this`rows
      ensures t == Try(h, old(Snapshot()), cut, d, ready)
      ensures rows == MarkAll(old(rows), t, rest)
    {
      t := Simulated(h, cut, d, ready);
      if t.failed {
        QuarantineRevision(ready[t.accepted]);
        if rest {
          MarkActivationStatuses([], ready[t.accepted + 1..]);
        }
      }
    }

    method Simulated(h: Digest, cut: bool, d: Domain, ready: seq<Revision>) returns (t: Trial)
      ensures t == Try(h, Snapshot(), cut, d, ready)
    {
      if d == Video {
        var state := new VideoState(header.Some?, Load(content, BatchRefs(ready)));
        var accepted, failed := state.Simulate(h, ready, cut);
        t := Trial(ready, accepted, failed, View(state.records, state.touched));
      } else {
        var n := 0;
        while n < |ready| && h.facts(ready[n].document) == ready[n].resultHash
          invariant n <= |ready| && FactsAccepted(h, ready) == n + FactsAccepted(h, ready[n..])
        {
          assert ready[n..][1..] == ready[n + 1..];
          n := n + 1;
        }
        t := Trial(ready, n, n < |ready|, View(map[], {}));
      }
    }

    /** The gates that look at the cursors and at what is ready. */
    method CheckGate(o: Owner, cut: bool, missing: set<Domain>) returns (gate: Option<Outcome>)
      ensures gate == GateOn(Snapshot(), o, cut, missing)
    {
      var all := Channel in cursors && Video in cursors && Agent in cursors;
      var coupled := !cut && o.mode != Automatic && o.mode != Independent;
      if o.mode == Automatic && cursors != map[] && !all {
        return Some(InconsistentPackage);
      }
      if coupled && (Channel in cursors) != (Video in cursors) {
        return Some(InconsistentCore);
      }
      if cut && missing != {} {
        return Some(WaitingCutover);
      }
      if o.mode == Automatic && cursors == map[] && missing != {} {
        return Some(WaitingPackage);
      }
      if coupled && Channel !in cursors && Video !in cursors && (Channel in missing || Video in missing) {
        return Some(WaitingCore);
      }
      return None;
    }

    /** The trials before the second gate: during a core bootstrap the agent is left for later. */
    method TryDomains(h: Digest, o: Owner, cut: bool, core: bool, channel: seq<Revision>, video: seq<Revision>,
                      agent: seq<Revision>, ghost s: State)
      returns (c: Trial, v: Trial, a: Trial)
      requires RowsOk(s.rows) && Snapshot() == s.(rows := PickedRows(s, o.stream, cut))
        && core == CoreBootstrap(s, o, cut)
      requires channel == Pick(s, o.stream, cut, Channel).ready && video == Pick(s, o.stream, cut, Video).ready
      requires agent == Pick(s, o.stream, cut, Agent).ready
      modifies this`rows
      ensures Tries(h, s, o, cut, false, Channel, c) && Tries(h, s, o, cut, false, Video, v)
        && Tries(h, s, o, cut, false, Agent, a)
      ensures rows == TriedRows(h, s, o, cut, false)
    {
      c := TryIfReady(h, cut, Channel, channel, true);
      TriesFrom(h, s, o, cut, Channel, channel, c);
      v := TryIfReady(h, cut, Video, video, true);
      TriesFrom(h, s, o, cut, Video, video, v);
      a := TryIfReady(h, cut, Agent, if core then [] else agent, true);
      TriesFrom(h, s, o, cut, Agent, agent, a);
      TrialsMark(h, s, o, cut, c, v, a);
    }

    method TryIfReady(h: Digest, cut: bool, d: Domain, ready: seq<Revision>, rest: bool) returns (t: Trial)
      modifies this`rows
      ensures t == TryReady(h, header, content, cut, d, ready)
      ensures rows == MarkAll(old(rows), t, rest)
    {
      if ready == [] {
        UntriedMarksNone(rows, rest);
        t := UNTRIED;
      } else {
        TryReads(h, Snapshot(), cut, d, ready);
        t := TryDomain(h, cut, d, ready, rest);
      }
    }

    /** persistCurrent, upsertCursor and setAppliedRevisionStatuses for one domain. */
    method PersistDomain(stream: string, d: Domain, applied: seq<Revision>, view: View) returns (refused: bool)
      modifies this
      ensures refused <==> applied != [] && d == Video && !Writable(view.videos)
      ensures !refused ==> Snapshot() == PutDomain(old(Snapshot()), stream, d, applied, view)
    {
      refused := false;
      if applied == [] {
        return;
      }
      var last := Last(applied);
      if d == Video {
        var after;
        after, refused := PersistVideo(content, view);
        if refused {
          return;
        }
        content := after;
        header := Some(last);
      } else {
        facts := facts[d := last];
      }
      cursors := cursors[d := CursorOf(last)];
      SetAppliedRevisionStatuses(stream, d, applied);
    }

    method RetireActiveOf(stream: string, d: Domain)
      modifies this`rows
      ensures rows == LaneRetired(old(rows), stream, d)
    {
      rows := map k | k in rows :: if k.stream == stream && k.domain == d then RetireActive(rows[k]) else rows[k];
    }

    method SupersedeAll(revs: seq<Revision>)
      modifies this`rows
      ensures rows == AllSuperseded(old(rows), revs)
    {
      rows := map k | k in rows :: if rows[k].revision in revs then rows[k].(status := Superseded) else rows[k];
    }

    method SetActive(r: Revision)
      modifies this`rows
      ensures rows == OneActive(old(rows), r)
    {
      rows := map k | k in rows :: if rows[k].revision == r then rows[k].(status := Active) else rows[k];
    }

    method SetAppliedRevisionStatuses(stream: string, d: Domain, applied: seq<Revision>)
      requires applied != []
      modifies this`rows
      ensures rows == Applied(old(rows), stream, d, applied)
    {
      AppliedInSteps(rows, stream, d, applied);
      RetireActiveOf(stream, d);
      SupersedeAll(applied[..|applied| - 1]);
      SetActive(Last(applied));
    }

    method CommitAll(o: Owner, cut: bool, batch: Batch, view: View) returns (refused: bool)
      modifies this
      ensures refused <==> batch.video != [] && !Writable(view.videos)
      ensures !refused ==> Snapshot() == Conclude(PutAll(old(Snapshot()), o.stream, batch, view), old(cursors), o, cut,
                                                  batch)
    {
      var before := cursors;
      refused := PersistDomain(o.stream, Channel, batch.channel, view);
      refused := PersistDomain(o.stream, Video, batch.video, view);
      if refused {
        return;
      }
      refused := PersistDomain(o.stream, Agent, batch.agent, view);
      if cut {
        rows := map k | k in rows :: if o.previous == Some(k.stream) then RetireActive(rows[k]) else rows[k];
        owner := Some(o.(status := Owning));
      }
      log := log + [Activation(o.stream, before, cursors, batch.All())];
    }

    /** The checks on the trials, in the order of the source. */
    method CheckTrials(h: Digest, o: Owner, cut: bool, core: bool, c: Trial, v: Trial, a: Trial, ghost s: State)
      returns (stop: Option<Outcome>)
      requires cursors == s.cursors && core == CoreBootstrap(s, o, cut)
      requires Tries(h, s, o, cut, false, Channel, c) && Tries(h, s, o, cut, false, Video, v)
        && Tries(h, s, o, cut, false, Agent, a)
      ensures stop == TrialGate(h, s, o, cut)
    {
      if cut && (c.failed || v.failed || a.failed) {
        return Some(CutoverQuarantined);
      }
      if o.mode == Automatic && cursors == map[] && (c.failed || v.failed || a.failed) {
        return Some(PackageQuarantined);
      }
      if core && (c.failed || v.failed) {
        return Some(CoreQuarantined);
      }
      return None;
    }

    method SelectAndGate(o: Owner, cut: bool)
      returns (channel: seq<Revision>, video: seq<Revision>, agent: seq<Revision>, nothing: bool, gate: Option<Outcome>)
      requires RowsOk(rows)
      modifies this`rows
      ensures channel == Pick(old(Snapshot()), o.stream, cut, Channel).ready
      ensures video == Pick(old(Snapshot()), o.stream, cut, Video).ready
      ensures agent == Pick(old(Snapshot()), o.stream, cut, Agent).ready
      ensures nothing == NothingPending(old(Snapshot()), o.stream)
      ensures rows == PickedRows(old(Snapshot()), o.stream, cut)
      ensures gate == GateOn(old(Snapshot()), o, cut, MissingOf(channel, video, agent))
    {
      var c, v, a, none := SelectDomains(o.stream, cut);
      channel, video, agent, nothing := c.ready, v.ready, a.ready, none;
      gate := CheckGate(o, cut, MissingOf(channel, video, agent));
      GateIgnoresRows(old(Snapshot()), rows, o, cut, MissingOf(channel, video, agent));
    }

    /** Everything after the refusals. A refused write leaves the roll back to the caller. */
    method Proceed(h: Digest, o: Owner, cut: bool) returns (outcome: Outcome)
      requires RowsOk(rows) && owner == Some(o) && cut == RecoveryCutover(o) && Refusal(Snapshot(), o).None?
      modifies this
      ensures
        var run := Run(old(Snapshot()), o, PlanOf(h, old(Snapshot()), o));
        outcome == run.1 && (outcome != WriteRefused ==> Snapshot() == run.0)
    {
      ghost var s := Snapshot();
      var channel, video, agent, nothing, gate := SelectAndGate(o, cut);
      MissingIs(s, o.stream, cut, MissingOf(channel, video, agent));
      if gate.Some? {
        RunAtGate(h, s, o);
        outcome := gate.value;
      } else {
        outcome := Attempt(h, o, cut, channel, video, agent, nothing, s);
      }
    }

    /** The trials, the second gate, and what follows. */
    method Attempt(h: Digest, o: Owner, cut: bool, channel: seq<Revision>, video: seq<Revision>, agent: seq<Revision>,
                   nothing: bool, ghost s: State)
      returns (outcome: Outcome)
      requires RowsOk(s.rows) && Snapshot() == s.(rows := PickedRows(s, o.stream, cut)) && s.owner == Some(o)
      requires channel == Pick(s, o.stream, cut, Channel).ready && video == Pick(s, o.stream, cut, Video).ready
      requires agent == Pick(s, o.stream, cut, Agent).ready
      requires nothing == NothingPending(s, o.stream) && cut == RecoveryCutover(o)
      requires Refusal(s, o).None? && Gate(s, o, cut).None?
      modifies this
      ensures
        var run := Run(s, o, PlanOf(h, s, o));
        outcome == run.1 && (outcome != WriteRefused ==> Snapshot() == run.0)
    {
      var core := !cut && o.mode != Automatic && o.mode != Independent && Channel !in cursors && Video !in cursors;
      var c, v, a := TryDomains(h, o, cut, core, channel, video, agent, s);
      var stop := CheckTrials(h, o, cut, core, c, v, a, s);
      if stop.Some? {
        RunAtStop(h, s, o);
        outcome := stop.value;
      } else {
        outcome := AfterGates(h, o, cut, core, c, v, a, agent, nothing, s);
      }
    }

    method AfterGates(h: Digest, o: Owner, cut: bool, core: bool, c: Trial, v: Trial, first: Trial,
                      agent: seq<Revision>, nothing: bool, ghost s: State)
      returns (outcome: Outcome)
      requires RowsOk(s.rows) && Snapshot() == s.(rows := TriedRows(h, s, o, cut, false)) && s.owner == Some(o)
      requires Tries(h, s, o, cut, false, Channel, c) && Tries(h, s, o, cut, false, Video, v)
        && Tries(h, s, o, cut, false, Agent, first)
      requires agent == Pick(s, o.stream, cut, Agent).ready && core == CoreBootstrap(s, o, cut)
      requires nothing == NothingPending(s, o.stream) && cut == RecoveryCutover(o)
      requires Refusal(s, o).None? && Gate(s, o, cut).None? && TrialGate(h, s, o, cut).None?
      modifies this
      ensures
        var run := Run(s, o, PlanOf(h, s, o));
        outcome == run.1 && (outcome != WriteRefused ==> Snapshot() == run.0)
    {
      var a := TryAgent(h, o, cut, core, agent, first, s);
      TriesMore(h, s, o, cut, Channel, c);
      TriesMore(h, s, o, cut, Video, v);
      outcome := Settle(h, o, cut, c, v, a, nothing, s);
    }

    /** After the core has passed, its agent is tried. */
    method TryAgent(h: Digest, o: Owner, cut: bool, core: bool, ready: seq<Revision>, first: Trial, ghost s: State)
      returns (a: Trial)
      requires RowsOk(s.rows) && Snapshot() == s.(rows := TriedRows(h, s, o, cut, false))
        && core == CoreBootstrap(s, o, cut)
      requires ready == Pick(s, o.stream, cut, Agent).ready && Tries(h, s, o, cut, false, Agent, first)
      modifies this`rows
      ensures Tries(h, s, o, cut, true, Agent, a)
      ensures rows == TriedRows(h, s, o, cut, true)
    {
      a := first;
      if core && ready != [] {
        AgentTrialMarks(h, s, o, cut);
        TryReads(h, Snapshot(), cut, Agent, ready);
        TryReads(h, s, cut, Agent, ready);
        a := TryDomain(h, cut, Agent, ready, false);
      } else {
        NoAgentTrial(h, s, o, cut);
      }
    }

    /** Nothing accepted ends the run; otherwise everything accepted is committed together. */
    method Settle(h: Digest, o: Owner, cut: bool, c: Trial, v: Trial, a: Trial, nothing: bool, ghost s: State)
      returns (outcome: Outcome)
      requires RowsOk(s.rows) && Snapshot() == s.(rows := TriedRows(h, s, o, cut, true)) && s.owner == Some(o)
      requires Tries(h, s, o, cut, true, Channel, c) && Tries(h, s, o, cut, true, Video, v)
        && Tries(h, s, o, cut, true, Agent, a)
      requires nothing == NothingPending(s, o.stream) && cut == RecoveryCutover(o)
      requires Refusal(s, o).None? && Gate(s, o, cut).None? && TrialGate(h, s, o, cut).None?
      modifies this
      ensures
        var run := Run(s, o, PlanOf(h, s, o));
        outcome == run.1 && (outcome != WriteRefused ==> Snapshot() == run.0)
    {
      BatchFrom(h, s, o, cut, c, v, a);
      RunPast(h, s, o);
      var batch := Batch(c.ready[..c.accepted], v.ready[..v.accepted], a.ready[..a.accepted]);
      if batch.All() == [] {
        return if nothing then Idle else WaitingGaps;
      }
      CommitFrom(h, s, o, cut, batch, v.view);
      var refused := CommitAll(o, cut, batch, v.view);
      outcome := if refused then WriteRefused else if cut then CutoverActivated else Activated;
    }

    /** A refused write restores the state that the transaction began with. */
    method Transact(h: Digest, o: Owner, cut: bool) returns (outcome: Outcome)
      requires RowsOk(rows) && owner == Some(o) && cut == RecoveryCutover(o) && Refusal(Snapshot(), o).None?
      modifies this
      ensures (Snapshot(), outcome) == Run(old(Snapshot()), o, PlanOf(h, old(Snapshot()), o))
    {
      var begin := State(owner, rows, cursors, facts, header, content, log);
      RefusedWriteKeeps(h, begin, o);
      outcome := Proceed(h, o, cut);
      if outcome == WriteRefused {
        Rollback(begin);
      }
    }

    method Rollback(begin: State)
      modifies this
      ensures Snapshot() == begin
    {
      owner, rows, cursors, facts, header, content, log :=
        begin.owner, begin.rows, begin.cursors, begin.facts, begin.header, begin.content, begin.log;
    }

    /** The checks on the ownership and on the streams of the cursors. */
    method Check(o: Owner) returns (refusal: Option<Outcome>)
      ensures refusal == Refusal(Snapshot(), o)
    {
      var cut := RecoveryCutover(o);
      if o.status != Owning && !cut {
        return Some(AwaitingOwnership);
      }
      if cut && (o.previous.None? || Elsewhere(cursors, o.previous.value) || Some(cursors) != o.vector) {
        return Some(CutoverCursorMismatch);
      }
      if !cut && Elsewhere(cursors, o.stream) {
        return Some(CutoverRequired);
      }
      return None;
    }

    method ForOwner(h: Digest, o: Owner) returns (outcome: Outcome)
      requires RowsOk(rows) && owner == Some(o)
      modifies this
      ensures (Snapshot(), outcome) == Run(old(Snapshot()), o, PlanOf(h, old(Snapshot()), o))
    {
      var refusal := Check(o);
      if refusal.Some? {
        RefusedRun(Snapshot(), o, PlanOf(h, Snapshot(), o));
        if refusal.value == AwaitingOwnership {
          AwaitOwnership();
        }
        return refusal.value;
      }
      outcome := Transact(h, o, RecoveryCutover(o));
    }

    /** activateReady. */
    method ActivateReady(h: Digest) returns (outcome: Outcome)
      requires RowsOk(rows)
      modifies this
      ensures (Snapshot(), outcome) == Activate(h, old(Snapshot()))
    {
      if owner.None? {
        AwaitOwnership();
        outcome := AwaitingOwnership;
      } else {
        outcome := ForOwner(h, owner.value);
      }
    }

    method AwaitOwnership()
      modifies this`rows
      ensures Snapshot() == Await(old(Snapshot()))
    {
      rows := map k | k in rows :: AwaitRow(rows[k]);
    }
  }

  predicate Elsewhere(cursors: map<Domain, Cursor>, stream: string) {
    exists d | d in cursors :: cursors[d].stream != stream
  }

  lemma GateIgnoresRows(s: State, rows: map<Key, Row>, o: Owner, cut: bool, missing: set<Domain>)
    ensures GateOn(s.(rows := rows), o, cut, missing) == GateOn(s, o, cut, missing)
  {
  }

  lemma MissingIs(s: State, stream: string, cut: bool, missing: set<Domain>)
    requires missing == MissingOf(Pick(s, stream, cut, Channel).ready, Pick(s, stream, cut, Video).ready,
                                  Pick(s, stream, cut, Agent).ready)
    ensures missing == MissingDomains(s, stream, cut)
  {
    forall d: Domain
      ensures d in missing <==> d in MissingDomains(s, stream, cut)
    {
      match d case Channel => case Video => case Agent =>
    }
  }

  lemma RunAtGate(h: Digest, s: State, o: Owner)
    requires Refusal(s, o).None? && Gate(s, o, RecoveryCutover(o)).Some?
    ensures Run(s, o, PlanOf(h, s, o))
      == (s.(rows := PickedRows(s, o.stream, RecoveryCutover(o))), Gate(s, o, RecoveryCutover(o)).value)
  {
  }

  lemma RunAtStop(h: Digest, s: State, o: Owner)
    requires Refusal(s, o).None? && Gate(s, o, RecoveryCutover(o)).None? && TrialGate(h, s, o, RecoveryCutover(o)).Some?
    ensures Run(s, o, PlanOf(h, s, o))
      == (s.(rows := TriedRows(h, s, o, RecoveryCutover(o), false)), TrialGate(h, s, o, RecoveryCutover(o)).value)
  {
  }

  lemma RunPast(h: Digest, s: State, o: Owner)
    requires Refusal(s, o).None? && Gate(s, o, RecoveryCutover(o)).None? && TrialGate(h, s, o, RecoveryCutover(o)).None?
    ensures
      var cut := RecoveryCutover(o);
      var rows, batch := TriedRows(h, s, o, cut, true), AcceptedBatch(h, s, o, cut);
      var view := TrialOf(h, s, o.stream, cut, Video).view;
      Run(s, o, PlanOf(h, s, o))
      == if batch.All() == [] then (s.(rows := rows), if NothingPending(s, o.stream) then Idle else WaitingGaps)
         else if batch.video != [] && !Writable(view.videos) then (s, WriteRefused)
         else (Commit(s, o, cut, rows, batch, view), if cut then CutoverActivated else Activated)
  {
  }

  lemma RefusedRun(s: State, o: Owner, p: Plan)
    requires Refusal(s, o).Some?
    ensures Run(s, o, p) == (if Refusal(s, o).value == AwaitingOwnership then Await(s) else s, Refusal(s, o).value)
  {
  }

  lemma NoGateRefusesWrites(h: Digest, s: State, o: Owner, cut: bool)
    ensures Gate(s, o, cut) != Some(WriteRefused) && TrialGate(h, s, o, cut) != Some(WriteRefused)
  {
  }

  lemma RefusedWriteKeeps(h: Digest, s: State, o: Owner)
    ensures Run(s, o, PlanOf(h, s, o)).1 == WriteRefused ==> Run(s, o, PlanOf(h, s, o)).0 == s
  {
    NoGateRefusesWrites(h, s, o, RecoveryCutover(o));
    if Run(s, o, PlanOf(h, s, o)).1 == WriteRefused {
      RefusedKeeps(s, o, PlanOf(h, s, o));
    }
  }

  lemma TriesMore(h: Digest, s: State, o: Owner, cut: bool, d: Domain, t: Trial)
    requires Tries(h, s, o, cut, false, d, t) && d != Agent
    ensures Tries(h, s, o, cut, true, d, t)
  {
  }

  lemma RefusedKeeps(s: State, o: Owner, p: Plan)
    requires Run(s, o, p).1 == WriteRefused
    requires p.gate.Some? ==> p.gate.value != WriteRefused
    requires p.stop.Some? ==> p.stop.value != WriteRefused
    ensures Run(s, o, p).0 == s
  {
  }

  lemma BatchFrom(h: Digest, s: State, o: Owner, cut: bool, c: Trial, v: Trial, a: Trial)
    requires Tries(h, s, o, cut, true, Channel, c) && Tries(h, s, o, cut, true, Video, v)
      && Tries(h, s, o, cut, true, Agent, a)
    ensures Fits(c) && Fits(v) && Fits(a)
    ensures Batch(c.ready[..c.accepted], v.ready[..v.accepted], a.ready[..a.accepted]) == AcceptedBatch(h, s, o, cut)
    ensures v.accepted > 0 ==> v.view == TrialOf(h, s, o.stream, cut, Video).view
  {
    AcceptedFrom(h, s, o, cut, Channel, c);
    AcceptedFrom(h, s, o, cut, Video, v);
    AcceptedFrom(h, s, o, cut, Agent, a);
  }

  predicate Fits(t: Trial) {
    t.accepted <= |t.ready|
  }

  lemma AcceptedFrom(h: Digest, s: State, o: Owner, cut: bool, d: Domain, t: Trial)
    requires Tries(h, s, o, cut, true, d, t)
    ensures Fits(t) && t.ready[..t.accepted] == Accepted(h, s, o, cut, d)
    ensures t.accepted > 0 ==> t == TrialOf(h, s, o.stream, cut, d)
  {
  }

  /** The commit statements produce exactly the commit of the plan. */
  lemma CommitFrom(h: Digest, s: State, o: Owner, cut: bool, batch: Batch, view: View)
    requires RowsOk(s.rows) && s.owner == Some(o) && batch == AcceptedBatch(h, s, o, cut)
    ensures Conclude(PutAll(s.(rows := TriedRows(h, s, o, cut, true)), o.stream, batch, view), s.cursors, o, cut, batch)
      == Commit(s, o, cut, TriedRows(h, s, o, cut, true), batch, view)
  {
    var rows := TriedRows(h, s, o, cut, true);
    Commits.TriedOk(h, s, o, cut, true);
    MarkedRowsOk(s, rows);
    forall d: Domain
      ensures Of(batch.Of(d), o.stream, d)
    {
      AcceptedOf(h, s, o, cut, d);
    }
    CommitInSteps(s, o, cut, rows, batch, view);
  }

  lemma AcceptedOf(h: Digest, s: State, o: Owner, cut: bool, d: Domain)
    requires RowsOk(s.rows)
    ensures Of(AcceptedBatch(h, s, o, cut).Of(d), o.stream, d)
  {
    forall r | r in Accepted(h, s, o, cut, d)
      ensures r.stream == o.stream && r.domain == d
    {
      AcceptedMembers(h, s, o, cut, d, r);
    }
  }

  lemma MarkedRowsOk(s: State, rows: map<Key, Row>)
    requires RowsOk(s.rows) && Commits.MarksOk(s, rows)
    ensures RowsOk(rows)
  {
    forall k | k in rows
      ensures RowOk(rows, k)
    {
      assert RowOk(s.rows, k) && Quiet(s.rows[k], rows[k]);
    }
  }

  function MissingOf(channel: seq<Revision>, video: seq<Revision>, agent: seq<Revision>): set<Domain> {
    (if channel == [] then {Channel} else {}) + (if video == [] then {Video} else {})
      + (if agent == [] then {Agent} else {})
  }

  lemma UntriedMarksNone(rows: map<Key, Row>, rest: bool)
    ensures MarkAll(rows, UNTRIED, rest) == rows
  {
  }
}
