/** What holds of a channel over every run of arrivals, ownership changes and activations. */
module ActivationSafety {
  import opened Prelude
  import opened Publication
  import opened Selection
  import opened VideoReplay
  import opened VideoTable
  import opened VideoRows
  import opened Activation
  import opened ActivationRows

  // --- the audit log ---

  /** All activation items, in the order they were written. */
  function Items(log: seq<Activation>): seq<Revision> {
    if log == [] then [] else Items(log[..|log| - 1]) + log[|log| - 1].items
  }

  /** The items of one stream and domain. */
  function Lane(items: seq<Revision>, stream: string, d: Domain): seq<Revision> {
    if items == [] then [] else
      (if items[0].stream == stream && items[0].domain == d then [items[0]] else []) + Lane(items[1..], stream, d)
  }

  /** The cursors after the last activation. */
  function Vector(log: seq<Activation>): map<Domain, Cursor> {
    if log == [] then map[] else log[|log| - 1].after
  }

  /** Moving a cursor to each item in turn. */
  function Advance(cursors: map<Domain, Cursor>, items: seq<Revision>): map<Domain, Cursor>
    decreases items
  {
    if items == [] then cursors else Advance(cursors[items[0].domain := CursorOf(items[0])], items[1..])
  }

  /** Each activation starts from the vector of the one before and replays its items onto it. */
  ghost predicate Replayable(log: seq<Activation>) {
    log == [] || (
      var n := |log| - 1;
      && Replayable(log[..n])
      && log[n].before == Vector(log[..n])
      && log[n].after == Advance(log[n].before, log[n].items))
  }

  lemma {:induction false} LaneConcat(a: seq<Revision>, b: seq<Revision>, stream: string, d: Domain)
    ensures Lane(a + b, stream, d) == Lane(a, stream, d) + Lane(b, stream, d)
  {
    if a == [] {
      assert a + b == b;
    } else {
      assert (a + b)[1..] == a[1..] + b;
      LaneConcat(a[1..], b, stream, d);
    }
  }

  lemma {:induction false} LaneAll(items: seq<Revision>, stream: string, d: Domain)
    requires forall r | r in items :: r.stream == stream && r.domain == d
    ensures Lane(items, stream, d) == items
  {
    if items != [] {
      assert items[0] in items;
      LaneAll(items[1..], stream, d);
    }
  }

  lemma {:induction false} LaneNone(items: seq<Revision>, stream: string, d: Domain)
    requires forall r | r in items :: r.stream != stream || r.domain != d
    ensures Lane(items, stream, d) == []
  {
    if items != [] {
      assert items[0] in items;
      LaneNone(items[1..], stream, d);
    }
  }

  lemma {:induction false} LaneMember(items: seq<Revision>, stream: string, d: Domain, r: Revision)
    requires r in Lane(items, stream, d)
    ensures r in items && r.stream == stream && r.domain == d
  {
    if items[0] != r || items[0].stream != stream || items[0].domain != d {
      LaneMember(items[1..], stream, d, r);
    }
  }

  lemma {:induction false} AdvanceConcat(cursors: map<Domain, Cursor>, a: seq<Revision>, b: seq<Revision>)
    ensures Advance(cursors, a + b) == Advance(Advance(cursors, a), b)
    decreases a
  {
    if a == [] {
      assert a + b == b;
    } else {
      assert (a + b)[1..] == a[1..] + b;
      AdvanceConcat(cursors[a[0].domain := CursorOf(a[0])], a[1..], b);
    }
  }

  lemma {:induction false} AdvanceOneDomain(cursors: map<Domain, Cursor>, items: seq<Revision>, d: Domain)
    requires forall r | r in items :: r.domain == d
    ensures Advance(cursors, items) == if items == [] then cursors else cursors[d := CursorOf(Last(items))]
    decreases items
  {
    if items != [] {
      assert items[0] in items;
      var next := cursors[d := CursorOf(items[0])];
      AdvanceOneDomain(next, items[1..], d);
      if |items| > 1 {
        assert Last(items[1..]) == Last(items);
      }
    }
  }

  // --- the invariant ---

  function CursorKey(c: Cursor, d: Domain): Key {
    Key(c.stream, d, c.sequence)
  }

  predicate Named(cursors: map<Domain, Cursor>, k: Key) {
    k.domain in cursors && k == CursorKey(cursors[k.domain], k.domain)
  }

  /** A row is active if and only if the cursor of its domain names it. */
  ghost predicate RowInv(rows: map<Key, Row>, cursors: map<Domain, Cursor>, k: Key)
    requires k in rows
  {
    && RowOk(rows, k)
    && (rows[k].status == Active <==> Named(cursors, k))
  }

  /** A cursor names a stored revision. */
  ghost predicate CursorStored(rows: map<Key, Row>, cursors: map<Domain, Cursor>, d: Domain)
    requires d in cursors
  {
    var k := CursorKey(cursors[d], d);
    k in rows && CursorOf(rows[k].revision) == cursors[d]
  }

  /** An audit item is a stored revision that will never be pending again. */
  ghost predicate ItemStored(rows: map<Key, Row>, r: Revision) {
    && KeyOf(r) in rows && rows[KeyOf(r)].revision == r
    && (rows[KeyOf(r)].status == Active || rows[KeyOf(r)].status == Superseded)
  }

  ghost predicate RowsInv(rows: map<Key, Row>, cursors: map<Domain, Cursor>, log: seq<Activation>) {
    && (forall k | k in rows :: RowInv(rows, cursors, k))
    && (forall d | d in cursors :: CursorStored(rows, cursors, d))
    && (forall r | r in Items(log) :: ItemStored(rows, r))
  }

  /** Per stream and domain the items are one linked chain from sequence 1, which ends at the cursor
      if the cursor is on that stream. */
  ghost predicate LaneOk(cursors: map<Domain, Cursor>, log: seq<Activation>, stream: string, d: Domain) {
    var lane := Lane(Items(log), stream, d);
    && Chain(lane, 1, None)
    && (d !in cursors ==> lane == [])
    && (d in cursors && cursors[d].stream == stream ==> lane != [] && CursorOf(Last(lane)) == cursors[d])
  }

  ghost predicate LogInv(cursors: map<Domain, Cursor>, log: seq<Activation>) {
    && Replayable(log) && cursors == Vector(log)
    && (forall stream, d :: LaneOk(cursors, log, stream, d))
  }

  ghost predicate OneStream(cursors: map<Domain, Cursor>) {
    forall d, e | d in cursors && e in cursors :: cursors[d].stream == cursors[e].stream
  }

  /** Each current result belongs to the revision its cursor names. */
  ghost predicate Currents(s: State) {
    && s.facts.Keys == s.cursors.Keys - {Video}
    && (forall d | d in s.facts :: CursorOf(s.facts[d]) == s.cursors[d])
    && (s.header.Some? <==> Video in s.cursors)
    && (s.header.Some? ==> CursorOf(s.header.value) == s.cursors[Video])
  }

  ghost predicate Inv(s: State) {
    && RowsInv(s.rows, s.cursors, s.log)
    && LogInv(s.cursors, s.log)
    && OneStream(s.cursors)
    && Currents(s)
    && AllSettled(s.content) && Writable(s.content)
    && (s.owner.Some? ==> s.owner.value.previous != Some(s.owner.value.stream))
  }

  // --- the steps ---

  const EMPTY := State(None, map[], map[], map[], None, map[], [])

  /** A revision is stored for the first time, pending in one way or another. Key and id are unique. */
  ghost predicate Arrives(s: State, s': State, r: Revision, status: Status) {
    && KeyOf(r) !in s.rows && Pending(status) && ReasonsOk(r)
    && (forall k | k in s.rows :: s.rows[k].revision.id != r.id)
    && s' == s.(rows := s.rows[KeyOf(r) := Row(r, true, status)])
  }

  /** Ownership is created or changed, in any way the table's checks allow. */
  ghost predicate Owns(s: State, s': State, o: Owner) {
    && o.previous != Some(o.stream)
    && s' == s.(owner := Some(o))
  }

  /** Recovery reopens superseded revisions that were never activated. */
  ghost predicate Reopens(s: State, s': State, keys: set<Key>) {
    && (forall k | k in keys :: k in s.rows && s.rows[k].status == Superseded && s.rows[k].revision !in Items(s.log))
    && s' == s.(rows := map k | k in s.rows :: if k in keys then s.rows[k].(status := WaitingOwnership) else s.rows[k])
  }

  ghost predicate Moves(h: Digest, s: State, s': State) {
    || (exists r, status :: Arrives(s, s', r, status))
    || (exists o :: Owns(s, s', o))
    || (exists keys :: Reopens(s, s', keys))
    || s' == Activate(h, s).0
  }

  ghost predicate History(h: Digest, states: seq<State>) {
    && states != [] && states[0] == EMPTY
    && (forall i | 0 <= i < |states| - 1 :: Moves(h, states[i], states[i + 1]))
  }

  // --- steps that activate nothing ---

  /** The row neither becomes nor stops being active, and an audited row stays superseded. */
  predicate Calm(before: Row, after: Row, audited: bool) {
    && after.revision == before.revision
    && (after.valid <==> after.status != Quarantined)
    && (after.status == Active <==> before.status == Active)
    && (audited && before.status == Superseded ==> after.status == Superseded)
  }

  lemma CalmKeepsRows(rows: map<Key, Row>, after: map<Key, Row>, cursors: map<Domain, Cursor>, log: seq<Activation>)
    requires RowsInv(rows, cursors, log) && rows.Keys <= after.Keys
    requires forall k | k in rows :: Calm(rows[k], after[k], rows[k].revision in Items(log))
    requires forall k | k in after && k !in rows :: RowOk(after, k) && after[k].status != Active
    ensures RowsInv(after, cursors, log)
  {
    forall d | d in cursors
      ensures CursorStored(after, cursors, d)
    {
      assert CursorStored(rows, cursors, d);
    }
    forall k | k in after
      ensures RowInv(after, cursors, k)
    {
      assert k.domain in cursors ==> CursorStored(rows, cursors, k.domain);
      if k in rows {
        assert RowInv(rows, cursors, k);
      }
    }
    forall r | r in Items(log)
      ensures ItemStored(after, r)
    {
      assert ItemStored(rows, r);
    }
  }

  lemma RowsAreOk(s: State)
    requires Inv(s)
    ensures RowsOk(s.rows)
  {
    forall k | k in s.rows
      ensures RowOk(s.rows, k)
    {
      assert RowInv(s.rows, s.cursors, k);
    }
  }

  lemma QuietKeepsInv(s: State, rows: map<Key, Row>)
    requires Inv(s) && rows.Keys == s.rows.Keys
    requires forall k | k in s.rows :: Quiet(s.rows[k], rows[k])
    ensures Inv(s.(rows := rows))
  {
    RowsAreOk(s);
    forall k | k in s.rows
      ensures Calm(s.rows[k], rows[k], s.rows[k].revision in Items(s.log))
    {
      assert RowOk(s.rows, k);
    }
    CalmKeepsRows(s.rows, rows, s.cursors, s.log);
  }

  lemma ArrivalKeepsInv(s: State, s': State, r: Revision, status: Status)
    requires Inv(s) && Arrives(s, s', r, status)
    ensures Inv(s')
  {
    RowsAreOk(s);
    forall k | k in s.rows
      ensures Calm(s.rows[k], s'.rows[k], s.rows[k].revision in Items(s.log))
    {
      assert RowOk(s.rows, k);
    }
    CalmKeepsRows(s.rows, s'.rows, s.cursors, s.log);
  }

  lemma ReopeningKeepsInv(s: State, s': State, keys: set<Key>)
    requires Inv(s) && Reopens(s, s', keys)
    ensures Inv(s')
  {
    RowsAreOk(s);
    forall k | k in s.rows
      ensures Calm(s.rows[k], s'.rows[k], s.rows[k].revision in Items(s.log))
    {
      assert RowOk(s.rows, k);
    }
    CalmKeepsRows(s.rows, s'.rows, s.cursors, s.log);
  }
}
