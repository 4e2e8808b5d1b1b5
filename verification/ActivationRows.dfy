/** What one run does to a single revision row. */
module ActivationRows {
  import opened Prelude
  import opened Publication
  import opened Selection
  import opened VideoReplay
  import opened VideoRows
  import opened Activation

  /** Every row sits under its own key; quarantine is both flags at once; the reasons it carries are
      those the ingress contract allows. */
  ghost predicate RowsOk(rows: map<Key, Row>) {
    forall k | k in rows :: RowOk(rows, k)
  }

  ghost predicate RowOk(rows: map<Key, Row>, k: Key)
    requires k in rows
  {
    && KeyOf(rows[k].revision) == k
    && (rows[k].valid <==> rows[k].status != Quarantined)
    && ReasonsOk(rows[k].revision)
  }

  /** The row is unchanged, or it was pending and is now anything but active. */
  predicate Quiet(before: Row, after: Row) {
    && after.revision == before.revision
    && (after == before
        || (Pending(before.status) && before.valid && after.status != Active
            && (after.valid <==> after.status != Quarantined)))
  }

  ghost predicate IsPending(rows: map<Key, Row>, stream: string, d: Domain, r: Revision) {
    && KeyOf(r) in rows && r.stream == stream && r.domain == d
    && rows[KeyOf(r)].revision == r && rows[KeyOf(r)].valid && Pending(rows[KeyOf(r)].status)
  }

  lemma {:induction false} RowsAtIndex(rows: map<Key, Row>, stream: string, d: Domain, sequences: seq<nat>)
    requires forall n | n in sequences :: Key(stream, d, n) in rows
    ensures |RowsAt(rows, stream, d, sequences)| == |sequences|
    ensures forall i | 0 <= i < |sequences| ::
      RowsAt(rows, stream, d, sequences)[i] == rows[Key(stream, d, sequences[i])].revision
    decreases sequences
  {
    if sequences != [] {
      RowsAtIndex(rows, stream, d, sequences[1..]);
    }
  }

  lemma {:induction false} AscendingIsSorted(revs: seq<Revision>)
    requires forall i, j | 0 <= i < j < |revs| :: revs[i].sequence < revs[j].sequence
    ensures StrictlySorted(revs)
  {
    if |revs| > 1 {
      AscendingIsSorted(revs[1..]);
    }
  }

  lemma PendingSorted(rows: map<Key, Row>, stream: string, d: Domain)
    requires RowsOk(rows)
    ensures StrictlySorted(PendingRows(rows, stream, d))
  {
    var sequences := Sorted(PendingSequences(rows, stream, d));
    RowsAtIndex(rows, stream, d, sequences);
    var revs := PendingRows(rows, stream, d);
    forall i | 0 <= i < |revs|
      ensures revs[i].sequence == sequences[i]
    {
      assert sequences[i] in sequences;
      assert RowOk(rows, Key(stream, d, sequences[i]));
    }
    AscendingIsSorted(revs);
  }

  lemma PendingMember(rows: map<Key, Row>, stream: string, d: Domain, r: Revision)
    requires RowsOk(rows)
    ensures r in PendingRows(rows, stream, d) <==> IsPending(rows, stream, d, r)
  {
    var sequences := Sorted(PendingSequences(rows, stream, d));
    RowsAtIndex(rows, stream, d, sequences);
    var revs := PendingRows(rows, stream, d);
    if r in revs {
      var i :| 0 <= i < |revs| && revs[i] == r;
      assert sequences[i] in sequences;
      assert RowOk(rows, Key(stream, d, sequences[i]));
    }
    if IsPending(rows, stream, d, r) {
      assert r.sequence in sequences;
      var i :| 0 <= i < |sequences| && sequences[i] == r.sequence;
      assert revs[i] == r;
    }
  }

  /** What a pick consists of: pending rows of the domain, the ready ones continuing the cursor. */
  lemma PickMembers(s: State, stream: string, cut: bool, d: Domain, r: Revision)
    requires RowsOk(s.rows)
    ensures
      var sel := Pick(s, stream, cut, d);
      var stop := Next(CursorFor(s, cut, d)) + |sel.ready|;
      && (r in sel.superseded <==> IsPending(s.rows, stream, d, r) && r.sequence < Next(CursorFor(s, cut, d)))
      && (r in sel.ready <==> IsPending(s.rows, stream, d, r) && Next(CursorFor(s, cut, d)) <= r.sequence < stop)
      && (sel.conflict == Some(r) <==> IsPending(s.rows, stream, d, r) && r.sequence == stop)
      && (r in sel.waiting <==> IsPending(s.rows, stream, d, r) && r.sequence > stop)
  {
    PendingSorted(s.rows, stream, d);
    PendingMember(s.rows, stream, d, r);
    SelectPlaces(PendingRows(s.rows, stream, d), CursorFor(s, cut, d), r);
  }

  lemma PickChain(s: State, stream: string, cut: bool, d: Domain)
    ensures Continues(CursorFor(s, cut, d), Pick(s, stream, cut, d).ready)
  {
    SelectLinks(PendingRows(s.rows, stream, d), CursorFor(s, cut, d));
  }

  /** What a run's selection does to a pending row of the stream says where the row stands: behind the
      cursor, in the run, next to the run but not linked to it, or behind a gap. */
  lemma MarksTellPlace(s: State, stream: string, cut: bool, k: Key)
    requires RowsOk(s.rows) && k in s.rows && k.stream == stream && s.rows[k].valid && Pending(s.rows[k].status)
    ensures
      var next := Next(CursorFor(s, cut, k.domain));
      var stop := next + |Pick(s, stream, cut, k.domain).ready|;
      var after := PickedRows(s, stream, cut)[k];
      && after.revision == s.rows[k].revision
      && (after.status == Superseded <==> k.sequence < next)
      && (after == s.rows[k] <== next <= k.sequence < stop)
      && (after.status == Quarantined <==> k.sequence == stop)
      && (after.status == WaitingGap <== k.sequence > stop)
      && (after.valid <==> k.sequence != stop)
  {
    assert RowOk(s.rows, k);
    PickMembers(s, stream, cut, k.domain, s.rows[k].revision);
  }

  lemma PickedQuiet(s: State, stream: string, cut: bool, k: Key)
    requires RowsOk(s.rows) && k in s.rows
    ensures Quiet(s.rows[k], PickedRows(s, stream, cut)[k])
  {
    assert RowOk(s.rows, k);
    PickMembers(s, stream, cut, k.domain, s.rows[k].revision);
  }

  lemma TriedQuiet(h: Digest, s: State, o: Owner, cut: bool, agentToo: bool, k: Key)
    requires RowsOk(s.rows) && k in s.rows
    ensures Quiet(s.rows[k], TriedRow(h, s, o, cut, agentToo, k))
  {
    assert RowOk(s.rows, k);
    PickedQuiet(s, o.stream, cut, k);
    var t := TrialOf(h, s, o.stream, cut, k.domain);
    PickMembers(s, o.stream, cut, k.domain, s.rows[k].revision);
    if t.failed {
      assert t.ready[t.accepted] in t.ready;
      assert forall r | r in t.ready[t.accepted + 1..] :: r in t.ready;
    }
  }

  lemma AcceptedMembers(h: Digest, s: State, o: Owner, cut: bool, d: Domain, r: Revision)
    requires RowsOk(s.rows) && r in Accepted(h, s, o, cut, d)
    ensures IsPending(s.rows, o.stream, d, r) && r in Pick(s, o.stream, cut, d).ready
  {
    PickMembers(s, o.stream, cut, d, r);
  }

  /** An accepted row is not one that the trial itself marks. */
  lemma AcceptedUnmarked(h: Digest, s: State, o: Owner, cut: bool, k: Key)
    requires RowsOk(s.rows) && k in s.rows && k.stream == o.stream
    requires s.rows[k].revision in Accepted(h, s, o, cut, k.domain)
    ensures TriedRow(h, s, o, cut, true, k) == s.rows[k]
  {
    var r := s.rows[k].revision;
    AcceptedMembers(h, s, o, cut, k.domain, r);
    PickMembers(s, o.stream, cut, k.domain, r);
    PickChain(s, o.stream, cut, k.domain);
    var t := TrialOf(h, s, o.stream, cut, k.domain);
    var i :| 0 <= i < t.accepted && t.ready[i] == r;
    var cursor := CursorFor(s, cut, k.domain);
    ChainSequence(t.ready, Next(cursor), Tip(cursor), i);
    if t.failed {
      ChainSequence(t.ready, Next(cursor), Tip(cursor), t.accepted);
      forall j | t.accepted < j < |t.ready|
        ensures t.ready[j] != r
      {
        ChainSequence(t.ready, Next(cursor), Tip(cursor), j);
      }
    }
  }
}
