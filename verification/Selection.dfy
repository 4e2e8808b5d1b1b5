/** selectContiguous: the longest hash-linked run of revisions after a consumer cursor. */
module Selection {
  import opened Prelude
  import opened Publication

  datatype Selection = Selection(
    superseded: seq<Revision>,
    ready: seq<Revision>,
    conflict: Option<Revision>,
    waiting: seq<Revision>)

  function Next(cursor: Option<Cursor>): nat {
    if cursor.Some? then cursor.value.sequence + 1 else 1
  }

  function Tip(cursor: Option<Cursor>): Option<Hash> {
    if cursor.Some? then Some(cursor.value.hash) else None
  }

  /** May `row`, which carries the expected sequence, be activated after the hash `tip`?
      There is no tip before the first activation. */
  predicate Admissible(row: Revision, tip: Option<Hash>) {
    if tip.None? then
      row.kind == Bootstrap && row.previousSequence == None && row.previousHash == None
    else
      && row.kind != Bootstrap
      && row.sequence > 0 && row.previousSequence == Some(row.sequence - 1)
      && row.previousHash == tip
      && Some(row.resultHash) != tip
  }

  /** `run` starts at sequence `expected`, has no gap, and every revision is linked to the one before. */
  ghost predicate Chain(run: seq<Revision>, expected: nat, tip: Option<Hash>) {
    run == [] || (
      && run[0].sequence == expected
      && Admissible(run[0], tip)
      && Chain(run[1..], expected + 1, Some(run[0].resultHash)))
  }

  ghost predicate Continues(cursor: Option<Cursor>, run: seq<Revision>) {
    Chain(run, Next(cursor), Tip(cursor))
  }

  function TipAfter(run: seq<Revision>, tip: Option<Hash>): Option<Hash> {
    if run == [] then tip else Some(run[|run| - 1].resultHash)
  }

  lemma {:induction false} ChainSequence(run: seq<Revision>, expected: nat, tip: Option<Hash>, i: nat)
    requires Chain(run, expected, tip) && i < |run|
    ensures run[i].sequence == expected + i
  {
    if i > 0 {
      ChainSequence(run[1..], expected + 1, Some(run[0].resultHash), i - 1);
    }
  }

  lemma {:induction false} ChainConcat(a: seq<Revision>, b: seq<Revision>, expected: nat, tip: Option<Hash>)
    ensures Chain(a + b, expected, tip) <==> Chain(a, expected, tip) && Chain(b, expected + |a|, TipAfter(a, tip))
  {
    if a == [] {
      assert a + b == b;
    } else {
      assert (a + b)[1..] == a[1..] + b;
      ChainConcat(a[1..], b, expected + 1, Some(a[0].resultHash));
      assert TipAfter(a[1..], Some(a[0].resultHash)) == TipAfter(a, tip);
    }
  }

  /** One pass over the rows; `stopped` once a row was in conflict. */
  function Scan(rows: seq<Revision>, expected: nat, tip: Option<Hash>, stopped: bool): Selection {
    if rows == [] then Selection([], [], None, []) else
      var row := rows[0];
      if row.sequence < expected then
        var rest := Scan(rows[1..], expected, tip, stopped);
        rest.(superseded := [row] + rest.superseded)
      else if stopped || row.sequence > expected then
        var rest := Scan(rows[1..], expected, tip, stopped);
        rest.(waiting := [row] + rest.waiting)
      else if !Admissible(row, tip) then
        Scan(rows[1..], expected, tip, true).(conflict := Some(row))
      else
        var rest := Scan(rows[1..], expected + 1, Some(row.resultHash), stopped);
        rest.(ready := [row] + rest.ready)
  }

  /** The pending rows of one domain, cut at the run that can be activated now. */
  function Select(rows: seq<Revision>, cursor: Option<Cursor>): Selection {
    Scan(rows, Next(cursor), Tip(cursor), false)
  }

  lemma {:induction false} ScanLinks(rows: seq<Revision>, expected: nat, tip: Option<Hash>, stopped: bool)
    ensures
      var sel := Scan(rows, expected, tip, stopped);
      && Chain(sel.ready, expected, tip)
      && (stopped ==> sel.ready == [] && sel.conflict.None?)
      && (sel.conflict.Some? ==>
            && sel.conflict.value.sequence == expected + |sel.ready|
            && !Admissible(sel.conflict.value, TipAfter(sel.ready, tip)))
  {
    if rows != [] {
      var row, rest := rows[0], rows[1..];
      ScanLinks(rest, expected, tip, stopped);
      ScanLinks(rest, expected, tip, true);
      if !stopped && row.sequence == expected && Admissible(row, tip) {
        var next := Some(row.resultHash);
        ScanLinks(rest, expected + 1, next, false);
        var sel := Scan(rest, expected + 1, next, false);
        assert ([row] + sel.ready)[1..] == sel.ready;
        assert TipAfter([row] + sel.ready, tip) == TipAfter(sel.ready, next);
      }
    }
  }

  /** The ready run continues the cursor; the conflicting row, if any, is the next one and cannot
      extend the run. */
  lemma SelectLinks(rows: seq<Revision>, cursor: Option<Cursor>)
    ensures
      var sel := Select(rows, cursor);
      && Continues(cursor, sel.ready)
      && (sel.conflict.Some? ==>
            && sel.conflict.value.sequence == Next(cursor) + |sel.ready|
            && !Admissible(sel.conflict.value, TipAfter(sel.ready, Tip(cursor))))
  {
    ScanLinks(rows, Next(cursor), Tip(cursor), false);
  }

  function Parts(sel: Selection): seq<Revision> {
    sel.superseded + sel.ready + (if sel.conflict.Some? then [sel.conflict.value] else []) + sel.waiting
  }

  lemma {:induction false} AllWait(rows: seq<Revision>, expected: nat, tip: Option<Hash>, stopped: bool)
    requires StrictlySorted(rows)
    requires rows != [] ==> rows[0].sequence > expected || (stopped && rows[0].sequence == expected)
    ensures Scan(rows, expected, tip, stopped) == Selection([], [], None, rows)
  {
    if rows != [] {
      AllWait(rows[1..], expected, tip, stopped);
    }
  }

  lemma {:induction false} NoneStale(rows: seq<Revision>, expected: nat, tip: Option<Hash>, stopped: bool)
    requires StrictlySorted(rows)
    requires rows != [] ==> rows[0].sequence >= expected
    ensures Scan(rows, expected, tip, stopped).superseded == []
  {
    if rows != [] {
      var row, rest := rows[0], rows[1..];
      NoneStale(rest, expected, tip, stopped);
      NoneStale(rest, expected, tip, true);
      if row.sequence == expected {
        NoneStale(rest, expected + 1, Some(row.resultHash), stopped);
      }
    }
  }

  lemma PartsPush(row: Revision, sel: Selection)
    ensures Parts(sel.(superseded := [row] + sel.superseded)) == [row] + Parts(sel)
    ensures sel.superseded == [] ==> Parts(sel.(ready := [row] + sel.ready)) == [row] + Parts(sel)
  {
  }

  lemma {:induction false} ScanPartitions(rows: seq<Revision>, expected: nat, tip: Option<Hash>, stopped: bool)
    requires StrictlySorted(rows)
    requires stopped ==> rows == [] || rows[0].sequence > expected
    ensures Parts(Scan(rows, expected, tip, stopped)) == rows
  {
    if rows != [] {
      var row, rest := rows[0], rows[1..];
      assert rows == [row] + rest;
      if row.sequence < expected {
        ScanPartitions(rest, expected, tip, stopped);
        PartsPush(row, Scan(rest, expected, tip, stopped));
      } else if stopped || row.sequence > expected {
        AllWait(rows, expected, tip, stopped);
        PartsWait(rows);
      } else if !Admissible(row, tip) {
        AllWait(rest, expected, tip, true);
        PartsConflict(row, rest);
      } else {
        ScanPartitions(rest, expected + 1, Some(row.resultHash), stopped);
        NoneStale(rest, expected + 1, Some(row.resultHash), stopped);
        PartsPush(row, Scan(rest, expected + 1, Some(row.resultHash), stopped));
      }
    }
  }

  lemma PartsWait(rows: seq<Revision>)
    ensures Parts(Selection([], [], None, rows)) == rows
  {
  }

  lemma PartsConflict(row: Revision, rest: seq<Revision>)
    ensures Parts(Selection([], [], Some(row), rest)) == [row] + rest
  {
  }

  /** The four parts together are the rows, in order: nothing is lost and nothing is invented. */
  lemma SelectPartitions(rows: seq<Revision>, cursor: Option<Cursor>)
    requires StrictlySorted(rows)
    ensures Parts(Select(rows, cursor)) == rows
  {
    ScanPartitions(rows, Next(cursor), Tip(cursor), false);
  }

  lemma {:induction false} ScanPlaces(rows: seq<Revision>, expected: nat, tip: Option<Hash>, r: Revision)
    requires StrictlySorted(rows)
    ensures
      var sel := Scan(rows, expected, tip, false);
      var stop := expected + |sel.ready|;
      && (r in sel.superseded <==> r in rows && r.sequence < expected)
      && (r in sel.ready <==> r in rows && expected <= r.sequence < stop)
      && (r in sel.ready ==> r == sel.ready[r.sequence - expected])
      && (sel.conflict == Some(r) <==> r in rows && r.sequence == stop)
      && (r in sel.waiting <==> r in rows && r.sequence > stop)
  {
    if rows != [] {
      var row, rest := rows[0], rows[1..];
      assert r in rows <==> r == row || r in rest;
      SortedMember(rows, r);
      if row.sequence < expected {
        ScanPlaces(rest, expected, tip, r);
      } else if row.sequence > expected {
        AllWait(rows, expected, tip, false);
      } else if !Admissible(row, tip) {
        AllWait(rest, expected, tip, true);
      } else {
        var next := Some(row.resultHash);
        ScanPlaces(rest, expected + 1, next, r);
      }
    }
  }

  lemma SortedMember(rows: seq<Revision>, r: Revision)
    requires StrictlySorted(rows) && rows != []
    ensures r in rows[1..] ==> r.sequence > rows[0].sequence
  {
    if r in rows[1..] {
      var i :| 0 <= i < |rows[1..]| && rows[1..][i] == r;
      SortedPair(rows, 0, i + 1);
    }
  }

  /** The sequence number of a row tells which part it is in. */
  lemma SelectPlaces(rows: seq<Revision>, cursor: Option<Cursor>, r: Revision)
    requires StrictlySorted(rows)
    ensures
      var sel := Select(rows, cursor);
      var stop := Next(cursor) + |sel.ready|;
      && (r in sel.superseded <==> r in rows && r.sequence < Next(cursor))
      && (r in sel.ready <==> r in rows && Next(cursor) <= r.sequence < stop)
      && (r in sel.ready ==> r == sel.ready[r.sequence - Next(cursor)])
      && (sel.conflict == Some(r) <==> r in rows && r.sequence == stop)
      && (r in sel.waiting <==> r in rows && r.sequence > stop)
  {
    ScanPlaces(rows, Next(cursor), Tip(cursor), r);
  }

  /** The ready run is the longest one: every linked run drawn from the rows is a prefix of it. */
  lemma {:induction false} LongestRun(rows: seq<Revision>, cursor: Option<Cursor>, run: seq<Revision>)
    requires StrictlySorted(rows)
    requires Continues(cursor, run)
    requires forall r | r in run :: r in rows
    ensures run <= Select(rows, cursor).ready
  {
    if run != [] {
      var n := |run| - 1;
      var shorter, last := run[..n], run[n];
      assert run == shorter + [last];
      ChainConcat(shorter, [last], Next(cursor), Tip(cursor));
      LongestRun(rows, cursor, shorter);
      SelectLinks(rows, cursor);
      SelectPlaces(rows, cursor, last);
    }
  }

  /** What has been collected, together with the scan of the rows that are left, is the whole selection. */
  ghost predicate Collected(whole: Selection, superseded: seq<Revision>, ready: seq<Revision>,
                            conflict: Option<Revision>, waiting: seq<Revision>, rest: Selection)
  {
    && superseded + rest.superseded == whole.superseded
    && ready + rest.ready == whole.ready
    && whole.conflict == (if conflict.Some? then conflict else rest.conflict)
    && waiting + rest.waiting == whole.waiting
  }

  lemma Shift(xs: seq<Revision>, row: Revision, ys: seq<Revision>)
    ensures xs + ([row] + ys) == (xs + [row]) + ys
  {
  }

  /** The source's loop over the ordered rows. */
  method SelectContiguous(rows: seq<Revision>, cursor: Option<Cursor>) returns (sel: Selection)
    ensures sel == Select(rows, cursor)
  {
    var expectedSequence := Next(cursor);
    var expectedPreviousHash := Tip(cursor);
    var superseded, ready, waiting: seq<Revision> := [], [], [];
    var conflict: Option<Revision> := None;
    ghost var whole := Select(rows, cursor);
    ghost var rest := whole;
    for i := 0 to |rows|
      invariant rest == Scan(rows[i..], expectedSequence, expectedPreviousHash, conflict.Some?)
      invariant Collected(whole, superseded, ready, conflict, waiting, rest)
    {
      var row := rows[i];
      assert rows[i..][0] == row && rows[i..][1..] == rows[i + 1..];
      if row.sequence < expectedSequence {
        rest := Scan(rows[i + 1..], expectedSequence, expectedPreviousHash, conflict.Some?);
        Shift(superseded, row, rest.superseded);
        superseded := superseded + [row];
      } else if conflict.Some? || row.sequence > expectedSequence {
        rest := Scan(rows[i + 1..], expectedSequence, expectedPreviousHash, conflict.Some?);
        Shift(waiting, row, rest.waiting);
        waiting := waiting + [row];
      } else if !Admissible(row, expectedPreviousHash) {
        ScanLinks(rows[i + 1..], expectedSequence, expectedPreviousHash, true);
        conflict := Some(row);
        rest := Scan(rows[i + 1..], expectedSequence, expectedPreviousHash, true);
      } else {
        expectedPreviousHash := Some(row.resultHash);
        expectedSequence := expectedSequence + 1;
        rest := Scan(rows[i + 1..], expectedSequence, expectedPreviousHash, false);
        Shift(ready, row, rest.ready);
        ready := ready + [row];
      }
    }
    sel := Selection(superseded, ready, conflict, waiting);
  }
}
