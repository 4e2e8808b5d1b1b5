/** The rollback in terms of the chain of releases and the tables along it, written out. */
module RollbackChain {
  import opened Prelude
  import opened Rollback

  /** From the active release back to the target, each the predecessor of the one before, in at most 10000
      steps. */
  ghost predicate ChainTo(s: Storage, target: string, chain: seq<string>) {
    && 0 < |chain| <= 10001 && s.active == Some(chain[0]) && chain[|chain| - 1] == target
    && LinkedBack(s.releases, target, chain)
  }

  ghost predicate LinkedBack(releases: map<string, Release>, target: string, chain: seq<string>) {
    && (forall i | 0 <= i < |chain| :: chain[i] in releases)
    && (forall i | 0 <= i < |chain| - 1 ::
          chain[i] != target && chain[i] in releases && releases[chain[i]].previous == Some(chain[i + 1]))
  }

  /** The change history of the release is there and as long as it says. */
  ghost predicate Recorded(releases: map<string, Release>, w: string) {
    w in releases && releases[w].changes != map[] && releases[w].changedCount == Some(|releases[w].changes|)
  }

  lemma RecordedIff(releases: map<string, Release>, w: string)
    ensures Recorded(releases, w) <==> !Incomplete(releases, w)
  {
  }

  lemma {:induction false} WalkFollows(releases: map<string, Release>, chain: seq<string>, target: string, left: nat)
    requires 0 < |chain| <= left + 1 && chain[|chain| - 1] == target && LinkedBack(releases, target, chain)
    ensures Walk(releases, chain[0], target, left) == Path(chain[..|chain| - 1], true)
    decreases left
  {
    if |chain| > 1 {
      assert chain[0] != target && releases[chain[0]].previous == Some(chain[1]);
      WalkFollows(releases, chain[1..], target, left - 1);
      assert chain[..|chain| - 1] == [chain[0]] + chain[1..][..|chain| - 2];
    } else {
      assert chain[..0] == [];
    }
  }

  lemma {:induction false} WalkIsLinked(releases: map<string, Release>, watermark: string, target: string, left: nat)
    requires Walk(releases, watermark, target, left).reached
    ensures
      var chain := Walk(releases, watermark, target, left).undone + [target];
      |chain| <= left + 1 && chain[0] == watermark && LinkedBack(releases, target, chain)
    decreases left
  {
    if watermark != target {
      var prior := releases[watermark].previous.value;
      WalkIsLinked(releases, prior, target, left - 1);
      var rest := Walk(releases, prior, target, left - 1).undone + [target];
      assert Walk(releases, watermark, target, left).undone + [target] == [watermark] + rest;
    }
  }

  /** The query reaches the target exactly if there is such a chain, and then undoes its other releases. */
  lemma ReachedMeans(s: Storage, target: string)
    ensures PathTo(s, target).reached ==> ChainTo(s, target, PathTo(s, target).undone + [target])
    ensures forall chain | ChainTo(s, target, chain) :: PathTo(s, target) == Path(chain[..|chain| - 1], true)
  {
    if PathTo(s, target).reached {
      WalkIsLinked(s.releases, s.active.value, target, DEPTH_LIMIT);
    }
    forall chain | ChainTo(s, target, chain)
      ensures PathTo(s, target) == Path(chain[..|chain| - 1], true)
    {
      WalkFollows(s.releases, chain, target, DEPTH_LIMIT);
    }
  }

  /** The rows that undoing the releases of the chain, newest first, leaves. */
  ghost predicate UndoneTo(live: map<string, Document>, releases: map<string, Release>, chain: seq<string>,
                           tables: seq<map<string, Document>>) {
    && |tables| == |chain| && chain != [] && tables[0] == live
    && forall i | 0 <= i < |chain| - 1 ::
         chain[i] in releases && Restored(tables[i], releases[chain[i]].changes, tables[i + 1])
  }

  ghost predicate Restored(live: map<string, Document>, changes: map<string, Change>, after: map<string, Document>) {
    forall c :: RestoredAt(live, changes, after, c)
  }

  /** A changed channel has its before-image again, any other its row. */
  ghost predicate RestoredAt(live: map<string, Document>, changes: map<string, Change>, after: map<string, Document>,
                             c: string) {
    Row(after, c) == if c in changes then changes[c].before else Row(live, c)
  }

  lemma UndoRestores(live: map<string, Document>, changes: map<string, Change>)
    ensures Restored(live, changes, Undo(live, changes))
  {
  }

  lemma {:induction false} UndoAllIs(live: map<string, Document>, releases: map<string, Release>, chain: seq<string>,
                                     tables: seq<map<string, Document>>)
    requires UndoneTo(live, releases, chain, tables)
    ensures UndoAll(live, releases, chain[..|chain| - 1]) == tables[|tables| - 1]
    decreases |chain|
  {
    if |chain| > 1 {
      var next := Undo(live, releases[chain[0]].changes);
      UndoRestores(live, releases[chain[0]].changes);
      forall c
        ensures Row(next, c) == Row(tables[1], c)
      {
        assert Restored(tables[0], releases[chain[0]].changes, tables[0 + 1]);
        assert RestoredAt(tables[0], releases[chain[0]].changes, tables[1], c);
        assert RestoredAt(live, releases[chain[0]].changes, next, c);
      }
      SameRows(next, tables[1]);
      UndoneRest(live, releases, chain, tables);
      UndoAllIs(next, releases, chain[1..], tables[1..]);
      assert chain[..|chain| - 1][1..] == chain[1..][..|chain| - 2];
    }
  }

  lemma UndoneRest(live: map<string, Document>, releases: map<string, Release>, chain: seq<string>,
                   tables: seq<map<string, Document>>)
    requires UndoneTo(live, releases, chain, tables) && |chain| > 1
    ensures UndoneTo(tables[1], releases, chain[1..], tables[1..])
  {
    forall i | 0 <= i < |chain[1..]| - 1
      ensures chain[1..][i] in releases
      ensures Restored(tables[1..][i], releases[chain[1..][i]].changes, tables[1..][i + 1])
    {
      assert chain[i + 1] in releases;
      assert Restored(tables[i + 1], releases[chain[i + 1]].changes, tables[i + 1 + 1]);
    }
  }

  /** The same for a given chain and the tables along it: the evidence is clear exactly if the releases before the
      target have recorded their changes, and the legacy snapshot has the bodies of the last table. */
  lemma ClearIff(s: Storage, target: string, chain: seq<string>, tables: seq<map<string, Document>>)
    requires ChainTo(s, target, chain) && UndoneTo(s.live, s.releases, chain, tables)
    ensures Clear(Inspect(s, target)) <==>
      && (forall i | 0 <= i < |chain| - 1 :: Recorded(s.releases, chain[i]))
      && (forall c :: BodyAt(s, target, c) == RowBody(tables[|tables| - 1], c))
  {
    ClearMeans(s, target);
    ReachedMeans(s, target);
    UndoAllIs(s.live, s.releases, chain, tables);
    AllRecorded(s.releases, chain);
    BodiesMatch(s, target, tables[|tables| - 1]);
  }

  lemma AllRecorded(releases: map<string, Release>, chain: seq<string>)
    requires chain != []
    ensures (forall w | w in chain[..|chain| - 1] :: !Incomplete(releases, w))
      <==> forall i | 0 <= i < |chain| - 1 :: Recorded(releases, chain[i])
  {
    var undone := chain[..|chain| - 1];
    assert forall w | w in undone :: exists i :: 0 <= i < |chain| - 1 && chain[i] == w;
    assert forall i | 0 <= i < |chain| - 1 :: undone[i] == chain[i] && chain[i] in undone;
    forall w
      ensures Recorded(releases, w) <==> !Incomplete(releases, w)
    {
      RecordedIff(releases, w);
    }
  }

  /** The body of a channel in the legacy snapshot of the target. */
  ghost function BodyAt(s: Storage, target: string, c: string): Option<string> {
    if target in s.legacy && c in s.legacy[target] then Some(s.legacy[target][c]) else None
  }

  ghost function RowBody(rows: map<string, Document>, c: string): Option<string> {
    if c in rows then Some(rows[c].body) else None
  }

  lemma BodiesMatch(s: Storage, target: string, rows: map<string, Document>)
    ensures Legacy(s, target) == Bodies(rows) <==> forall c :: BodyAt(s, target, c) == RowBody(rows, c)
  {
    var a, b := Legacy(s, target), Bodies(rows);
    forall c
      ensures BodyAt(s, target, c) == if c in a then Some(a[c]) else None
      ensures RowBody(rows, c) == if c in b then Some(b[c]) else None
    {
    }
    if forall c :: BodyAt(s, target, c) == RowBody(rows, c) {
      forall c
        ensures c in a <==> c in b
        ensures c in a ==> a[c] == b[c]
      {
        assert BodyAt(s, target, c) == RowBody(rows, c);
      }
      assert a == b;
    }
  }
}
