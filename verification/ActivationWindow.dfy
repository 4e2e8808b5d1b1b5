/** The stored window and the result hash that the video header declares. */
module ActivationWindow {
  import opened Prelude
  import opened Publication
  import opened Selection
  import opened VideoReplay
  import opened VideoTable
  import opened VideoRows
  import opened Activation
  import opened ActivationRows
  import opened ActivationSafety
  import opened ActivationCommit
  import opened VideoExact
  import opened ActivationExact
  import Fed = ActivationConfluence

  /** The stored active items, listed at positions 1..n, hash to what the header declares. */
  ghost predicate WindowMatches(h: Digest, s: State) {
    s.header.Some? ==> ResultMatches(h, s.header.value, s.content)
  }

  /** What shows after the write is what shows in the records that were written. */
  lemma PersistShows(table: map<string, Content>, view: View)
    ensures SameActive(view.videos, Persist(table, view)) && SameActive(Persist(table, view), view.videos)
  {
  }

  lemma PersistMatches(h: Digest, rev: Revision, table: map<string, Content>, view: View)
    ensures ResultMatches(h, rev, Persist(table, view)) <==> ResultMatches(h, rev, view.videos)
  {
    PersistShows(table, view);
    if ResultMatches(h, rev, view.videos) {
      SameActiveMatches(h, rev, view.videos, Persist(table, view));
    } else if ResultMatches(h, rev, Persist(table, view)) {
      SameActiveMatches(h, rev, Persist(table, view), view.videos);
    }
  }

  /** The last accepted video revision. */
  ghost function Declared(h: Digest, s: State, o: Owner): Revision
    requires Tried(h, s, o).accepted > 0
  {
    Tried(h, s, o).ready[Tried(h, s, o).accepted - 1]
  }

  /** The header and the window that a run stores are those of its video trial. */
  lemma CommittedMatches(h: Digest, s: State, o: Owner)
    requires o.previous != Some(o.stream) && Commits(Run(s, o, PlanOf(h, s, o)).1) && Tried(h, s, o).accepted > 0
    ensures
      WindowMatches(h, Run(s, o, PlanOf(h, s, o)).0)
      <==> ResultMatches(h, Declared(h, s, o), WholeReplay(h, s, o).view.videos)
  {
    ActivatedContent(h, s, o);
    PersistMatches(h, Declared(h, s, o), s.content, WholeReplay(h, s, o).view);
  }

  /** A run that activates video revisions and meets no failing one, or one that is stopped before its
      first write, leaves a window that hashes to the header's result hash, whatever the table held. */
  lemma CommittedWindow(h: Digest, s: State, o: Owner)
    requires o.previous != Some(o.stream) && Commits(Run(s, o, PlanOf(h, s, o)).1)
    requires Tried(h, s, o).accepted > 0 && StopsCleanly(h, s, o)
    ensures WindowMatches(h, Run(s, o, PlanOf(h, s, o)).0)
  {
    CommittedMatches(h, s, o);
    PrefixMatches(h, s, o);
    if Tried(h, s, o).failed {
      CleanFailureLeaves(h, s, o);
    }
  }

  lemma PrefixMatches(h: Digest, s: State, o: Owner)
    requires Tried(h, s, o).accepted > 0
    ensures ResultMatches(h, Declared(h, s, o), PrefixView(h, s, o).videos)
    ensures !Tried(h, s, o).failed ==> WholeReplay(h, s, o).view == PrefixView(h, s, o)
  {
    var t, cut := Tried(h, s, o), RecoveryCutover(o);
    var view := Load(s.content, BatchRefs(t.ready));
    AcceptedPasses(h, s.header.Some?, view, t.ready, cut);
    AcceptedWindow(h, s.header.Some?, view, t.ready[..t.accepted], cut);
  }

  lemma CleanFailureLeaves(h: Digest, s: State, o: Owner)
    requires Tried(h, s, o).accepted > 0 && Tried(h, s, o).failed && StopsCleanly(h, s, o)
    ensures WholeReplay(h, s, o).view == PrefixView(h, s, o)
  {
    var t, cut := Tried(h, s, o), RecoveryCutover(o);
    FailedTail(h, s.header.Some?, Load(s.content, BatchRefs(t.ready)), t.ready, cut);
    NonWriterLeavesAll(true, PrefixView(h, s, o), t.ready[t.accepted], cut);
  }

  /** The first changes of a failing video revision leave the active items as they were. */
  ghost predicate LeavesWindow(h: Digest, s: State, o: Owner) {
    var t, prefix := Tried(h, s, o), PrefixView(h, s, o);
    t.failed ==> SameActive(prefix.videos, Change(true, prefix, t.ready[t.accepted], RecoveryCutover(o)).view.videos)
  }

  lemma CommitKeepsKeyed(h: Digest, s: State, o: Owner)
    requires o.previous != Some(o.stream) && KeyedByItem(s.content)
    ensures KeyedByItem(Run(s, o, PlanOf(h, s, o)).0.content)
  {
    ActivatedContent(h, s, o);
    var ready := Tried(h, s, o).ready;
    SimulateKeyed(h, s.header.Some?, Load(s.content, BatchRefs(ready)), ready, RecoveryCutover(o));
    PersistKeyed(s.content, WholeReplay(h, s, o).view);
  }

  lemma PersistKeyed(table: map<string, Content>, view: View)
    requires KeyedByItem(table) && KeyedByItem(view.videos)
    ensures KeyedByItem(Persist(table, view))
  {
  }

  lemma OnlyRunsWrite(h: Digest, s: State, s': State)
    requires Moves(h, s, s') && s' != Activate(h, s).0
    ensures s'.content == s.content && s'.log == s.log
  {
    if r, status :| Arrives(s, s', r, status) {
    } else if o :| Owns(s, s', o) {
    } else {
      var keys :| Reopens(s, s', keys);
    }
  }

  lemma MoveKeepsKeyed(h: Digest, s: State, s': State)
    requires Inv(s) && KeyedByItem(s.content) && Moves(h, s, s')
    ensures KeyedByItem(s'.content)
  {
    if s' == Activate(h, s).0 {
      if s.owner.Some? {
        CommitKeepsKeyed(h, s, s.owner.value);
      }
    } else {
      OnlyRunsWrite(h, s, s');
    }
  }

  /** Every stored record carries the payload of its own content id. */
  lemma {:induction false} HistoryKeepsKeyed(h: Digest, states: seq<State>)
    requires History(h, states)
    ensures KeyedByItem(states[|states| - 1].content)
  {
    if |states| > 1 {
      HistoryPrefix(h, states);
      HistoryKeepsInv(h, states[..|states| - 1]);
      HistoryKeepsKeyed(h, states[..|states| - 1]);
      MoveKeepsKeyed(h, states[|states| - 2], states[|states| - 1]);
    }
  }

  /** In every history, if the hash tells windows apart: after a run that activates video revisions the
      stored window hashes to what the header declares, if and only if the first changes of a failing
      video revision leave the active items as they were. */
  lemma HistoryWindowIff(h: Digest, states: seq<State>, o: Owner)
    requires History(h, states) && states[|states| - 1].owner == Some(o) && Injective(h)
    requires Commits(Activate(h, states[|states| - 1]).1) && Tried(h, states[|states| - 1], o).accepted > 0
    ensures
      var s := states[|states| - 1];
      WindowMatches(h, Activate(h, s).0) <==> LeavesWindow(h, s, o)
  {
    var s := states[|states| - 1];
    HistoryKeepsInv(h, states);
    HistoryKeepsKeyed(h, states);
    CommittedMatches(h, s, o);
    ReplayKeepsWindowIff(h, s, o);
  }

  lemma ReplayKeepsWindowIff(h: Digest, s: State, o: Owner)
    requires Injective(h) && KeyedByItem(s.content) && Tried(h, s, o).accepted > 0
    ensures ResultMatches(h, Declared(h, s, o), WholeReplay(h, s, o).view.videos) <==> LeavesWindow(h, s, o)
  {
    var ready := Tried(h, s, o).ready;
    WindowKeptIff(h, s.header.Some?, Load(s.content, BatchRefs(ready)), ready, RecoveryCutover(o));
  }

  /** On well-formed chains the stored window matches the header in every state. */
  lemma FedWindow(h: Digest, states: seq<State>, src: Batch, o: Owner)
    requires Fed.Feeding(h, states, src, o)
    ensures WindowMatches(h, states[|states| - 1])
  {
    Fed.FeedingKeepsConf(h, states, src, o);
    var s := states[|states| - 1];
    ReplayedWindow(h, s, src.video, Fed.Count(s, Video));
  }

  lemma ReplayedWindow(h: Digest, s: State, chain: seq<Revision>, n: nat)
    requires Fed.VideoAt(h, s, chain, n) && !Replayed(h, chain).failed
    ensures WindowMatches(h, s)
  {
    if n > 0 {
      assert chain == chain[..n] + chain[n..];
      Fed.PrefixPasses(h, false, View(map[], {}), chain[..n], chain[n..]);
      AcceptedWindow(h, false, View(map[], {}), chain[..n], false);
      assert s.content == Replayed(h, chain[..n]).view.videos;
    }
  }
}
