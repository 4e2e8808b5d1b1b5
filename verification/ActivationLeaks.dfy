/** Two reachable channels in which a failing video revision does harm: its half-made changes are stored,
    or they make the index refuse every run. */
module ActivationLeaks {
  import opened Prelude
  import opened Publication
  import opened Selection
  import opened VideoReplay
  import opened VideoTable
  import opened VideoExact
  import opened VideoRows
  import opened Activation
  import opened ActivationRows
  import opened ActivationSafety
  import opened ActivationCommit
  import opened ActivationExact
  import Wedge = ActivationWedge
  import Fed = ActivationConfluence

  const OWNER := Owner("s", None, Owning, Independent, false, None)


  /** The window and the delta arrive, then the channel is owned. */
  function Steps(position: int): seq<State> {
    var one := EMPTY.(rows := map[KeyOf(Window1()) := Row(Window1(), true, Staged)]);
    var two := one.(rows := one.rows[KeyOf(Delta2(position)) := Row(Delta2(position), true, Staged)]);
    [EMPTY, one, two, two.(owner := Some(OWNER))]
  }

  function Received(position: int): State {
    Steps(position)[3]
  }

  lemma StepsHistory(h: Digest, position: int)
    ensures History(h, Steps(position))
  {
    var states := Steps(position);
    assert Arrives(states[0], states[1], Window1(), Staged);
    assert Arrives(states[1], states[2], Delta2(position), Staged);
    assert Owns(states[2], states[3], OWNER);
    forall i | 0 <= i < |states| - 1
      ensures Moves(h, states[i], states[i + 1])
    {
      assert i == 0 || i == 1 || i == 2;
    }
  }

  lemma BothAreReady(position: int)
    ensures Pick(Received(position), "s", false, Video).ready == [Window1(), Delta2(position)]
  {
    var rows, chain := Received(position).rows, [Window1(), Delta2(position)];
    assert chain[1..] == [Delta2(position)] && chain[1..][1..] == [];
    assert Continues(None, chain);
    assert Fed.Received(rows, chain) == 2;
    forall k | k in rows
      ensures RowOk(rows, k)
    {
      assert k == KeyOf(Window1()) || k == KeyOf(Delta2(position));
    }
    Fed.ReadyIsFresher(rows, Video, chain, "s", 0, None);
    assert chain[0..2] == chain;
  }

  lemma TriedBoth(h: Digest, position: int)
    requires h.window("", [Item("a", 1, "")]) == Some("one")
    ensures
      var t := Tried(h, Received(position), OWNER);
      && t == Trial([Window1(), Delta2(position)], 1, true, BothAB(position))
      && !StopsCleanly(h, Received(position), OWNER)
  {
    BothAreReady(position);
    FailedDeltaLeaks(h, position);
    var ready := [Window1(), Delta2(position)];
    assert Load(map[], BatchRefs(ready)) == View(map[], {});
    assert ready[..1] == [Window1()];
  }

  lemma NoGate(s: State)
    requires s.owner == Some(OWNER) && s.cursors == map[]
    ensures Refusal(s, OWNER).None? && Gate(s, OWNER, false).None? && Wedge.Single(s, OWNER)
  {
  }

  lemma VideoGoesThrough(s: State, p: Plan)
    requires Refusal(s, OWNER).None? && p.gate.None? && p.stop.None?
    requires p.batch.video == [Window1()] && Writable(p.view.videos)
    ensures Run(s, OWNER, p).1 == Activated && Run(s, OWNER, p).0.cursors == CommittedCursors(s.cursors, p.batch)
  {
    assert |p.batch.All()| >= |p.batch.video|;
  }

  /** The run accepts the window, refuses the delta and passes the gates. */
  ghost predicate Tries(h: Digest, s: State, position: int) {
    && s.owner == Some(OWNER) && s.cursors == map[]
    && Tried(h, s, OWNER) == Trial([Window1(), Delta2(position)], 1, true, BothAB(position))
  }

  lemma PlanPasses(h: Digest, s: State, position: int)
    requires Tries(h, s, position)
    ensures
      var p := PlanOf(h, s, OWNER);
      p.gate.None? && p.stop.None? && p.batch.video == [Window1()] && p.view == BothAB(position)
  {
    NoGate(s);
    Wedge.FailurePassesIff(h, s, OWNER);
    assert [Window1(), Delta2(position)][..1] == [Window1()];
  }

  lemma BothFit()
    ensures Writable(BothAB(2).videos)
  {
  }

  lemma CursorMoves(s: State, o: Owner, p: Plan)
    requires p.batch.video == [Window1()] && Run(s, o, p).0.cursors == CommittedCursors(s.cursors, p.batch)
    ensures CursorFor(Run(s, o, p).0, false, Video) == Some(CursorOf(Window1()))
  {
    assert p.batch.Of(Video) == p.batch.video;
  }

  lemma WindowGoesThrough(h: Digest, s: State)
    requires Tries(h, s, 2)
    ensures
      var (t, outcome) := Run(s, OWNER, PlanOf(h, s, OWNER));
      outcome == Activated && CursorFor(t, false, Video) == Some(CursorOf(Window1()))
  {
    NoGate(s);
    BothFit();
    PlanPasses(h, s, 2);
    VideoGoesThrough(s, PlanOf(h, s, OWNER));
    CursorMoves(s, OWNER, PlanOf(h, s, OWNER));
  }

  lemma BothClash(h: Digest, s: State)
    requires Tries(h, s, 1)
    ensures Wedge.Clashes(h, s, OWNER)
  {
    NoGate(s);
    assert Shows(BothAB(1).videos, "a") && Shows(BothAB(1).videos, "b");
    assert !Writable(BothAB(1).videos);
  }

  lemma VideoBShows(h: Digest, s: State)
    requires Tries(h, s, 2) && Run(s, OWNER, PlanOf(h, s, OWNER)).1 == Activated
    ensures Shows(Run(s, OWNER, PlanOf(h, s, OWNER)).0.content, "b")
  {
    ActivatedContent(h, s, OWNER);
    assert WholeReplay(h, s, OWNER).view == Tried(h, s, OWNER).view == BothAB(2);
    assert WholeReplay(h, s, OWNER).accepted == 1;
    assert Writes(BothAB(2), "b") && BothAB(2).videos["b"].status == Showing;
  }

  /** A history of three steps whose next run commits the window, and with it the video that the refused
      delta had already written. */
  lemma LeakIsReachable(h: Digest, states: seq<State>)
    requires h.window("", [Item("a", 1, "")]) == Some("one") && states == Steps(2)
    ensures
      var (t, outcome) := Activate(h, states[3]);
      && History(h, states) && outcome == Activated
      && CursorFor(t, false, Video) == Some(CursorOf(Window1()))
      && Shows(t.content, "b") && t.content != ExactContent(h, states[3], OWNER)
  {
    StepsHistory(h, 2);
    TriedBoth(h, 2);
    var s := states[3];
    assert Tries(h, s, 2);
    WindowGoesThrough(h, s);
    VideoBShows(h, s);
    HistoryExactIff(h, states, OWNER);
  }

  /** If the delta puts its video at a position that is taken, the next run is refused, and so for ever. */
  lemma WedgeIsReachable(h: Digest, states: seq<State>)
    requires h.window("", [Item("a", 1, "")]) == Some("one") && states == Steps(1)
    ensures History(h, states) && Activate(h, states[3]) == (states[3], WriteRefused)
  {
    StepsHistory(h, 1);
    HistoryKeepsInv(h, states);
    TriedBoth(h, 1);
    BothClash(h, states[3]);
    Wedge.WriteRefusedIff(h, states[3]);
  }
}
