/** When the index on active positions refuses what a run writes, and why that run is refused forever. */
module ActivationWedge {
  import opened Prelude
  import opened Publication
  import opened Selection
  import opened VideoReplay
  import opened VideoTable
  import opened VideoRows
  import opened Activation
  import opened ActivationRows
  import opened ActivationSafety
  import opened ActivationCommit
  import opened ActivationExact

  /** The domains are activated each on its own: no cutover, no package and no core bootstrap. */
  predicate Single(s: State, o: Owner) {
    !RecoveryCutover(o) && !PackageBootstrap(s, o) && !CoreBootstrap(s, o, false)
  }

  /** A video revision fails after an accepted one, and the records it leaves behind clash. */
  ghost predicate Clashes(h: Digest, s: State, o: Owner) {
    var t := Tried(h, s, o);
    && Refusal(s, o).None? && Gate(s, o, false).None? && Single(s, o)
    && t.failed && t.accepted > 0 && !Writable(t.view.videos)
  }

  // --- exactly when a run is refused ---

  lemma RunRefusedIff(s: State, o: Owner, p: Plan)
    requires p.gate.Some? ==> p.gate.value != WriteRefused
    requires p.stop.Some? ==> p.stop.value != WriteRefused
    ensures
      Run(s, o, p).1 == WriteRefused
      <==> && Refusal(s, o).None? && p.gate.None? && p.stop.None?
           && p.batch.video != [] && !Writable(p.view.videos)
    ensures Run(s, o, p).1 == WriteRefused ==> Run(s, o, p).0 == s
  {
    assert p.batch.video != [] ==> |p.batch.All()| >= |p.batch.video| > 0;
  }

  lemma GatesNeverRefuse(h: Digest, s: State, o: Owner, cut: bool)
    ensures Gate(s, o, cut) != Some(WriteRefused) && TrialGate(h, s, o, cut) != Some(WriteRefused)
  {
  }

  /** After a video failure the second gate lets a run pass if and only if no gate joins the domains. */
  lemma FailurePassesIff(h: Digest, s: State, o: Owner)
    requires Tried(h, s, o).failed
    ensures TrialGate(h, s, o, RecoveryCutover(o)).None? <==> Single(s, o)
  {
    var cut := RecoveryCutover(o);
    assert Fails(h, s, o, cut, Video);
    assert cut ==> !CoreBootstrap(s, o, cut);
  }

  /** A batch without a failing revision never breaks the index. */
  lemma PassingIsWritable(h: Digest, s: State, o: Owner)
    requires Inv(s) && !Tried(h, s, o).failed && Tried(h, s, o).accepted > 0
    ensures Writable(Tried(h, s, o).view.videos)
  {
    RowsAreOk(s);
    var cut := RecoveryCutover(o);
    var ready := Pick(s, o.stream, cut, Video).ready;
    forall r | r in ready
      ensures ReasonsOk(r)
    {
      PickMembers(s, o.stream, cut, Video, r);
      assert RowOk(s.rows, KeyOf(r));
    }
    PassedIsWritable(h, s.header.Some?, Load(s.content, BatchRefs(ready)), ready, cut);
  }

  lemma PassedIsWritable(h: Digest, header: bool, view: View, revs: seq<Revision>, cutover: bool)
    requires AllSettled(view.videos) && (forall r | r in revs :: ReasonsOk(r))
    requires revs != [] && !Simulate(h, header, view, revs, cutover).failed
    ensures Writable(Simulate(h, header, view, revs, cutover).view.videos)
  {
    SimulateSettles(h, header, view, revs, cutover);
    AcceptedWindow(h, header, view, revs, cutover);
    MatchedIsWritable(h, revs[|revs| - 1], Simulate(h, header, view, revs, cutover).view.videos);
  }

  /** A run is rolled back by the index if and only if it clashes; it then changes nothing. */
  lemma WriteRefusedIff(h: Digest, s: State)
    requires Inv(s)
    ensures Activate(h, s).1 == WriteRefused <==> s.owner.Some? && Clashes(h, s, s.owner.value)
    ensures Activate(h, s).1 == WriteRefused ==> Activate(h, s).0 == s
  {
    if s.owner.Some? {
      OwnerRefusedIff(h, s, s.owner.value);
    }
  }

  lemma OwnerRefusedIff(h: Digest, s: State, o: Owner)
    requires Inv(s)
    ensures Run(s, o, PlanOf(h, s, o)).1 == WriteRefused <==> Clashes(h, s, o)
    ensures Run(s, o, PlanOf(h, s, o)).1 == WriteRefused ==> Run(s, o, PlanOf(h, s, o)).0 == s
  {
    var t, p := Tried(h, s, o), PlanOf(h, s, o);
    GatesNeverRefuse(h, s, o, RecoveryCutover(o));
    RunRefusedIff(s, o, p);
    assert p.batch.video == t.ready[..t.accepted] && p.view == t.view;
    if t.failed {
      FailurePassesIff(h, s, o);
    } else if t.accepted > 0 {
      PassingIsWritable(h, s, o);
    }
  }

  // --- what arrives later does not help ---

  /** The states differ in rows only, and what was pending is pending. */
  ghost predicate Gains(s: State, t: State) {
    && t == s.(rows := t.rows)
    && (forall k | k in s.rows ::
          && k in t.rows && t.rows[k].revision == s.rows[k].revision
          && (s.rows[k].valid && Pending(s.rows[k].status) ==> t.rows[k].valid && Pending(t.rows[k].status)))
  }

  lemma ReopeningGains(s: State, s': State, keys: set<Key>)
    requires Reopens(s, s', keys)
    ensures Gains(s, s')
  {
    forall k | k in s.rows
      ensures k in s'.rows && s'.rows[k].revision == s.rows[k].revision && s'.rows[k].valid == s.rows[k].valid
      ensures Pending(s.rows[k].status) ==> Pending(s'.rows[k].status)
    {
    }
  }

  /** Every step but a run and a change of the owner only adds to what is pending. */
  lemma MoveGains(h: Digest, s: State, s': State)
    requires Moves(h, s, s') && s' != Activate(h, s).0 && s'.owner == s.owner
    ensures Gains(s, s')
  {
    if r, status :| Arrives(s, s', r, status) {
    } else if keys :| Reopens(s, s', keys) {
      ReopeningGains(s, s', keys);
    } else {
      var o :| Owns(s, s', o);
    }
  }

  lemma ReadyGrows(s: State, t: State, stream: string, cut: bool, d: Domain)
    requires RowsOk(s.rows) && RowsOk(t.rows) && Gains(s, t)
    ensures Pick(s, stream, cut, d).ready <= Pick(t, stream, cut, d).ready
  {
    var ready := Pick(s, stream, cut, d).ready;
    forall r | r in ready
      ensures r in PendingRows(t.rows, stream, d)
    {
      PickMembers(s, stream, cut, d, r);
      PendingMember(t.rows, stream, d, r);
    }
    PendingSorted(t.rows, stream, d);
    PickChain(s, stream, cut, d);
    LongestRun(PendingRows(t.rows, stream, d), CursorFor(t, cut, d), ready);
  }

  lemma GateStaysOpen(s: State, t: State, o: Owner, cut: bool)
    requires RowsOk(s.rows) && RowsOk(t.rows) && Gains(s, t) && Gate(s, o, cut).None?
    ensures Gate(t, o, cut).None?
  {
    forall d: Domain | d in MissingDomains(t, o.stream, cut)
      ensures d in MissingDomains(s, o.stream, cut)
    {
      ReadyGrows(s, t, o.stream, cut, d);
    }
    FewerMissing(s, o, cut, MissingDomains(s, o.stream, cut), MissingDomains(t, o.stream, cut));
    assert GateOn(t, o, cut, MissingDomains(t, o.stream, cut)) == GateOn(s, o, cut, MissingDomains(t, o.stream, cut));
  }

  lemma FewerMissing(s: State, o: Owner, cut: bool, missing: set<Domain>, fewer: set<Domain>)
    requires fewer <= missing && GateOn(s, o, cut, missing).None?
    ensures GateOn(s, o, cut, fewer).None?
  {
  }

  /** A replay that has failed is not changed by what would come next. */
  lemma {:induction false} FailureStops(h: Digest, header: bool, view: View, a: seq<Revision>, b: seq<Revision>,
                                        cutover: bool)
    requires Simulate(h, header, view, a, cutover).failed
    ensures Simulate(h, header, view, a + b, cutover) == Simulate(h, header, view, a, cutover)
    decreases a
  {
    assert (a + b)[0] == a[0] && (a + b)[1..] == a[1..] + b;
    var edit := Apply(h, header, view, a[0], cutover);
    if !edit.failed {
      FailureStops(h, true, edit.view, a[1..], b, cutover);
    }
  }

  /** Loading part of the table does not decide whether the index accepts the outcome. */
  lemma PartIsWritableIff(h: Digest, header: bool, table: map<string, Content>, revs: seq<Revision>, cutover: bool)
    ensures
      var part := Simulate(h, header, Load(table, BatchRefs(revs)), revs, cutover);
      var whole := Simulate(h, header, LoadAll(table), revs, cutover);
      && part.failed == whole.failed && part.accepted == whole.accepted
      && (Writable(part.view.videos) <==> Writable(whole.view.videos))
  {
    var refs := BatchRefs(revs);
    var rest := Rest(table, refs);
    LoadSplits(table, refs);
    SimulateFrame(h, header, Load(table, refs), rest, revs, cutover, refs);
    IndexIgnores(Simulate(h, header, Load(table, refs), revs, cutover).view, rest, refs);
  }

  lemma IndexIgnores(view: View, rest: map<string, Content>, refs: set<string>)
    requires Apart(rest, view.videos, refs)
    ensures Writable(view.videos) <==> Writable(With(view, rest).videos)
  {
    var all := With(view, rest).videos;
    forall id
      ensures Shows(all, id) <==> Shows(view.videos, id)
      ensures Shows(all, id) ==> all[id] == view.videos[id]
    {
    }
  }

  /** A longer batch fails at the same place, and the index says the same about what it leaves. */
  lemma LongerFails(h: Digest, header: bool, table: map<string, Content>, a: seq<Revision>, b: seq<Revision>,
                    cutover: bool)
    requires a <= b && Simulate(h, header, Load(table, BatchRefs(a)), a, cutover).failed
    ensures
      var short := Simulate(h, header, Load(table, BatchRefs(a)), a, cutover);
      var long := Simulate(h, header, Load(table, BatchRefs(b)), b, cutover);
      && long.failed && long.accepted == short.accepted
      && (Writable(long.view.videos) <==> Writable(short.view.videos))
  {
    assert b == a + b[|a|..];
    PartIsWritableIff(h, header, table, a, cutover);
    PartIsWritableIff(h, header, table, b, cutover);
    FailureStops(h, header, LoadAll(table), a, b[|a|..], cutover);
  }

  lemma TrialStays(h: Digest, s: State, t: State, o: Owner)
    requires RowsOk(s.rows) && RowsOk(t.rows) && Gains(s, t) && Tried(h, s, o).failed
    ensures Tried(h, t, o).failed && Tried(h, t, o).accepted == Tried(h, s, o).accepted
    ensures Writable(Tried(h, t, o).view.videos) <==> Writable(Tried(h, s, o).view.videos)
  {
    var cut := RecoveryCutover(o);
    ReadyGrows(s, t, o.stream, cut, Video);
    LongerFails(h, s.header.Some?, s.content, Tried(h, s, o).ready, Tried(h, t, o).ready, cut);
  }

  lemma RefusalSame(s: State, t: State, o: Owner)
    requires t == s.(rows := t.rows)
    ensures Refusal(t, o) == Refusal(s, o) && Single(t, o) == Single(s, o)
  {
  }

  lemma ClashStays(h: Digest, s: State, t: State, o: Owner)
    requires RowsOk(s.rows) && RowsOk(t.rows) && Gains(s, t) && Clashes(h, s, o)
    ensures Clashes(h, t, o)
  {
    RefusalSame(s, t, o);
    GateStaysOpen(s, t, o, false);
    TrialStays(h, s, t, o);
  }

  lemma MoveKeepsClash(h: Digest, s: State, s': State, o: Owner)
    requires Inv(s) && Inv(s') && Clashes(h, s, o) && s.owner == Some(o)
    requires Moves(h, s, s') && s'.owner == s.owner
    ensures Clashes(h, s', o) && s' == s.(rows := s'.rows)
  {
    if s' == Activate(h, s).0 {
      WriteRefusedIff(h, s);
    } else {
      MoveGains(h, s, s');
      RowsAreOk(s);
      RowsAreOk(s');
      ClashStays(h, s, s', o);
    }
  }

  /** A run of steps, the owner being the same in all states. */
  ghost predicate OwnedRun(h: Digest, states: seq<State>, o: Owner) {
    states != [] && (
      var n := |states| - 1;
      && states[n].owner == Some(o)
      && (n > 0 ==> OwnedRun(h, states[..n], o) && Moves(h, states[n - 1], states[n])))
  }

  /** The invariant holds, the state still clashes and differs from the first one in rows only. */
  ghost predicate StillClashes(h: Digest, first: State, o: Owner, s: State) {
    Inv(s) && Clashes(h, s, o) && s == first.(rows := s.rows)
  }

  lemma StepStillClashes(h: Digest, first: State, o: Owner, s: State, s': State)
    requires Moves(h, s, s') && s.owner == Some(o) && s'.owner == Some(o)
    requires StillClashes(h, first, o, s)
    ensures StillClashes(h, first, o, s')
  {
    MoveKeepsInv(h, s, s');
    MoveKeepsClash(h, s, s', o);
  }

  lemma {:induction false} ClashesForever(h: Digest, states: seq<State>, o: Owner)
    requires OwnedRun(h, states, o) && Inv(states[0]) && Clashes(h, states[0], o)
    ensures StillClashes(h, states[0], o, states[|states| - 1])
  {
    var n := |states| - 1;
    if n > 0 {
      ClashesForever(h, states[..n], o);
      StepStillClashes(h, states[0], o, states[n - 1], states[n]);
    }
  }

  /** Once the index has refused a run, every later run is refused as long as the owner stays as it is,
      whatever arrives or is reopened: cursors, current results, content and log never change again. */
  lemma RefusedForever(h: Digest, states: seq<State>, o: Owner)
    requires OwnedRun(h, states, o) && Inv(states[0]) && Activate(h, states[0]).1 == WriteRefused
    ensures
      var s := states[|states| - 1];
      Activate(h, s).1 == WriteRefused && s == states[0].(rows := s.rows)
  {
    OwnedFirst(h, states, o);
    WriteRefusedIff(h, states[0]);
    ClashesForever(h, states, o);
    WriteRefusedIff(h, states[|states| - 1]);
  }

  lemma {:induction false} OwnedFirst(h: Digest, states: seq<State>, o: Owner)
    requires OwnedRun(h, states, o)
    ensures states[0].owner == Some(o)
  {
    if |states| > 1 {
      OwnedFirst(h, states[..|states| - 1], o);
    }
  }
}
