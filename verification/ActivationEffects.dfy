/** What one run of activateReady does to the channel, written out by outcome. */
module ActivationEffects {
  import opened Prelude
  import opened Publication
  import opened Selection
  import opened VideoReplay
  import opened VideoTable
  import opened VideoRows
  import opened Activation
  import opened ActivationRows
  import opened ActivationSafety
  import opened ActivationCommit
  import opened ActivationWedge

  // --- the owner ---

  /** A cutover is completed by the run that activates it, and by nothing else: the owner is then active on
      the same stream. Every other run leaves the owner as it was. */
  lemma OwnerAfterRun(h: Digest, s: State)
    ensures
      var (t, outcome) := Activate(h, s);
      if outcome == CutoverActivated then
        && s.owner.Some? && s.owner.value.status == CutoverPending
        && t.owner == Some(Owner(s.owner.value.stream, s.owner.value.previous, Owning, s.owner.value.mode,
                                 s.owner.value.evidenced, s.owner.value.vector))
      else t.owner == s.owner
  {
    if s.owner.Some? {
      RunOwner(h, s, s.owner.value);
    }
  }

  lemma RunOwner(h: Digest, s: State, o: Owner)
    requires s.owner == Some(o)
    ensures
      var (t, outcome) := Run(s, o, PlanOf(h, s, o));
      if outcome == CutoverActivated then o.status == CutoverPending && t.owner == Some(o.(status := Owning))
      else t.owner == s.owner
  {
    var cut := RecoveryCutover(o);
    GatesHalt(h, s, o, cut);
    PlanOwner(s, o, PlanOf(h, s, o));
  }

  lemma PlanOwner(s: State, o: Owner, p: Plan)
    requires s.owner == Some(o)
    requires p.gate.Some? ==> Halts(p.gate.value)
    requires p.stop.Some? ==> Halts(p.stop.value)
    ensures
      var (t, outcome) := Run(s, o, p);
      if outcome == CutoverActivated then o.status == CutoverPending && t.owner == Some(o.(status := Owning))
      else t.owner == s.owner
  {
  }

  /** Ownership is active and every cursor is on the owner's stream. */
  ghost predicate Settled(s: State, o: Owner) {
    && s.owner == Some(o) && o.status == Owning
    && forall d | d in s.cursors :: s.cursors[d].stream == o.stream
  }

  predicate Refused(outcome: Outcome) {
    outcome == AwaitingOwnership || outcome == CutoverCursorMismatch || outcome == CutoverRequired
  }

  lemma SettledIsNotRefused(h: Digest, s: State, o: Owner)
    requires Settled(s, o)
    ensures !Refused(Activate(h, s).1)
  {
    GatesHalt(h, s, o, RecoveryCutover(o));
    TrialsDoNotRefuse(h, s, o, RecoveryCutover(o));
    PlanIsNotRefused(s, o, PlanOf(h, s, o));
  }

  lemma TrialsDoNotRefuse(h: Digest, s: State, o: Owner, cut: bool)
    ensures var gate := Gate(s, o, cut); gate.Some? ==> !Refused(gate.value)
    ensures var stop := TrialGate(h, s, o, cut); stop.Some? ==> !Refused(stop.value)
  {
  }

  lemma PlanIsNotRefused(s: State, o: Owner, p: Plan)
    requires Settled(s, o)
    requires p.gate.Some? ==> !Refused(p.gate.value)
    requires p.stop.Some? ==> !Refused(p.stop.value)
    ensures !Refused(Run(s, o, p).1)
  {
  }

  /** The cursors after a run: they are as before, or the run has committed and all are on the owner's stream. */
  lemma RunCursors(h: Digest, s: State, o: Owner)
    requires Inv(s) && s.owner == Some(o)
    ensures
      var (t, outcome) := Run(s, o, PlanOf(h, s, o));
      if Commits(outcome) then forall d | d in t.cursors :: t.cursors[d].stream == o.stream else t.cursors == s.cursors
  {
    RowsAreOk(s);
    var p := PlanOf(h, s, o);
    PlanIsOk(h, s, o);
    if Commits(Run(s, o, p).1) {
      RunCommits(s, o, p);
      CommitStreams(s, o, p.batch);
      CommittedStream(s, o, RecoveryCutover(o), p.rows, p.batch);
    } else {
      RunMarks(s, o, p);
    }
  }

  lemma MoveKeepsSettled(h: Digest, s: State, s': State, o: Owner)
    requires Inv(s) && Settled(s, o) && Moves(h, s, s') && s'.owner == s.owner
    ensures Settled(s', o)
  {
    if s' == Activate(h, s).0 {
      RunCursors(h, s, o);
    } else {
      MoveGains(h, s, s');
    }
  }

  lemma {:induction false} RunKeepsSettled(h: Digest, states: seq<State>, o: Owner)
    requires OwnedRun(h, states, o) && Inv(states[0]) && Settled(states[0], o)
    ensures Inv(states[|states| - 1]) && Settled(states[|states| - 1], o)
  {
    var n := |states| - 1;
    if n > 0 {
      RunKeepsSettled(h, states[..n], o);
      MoveKeepsInv(h, states[n - 1], states[n]);
      MoveKeepsSettled(h, states[n - 1], states[n], o);
    }
  }

  lemma CutoverSettles(h: Digest, s: State)
    requires Inv(s) && Activate(h, s).1 == CutoverActivated
    ensures
      var t := Activate(h, s).0;
      Inv(t) && t.owner.Some? && Settled(t, t.owner.value)
  {
    OwnerAfterRun(h, s);
    RunCursors(h, s, s.owner.value);
    ActivationKeepsInv(h, s);
  }

  /** Once a cutover has been activated, then until the owner is changed again no run is turned away for its
      ownership or its cursors. */
  lemma CutoverIsDone(h: Digest, s: State, states: seq<State>, o: Owner)
    requires Inv(s) && Activate(h, s).1 == CutoverActivated
    requires OwnedRun(h, states, o) && states[0] == Activate(h, s).0
    ensures !Refused(Activate(h, states[|states| - 1]).1)
  {
    CutoverSettles(h, s);
    OwnedFirst(h, states, o);
    RunKeepsSettled(h, states, o);
    SettledIsNotRefused(h, states[|states| - 1], o);
  }

  // --- when a run is turned away, and when it commits ---

  /** The owner waits for a recovery cutover whose evidence is complete. */
  predicate Recovers(o: Owner) {
    o.status == CutoverPending && o.mode == Recovering && o.evidenced && o.vector.Some?
  }

  /** The owner may activate: it is active and no cursor is elsewhere, or it recovers, from a stream on which
      all cursors are and exactly the recorded ones. */
  predicate MayActivate(s: State, o: Owner) {
    if o.status == Owning then forall d | d in s.cursors :: s.cursors[d].stream == o.stream
    else
      && Recovers(o) && o.previous.Some? && o.vector == Some(s.cursors)
      && forall d | d in s.cursors :: Some(s.cursors[d].stream) == o.previous
  }

  /** Domains that have to start together have not. */
  predicate Torn(s: State, o: Owner) {
    match o.mode
    case Automatic => s.cursors.Keys != {} && !(Channel in s.cursors && Video in s.cursors && Agent in s.cursors)
    case Independent => false
    case _ => o.status == Owning && (Channel in s.cursors) != (Video in s.cursors)
  }

  /** The domains that this run has to start together. */
  function Joint(s: State, o: Owner): set<Domain> {
    if o.status != Owning || (o.mode == Automatic && s.cursors.Keys == {}) then {Channel, Video, Agent}
    else if (o.mode == Plain || o.mode == Recovering) && Channel !in s.cursors && Video !in s.cursors
    then {Channel, Video}
    else {}
  }

  lemma RefusalIff(s: State, o: Owner)
    ensures Refusal(s, o).None? <==> MayActivate(s, o)
    ensures Refusal(s, o) == Some(AwaitingOwnership) <==> o.status != Owning && !Recovers(o)
    ensures Refusal(s, o) == Some(CutoverCursorMismatch) <==> Recovers(o) && !MayActivate(s, o)
    ensures Refusal(s, o) == Some(CutoverRequired) <==> o.status == Owning && !MayActivate(s, o)
  {
  }

  /** Everything that the gates before and after the trials ask. */
  ghost predicate GatesMet(h: Digest, s: State, o: Owner) {
    && !Torn(s, o)
    && forall d | d in Joint(s, o) ::
         && Pick(s, o.stream, RecoveryCutover(o), d).ready != []
         && !TrialOf(h, s, o.stream, RecoveryCutover(o), d).failed
  }

  lemma GateIff(s: State, o: Owner)
    requires MayActivate(s, o)
    ensures Gate(s, o, RecoveryCutover(o)).None? <==>
      !Torn(s, o) && forall d | d in Joint(s, o) :: Pick(s, o.stream, RecoveryCutover(o), d).ready != []
  {
    var cut := RecoveryCutover(o);
    var missing := MissingDomains(s, o.stream, cut);
    assert forall d: Domain :: d in missing <==> Pick(s, o.stream, cut, d).ready == [];
    JointMissing(s, o, missing);
  }

  lemma JointMissing(s: State, o: Owner, missing: set<Domain>)
    requires MayActivate(s, o)
    ensures GateOn(s, o, RecoveryCutover(o), missing).None? <==> !Torn(s, o) && Joint(s, o) !! missing
  {
    assert s.cursors.Keys == {} <==> s.cursors == map[];
    assert missing != {} <==> Channel in missing || Video in missing || Agent in missing by {
      if d :| d in missing {
        match d case Channel => case Video => case Agent =>
      }
    }
  }

  lemma TrialGateIff(h: Digest, s: State, o: Owner)
    requires MayActivate(s, o) && Gate(s, o, RecoveryCutover(o)).None?
    ensures TrialGate(h, s, o, RecoveryCutover(o)).None? <==>
      forall d | d in Joint(s, o) :: !TrialOf(h, s, o.stream, RecoveryCutover(o), d).failed
  {
    forall d | d in Joint(s, o)
      ensures Fails(h, s, o, RecoveryCutover(o), d) <==> TrialOf(h, s, o.stream, RecoveryCutover(o), d).failed
    {
      JointIsTried(h, s, o, d);
    }
    JointFails(h, s, o);
  }

  lemma JointIsTried(h: Digest, s: State, o: Owner, d: Domain)
    requires MayActivate(s, o) && Gate(s, o, RecoveryCutover(o)).None? && d in Joint(s, o)
    ensures Fails(h, s, o, RecoveryCutover(o), d) <==> TrialOf(h, s, o.stream, RecoveryCutover(o), d).failed
  {
    GateIff(s, o);
    assert Pick(s, o.stream, RecoveryCutover(o), d).ready != [];
    assert s.cursors.Keys == {} <==> s.cursors == map[];
  }

  lemma JointFails(h: Digest, s: State, o: Owner)
    requires MayActivate(s, o)
    ensures TrialGate(h, s, o, RecoveryCutover(o)).None? <==>
      forall d | d in Joint(s, o) :: !Fails(h, s, o, RecoveryCutover(o), d)
  {
    assert s.cursors.Keys == {} <==> s.cursors == map[];
  }

  lemma GatesMetIff(h: Digest, s: State, o: Owner)
    requires MayActivate(s, o)
    ensures Gate(s, o, RecoveryCutover(o)).None? && TrialGate(h, s, o, RecoveryCutover(o)).None? <==> GatesMet(h, s, o)
  {
    GateIff(s, o);
    if Gate(s, o, RecoveryCutover(o)).None? {
      TrialGateIff(h, s, o);
    }
  }

  lemma RunCommitsIff(s: State, o: Owner, p: Plan)
    requires p.gate.Some? ==> Halts(p.gate.value)
    requires p.stop.Some? ==> Halts(p.stop.value)
    ensures Commits(Run(s, o, p).1) <==>
      && Refusal(s, o).None? && p.gate.None? && p.stop.None? && p.batch.All() != []
      && (p.batch.video != [] ==> Writable(p.view.videos))
    ensures Commits(Run(s, o, p).1) ==>
      Run(s, o, p).1 == if o.status == Owning then Activated else CutoverActivated
  {
  }

  ghost predicate SomeAccepted(h: Digest, s: State, o: Owner) {
    exists d: Domain :: TrialOf(h, s, o.stream, RecoveryCutover(o), d).accepted > 0
  }

  lemma AcceptedSome(h: Digest, s: State, o: Owner)
    ensures AcceptedBatch(h, s, o, RecoveryCutover(o)).All() != [] <==> SomeAccepted(h, s, o)
  {
    var cut := RecoveryCutover(o);
    var batch := AcceptedBatch(h, s, o, cut);
    assert |batch.All()| == |batch.channel| + |batch.video| + |batch.agent|;
    assert |batch.channel| == TrialOf(h, s, o.stream, cut, Channel).accepted;
    assert |batch.video| == TrialOf(h, s, o.stream, cut, Video).accepted;
    assert |batch.agent| == TrialOf(h, s, o.stream, cut, Agent).accepted;
    if d: Domain :| TrialOf(h, s, o.stream, cut, d).accepted > 0 {
      match d case Channel => case Video => case Agent =>
    }
  }

  /** A run commits if and only if the owner may activate, the domains that start together all have a ready
      run that replays to its end, something is accepted, and the index takes the records. It completes a
      cutover if and only if in addition one is pending. */
  lemma CommitsIff(h: Digest, s: State, o: Owner)
    requires s.owner == Some(o)
    ensures Commits(Activate(h, s).1) <==>
      && MayActivate(s, o) && GatesMet(h, s, o) && SomeAccepted(h, s, o)
      && (TrialOf(h, s, o.stream, RecoveryCutover(o), Video).accepted > 0 ==>
            Writable(TrialOf(h, s, o.stream, RecoveryCutover(o), Video).view.videos))
    ensures Activate(h, s).1 == CutoverActivated <==> Commits(Activate(h, s).1) && o.status == CutoverPending
  {
    var cut, p := RecoveryCutover(o), PlanOf(h, s, o);
    GatesHalt(h, s, o, cut);
    RunCommitsIff(s, o, p);
    RefusalIff(s, o);
    AcceptedSome(h, s, o);
    if MayActivate(s, o) {
      GatesMetIff(h, s, o);
    }
    assert p.batch.video != [] <==> TrialOf(h, s, o.stream, cut, Video).accepted > 0;
  }

  /** A pending recovery cutover is activated as soon as the evidence fits the cursors and every domain has a
      ready run that replays to its end; the index never stands in the way. */
  lemma CutoverActivatedIff(h: Digest, s: State, o: Owner)
    requires Inv(s) && s.owner == Some(o)
    ensures Activate(h, s).1 == CutoverActivated <==>
      && o.status == CutoverPending && MayActivate(s, o)
      && forall d: Domain ::
           && Pick(s, o.stream, RecoveryCutover(o), d).ready != []
           && !TrialOf(h, s, o.stream, RecoveryCutover(o), d).failed
  {
    CommitsIff(h, s, o);
    if o.status == CutoverPending && o.mode == Recovering {
      AllDomains(h, s, o);
      var t := TrialOf(h, s, o.stream, RecoveryCutover(o), Video);
      if t.ready != [] && !t.failed {
        PassingIsWritable(h, s, o);
      }
    }
  }

  lemma AllDomains(h: Digest, s: State, o: Owner)
    requires o.status == CutoverPending && o.mode == Recovering
    ensures GatesMet(h, s, o) <==>
      forall d: Domain ::
        && Pick(s, o.stream, RecoveryCutover(o), d).ready != []
        && !TrialOf(h, s, o.stream, RecoveryCutover(o), d).failed
    ensures GatesMet(h, s, o) ==> TrialOf(h, s, o.stream, RecoveryCutover(o), Video).accepted > 0
  {
    assert forall d: Domain :: d in Joint(s, o) by {
      forall d: Domain
        ensures d in Joint(s, o)
      {
        match d case Channel => case Video => case Agent =>
      }
    }
    assert TrialOf(h, s, o.stream, RecoveryCutover(o), Video).ready
      == Pick(s, o.stream, RecoveryCutover(o), Video).ready;
  }
}
