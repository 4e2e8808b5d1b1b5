/** The onboarding gates over whole histories. */
module ActivationGates {
  import opened Prelude
  import opened Publication
  import opened Selection
  import opened VideoReplay
  import opened Activation
  import opened ActivationRows
  import opened ActivationSafety
  import opened ActivationCommit

  /** Coupled: independent onboarding is never used. Packaged: onboarding is automatic, and the owner
      otherwise changes only into a recovery cutover that is still pending. */
  datatype Regime = Coupled | Packaged

  predicate Allows(regime: Regime, o: Owner) {
    match regime
    case Coupled => o.mode != Independent
    case Packaged => o.mode == Automatic || (o.mode == Recovering && o.status == CutoverPending)
  }

  predicate NoneOrAll(s: State) {
    s.cursors == map[] || FullSet(s)
  }

  /** Coupled: a channel cursor iff a video cursor, an agent cursor only with both.
      Packaged: all three cursors or none; all three once a recovery has completed. */
  predicate Gated(regime: Regime, s: State) {
    match regime
    case Coupled =>
      && (s.owner.Some? ==> s.owner.value.mode != Independent)
      && (Channel in s.cursors <==> Video in s.cursors)
      && (Agent in s.cursors ==> Channel in s.cursors)
    case Packaged =>
      && NoneOrAll(s)
      && (s.owner.Some? ==>
            || Allows(Packaged, s.owner.value)
            || (s.owner.value.mode == Recovering && FullSet(s)))
  }

  ghost predicate MovesIn(regime: Regime, h: Digest, s: State, s': State) {
    && Moves(h, s, s')
    && (s' == Activate(h, s).0 || s'.owner == s.owner || (s'.owner.Some? && Allows(regime, s'.owner.value)))
  }

  ghost predicate HistoryIn(regime: Regime, h: Digest, states: seq<State>) {
    && states != [] && states[0] == EMPTY
    && (forall i | 0 <= i < |states| - 1 :: MovesIn(regime, h, states[i], states[i + 1]))
  }

  lemma CommitDomains(s: State, o: Owner, cut: bool, rows: map<Key, Row>, batch: Batch, view: View)
    ensures forall d: Domain ::
      d in Commit(s, o, cut, rows, batch, view).cursors <==> d in s.cursors || batch.Of(d) != []
  {
  }

  lemma CommitKeepsGate(regime: Regime, s: State, o: Owner, rows: map<Key, Row>, batch: Batch, view: View)
    requires Gated(regime, s) && s.owner == Some(o) && (o.status == Owning || RecoveryCutover(o))
    requires BatchMeetsGate(s, o, batch)
    ensures Gated(regime, Commit(s, o, RecoveryCutover(o), rows, batch, view))
  {
    CommitDomains(s, o, RecoveryCutover(o), rows, batch, view);
    assert batch.Of(Channel) == batch.channel && batch.Of(Video) == batch.video && batch.Of(Agent) == batch.agent;
  }

  lemma RunKeepsGate(regime: Regime, s: State, o: Owner, p: Plan)
    requires Gated(regime, s) && s.owner == Some(o)
    requires p.gate.None? && p.stop.None? ==> BatchMeetsGate(s, o, p.batch)
    ensures Gated(regime, Run(s, o, p).0)
  {
    var t := Run(s, o, p).0;
    if t != s.(rows := t.rows) {
      CommitKeepsGate(regime, s, o, p.rows, p.batch, p.view);
    }
  }

  lemma ActivationKeepsGate(regime: Regime, h: Digest, s: State)
    requires Gated(regime, s)
    ensures Gated(regime, Activate(h, s).0)
  {
    if s.owner.Some? {
      var o := s.owner.value;
      if Gate(s, o, RecoveryCutover(o)).None? && TrialGate(h, s, o, RecoveryCutover(o)).None? {
        AcceptedMeetsGate(h, s, o);
      }
      RunKeepsGate(regime, s, o, PlanOf(h, s, o));
    }
  }

  lemma {:induction false} HistoryKeepsGate(regime: Regime, h: Digest, states: seq<State>)
    requires HistoryIn(regime, h, states)
    ensures Gated(regime, states[|states| - 1])
  {
    var n := |states| - 1;
    if n > 0 {
      HistoryBefore(regime, h, states);
      HistoryKeepsGate(regime, h, states[..n]);
      MoveKeepsGate(regime, h, states[n - 1], states[n]);
    }
  }

  lemma MoveKeepsGate(regime: Regime, h: Digest, s: State, s': State)
    requires Gated(regime, s) && MovesIn(regime, h, s, s')
    ensures Gated(regime, s')
  {
    if s' == Activate(h, s).0 {
      ActivationKeepsGate(regime, h, s);
    } else {
      CursorsStay(s, s');
      OwnerKeepsGate(regime, s, s');
    }
  }

  lemma CursorsStay(s: State, s': State)
    requires (exists r, status :: Arrives(s, s', r, status)) || (exists o :: Owns(s, s', o))
      || (exists keys :: Reopens(s, s', keys))
    ensures s'.cursors == s.cursors
  {
    if r, status :| Arrives(s, s', r, status) {
      assert s' == s.(rows := s'.rows);
    } else if o :| Owns(s, s', o) {
      assert s' == s.(owner := s'.owner);
    }
  }

  lemma OwnerKeepsGate(regime: Regime, s: State, s': State)
    requires Gated(regime, s) && s'.cursors == s.cursors
    requires s'.owner == s.owner || (s'.owner.Some? && Allows(regime, s'.owner.value))
    ensures Gated(regime, s')
  {
  }

  lemma HistoryBefore(regime: Regime, h: Digest, states: seq<State>)
    requires HistoryIn(regime, h, states) && |states| > 1
    ensures HistoryIn(regime, h, states[..|states| - 1])
    ensures MovesIn(regime, h, states[|states| - 2], states[|states| - 1])
  {
    var before := states[..|states| - 1];
    forall i | 0 <= i < |before| - 1
      ensures MovesIn(regime, h, before[i], before[i + 1])
    {
      assert MovesIn(regime, h, states[i], states[i + 1]);
    }
    assert MovesIn(regime, h, states[|states| - 2], states[|states| - 2 + 1]);
  }

  lemma GatedIsConsistent(regime: Regime, s: State, o: Owner, cut: bool)
    requires Gated(regime, s) && s.owner == Some(o)
    ensures Gate(s, o, cut) != Some(InconsistentCore)
    ensures regime == Packaged ==> Gate(s, o, cut) != Some(InconsistentPackage)
  {
  }

  predicate Inconsistent(outcome: Outcome) {
    outcome == InconsistentCore || outcome == InconsistentPackage
  }

  lemma TrialsAreConsistent(h: Digest, s: State, o: Owner, cut: bool)
    ensures var stop := TrialGate(h, s, o, cut); stop.Some? ==> !Inconsistent(stop.value)
  {
  }

  /** Only the first gate reports inconsistent cursors. */
  lemma InconsistentOnlyAtGate(s: State, o: Owner, p: Plan)
    requires p.stop.Some? ==> !Inconsistent(p.stop.value)
    requires Inconsistent(Run(s, o, p).1)
    ensures p.gate == Some(Run(s, o, p).1)
  {
  }

  /** The two returns for inconsistent cursors are never taken while the regime lasts. */
  lemma InconsistentUnreachable(regime: Regime, h: Digest, states: seq<State>)
    requires HistoryIn(regime, h, states)
    ensures
      var outcome := Activate(h, states[|states| - 1]).1;
      && outcome != InconsistentCore
      && (regime == Packaged ==> outcome != InconsistentPackage)
  {
    HistoryKeepsGate(regime, h, states);
    var s := states[|states| - 1];
    if s.owner.Some? && Inconsistent(Activate(h, s).1) {
      var o := s.owner.value;
      TrialsAreConsistent(h, s, o, RecoveryCutover(o));
      InconsistentOnlyAtGate(s, o, PlanOf(h, s, o));
      GatedIsConsistent(regime, s, o, RecoveryCutover(o));
    }
  }
}
