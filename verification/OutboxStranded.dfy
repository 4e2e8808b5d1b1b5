/** Which rows of the outbox can ever change again, and runs that leave one behind for good. */
module OutboxStranded {
  import opened Prelude
  import opened Outbox
  import opened OutboxSafety
  import opened OutboxLease

  /** The flight has its job in the queue, or can still get it there. */
  predicate Hopeful(c: Config, queue: map<Text, Text>, f: Flight) {
    || f.phase == Enqueued
    || (f.phase == Phase.Claimed && c.accepts(f.plan, f.job, f.payload, f.scheduledAt)
        && (f.job in queue ==> queue[f.job] == f.payload))
  }

  /** Some publisher that holds the row's lease can still mark it published. */
  ghost predicate Helped(c: Config, s: System, id: string) {
    exists f :: f in s.flights && f.plan == id && HoldsIn(s, f) && Hopeful(c, s.queue, f)
  }

  /** The row can still change: it waits and its plan is open; or it is being published and its plan is
      open, or not cancelled and a holder of the lease can still mark it. */
  ghost predicate Movable(c: Config, s: System, id: string) {
    && id in s.outbox && id in s.plans
    && match s.outbox[id].status
       case Pending => Open(s.plans[id].status)
       case Publishing => Open(s.plans[id].status) || (s.plans[id].status != Cancelled && Helped(c, s, id))
       case _ => false
  }

  // --- a row that is not movable stays as it is ---

  ghost predicate Stuck(c: Config, s: System, id: string) {
    id in s.outbox && id in s.plans && !Movable(c, s, id)
  }

  /** No step on another row, on the clock or on the queue makes a flight hopeful or a lease holder. */
  lemma StuckStays(c: Config, s: System, step: Step, id: string)
    requires Enabled(c, s, step) && Stuck(c, s, id)
    ensures
      var t := After(c, s, step);
      Stuck(c, t, id) && t.outbox[id] == s.outbox[id]
  {
    var t := After(c, s, step);
    StuckRowStays(c, s, step, id);
    if Helped(c, t, id) && s.outbox[id].status == Publishing && s.plans[id].status != Cancelled {
      var f :| f in t.flights && f.plan == id && HoldsIn(t, f) && Hopeful(c, t.queue, f);
      HopeIsOld(c, s, step, id, f);
    }
  }

  lemma StuckRowStays(c: Config, s: System, step: Step, id: string)
    requires Enabled(c, s, step) && Stuck(c, s, id)
    ensures
      var t := After(c, s, step);
      && id in t.outbox && id in t.plans && t.outbox[id] == s.outbox[id]
      && (!Final(s.outbox[id]) ==> !Open(t.plans[id].status))
      && (s.plans[id].status == Cancelled ==> t.plans[id].status == Cancelled)
  {
    if step.ConfirmOne? && step.flight.plan == id && HoldsIn(s, step.flight) && s.plans[id].status != Cancelled {
      assert Hopeful(c, s.queue, step.flight);
      assert Helped(c, s, id);
    }
  }

  /** A hopeful flight was one before the step. */
  lemma HopeIsOld(c: Config, s: System, step: Step, id: string, f: Flight)
    requires Enabled(c, s, step) && id in s.outbox && id in s.plans && !Open(s.plans[id].status)
    requires
      var t := After(c, s, step);
      && id in t.outbox && t.outbox[id] == s.outbox[id]
      && f in t.flights && f.plan == id && HoldsIn(t, f) && Hopeful(c, t.queue, f)
    ensures Helped(c, s, id)
  {
    if f in s.flights {
      assert Hopeful(c, s.queue, f);
    } else if step.Send? {
      assert f == step.flight.(phase := PhaseAfter(c, s.queue, step.flight, step.fault));
      assert Hopeful(c, s.queue, step.flight) && HoldsIn(s, step.flight);
    }
  }

  lemma {:induction false} StuckForever(c: Config, s: System, steps: seq<Step>, id: string)
    requires Stuck(c, s, id) && Reach(c, s, steps).Some?
    ensures
      var t := Reach(c, s, steps).value;
      Stuck(c, t, id) && t.outbox[id] == s.outbox[id]
    decreases steps
  {
    if steps != [] {
      StuckStays(c, s, steps[0], id);
      StuckForever(c, After(c, s, steps[0]), steps[1..], id);
    }
  }

  // --- a movable row can be moved ---

  /** Half past midnight of the day after t. */
  function NextOpening(t: nat): nat {
    (t / DAY + 1) * DAY + 1800000
  }

  lemma WindowOpens(t: nat)
    ensures NextOpening(t) >= t && InWindow(NextOpening(t))
  {
    var k := t / DAY + 1;
    assert NextOpening(t) == 60000 * (1440 * k + 30);
    assert NextOpening(t) / 60000 == 1440 * k + 30;
  }

  /** The steps can be taken, and the row differs after them. */
  predicate Moves(c: Config, s: System, steps: seq<Step>, id: string) {
    && id in s.outbox && Reach(c, s, steps).Some?
    && (id in Reach(c, s, steps).value.outbox ==> Reach(c, s, steps).value.outbox[id] != s.outbox[id])
  }

  /** After the steps the row has been claimed once more. */
  predicate Claims(c: Config, s: System, steps: seq<Step>, id: string) {
    && id in s.outbox && Reach(c, s, steps).Some? && id in Reach(c, s, steps).value.outbox
    && Reach(c, s, steps).value.outbox[id].attempts > s.outbox[id].attempts
  }

  /** The row becomes claimable by waiting. */
  lemma OpenIsClaimed(c: Config, s: System, id: string) returns (steps: seq<Step>)
    requires Inv(c, s) && id in s.outbox && !Final(s.outbox[id]) && Open(s.plans[id].status)
    ensures Moves(c, s, steps, id) && Claims(c, s, steps, id)
  {
    var row, plan := s.outbox[id], s.plans[id];
    assert RowOk(c, id, row, plan, s.queue, Returned(s, id));
    var due := if row.status == Pending then row.nextAttempt else row.lease.value.expires;
    var at := NextOpening(s.now + due + row.releasedAt);
    WindowOpens(s.now + due + row.releasedAt);
    var waited := s.(now := at);
    assert ClaimableIn(waited, id);
    steps := [Tick(at), ClaimSome({id}, "", at)];
    assert steps[1..] == [ClaimSome({id}, "", at)] && steps[1..][1..] == [];
    var t := Claim(waited, {id}, Lease("", at));
    assert t.outbox[id] == ClaimedRow(row, Lease("", at));
    assert Reach(c, waited, steps[1..]) == Some(t);
  }

  lemma OneMove(c: Config, s: System, step: Step, rest: seq<Step>, id: string)
    requires Enabled(c, s, step) && Moves(c, After(c, s, step), rest, id)
    requires id in s.outbox && After(c, s, step).outbox == s.outbox
    ensures Moves(c, s, [step] + rest, id)
  {
    assert ([step] + rest)[1..] == rest;
  }

  lemma FinishedIsMarked(c: Config, s: System, f: Flight)
    requires f in s.flights && f.phase == Enqueued && HoldsIn(s, f)
    requires f.plan in s.plans && Finished(s.plans[f.plan].status)
    ensures Moves(c, s, [ConfirmOne(f)], f.plan)
  {
    assert [ConfirmOne(f)][1..] == [];
  }

  /** Once its job is queued the holder marks the row, after the plan has finished if need be. */
  lemma EnqueuedIsMarked(c: Config, s: System, f: Flight) returns (steps: seq<Step>)
    requires f in s.flights && f.phase == Enqueued && HoldsIn(s, f)
    requires f.plan in s.plans && s.plans[f.plan].status != Cancelled && !Open(s.plans[f.plan].status)
    ensures Moves(c, s, steps, f.plan)
  {
    steps := [ConfirmOne(f)];
    if Finished(s.plans[f.plan].status) {
      FinishedIsMarked(c, s, f);
    } else {
      var finish := Apply(f.plan, Succeeded);
      FinishedIsMarked(c, After(c, s, finish), f);
      OneMove(c, s, finish, steps, f.plan);
      steps := [finish] + steps;
    }
  }

  lemma HelpedIsMarked(c: Config, s: System, id: string) returns (steps: seq<Step>)
    requires id in s.plans && s.plans[id].status != Cancelled && !Open(s.plans[id].status) && Helped(c, s, id)
    ensures Moves(c, s, steps, id)
  {
    var f :| f in s.flights && f.plan == id && HoldsIn(s, f) && Hopeful(c, s.queue, f);
    if f.phase == Enqueued {
      steps := EnqueuedIsMarked(c, s, f);
    } else {
      var sent := Send(f, NoFault);
      var rest := EnqueuedIsMarked(c, After(c, s, sent), f.(phase := Enqueued));
      OneMove(c, s, sent, rest, id);
      steps := [sent] + rest;
    }
  }

  /** A row can change on some continuation, whatever the publishers, the clock and the consumer still do,
      if and only if it is movable. */
  lemma CanMoveIff(c: Config, s: System, id: string)
    requires Inv(c, s) && id in s.outbox
    ensures (exists steps :: Moves(c, s, steps, id)) <==> Movable(c, s, id)
  {
    assert RowOk(c, id, s.outbox[id], s.plans[id], s.queue, Returned(s, id));
    if Movable(c, s, id) {
      if Open(s.plans[id].status) {
        var steps := OpenIsClaimed(c, s, id);
      } else {
        var steps := HelpedIsMarked(c, s, id);
      }
    } else if steps :| Moves(c, s, steps, id) {
      StuckForever(c, s, steps, id);
    }
  }

  /** In particular a waiting row of a reachable state can be claimed again if and only if its plan is
      planned or dispatching. */
  lemma WaitingCanBeClaimedIff(c: Config, states: seq<System>, steps: seq<Step>, id: string)
    requires Run(c, states, steps)
    requires id in states[|steps|].outbox && states[|steps|].outbox[id].status == RowStatus.Pending
    ensures
      var s := states[|steps|];
      && id in s.plans
      && ((exists more :: Claims(c, s, more, id)) <==> Open(s.plans[id].status))
  {
    var s := states[|steps|];
    RunKeepsInv(c, states, steps);
    assert RowOk(c, id, s.outbox[id], s.plans[id], s.queue, Returned(s, id));
    if Open(s.plans[id].status) {
      var more := OpenIsClaimed(c, s, id);
      assert Claims(c, s, more, id);
    } else if more :| Claims(c, s, more, id) {
      StuckForever(c, s, more, id);
    }
  }

  // Runs of one plan that strand its row: staged and claimed at half past midnight.

  const OPENS := 1800000

  function Start(): System {
    System(0, map[], map[], map[], {}, map[])
  }

  function Opening(): seq<Step> {
    [Create("p", Tasks(true, true, false), 0, 0), StageOne("p", OPENS), Tick(OPENS),
     ClaimSome({"p"}, "w", OPENS + 60000)]
  }

  function Trace(c: Config, s: System, steps: seq<Step>): seq<System>
    decreases steps
  {
    if steps == [] || !Enabled(c, s, steps[0]) then [s] else [s] + Trace(c, After(c, s, steps[0]), steps[1..])
  }

  lemma {:induction false} TraceLinks(c: Config, s: System, steps: seq<Step>)
    requires Reach(c, s, steps).Some?
    ensures
      var states := Trace(c, s, steps);
      && |states| == |steps| + 1 && states[0] == s && states[|steps|] == Reach(c, s, steps).value
      && forall i | 0 <= i < |steps| ::
           Enabled(c, states[i], steps[i]) && states[i + 1] == After(c, states[i], steps[i])
    decreases steps
  {
    if steps != [] {
      var next := After(c, s, steps[0]);
      TraceLinks(c, next, steps[1..]);
      var rest := Trace(c, next, steps[1..]);
      assert Trace(c, s, steps) == [s] + rest;
      forall i | 0 <= i < |steps|
        ensures
          var states := Trace(c, s, steps);
          Enabled(c, states[i], steps[i]) && states[i + 1] == After(c, states[i], steps[i])
      {
        if i > 0 {
          assert steps[i] == steps[1..][i - 1];
        }
      }
    }
  }

  function Plan0(): Plan {
    Plan(Tasks(true, true, false), 0, 0, Dispatching, Some(OPENS), Some(Lease("w", OPENS + 60000)), 1)
  }

  function Row0(c: Config): Row {
    ClaimedRow(Staged(c, "p", OPENS), Lease("w", OPENS + 60000))
  }

  function Flight0(c: Config): Flight {
    FlightOf("p", Row0(c), Plan0(), "w")
  }

  function Claimed0(c: Config): System {
    System(OPENS, map["p" := Plan0()], map["p" := Row0(c)], map[], {Flight0(c)}, map[])
  }

  lemma OpeningReaches(c: Config)
    ensures Reach(c, Start(), Opening()) == Some(Claimed0(c))
  {
    var s1 := After(c, Start(), Create("p", Tasks(true, true, false), 0, 0));
    var s2 := After(c, s1, StageOne("p", OPENS));
    var s3 := After(c, s2, Tick(OPENS));
    assert ClaimableIn(s3, "p");
    var s4 := After(c, s3, ClaimSome({"p"}, "w", OPENS + 60000));
    assert s4.plans == map["p" := Plan0()];
    assert s4.outbox == map["p" := Row0(c)];
    assert s4.flights == {Flight0(c)};
    var steps := Opening();
    assert steps[1..] == [StageOne("p", OPENS), Tick(OPENS), ClaimSome({"p"}, "w", OPENS + 60000)];
    assert steps[1..][1..] == [Tick(OPENS), ClaimSome({"p"}, "w", OPENS + 60000)];
    assert steps[1..][1..][1..] == [ClaimSome({"p"}, "w", OPENS + 60000)];
    assert Reach(c, s3, [ClaimSome({"p"}, "w", OPENS + 60000)]) == Some(s4);
    assert Reach(c, s2, steps[1..][1..]) == Some(s4);
    assert Reach(c, s1, steps[1..]) == Some(s4);
  }

  lemma OneStep(c: Config, s: System, step: Step, t: System, rest: seq<Step>)
    requires Enabled(c, s, step) && After(c, s, step) == t
    ensures Reach(c, s, [step] + rest) == Reach(c, t, rest)
  {
    assert ([step] + rest)[1..] == rest;
  }

  function With0(c: Config, plan: Plan, row: Row, queued: bool, phase: Option<Phase>,
                 returned: map<string, set<nat>>): System {
    System(OPENS, map["p" := plan], map["p" := row], if queued then map[Row0(c).job := Row0(c).payload] else map[],
      if phase.Some? then {Flight0(c).(phase := phase.value)} else {}, returned)
  }

  predicate Sends(c: Config) {
    c.accepts("p", Row0(c).job, Row0(c).payload, Some(OPENS)) && c.maxAttempts > 1
  }

  lemma SendStep(c: Config, fault: Fault)
    requires Sends(c) && fault != NotAdded
    ensures After(c, Claimed0(c), Send(Flight0(c), fault))
      == With0(c, Plan0(), Row0(c), true, Some(if fault == NoFault then Enqueued else Refused(false)), map[])
  {
  }

  /** The queue takes the job, the channel goes dormant, and neither mark goes through. */
  function CancelledTail(c: Config): seq<Step> {
    [Send(Flight0(c), NoFault)] + ([Apply("p", Cancelled)] + ([ConfirmOne(Flight0(c).(phase := Enqueued))] +
      ([ReportOne(Flight0(c).(phase := Refused(false)), 0)] + [])))
  }

  lemma CancelledTailReaches(c: Config)
    requires Sends(c)
    ensures Reach(c, Claimed0(c), CancelledTail(c))
      == Some(With0(c, Plan0().(status := Cancelled, lease := None), Row0(c), true, None, map[]))
  {
    var plan, f := Plan0().(status := Cancelled, lease := None), Flight0(c);
    var s1, s2 := With0(c, Plan0(), Row0(c), true, Some(Enqueued), map[]),
      With0(c, plan, Row0(c), true, Some(Enqueued), map[]);
    var s3, s4 := With0(c, plan, Row0(c), true, Some(Refused(false)), map[]),
      With0(c, plan, Row0(c), true, None, map[]);
    SendStep(c, NoFault);
    var report := ReportOne(f.(phase := Refused(false)), 0);
    OneStep(c, s3, report, s4, []);
    ThrownConfirm(c, s2, f.(phase := Enqueued));
    OneStep(c, s2, ConfirmOne(f.(phase := Enqueued)), s3, [report] + []);
    OneStep(c, s1, Apply("p", Cancelled), s2, [ConfirmOne(f.(phase := Enqueued))] + ([report] + []));
    OneStep(c, Claimed0(c), Send(f, NoFault), s1,
      [Apply("p", Cancelled)] + ([ConfirmOne(f.(phase := Enqueued))] + ([report] + [])));
  }

  lemma ThrownConfirm(c: Config, s: System, f: Flight)
    requires HoldsIn(s, f) && f.plan in s.plans && s.plans[f.plan].status == Cancelled && s.flights == {f}
      && f.attempt < c.maxAttempts
    ensures Confirm(c, s, f) == s.(flights := {f.(phase := Refused(false))})
  {
  }

  /** The queue takes the job but its reply is lost; the row is returned, and the job runs to success. */
  function RetriedTail(c: Config): seq<Step> {
    [Send(Flight0(c), ReplyLost)] + ([ReportOne(Flight0(c).(phase := Refused(false)), OPENS)] +
      ([Apply("p", Running)] + ([Apply("p", Succeeded)] + [])))
  }

  lemma RetriedTailReaches(c: Config)
    requires Sends(c)
    ensures Reach(c, Claimed0(c), RetriedTail(c))
      == Some(With0(c, Plan0().(status := Succeeded, lease := None), FailedRow(Row0(c), false, OPENS), true, None,
                    map["p" := {1}]))
  {
    var plan, row, f := Plan0().(lease := None), FailedRow(Row0(c), false, OPENS), Flight0(c);
    var s1 := With0(c, Plan0(), Row0(c), true, Some(Refused(false)), map[]);
    var s2 := With0(c, plan.(status := Planned), row, true, None, map["p" := {1}]);
    var s3 := With0(c, plan.(status := Running), row, true, None, map["p" := {1}]);
    var s4 := With0(c, plan.(status := Succeeded), row, true, None, map["p" := {1}]);
    SendStep(c, ReplyLost);
    OneStep(c, s3, Apply("p", Succeeded), s4, []);
    OneStep(c, s2, Apply("p", Running), s3, [Apply("p", Succeeded)] + []);
    ReturnedReport(c, s1, f.(phase := Refused(false)));
    OneStep(c, s1, ReportOne(f.(phase := Refused(false)), OPENS), s2,
            [Apply("p", Running)] + ([Apply("p", Succeeded)] + []));
    OneStep(c, Claimed0(c), Send(f, ReplyLost), s1,
      [ReportOne(f.(phase := Refused(false)), OPENS)] + ([Apply("p", Running)] + ([Apply("p", Succeeded)] + [])));
  }

  lemma ReturnedReport(c: Config, s: System, f: Flight)
    requires s == With0(c, Plan0(), Row0(c), true, Some(Refused(false)), map[])
      && f == Flight0(c).(phase := Refused(false))
    ensures Report(s, f, false, OPENS)
      == With0(c, Plan0().(status := Planned, lease := None), FailedRow(Row0(c), false, OPENS), true, None,
               map["p" := {1}])
  {
    var t := Report(s, f, false, OPENS);
    assert Returned(s, "p") + {f.attempt} == {1};
    assert t.flights == {};
  }

  lemma TraceRuns(c: Config, tail: seq<Step>)
    requires Reach(c, Claimed0(c), tail).Some?
    ensures
      var states := Trace(c, Start(), Opening() + tail);
      Run(c, states, Opening() + tail) && states[|Opening() + tail|] == Reach(c, Claimed0(c), tail).value
  {
    OpeningReaches(c);
    ReachConcat(c, Start(), Opening(), tail);
    TraceLinks(c, Start(), Opening() + tail);
  }

  /** Rows are stranded in fact: while being published, when the consumer cancels the plan, and while
      waiting for a retry, when the job was in the queue after all. Either way the job is queued. */
  lemma StrandedRunsExist(c: Config)
    requires Sends(c)
    ensures
      var steps := Opening() + CancelledTail(c);
      var states := Trace(c, Start(), steps);
      var s := states[|states| - 1];
      && Run(c, states, steps) && s.outbox.Keys == {"p"} == s.plans.Keys
      && s.outbox["p"].status == Publishing && Stuck(c, s, "p") && s.outbox["p"].job in s.queue
    ensures
      var steps := Opening() + RetriedTail(c);
      var states := Trace(c, Start(), steps);
      var s := states[|states| - 1];
      && Run(c, states, steps) && s.outbox.Keys == {"p"} == s.plans.Keys
      && s.outbox["p"].status == Pending && Stuck(c, s, "p") && s.outbox["p"].job in s.queue
  {
    CancelledTailReaches(c);
    TraceRuns(c, CancelledTail(c));
    RetriedTailReaches(c);
    TraceRuns(c, RetriedTail(c));
  }

  /** The queue takes the job, the publisher crashes before it marks the row, and the job starts. */
  function CrashedTail(c: Config): seq<Step> {
    [Send(Flight0(c), NoFault)] + ([Crash({Flight0(c).(phase := Enqueued)})] + ([Apply("p", Running)] + []))
  }

  lemma CrashedTailReaches(c: Config)
    requires Sends(c)
    ensures Reach(c, Claimed0(c), CrashedTail(c))
      == Some(With0(c, Plan0().(status := Running), Row0(c), true, None, map[]))
  {
    var crash := Crash({Flight0(c).(phase := Enqueued)});
    var s1, s2 := With0(c, Plan0(), Row0(c), true, Some(Enqueued), map[]),
      With0(c, Plan0(), Row0(c), true, None, map[]);
    SendStep(c, NoFault);
    assert s1.flights - crash.gone == {};
    OneStep(c, s2, Apply("p", Running), With0(c, Plan0().(status := Running), Row0(c), true, None, map[]), []);
    OneStep(c, s1, crash, s2, [Apply("p", Running)] + []);
    OneStep(c, Claimed0(c), Send(Flight0(c), NoFault), s1, [crash] + ([Apply("p", Running)] + []));
  }

  /** Coupling does not help against a crash: row and plan are still under one lease, yet the row stays
      publishing for good once its job has started, since only planned and dispatching plans are claimed. */
  lemma CrashStrands(c: Config)
    requires Sends(c)
    ensures
      var steps := Opening() + CrashedTail(c);
      var states := Trace(c, Start(), steps);
      var s := states[|states| - 1];
      && Run(c, states, steps) && s.outbox.Keys == {"p"} == s.plans.Keys
      && AllCoupled(s) && s.outbox["p"].status == Publishing && Stuck(c, s, "p") && s.outbox["p"].job in s.queue
  {
    CrashedTailReaches(c);
    TraceRuns(c, CrashedTail(c));
  }
}
