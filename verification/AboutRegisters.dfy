/** The metric registers of a channel: the last resolved reading wins, each metric on its own. */
module AboutRegisters {
  import opened Prelude

  datatype Metric = Subscribers | Views | Videos

  datatype MetricStatus = Exact | Estimated | Unavailable | Unresolved

  predicate Resolved(status: MetricStatus) {
    status == Exact || status == Estimated
  }

  /** One metric of an observation: value, text, status, source. */
  datatype Reading = Reading(value: Option<nat>, text: Option<string>, status: MetricStatus, source: Option<string>)

  /** The stored reading of a metric and the time it was observed at. */
  datatype Register = Register(reading: Option<Reading>, observedAt: Option<nat>)

  const EMPTY := Register(None, None)

  /** A reading and the time of its observation. */
  datatype Timed = Timed(at: nat, reading: Reading)

  /** A null value, or an observation older than the stored one, leaves the register as it is. */
  function Update(register: Register, t: Timed): Register {
    if t.reading.value.Some? && (register.observedAt.None? || register.observedAt.value <= t.at)
    then Register(Some(t.reading), Some(t.at))
    else register
  }

  function Fold(register: Register, ts: seq<Timed>): Register
    decreases ts
  {
    if ts == [] then register else Fold(Update(register, ts[0]), ts[1..])
  }

  // --- what the register holds ---

  predicate Counts(t: Timed) {
    t.reading.value.Some?
  }

  /** The entry is resolved, none resolved is later, and none at the same time comes after it. */
  ghost predicate IsLatest(ts: seq<Timed>, i: nat) {
    && i < |ts| && Counts(ts[i])
    && (forall j | 0 <= j < |ts| && Counts(ts[j]) :: ts[j].at <= ts[i].at)
    && (forall j | i < j < |ts| && Counts(ts[j]) :: ts[j].at < ts[i].at)
  }

  ghost predicate Holds(register: Register, ts: seq<Timed>) {
    if register.observedAt.None? then register == EMPTY && forall j | 0 <= j < |ts| :: !Counts(ts[j])
    else exists i :: 0 <= i < |ts| && IsLatest(ts, i) && register == Register(Some(ts[i].reading), Some(ts[i].at))
  }

  lemma {:induction false} FoldLast(register: Register, ts: seq<Timed>, t: Timed)
    ensures Fold(register, ts + [t]) == Update(Fold(register, ts), t)
    decreases ts
  {
    if ts == [] {
      assert [] + [t] == [t] && [t][1..] == [];
    } else {
      assert (ts + [t])[1..] == ts[1..] + [t];
      FoldLast(Update(register, ts[0]), ts[1..], t);
    }
  }

  /** After any sequence of observations the register holds the latest resolved reading: the last
      one to arrive among those with the greatest time. */
  lemma {:induction false} FoldHolds(ts: seq<Timed>)
    ensures Holds(Fold(EMPTY, ts), ts)
  {
    if ts != [] {
      var n := |ts| - 1;
      assert ts == ts[..n] + [ts[n]];
      FoldHolds(ts[..n]);
      FoldLast(EMPTY, ts[..n], ts[n]);
      HoldsNext(Fold(EMPTY, ts[..n]), ts, n);
    }
  }

  lemma HoldsNext(before: Register, ts: seq<Timed>, n: nat)
    requires n == |ts| - 1 && Holds(before, ts[..n])
    ensures Holds(Update(before, ts[n]), ts)
  {
    if Update(before, ts[n]) != before || (Counts(ts[n]) && before.observedAt == Some(ts[n].at)) {
      assert IsLatest(ts, n) by {
        forall j | 0 <= j < |ts| && Counts(ts[j])
          ensures ts[j].at <= ts[n].at
        {
          if j < n {
            assert ts[..n][j] == ts[j];
          }
        }
      }
    } else if before.observedAt.Some? {
      var i :| 0 <= i < n && IsLatest(ts[..n], i) && before == Register(Some(ts[i].reading), Some(ts[i].at));
      forall j | 0 <= j < |ts| && Counts(ts[j])
        ensures ts[j].at <= ts[i].at && (i < j ==> ts[j].at < ts[i].at)
      {
        if j < n {
          assert ts[..n][j] == ts[j];
        }
      }
      assert IsLatest(ts, i);
    } else {
      forall j | 0 <= j < |ts|
        ensures !Counts(ts[j])
      {
        if j < n {
          assert ts[..n][j] == ts[j];
        }
      }
    }
  }

  // --- order independence ---

  /** Entries that tie for the latest time carry the same reading. */
  ghost predicate TiesAgree(ts: seq<Timed>) {
    forall i, j | 0 <= i < |ts| && 0 <= j < |ts| && Latest(ts, i) && Latest(ts, j) :: ts[i].reading == ts[j].reading
  }

  /** The entry is resolved and no resolved one is later. */
  ghost predicate Latest(ts: seq<Timed>, i: nat)
    requires i < |ts|
  {
    Counts(ts[i]) && forall j | 0 <= j < |ts| && Counts(ts[j]) :: ts[j].at <= ts[i].at
  }

  ghost predicate SameEntries(xs: seq<Timed>, ys: seq<Timed>) {
    forall t :: t in xs <==> t in ys
  }

  lemma LatestElsewhere(xs: seq<Timed>, ys: seq<Timed>, i: nat, j: nat)
    requires SameEntries(xs, ys) && i < |xs| && j < |ys| && Latest(xs, i) && ys[j] == xs[i]
    ensures Latest(ys, j)
  {
    forall k | 0 <= k < |ys| && Counts(ys[k])
      ensures ys[k].at <= ys[j].at
    {
      assert ys[k] in xs;
    }
  }

  /** If the ties agree, every delivery of the same observations, in any order and with any number of
      repetitions, leaves the same register. */
  lemma AgreeingTiesConverge(xs: seq<Timed>, ys: seq<Timed>)
    requires TiesAgree(xs) && SameEntries(xs, ys)
    ensures Fold(EMPTY, xs) == Fold(EMPTY, ys)
  {
    FoldHolds(xs);
    FoldHolds(ys);
    var a, b := Fold(EMPTY, xs), Fold(EMPTY, ys);
    if a.observedAt.Some? {
      var i :| 0 <= i < |xs| && IsLatest(xs, i) && a == Register(Some(xs[i].reading), Some(xs[i].at));
      assert xs[i] in ys;
      var m :| 0 <= m < |ys| && ys[m] == xs[i];
      var j :| 0 <= j < |ys| && IsLatest(ys, j) && b == Register(Some(ys[j].reading), Some(ys[j].at));
      assert ys[j] in xs;
      var k :| 0 <= k < |xs| && xs[k] == ys[j];
      LatestElsewhere(ys, xs, j, k);
      assert Latest(xs, i) && Latest(xs, k);
    } else {
      forall j | 0 <= j < |ys|
        ensures !Counts(ys[j])
      {
        assert ys[j] in xs;
      }
    }
  }

  ghost predicate DistinctTimes(ts: seq<Timed>) {
    forall i, j | 0 <= i < |ts| && 0 <= j < |ts| && Counts(ts[i]) && Counts(ts[j]) && ts[i].at == ts[j].at ::
      ts[i] == ts[j]
  }

  /** If the times of the resolved readings differ, every delivery of the observations, in any order and
      with any number of repetitions, leaves the latest resolved reading; none if there is none. */
  lemma DistinctTimesConverge(xs: seq<Timed>, ys: seq<Timed>)
    requires DistinctTimes(xs) && SameEntries(xs, ys)
    ensures forall i | 0 <= i < |xs| && Latest(xs, i) ::
      Fold(EMPTY, ys) == Register(Some(xs[i].reading), Some(xs[i].at))
    ensures Fold(EMPTY, ys) == EMPTY <==> forall i | 0 <= i < |xs| :: !Counts(xs[i])
  {
    AgreeingTiesConverge(xs, ys);
    FoldHolds(xs);
  }

  function MovedLast(ts: seq<Timed>, i: nat): seq<Timed>
    requires i < |ts|
  {
    ts[..i] + ts[i + 1..] + [ts[i]]
  }

  lemma MovedIsPermutation(ts: seq<Timed>, i: nat)
    requires i < |ts|
    ensures multiset(MovedLast(ts, i)) == multiset(ts)
    ensures SameEntries(MovedLast(ts, i), ts)
  {
    assert ts == ts[..i] + [ts[i]] + ts[i + 1..];
    assert multiset(MovedLast(ts, i)) == multiset(ts);
    forall t
      ensures t in MovedLast(ts, i) <==> t in ts
    {
      assert t in MovedLast(ts, i) <==> t in multiset(MovedLast(ts, i));
      assert t in ts <==> t in multiset(ts);
    }
  }

  /** A latest entry that arrives last is what the register ends with. */
  lemma LastOfLatestWins(ts: seq<Timed>, i: nat)
    requires i < |ts| && Latest(ts, i)
    ensures Fold(EMPTY, MovedLast(ts, i)) == Register(Some(ts[i].reading), Some(ts[i].at))
  {
    var ys := MovedLast(ts, i);
    MovedIsPermutation(ts, i);
    LatestElsewhere(ts, ys, i, |ys| - 1);
    FoldHolds(ys);
    var j :| 0 <= j < |ys| && IsLatest(ys, j) && Fold(EMPTY, ys) == Register(Some(ys[j].reading), Some(ys[j].at));
    assert j == |ys| - 1;
  }

  /** The register depends on the order of delivery if and only if ties disagree. */
  lemma OrderIrrelevantIff(ts: seq<Timed>)
    ensures TiesAgree(ts) <==> forall ys | multiset(ys) == multiset(ts) :: Fold(EMPTY, ys) == Fold(EMPTY, ts)
  {
    if TiesAgree(ts) {
      forall ys | multiset(ys) == multiset(ts)
        ensures Fold(EMPTY, ys) == Fold(EMPTY, ts)
      {
        forall t
          ensures t in ys <==> t in ts
        {
          assert t in ys <==> t in multiset(ys);
          assert t in ts <==> t in multiset(ts);
        }
        AgreeingTiesConverge(ts, ys);
      }
    } else {
      var i, j :| 0 <= i < |ts| && 0 <= j < |ts| && Latest(ts, i) && Latest(ts, j) && ts[i].reading != ts[j].reading;
      LastOfLatestWins(ts, i);
      LastOfLatestWins(ts, j);
      MovedIsPermutation(ts, i);
      MovedIsPermutation(ts, j);
      assert Fold(EMPTY, MovedLast(ts, i)) != Fold(EMPTY, MovedLast(ts, j));
    }
  }
}
