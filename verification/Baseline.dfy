/** serializeBaselineEvents: the events are sorted, checked in one pass and written in that order. */
module Baseline {
  import opened Prelude

  /** An event as exported; `line` is its JSON text. Ids are compared by their UTF-8 bytes, which is the
      order of code points. */
  datatype Event = Event(
    eventId: string,
    observationId: string,
    channel: string,
    kind: string,
    sequence: int,
    observedAt: Option<int>,
    failed: bool,
    line: string)

  /** The group an event belongs to: its channel and kind without surrounding blanks. */
  datatype Group = Group(channel: string, kind: string)

  function GroupOf(trim: string -> string, e: Event): Group {
    Group(trim(e.channel), trim(e.kind))
  }

  // --- the order ---

  predicate TextBefore(a: string, b: string)
    decreases a
  {
    b != [] && (a == [] || a[0] < b[0] || (a[0] == b[0] && TextBefore(a[1..], b[1..])))
  }

  lemma {:induction false} TextTotal(a: string, b: string)
    ensures TextBefore(a, b) || TextBefore(b, a) || a == b
    ensures !(TextBefore(a, b) && TextBefore(b, a)) && (a == b ==> !TextBefore(a, b))
    decreases a
  {
    if a != [] && b != [] && a[0] == b[0] {
      TextTotal(a[1..], b[1..]);
      assert a == [a[0]] + a[1..] && b == [b[0]] + b[1..];
    }
  }

  lemma {:induction false} TextTransitive(a: string, b: string, c: string)
    requires TextBefore(a, b) && TextBefore(b, c)
    ensures TextBefore(a, c)
    decreases a
  {
    if a != [] && a[0] == b[0] && b[0] == c[0] {
      TextTransitive(a[1..], b[1..], c[1..]);
    }
  }

  /** The first two keys of the sort: the ids as they were given, blanks included. */
  predicate IdsBefore(a: Event, b: Event) {
    TextBefore(a.channel, b.channel) || (a.channel == b.channel && TextBefore(a.kind, b.kind))
  }

  predicate SameIds(a: Event, b: Event) {
    a.channel == b.channel && a.kind == b.kind
  }

  /** The sort puts a strictly before b. */
  predicate Before(a: Event, b: Event) {
    IdsBefore(a, b) || (SameIds(a, b) && a.sequence < b.sequence)
  }

  lemma IdsTotal(a: Event, b: Event)
    ensures IdsBefore(a, b) || IdsBefore(b, a) || SameIds(a, b)
    ensures !(IdsBefore(a, b) && IdsBefore(b, a)) && (SameIds(a, b) ==> !IdsBefore(a, b))
  {
    TextTotal(a.channel, b.channel);
    TextTotal(a.kind, b.kind);
  }

  lemma BeforeTransitive(a: Event, b: Event, c: Event)
    requires !Before(b, a) && !Before(c, b)
    ensures !Before(c, a)
  {
    IdsTotal(a, b);
    IdsTotal(b, c);
    IdsTotal(a, c);
    if IdsBefore(a, b) && IdsBefore(b, c) {
      IdsChain(a, b, c);
    }
  }

  lemma IdsChain(a: Event, b: Event, c: Event)
    requires IdsBefore(a, b) && IdsBefore(b, c)
    ensures IdsBefore(a, c)
  {
    if TextBefore(a.channel, b.channel) && TextBefore(b.channel, c.channel) {
      TextTransitive(a.channel, b.channel, c.channel);
    } else if a.channel == b.channel && b.channel == c.channel {
      TextTransitive(a.kind, b.kind, c.kind);
    }
  }

  ghost predicate Ordered(xs: seq<Event>) {
    forall i, j | 0 <= i < j < |xs| :: !Before(xs[j], xs[i])
  }

  ghost predicate SortOf(xs: seq<Event>, events: seq<Event>) {
    Ordered(xs) && multiset(xs) == multiset(events)
  }

  method Insert(xs: seq<Event>, e: Event) returns (ys: seq<Event>)
    requires Ordered(xs)
    ensures SortOf(ys, xs + [e])
  {
    var at := |xs|;
    while at > 0 && Before(e, xs[at - 1])
      invariant 0 <= at <= |xs|
      invariant forall k | at <= k < |xs| :: Before(e, xs[k])
    {
      at := at - 1;
    }
    ys := xs[..at] + [e] + xs[at..];
    assert xs == xs[..at] + xs[at..];
    forall i, j | 0 <= i < j < |ys|
      ensures !Before(ys[j], ys[i])
    {
      InsertedPair(xs, e, at, i, j);
    }
  }

  lemma InsertedPair(xs: seq<Event>, e: Event, at: nat, i: nat, j: nat)
    requires Ordered(xs) && at <= |xs| && (forall k | at <= k < |xs| :: Before(e, xs[k]))
    requires at > 0 ==> !Before(e, xs[at - 1])
    requires i < j <= |xs|
    ensures
      var ys := xs[..at] + [e] + xs[at..];
      !Before(ys[j], ys[i])
  {
    if j == at && i < at - 1 {
      BeforeTransitive(xs[i], xs[at - 1], e);
    } else if i == at {
      IdsTotal(e, xs[j - 1]);
    }
  }

  /** [...events].sort(...) */
  method Sort(events: seq<Event>) returns (xs: seq<Event>)
    ensures SortOf(xs, events)
  {
    xs := [];
    for i := 0 to |events|
      invariant SortOf(xs, events[..i])
    {
      ghost var before := xs;
      xs := Insert(xs, events[i]);
      assert events[..i + 1] == events[..i] + [events[i]];
      assert multiset(before + [events[i]]) == multiset(events[..i]) + multiset{events[i]};
    }
    assert events[..|events|] == events;
  }

  // --- the pass over the sorted events ---

  predicate EventOk(trim: string -> string, latest: int, e: Event) {
    && trim(e.eventId) != "" && trim(e.observationId) != ""
    && trim(e.channel) != "" && trim(e.kind) != ""
    && e.observedAt.Some? && e.observedAt.value <= latest
  }

  /** How many events of the group there are. */
  function Earlier(trim: string -> string, xs: seq<Event>, g: Group): nat {
    if xs == [] then 0 else Earlier(trim, xs[..|xs| - 1], g) + if GroupOf(trim, xs[|xs| - 1]) == g then 1 else 0
  }

  ghost predicate Passes(trim: string -> string, latest: int, xs: seq<Event>, i: nat)
    requires i < |xs|
  {
    && EventOk(trim, latest, xs[i])
    && (forall j | 0 <= j < i :: xs[j].eventId != xs[i].eventId && xs[j].observationId != xs[i].observationId)
    && xs[i].sequence == Earlier(trim, xs[..i], GroupOf(trim, xs[i])) + 1
  }

  ghost predicate AllPass(trim: string -> string, latest: int, xs: seq<Event>) {
    forall i | 0 <= i < |xs| :: Passes(trim, latest, xs, i)
  }

  // --- what the pass means, without an order ---

  /** The ids are unique, each (channel, kind) has the sequences 1..n once each, and wherever the ids of
      one group differ in blanks, their order agrees with the sequences. */
  ghost predicate Sound(trim: string -> string, latest: int, events: multiset<Event>) {
    && (forall e | e in events :: EventOk(trim, latest, e) && events[e] == 1 && e.sequence >= 1)
    && (forall e | e in events :: e.sequence > 1 ==> HasPrevious(trim, events, e))
    && (forall e, f | e in events && f in events :: PairSound(trim, e, f))
  }

  predicate PairSound(trim: string -> string, e: Event, f: Event) {
    && (e.eventId == f.eventId || e.observationId == f.observationId ==> e == f)
    && (GroupOf(trim, e) == GroupOf(trim, f) ==>
          && (e.sequence == f.sequence ==> e == f)
          && (e.sequence < f.sequence ==> !IdsBefore(f, e)))
  }

  ghost predicate HasPrevious(trim: string -> string, events: multiset<Event>, e: Event) {
    exists f :: f in events && GroupOf(trim, f) == GroupOf(trim, e) && f.sequence == e.sequence - 1
  }

  /** Among the first n events one of the group has the sequence k. */
  ghost predicate Reaches(trim: string -> string, xs: seq<Event>, n: nat, g: Group, k: int)
    requires n <= |xs|
  {
    exists i :: 0 <= i < n && GroupOf(trim, xs[i]) == g && xs[i].sequence == k
  }

  /** Within a group the sequence grows along the sorted events, one by one. */
  lemma {:induction false} EarlierPasses(trim: string -> string, latest: int, xs: seq<Event>, n: nat, g: Group)
    requires n <= |xs| && forall i | 0 <= i < n :: Passes(trim, latest, xs, i)
    ensures forall i | 0 <= i < n && GroupOf(trim, xs[i]) == g :: 1 <= xs[i].sequence <= Earlier(trim, xs[..n], g)
    ensures forall k | 1 <= k <= Earlier(trim, xs[..n], g) :: Reaches(trim, xs, n, g, k)
    decreases n
  {
    if n > 0 {
      EarlierPasses(trim, latest, xs, n - 1, g);
      assert xs[..n][..n - 1] == xs[..n - 1];
      assert Passes(trim, latest, xs, n - 1);
      forall k | 1 <= k <= Earlier(trim, xs[..n], g)
        ensures Reaches(trim, xs, n, g, k)
      {
        if k <= Earlier(trim, xs[..n - 1], g) {
          assert Reaches(trim, xs, n - 1, g, k);
        } else {
          assert GroupOf(trim, xs[n - 1]) == g && xs[n - 1].sequence == k;
        }
      }
    }
  }

  lemma PassingPair(trim: string -> string, latest: int, xs: seq<Event>, i: nat, j: nat)
    requires AllPass(trim, latest, xs) && i < j < |xs| && GroupOf(trim, xs[i]) == GroupOf(trim, xs[j])
    ensures xs[i].sequence < xs[j].sequence
  {
    EarlierPasses(trim, latest, xs, j, GroupOf(trim, xs[j]));
    assert Passes(trim, latest, xs, j);
  }

  lemma Position(xs: seq<Event>, events: multiset<Event>, e: Event) returns (i: nat)
    requires multiset(xs) == events && e in events
    ensures i < |xs| && xs[i] == e
  {
    assert e in xs;
    i :| 0 <= i < |xs| && xs[i] == e;
  }

  lemma PassingOne(trim: string -> string, latest: int, xs: seq<Event>, i: nat)
    requires AllPass(trim, latest, xs) && i < |xs|
    ensures EventOk(trim, latest, xs[i]) && multiset(xs)[xs[i]] == 1 && xs[i].sequence >= 1
    ensures xs[i].sequence > 1 ==> HasPrevious(trim, multiset(xs), xs[i])
  {
    assert Passes(trim, latest, xs, i);
    forall j | 0 <= j < |xs| && j != i
      ensures xs[j] != xs[i]
    {
      assert Passes(trim, latest, xs, j);
    }
    OnceAt(xs, i);
    EarlierPasses(trim, latest, xs, i, GroupOf(trim, xs[i]));
    if xs[i].sequence > 1 {
      assert Reaches(trim, xs, i, GroupOf(trim, xs[i]), xs[i].sequence - 1);
      var j :| 0 <= j < i && GroupOf(trim, xs[j]) == GroupOf(trim, xs[i]) && xs[j].sequence == xs[i].sequence - 1;
      assert xs[j] in multiset(xs);
    }
  }

  lemma PassingIsSound(trim: string -> string, latest: int, xs: seq<Event>)
    requires Ordered(xs) && AllPass(trim, latest, xs)
    ensures Sound(trim, latest, multiset(xs))
  {
    var events := multiset(xs);
    forall e | e in events
      ensures EventOk(trim, latest, e) && events[e] == 1 && e.sequence >= 1
      ensures e.sequence > 1 ==> HasPrevious(trim, events, e)
    {
      var i := Position(xs, events, e);
      PassingOne(trim, latest, xs, i);
    }
    forall e, f | e in events && f in events
      ensures PairSound(trim, e, f)
    {
      var i := Position(xs, events, e);
      var j := Position(xs, events, f);
      PassingTwo(trim, latest, xs, i, j);
    }
  }

  lemma PassingTwo(trim: string -> string, latest: int, xs: seq<Event>, i: nat, j: nat)
    requires Ordered(xs) && AllPass(trim, latest, xs) && i < |xs| && j < |xs|
    ensures i != j ==> xs[i].eventId != xs[j].eventId && xs[i].observationId != xs[j].observationId
    ensures i != j && GroupOf(trim, xs[i]) == GroupOf(trim, xs[j]) ==> xs[i].sequence != xs[j].sequence
    ensures GroupOf(trim, xs[i]) == GroupOf(trim, xs[j]) && xs[i].sequence < xs[j].sequence ==> !IdsBefore(xs[j], xs[i])
  {
    assert Passes(trim, latest, xs, i) && Passes(trim, latest, xs, j);
    if GroupOf(trim, xs[i]) == GroupOf(trim, xs[j]) {
      if i < j {
        PassingPair(trim, latest, xs, i, j);
      } else if j < i {
        PassingPair(trim, latest, xs, j, i);
      }
    }
  }

  lemma OnceAt(xs: seq<Event>, i: nat)
    requires i < |xs| && forall j | 0 <= j < |xs| && j != i :: xs[j] != xs[i]
    ensures multiset(xs)[xs[i]] == 1
  {
    assert xs == xs[..i] + [xs[i]] + xs[i + 1..];
    assert xs[i] !in xs[..i] && xs[i] !in xs[i + 1..];
  }

  // --- and the other way round ---

  lemma DistinctPlaces(xs: seq<Event>, i: nat, j: nat)
    requires i < j < |xs| && multiset(xs)[xs[i]] == 1
    ensures xs[i] != xs[j]
  {
    assert xs == xs[..i] + [xs[i]] + xs[i + 1..];
    assert xs[j] in xs[i + 1..];
  }

  /** Along the sorted events the sequences of one group grow. */
  lemma SoundGrows(trim: string -> string, latest: int, xs: seq<Event>, i: nat, j: nat)
    requires Ordered(xs) && Sound(trim, latest, multiset(xs)) && i < j < |xs|
    ensures xs[i].eventId != xs[j].eventId && xs[i].observationId != xs[j].observationId
    ensures GroupOf(trim, xs[i]) == GroupOf(trim, xs[j]) ==> xs[i].sequence < xs[j].sequence
  {
    assert xs[i] in multiset(xs) && xs[j] in multiset(xs);
    DistinctPlaces(xs, i, j);
    assert PairSound(trim, xs[i], xs[j]) && PairSound(trim, xs[j], xs[i]);
    IdsTotal(xs[i], xs[j]);
  }

  /** The events of the group among the first n have the sequences up to their number. */
  ghost predicate EarlierOk(trim: string -> string, xs: seq<Event>, n: nat, g: Group)
    requires n <= |xs|
  {
    var m := Earlier(trim, xs[..n], g);
    && (forall i | 0 <= i < n && GroupOf(trim, xs[i]) == g :: xs[i].sequence <= m)
    && (m > 0 ==> Reaches(trim, xs, n, g, m))
  }

  lemma {:induction false} SoundEarlier(trim: string -> string, latest: int, xs: seq<Event>, n: nat, g: Group)
    requires Ordered(xs) && Sound(trim, latest, multiset(xs)) && n <= |xs|
    ensures EarlierOk(trim, xs, n, g)
    decreases n
  {
    if n > 0 {
      SoundEarlier(trim, latest, xs, n - 1, g);
      if GroupOf(trim, xs[n - 1]) == g {
        SoundNext(trim, latest, xs, n - 1, Earlier(trim, xs[..n - 1], g));
      }
      EarlierStep(trim, xs, n, g);
    }
  }

  lemma EarlierStep(trim: string -> string, xs: seq<Event>, n: nat, g: Group)
    requires 0 < n <= |xs| && EarlierOk(trim, xs, n - 1, g)
    requires GroupOf(trim, xs[n - 1]) == g ==> xs[n - 1].sequence == Earlier(trim, xs[..n - 1], g) + 1
    ensures EarlierOk(trim, xs, n, g)
  {
    assert xs[..n][..n - 1] == xs[..n - 1];
    var m := Earlier(trim, xs[..n - 1], g);
    if GroupOf(trim, xs[n - 1]) == g {
      assert Reaches(trim, xs, n, g, m + 1);
    } else if m > 0 {
      assert Reaches(trim, xs, n - 1, g, m);
      var i :| 0 <= i < n - 1 && GroupOf(trim, xs[i]) == g && xs[i].sequence == m;
      assert Reaches(trim, xs, n, g, m);
    }
  }

  /** The next event of a group carries the next sequence. */
  lemma SoundNext(trim: string -> string, latest: int, xs: seq<Event>, n: nat, m: nat)
    requires Ordered(xs) && Sound(trim, latest, multiset(xs)) && n < |xs|
    requires forall i | 0 <= i < n && GroupOf(trim, xs[i]) == GroupOf(trim, xs[n]) :: xs[i].sequence <= m
    requires m > 0 ==> Reaches(trim, xs, n, GroupOf(trim, xs[n]), m)
    ensures xs[n].sequence == m + 1
  {
    assert xs[n] in multiset(xs);
    if m > 0 {
      var i :| 0 <= i < n && GroupOf(trim, xs[i]) == GroupOf(trim, xs[n]) && xs[i].sequence == m;
      SoundGrows(trim, latest, xs, i, n);
    }
    if xs[n].sequence > m + 1 {
      assert HasPrevious(trim, multiset(xs), xs[n]);
      var f :| f in multiset(xs) && GroupOf(trim, f) == GroupOf(trim, xs[n]) && f.sequence == xs[n].sequence - 1;
      var j := Position(xs, multiset(xs), f);
      if j > n {
        SoundGrows(trim, latest, xs, n, j);
      }
    }
  }

  lemma SoundPasses(trim: string -> string, latest: int, xs: seq<Event>)
    requires Ordered(xs) && Sound(trim, latest, multiset(xs))
    ensures AllPass(trim, latest, xs)
  {
    forall i | 0 <= i < |xs|
      ensures Passes(trim, latest, xs, i)
    {
      assert xs[i] in multiset(xs);
      SoundEarlier(trim, latest, xs, i, GroupOf(trim, xs[i]));
      SoundNext(trim, latest, xs, i, Earlier(trim, xs[..i], GroupOf(trim, xs[i])));
      forall j | 0 <= j < i
        ensures xs[j].eventId != xs[i].eventId && xs[j].observationId != xs[i].observationId
      {
        SoundGrows(trim, latest, xs, j, i);
      }
    }
  }

  // --- one output ---

  lemma SoundOrderIsTotal(trim: string -> string, latest: int, events: multiset<Event>, e: Event, f: Event)
    requires Sound(trim, latest, events) && e in events && f in events && !Before(e, f) && !Before(f, e)
    ensures e == f
  {
    IdsTotal(e, f);
    assert PairSound(trim, e, f);
  }

  lemma Tail(xs: seq<Event>, all: multiset<Event>)
    requires xs != [] && Ordered(xs) && multiset(xs) <= all
    ensures Ordered(xs[1..]) && multiset(xs[1..]) <= all
    ensures multiset(xs) == multiset(xs[1..]) + multiset{xs[0]}
  {
    assert xs == [xs[0]] + xs[1..];
  }

  lemma Cancel(a: multiset<Event>, b: multiset<Event>, e: Event)
    requires a + multiset{e} == b + multiset{e}
    ensures a == b
  {
    assert a == (a + multiset{e}) - multiset{e};
    assert b == (b + multiset{e}) - multiset{e};
  }

  /** Sound events have one sorted order only. */
  lemma {:induction false} OneOrder(trim: string -> string, latest: int, xs: seq<Event>, ys: seq<Event>,
                                    all: multiset<Event>)
    requires Ordered(xs) && Ordered(ys) && multiset(xs) == multiset(ys)
    requires Sound(trim, latest, all) && multiset(xs) <= all
    ensures xs == ys
    decreases xs
  {
    if xs == [] {
      assert |multiset(ys)| == |ys|;
    } else {
      HeadsAgree(trim, latest, xs, ys, all);
      Tail(xs, all);
      Tail(ys, all);
      Cancel(multiset(xs[1..]), multiset(ys[1..]), xs[0]);
      OneOrder(trim, latest, xs[1..], ys[1..], all);
      assert xs == [xs[0]] + xs[1..] && ys == [ys[0]] + ys[1..];
    }
  }

  lemma HeadsAgree(trim: string -> string, latest: int, xs: seq<Event>, ys: seq<Event>, all: multiset<Event>)
    requires Ordered(xs) && Ordered(ys) && multiset(xs) == multiset(ys) && xs != []
    requires Sound(trim, latest, all) && multiset(xs) <= all
    ensures ys != [] && xs[0] == ys[0]
  {
    assert xs[0] in multiset(xs) && xs[0] in multiset(ys);
    var i := Position(ys, multiset(ys), xs[0]);
    assert ys[0] in multiset(ys) && ys[0] in multiset(xs);
    var j := Position(xs, multiset(xs), ys[0]);
    IdsTotal(xs[0], ys[0]);
    assert xs[0] in all && ys[0] in all;
    SoundOrderIsTotal(trim, latest, all, xs[0], ys[0]);
  }

  // --- what is accepted, written out ---

  /** The first difference decides; a text precedes its extensions. */
  ghost predicate LexLess(a: string, b: string) {
    exists i :: 0 <= i <= |a| && DiffersAt(a, b, i)
  }

  predicate DiffersAt(a: string, b: string, i: nat)
    requires i <= |a|
  {
    i < |b| && a[..i] == b[..i] && (i == |a| || a[i] < b[i])
  }

  lemma {:induction false} TextBeforeMeans(a: string, b: string)
    ensures TextBefore(a, b) <==> LexLess(a, b)
    decreases a
  {
    if a == [] || b == [] {
      assert b != [] ==> DiffersAt(a, b, 0);
    } else if a[0] < b[0] {
      assert DiffersAt(a, b, 0);
    } else if a[0] == b[0] {
      TextBeforeMeans(a[1..], b[1..]);
      TailsDiffer(a, b);
    } else {
      forall i | 0 <= i <= |a|
        ensures !DiffersAt(a, b, i)
      {
        if 0 < i < |b| {
          assert a[..i][0] == a[0] && b[..i][0] == b[0];
        }
      }
    }
  }

  lemma TailsDiffer(a: string, b: string)
    requires a != [] && b != [] && a[0] == b[0]
    ensures LexLess(a[1..], b[1..]) <==> LexLess(a, b)
  {
    if LexLess(a[1..], b[1..]) {
      var i :| 0 <= i <= |a[1..]| && DiffersAt(a[1..], b[1..], i);
      assert a[..i + 1] == [a[0]] + a[1..][..i] && b[..i + 1] == [b[0]] + b[1..][..i];
      assert DiffersAt(a, b, i + 1);
    }
    if LexLess(a, b) {
      var i :| 0 <= i <= |a| && DiffersAt(a, b, i);
      assert i > 0;
      assert a[1..][..i - 1] == a[..i][1..] && b[1..][..i - 1] == b[..i][1..];
      assert DiffersAt(a[1..], b[1..], i - 1);
    }
  }

  /** By channel and kind, as they were given. */
  ghost predicate IdsLess(a: Event, b: Event) {
    LexLess(a.channel, b.channel) || (a.channel == b.channel && LexLess(a.kind, b.kind))
  }

  /** By channel, kind and sequence. */
  ghost predicate After(a: Event, b: Event) {
    IdsLess(b, a) || (a.channel == b.channel && a.kind == b.kind && b.sequence < a.sequence)
  }

  lemma BeforeMeans(a: Event, b: Event)
    ensures Before(a, b) <==> After(b, a)
    ensures IdsBefore(a, b) <==> IdsLess(a, b)
  {
    TextBeforeMeans(a.channel, b.channel);
    TextBeforeMeans(a.kind, b.kind);
  }

  predicate SameLane(trim: string -> string, e: Event, f: Event) {
    trim(e.channel) == trim(f.channel) && trim(e.kind) == trim(f.kind)
  }

  /** No id is blank, every time is known and not after the export; no event is given twice, and no event or
      observation id; the sequences of each channel and kind are 1, 2, 3, ...; and the untrimmed ids never sort
      a later event of a channel and kind before an earlier one. */
  ghost predicate Acceptable(trim: string -> string, latest: int, events: multiset<Event>) {
    && (forall e | e in events ::
          && events[e] == 1 && e.sequence >= 1
          && trim(e.eventId) != "" && trim(e.observationId) != "" && trim(e.channel) != "" && trim(e.kind) != ""
          && e.observedAt.Some? && e.observedAt.value <= latest)
    && (forall e, f | e in events && f in events && e != f ::
          && e.eventId != f.eventId && e.observationId != f.observationId
          && (SameLane(trim, e, f) ==> e.sequence != f.sequence))
    && (forall e | e in events && e.sequence > 1 ::
          exists f :: f in events && SameLane(trim, f, e) && f.sequence == e.sequence - 1)
    && (forall e, f | e in events && f in events && SameLane(trim, e, f) && e.sequence < f.sequence ::
          !IdsLess(f, e))
  }

  lemma SoundMeans(trim: string -> string, latest: int, events: multiset<Event>)
    ensures Sound(trim, latest, events) <==> Acceptable(trim, latest, events)
  {
    if Sound(trim, latest, events) {
      SoundIsAcceptable(trim, latest, events);
    } else if Acceptable(trim, latest, events) {
      AcceptableIsSound(trim, latest, events);
    }
  }

  lemma PairMeans(trim: string -> string, e: Event, f: Event)
    requires PairSound(trim, e, f)
    ensures e != f ==> e.eventId != f.eventId && e.observationId != f.observationId
    ensures e != f && SameLane(trim, e, f) ==> e.sequence != f.sequence
    ensures SameLane(trim, e, f) && e.sequence < f.sequence ==> !IdsLess(f, e)
  {
    BeforeMeans(f, e);
  }

  lemma PairFits(trim: string -> string, e: Event, f: Event)
    requires e != f ==> e.eventId != f.eventId && e.observationId != f.observationId
    requires e != f && SameLane(trim, e, f) ==> e.sequence != f.sequence
    requires SameLane(trim, e, f) && e.sequence < f.sequence ==> !IdsLess(f, e)
    ensures PairSound(trim, e, f)
  {
    BeforeMeans(f, e);
  }

  lemma PreviousMeans(trim: string -> string, events: multiset<Event>, e: Event)
    ensures HasPrevious(trim, events, e) <==>
      exists f :: f in events && SameLane(trim, f, e) && f.sequence == e.sequence - 1
  {
    if f :| f in events && SameLane(trim, f, e) && f.sequence == e.sequence - 1 {
      assert GroupOf(trim, f) == GroupOf(trim, e);
    }
    if f :| f in events && GroupOf(trim, f) == GroupOf(trim, e) && f.sequence == e.sequence - 1 {
      assert SameLane(trim, f, e);
    }
  }

  lemma SoundPairs(trim: string -> string, latest: int, events: multiset<Event>)
    requires Sound(trim, latest, events)
    ensures forall e, f | e in events && f in events && e != f ::
      && e.eventId != f.eventId && e.observationId != f.observationId
      && (SameLane(trim, e, f) ==> e.sequence != f.sequence)
    ensures forall e, f | e in events && f in events && SameLane(trim, e, f) && e.sequence < f.sequence ::
      !IdsLess(f, e)
  {
    forall e, f | e in events && f in events
      ensures e != f ==> e.eventId != f.eventId && e.observationId != f.observationId
      ensures e != f && SameLane(trim, e, f) ==> e.sequence != f.sequence
      ensures SameLane(trim, e, f) && e.sequence < f.sequence ==> !IdsLess(f, e)
    {
      assert PairSound(trim, e, f);
      PairMeans(trim, e, f);
    }
  }

  lemma SoundIsAcceptable(trim: string -> string, latest: int, events: multiset<Event>)
    requires Sound(trim, latest, events)
    ensures Acceptable(trim, latest, events)
  {
    SoundPairs(trim, latest, events);
    forall e | e in events && e.sequence > 1
      ensures exists f :: f in events && SameLane(trim, f, e) && f.sequence == e.sequence - 1
    {
      PreviousMeans(trim, events, e);
    }
  }

  lemma AcceptableIsSound(trim: string -> string, latest: int, events: multiset<Event>)
    requires Acceptable(trim, latest, events)
    ensures Sound(trim, latest, events)
  {
    forall e, f | e in events && f in events
      ensures PairSound(trim, e, f)
    {
      PairFits(trim, e, f);
    }
    forall e | e in events && e.sequence > 1
      ensures HasPrevious(trim, events, e)
    {
      PreviousMeans(trim, events, e);
    }
  }

  // --- the serializer ---

  function Channels(trim: string -> string, xs: seq<Event>): set<string> {
    set e | e in xs :: trim(e.channel)
  }

  function ChannelsWithFacts(trim: string -> string, xs: seq<Event>): set<string> {
    set e | e in xs && !e.failed :: trim(e.channel)
  }

  function Lines(xs: seq<Event>): seq<string> {
    if xs == [] then [] else Lines(xs[..|xs| - 1]) + [xs[|xs| - 1].line]
  }

  datatype Bundle = Bundle(lines: seq<string>, channelCount: nat)

  /** The number of the sequence that was last seen in a group. */
  function LastSeen(sequences: map<Group, int>, g: Group): int {
    if g in sequences then sequences[g] else 0
  }

  function EventIds(xs: seq<Event>): set<string> {
    set e | e in xs :: e.eventId
  }

  function ObservationIds(xs: seq<Event>): set<string> {
    set e | e in xs :: e.observationId
  }

  ghost predicate SequencesSeen(trim: string -> string, xs: seq<Event>, sequences: map<Group, int>) {
    forall g: Group :: LastSeen(sequences, g) == Earlier(trim, xs, g)
  }

  lemma SequencesMore(trim: string -> string, xs: seq<Event>, e: Event, sequences: map<Group, int>)
    requires SequencesSeen(trim, xs, sequences) && e.sequence == LastSeen(sequences, GroupOf(trim, e)) + 1
    ensures SequencesSeen(trim, xs + [e], sequences[GroupOf(trim, e) := e.sequence])
  {
    assert (xs + [e])[..|xs|] == xs && (xs + [e])[|xs|] == e;
    forall g: Group
      ensures LastSeen(sequences[GroupOf(trim, e) := e.sequence], g) == Earlier(trim, xs + [e], g)
    {
      assert LastSeen(sequences, g) == Earlier(trim, xs, g);
    }
  }

  lemma IdsMore(xs: seq<Event>, e: Event)
    ensures EventIds(xs + [e]) == EventIds(xs) + {e.eventId}
    ensures ObservationIds(xs + [e]) == ObservationIds(xs) + {e.observationId}
  {
  }

  /** The checks of the loop, in its terms. */
  lemma PassesIff(trim: string -> string, latest: int, xs: seq<Event>, i: nat)
    requires i < |xs|
    ensures Passes(trim, latest, xs, i) <==>
      && EventOk(trim, latest, xs[i])
      && xs[i].eventId !in EventIds(xs[..i]) && xs[i].observationId !in ObservationIds(xs[..i])
      && xs[i].sequence == Earlier(trim, xs[..i], GroupOf(trim, xs[i])) + 1
  {
    EarlierIds(xs, i);
  }

  lemma EarlierIds(xs: seq<Event>, i: nat)
    requires i < |xs|
    ensures xs[i].eventId in EventIds(xs[..i]) <==> exists j :: 0 <= j < i && xs[j].eventId == xs[i].eventId
    ensures xs[i].observationId in ObservationIds(xs[..i])
      <==> exists j :: 0 <= j < i && xs[j].observationId == xs[i].observationId
  {
    forall j | 0 <= j < i
      ensures xs[j].eventId in EventIds(xs[..i]) && xs[j].observationId in ObservationIds(xs[..i])
    {
      assert xs[..i][j] == xs[j];
    }
  }

  /** The pass over the sorted events. */
  method Check(trim: string -> string, latest: int, xs: seq<Event>) returns (ok: bool)
    ensures ok <==> AllPass(trim, latest, xs)
  {
    var eventIds: set<string>, observationIds: set<string>, sequences: map<Group, int> := {}, {}, map[];
    for i := 0 to |xs|
      invariant eventIds == EventIds(xs[..i]) && observationIds == ObservationIds(xs[..i])
      invariant SequencesSeen(trim, xs[..i], sequences)
      invariant forall j | 0 <= j < i :: Passes(trim, latest, xs, j)
    {
      var e := xs[i];
      var g := GroupOf(trim, e);
      PassesIff(trim, latest, xs, i);
      if trim(e.eventId) == "" || e.eventId in eventIds {
        return false;
      }
      if trim(e.observationId) == "" || e.observationId in observationIds {
        return false;
      }
      if g.channel == "" || g.kind == "" || e.sequence != LastSeen(sequences, g) + 1 {
        return false;
      }
      if e.observedAt.None? || e.observedAt.value > latest {
        return false;
      }
      assert xs[..i + 1] == xs[..i] + [e];
      IdsMore(xs[..i], e);
      SequencesMore(trim, xs[..i], e, sequences);
      eventIds := eventIds + {e.eventId};
      observationIds := observationIds + {e.observationId};
      sequences := sequences[g := e.sequence];
    }
    return true;
  }

  /** Every channel has an observation that did not fail, and there are as many as expected. */
  ghost predicate ChannelsOk(trim: string -> string, events: seq<Event>, expected: int) {
    |Channels(trim, events)| == expected && ChannelsWithFacts(trim, events) == Channels(trim, events)
  }

  lemma SameChannels(trim: string -> string, xs: seq<Event>, events: seq<Event>)
    requires multiset(xs) == multiset(events)
    ensures Channels(trim, xs) == Channels(trim, events)
      && ChannelsWithFacts(trim, xs) == ChannelsWithFacts(trim, events)
  {
    assert forall e :: e in xs <==> e in multiset(xs);
    assert forall e :: e in events <==> e in multiset(events);
  }

  lemma SubsetSize(a: set<string>, b: set<string>)
    requires a <= b
    ensures |a| == |b| <==> a == b
  {
    if a != b {
      assert b == a + (b - a);
      assert b - a != {};
    }
  }

  /** The channels of the events are as many as expected, and each has an event that did not fail. */
  ghost predicate ChannelsExpected(trim: string -> string, events: seq<Event>, expected: int) {
    && |set e | e in events :: trim(e.channel)| == expected
    && forall e | e in events :: HasFacts(trim, events, trim(e.channel))
  }

  ghost predicate HasFacts(trim: string -> string, events: seq<Event>, channel: string) {
    exists f :: f in events && trim(f.channel) == channel && !f.failed
  }

  lemma ChannelsMean(trim: string -> string, events: seq<Event>, expected: int)
    ensures ChannelsOk(trim, events, expected) <==> ChannelsExpected(trim, events, expected)
  {
    assert Channels(trim, events) == set e | e in events :: trim(e.channel);
    FactsMean(trim, events);
  }

  lemma FactsMean(trim: string -> string, events: seq<Event>)
    ensures ChannelsWithFacts(trim, events) == Channels(trim, events)
      <==> forall e | e in events :: HasFacts(trim, events, trim(e.channel))
  {
    forall c
      ensures c in ChannelsWithFacts(trim, events) <==> HasFacts(trim, events, c)
    {
    }
    if forall e | e in events :: HasFacts(trim, events, trim(e.channel)) {
      forall c | c in Channels(trim, events)
        ensures HasFacts(trim, events, c)
      {
        var e :| e in events && trim(e.channel) == c;
      }
    }
    SameIffFacts(trim, events);
  }

  lemma SameIffFacts(trim: string -> string, events: seq<Event>)
    requires forall c :: c in ChannelsWithFacts(trim, events) <==> HasFacts(trim, events, c)
    ensures ChannelsWithFacts(trim, events) == Channels(trim, events)
      <==> forall c | c in Channels(trim, events) :: HasFacts(trim, events, c)
  {
    assert ChannelsWithFacts(trim, events) <= Channels(trim, events);
  }

  /** One line an event, in the order of channel, kind and sequence. */
  ghost predicate LinesOf(lines: seq<string>, events: seq<Event>) {
    exists xs: seq<Event> ::
      && multiset(xs) == multiset(events) && |lines| == |xs|
      && (forall i | 0 <= i < |xs| :: lines[i] == xs[i].line)
      && (forall i, j | 0 <= i < j < |xs| :: !After(xs[i], xs[j]))
  }

  lemma {:induction false} LinesAt(xs: seq<Event>)
    ensures |Lines(xs)| == |xs| && forall i | 0 <= i < |xs| :: Lines(xs)[i] == xs[i].line
  {
    if xs != [] {
      LinesAt(xs[..|xs| - 1]);
    }
  }

  lemma SortedLines(xs: seq<Event>, events: seq<Event>)
    requires SortOf(xs, events)
    ensures LinesOf(Lines(xs), events)
  {
    LinesAt(xs);
    forall i, j | 0 <= i < j < |xs|
      ensures !After(xs[i], xs[j])
    {
      BeforeMeans(xs[j], xs[i]);
    }
  }

  /** The events are accepted if and only if they are sound and the channels are as expected, whatever
      their order; the lines are then those of the one sorted order. */
  method SerializeBaselineEvents(trim: string -> string, events: seq<Event>, expected: int, latest: int)
    returns (r: Option<Bundle>)
    ensures r.Some? <==> Acceptable(trim, latest, multiset(events)) && ChannelsExpected(trim, events, expected)
    ensures r.Some? ==> r.value.channelCount == expected && LinesOf(r.value.lines, events)
    ensures r.Some? ==> forall xs | SortOf(xs, events) :: r.value.lines == Lines(xs)
  {
    SoundMeans(trim, latest, multiset(events));
    ChannelsMean(trim, events, expected);
    var sorted := Sort(events);
    if Sound(trim, latest, multiset(sorted)) {
      SoundPasses(trim, latest, sorted);
    }
    var ok := Check(trim, latest, sorted);
    if !ok {
      return None;
    }
    PassingIsSound(trim, latest, sorted);
    SameChannels(trim, sorted, events);
    var channels, withFacts := Channels(trim, sorted), ChannelsWithFacts(trim, sorted);
    SubsetSize(withFacts, channels);
    if |channels| != expected || |withFacts| != |channels| {
      return None;
    }
    forall xs | SortOf(xs, events)
      ensures xs == sorted
    {
      OneOrder(trim, latest, xs, sorted, multiset(events));
    }
    SortedLines(sorted, events);
    r := Some(Bundle(Lines(sorted), |channels|));
  }

  // --- blanks in ids ---

  /** Without the last condition: what the check says it enforces. */
  ghost predicate Contiguous(trim: string -> string, latest: int, events: multiset<Event>) {
    && (forall e | e in events :: EventOk(trim, latest, e) && events[e] == 1 && e.sequence >= 1)
    && (forall e | e in events :: e.sequence > 1 ==> HasPrevious(trim, events, e))
    && (forall e, f | e in events && f in events :: PairContiguous(trim, e, f))
  }

  predicate PairContiguous(trim: string -> string, e: Event, f: Event) {
    && (e.eventId == f.eventId || e.observationId == f.observationId ==> e == f)
    && (GroupOf(trim, e) == GroupOf(trim, f) && e.sequence == f.sequence ==> e == f)
  }

  /** The sort of the ids as given agrees with the sequences of the group. */
  ghost predicate OrderAgrees(trim: string -> string, events: multiset<Event>) {
    forall e, f | e in events && f in events && GroupOf(trim, e) == GroupOf(trim, f) && e.sequence < f.sequence ::
      !IdsBefore(f, e)
  }

  /** Contiguous events are accepted exactly if their order by the untrimmed ids agrees with the
      sequences; in particular always if no id has blanks around it. */
  lemma SoundIff(trim: string -> string, latest: int, events: multiset<Event>)
    ensures Sound(trim, latest, events) <==> Contiguous(trim, latest, events) && OrderAgrees(trim, events)
    ensures (forall e | e in events :: trim(e.channel) == e.channel && trim(e.kind) == e.kind)
      ==> OrderAgrees(trim, events)
  {
    if Sound(trim, latest, events) {
      forall e, f | e in events && f in events
        ensures PairContiguous(trim, e, f)
        ensures GroupOf(trim, e) == GroupOf(trim, f) && e.sequence < f.sequence ==> !IdsBefore(f, e)
      {
        assert PairSound(trim, e, f);
      }
    }
    if Contiguous(trim, latest, events) && OrderAgrees(trim, events) {
      forall e, f | e in events && f in events
        ensures PairSound(trim, e, f)
      {
        assert PairContiguous(trim, e, f);
      }
    }
    if forall e | e in events :: trim(e.channel) == e.channel && trim(e.kind) == e.kind {
      forall e, f | e in events && f in events && GroupOf(trim, e) == GroupOf(trim, f) && e.sequence < f.sequence
        ensures !IdsBefore(f, e)
      {
        IdsTotal(e, f);
      }
    }
  }

  /** Two observations of one channel, sequences 1 and 2, with a blank after the first channel id: they
      are contiguous, and still refused. */
  lemma BlankIsRefused(trim: string -> string)
    requires trim("c ") == "c" && trim("c") == "c" && trim("k") == "k" && trim("a") == "a" && trim("b") == "b"
    ensures
      var first, second := Event("a", "a", "c ", "k", 1, Some(0), false, ""),
        Event("b", "b", "c", "k", 2, Some(0), false, "");
      var events := multiset{first, second};
      Contiguous(trim, 0, events) && !Sound(trim, 0, events)
  {
    var first, second := Event("a", "a", "c ", "k", 1, Some(0), false, ""),
      Event("b", "b", "c", "k", 2, Some(0), false, "");
    var events := multiset{first, second};
    assert first in events && second in events;
    assert HasPrevious(trim, events, second);
    assert "c"[1..] == "" && "c "[1..] == " ";
    assert TextBefore("", " ") && TextBefore("c", "c ");
    assert !PairSound(trim, first, second);
  }
}
