/** What an envelope says to whoever reads it by the names of its fields, what the validator lets through,
    and which job ids can coincide. */
module EnvelopeMeaning {
  import opened Prelude
  import opened CanonicalJson
  import opened CanonicalValue
  import opened JsonText
  import opened Envelope
  import Outbox

  // --- reading by name ---

  /** The value of a property. */
  ghost function At(v: Json, name: string): Json {
    if v.Obj? && Has(v.fields, T(name)) then Lookup(v.fields, T(name)).value else NonJson
  }

  ghost function TextAt(v: Json, name: string): Text {
    if At(v, name).Str? then At(v, name).text else []
  }

  ghost function NumberAt(r: Runtime, v: Json, name: string): real {
    if At(v, name).Number? && r.number(At(v, name).token).Some? then r.number(At(v, name).token).value else -1.0
  }

  ghost function CountAt(r: Runtime, v: Json, name: string): nat {
    if NumberAt(r, v, name) >= 0.0 then NumberAt(r, v, name).Floor else 0
  }

  ghost function FlagAt(v: Json, name: string): bool {
    At(v, name).Boolean? && At(v, name).value
  }

  /** The plan that an envelope describes. */
  ghost function PlanOf(r: Runtime, v: Json): Plan {
    var mask, capacity := At(v, "task_mask"), At(v, "capacity");
    Plan(
      TextAt(v, "plan_id"), TextAt(v, "plan_mode"),
      if r.dayOf(TextAt(v, "plan_day")).Some? then r.dayOf(TextAt(v, "plan_day")).value else 0,
      TextAt(v, "channel_id"),
      Outbox.Tasks(FlagAt(mask, "about"), FlagAt(mask, "video"), FlagAt(mask, "agent")),
      NumberAt(r, capacity, "factor"), CountAt(r, capacity, "player_cap"), CountAt(r, capacity, "next_cap"),
      TextAt(capacity, "version"), CountAt(r, v, "clock_version"), TextAt(v, "policy_version"),
      TextAt(v, "planner_config_version"))
  }

  ghost function TimeOf(r: Runtime, v: Json): Option<nat> {
    r.parse(TextAt(v, "scheduled_at"))
  }

  ghost predicate PartsNamed(v: Json, f: seq<Json>) {
    && |f| == 13
    && f[0] == At(v, "schema_version") && f[1] == At(v, "dispatch_generation") && f[2] == At(v, "job_id")
    && f[3] == At(v, "plan_id") && f[4] == At(v, "plan_mode") && f[5] == At(v, "plan_day")
    && f[6] == At(v, "scheduled_at") && f[7] == At(v, "channel_id") && f[8] == At(v, "task_mask")
    && f[9] == At(v, "capacity") && f[10] == At(v, "clock_version") && f[11] == At(v, "policy_version")
    && f[12] == At(v, "planner_config_version")
  }

  lemma PartsByName(v: Json)
    ensures PartsNamed(v, Parts(v, BASE_KEYS))
  {
  }

  lemma MaskReads(v: Json, p: Plan)
    requires Same(v, Obj(FromList(Zip(MASK_KEYS, Mask(p)))))
    ensures At(v, "about") == Boolean(p.tasks.about) && At(v, "video") == Boolean(p.tasks.video)
    ensures At(v, "agent") == Boolean(p.tasks.agent)
  {
    KeysDistinct();
    StoredObject(v, MASK_KEYS, Mask(p));
    SameScalar(Get(v, MASK_KEYS[0]), Mask(p)[0]);
    SameScalar(Get(v, MASK_KEYS[1]), Mask(p)[1]);
    SameScalar(Get(v, MASK_KEYS[2]), Mask(p)[2]);
  }

  lemma CapacityReads(r: Runtime, v: Json, p: Plan)
    requires Sane(r) && WellFormed(r, p) && Same(v, Obj(FromList(Zip(CAPACITY_KEYS, Capacity(r, p)))))
    ensures NumberAt(r, v, "factor") == p.factor && CountAt(r, v, "player_cap") == p.playerCap
    ensures CountAt(r, v, "next_cap") == p.nextCap && TextAt(v, "version") == p.capacityVersion
  {
    KeysDistinct();
    IntegersPrint(r, p.playerCap);
    IntegersPrint(r, p.nextCap);
    StoredObject(v, CAPACITY_KEYS, Capacity(r, p));
    SameScalar(Get(v, CAPACITY_KEYS[0]), Capacity(r, p)[0]);
    SameScalar(Get(v, CAPACITY_KEYS[1]), Capacity(r, p)[1]);
    SameScalar(Get(v, CAPACITY_KEYS[2]), Capacity(r, p)[2]);
    SameScalar(Get(v, CAPACITY_KEYS[3]), Capacity(r, p)[3]);
    WholeFloor(p.playerCap);
    WholeFloor(p.nextCap);
  }

  lemma WholeFloor(n: nat)
    ensures (n as real).Floor == n
  {
  }

  /** Round trip: whoever reads the envelope by the names of its fields, in whatever order they are stored, gets
      the plan, the time, the job id and the two version numbers that it was built from. */
  lemma EnvelopeReads(r: Runtime, p: Plan, at: nat, stored: Json)
    requires Sane(r) && WellFormed(r, p) && at / Outbox.DAY == p.day && at <= LAST_TIME
    requires Same(stored, Payload(r, p, at))
    ensures PlanOf(r, stored) == p && TimeOf(r, stored) == Some(at)
    ensures TextAt(stored, "job_id") == JobId(r, p)
    ensures NumberAt(r, stored, "schema_version") == 5.0 && NumberAt(r, stored, "dispatch_generation") == 1.0
  {
    StoredParts(r, p, at, stored);
    PartsByName(stored);
    MaskReads(At(stored, "task_mask"), p);
    CapacityReads(r, At(stored, "capacity"), p);
    IntegersPrint(r, 5);
    IntegersPrint(r, 1);
    IntegersPrint(r, p.clockVersion);
    WholeFloor(p.clockVersion);
    assert r.dayOf(r.date(p.day)) == Some(p.day) && r.parse(r.iso(at)) == Some(at);
  }

  /** The row that carries it: the event id is the version 5 UUID of the plan id, the hash that of the canonical
      text. */
  lemma RowReads(r: Runtime, p: Plan, at: nat)
    requires Sane(r) && WellFormed(r, p) && Build(r, p, at).Some?
    ensures
      var row := Build(r, p, at).value;
      && row.eventId == UuidV5(r, p.id) && row.planId == p.id && row.job == JobId(r, p)
      && row.queue == T("youtube-channel-incremental") && row.payload == Payload(r, p, at)
      && row.planScheduledAt == Some(at) && CanonicalText(row.payload).Some?
      && row.hash == T("sha256:") + r.sha256(CanonicalText(row.payload).value)
  {
  }

  // --- a changed payload is refused ---

  ghost predicate Collide(r: Runtime, a: Text, b: Text) {
    a != b && r.sha256(a) == r.sha256(b)
  }

  /** The row that was built for one payload validates with another, of which more than the order of keys is
      different, only if the canonical texts of the two have the same hash. */
  lemma ChangedIsRefused(r: Runtime, p: Plan, at: nat, stored: Json)
    requires Sane(r) && WellFormed(r, p) && Build(r, p, at).Some?
    requires Keyed(stored) && Printable(stored)
    requires Accepts(r, Build(r, p, at).value.(payload := stored))
    ensures
      var built := Payload(r, p, at);
      && CanonicalText(stored).Some? && CanonicalText(built).Some?
      && (Same(stored, built) || Collide(r, CanonicalText(stored).value, CanonicalText(built).value))
  {
    RowReads(r, p, at);
    PayloadKeyed(r, p, at);
    var built := Payload(r, p, at);
    HashSolid(r, CanonicalText(built).value);
    CanonicalTextIff(stored, built);
    var a, b := r.sha256(CanonicalText(stored).value), r.sha256(CanonicalText(built).value);
    assert T("sha256:") + a == T("sha256:") + b;
    assert (T("sha256:") + a)[7..] == a && (T("sha256:") + b)[7..] == b;
  }

  // --- what the validator lets through ---

  ghost predicate Filled(v: Json) {
    v.Str? && Trim(v.text) != []
  }

  ghost predicate Count(r: Runtime, v: Json) {
    && v.Number? && r.number(v.token).Some?
    && var x := r.number(v.token).value;
    x.Floor as real == x && 0.0 <= x <= 9007199254740991.0
  }

  ghost predicate HasExactly(v: Json, names: seq<string>) {
    v.Obj? && forall k :: Has(v.fields, k) <==> exists i :: 0 <= i < |names| && k == T(names[i])
  }

  /** The identifiers of the row and of the payload agree. */
  ghost predicate IdsSound(row: OutboxRow) {
    var v := row.payload;
    && IsUuid(Lower(Trim(row.eventId))) && IsUuid(Lower(Trim(row.planId)))
    && Filled(At(v, "plan_id")) && Lower(Trim(TextAt(v, "plan_id"))) == Lower(Trim(row.planId))
    && Filled(At(v, "job_id")) && Trim(TextAt(v, "job_id")) == Trim(row.job)
    && (forall i | 0 <= i < |Trim(row.job)| :: Trim(row.job)[i] != 0x3a)
    && Trim(row.queue) == T("youtube-channel-incremental")
  }

  /** The time lies between 00:30 and 21:30 on the day of the plan, and is the one of the plan row. */
  ghost predicate TimeSound(r: Runtime, row: OutboxRow) {
    var day, time := At(row.payload, "plan_day"), At(row.payload, "scheduled_at");
    && Filled(day) && r.dayOf(Trim(day.text)).Some? && Filled(time) && r.parse(Trim(time.text)).Some?
    && var at := r.parse(Trim(time.text)).value;
    && 1800000 <= at % 86400000 < 77400000
    && |r.iso(at)| >= 10 && r.iso(at)[..10] == Trim(day.text)
    && (row.planScheduledAt == None || row.planScheduledAt == Some(at))
  }

  /** There is something to do, and a probe of a dormant channel looks at videos only. */
  ghost predicate TasksSound(v: Json) {
    var mask, mode := At(v, "task_mask"), At(v, "plan_mode");
    && HasExactly(mask, ["about", "video", "agent"])
    && At(mask, "about").Boolean? && At(mask, "video").Boolean? && At(mask, "agent").Boolean?
    && (FlagAt(mask, "about") || FlagAt(mask, "video") || FlagAt(mask, "agent"))
    && Filled(mode)
    && (|| Trim(mode.text) == T("standard")
        || (Trim(mode.text) == T("dormant_probe")
            && !FlagAt(mask, "about") && FlagAt(mask, "video") && !FlagAt(mask, "agent")))
  }

  ghost predicate CapacitySound(r: Runtime, v: Json) {
    var capacity := At(v, "capacity");
    && HasExactly(capacity, ["factor", "player_cap", "next_cap", "version"])
    && At(capacity, "factor").Number? && r.number(At(capacity, "factor").token).Some?
    && 0.0 <= r.number(At(capacity, "factor").token).value <= 1.0
    && Count(r, At(capacity, "player_cap")) && Count(r, At(capacity, "next_cap")) && Filled(At(capacity, "version"))
  }

  ghost predicate VersionsSound(r: Runtime, v: Json) {
    && At(v, "schema_version").Number? && r.number(At(v, "schema_version").token) == Some(5.0)
    && Count(r, At(v, "dispatch_generation")) && NumberAt(r, v, "dispatch_generation") >= 1.0
    && Count(r, At(v, "clock_version")) && NumberAt(r, v, "clock_version") >= 1.0
    && Filled(At(v, "channel_id")) && Filled(At(v, "policy_version")) && Filled(At(v, "planner_config_version"))
  }

  ghost predicate FieldsSound(r: Runtime, row: OutboxRow) {
    && IdsSound(row) && TimeSound(r, row) && TasksSound(row.payload) && CapacitySound(r, row.payload)
    && VersionsSound(r, row.payload)
  }

  ghost predicate HashSound(r: Runtime, row: OutboxRow) {
    && CanonicalText(row.payload).Some?
    && Trim(row.hash) == T("sha256:") + r.sha256(CanonicalText(row.payload).value)
  }

  /** The validator passes exactly the rows whose payload has the thirteen fields, each sound, and the hash of its
      canonical text. */
  lemma AcceptsIff(r: Runtime, row: OutboxRow)
    ensures Accepts(r, row) <==>
      && HasExactly(row.payload, ["schema_version", "dispatch_generation", "job_id", "plan_id", "plan_mode",
           "plan_day", "scheduled_at", "channel_id", "task_mask", "capacity", "clock_version", "policy_version",
           "planner_config_version"])
      && FieldsSound(r, row) && HashSound(r, row)
  {
    BaseNames(row.payload);
    FieldsIff(r, row);
    assert HashSound(r, row) <==> PayloadHash(r, row.payload) == Some(Trim(row.hash));
  }

  lemma FieldsIff(r: Runtime, row: OutboxRow)
    ensures FieldsSound(r, row) <==> PartsOk(r, row, Parts(row.payload, BASE_KEYS))
  {
    PartsByName(row.payload);
    FieldsByPart(r, row, Parts(row.payload, BASE_KEYS));
  }

  lemma FieldsByPart(r: Runtime, row: OutboxRow, f: seq<Json>)
    requires PartsNamed(row.payload, f)
    ensures FieldsSound(r, row) <==> PartsOk(r, row, f)
  {
    VersionsIff(r, row);
    IdsIff(row);
    TimeIff(r, row);
    TasksIff(row.payload);
    CapacityIff(r, row.payload);
  }

  lemma BaseNames(v: Json)
    ensures ExactKeys(v, BASE_KEYS) <==>
      HasExactly(v, ["schema_version", "dispatch_generation", "job_id", "plan_id", "plan_mode",
        "plan_day", "scheduled_at", "channel_id", "task_mask", "capacity", "clock_version", "policy_version",
        "planner_config_version"])
  {
    var names := ["schema_version", "dispatch_generation", "job_id", "plan_id", "plan_mode",
      "plan_day", "scheduled_at", "channel_id", "task_mask", "capacity", "clock_version", "policy_version",
      "planner_config_version"];
    assert |BASE_KEYS| == |names| && forall i | 0 <= i < |names| :: BASE_KEYS[i] == T(names[i]);
    NamesAre(v, BASE_KEYS, names);
  }

  lemma NamesAre(v: Json, keys: seq<Text>, names: seq<string>)
    requires |keys| == |names| && forall i | 0 <= i < |names| :: keys[i] == T(names[i])
    ensures ExactKeys(v, keys) <==> HasExactly(v, names)
  {
    forall k
      ensures k in keys <==> exists i :: 0 <= i < |names| && k == T(names[i])
    {
      if k in keys {
        var i :| 0 <= i < |keys| && keys[i] == k;
        assert k == T(names[i]);
      }
    }
  }

  lemma CountIff(r: Runtime, v: Json)
    ensures Count(r, v) <==> NonNegativeInteger(r, v)
    ensures Count(r, v) && r.number(v.token).value >= 1.0 <==> PositiveInteger(r, v)
  {
  }

  lemma VersionsIff(r: Runtime, row: OutboxRow)
    ensures VersionsSound(r, row.payload) <==>
      && NumberOf(r, At(row.payload, "schema_version")) == Some(5.0)
      && PositiveInteger(r, At(row.payload, "dispatch_generation"))
      && PositiveInteger(r, At(row.payload, "clock_version"))
      && Required(At(row.payload, "channel_id")).Some? && Required(At(row.payload, "policy_version")).Some?
      && Required(At(row.payload, "planner_config_version")).Some?
  {
    CountIff(r, At(row.payload, "dispatch_generation"));
    CountIff(r, At(row.payload, "clock_version"));
  }

  lemma IdsIff(row: OutboxRow)
    ensures IdsSound(row) <==> IdsOk(row, At(row.payload, "plan_id"), At(row.payload, "job_id"))
  {
  }

  lemma TimeIff(r: Runtime, row: OutboxRow)
    ensures TimeSound(r, row) <==> ScheduleOk(r, row, At(row.payload, "plan_day"), At(row.payload, "scheduled_at"))
  {
    var time := At(row.payload, "scheduled_at");
    if time.Str? && r.parse(Trim(time.text)).Some? {
      Outbox.TimeOfDay(r.parse(Trim(time.text)).value);
    }
  }

  lemma TasksIff(v: Json)
    ensures TasksSound(v) <==> MaskOk(At(v, "task_mask")) && ModeOk(At(v, "plan_mode"), At(v, "task_mask"))
  {
    NamesAre(At(v, "task_mask"), MASK_KEYS, ["about", "video", "agent"]);
    ModesDiffer();
  }

  lemma ModesDiffer()
    ensures T("standard") != T("dormant_probe")
  {
    assert |T("standard")| == 8 && |T("dormant_probe")| == 13;
  }

  lemma CapacityIff(r: Runtime, v: Json)
    ensures CapacitySound(r, v) <==> CapacityOk(r, At(v, "capacity"))
  {
    NamesAre(At(v, "capacity"), CAPACITY_KEYS, ["factor", "player_cap", "next_cap", "version"]);
    CountIff(r, At(At(v, "capacity"), "player_cap"));
    CountIff(r, At(At(v, "capacity"), "next_cap"));
  }

  // --- job ids ---

  /** Dates are written as YYYY-MM-DD. */
  ghost predicate DatesAsDigits(r: Runtime) {
    forall d: nat | d <= LAST_TIME / Outbox.DAY ::
      && |r.date(d)| == 10 && r.date(d)[4] == DASH && r.date(d)[7] == DASH
      && forall i | 0 <= i < 10 && i != 4 && i != 7 :: Digit(r.date(d)[i])
  }

  lemma {:induction false} DashesOut(a: Text, b: Text)
    requires forall i | 0 <= i < |a| :: a[i] != DASH
    ensures WithoutDashes(a + b) == a + WithoutDashes(b)
    decreases a
  {
    if a != [] {
      assert (a + b)[1..] == a[1..] + b;
      DashesOut(a[1..], b);
    } else {
      assert a + b == b;
    }
  }

  lemma DateDigits(r: Runtime, d: nat)
    requires DatesAsDigits(r) && d <= LAST_TIME / Outbox.DAY
    ensures WithoutDashes(r.date(d)) == r.date(d)[..4] + r.date(d)[5..7] + r.date(d)[8..]
    ensures |WithoutDashes(r.date(d))| == 8
  {
    var t := r.date(d);
    var a, b, c := t[..4], t[5..7], t[8..];
    assert t == a + ([DASH] + (b + ([DASH] + c)));
    DashesOut(a, [DASH] + (b + ([DASH] + c)));
    assert ([DASH] + (b + ([DASH] + c)))[1..] == b + ([DASH] + c);
    DashesOut(b, [DASH] + c);
    assert ([DASH] + c)[1..] == c;
    DashesOut(c, []);
    assert c + [] == c;
  }

  /** Two plans of one channel have the same job id only if they are for the same day and of the same clock
      version. */
  lemma JobIdsDiffer(r: Runtime, p: Plan, q: Plan)
    requires Sane(r) && DatesAsDigits(r) && WellFormed(r, p) && WellFormed(r, q)
    requires p.channel == q.channel && JobId(r, p) == JobId(r, q)
    ensures p.day == q.day && p.clockVersion == q.clockVersion
  {
    DateDigits(r, p.day);
    DateDigits(r, q.day);
    IntegersPrint(r, p.clockVersion);
    IntegersPrint(r, q.clockVersion);
    JobIdIs(r, p);
    JobIdIs(r, q);
    var head := T("incremental__") + SafeJobComponent(p.channel) + T("__");
    var x, y := WithoutDashes(r.date(p.day)), WithoutDashes(r.date(q.day));
    var s, t := r.token(p.clockVersion as real), r.token(q.clockVersion as real);
    var mid, tail := T("__clock_"), T("__") + r.sha256(p.channel)[..12];
    Middles(head, x, s, y, t, mid, tail);
    DigitsTell(r, p.day, q.day);
  }

  lemma DigitsTell(r: Runtime, d: nat, e: nat)
    requires Sane(r) && DatesAsDigits(r) && d <= LAST_TIME / Outbox.DAY && e <= LAST_TIME / Outbox.DAY
    requires WithoutDashes(r.date(d)) == WithoutDashes(r.date(e))
    ensures d == e
  {
    DateDigits(r, d);
    DateDigits(r, e);
    assert r.dayOf(r.date(d)) == Some(d) && r.dayOf(r.date(e)) == Some(e);
    SameTen(r.date(d), r.date(e));
  }

  lemma SameTen(a: Text, b: Text)
    requires |a| == 10 == |b| && a[4] == b[4] && a[7] == b[7]
    requires a[..4] + a[5..7] + a[8..] == b[..4] + b[5..7] + b[8..]
    ensures a == b
  {
    var x, y := a[..4] + a[5..7] + a[8..], b[..4] + b[5..7] + b[8..];
    forall i | 0 <= i < 10
      ensures a[i] == b[i]
    {
      if i < 4 {
        assert x[i] == a[i] && y[i] == b[i];
      } else if 4 < i < 7 {
        assert x[i - 1] == a[i] && y[i - 1] == b[i];
      } else if i > 7 {
        assert x[i - 2] == a[i] && y[i - 2] == b[i];
      }
    }
  }

  lemma JobIdIs(r: Runtime, p: Plan)
    requires |r.sha256(p.channel)| == 64
    ensures JobId(r, p)
      == T("incremental__") + SafeJobComponent(p.channel) + T("__") + WithoutDashes(r.date(p.day)) + T("__clock_")
         + r.token(p.clockVersion as real) + (T("__") + r.sha256(p.channel)[..12])
  {
    var parts := JobParts(r, p);
    JoinSeven(parts);
  }

  lemma JoinSeven(parts: seq<Text>)
    requires |parts| == 7
    ensures Join(parts) == parts[0] + (parts[1] + (parts[2] + (parts[3] + (parts[4] + (parts[5] + (parts[6] + []))))))
  {
    assert parts[1..][1..] == parts[2..] && parts[2..][1..] == parts[3..] && parts[3..][1..] == parts[4..];
    assert parts[4..][1..] == parts[5..] && parts[5..][1..] == parts[6..] && parts[6..][1..] == [];
    assert Join(parts[6..]) == parts[6] + [];
    assert Join(parts[5..]) == parts[5] + (parts[6] + []);
    assert Join(parts[4..]) == parts[4] + (parts[5] + (parts[6] + []));
    assert Join(parts[3..]) == parts[3] + (parts[4] + (parts[5] + (parts[6] + [])));
    assert Join(parts[2..]) == parts[2] + (parts[3] + (parts[4] + (parts[5] + (parts[6] + []))));
    assert Join(parts[1..]) == parts[1] + (parts[2] + (parts[3] + (parts[4] + (parts[5] + (parts[6] + [])))));
  }

  lemma Middles(head: Text, x: Text, s: Text, y: Text, t: Text, mid: Text, tail: Text)
    requires |x| == |y| && head + x + mid + s + tail == head + y + mid + t + tail
    ensures x == y && s == t
  {
    var a, b := head + x + mid + s + tail, head + y + mid + t + tail;
    assert |s| == |t|;
    assert x == a[|head|..|head| + |x|] && y == b[|head|..|head| + |x|];
    var n := |head| + |x| + |mid|;
    assert s == a[n..n + |s|] && t == b[n..n + |s|];
  }

  // --- texts and identifiers ---

  predicate AllBlank(t: Text) {
    forall i | 0 <= i < |t| :: Blank(t[i])
  }

  lemma {:induction false} TrimStartCuts(t: Text) returns (a: Text)
    ensures t == a + TrimStart(t) && AllBlank(a) && (TrimStart(t) != [] ==> !Blank(TrimStart(t)[0]))
  {
    a := [];
    if t != [] && Blank(t[0]) {
      a := TrimStartCuts(t[1..]);
      a := [t[0]] + a;
      assert t == [t[0]] + t[1..];
    }
  }

  lemma {:induction false} TrimEndCuts(t: Text) returns (b: Text)
    ensures t == TrimEnd(t) + b && AllBlank(b) && (TrimEnd(t) != [] ==> !Blank(TrimEnd(t)[|TrimEnd(t)| - 1]))
    decreases |t|
  {
    b := [];
    if t != [] && Blank(t[|t| - 1]) {
      b := TrimEndCuts(t[..|t| - 1]);
      b := b + [t[|t| - 1]];
      assert t == t[..|t| - 1] + [t[|t| - 1]];
    }
  }

  /** Trimming takes blanks from both ends, and all of them. */
  lemma TrimCuts(t: Text) returns (a: Text, b: Text)
    ensures t == a + Trim(t) + b && AllBlank(a) && AllBlank(b)
    ensures Trim(t) != [] ==> !Blank(Trim(t)[0]) && !Blank(Trim(t)[|Trim(t)| - 1])
  {
    a := TrimStartCuts(t);
    b := TrimEndCuts(TrimStart(t));
    if Trim(t) != [] {
      assert Trim(t)[0] == TrimStart(t)[0];
    }
  }

  lemma {:induction false} SquashKeeps(t: Text, inRun: bool)
    requires AllPlain(t)
    ensures Squash(t, inRun) == t
    decreases t
  {
    if t != [] {
      SquashKeeps(t[1..], false);
    }
  }

  /** A channel id of letters, digits, dashes and inner underscores stands in the job id as it is. */
  lemma SafeKeeps(t: Text)
    requires AllPlain(t) && 0 < |t| <= 120 && t[0] != UNDERSCORE && t[|t| - 1] != UNDERSCORE
    ensures SafeJobComponent(t) == t
  {
    SquashKeeps(t, false);
  }

  lemma HighTells(a: Byte, b: Byte)
    requires (a >> 4) as int % 16 == (b >> 4) as int % 16
    ensures a >> 4 == b >> 4
  {
  }

  lemma LowTells(a: Byte, b: Byte)
    requires (a & 0x0f) as int % 16 == (b & 0x0f) as int % 16
    ensures a & 0x0f == b & 0x0f
  {
  }

  lemma HalvesTell(a: Byte, b: Byte)
    requires a >> 4 == b >> 4 && a & 0x0f == b & 0x0f
    ensures a == b
  {
  }

  lemma ByteTells(a: Byte, b: Byte)
    requires HexByte(a) == HexByte(b)
    ensures a == b
  {
    assert HexByte(a)[0] == HexByte(b)[0] && HexByte(a)[1] == HexByte(b)[1];
    NibbleTells((a >> 4) as int % 16, (b >> 4) as int % 16);
    NibbleTells((a & 0x0f) as int % 16, (b & 0x0f) as int % 16);
    HighTells(a, b);
    LowTells(a, b);
    HalvesTell(a, b);
  }

  lemma NibbleTells(m: int, n: int)
    requires 0 <= m < 16 && 0 <= n < 16 && Nibble(m) == Nibble(n)
    ensures m == n
  {
  }

  lemma DashedTells(a: Text, b: Text)
    requires |a| == 32 == |b| && Dashed(a) == Dashed(b)
    ensures a == b
  {
    var x, y := Dashed(a), Dashed(b);
    assert a[..8] == x[..8] && b[..8] == y[..8] && a[8..12] == x[9..13] && b[8..12] == y[9..13];
    assert a[12..16] == x[14..18] && b[12..16] == y[14..18] && a[16..20] == x[19..23] && b[16..20] == y[19..23];
    assert a[20..] == x[24..] && b[20..] == y[24..];
    assert a == a[..8] + a[8..12] + a[12..16] + a[16..20] + a[20..];
    assert b == b[..8] + b[8..12] + b[12..16] + b[16..20] + b[20..];
  }

  /** Two names get the same identifier only if their hashes agree in all of the first sixteen bytes but the six
      bits of the version and the variant. */
  lemma UuidTells(r: Runtime, x: Text, y: Text)
    requires |r.sha1(x)| == 20 == |r.sha1(y)| && UuidV5(r, x) == UuidV5(r, y)
    ensures forall i | 0 <= i < 16 && i != 6 && i != 8 :: r.sha1(x)[i] == r.sha1(y)[i]
    ensures r.sha1(x)[6] & 0x0f == r.sha1(y)[6] & 0x0f && r.sha1(x)[8] & 0x3f == r.sha1(y)[8] & 0x3f
  {
    var a, b := Stamp(r.sha1(x)), Stamp(r.sha1(y));
    HexBytesAreHex(a);
    HexBytesAreHex(b);
    DashedTells(HexBytes(a), HexBytes(b));
    forall i | 0 <= i < 16
      ensures a[i] == b[i]
    {
      HexBytesAt(a, i);
      HexBytesAt(b, i);
      ByteTells(a[i], b[i]);
    }
    assert a[6] == (r.sha1(x)[6] & 0x0f) | 0x50 && b[6] == (r.sha1(y)[6] & 0x0f) | 0x50;
    assert a[8] == (r.sha1(x)[8] & 0x3f) | 0x80 && b[8] == (r.sha1(y)[8] & 0x3f) | 0x80;
    MaskedTells(r.sha1(x)[6], r.sha1(y)[6], r.sha1(x)[8], r.sha1(y)[8]);
    assert forall i | 0 <= i < 16 && i != 6 && i != 8 :: a[i] == r.sha1(x)[i] && b[i] == r.sha1(y)[i];
  }

  lemma MaskedTells(a: Byte, b: Byte, c: Byte, d: Byte)
    ensures (a & 0x0f) | 0x50 == (b & 0x0f) | 0x50 ==> a & 0x0f == b & 0x0f
    ensures (c & 0x3f) | 0x80 == (d & 0x3f) | 0x80 ==> c & 0x3f == d & 0x3f
  {
  }
}
