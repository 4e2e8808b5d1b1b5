/** buildDispatchEnvelope against validateDispatchOutboxRow: what the producer writes, in whatever key
    order it is stored, passes the consumer's checks. */
module Envelope {
  import opened Prelude
  import opened CanonicalJson
  import opened CanonicalValue
  import opened JsonText
  import Outbox

  type Byte = bv8

  /** The code units of an ASCII text. */
  function T(s: string): Text {
    seq(|s|, i requires 0 <= i < |s| => if s[i] as int < 0x80 then s[i] as int else 0x3f)
  }

  /** Hashes, dates and number tokens of the runtime. */
  datatype Runtime = Runtime(
    sha1: Text -> seq<Byte>,
    sha256: Text -> Text,
    token: real -> Text,
    number: Text -> Option<real>,
    iso: nat -> Text,
    parse: Text -> Option<nat>,
    date: nat -> Text,
    dayOf: Text -> Option<nat>)

  predicate HexUnit(u: Unit) {
    Digit(u) || 0x61 <= u <= 0x66
  }

  predicate NoColon(t: Text) {
    forall i | 0 <= i < |t| :: t[i] != COLON
  }

  predicate WholeNumber(x: real) {
    x.Floor as real == x
  }

  /** The number is printed as a token that reads back as the number. */
  predicate Prints(r: Runtime, x: real) {
    r.number(r.token(x)) == Some(x) && Token(r.token(x))
  }

  predicate PrintsInteger(r: Runtime, n: nat) {
    Prints(r, n as real)
  }

  /** The last millisecond of the year 9999: dates have four-digit years up to here. */
  const LAST_TIME: nat := 253402300799999

  /** What the model asks of them: printing a safe integer, a time or a date and reading it back gives it
      again, a time starts with its date, and none of the texts put into a job id has a colon. */
  ghost predicate Sane(r: Runtime) {
    && (forall t :: |r.sha1(t)| == 20)
    && (forall t :: |r.sha256(t)| == 64 && forall i | 0 <= i < 64 :: HexUnit(r.sha256(t)[i]))
    && (forall n: nat | n <= MAX_SAFE :: PrintsInteger(r, n))
    && (forall n: nat | n <= LAST_TIME :: r.parse(r.iso(n)) == Some(n) && Trim(r.iso(n)) == r.iso(n))
    && (forall n: nat | n <= LAST_TIME :: |r.iso(n)| >= 10 && r.iso(n)[..10] == r.date(n / Outbox.DAY))
    && (forall d: nat | d <= LAST_TIME / Outbox.DAY ::
          && r.dayOf(r.date(d)) == Some(d) && NoColon(r.date(d))
          && Trim(r.date(d)) == r.date(d) && r.date(d) != [])
  }

  // --- text ---

  predicate Blank(u: Unit) {
    u == 0x20 || 0x09 <= u <= 0x0d || u == 0xa0 || u == 0xfeff || u == 0x1680 || 0x2000 <= u <= 0x200a
    || u == 0x2028 || u == 0x2029 || u == 0x202f || u == 0x205f || u == 0x3000
  }

  function TrimStart(t: Text): Text {
    if t != [] && Blank(t[0]) then TrimStart(t[1..]) else t
  }

  function TrimEnd(t: Text): Text {
    if t != [] && Blank(t[|t| - 1]) then TrimEnd(t[..|t| - 1]) else t
  }

  function Trim(t: Text): Text {
    TrimEnd(TrimStart(t))
  }

  lemma {:induction false} TrimEndKeeps(t: Text)
    ensures TrimEnd(t) <= t
    ensures t != [] && !Blank(t[0]) ==> TrimEnd(t) != []
    decreases |t|
  {
    if t != [] && Blank(t[|t| - 1]) {
      TrimEndKeeps(t[..|t| - 1]);
    }
  }

  /** Trimming a text that starts with something visible leaves a part of it from the start. */
  lemma TrimVisible(t: Text)
    requires t != [] && !Blank(t[0])
    ensures Trim(t) != [] && Trim(t) <= t
  {
    TrimEndKeeps(t);
  }

  function Lower(t: Text): Text {
    seq(|t|, i requires 0 <= i < |t| => if 0x41 <= t[i] <= 0x5a then t[i] + 32 else t[i])
  }

  lemma TrimSolid(t: Text)
    requires t != [] && !Blank(t[0]) && !Blank(t[|t| - 1])
    ensures Trim(t) == t
  {
  }

  // --- UUIDs of version 5 ---

  function Nibble(n: int): Unit
    requires 0 <= n < 16
  {
    Hex(n)
  }

  function HexByte(b: Byte): Text {
    [Nibble((b >> 4) as int % 16), Nibble((b & 0x0f) as int % 16)]
  }

  function HexBytes(bytes: seq<Byte>): Text {
    if bytes == [] then [] else HexBytes(bytes[..|bytes| - 1]) + HexByte(bytes[|bytes| - 1])
  }

  const DASH: Unit := 0x2d

  /** The version and variant bits of section 5.5 of RFC 9562. */
  function Stamp(bytes: seq<Byte>): seq<Byte>
    requires |bytes| >= 16
  {
    bytes[..16][6 := (bytes[6] & 0x0f) | 0x50][8 := (bytes[8] & 0x3f) | 0x80]
  }

  function Dashed(hex: Text): Text
    requires |hex| == 32
  {
    hex[..8] + [DASH] + hex[8..12] + [DASH] + hex[12..16] + [DASH] + hex[16..20] + [DASH] + hex[20..]
  }

  lemma {:induction false} HexBytesAt(bytes: seq<Byte>, i: nat)
    ensures |HexBytes(bytes)| == 2 * |bytes|
    ensures i < |bytes| ==>
      HexBytes(bytes)[2 * i] == HexByte(bytes[i])[0] && HexBytes(bytes)[2 * i + 1] == HexByte(bytes[i])[1]
  {
    if bytes != [] {
      HexBytesAt(bytes[..|bytes| - 1], i);
    }
  }

  lemma {:induction false} HexBytesAreHex(bytes: seq<Byte>)
    ensures |HexBytes(bytes)| == 2 * |bytes| && forall i | 0 <= i < 2 * |bytes| :: HexUnit(HexBytes(bytes)[i])
  {
    if bytes != [] {
      HexBytesAreHex(bytes[..|bytes| - 1]);
    }
  }

  function UuidV5(r: Runtime, name: Text): Text
    requires |r.sha1(name)| == 20
  {
    HexBytesAreHex(Stamp(r.sha1(name)));
    Dashed(HexBytes(Stamp(r.sha1(name))))
  }

  /** The pattern the validator asks for. */
  predicate IsUuid(t: Text) {
    && |t| == 36
    && t[8] == DASH && t[13] == DASH && t[18] == DASH && t[23] == DASH
    && (forall i | 0 <= i < 36 && i != 8 && i != 13 && i != 18 && i != 23 :: HexUnit(t[i]))
    && 0x31 <= t[14] <= 0x35
    && (t[19] == 0x38 || t[19] == 0x39 || t[19] == 0x61 || t[19] == 0x62)
  }

  lemma VersionNibble(b: Byte)
    ensures HexByte((b & 0x0f) | 0x50)[0] == 0x35
  {
    assert ((b & 0x0f) | 0x50) >> 4 == 5;
  }

  lemma VariantNibble(b: Byte)
    ensures
      var u := HexByte((b & 0x3f) | 0x80)[0];
      u == 0x38 || u == 0x39 || u == 0x61 || u == 0x62
  {
    var n := ((b & 0x3f) | 0x80) >> 4;
    assert n == 8 || n == 9 || n == 10 || n == 11;
  }

  lemma DashedIsUuid(hex: Text)
    requires |hex| == 32 && forall i | 0 <= i < 32 :: HexUnit(hex[i])
    requires 0x31 <= hex[12] <= 0x35
    requires hex[16] == 0x38 || hex[16] == 0x39 || hex[16] == 0x61 || hex[16] == 0x62
    ensures IsUuid(Dashed(hex))
  {
    var t := Dashed(hex);
    assert t[14] == hex[12] && t[19] == hex[16];
  }

  /** The identifier that the producer derives is one the consumer accepts. */
  lemma UuidV5IsUuid(r: Runtime, name: Text)
    requires |r.sha1(name)| == 20
    ensures IsUuid(UuidV5(r, name))
  {
    var bytes := Stamp(r.sha1(name));
    HexBytesAreHex(bytes);
    HexBytesAt(bytes, 6);
    HexBytesAt(bytes, 8);
    VersionNibble(r.sha1(name)[6]);
    VariantNibble(r.sha1(name)[8]);
    DashedIsUuid(HexBytes(bytes));
  }

  // --- job ids ---

  predicate Plain(u: Unit) {
    Digit(u) || 0x41 <= u <= 0x5a || 0x61 <= u <= 0x7a || u == UNDERSCORE || u == DASH
  }

  const UNDERSCORE: Unit := 0x5f

  /** Every run of other characters becomes one underscore. */
  function Squash(t: Text, inRun: bool): Text
    decreases t
  {
    if t == [] then []
    else if Plain(t[0]) then [t[0]] + Squash(t[1..], false)
    else (if inRun then [] else [UNDERSCORE]) + Squash(t[1..], true)
  }

  function StripStart(t: Text): Text {
    if t != [] && t[0] == UNDERSCORE then StripStart(t[1..]) else t
  }

  function StripEnd(t: Text): Text {
    if t != [] && t[|t| - 1] == UNDERSCORE then StripEnd(t[..|t| - 1]) else t
  }

  function SafeJobComponent(t: Text): Text {
    var stripped := StripEnd(StripStart(Squash(t, false)));
    var short := if |stripped| > 120 then stripped[..120] else stripped;
    if short == [] then T("channel") else short
  }

  ghost predicate AllPlain(t: Text) {
    forall i | 0 <= i < |t| :: Plain(t[i])
  }

  lemma {:induction false} SquashPlain(t: Text, inRun: bool)
    ensures AllPlain(Squash(t, inRun))
    decreases t
  {
    if t != [] {
      SquashPlain(t[1..], false);
      SquashPlain(t[1..], true);
    }
  }

  lemma {:induction false} StripStartPlain(t: Text)
    requires AllPlain(t)
    ensures AllPlain(StripStart(t))
  {
    if t != [] && t[0] == UNDERSCORE {
      StripStartPlain(t[1..]);
    }
  }

  lemma {:induction false} StripEndPlain(t: Text)
    requires AllPlain(t)
    ensures AllPlain(StripEnd(t))
    decreases |t|
  {
    if t != [] && t[|t| - 1] == UNDERSCORE {
      StripEndPlain(t[..|t| - 1]);
    }
  }

  lemma SafeIsPlain(t: Text)
    ensures NoColon(SafeJobComponent(t))
  {
    SquashPlain(t, false);
    StripStartPlain(Squash(t, false));
    StripEndPlain(StripStart(Squash(t, false)));
  }

  // --- the plan and its envelope ---

  const MAX_SAFE := 9007199254740991

  datatype Plan = Plan(
    id: Text,
    mode: Text,
    day: nat,
    channel: Text,
    tasks: Outbox.Tasks,
    factor: real,
    playerCap: nat,
    nextCap: nat,
    capacityVersion: Text,
    clockVersion: nat,
    policyVersion: Text,
    plannerConfigVersion: Text)

  const STANDARD := T("standard")
  const DORMANT_PROBE := T("dormant_probe")

  /** The checks of the plan table, texts that are not blank, and a factor that is a double. */
  predicate WellFormed(r: Runtime, p: Plan) {
    && IsUuid(p.id)
    && (p.mode == STANDARD || (p.mode == DORMANT_PROBE && p.tasks == Outbox.Tasks(false, true, false)))
    && Trim(p.channel) != [] && Trim(p.capacityVersion) != [] && Trim(p.policyVersion) != []
    && Trim(p.plannerConfigVersion) != []
    && 0.0 <= p.factor <= 1.0 && Prints(r, p.factor)
    && p.day <= LAST_TIME / Outbox.DAY
    && 0 < p.clockVersion <= MAX_SAFE && p.playerCap <= MAX_SAFE && p.nextCap <= MAX_SAFE
  }

  function WithoutDashes(t: Text): Text {
    if t == [] then [] else (if t[0] == DASH then [] else [t[0]]) + WithoutDashes(t[1..])
  }

  function JobId(r: Runtime, p: Plan): Text
    requires |r.sha256(p.channel)| == 64
  {
    T("incremental__") + Join(JobParts(r, p))
  }

  function JobParts(r: Runtime, p: Plan): seq<Text>
    requires |r.sha256(p.channel)| == 64
  {
    [SafeJobComponent(p.channel), T("__"), WithoutDashes(r.date(p.day)), T("__clock_"), r.token(p.clockVersion as real),
     T("__"), r.sha256(p.channel)[..12]]
  }

  function Join(parts: seq<Text>): Text {
    if parts == [] then [] else parts[0] + Join(parts[1..])
  }

  datatype Entry = Entry(key: Text, value: Json)

  function FromList(entries: seq<Entry>): Fields {
    if entries == [] then NoField else Field(entries[0].key, entries[0].value, FromList(entries[1..]))
  }

  const MASK_KEYS := [T("about"), T("video"), T("agent")]
  const CAPACITY_KEYS := [T("factor"), T("player_cap"), T("next_cap"), T("version")]
  const BASE_KEYS := [
    T("schema_version"), T("dispatch_generation"), T("job_id"), T("plan_id"), T("plan_mode"), T("plan_day"),
    T("scheduled_at"), T("channel_id"), T("task_mask"), T("capacity"), T("clock_version"), T("policy_version"),
    T("planner_config_version")]

  function Zip(keys: seq<Text>, values: seq<Json>): seq<Entry>
    requires |keys| == |values|
  {
    seq(|keys|, i requires 0 <= i < |keys| => Entry(keys[i], values[i]))
  }

  function Mask(p: Plan): seq<Json> {
    [Boolean(p.tasks.about), Boolean(p.tasks.video), Boolean(p.tasks.agent)]
  }

  function Capacity(r: Runtime, p: Plan): seq<Json> {
    [Number(r.token(p.factor)), Number(r.token(p.playerCap as real)), Number(r.token(p.nextCap as real)),
     Str(p.capacityVersion)]
  }

  function Values(r: Runtime, p: Plan, at: nat): seq<Json>
    requires |r.sha256(p.channel)| == 64
  {
    [Number(r.token(5.0)), Number(r.token(1.0)), Str(JobId(r, p)), Str(p.id), Str(p.mode), Str(r.date(p.day)),
     Str(r.iso(at)), Str(p.channel),
     Obj(FromList(Zip(MASK_KEYS, Mask(p)))), Obj(FromList(Zip(CAPACITY_KEYS, Capacity(r, p)))),
     Number(r.token(p.clockVersion as real)), Str(p.policyVersion), Str(p.plannerConfigVersion)]
  }

  function Payload(r: Runtime, p: Plan, at: nat): Json
    requires |r.sha256(p.channel)| == 64
  {
    Obj(FromList(Zip(BASE_KEYS, Values(r, p, at))))
  }

  /** dispatchPayloadHash; None where the payload is no JSON value. */
  function PayloadHash(r: Runtime, payload: Json): Option<Text> {
    var text := CanonicalText(payload);
    if text.None? then None else Some(T("sha256:") + r.sha256(text.value))
  }

  const QUEUE := T("youtube-channel-incremental")

  datatype OutboxRow = OutboxRow(eventId: Text, planId: Text, job: Text, queue: Text, payload: Json, hash: Text,
                                 planScheduledAt: Option<nat>)

  /** buildDispatchEnvelope; None where it throws. */
  function Build(r: Runtime, p: Plan, at: nat): Option<OutboxRow>
    requires |r.sha256(p.channel)| == 64 && |r.sha1(p.id)| == 20
  {
    if at / Outbox.DAY != p.day || p.tasks == Outbox.Tasks(false, false, false) then None else
      var payload := Payload(r, p, at);
      var hash := PayloadHash(r, payload);
      if hash.None? then None
      else Some(OutboxRow(UuidV5(r, p.id), p.id, JobId(r, p), QUEUE, payload, hash.value, Some(at)))
  }

  // --- the validator ---

  function Get(v: Json, key: Text): Json {
    if v.Obj? && Has(v.fields, key) then Lookup(v.fields, key).value else NonJson
  }

  /** requiredText on a string; any other value is refused here. */
  function Required(v: Json): Option<Text> {
    if v.Str? && Trim(v.text) != [] then Some(Trim(v.text)) else None
  }

  ghost predicate ExactKeys(v: Json, keys: seq<Text>) {
    v.Obj? && forall k :: Has(v.fields, k) <==> k in keys
  }

  function NumberOf(r: Runtime, v: Json): Option<real> {
    if v.Number? then r.number(v.token) else None
  }

  predicate NonNegativeInteger(r: Runtime, v: Json) {
    var x := NumberOf(r, v);
    x.Some? && WholeNumber(x.value) && 0.0 <= x.value <= MAX_SAFE as real
  }

  predicate PositiveInteger(r: Runtime, v: Json) {
    NonNegativeInteger(r, v) && NumberOf(r, v) != Some(0.0)
  }

  ghost predicate MaskOk(mask: Json) {
    && ExactKeys(mask, MASK_KEYS)
    && Get(mask, MASK_KEYS[0]).Boolean? && Get(mask, MASK_KEYS[1]).Boolean? && Get(mask, MASK_KEYS[2]).Boolean?
    && (Get(mask, MASK_KEYS[0]).value || Get(mask, MASK_KEYS[1]).value || Get(mask, MASK_KEYS[2]).value)
  }

  ghost predicate CapacityOk(r: Runtime, capacity: Json) {
    && ExactKeys(capacity, CAPACITY_KEYS)
    && NumberOf(r, Get(capacity, CAPACITY_KEYS[0])).Some?
    && 0.0 <= NumberOf(r, Get(capacity, CAPACITY_KEYS[0])).value <= 1.0
    && NonNegativeInteger(r, Get(capacity, CAPACITY_KEYS[1])) && NonNegativeInteger(r, Get(capacity, CAPACITY_KEYS[2]))
    && Required(Get(capacity, CAPACITY_KEYS[3])).Some?
  }

  ghost predicate ModeOk(mode: Json, mask: Json) {
    && (Required(mode) == Some(STANDARD) || Required(mode) == Some(DORMANT_PROBE))
    && (Required(mode) == Some(DORMANT_PROBE) ==>
          mask.Obj? && Get(mask, MASK_KEYS[0]) == Boolean(false) && Get(mask, MASK_KEYS[1]) == Boolean(true)
          && Get(mask, MASK_KEYS[2]) == Boolean(false))
  }

  /** The scheduled time, its window and its day. */
  ghost predicate ScheduleOk(r: Runtime, row: OutboxRow, day: Json, scheduled: Json) {
    && Required(day).Some? && r.dayOf(Required(day).value).Some?
    && Required(scheduled).Some? && r.parse(Required(scheduled).value).Some?
    && var at := r.parse(Required(scheduled).value).value;
    && Outbox.InWindow(at)
    && |r.iso(at)| >= 10 && r.iso(at)[..10] == Required(day).value
    && (row.planScheduledAt.Some? ==> row.planScheduledAt.value == at)
  }

  ghost predicate IdsOk(row: OutboxRow, planId: Json, jobId: Json) {
    && IsUuid(Lower(Trim(row.eventId))) && IsUuid(Lower(Trim(row.planId)))
    && Required(planId).Some? && Lower(Required(planId).value) == Lower(Trim(row.planId))
    && Trim(row.job) != [] && Required(jobId) == Some(Trim(row.job)) && NoColon(Trim(row.job))
    && Trim(row.queue) == QUEUE
  }

  /** The values of the payload, in the order of the list of its keys. */
  function Parts(v: Json, keys: seq<Text>): seq<Json> {
    seq(|keys|, i requires 0 <= i < |keys| => Get(v, keys[i]))
  }

  ghost predicate PartsOk(r: Runtime, row: OutboxRow, f: seq<Json>)
    requires |f| == 13
  {
    && NumberOf(r, f[0]) == Some(5.0)
    && PositiveInteger(r, f[1])
    && IdsOk(row, f[3], f[2])
    && Required(f[7]).Some? && Required(f[11]).Some? && Required(f[12]).Some?
    && ScheduleOk(r, row, f[5], f[6])
    && PositiveInteger(r, f[10])
    && MaskOk(f[8]) && ModeOk(f[4], f[8])
    && CapacityOk(r, f[9])
  }

  /** validateDispatchOutboxRow passes. */
  ghost predicate Accepts(r: Runtime, row: OutboxRow) {
    && ExactKeys(row.payload, BASE_KEYS)
    && PartsOk(r, row, Parts(row.payload, BASE_KEYS))
    && PayloadHash(r, row.payload) == Some(Trim(row.hash))
  }

  // --- lists of entries ---

  ghost predicate DistinctTexts(keys: seq<Text>) {
    forall i, j | 0 <= i < j < |keys| :: keys[i] != keys[j]
  }

  lemma {:induction false} ListLookup(keys: seq<Text>, values: seq<Json>, k: Text)
    requires |keys| == |values| && DistinctTexts(keys)
    ensures Has(FromList(Zip(keys, values)), k) <==> k in keys
    ensures forall i | 0 <= i < |keys| && keys[i] == k :: Lookup(FromList(Zip(keys, values)), k) == Some(values[i])
    ensures UniqueKeys(FromList(Zip(keys, values)))
    decreases keys
  {
    if keys != [] {
      var entries := Zip(keys, values);
      assert entries[1..] == Zip(keys[1..], values[1..]);
      ListLookup(keys[1..], values[1..], k);
      ListLookup(keys[1..], values[1..], keys[0]);
      assert keys[0] !in keys[1..];
      assert k in keys <==> k == keys[0] || k in keys[1..];
    }
  }

  lemma KeysDistinct()
    ensures DistinctTexts(MASK_KEYS) && DistinctTexts(CAPACITY_KEYS)
  {
    var m, c := MASK_KEYS, CAPACITY_KEYS;
    assert m[0][1] == 0x62 && m[1][1] == 0x69 && m[2][1] == 0x67;
    assert |c[0]| == 6 && |c[1]| == 10 && |c[2]| == 8 && |c[3]| == 7;
  }

  lemma BaseKeysDistinct()
    ensures DistinctTexts(BASE_KEYS)
  {
    var b := BASE_KEYS;
    assert |b[0]| == 14 && |b[1]| == 19 && |b[2]| == 6 && |b[3]| == 7 && |b[4]| == 9 && |b[5]| == 8 && |b[6]| == 12;
    assert |b[7]| == 10 && |b[8]| == 9 && |b[9]| == 8 && |b[10]| == 13 && |b[11]| == 14 && |b[12]| == 22;
    assert b[0][0] == 0x73 && b[11][0] == 0x70 && b[4][0] == 0x70 && b[8][0] == 0x74 && b[5][0] == 0x70
      && b[9][0] == 0x63;
  }

  // --- a stored payload is the built one up to key order ---

  lemma {:induction false} SameLookup(a: Fields, b: Fields, k: Text)
    requires SameFields(a, b) && KeysIn(b, a)
    ensures Has(a, k) <==> Has(b, k)
    ensures Has(a, k) ==> Same(Lookup(a, k).value, Lookup(b, k).value)
  {
    KeysInIff(b, a);
    if Has(a, k) {
      SameAtKey(a, b, k);
    }
  }

  lemma {:induction false} SameAtKey(a: Fields, b: Fields, k: Text)
    requires SameFields(a, b) && Has(a, k)
    ensures Has(b, k) && Same(Lookup(a, k).value, Lookup(b, k).value)
    decreases a
  {
    if a.key != k {
      SameAtKey(a.rest, b, k);
    }
  }

  lemma {:induction false} SamePrintable(a: Json, b: Json)
    requires Same(a, b) && Printable(b)
    ensures Printable(a)
    decreases a
  {
    match a
    case Arr(items) => SameItemsPrintable(items, b.items);
    case Obj(fields) => SameFieldsPrintable(fields, b.fields);
    case _ =>
  }

  lemma {:induction false} SameItemsPrintable(a: Items, b: Items)
    requires SameItems(a, b) && PrintableItems(b)
    ensures PrintableItems(a)
    decreases a
  {
    if a.Item? {
      SamePrintable(a.head, b.head);
      SameItemsPrintable(a.tail, b.tail);
    }
  }

  lemma {:induction false} SameFieldsPrintable(a: Fields, b: Fields)
    requires SameFields(a, b) && PrintableFields(b)
    ensures PrintableFields(a)
    decreases a
  {
    if a.Field? {
      PrintableAt(b, a.key);
      SamePrintable(a.value, Lookup(b, a.key).value);
      SameFieldsPrintable(a.rest, b);
    }
  }

  lemma {:induction false} PrintableAt(fields: Fields, k: Text)
    requires PrintableFields(fields) && Has(fields, k)
    ensures Printable(Lookup(fields, k).value)
    decreases fields
  {
    if fields.key != k {
      PrintableAt(fields.rest, k);
    }
  }

  /** A stored object has the keys of the built one, each with the built value up to key order. */
  lemma StoredObject(v: Json, keys: seq<Text>, values: seq<Json>)
    requires |keys| == |values| && DistinctTexts(keys) && Same(v, Obj(FromList(Zip(keys, values))))
    ensures ExactKeys(v, keys)
    ensures forall i | 0 <= i < |keys| :: Same(Get(v, keys[i]), values[i])
  {
    var built := FromList(Zip(keys, values));
    forall k
      ensures Has(v.fields, k) <==> k in keys
    {
      SameLookup(v.fields, built, k);
      ListLookup(keys, values, k);
    }
    forall i | 0 <= i < |keys|
      ensures Same(Get(v, keys[i]), values[i])
    {
      SameLookup(v.fields, built, keys[i]);
      ListLookup(keys, values, keys[i]);
    }
  }

  predicate Scalar(v: Json) {
    !v.Arr? && !v.Obj?
  }

  lemma SameScalar(a: Json, b: Json)
    requires Same(a, b) && Scalar(b)
    ensures a == b
  {
  }

  lemma {:induction false} ListKeyed(entries: seq<Entry>)
    requires forall i | 0 <= i < |entries| :: Keyed(entries[i].value) && Printable(entries[i].value)
    ensures KeyedFields(FromList(entries)) && PrintableFields(FromList(entries))
    decreases entries
  {
    if entries != [] {
      ListKeyed(entries[1..]);
    }
  }

  lemma ObjectKeyed(keys: seq<Text>, values: seq<Json>)
    requires |keys| == |values| && DistinctTexts(keys)
    requires forall i | 0 <= i < |values| :: Keyed(values[i]) && Printable(values[i])
    ensures Keyed(Obj(FromList(Zip(keys, values)))) && Printable(Obj(FromList(Zip(keys, values))))
  {
    ListKeyed(Zip(keys, values));
    ListLookup(keys, values, []);
  }

  lemma TokensPrint(r: Runtime, x: real)
    requires Prints(r, x)
    ensures Keyed(Number(r.token(x))) && Printable(Number(r.token(x)))
  {
  }

  lemma MaskKeyed(p: Plan)
    ensures Keyed(Obj(FromList(Zip(MASK_KEYS, Mask(p))))) && Printable(Obj(FromList(Zip(MASK_KEYS, Mask(p)))))
  {
    KeysDistinct();
    ObjectKeyed(MASK_KEYS, Mask(p));
  }

  lemma CapacityKeyed(r: Runtime, p: Plan)
    requires Sane(r) && WellFormed(r, p)
    ensures Keyed(Obj(FromList(Zip(CAPACITY_KEYS, Capacity(r, p)))))
      && Printable(Obj(FromList(Zip(CAPACITY_KEYS, Capacity(r, p)))))
  {
    KeysDistinct();
    IntegersPrint(r, p.playerCap);
    IntegersPrint(r, p.nextCap);
    TokensPrint(r, p.factor);
    TokensPrint(r, p.playerCap as real);
    TokensPrint(r, p.nextCap as real);
    ObjectKeyed(CAPACITY_KEYS, Capacity(r, p));
  }

  lemma ValuesKeyed(values: seq<Json>)
    requires |values| == 13
    requires forall i | i == 0 || i == 1 || i == 10 :: values[i].Number? && Token(values[i].token)
    requires forall i | 2 <= i < 8 || i == 11 || i == 12 :: values[i].Str?
    requires forall i | i == 8 || i == 9 :: Keyed(values[i]) && Printable(values[i])
    ensures forall i | 0 <= i < 13 :: Keyed(values[i]) && Printable(values[i])
  {
    forall i | 0 <= i < 13
      ensures Keyed(values[i]) && Printable(values[i])
    {
      if i == 0 || i == 1 || i == 10 {
        assert values[i].Number?;
      } else if i != 8 && i != 9 {
        assert values[i].Str?;
      }
    }
  }

  predicate TokensOk(r: Runtime, p: Plan) {
    Token(r.token(5.0)) && Token(r.token(1.0)) && Token(r.token(p.clockVersion as real))
  }

  lemma ValuesAreKeyed(r: Runtime, p: Plan, at: nat)
    requires |r.sha256(p.channel)| == 64 && TokensOk(r, p) && ObjectsKeyed(r, p)
    ensures forall i | 0 <= i < 13 :: Keyed(Values(r, p, at)[i]) && Printable(Values(r, p, at)[i])
  {
    ValuesKeyed(Values(r, p, at));
  }

  lemma PayloadKeyed(r: Runtime, p: Plan, at: nat)
    requires Sane(r) && WellFormed(r, p)
    ensures Keyed(Payload(r, p, at)) && Printable(Payload(r, p, at))
  {
    MaskKeyed(p);
    CapacityKeyed(r, p);
    SaneTokens(r, p);
    PayloadKeyedFrom(r, p, at);
  }

  ghost predicate ObjectsKeyed(r: Runtime, p: Plan) {
    var mask, capacity := Obj(FromList(Zip(MASK_KEYS, Mask(p)))), Obj(FromList(Zip(CAPACITY_KEYS, Capacity(r, p))));
    Keyed(mask) && Printable(mask) && Keyed(capacity) && Printable(capacity)
  }

  lemma PayloadKeyedFrom(r: Runtime, p: Plan, at: nat)
    requires |r.sha256(p.channel)| == 64 && TokensOk(r, p) && ObjectsKeyed(r, p)
    ensures Keyed(Payload(r, p, at)) && Printable(Payload(r, p, at))
  {
    ValuesAreKeyed(r, p, at);
    ListPayloadKeyed(r, p, at);
  }

  lemma SaneTokens(r: Runtime, p: Plan)
    requires Sane(r) && WellFormed(r, p)
    ensures TokensOk(r, p) && |r.sha256(p.channel)| == 64
  {
    IntegersPrint(r, 5);
    IntegersPrint(r, 1);
    IntegersPrint(r, p.clockVersion);
  }

  lemma IntegersPrint(r: Runtime, n: nat)
    requires Sane(r) && n <= MAX_SAFE
    ensures Prints(r, n as real)
  {
    assert PrintsInteger(r, n);
  }

  lemma ListPayloadKeyed(r: Runtime, p: Plan, at: nat)
    requires |r.sha256(p.channel)| == 64
    requires forall i | 0 <= i < 13 :: Keyed(Values(r, p, at)[i]) && Printable(Values(r, p, at)[i])
    ensures Keyed(Payload(r, p, at)) && Printable(Payload(r, p, at))
  {
    BaseKeysDistinct();
    ObjectKeyed(BASE_KEYS, Values(r, p, at));
  }

  /** The hash does not see the key order. */
  lemma SameHash(r: Runtime, stored: Json, built: Json)
    requires Keyed(stored) && Keyed(built) && Printable(built) && Same(stored, built)
    ensures PayloadHash(r, stored) == PayloadHash(r, built) && PayloadHash(r, built).Some?
  {
    SamePrintable(stored, built);
    CanonicalTextIff(stored, built);
  }

  // --- the checks, one group at a time ---

  lemma {:induction false} DashesKeepColons(t: Text)
    requires NoColon(t)
    ensures NoColon(WithoutDashes(t))
  {
    if t != [] {
      DashesKeepColons(t[1..]);
    }
  }

  lemma NoColonConcat(a: Text, b: Text)
    requires NoColon(a) && NoColon(b)
    ensures NoColon(a + b)
  {
  }

  lemma {:induction false} JoinKeepsColons(parts: seq<Text>)
    requires forall i | 0 <= i < |parts| :: NoColon(parts[i])
    ensures NoColon(Join(parts))
  {
    if parts != [] {
      JoinKeepsColons(parts[1..]);
      NoColonConcat(parts[0], Join(parts[1..]));
    }
  }

  lemma TokenHasNoColon(t: Text)
    requires Token(t)
    ensures NoColon(t)
  {
    forall i | 0 <= i < |t|
      ensures t[i] != COLON
    {
      assert NumberUnit(t[i]);
    }
  }

  lemma HexHasNoColon(t: Text)
    requires |t| == 64 && forall i | 0 <= i < 64 :: HexUnit(t[i])
    ensures NoColon(t[..12])
  {
  }

  lemma SaneDate(r: Runtime, d: nat)
    requires Sane(r) && d <= LAST_TIME / Outbox.DAY
    ensures NoColon(r.date(d))
  {
    assert r.dayOf(r.date(d)) == Some(d);
  }

  lemma SaneDigest(r: Runtime, t: Text)
    requires Sane(r)
    ensures |r.sha256(t)| == 64 && forall i | 0 <= i < 64 :: HexUnit(r.sha256(t)[i])
  {
  }

  lemma PartsHaveNoColon(r: Runtime, p: Plan)
    requires Sane(r) && WellFormed(r, p)
    ensures NoColon(WithoutDashes(r.date(p.day))) && NoColon(r.token(p.clockVersion as real))
      && NoColon(r.sha256(p.channel)[..12])
  {
    SaneDate(r, p.day);
    DashesKeepColons(r.date(p.day));
    IntegersPrint(r, p.clockVersion);
    TokenHasNoColon(r.token(p.clockVersion as real));
    SaneDigest(r, p.channel);
    HexHasNoColon(r.sha256(p.channel));
  }

  lemma LiteralsHaveNoColon()
    ensures NoColon(T("__")) && NoColon(T("__clock_")) && NoColon(T("incremental__"))
    ensures T("incremental__") != [] && !Blank(T("incremental__")[0])
  {
  }

  lemma JobPartsHaveNoColon(r: Runtime, p: Plan)
    requires |r.sha256(p.channel)| == 64
    requires NoColon(WithoutDashes(r.date(p.day))) && NoColon(r.token(p.clockVersion as real))
      && NoColon(r.sha256(p.channel)[..12])
    ensures forall i | 0 <= i < |JobParts(r, p)| :: NoColon(JobParts(r, p)[i])
  {
    SafeIsPlain(p.channel);
    LiteralsHaveNoColon();
  }

  lemma JobIdPasses(r: Runtime, p: Plan)
    requires Sane(r) && WellFormed(r, p)
    ensures Trim(JobId(r, p)) != [] && NoColon(Trim(JobId(r, p)))
  {
    PartsHaveNoColon(r, p);
    JobPartsHaveNoColon(r, p);
    LiteralsHaveNoColon();
    StartsVisibly(T("incremental__"), JobParts(r, p));
  }

  lemma StartsVisibly(start: Text, parts: seq<Text>)
    requires start != [] && !Blank(start[0]) && NoColon(start)
    requires forall i | 0 <= i < |parts| :: NoColon(parts[i])
    ensures Trim(start + Join(parts)) != [] && NoColon(Trim(start + Join(parts)))
  {
    JoinKeepsColons(parts);
    NoColonConcat(start, Join(parts));
    TrimVisible(start + Join(parts));
  }

  lemma UuidSolid(t: Text)
    requires IsUuid(t)
    ensures Trim(t) == t && Lower(t) == t
  {
    TrimSolid(t);
  }

  lemma ConstantsSolid()
    ensures Trim(STANDARD) == STANDARD && Trim(DORMANT_PROBE) == DORMANT_PROBE && Trim(QUEUE) == QUEUE
    ensures STANDARD != DORMANT_PROBE
  {
    TrimSolid(STANDARD);
    TrimSolid(DORMANT_PROBE);
    TrimSolid(QUEUE);
  }

  lemma MaskPasses(v: Json, p: Plan)
    requires Same(v, Obj(FromList(Zip(MASK_KEYS, Mask(p))))) && p.tasks != Outbox.Tasks(false, false, false)
    ensures MaskOk(v)
    ensures Get(v, MASK_KEYS[0]) == Boolean(p.tasks.about) && Get(v, MASK_KEYS[1]) == Boolean(p.tasks.video)
    ensures Get(v, MASK_KEYS[2]) == Boolean(p.tasks.agent)
  {
    KeysDistinct();
    StoredObject(v, MASK_KEYS, Mask(p));
    SameScalar(Get(v, MASK_KEYS[0]), Mask(p)[0]);
    SameScalar(Get(v, MASK_KEYS[1]), Mask(p)[1]);
    SameScalar(Get(v, MASK_KEYS[2]), Mask(p)[2]);
  }

  lemma CapacityPasses(r: Runtime, v: Json, p: Plan)
    requires Sane(r) && WellFormed(r, p) && Same(v, Obj(FromList(Zip(CAPACITY_KEYS, Capacity(r, p)))))
    ensures CapacityOk(r, v)
  {
    KeysDistinct();
    IntegersPrint(r, p.playerCap);
    IntegersPrint(r, p.nextCap);
    StoredObject(v, CAPACITY_KEYS, Capacity(r, p));
    SameScalar(Get(v, CAPACITY_KEYS[0]), Capacity(r, p)[0]);
    SameScalar(Get(v, CAPACITY_KEYS[1]), Capacity(r, p)[1]);
    SameScalar(Get(v, CAPACITY_KEYS[2]), Capacity(r, p)[2]);
    SameScalar(Get(v, CAPACITY_KEYS[3]), Capacity(r, p)[3]);
  }

  lemma HashSolid(r: Runtime, text: Text)
    requires Sane(r)
    ensures Trim(T("sha256:") + r.sha256(text)) == T("sha256:") + r.sha256(text)
  {
    var t := T("sha256:") + r.sha256(text);
    assert |r.sha256(text)| == 64 && HexUnit(r.sha256(text)[63]);
    assert t[0] == 0x73 && t[|t| - 1] == r.sha256(text)[63];
    TrimSolid(t);
  }

  lemma ScalarsStored(v: Json, keys: seq<Text>, values: seq<Json>)
    requires |keys| == |values| && forall i | 0 <= i < |keys| :: Same(Get(v, keys[i]), values[i])
    ensures forall i | 0 <= i < |keys| && Scalar(values[i]) :: Parts(v, keys)[i] == values[i]
  {
    forall i | 0 <= i < |keys| && Scalar(values[i])
      ensures Parts(v, keys)[i] == values[i]
    {
      SameScalar(Get(v, keys[i]), values[i]);
    }
  }

  lemma IdsPass(r: Runtime, p: Plan, row: OutboxRow)
    requires Sane(r) && WellFormed(r, p)
    requires row.eventId == UuidV5(r, p.id) && row.planId == p.id && row.job == JobId(r, p) && row.queue == QUEUE
    ensures IdsOk(row, Str(p.id), Str(JobId(r, p)))
  {
    UuidV5IsUuid(r, p.id);
    UuidSolid(UuidV5(r, p.id));
    UuidSolid(p.id);
    JobIdPasses(r, p);
    ConstantsSolid();
  }

  lemma SchedulePasses(r: Runtime, p: Plan, at: nat, row: OutboxRow)
    requires Sane(r) && at / Outbox.DAY == p.day && Outbox.InWindow(at) && at <= LAST_TIME
      && row.planScheduledAt == Some(at)
    ensures ScheduleOk(r, row, Str(r.date(p.day)), Str(r.iso(at)))
  {
    assert Trim(r.date(p.day)) == r.date(p.day) && r.dayOf(r.date(p.day)) == Some(p.day);
    assert Trim(r.iso(at)) == r.iso(at) && r.parse(r.iso(at)) == Some(at) && |r.iso(at)| >= 10;
  }

  lemma ModePasses(r: Runtime, p: Plan, mask: Json)
    requires WellFormed(r, p) && mask.Obj?
    requires Get(mask, MASK_KEYS[0]) == Boolean(p.tasks.about) && Get(mask, MASK_KEYS[1]) == Boolean(p.tasks.video)
    requires Get(mask, MASK_KEYS[2]) == Boolean(p.tasks.agent)
    ensures ModeOk(Str(p.mode), mask)
  {
    ConstantsSolid();
  }

  lemma NumbersPass(r: Runtime, p: Plan)
    requires Sane(r) && WellFormed(r, p)
    ensures NumberOf(r, Number(r.token(5.0))) == Some(5.0)
    ensures PositiveInteger(r, Number(r.token(1.0))) && PositiveInteger(r, Number(r.token(p.clockVersion as real)))
  {
    IntegersPrint(r, 5);
    IntegersPrint(r, 1);
    IntegersPrint(r, p.clockVersion);
  }

  /** The values are the built ones, the two objects up to key order. */
  ghost predicate PartsAre(r: Runtime, p: Plan, at: nat, f: seq<Json>)
    requires |r.sha256(p.channel)| == 64
  {
    && |f| == 13
    && f[0] == Number(r.token(5.0)) && f[1] == Number(r.token(1.0)) && f[2] == Str(JobId(r, p)) && f[3] == Str(p.id)
    && f[4] == Str(p.mode) && f[5] == Str(r.date(p.day)) && f[6] == Str(r.iso(at)) && f[7] == Str(p.channel)
    && Same(f[8], Obj(FromList(Zip(MASK_KEYS, Mask(p)))))
    && Same(f[9], Obj(FromList(Zip(CAPACITY_KEYS, Capacity(r, p)))))
    && f[10] == Number(r.token(p.clockVersion as real)) && f[11] == Str(p.policyVersion)
    && f[12] == Str(p.plannerConfigVersion)
  }

  ghost predicate RowIs(r: Runtime, p: Plan, at: nat, row: OutboxRow)
    requires |r.sha256(p.channel)| == 64 && |r.sha1(p.id)| == 20
  {
    && row.eventId == UuidV5(r, p.id) && row.planId == p.id && row.job == JobId(r, p) && row.queue == QUEUE
    && row.planScheduledAt == Some(at)
  }

  lemma PartsPass(r: Runtime, p: Plan, at: nat, row: OutboxRow, f: seq<Json>)
    requires Sane(r) && WellFormed(r, p) && at / Outbox.DAY == p.day && Outbox.InWindow(at) && at <= LAST_TIME
    requires p.tasks != Outbox.Tasks(false, false, false)
    requires RowIs(r, p, at, row) && PartsAre(r, p, at, f)
    ensures PartsOk(r, row, f)
  {
    IdsPass(r, p, row);
    SchedulePasses(r, p, at, row);
    NumbersPass(r, p);
    MaskPasses(f[8], p);
    ModePasses(r, p, f[8]);
    CapacityPasses(r, f[9], p);
  }

  lemma BuildIs(r: Runtime, p: Plan, at: nat, stored: Json)
    requires |r.sha256(p.channel)| == 64 && |r.sha1(p.id)| == 20
    requires at / Outbox.DAY == p.day && p.tasks != Outbox.Tasks(false, false, false)
    requires PayloadHash(r, Payload(r, p, at)).Some?
    ensures Build(r, p, at).Some?
    ensures
      var row := Build(r, p, at).value.(payload := stored);
      RowIs(r, p, at, row) && row.payload == stored && row.hash == PayloadHash(r, Payload(r, p, at)).value
  {
  }

  lemma RowAccepted(r: Runtime, row: OutboxRow)
    requires ExactKeys(row.payload, BASE_KEYS) && PartsOk(r, row, Parts(row.payload, BASE_KEYS))
    requires PayloadHash(r, row.payload) == Some(row.hash) && Trim(row.hash) == row.hash
    ensures Accepts(r, row)
  {
  }

  /** Whatever a well-formed plan looks like and whenever it is released inside the window on its day:
      the envelope is built, and its row passes the validation, however the stored payload's keys have
      been reordered at any depth. */
  lemma ProducerMeetsConsumer(r: Runtime, p: Plan, at: nat, stored: Json)
    requires Sane(r) && WellFormed(r, p) && at / Outbox.DAY == p.day && Outbox.InWindow(at) && at <= LAST_TIME
    requires p.tasks != Outbox.Tasks(false, false, false)
    requires Keyed(stored) && Same(stored, Payload(r, p, at))
    ensures Build(r, p, at).Some?
    ensures Accepts(r, Build(r, p, at).value.(payload := stored))
  {
    PayloadKeyed(r, p, at);
    SameHash(r, stored, Payload(r, p, at));
    HashSolid(r, CanonicalText(Payload(r, p, at)).value);
    BuildIs(r, p, at, stored);
    var row := Build(r, p, at).value.(payload := stored);
    StoredParts(r, p, at, stored);
    PartsPass(r, p, at, row, Parts(stored, BASE_KEYS));
    RowAccepted(r, row);
  }

  lemma StoredParts(r: Runtime, p: Plan, at: nat, stored: Json)
    requires |r.sha256(p.channel)| == 64 && Same(stored, Payload(r, p, at))
    ensures ExactKeys(stored, BASE_KEYS)
    ensures PartsAre(r, p, at, Parts(stored, BASE_KEYS))
  {
    BaseKeysDistinct();
    StoredList(stored, BASE_KEYS, Values(r, p, at));
    PartsFrom(r, p, at, Parts(stored, BASE_KEYS));
  }

  lemma StoredList(v: Json, keys: seq<Text>, values: seq<Json>)
    requires |keys| == 13 == |values| && DistinctTexts(keys) && Same(v, Obj(FromList(Zip(keys, values))))
    requires forall i | i == 0 || i == 1 || i == 10 :: values[i].Number?
    requires forall i | 2 <= i < 8 || i == 11 || i == 12 :: values[i].Str?
    ensures ExactKeys(v, keys)
    ensures forall i | 0 <= i < 13 && i != 8 && i != 9 :: Parts(v, keys)[i] == values[i]
    ensures Same(Parts(v, keys)[8], values[8]) && Same(Parts(v, keys)[9], values[9])
  {
    StoredObject(v, keys, values);
    ScalarsStored(v, keys, values);
    ValuesScalar(values);
  }

  lemma PartsFrom(r: Runtime, p: Plan, at: nat, f: seq<Json>)
    requires |r.sha256(p.channel)| == 64 && |f| == 13
    requires forall i | 0 <= i < 13 && i != 8 && i != 9 :: f[i] == Values(r, p, at)[i]
    requires Same(f[8], Values(r, p, at)[8]) && Same(f[9], Values(r, p, at)[9])
    ensures PartsAre(r, p, at, f)
  {
  }

  lemma ValuesScalar(values: seq<Json>)
    requires |values| == 13
    requires forall i | i == 0 || i == 1 || i == 10 :: values[i].Number?
    requires forall i | 2 <= i < 8 || i == 11 || i == 12 :: values[i].Str?
    ensures forall i | 0 <= i < 13 && i != 8 && i != 9 :: Scalar(values[i])
  {
    forall i | 0 <= i < 13 && i != 8 && i != 9
      ensures Scalar(values[i])
    {
      if i == 0 || i == 1 || i == 10 {
        assert values[i].Number?;
      } else {
        assert values[i].Str?;
      }
    }
  }
}
