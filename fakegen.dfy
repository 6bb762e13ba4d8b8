/**
 * `fake-data-generator.py`: one JSON Lines file per day, named after the day, whose
 * entries carry sorted random timestamps within the day, a level, a service, a
 * constant message and a random duplicate-free subset of optional fields.
 *
 * Random draws are inputs: `offsets(day, i)` is the `i`-th second-of-day drawn for
 * a day, and `draws(day, i)` what the `i`-th written entry of that day draws.
 */
module FakeLogs {
  import opened Wrappers
  import opened Digits
  import opened Calendar
  import opened TimeFormat
  import opened Json
  import opened Records
  import opened ConfigLayering

  const OptionalFields: seq<string> := ["userId", "errorCode", "requestId", "sessionId", "region"]
  const Levels: seq<string> := ["INFO", "DEBUG", "WARN", "ERROR"]
  const Services: seq<string> := ["auth", "billing", "data-engine", "frontend", "integration"]
  const Regions: seq<string> := ["EU", "US", "APAC", "CH"]
  const Message: string := "Sample log message"
  const BaseKeys: set<string> := {"timestamp", "level", "message", "service"}

  /** The largest second-of-day `random.randint(0, 24*3600 - 1)` draws. */
  const LastSecond: nat := 24 * 3600 - 1

  // ---------------------------------------------------------------------------
  // generate_field_value
  // ---------------------------------------------------------------------------

  /** What `generate_field_value` draws, whichever field asks. */
  datatype FieldDraws = FieldDraws(userNumber: nat, errorNumber: nat, requestUuid: Uuid, sessionUuid: Uuid,
                                   region: string)

  predicate FieldDrawsOk(d: FieldDraws)
  {
    1000 <= d.userNumber <= 9999 && 1 <= d.errorNumber <= 5 && d.region in Regions
  }

  /** `generate_field_value(field_name)`: a string for the five optional fields, `None` for any other name. */
  function FieldValue(name: string, d: FieldDraws): (v: Option<string>)
    ensures v.Some? <==> name in OptionalFields
  {
    if name == "userId" then Some("user_" + Dec(d.userNumber))
    else if name == "errorCode" then Some("ERR" + Pad(d.errorNumber, 3))
    else if name == "requestId" then Some(UuidText(d.requestUuid))
    else if name == "sessionId" then Some(UuidHex(d.sessionUuid)[..16])
    else if name == "region" then Some(d.region)
    else None
  }

  /** The error codes `ERR001` to `ERR005`. */
  const ErrorCodes: seq<string> := ["ERR001", "ERR002", "ERR003", "ERR004", "ERR005"]

  /** `f"ERR{random.randint(1, 5):03d}"` is one of the five codes, and the `n`-th at that. */
  lemma ErrorCodeShape(n: nat)
    requires 1 <= n <= 5
    ensures "ERR" + Pad(n, 3) == ErrorCodes[n - 1]
  {
    if n == 1 {
      assert Pad(1, 3) == "001";
    } else if n == 2 {
      assert Pad(2, 3) == "002";
    } else if n == 3 {
      assert Pad(3, 3) == "003";
    } else if n == 4 {
      assert Pad(4, 3) == "004";
    } else {
      assert Pad(5, 3) == "005";
    }
  }

  /** The documented shape of each optional field's value. */
  lemma FieldValueShapes(d: FieldDraws)
    requires FieldDrawsOk(d)
    ensures var user := FieldValue("userId", d).value;
      |user| > 5 && user[..5] == "user_" && Parse(user[5..], 10) == d.userNumber
    ensures FieldValue("errorCode", d).value in ErrorCodes
    ensures IsUuidText(FieldValue("requestId", d).value)
    ensures |FieldValue("sessionId", d).value| == 16 && IsHexText(FieldValue("sessionId", d).value)
    ensures FieldValue("region", d).value in Regions
  {
    var user := FieldValue("userId", d).value;
    assert user[5..] == Dec(d.userNumber);
    ParseFormat(d.userNumber, 10, 1);
    ErrorCodeShape(d.errorNumber);
  }

  // ---------------------------------------------------------------------------
  // One log entry
  // ---------------------------------------------------------------------------

  /** What writing one entry draws: level, service, the sampled optional fields and their values. */
  datatype EntryDraws = EntryDraws(level: string, service: string, fields: seq<string>, values: FieldDraws)

  /** `random.sample(OPTIONAL_FIELDS, random.randint(0, 5))`: distinct optional fields. */
  predicate EntryDrawsOk(d: EntryDraws)
  {
    && d.level in Levels && d.service in Services && FieldDrawsOk(d.values)
    && |d.fields| <= |OptionalFields|
    && (forall i | 0 <= i < |d.fields| :: d.fields[i] in OptionalFields)
    && (forall i, j | 0 <= i < j < |d.fields| :: d.fields[i] != d.fields[j])
  }

  /** The four keys every entry has; `stamp` is the ISO text of the entry's timestamp. */
  function BaseEntry(stamp: string, d: EntryDraws): Record
  {
    map["timestamp" := Str(stamp), "level" := Str(d.level), "message" := Str(Message),
        "service" := Str(d.service)]
  }

  /** An optional field's value as JSON (`None` would be written as `null`). */
  function FieldJson(name: string, d: FieldDraws): Value
  {
    match FieldValue(name, d)
    case Some(s) => Str(s)
    case None => Null
  }

  /** The entry after `log_entry[field] = generate_field_value(field)` for each sampled field. */
  function WithFields(entry: Record, fields: seq<string>, d: FieldDraws): Record
    decreases |fields|
  {
    if fields == [] then entry
    else WithFields(entry, fields[..|fields| - 1], d)[fields[|fields| - 1] := FieldJson(fields[|fields| - 1], d)]
  }

  lemma {:induction false} WithFieldsLookup(entry: Record, fields: seq<string>, d: FieldDraws)
    ensures forall k :: k in WithFields(entry, fields, d) <==> k in entry || k in fields
    ensures forall f | f in fields :: WithFields(entry, fields, d)[f] == FieldJson(f, d)
    ensures forall k | k in entry && k !in fields :: WithFields(entry, fields, d)[k] == entry[k]
    decreases |fields|
  {
    if fields != [] {
      var init, last := fields[..|fields| - 1], fields[|fields| - 1];
      WithFieldsLookup(entry, init, d);
      assert fields == init + [last];
      assert forall k :: k in fields <==> k in init || k == last;
    }
  }

  /** The loop adding the sampled optional fields to an entry. */
  method AddOptionalFields(entry: Record, fields: seq<string>, d: FieldDraws) returns (result: Record)
    ensures result == WithFields(entry, fields, d)
  {
    result := entry;
    for i := 0 to |fields|
      invariant result == WithFields(entry, fields[..i], d)
    {
      assert fields[..i + 1][..i] == fields[..i];
      result := result[fields[i] := FieldJson(fields[i], d)];
    }
    assert fields[..|fields|] == fields;
  }

  /** The entry written for timestamp `ts`. */
  function EntryOf(ts: Instant, d: EntryDraws): Record
  {
    WithFields(BaseEntry(IsoSeconds(ts), d), d.fields, d.values)
  }

  /** No optional field shadows one of the four base keys. */
  lemma OptionalFieldsAreNotBaseKeys()
    ensures forall f | f in OptionalFields :: f !in BaseKeys
  {
  }

  /**
   * An entry has `timestamp` (the given text), a level from `LEVELS`, the constant
   * message, a service from `SERVICES`, and exactly the sampled optional fields
   * besides, each holding its generated string.
   */
  lemma EntryShape(stamp: string, d: EntryDraws)
    requires EntryDrawsOk(d)
    ensures var e := WithFields(BaseEntry(stamp, d), d.fields, d.values);
      && (forall k :: k in e <==> k in BaseKeys || k in d.fields)
      && "timestamp" in e && e["timestamp"] == Str(stamp)
      && "level" in e && OneOf(e["level"], Levels)
      && "message" in e && e["message"] == Str(Message)
      && "service" in e && OneOf(e["service"], Services)
      && forall f | f in d.fields :: e[f].Str? && Some(e[f].s) == FieldValue(f, d.values)
  {
    var base := BaseEntry(stamp, d);
    assert base.Keys == BaseKeys;
    WithFieldsLookup(base, d.fields, d.values);
    OptionalFieldsAreNotBaseKeys();
    assert forall f | f in d.fields :: f in OptionalFields;
    assert forall f | f in d.fields :: f !in BaseKeys;
  }

  // ---------------------------------------------------------------------------
  // Sorting the day's timestamps (`timestamps.sort()`)
  // ---------------------------------------------------------------------------

  predicate Sorted(s: seq<Instant>)
  {
    forall i, j | 0 <= i < j < |s| :: s[i] <= s[j]
  }

  function Insert(x: Instant, s: seq<Instant>): seq<Instant>
  {
    if s == [] then [x] else if x <= s[0] then [x] + s else [s[0]] + Insert(x, s[1..])
  }

  lemma {:induction false} InsertCounts(x: Instant, s: seq<Instant>)
    ensures multiset(Insert(x, s)) == multiset(s) + multiset{x} && |Insert(x, s)| == |s| + 1
    decreases |s|
  {
    if s != [] && x > s[0] {
      InsertCounts(x, s[1..]);
      assert s == [s[0]] + s[1..];
    }
  }

  lemma {:induction false} InsertSorted(x: Instant, s: seq<Instant>)
    requires Sorted(s)
    ensures Sorted(Insert(x, s))
    ensures Insert(x, s)[0] == x || (s != [] && Insert(x, s)[0] == s[0])
    decreases |s|
  {
    if s != [] && x > s[0] {
      var r := Insert(x, s[1..]);
      InsertSorted(x, s[1..]);
      var t := [s[0]] + r;
      forall i, j | 0 <= i < j < |t|
        ensures t[i] <= t[j]
      {
        if i == 0 {
          assert r[0] <= r[j - 1];
        } else {
          assert t[i] == r[i - 1] && t[j] == r[j - 1];
        }
      }
    }
  }

  /** The day's timestamps, in ascending order. */
  function Sort(s: seq<Instant>): (r: seq<Instant>)
    decreases |s|
  {
    if s == [] then [] else Insert(s[|s| - 1], Sort(s[..|s| - 1]))
  }

  /** Sorting orders the timestamps and neither loses nor adds one. */
  lemma {:induction false} SortSpec(s: seq<Instant>)
    ensures Sorted(Sort(s)) && multiset(Sort(s)) == multiset(s) && |Sort(s)| == |s|
    decreases |s|
  {
    if s != [] {
      var init := s[..|s| - 1];
      SortSpec(init);
      InsertSorted(s[|s| - 1], Sort(init));
      InsertCounts(s[|s| - 1], Sort(init));
      assert s == init + [s[|s| - 1]];
    }
  }

  // ---------------------------------------------------------------------------
  // generate_logs
  // ---------------------------------------------------------------------------

  /** A written day file: its name, its sorted timestamps and its entries, line by line. */
  datatype LogFile = LogFile(name: string, stamps: seq<Instant>, entries: seq<Record>)

  /** `range(n)` is empty for a negative `n`. */
  function Count(n: int): nat
  {
    if n < 0 then 0 else n
  }

  /** `base_date + timedelta(days=k)`. */
  function DayStart(base: Instant, k: nat): Instant
  {
    base + k * MicrosPerDay
  }

  /** `sample_logs_{day.strftime('%Y%m%d')}.jsonl`. */
  function FileName(day: Instant): string
  {
    "sample_logs_" + CompactDate(day) + ".jsonl"
  }

  /** The first `n` timestamps drawn for day `k`, in drawing order. */
  function DayStamps(base: Instant, k: nat, n: nat, offsets: (nat, nat) -> nat): (s: seq<Instant>)
    ensures |s| == n
    ensures forall i | 0 <= i < n :: s[i] == StampAt(DayStart(base, k), offsets(k, i))
  {
    if n == 0 then [] else DayStamps(base, k, n - 1, offsets) + [StampAt(DayStart(base, k), offsets(k, n - 1))]
  }

  /** `day_date + timedelta(seconds=sec_offset)`. */
  function StampAt(day: Instant, second: nat): Instant
  {
    day + second * MicrosPerSecond
  }

  /** The entries written for the sorted timestamps of day `k`. */
  function DayEntries(stamps: seq<Instant>, k: nat, draws: (nat, nat) -> EntryDraws): (s: seq<Record>)
    ensures |s| == |stamps|
  {
    seq(|stamps|, i requires 0 <= i < |stamps| => EntryOf(stamps[i], draws(k, i)))
  }

  function DayFile(base: Instant, k: nat, n: int, offsets: (nat, nat) -> nat, draws: (nat, nat) -> EntryDraws)
    : LogFile
  {
    var stamps := Sort(DayStamps(base, k, Count(n), offsets));
    LogFile(FileName(DayStart(base, k)), stamps, DayEntries(stamps, k, draws))
  }

  /** The timestamp loop of day `k`: `entries_per_day` random seconds of the day, in drawing order. */
  method DrawStamps(base: Instant, k: nat, entriesPerDay: int, offsets: (nat, nat) -> nat)
    returns (timestamps: seq<Instant>)
    ensures timestamps == DayStamps(base, k, Count(entriesPerDay), offsets)
  {
    var day := DayStart(base, k);
    timestamps := [];
    for i := 0 to Count(entriesPerDay)
      invariant timestamps == DayStamps(base, k, i, offsets)
    {
      timestamps := timestamps + [StampAt(day, offsets(k, i))];
    }
  }

  /** The writing loop: one entry per sorted timestamp. */
  method WriteEntries(timestamps: seq<Instant>, k: nat, draws: (nat, nat) -> EntryDraws) returns (entries: seq<Record>)
    ensures entries == DayEntries(timestamps, k, draws)
  {
    entries := [];
    for i := 0 to |timestamps|
      invariant |entries| == i
      invariant forall j | 0 <= j < i :: entries[j] == EntryOf(timestamps[j], draws(k, j))
    {
      var d := draws(k, i);
      var entry := AddOptionalFields(BaseEntry(IsoSeconds(timestamps[i]), d), d.fields, d.values);
      entries := entries + [entry];
    }
  }

  /** One iteration of the day loop of `generate_logs`. */
  method WriteDay(base: Instant, k: nat, entriesPerDay: int, offsets: (nat, nat) -> nat,
                  draws: (nat, nat) -> EntryDraws) returns (file: LogFile)
    ensures file == DayFile(base, k, entriesPerDay, offsets, draws)
  {
    var timestamps := DrawStamps(base, k, entriesPerDay, offsets);
    timestamps := Sort(timestamps);
    var entries := WriteEntries(timestamps, k, draws);
    file := LogFile(FileName(DayStart(base, k)), timestamps, entries);
  }

  /** `generate_logs(num_days, entries_per_day, base_date, output_dir)`, without the writing. */
  method GenerateLogs(numDays: int, entriesPerDay: int, baseDate: Instant, offsets: (nat, nat) -> nat,
                      draws: (nat, nat) -> EntryDraws) returns (files: seq<LogFile>)
    ensures |files| == Count(numDays)
    ensures forall k | 0 <= k < |files| :: files[k] == DayFile(baseDate, k, entriesPerDay, offsets, draws)
  {
    files := [];
    for k := 0 to Count(numDays)
      invariant |files| == k
      invariant forall j | 0 <= j < k :: files[j] == DayFile(baseDate, j, entriesPerDay, offsets, draws)
    {
      var file := WriteDay(baseDate, k, entriesPerDay, offsets, draws);
      files := files + [file];
    }
  }

  /**
   * Day `k`'s file is named after the date `k` days after the base date (and the date
   * reads back from the name), and no two days share a name.
   */
  lemma DayFileNames(base: Instant, k1: nat, k2: nat)
    ensures Fields(DayStart(base, k1)).date == CivilOfDay(DayIndex(base) + k1)
    ensures ParseCompactDate(CompactDate(DayStart(base, k1))) == Some(CivilOfDay(DayIndex(base) + k1))
    ensures FileName(DayStart(base, k1)) == FileName(DayStart(base, k2)) <==> k1 == k2
  {
    var t1, t2 := DayStart(base, k1), DayStart(base, k2);
    CompactDateRoundTrip(t1);
    DayIndexShift(base, k1);
    DayIndexShift(base, k2);
    CompactDateIffSameDay(t1, t2);
    if FileName(t1) == FileName(t2) {
      var c1, c2 := CompactDate(t1), CompactDate(t2);
      assert |c1| == |c2| by {
        assert |FileName(t1)| == 18 + |c1|;
      }
      assert c1 == FileName(t1)[12..12 + |c1|];
      assert c2 == FileName(t2)[12..12 + |c2|];
    }
  }

  lemma DayIndexShift(base: Instant, k: nat)
    ensures DayIndex(DayStart(base, k)) == DayIndex(base) + k
  {
    ClockDaysEarlier(DayStart(base, k), k);
  }

  /** Every drawn timestamp lies within its day when the offsets do. */
  lemma DayStampsWithin(base: Instant, k: nat, n: nat, offsets: (nat, nat) -> nat)
    requires forall i: nat | i < n :: offsets(k, i) <= LastSecond
    ensures forall i | 0 <= i < n ::
      DayStart(base, k) <= DayStamps(base, k, n, offsets)[i] <= DayStart(base, k) + LastSecond * MicrosPerSecond
  {
    forall i | 0 <= i < n
      ensures offsets(k, i) * MicrosPerSecond <= LastSecond * MicrosPerSecond
    {
      MulMonotoneNat(offsets(k, i), LastSecond, MicrosPerSecond);
    }
  }

  /** Sorting keeps every element within bounds all elements were within. */
  lemma SortWithin(s: seq<Instant>, lo: Instant, hi: Instant)
    requires forall i | 0 <= i < |s| :: lo <= s[i] <= hi
    ensures forall i | 0 <= i < |Sort(s)| :: lo <= Sort(s)[i] <= hi
  {
    var r := Sort(s);
    SortSpec(s);
    forall i | 0 <= i < |r|
      ensures lo <= r[i] <= hi
    {
      assert r[i] in multiset(s) by {
        assert r[i] in multiset(r);
      }
      var m :| 0 <= m < |s| && s[m] == r[i];
    }
  }

  /**
   * A day file holds `entries_per_day` entries; its timestamps are sorted, are the
   * drawn ones, lie within the day when the offsets do, and entry `i` is written for
   * timestamp `i`.
   */
  lemma DayFileContents(base: Instant, k: nat, n: int, offsets: (nat, nat) -> nat, draws: (nat, nat) -> EntryDraws)
    requires forall i: nat | i < Count(n) :: offsets(k, i) <= LastSecond
    ensures var file := DayFile(base, k, n, offsets, draws);
      && |file.stamps| == |file.entries| == Count(n)
      && Sorted(file.stamps)
      && multiset(file.stamps) == multiset(DayStamps(base, k, Count(n), offsets))
      && (forall i | 0 <= i < |file.stamps| ::
            DayStart(base, k) <= file.stamps[i] <= DayStart(base, k) + LastSecond * MicrosPerSecond)
      && (forall i | 0 <= i < |file.entries| :: file.entries[i] == EntryOf(file.stamps[i], draws(k, i)))
  {
    var drawn := DayStamps(base, k, Count(n), offsets);
    SortSpec(drawn);
    DayStampsWithin(base, k, Count(n), offsets);
    SortWithin(drawn, DayStart(base, k), DayStart(base, k) + LastSecond * MicrosPerSecond);
  }

  lemma MulMonotoneNat(a: nat, b: nat, c: nat)
    requires a <= b
    ensures a * c <= b * c
  {
    if a < b {
      MulAtLeast(b - a, c);
      assert b * c == (b - a) * c + a * c;
    }
  }

  // ---------------------------------------------------------------------------
  // get_config
  // ---------------------------------------------------------------------------

  const Defaults: Config := map[
    "days" := Int(3),
    "entries" := Int(100),
    "start_date" := Str("2026-01-01"),
    "output_dir" := Str(".")
  ]

  const YamlMapping: KeyMapping := [
    ("days", "days"),
    ("entries", "entries"),
    ("entries_per_day", "entries"),
    ("start_date", "start_date"),
    ("startDate", "start_date"),
    ("output_dir", "output_dir"),
    ("outputDir", "output_dir")
  ]

  /** The four `if args.x is not None: config["x"] = args.x` statements, in order. */
  const CliMapping: KeyMapping := [
    ("days", "days"),
    ("entries", "entries"),
    ("start_date", "start_date"),
    ("output_dir", "output_dir")
  ]

  /** The value a key ends up with: a non-`None` argument, else the last YAML spelling present, else the default. */
  function Resolved(fileConfig: Option<Config>, args: Config, key: string): Value
    requires key in Defaults
  {
    var cli := Pick(args, CliMapping, NotNone, key);
    var yaml := if fileConfig.Some? then Pick(fileConfig.value, YamlMapping, Contained, key) else None;
    if cli.Some? then cli.value else if yaml.Some? then yaml.value else Defaults[key]
  }

  /** `get_config(args)`: `fileConfig` is the loaded YAML mapping when `--config` was given. */
  method GetConfig(fileConfig: Option<Config>, args: Config) returns (config: Config)
    ensures config.Keys == Defaults.Keys
    ensures forall key | key in Defaults :: config[key] == Resolved(fileConfig, args, key)
  {
    assert forall i | 0 <= i < |YamlMapping| :: YamlMapping[i].1 in Defaults;
    assert forall i | 0 <= i < |CliMapping| :: CliMapping[i].1 in Defaults;
    var fromFile := Defaults;
    if fileConfig.Some? {
      fromFile := ApplyLayer(Defaults, fileConfig.value, YamlMapping, Contained);
      LayeredKeys(Defaults, fileConfig.value, YamlMapping, Contained);
    }
    config := ApplyLayer(fromFile, args, CliMapping, NotNone);
    LayeredKeys(fromFile, args, CliMapping, NotNone);
    forall key | key in Defaults
      ensures config[key] == Resolved(fileConfig, args, key)
    {
      if fileConfig.Some? {
        LayeredLookup(Defaults, fileConfig.value, YamlMapping, Contained, key);
      }
      LayeredLookup(fromFile, args, CliMapping, NotNone, key);
    }
  }

  /** Of two YAML spellings, the later one wins: `entries_per_day`, `startDate`, `outputDir`. */
  lemma LaterAliasWins(fileConfig: Config, i: nat)
    requires i < |YamlMapping| && YamlMapping[i].0 in fileConfig
    requires YamlMapping[i].0 != YamlMapping[i].1
    ensures Pick(fileConfig, YamlMapping, Contained, YamlMapping[i].1) == Some(fileConfig[YamlMapping[i].0])
  {
    PickLast(fileConfig, YamlMapping, Contained, i);
  }
}
