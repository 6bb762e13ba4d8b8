# Synthetic log generators, modelled in Dafny

The repository has three scripts that produce synthetic Kubernetes-style log records:

- `generate_partitioned_logs.py` walks a time range minute by minute. For each minute it writes
  `files_per_minute` gzipped JSON Lines files of `records_per_file` records into a
  `year=Y/month=MM/day=DD/hour=HH/minute=mm` directory.
- `send_logs_to_eventhub.py` pushes the same kind of records to an Event Hub. In batch mode it
  fills size-capped batches with events whose timestamps are spread evenly over `[start, end)`.
  In continuous mode it sends one batch per cycle, paced to a target rate, until a duration
  elapses or the user interrupts it. It also merges its configuration (defaults, environment,
  YAML, command line) and picks how to authenticate.
- `fake-data-generator.py` writes one `sample_logs_YYYYMMDD.jsonl` file per day. Each file holds
  entries with sorted random timestamps inside the day and a random subset of optional fields.

The model keeps every counting loop, every formatting rule and every merging rule. It replaces
what the scripts cannot control with inputs:

- Random draws are values handed in. `draws(b, k)`, `offsets(day, i)` and `jitter(m, f, j)` are
  the numbers, choices and UUIDs the run would draw. Each has a predicate stating the ranges the
  source draws from.
- The transport is an oracle `accepts(batch, event)`. It says whether `EventDataBatch.add` takes
  the event into a batch that already holds `batch`.
- The wall clock is a sequence of readings per cycle (`CycleClock`).

Times are `nat` microseconds since 0001-01-01T00:00, as Python's `datetime` counts them. Calendar
fields are derived with Python's own day-ordinal rules.

Files and modules:

- `wrappers.dfy` (Wrappers): `Option`, `Result`.
- `json.dfy` (Json): JSON values and records.
- `digits.dfy` (Digits): zero-padded decimal and hex formatting, with its parser.
- `calendar.dfy` (Calendar): instants, calendar fields, minute keys.
- `timefmt.dfy` (TimeFormat): the `strftime` formats the scripts use, each with a parser that
  inverts it.
- `records.dfy` (Records): `generate_log_record` and `generate_fake_data`. They are parameterised
  by a `Profile` (template, name lists), because the two scripts differ only in those constants.
- `partitioned.dfy` (PartitionedLogs): `generate_partitioned_files`.
- `eventhub.dfy` (EventHubSender): `send_events_to_eventhub` and `send_continuous_stream`.
- `auth.dfy` (EventHubAuth): the decisions of `create_producer_client` and `_get_credential`.
- `layering.dfy` (ConfigLayering): the ordered "copy each present key" loop both `get_config`
  functions are built from.
- `eventhub_config.dfy` (EventHubConfig): `get_config` of the Event Hub sender.
- `fakegen.dfy` (FakeLogs): `generate_field_value`, `generate_logs` and `get_config` of the daily
  generator.

Loops in the source are `while`/`for` loops in Dafny. Each loop method is proved against a
specification function (a sequence comprehension or a recursive definition), and lemmas state
what that function guarantees. Under `Stamp`, batch-mode and continuous-mode timestamps are
instants at least 30 days after the epoch. The back-dated template dates need this, since the
source would raise `OverflowError` below it.

## Model

| member | source | states |
|---|---|---|
| Digits.ParseFormat | scripts/generate_partitioned_logs.py:188-192 | Parsing a number formatted in any base and width gives the number back. |
| Digits.FormatExactWidth | scripts/generate_partitioned_logs.py:189-192 | `:02d` padding of a value below `base^width` is exactly `width` digits long. |
| Digits.FormatInjective | scripts/generate_partitioned_logs.py:188-192 | Different numbers never format to the same digits, whatever the widths. |
| Calendar.CivilRoundTrip | scripts/generate_partitioned_logs.py:188-190 | The date computed for day `n` has Python ordinal `n + 1`, so calendar fields agree with `datetime`'s. |
| Calendar.CivilInjective | scripts/generate_partitioned_logs.py:188-190 | Different day numbers give different dates. |
| Calendar.CivilMonotone | scripts/generate_partitioned_logs.py:188-190 | A later day number gives a lexicographically later (year, month, day). |
| Calendar.KeyMonotone | scripts/generate_partitioned_logs.py:187-193 | Later minutes give strictly greater (Y, M, D, h, m) keys. |
| Calendar.SameKeyIffSameMinute | scripts/generate_partitioned_logs.py:187-193 | Two instants have the same (Y, M, D, h, m) iff they fall in the same minute. |
| Calendar.FieldsDaysEarlier | scripts/generate_partitioned_logs.py:128 | Subtracting `k` whole days keeps the time of day and moves the date `k` days back. |
| TimeFormat.IsoMicrosRoundTrip | scripts/generate_partitioned_logs.py:147 | `%Y-%m-%dT%H:%M:%S.%f0Z` parses back to all calendar fields, microseconds included. |
| TimeFormat.IsoMicrosInjective | scripts/generate_partitioned_logs.py:147 | Two record timestamps are the same text iff they are the same instant. |
| TimeFormat.DateTimeTextRoundTrip | scripts/fake-data-generator.py:70 | `%Y-%m-%dT%H:%M:%S` parses back to the fields, with the microseconds dropped. |
| TimeFormat.PartitionPathRoundTrip | scripts/generate_partitioned_logs.py:187-193 | The partition path parses back to the cursor's minute key, with the year unpadded and the rest padded to 2 digits. |
| TimeFormat.PartitionPathIffSameMinute | scripts/generate_partitioned_logs.py:187-193 | Two cursors get the same partition path iff they are in the same calendar minute. |
| TimeFormat.CompactDateRoundTrip | scripts/fake-data-generator.py:56 | `%Y%m%d` parses back to the date. |
| TimeFormat.CompactDateIffSameDay | scripts/fake-data-generator.py:56 | Two instants give the same `%Y%m%d` iff they are on the same day. |
| Records.UuidHex | scripts/generate_partitioned_logs.py:134 | `uuid4().hex` is 32 lower-case hex digits. |
| Records.UuidText | scripts/generate_partitioned_logs.py:125 | `str(uuid4())` is 36 characters: hyphens at positions 8, 13, 18 and 23 and lower-case hex digits elsewhere. Dropping the hyphens gives `uuid4().hex`. |
| Records.DaysBeforeShift | scripts/generate_partitioned_logs.py:128 | A template date is the `.0000000Z` text of the instant `k` days before the record. |
| Records.FakeDataChoices | scripts/generate_partitioned_logs.py:106-138 | Every chosen field of `data` comes from its list, and `templateCode` and `templateName` come from the same index. |
| Records.FakeDataTexts | scripts/generate_partitioned_logs.py:117-135 | `documentName` is `document-` plus 8 hex digits plus `.pdf`, `serialNumber` has the 8-4-4-4-12 hyphenated hex layout, `traceId` is 32 hex digits, `traceParentId` 16, and `infondsVersion` is `4.<1-5>.<1000-4000>`. |
| Records.DaysBeforeBackDated | scripts/generate_partitioned_logs.py:128 | A date 1 to 30 days before the record is back-dated by that many whole days. |
| Records.FakeDataDates | scripts/generate_partitioned_logs.py:128-132 | Both template dates lie 1 to 30 days before the record timestamp. |
| Records.FakeDataWellFormed | scripts/generate_partitioned_logs.py:99-141 | The whole `data` block is well formed: choices, texts, numeric ranges (`timeTotal` 200-5000, `templateVersion` 1-50, `documentContentLength` 10000-500000, time splits derived from `timeTotal`) and dates. |
| Records.PayloadJsonKeys | scripts/generate_partitioned_logs.py:108-141 | `data` has exactly the 32 keys of the literal. |
| Records.OverwriteShape | scripts/generate_partitioned_logs.py:146-153 | The record has the template's keys plus `timestamp` and `data`, and every template field not overwritten is unchanged. |
| Records.OverwriteFields | scripts/generate_partitioned_logs.py:147-153 | The overwritten fields hold the values assigned to them. |
| Records.DrawnRecordIdentity | scripts/generate_partitioned_logs.py:148-152 | `namespace`, `pod` and `severity` come from their lists, `podIp` is `10.a.b.c` with a, b, c in 1-255, and `host` has the `aks-applications-N-vmssM` shape. |
| Records.DrawnRecordStamp | scripts/generate_partitioned_logs.py:147 | `timestamp` is the 6-digit-microsecond text followed by `0Z`, and `data` is built for the same instant. |
| Records.DrawnRecordWellFormed | scripts/generate_partitioned_logs.py:144-154 | A generated record is well formed in shape, identity fields, timestamp and data. |
| Records.GenerateLogRecord | scripts/send_logs_to_eventhub.py:172-182 | The step-by-step overwrite of a template copy builds exactly the specified record. |
| PartitionedLogs.IterationsExact | scripts/generate_partitioned_logs.py:185-217 | The cursor `start + k min` is before `end` iff `k` is less than the iteration count: ⌈(end-start)/60 s⌉ when `end > start`, else 0. |
| PartitionedLogs.CursorMinute | scripts/generate_partitioned_logs.py:217 | Iteration `m`'s cursor is `m` minutes after the start's minute. |
| PartitionedLogs.PartitionPathsIncreasing | scripts/generate_partitioned_logs.py:187-217 | Later iterations get strictly greater minute keys, each path parses to its cursor's key, and no two iterations share a path. |
| PartitionedLogs.PartitionRecordWellFormed | scripts/generate_partitioned_logs.py:197-211 | File `f` of minute `m` carries its UUID name and exactly `records_per_file` records, each a well-formed record for its jittered time. |
| PartitionedLogs.PartitionRecordStamp | scripts/generate_partitioned_logs.py:203-207 | With every jitter drawn within 59 s, record `j` of file `f` at step `m` is stamped with the ISO text of an instant in `[cursor, cursor + 59 s]`. |
| PartitionedLogs.AlignedRecordsInPartition | scripts/generate_partitioned_logs.py:205 | With a minute-aligned start and jitter within 59 s, every record lies in the minute its partition names. |
| PartitionedLogs.UnalignedRecordOutsidePartition | scripts/generate_partitioned_logs.py:175-205 | With a start 30 s into a minute, a record jittered by 45 s lands in the next minute's path, not its partition's. |
| PartitionedLogs.UniformCounts | scripts/generate_partitioned_logs.py:213-214 | Partitions of uniform size hold `n × files_per_minute` files and `n × files_per_minute × records_per_file` records. |
| PartitionedLogs.PartitionsCounts | scripts/generate_partitioned_logs.py:197-214 | The files and records the run writes number `iterations × files_per_minute` and that times `records_per_file`. |
| PartitionedLogs.GeneratePartitionedFiles | scripts/generate_partitioned_logs.py:157-225 | Returns `total_files = iterations × files_per_minute` and `total_records = total_files × records_per_file`, and writes exactly the specified partitions. |
| PartitionedLogs.WritePartitions | scripts/generate_partitioned_logs.py:185-217 | The cursor loop produces exactly the specified partitions and totals for any template. |
| PartitionedLogs.WriteMinute | scripts/generate_partitioned_logs.py:197-214 | One minute's file loop writes the specified files and advances both counters. |
| PartitionedLogs.WriteFile | scripts/generate_partitioned_logs.py:202-206 | The record loop appends the specified records in order. |
| EventHubSender.FlattenAppend | scripts/send_logs_to_eventhub.py:349-351 | Sending one more batch adds its events at the end of everything sent. |
| EventHubSender.DefaultTotal | scripts/send_logs_to_eventhub.py:307-310 | Without `total_events`, the total is ⌊2 × seconds in `[start, end)`⌋, truncated toward zero for a reversed range. |
| EventHubSender.EventTime | scripts/send_logs_to_eventhub.py:333-334 | Event `k`'s timestamp `start + (end-start)·k/total` lies between `start` and `end`. |
| EventHubSender.EventTimeFirst | scripts/send_logs_to_eventhub.py:333-334 | The first event is stamped `start`. |
| EventHubSender.EventTimeLast | scripts/send_logs_to_eventhub.py:333-334 | Position `total`, which the loop stops before, is exactly `end`. |
| EventHubSender.EventTimeBeforeEnd | scripts/send_logs_to_eventhub.py:333-334 | When `start < end`, every event the loop builds (`k < total`) is stamped strictly before `end` in the model. |
| EventHubSender.EventTimeMonotone | scripts/send_logs_to_eventhub.py:333-334 | Event timestamps are non-decreasing in the event index. |
| EventHubSender.BatchesExtend | scripts/send_logs_to_eventhub.py:322-351 | A correct batch appended after correct batches keeps the whole history correct. |
| EventHubSender.SendBatches | scripts/send_logs_to_eventhub.py:318-369 | Ends with `sent_count = total` (0 for a negative total), equal to the sum of the sent batch sizes, and `batch_count` = the number of sends. Every sent batch holds 1 to `events_per_batch` accepted events, built in order, and a batch stops short only when the next event is rejected. |
| EventHubSender.EventBuilder | scripts/send_logs_to_eventhub.py:332-337 | The builder is defined for every event index below the total. |
| EventHubSender.SendEventsToEventHub | scripts/send_logs_to_eventhub.py:286-369 | The batch-mode run with the contoso template has the `SendBatches` guarantees for the default or given total. |
| EventHubSender.SentEventBuilt | scripts/send_logs_to_eventhub.py:327-343 | Event `i` of batch `b` is event number `(events before b) + i` of the run, built for that index. |
| EventHubSender.BuilderWellFormed | scripts/send_logs_to_eventhub.py:333-337 | Event `k` is a well-formed record stamped with its interpolated time. |
| EventHubSender.RejectedEventRetried | scripts/send_logs_to_eventhub.py:340-346 | An event rejected by a batch that was not full is rebuilt as the first event of the next batch, with the same index and so the same timestamp. |
| EventHubSender.SleepTime | scripts/send_logs_to_eventhub.py:417-422 | The sleep is never negative and brings `elapsed + sleep` to at least the target. It is positive iff the cycle was faster than the target, and then lands exactly on it. |
| EventHubSender.FillCycle | scripts/send_logs_to_eventhub.py:403-410 | A cycle's batch holds the cycle's events in order, each accepted, at most `events_per_batch` of them, and is cut short only by a rejection. |
| EventHubSender.StreamCycles | scripts/send_logs_to_eventhub.py:394-432 | Every cycle sends its batch. After the loop, `sent_count = batch_count × events_per_batch` even for truncated batches. Sleeps follow the pacing rule. The loop stops at the first cycle whose check passes the duration, never when the duration is `None` or `0`, and otherwise only by interruption. A zero rate fails after one send. |
| EventHubSender.FlattenBound | scripts/send_logs_to_eventhub.py:404-414 | Events actually sent are at most `cycles × cap`, with equality iff no batch was cut short. |
| EventHubSender.StreamCountBound | scripts/send_logs_to_eventhub.py:404-414 | The reported `sent_count` overstates the events really sent unless every batch was full. |
| EventHubSender.StreamBuilderWellFormed | scripts/send_logs_to_eventhub.py:405 | Each streamed event is a well-formed record stamped with the clock reading it was built at. |
| EventHubSender.SendContinuousStream | scripts/send_logs_to_eventhub.py:732-737 | The continuous run uses `min(events_per_batch, 10)` per cycle and has the `StreamCycles` guarantees. |
| EventHubAuth.Lower | scripts/send_logs_to_eventhub.py:258 | Lower-casing keeps the length and maps each character on its own. |
| EventHubAuth.LowerIdempotent | scripts/send_logs_to_eventhub.py:258 | Lower-casing twice is lower-casing once. |
| EventHubAuth.GetCredential | scripts/send_logs_to_eventhub.py:245-283 | Succeeds iff the lower-cased method is one of the five names and, for `client_secret`, all three secrets are non-empty. The credential then answers to that method name. |
| EventHubAuth.GetCredentialIgnoresCase | scripts/send_logs_to_eventhub.py:258 | The method name is case-insensitive. |
| EventHubAuth.EffectiveMethod | scripts/send_logs_to_eventhub.py:218-219 | The legacy flag with no method means `"default"`, and a given method is kept. |
| EventHubAuth.CreateProducerClientChoice | scripts/send_logs_to_eventhub.py:214-242 | Entra ID is chosen iff a method (or the legacy flag) and a namespace are given and the credential is valid. Otherwise a connection string is used if present, and an error in every other case. The hub name passes through, and websockets select AMQP over WebSocket. |
| EventHubAuth.LegacyFlagMeansDefault | scripts/send_logs_to_eventhub.py:218-230 | The legacy flag with a namespace yields `DefaultAzureCredential`, whatever else is set. |
| ConfigLayering.LayeredLookup | scripts/send_logs_to_eventhub.py:471-544 | After an overlay, a key holds the value of the last present source key mapped to it; otherwise it keeps its old value. |
| ConfigLayering.LayeredKeys | scripts/send_logs_to_eventhub.py:517-519 | An overlay onto the defaults never adds or removes keys. |
| ConfigLayering.PickLast | scripts/send_logs_to_eventhub.py:517-519 | A present entry with no later entry for the same key decides that key. |
| ConfigLayering.PickNone | scripts/send_logs_to_eventhub.py:517-519 | With no present entry for a key, the overlay leaves it alone. |
| ConfigLayering.ApplyLayer | scripts/send_logs_to_eventhub.py:541-544 | The overlay loop computes the specified overlay. |
| EventHubConfig.GetConfig | scripts/send_logs_to_eventhub.py:452-546 | Every default key, and only those, ends up as: a non-`None` CLI value, else the last YAML spelling present, else a non-empty environment value, else the default. |
| EventHubConfig.CamelCaseAliasWins | scripts/send_logs_to_eventhub.py:480-519 | When both YAML spellings are present, the camelCase one (listed later) wins. |
| FakeLogs.FieldValue | scripts/fake-data-generator.py:34-47 | A value is generated iff the name is one of the five optional fields. |
| FakeLogs.ErrorCodeShape | scripts/fake-data-generator.py:39 | `ERR{n:03d}` for n in 1-5 is the n-th of `ERR001`…`ERR005`. |
| FakeLogs.FieldValueShapes | scripts/fake-data-generator.py:36-45 | `userId` is `user_` and a number that reads back as the drawn 1000-9999. `errorCode` is one of `ERR001`…`ERR005`. `requestId` has the 8-4-4-4-12 hyphenated lower-case hex layout. `sessionId` is 16 hex digits. `region` is from `REGIONS`. |
| FakeLogs.WithFieldsLookup | scripts/fake-data-generator.py:77-78 | After the optional-field loop, the keys are the base keys plus the sampled fields, each sampled field holds its value, and the rest are unchanged. |
| FakeLogs.AddOptionalFields | scripts/fake-data-generator.py:77-78 | The loop computes the specified entry. |
| FakeLogs.EntryShape | scripts/fake-data-generator.py:69-78 | An entry has exactly `timestamp`, `level` ∈ `LEVELS`, the constant `message`, `service` ∈ `SERVICES`, and the sampled distinct optional fields, each holding its generated string. |
| FakeLogs.InsertSorted | scripts/fake-data-generator.py:64 | Inserting into a sorted list keeps it sorted. |
| FakeLogs.InsertCounts | scripts/fake-data-generator.py:64 | Inserting adds exactly that one element. |
| FakeLogs.SortSpec | scripts/fake-data-generator.py:64 | `timestamps.sort()` orders the timestamps and neither loses nor adds one. |
| FakeLogs.DrawStamps | scripts/fake-data-generator.py:59-63 | The timestamp loop draws `entries_per_day` instants (none for a negative count), the `i`-th being the day start plus the `i`-th drawn second. |
| FakeLogs.WriteEntries | scripts/fake-data-generator.py:67-80 | The writing loop produces one entry per sorted timestamp, in order, entry `i` built for timestamp `i`. |
| FakeLogs.DayStampsWithin | scripts/fake-data-generator.py:61-62 | With offsets up to 86399 s, every drawn timestamp lies in `[day, day + 86399 s]`. |
| FakeLogs.SortWithin | scripts/fake-data-generator.py:64 | Sorting keeps every timestamp inside the bounds the drawn ones were in. |
| FakeLogs.WriteDay | scripts/fake-data-generator.py:55-80 | One day's loops produce the specified file: name, sorted timestamps, entries. |
| FakeLogs.GenerateLogs | scripts/fake-data-generator.py:50-81 | Exactly `num_days` files (none for a negative count), file `i` being day `i`'s. |
| FakeLogs.DayFileNames | scripts/fake-data-generator.py:55-56 | File `i` is named after the date `i` days after the base date, the date reads back from the name, and no two days share a name. |
| FakeLogs.DayIndexShift | scripts/fake-data-generator.py:55 | Adding `i` days to the base date moves its day number by `i`. |
| FakeLogs.DayFileContents | scripts/fake-data-generator.py:59-80 | A day file has exactly `entries_per_day` entries. Its timestamps are the drawn ones, sorted, within `[day, day + 86399 s]`, and entry `i` is written for timestamp `i`. |
| FakeLogs.GetConfig | scripts/fake-data-generator.py:122-158 | Every default key, and only those, ends up as: a non-`None` CLI value, else the last YAML spelling present, else the default. |
| FakeLogs.LaterAliasWins | scripts/fake-data-generator.py:135-146 | With both spellings in the YAML, the later one wins: `entries_per_day`, `startDate`, `outputDir`. |

## Left out

- Floating point. Timestamps are interpolated with integer floor division on microseconds,
  where the source multiplies a `timedelta` by a float. The in-minute jitter of the partitioned
  generator is drawn as integer microseconds up to 59 s, not `uniform(0, 59)` seconds. The time
  splits of `data` are drawn as integers within their bounds. The continuous-mode clock and rate
  are exact reals, so float rounding is not modelled.
- Randomness: draws are inputs with range predicates, and the uniformity of `random` and `uuid`
  is not modelled. A UUID is any 128-bit value; the version bits of `uuid4` are not modelled.
- I/O: `gzip.open`, `open`, `mkdir`, `os.makedirs`, JSON serialisation and key order, YAML
  loading, `argparse`, `print` and the progress lines. A written file is its name plus the records
  it would hold, one per line. A YAML file that is not a mapping is not modelled.
- The wall clock and `time.sleep`: clock readings are inputs, and sleeps are returned, not slept.
  `delay_between_batches` only sleeps, so it is not modelled.
- `realtime_mode` of `send_events_to_eventhub`: `main` never sets it.
- The Azure SDK: credentials and clients are plain values, `create_batch`, `add` and
  `send_batch` are the `accepts` oracle plus a log of sent batches, and `producer.close()` is not
  modelled.
- EventHubSender.SendBatches: `send_batch` is modelled as infallible. In the source a failed send
  raises out of both loops, and the run ends without reporting `sent_count`. That ending is not
  modelled. The same holds for `FillCycle` and `StreamCycles` in continuous mode.
- EventHubSender.EventTimeBeforeEnd: the source multiplies a `timedelta` by a float and rounds
  to the nearest microsecond. When the range is shorter than the spacing of the events, it can
  stamp an event `end` (a 1 µs range with three events stamps event 2 at `end`). The model
  rounds down, so in the model an event is never stamped `end`.
- `KeyboardInterrupt` is modelled as `interruptAfter`: the run stops after that many cycles, at a
  cycle boundary. An interrupt inside a cycle is not modelled.
- EventHubSender.StreamCycles: a zero `events_per_second` raises `ZeroDivisionError` after the
  first send. The model returns `RateUndefined` at that point instead of raising.
- `OverflowError` for dates before year 1 or after year 9999: instants are unbounded naturals.
  Records require an instant at least 30 days after the epoch, and `%Y` is written as four
  zero-padded digits (glibc writes years below 1000 unpadded).
- `main` of each script: argument parsing, `datetime.fromisoformat` and `strptime` on the
  configured strings, the mode dispatch and validation messages.
- `str.lower()` is modelled on ASCII letters only.
- `notebooks/eventhub_to_kusto_streaming.py` is not part of this model. It wires Spark, the Event
  Hubs connector and a Kusto sink together, with no logic of its own.
- EventHubSender.BuilderWellFormed: it describes the event built for an index. That a sent event
  is that event is stated separately by `SentEventBuilt`, and the two are not combined into one
  lemma about sent batches.
- EventHubSender.SendBatches: it requires that an empty batch accepts any event and that
  `events_per_batch > 0` when there is something to send. Otherwise the source's outer loop never
  ends.
- FakeLogs.EntryShape: it is stated for the text in the `timestamp` key. That this text is
  `%Y-%m-%dT%H:%M:%S` of entry `i`'s timestamp comes from `EntryOf` together with
  `DayFileContents`.
- FakeLogs.SortSpec: `timestamps.sort()` is in place in the source, but it is modelled as a
  function on the list's value.
