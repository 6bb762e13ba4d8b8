/**
 * `generate_partitioned_logs.py`: a cursor walks `[start, end)` a minute at a time;
 * each step writes `files_per_minute` files of `records_per_file` records into the
 * `year=/month=/day=/hour=/minute=` directory of the cursor.
 */
module PartitionedLogs {
  import opened Calendar
  import opened TimeFormat
  import opened Json
  import opened Records
  import opened Wrappers

  const Template: Record := map[
    "category" := Object(map[]),
    "container" := Str("fabrikam-orders"),
    "containerId" := Str("containerd://a9f1c3b2d7e84c0aa4b2f9f8b1a4d3e29f0c1b2a3c4d5e6f708192a3b4c5d6e7"),
    "containerImage" := Str("crfabrikamprod.azurecr.io/ordersvc:5.1.7421"),
    "containerImageId" := Str("crfabrikamprod.azurecr.io/ordersvc@sha256:e3b0c44298fc1c149afbf4c8996fb92427ae41e4649b934ca495991b7852b855"),
    "file" := Str("/var/log/pods/prod-fabrikam_fabrikam-orders-api-7d8c9fbbcc-9k2lm_b1a2c3d4-e5f6-47a8-b9c0-1d2e3f4a5b6c/fabrikam-orders/0.log"),
    "host" := Str("aks-apps-92c1d2ab-vmss0001ab"),
    "namespace" := Str("prod-fabrikam"),
    "pod" := Str("fabrikam-orders-api-7d8c9fbbcc-9k2lm"),
    "podIp" := Str("10.7.24.36"),
    "podOwner" := Str("ReplicaSet/fabrikam-orders-api-7d8c9fbbcc"),
    "resource" := Str("aks-fabrikam-eus"),
    "resourceGroup" := Str("rg-fabrikam-prod-eus"),
    "severity" := Str("info"),
    "source" := Str("kubernetes"),
    "subscription" := Str("9f1c3b2d-7e84-4c0a-a4b2-f9f8b1a4d3e2"),
    "type" := Str("pod")
  ]

  const Namespaces: seq<string> := ["int", "prd", "dev", "stg"]

  const Pods: seq<string> := [
    "fabrikam-orders-api-7d8c9fbbcc-9k2lm",
    "fabrikam-orders-api-7d8c9fbbcc-abc12",
    "fabrikam-orders-worker-7f8d9c-xyz99",
    "fabrikam-orders-scheduler-3e4f5g-def45"
  ]

  const FileProfile: Profile :=
    Profile(Template, Clients, DocumentDefinitions, TemplateCodes, TemplateNames, Locales, Namespaces, Pods,
            LogTypes, Severities, Identifiers)

  /** The largest in-minute jitter, `random.uniform(0, 59)` seconds. */
  const MaxJitter: nat := 59 * MicrosPerSecond

  /** Every record's jitter is drawn from `[0, 59]` seconds. */
  ghost predicate JitterOk(jitter: (nat, nat, nat) -> nat)
  {
    forall m: nat, f: nat, j: nat :: jitter(m, f, j) <= MaxJitter
  }

  /** One `<uuid>.json.gz` file: its name and its records, one JSON line each, in order. */
  datatype DataFile = DataFile(name: string, records: seq<Record>)

  /** One cursor step: the partition directory and the files written into it. */
  datatype Partition = Partition(path: string, files: seq<DataFile>)

  /** How many times the cursor loop runs (`IterationsExact` says which steps stay before `end`). */
  function Iterations(start: Instant, end: Instant): nat
  {
    if end <= start then 0 else (end - start - 1) / MicrosPerMinute + 1
  }

  /** The cursor at step `k`. */
  function Cursor(start: Instant, k: nat): Instant
  {
    start + k * MicrosPerMinute
  }

  /** Step `k` of the cursor lies before `end` exactly when `k` is below the iteration count. */
  lemma IterationsExact(start: Instant, end: Instant, k: nat)
    ensures Cursor(start, k) < end <==> k < Iterations(start, end)
  {
    if start < end {
      var q := (end - start - 1) / MicrosPerMinute;
      assert q * MicrosPerMinute <= end - start - 1 < (q + 1) * MicrosPerMinute;
      if k <= q {
        assert k * MicrosPerMinute <= q * MicrosPerMinute;
      } else {
        assert k * MicrosPerMinute >= (q + 1) * MicrosPerMinute;
      }
    }
  }

  /** `range(n)` is empty for negative `n`. */
  function Count(n: int): nat
  {
    if n < 0 then 0 else n
  }

  /** The time of record `j` of file `f` at step `m`: the cursor plus that record's jitter. */
  function RecordTime(start: Instant, m: nat, f: nat, j: nat, jitter: (nat, nat, nat) -> nat): Instant
  {
    Cursor(start, m) + jitter(m, f, j)
  }

  /** `f"{file_id}.json.gz"`. */
  function FileName(id: Uuid): string
  {
    UuidText(id) + ".json.gz"
  }

  /** The first `n` records of file `f` at step `m`, in the order they are written. */
  function FileRecords(template: Record, start: Instant, m: nat, f: nat, n: nat,
                       jitter: (nat, nat, nat) -> nat, draws: (nat, nat, nat) -> RecordDraws): seq<Record>
    requires Datable(start)
  {
    seq(n, j requires 0 <= j => DrawnRecord(template, RecordTime(start, m, f, j, jitter), draws(m, f, j)))
  }

  /** The first `n` files of step `m`, each named by its `uuid4()` and holding `perFile` records. */
  function MinuteFiles(template: Record, start: Instant, m: nat, n: nat, perFile: nat,
                       jitter: (nat, nat, nat) -> nat, draws: (nat, nat, nat) -> RecordDraws,
                       fileIds: (nat, nat) -> Uuid): seq<DataFile>
    requires Datable(start)
  {
    seq(n, f requires 0 <= f =>
      DataFile(FileName(fileIds(m, f)), FileRecords(template, start, m, f, perFile, jitter, draws)))
  }

  /** The partitions of the first `n` cursor steps. */
  function Partitions(template: Record, start: Instant, n: nat, perMinute: nat, perFile: nat,
                      jitter: (nat, nat, nat) -> nat, draws: (nat, nat, nat) -> RecordDraws,
                      fileIds: (nat, nat) -> Uuid): seq<Partition>
    requires Datable(start)
  {
    seq(n, m requires 0 <= m =>
      Partition(PartitionPath(Cursor(start, m)), MinuteFiles(template, start, m, perMinute, perFile, jitter, draws, fileIds)))
  }

  lemma FileRecordsStep(template: Record, start: Instant, m: nat, f: nat, n: nat,
                        jitter: (nat, nat, nat) -> nat, draws: (nat, nat, nat) -> RecordDraws)
    requires Datable(start)
    ensures FileRecords(template, start, m, f, n + 1, jitter, draws)
            == FileRecords(template, start, m, f, n, jitter, draws)
               + [DrawnRecord(template, RecordTime(start, m, f, n, jitter), draws(m, f, n))]
  {
  }

  lemma MinuteFilesStep(template: Record, start: Instant, m: nat, n: nat, perFile: nat,
                        jitter: (nat, nat, nat) -> nat, draws: (nat, nat, nat) -> RecordDraws,
                        fileIds: (nat, nat) -> Uuid)
    requires Datable(start)
    ensures MinuteFiles(template, start, m, n + 1, perFile, jitter, draws, fileIds)
            == MinuteFiles(template, start, m, n, perFile, jitter, draws, fileIds)
               + [DataFile(FileName(fileIds(m, n)), FileRecords(template, start, m, n, perFile, jitter, draws))]
  {
  }

  lemma PartitionsStep(template: Record, start: Instant, n: nat, perMinute: nat, perFile: nat,
                       jitter: (nat, nat, nat) -> nat, draws: (nat, nat, nat) -> RecordDraws,
                       fileIds: (nat, nat) -> Uuid)
    requires Datable(start)
    ensures Partitions(template, start, n + 1, perMinute, perFile, jitter, draws, fileIds)
            == Partitions(template, start, n, perMinute, perFile, jitter, draws, fileIds)
               + [Partition(PartitionPath(Cursor(start, n)),
                            MinuteFiles(template, start, n, perMinute, perFile, jitter, draws, fileIds))]
  {
  }

  /** Step `m` of the cursor falls `m` minutes after the start's minute. */
  lemma {:induction false} CursorMinute(start: Instant, m: nat)
    ensures MinuteIndex(Cursor(start, m)) == MinuteIndex(start) + m
  {
    if m > 0 {
      CursorMinute(start, m - 1);
      NextMinute(Cursor(start, m - 1));
      assert Cursor(start, m) == Cursor(start, m - 1) + MicrosPerMinute;
    }
  }

  /**
   * The partition directories follow the cursor: a later step writes into a strictly
   * later minute key, so no two steps share a directory.
   */
  lemma PartitionPathsIncreasing(template: Record, start: Instant, n: nat, perMinute: nat, perFile: nat,
                                 jitter: (nat, nat, nat) -> nat, draws: (nat, nat, nat) -> RecordDraws,
                                 fileIds: (nat, nat) -> Uuid, m1: nat, m2: nat)
    requires Datable(start) && m1 < m2 < n
    ensures var ps := Partitions(template, start, n, perMinute, perFile, jitter, draws, fileIds);
      && ParsePartitionPath(ps[m1].path) == Some(KeyOf(Cursor(start, m1)))
      && ParsePartitionPath(ps[m2].path) == Some(KeyOf(Cursor(start, m2)))
      && KeyLess(KeyOf(Cursor(start, m1)), KeyOf(Cursor(start, m2)))
      && ps[m1].path != ps[m2].path
  {
    CursorMinute(start, m1);
    CursorMinute(start, m2);
    KeyMonotone(MinuteIndex(Cursor(start, m1)), MinuteIndex(Cursor(start, m2)));
    PartitionPathRoundTrip(Cursor(start, m1));
    PartitionPathRoundTrip(Cursor(start, m2));
  }

  /**
   * Record `j` of file `f` at step `m`: the file carries its `uuid4()` name and
   * `records_per_file` records, and the record is a well-formed log record for its
   * time whenever its draws lie in the ranges the script draws from.
   */
  lemma PartitionRecordWellFormed(profile: Profile, start: Instant, n: nat, perMinute: nat, perFile: nat,
                                  jitter: (nat, nat, nat) -> nat, draws: (nat, nat, nat) -> RecordDraws,
                                  fileIds: (nat, nat) -> Uuid, m: nat, f: nat, j: nat)
    requires Datable(start) && m < n && f < perMinute && j < perFile
    requires RecordDrawsOk(profile, draws(m, f, j))
    ensures var file := Partitions(profile.template, start, n, perMinute, perFile, jitter, draws, fileIds)[m].files[f];
      && file.name == FileName(fileIds(m, f))
      && |file.records| == perFile
      && WellFormedRecord(profile, file.records[j], RecordTime(start, m, f, j, jitter))
  {
    PartitionRecord(profile.template, start, n, perMinute, perFile, jitter, draws, fileIds, m, f, j);
    DrawnRecordWellFormed(profile, RecordTime(start, m, f, j, jitter), draws(m, f, j));
  }

  /**
   * Record `j` of file `f` at step `m` is stamped with the ISO text of an instant no
   * earlier than that step's cursor and at most 59 seconds after it.
   */
  lemma PartitionRecordStamp(template: Record, start: Instant, n: nat, perMinute: nat, perFile: nat,
                             jitter: (nat, nat, nat) -> nat, draws: (nat, nat, nat) -> RecordDraws,
                             fileIds: (nat, nat) -> Uuid, m: nat, f: nat, j: nat)
    requires Datable(start) && JitterOk(jitter) && m < n && f < perMinute && j < perFile
    ensures var file := Partitions(template, start, n, perMinute, perFile, jitter, draws, fileIds)[m].files[f];
      var t := RecordTime(start, m, f, j, jitter);
      && Cursor(start, m) <= t <= Cursor(start, m) + MaxJitter
      && |file.records| == perFile
      && "timestamp" in file.records[j] && file.records[j]["timestamp"] == Str(IsoMicros(t))
  {
    PartitionRecord(template, start, n, perMinute, perFile, jitter, draws, fileIds, m, f, j);
    DrawnRecordTimestamp(template, RecordTime(start, m, f, j, jitter), draws(m, f, j));
  }

  /** Record `j` of file `f` at step `m` is the record drawn for its time, in a file of its own name. */
  lemma PartitionRecord(template: Record, start: Instant, n: nat, perMinute: nat, perFile: nat,
                        jitter: (nat, nat, nat) -> nat, draws: (nat, nat, nat) -> RecordDraws,
                        fileIds: (nat, nat) -> Uuid, m: nat, f: nat, j: nat)
    requires Datable(start) && m < n && f < perMinute && j < perFile
    ensures var file := Partitions(template, start, n, perMinute, perFile, jitter, draws, fileIds)[m].files[f];
      && file.name == FileName(fileIds(m, f))
      && file.records == FileRecords(template, start, m, f, perFile, jitter, draws)
      && |file.records| == perFile
      && file.records[j] == DrawnRecord(template, RecordTime(start, m, f, j, jitter), draws(m, f, j))
  {
    PartitionFiles(template, start, n, perMinute, perFile, jitter, draws, fileIds, m);
    MinuteFile(template, start, m, perMinute, perFile, jitter, draws, fileIds, f);
  }

  lemma PartitionFiles(template: Record, start: Instant, n: nat, perMinute: nat, perFile: nat,
                       jitter: (nat, nat, nat) -> nat, draws: (nat, nat, nat) -> RecordDraws,
                       fileIds: (nat, nat) -> Uuid, m: nat)
    requires Datable(start) && m < n
    ensures Partitions(template, start, n, perMinute, perFile, jitter, draws, fileIds)[m].files
            == MinuteFiles(template, start, m, perMinute, perFile, jitter, draws, fileIds)
  {
  }

  lemma MinuteFile(template: Record, start: Instant, m: nat, perMinute: nat, perFile: nat,
                   jitter: (nat, nat, nat) -> nat, draws: (nat, nat, nat) -> RecordDraws,
                   fileIds: (nat, nat) -> Uuid, f: nat)
    requires Datable(start) && f < perMinute
    ensures MinuteFiles(template, start, m, perMinute, perFile, jitter, draws, fileIds)[f]
            == DataFile(FileName(fileIds(m, f)), FileRecords(template, start, m, f, perFile, jitter, draws))
  {
  }

  /**
   * When the start is on a minute boundary, every record's timestamp falls in the
   * minute of the directory it is written to (the jitter stays below a minute).
   */
  lemma AlignedRecordsInPartition(template: Record, start: Instant, n: nat, perMinute: nat, perFile: nat,
                                  jitter: (nat, nat, nat) -> nat, draws: (nat, nat, nat) -> RecordDraws,
                                  fileIds: (nat, nat) -> Uuid, m: nat, f: nat, j: nat)
    requires Datable(start) && start % MicrosPerMinute == 0 && m < n
    requires jitter(m, f, j) <= MaxJitter
    ensures PartitionPath(RecordTime(start, m, f, j, jitter))
            == Partitions(template, start, n, perMinute, perFile, jitter, draws, fileIds)[m].path
  {
    var c := Cursor(start, m);
    var q := start / MicrosPerMinute;
    assert c == (q + m) * MicrosPerMinute;
    DivModUnique(c + jitter(m, f, j), MicrosPerMinute, q + m, jitter(m, f, j));
    DivModUnique(c, MicrosPerMinute, q + m, 0);
    MinuteOfMicros(c + jitter(m, f, j));
    MinuteOfMicros(c);
    PartitionPathIffSameMinute(RecordTime(start, m, f, j, jitter), c);
  }

  /** The minute index is the instant divided by the length of a minute. */
  lemma MinuteOfMicros(t: Instant)
    ensures MinuteIndex(t) == t / MicrosPerMinute
  {
    var q := t / MicrosPerMinute;
    var r := t % MicrosPerMinute;
    assert t == q * MicrosPerMinute + r;
    DivModUnique(t, MicrosPerSecond, q * 60 + r / MicrosPerSecond, r % MicrosPerSecond);
    DivModUnique(SecondsOf(t), 60, q, r / MicrosPerSecond);
  }

  /**
   * Otherwise a record can land in the directory of the minute before its own: a
   * start thirty seconds into a minute plus a 45-second jitter crosses into the next minute.
   */
  lemma UnalignedRecordOutsidePartition(template: Record, draws: (nat, nat, nat) -> RecordDraws,
                                        fileIds: (nat, nat) -> Uuid)
    ensures var start := MaxBackDays * MicrosPerDay + 30 * MicrosPerSecond;
      var jitter := (m: nat, f: nat, j: nat) => 45 * MicrosPerSecond;
      && jitter(0, 0, 0) <= MaxJitter
      && PartitionPath(RecordTime(start, 0, 0, 0, jitter))
         != Partitions(template, start, 1, 1, 1, jitter, draws, fileIds)[0].path
  {
    var start := MaxBackDays * MicrosPerDay + 30 * MicrosPerSecond;
    var jitter := (m: nat, f: nat, j: nat) => 45 * MicrosPerSecond;
    var t := start + 45 * MicrosPerSecond;
    assert MinuteIndex(t) == MinuteIndex(start) + 1 by {
      MinuteOfMicros(start);
      MinuteOfMicros(t);
      DivModUnique(start, MicrosPerMinute, MaxBackDays * 1440, 30 * MicrosPerSecond);
      DivModUnique(t, MicrosPerMinute, MaxBackDays * 1440 + 1, 15 * MicrosPerSecond);
    }
    assert RecordTime(start, 0, 0, 0, jitter) == t;
    assert Partitions(template, start, 1, 1, 1, jitter, draws, fileIds)[0].path == PartitionPath(start);
    PartitionPathIffSameMinute(t, start);
  }

  /** The number of files in a run of partitions. */
  function FilesIn(ps: seq<Partition>): nat
  {
    if ps == [] then 0 else FilesIn(ps[..|ps| - 1]) + |ps[|ps| - 1].files|
  }

  /** The number of records in a run of files. */
  function RecordsInFiles(fs: seq<DataFile>): nat
  {
    if fs == [] then 0 else RecordsInFiles(fs[..|fs| - 1]) + |fs[|fs| - 1].records|
  }

  /** The number of records in a run of partitions. */
  function RecordsIn(ps: seq<Partition>): nat
  {
    if ps == [] then 0 else RecordsIn(ps[..|ps| - 1]) + RecordsInFiles(ps[|ps| - 1].files)
  }

  /** Every partition holds `perMinute` files of `perFile` records each. */
  predicate Uniform(ps: seq<Partition>, perMinute: nat, perFile: nat)
  {
    forall i | 0 <= i < |ps| ::
      && |ps[i].files| == perMinute
      && forall k | 0 <= k < perMinute :: |ps[i].files[k].records| == perFile
  }

  lemma MulPred(n: nat, a: nat)
    requires 0 < n
    ensures (n - 1) * a + a == n * a
  {
  }

  lemma {:induction false} UniformFilesRecords(fs: seq<DataFile>, perFile: nat)
    requires forall k | 0 <= k < |fs| :: |fs[k].records| == perFile
    ensures RecordsInFiles(fs) == |fs| * perFile
  {
    if fs != [] {
      UniformFilesRecords(fs[..|fs| - 1], perFile);
      MulPred(|fs|, perFile);
    }
  }

  lemma {:induction false} UniformCounts(ps: seq<Partition>, perMinute: nat, perFile: nat)
    requires Uniform(ps, perMinute, perFile)
    ensures FilesIn(ps) == |ps| * perMinute
    ensures RecordsIn(ps) == |ps| * (perMinute * perFile)
  {
    if ps != [] {
      var n := |ps|;
      assert Uniform(ps[..n - 1], perMinute, perFile);
      UniformCounts(ps[..n - 1], perMinute, perFile);
      UniformFilesRecords(ps[n - 1].files, perFile);
      MulPred(n, perMinute);
      MulPred(n, perMinute * perFile);
    }
  }

  /**
   * What the script counts is what it writes: `n` steps of `perMinute` files hold
   * `n * perMinute` files and `n * perMinute * perFile` records.
   */
  lemma PartitionsCounts(template: Record, start: Instant, n: nat, perMinute: nat, perFile: nat,
                         jitter: (nat, nat, nat) -> nat, draws: (nat, nat, nat) -> RecordDraws,
                         fileIds: (nat, nat) -> Uuid)
    requires Datable(start)
    ensures var ps := Partitions(template, start, n, perMinute, perFile, jitter, draws, fileIds);
      FilesIn(ps) == n * perMinute && RecordsIn(ps) == n * (perMinute * perFile)
  {
    var ps := Partitions(template, start, n, perMinute, perFile, jitter, draws, fileIds);
    forall i | 0 <= i < n
      ensures |ps[i].files| == perMinute
      ensures forall k | 0 <= k < perMinute :: |ps[i].files[k].records| == perFile
    {
      var fs := MinuteFiles(template, start, i, perMinute, perFile, jitter, draws, fileIds);
      assert ps[i].files == fs;
      forall k | 0 <= k < perMinute
        ensures |fs[k].records| == perFile
      {
        assert fs[k].records == FileRecords(template, start, i, k, perFile, jitter, draws);
      }
    }
    UniformCounts(ps, perMinute, perFile);
  }

  /**
   * `generate_partitioned_files`. The draws for record `j` of file `f` at step `m` are
   * `draws(m, f, j)` and `jitter(m, f, j)` (microseconds added to the cursor); the
   * file's `uuid4()` is `fileIds(m, f)`. Returns the two totals it reports and the
   * partitions it writes.
   */
  method GeneratePartitionedFiles(start: Instant, end: Instant, recordsPerFile: int, filesPerMinute: int,
                                  jitter: (nat, nat, nat) -> nat, draws: (nat, nat, nat) -> RecordDraws,
                                  fileIds: (nat, nat) -> Uuid)
    returns (totalFiles: int, totalRecords: int, partitions: seq<Partition>)
    requires Datable(start)
    ensures totalFiles == Iterations(start, end) * Count(filesPerMinute)
    ensures totalRecords == totalFiles * recordsPerFile
    ensures partitions == Partitions(Template, start, Iterations(start, end), Count(filesPerMinute),
                                     Count(recordsPerFile), jitter, draws, fileIds)
  {
    totalFiles, totalRecords, partitions :=
      WritePartitions(Template, start, end, recordsPerFile, filesPerMinute, jitter, draws, fileIds);
  }

  /** The cursor loop of `generate_partitioned_files`, for a given template. */
  method WritePartitions(template: Record, start: Instant, end: Instant, recordsPerFile: int, filesPerMinute: int,
                         jitter: (nat, nat, nat) -> nat, draws: (nat, nat, nat) -> RecordDraws,
                         fileIds: (nat, nat) -> Uuid)
    returns (totalFiles: int, totalRecords: int, partitions: seq<Partition>)
    requires Datable(start)
    ensures totalFiles == Iterations(start, end) * Count(filesPerMinute)
    ensures totalRecords == totalFiles * recordsPerFile
    ensures partitions == Partitions(template, start, Iterations(start, end), Count(filesPerMinute),
                                     Count(recordsPerFile), jitter, draws, fileIds)
  {
    var current := start;
    totalFiles, totalRecords := 0, 0;
    partitions := [];
    while current < end
      invariant current == Cursor(start, |partitions|)
      invariant |partitions| <= Iterations(start, end)
      invariant totalFiles == |partitions| * Count(filesPerMinute)
      invariant totalRecords == totalFiles * recordsPerFile
      invariant partitions == Partitions(template, start, |partitions|, Count(filesPerMinute),
                                         Count(recordsPerFile), jitter, draws, fileIds)
      decreases end - current
    {
      IterationsExact(start, end, |partitions|);
      var files;
      files, totalFiles, totalRecords :=
        WriteMinute(template, start, |partitions|, recordsPerFile, filesPerMinute, jitter, draws, fileIds,
                    totalFiles, totalRecords);
      partitions := AppendPartition(template, start, Count(filesPerMinute), Count(recordsPerFile),
                                    jitter, draws, fileIds, partitions, files);
      current := current + MicrosPerMinute;
    }
    IterationsExact(start, end, |partitions|);
  }

  /**
   * The files of one cursor step: the `for _ in range(files_per_minute)` loop, which
   * counts each file and its `records_per_file` records into the two totals.
   */
  method WriteMinute(template: Record, start: Instant, step: nat, recordsPerFile: int, filesPerMinute: int,
                     jitter: (nat, nat, nat) -> nat, draws: (nat, nat, nat) -> RecordDraws,
                     fileIds: (nat, nat) -> Uuid, files0: int, records0: int)
    returns (files: seq<DataFile>, totalFiles: int, totalRecords: int)
    requires Datable(start)
    requires records0 == files0 * recordsPerFile
    ensures files == MinuteFiles(template, start, step, Count(filesPerMinute), Count(recordsPerFile), jitter, draws, fileIds)
    ensures totalFiles == files0 + Count(filesPerMinute)
    ensures totalRecords == totalFiles * recordsPerFile
  {
    files, totalFiles, totalRecords := [], files0, records0;
    var f := 0;
    while f < filesPerMinute
      invariant f == |files| <= Count(filesPerMinute)
      invariant totalFiles == files0 + f
      invariant totalRecords == totalFiles * recordsPerFile
      invariant files == MinuteFiles(template, start, step, f, Count(recordsPerFile), jitter, draws, fileIds)
    {
      var records := WriteFile(template, start, step, f, recordsPerFile, jitter, draws);
      MinuteFilesStep(template, start, step, f, Count(recordsPerFile), jitter, draws, fileIds);
      files := files + [DataFile(FileName(fileIds(step, f)), records)];
      totalFiles := totalFiles + 1;
      totalRecords := totalRecords + recordsPerFile;
      f := f + 1;
    }
  }

  /** The step's files go into the partition directory of the cursor. */
  method AppendPartition(template: Record, start: Instant, perMinute: nat, perFile: nat,
                         jitter: (nat, nat, nat) -> nat, draws: (nat, nat, nat) -> RecordDraws,
                         fileIds: (nat, nat) -> Uuid, partitions: seq<Partition>, files: seq<DataFile>)
    returns (partitions': seq<Partition>)
    requires Datable(start)
    requires partitions == Partitions(template, start, |partitions|, perMinute, perFile, jitter, draws, fileIds)
    requires files == MinuteFiles(template, start, |partitions|, perMinute, perFile, jitter, draws, fileIds)
    ensures partitions' == Partitions(template, start, |partitions| + 1, perMinute, perFile, jitter, draws, fileIds)
  {
    PartitionsStep(template, start, |partitions|, perMinute, perFile, jitter, draws, fileIds);
    partitions' := partitions + [Partition(PartitionPath(Cursor(start, |partitions|)), files)];
  }

  /** The records of one file: the `for i in range(records_per_file)` loop. */
  method WriteFile(template: Record, start: Instant, step: nat, f: nat, recordsPerFile: int,
                   jitter: (nat, nat, nat) -> nat, draws: (nat, nat, nat) -> RecordDraws)
    returns (records: seq<Record>)
    requires Datable(start)
    ensures records == FileRecords(template, start, step, f, Count(recordsPerFile), jitter, draws)
  {
    records := [];
    var j := 0;
    while j < recordsPerFile
      invariant j == |records| <= Count(recordsPerFile)
      invariant records == FileRecords(template, start, step, f, j, jitter, draws)
    {
      records := AppendRecord(template, start, step, f, j, jitter, draws, records);
      j := j + 1;
    }
  }

  /** `records.append(generate_log_record(record_time))`. */
  method AppendRecord(template: Record, start: Instant, step: nat, f: nat, j: nat,
                      jitter: (nat, nat, nat) -> nat, draws: (nat, nat, nat) -> RecordDraws, records: seq<Record>)
    returns (records': seq<Record>)
    requires Datable(start)
    requires records == FileRecords(template, start, step, f, j, jitter, draws)
    ensures records' == FileRecords(template, start, step, f, j + 1, jitter, draws)
  {
    var record := GenerateLogRecord(template, RecordTime(start, step, f, j, jitter), draws(step, f, j));
    FileRecordsStep(template, start, step, f, j, jitter, draws);
    records' := records + [record];
  }
}
