/**
 * `send_logs_to_eventhub.py`: the two sending loops. Batch mode spreads
 * `total_events` events evenly over `[start, end)` and packs them into batches of at
 * most `events_per_batch`; continuous mode sends one batch per cycle and paces the
 * cycles to a target rate.
 *
 * The transport is an oracle `accepts(batch, event)`: whether a batch already
 * holding `batch` takes `event` as well (`EventDataBatch.add` raises `ValueError`
 * when it does not). What is handed to `send_batch` is recorded, in order, as the
 * sequence of sent batches. The loops are stated for any event builder `build(b, k)`;
 * the script's own builders, `generate_log_record` at the interpolated timestamp or
 * at the current time, are passed by `SendEventsToEventHub` and `SendContinuousStream`.
 */
module EventHubSender {
  import opened Wrappers
  import opened Calendar
  import opened Json
  import opened Records

  const Template: Record := map[
    "category" := Object(map[]),
    "container" := Str("doccreator-backend"),
    "containerId" := Str("containerd://7c4f4ab34671afb1975126e8c0fca8ce23b62b318c7435ff78d0f73116359d34"),
    "containerImage" := Str("crcontosoprdgwc.azurecr.io/infonds:4.3.3937"),
    "containerImageId" := Str("crcontosoprdgwc.azurecr.io/infonds@sha256:52f0be0aacfce5d345b5dab9efabe3e0ede9f97ce4eeb5831fc01cf4e14d84d7"),
    "file" := Str("/var/log/pods/int-doccreator_doccreator-backend-master-api-deployment-685948cb57-tpg4f_f0db2d83-0bb4-4f1d-9003-a6d806e8a749/doccreator-backend/0.log"),
    "host" := Str("aks-applications-18125824-vmss0000yt"),
    "namespace" := Str("int-doccreator"),
    "pod" := Str("doccreator-backend-master-api-deployment-685948cb57-tpg4f"),
    "podIp" := Str("10.3.132.14"),
    "podOwner" := Str("ReplicaSet/doccreator-backend-master-api-deployment-685948cb57"),
    "resource" := Str("aks-nucleus-npe-ne"),
    "resourceGroup" := Str("rg-nucleus-npe-ne"),
    "severity" := Str("info"),
    "source" := Str("kubernetes"),
    "subscription" := Str("86873dce-75a0-4ed5-ada5-7dc31e90cc91"),
    "type" := Str("pod")
  ]

  const Namespaces: seq<string> := ["int-doccreator", "prd-doccreator", "dev-doccreator", "stg-doccreator"]

  const Pods: seq<string> := [
    "doccreator-backend-master-api-deployment-685948cb57-tpg4f",
    "doccreator-backend-master-api-deployment-685948cb57-abc12",
    "doccreator-backend-worker-deployment-7f8d9c-xyz99",
    "doccreator-backend-scheduler-deployment-3e4f5g-def45"
  ]

  const EventProfile: Profile :=
    Profile(Template, Clients, DocumentDefinitions, TemplateCodes, TemplateNames, Locales, Namespaces, Pods,
            LogTypes, Severities, Identifiers)

  /** An instant a record can be built for (see `Datable`). */
  type Stamp = t: Instant | Datable(t) witness 2_592_000_000_000

  /** The transport's size cap: whether a batch already holding the first argument takes the second. */
  type Accepts = (seq<Record>, Record) -> bool

  /** The events of a run of batches, in the order they were sent. */
  function Flatten(batches: seq<seq<Record>>): seq<Record>
  {
    if batches == [] then [] else Flatten(batches[..|batches| - 1]) + batches[|batches| - 1]
  }

  lemma FlattenAppend(batches: seq<seq<Record>>, batch: seq<Record>)
    ensures Flatten(batches + [batch]) == Flatten(batches) + batch
  {
    assert (batches + [batch])[..|batches|] == batches;
  }

  // ---------------------------------------------------------------------------
  // Batch mode
  // ---------------------------------------------------------------------------

  /**
   * `int((end_time - start_time).total_seconds() * 2)` for a range of microseconds:
   * two events per second of the range, truncated toward zero.
   */
  function DefaultTotal(start: Instant, end: Instant): (n: int)
    ensures start <= end ==> 0 <= n && n * MicrosPerSecond <= 2 * (end - start) < (n + 1) * MicrosPerSecond
    ensures end < start ==> n == -DefaultTotal(end, start)
  {
    if start <= end then 2 * (end - start) / MicrosPerSecond else -(2 * (start - end) / MicrosPerSecond)
  }

  /** `total_events`, or the default for the range when it is `None`. */
  function TotalEvents(start: Instant, end: Instant, totalEvents: Option<int>): int
  {
    if totalEvents.Some? then totalEvents.value else DefaultTotal(start, end)
  }

  /** A multiple of a non-negative factor grows with the factor. */
  lemma MulMonotone(a: int, b: int, c: nat)
    requires a <= b
    ensures a * c <= b * c
  {
    if a < b {
      MulAtLeast(b - a, c);
    }
  }

  /** `d * k / total` lies between 0 and `d` when `k <= total`. */
  lemma ScaleBounds(d: int, k: nat, total: nat)
    requires k <= total && 0 < total
    ensures 0 <= d ==> 0 <= d * k / total <= d
    ensures d < 0 ==> d <= d * k / total <= 0
  {
    DivModUnique(d * total, total, d, 0);
    DivModUnique(0, total, 0, 0);
    if 0 <= d {
      MulMonotone(0, k, d);
      MulMonotone(k, total, d);
      DivMonotone(0, d * k, total);
      DivMonotone(d * k, d * total, total);
    } else {
      MulMonotone(0, k, -d);
      MulMonotone(k, total, -d);
      DivMonotone(d * k, 0, total);
      DivMonotone(d * total, d * k, total);
    }
  }

  /**
   * The timestamp of event `k` of `total`: `start + (end - start) * (k / total)`,
   * in whole microseconds rounded down. It lies between the two ends of the range.
   */
  function EventTime(start: Instant, end: Instant, k: nat, total: nat): (t: Instant)
    requires k <= total && 0 < total
    ensures start <= end ==> start <= t <= end
    ensures end < start ==> end <= t <= start
    ensures Datable(start) && Datable(end) ==> Datable(t)
  {
    ScaleBounds(end - start, k, total);
    start + (end - start) * k / total
  }

  /** The first event is stamped with the start of the range. */
  lemma EventTimeFirst(start: Instant, end: Instant, total: nat)
    requires 0 < total
    ensures EventTime(start, end, 0, total) == start
  {
    assert (end - start) * 0 == 0;
  }

  /** The last position, `total`, would be the end of the range itself; no event is sent there. */
  lemma EventTimeLast(start: Instant, end: Instant, total: nat)
    requires 0 < total
    ensures EventTime(start, end, total, total) == end
  {
    DivModUnique((end - start) * total, total, end - start, 0);
  }

  /**
   * Over a non-empty forward range every event the loop builds, `k < total`, is stamped
   * strictly before `end`.
   */
  lemma EventTimeBeforeEnd(start: Instant, end: Instant, k: nat, total: nat)
    requires start < end && k < total
    ensures EventTime(start, end, k, total) < end
  {
    var d := end - start;
    MulMonotone(k, total - 1, d);
    assert d * (total - 1) == d * total - d;
    DivMonotone(d * k, d * total - 1, total);
    DivModUnique(d * total - 1, total, d - 1, total - 1);
  }

  /** Over a forward range the timestamps never go back. */
  lemma EventTimeMonotone(start: Instant, end: Instant, k1: nat, k2: nat, total: nat)
    requires start <= end && k1 <= k2 <= total && 0 < total
    ensures EventTime(start, end, k1, total) <= EventTime(start, end, k2, total)
  {
    var d := end - start;
    MulMonotone(k1, k2, d);
    assert d * k1 <= d * k2;
    DivMonotone(d * k1, d * k2, total);
  }

  lemma DivMonotone(a: int, b: int, c: nat)
    requires a <= b && 0 < c
    ensures a / c <= b / c
  {
    var qa, ra, qb, rb := a / c, a % c, b / c, b % c;
    assert a == qa * c + ra && b == qb * c + rb;
    if qa > qb {
      MulMonotone(qb + 1, qa, c);
    }
  }

  /** `build` can make every event position below `total`, in every batch. */
  ghost predicate Builds(build: (nat, nat) --> Record, total: int)
  {
    forall b: nat, k: nat | k < total :: build.requires(b, k)
  }

  /**
   * Batch `b` of a batch-mode run: it holds between 1 and `perBatch` events; its
   * `i`-th event is the one built for batch `b` at position `offset + i`, where
   * `offset` counts the events of the earlier batches; the transport accepted each
   * add; and when the batch is neither full nor the last, the transport rejected
   * the next event built for it.
   */
  ghost predicate BatchOk(sent: seq<seq<Record>>, b: nat, total: int, perBatch: int, accepts: Accepts,
                          build: (nat, nat) --> Record)
    requires b < |sent| && Builds(build, total)
  {
    var offset := |Flatten(sent[..b])|;
    && 1 <= |sent[b]| <= perBatch
    && offset + |sent[b]| <= total
    && (forall i | 0 <= i < |sent[b]| :: sent[b][i] == build(b, offset + i) && accepts(sent[b][..i], sent[b][i]))
    && (|sent[b]| < perBatch && offset + |sent[b]| < total ==> !accepts(sent[b], build(b, offset + |sent[b]|)))
  }

  ghost predicate BatchesOk(sent: seq<seq<Record>>, total: int, perBatch: int, accepts: Accepts,
                            build: (nat, nat) --> Record)
    requires Builds(build, total)
  {
    forall b | 0 <= b < |sent| :: BatchOk(sent, b, total, perBatch, accepts, build)
  }

  lemma BatchesExtend(sent: seq<seq<Record>>, batch: seq<Record>, total: int, perBatch: int, accepts: Accepts,
                      build: (nat, nat) --> Record)
    requires Builds(build, total)
    requires BatchesOk(sent, total, perBatch, accepts, build)
    requires BatchOk(sent + [batch], |sent|, total, perBatch, accepts, build)
    ensures BatchesOk(sent + [batch], total, perBatch, accepts, build)
  {
    var sent' := sent + [batch];
    forall b | 0 <= b < |sent'|
      ensures BatchOk(sent', b, total, perBatch, accepts, build)
    {
      if b < |sent| {
        assert sent'[..b] == sent[..b] && sent'[b] == sent[b];
        assert BatchOk(sent, b, total, perBatch, accepts, build);
      }
    }
  }

  /**
   * The loops of `send_events_to_eventhub` for `total` events and a given builder.
   * The first add to an empty batch always succeeds and `perBatch` is positive
   * whenever there is something to send; otherwise the script never stops.
   */
  method SendBatches(total: int, perBatch: int, accepts: Accepts, build: (nat, nat) --> Record)
    returns (sentCount: int, batchCount: int, sent: seq<seq<Record>>)
    requires Builds(build, total)
    requires forall e :: accepts([], e)
    requires 0 < total ==> 0 < perBatch
    ensures sentCount == |Flatten(sent)| == (if total < 0 then 0 else total)
    ensures batchCount == |sent|
    ensures BatchesOk(sent, total, perBatch, accepts, build)
  {
    sentCount, batchCount, sent := 0, 0, [];
    while sentCount < total
      invariant batchCount == |sent| && sentCount == |Flatten(sent)|
      invariant 0 <= sentCount && (0 <= total ==> sentCount <= total) && (total < 0 ==> sentCount == 0)
      invariant BatchesOk(sent, total, perBatch, accepts, build)
      decreases total - sentCount
    {
      var batch: seq<Record> := [];
      var batchEvents := 0;
      while batchEvents < perBatch && sentCount < total
        invariant batchEvents == |batch| <= perBatch && sentCount == |Flatten(sent)| + batchEvents <= total
        invariant forall i | 0 <= i < |batch| ::
          batch[i] == build(batchCount, |Flatten(sent)| + i) && accepts(batch[..i], batch[i])
      {
        var event := build(batchCount, sentCount);
        if accepts(batch, event) {
          forall i | 0 <= i <= |batch|
            ensures (batch + [event])[..i] == batch[..i]
          {
          }
          batch := batch + [event];
          batchEvents := batchEvents + 1;
          sentCount := sentCount + 1;
        } else {
          break;
        }
      }
      if batchEvents > 0 {
        FlattenAppend(sent, batch);
        assert (sent + [batch])[..|sent|] == sent;
        BatchesExtend(sent, batch, total, perBatch, accepts, build);
        sent := sent + [batch];
        batchCount := batchCount + 1;
      }
    }
  }

  /** Every event builder `send_events_to_eventhub` uses: `generate_log_record` at the interpolated time. */
  function EventBuilder(template: Record, start: Stamp, end: Stamp, total: int, draws: (nat, nat) -> RecordDraws)
    : (build: (nat, nat) --> Record)
    ensures Builds(build, total)
  {
    (b: nat, k: nat) requires k < total => DrawnRecord(template, EventTime(start, end, k, total), draws(b, k))
  }

  /**
   * `send_events_to_eventhub` in batch mode (`realtime_mode` off, as `main` calls it).
   * The record built for position `k` while filling batch `b` uses the draws
   * `draws(b, k)`; an event the transport rejects is built again, at the same
   * position and so with the same timestamp, for the next batch.
   */
  method SendEventsToEventHub(start: Stamp, end: Stamp, perBatch: int, totalEvents: Option<int>,
                              accepts: Accepts, draws: (nat, nat) -> RecordDraws)
    returns (sentCount: int, batchCount: int, sent: seq<seq<Record>>)
    requires forall e :: accepts([], e)
    requires 0 < TotalEvents(start, end, totalEvents) ==> 0 < perBatch
    ensures var total := TotalEvents(start, end, totalEvents);
      && sentCount == |Flatten(sent)| == (if total < 0 then 0 else total)
      && batchCount == |sent|
      && BatchesOk(sent, total, perBatch, accepts, EventBuilder(Template, start, end, total, draws))
  {
    var total := TotalEvents(start, end, totalEvents);
    sentCount, batchCount, sent := SendBatches(total, perBatch, accepts, EventBuilder(Template, start, end, total, draws));
  }

  /** Event `i` of batch `b` is the one built for that batch at its position in the whole run. */
  lemma SentEventBuilt(sent: seq<seq<Record>>, total: int, perBatch: int, accepts: Accepts,
                       build: (nat, nat) --> Record, b: nat, i: nat)
    requires Builds(build, total) && BatchesOk(sent, total, perBatch, accepts, build)
    requires b < |sent| && i < |sent[b]|
    ensures var k := |Flatten(sent[..b])| + i;
      && k < total && sent[b][i] == build(b, k)
  {
    assert BatchOk(sent, b, total, perBatch, accepts, build);
  }

  /**
   * The builder `SendEventsToEventHub` passes: event `k`, built for batch `b`, is a
   * well-formed record of the profile stamped `EventTime(start, end, k, total)`.
   * With `SentEventBuilt` this describes every event a batch-mode run sends.
   */
  lemma BuilderWellFormed(profile: Profile, start: Stamp, end: Stamp, total: int, draws: (nat, nat) -> RecordDraws,
                          b: nat, k: nat)
    requires k < total && RecordDrawsOk(profile, draws(b, k))
    ensures WellFormedRecord(profile, EventBuilder(profile.template, start, end, total, draws)(b, k),
                             EventTime(start, end, k, total))
  {
    DrawnRecordWellFormed(profile, EventTime(start, end, k, total), draws(b, k));
  }

  /**
   * An event the transport rejected is not lost: the next batch starts with the event
   * built at the same position, so it carries the same timestamp.
   */
  lemma RejectedEventRetried(sent: seq<seq<Record>>, total: int, perBatch: int, accepts: Accepts,
                             build: (nat, nat) --> Record, b: nat)
    requires Builds(build, total) && BatchesOk(sent, total, perBatch, accepts, build)
    requires b + 1 < |sent| && |sent[b]| < perBatch
    ensures var k := |Flatten(sent[..b])| + |sent[b]|;
      && k < total
      && !accepts(sent[b], build(b, k))
      && |Flatten(sent[..b + 1])| == k
      && 1 <= |sent[b + 1]|
      && sent[b + 1][0] == build(b + 1, k)
  {
    assert sent[..b + 1][..b] == sent[..b];
    assert sent[..b + 1] == sent[..b] + [sent[b]];
    FlattenAppend(sent[..b], sent[b]);
    assert BatchOk(sent, b, total, perBatch, accepts, build);
    assert BatchOk(sent, b + 1, total, perBatch, accepts, build);
  }

  // ---------------------------------------------------------------------------
  // Continuous mode
  // ---------------------------------------------------------------------------

  /** The wall-clock readings (`time.time()`, in seconds) one cycle takes, in order. */
  datatype CycleClock = CycleClock(batchStart: real, batchEnd: real, check: real)

  /** How a continuous run ends. */
  datatype StreamEnd =
    | DurationReached  // the duration check after a cycle passed
    | Interrupted      // `KeyboardInterrupt` at a cycle boundary
    | RateUndefined    // `events_per_batch / events_per_second` raised `ZeroDivisionError`

  /** `max(0, target - elapsed)`: never negative, and the cycle lasts at least `target` after it. */
  function SleepTime(target: real, elapsed: real): (s: real)
    ensures 0.0 <= s && target <= elapsed + s
    ensures s == 0.0 || elapsed + s == target
    ensures s > 0.0 <==> elapsed < target
  {
    if target - elapsed > 0.0 then target - elapsed else 0.0
  }

  /** `duration_seconds and (now - start_time) >= duration_seconds`: `None` and `0` mean "forever". */
  predicate DurationOver(duration: Option<int>, startTime: real, now: real)
  {
    duration.Some? && duration.value != 0 && now - startTime >= duration.value as real
  }

  /**
   * The batch of cycle `c` of a continuous run: it holds the events built for that
   * cycle in order, each accepted by the transport, at most `perBatch` of them (none
   * when `perBatch` is not positive); a batch cut short was cut by a rejection.
   */
  ghost predicate CycleOk(batch: seq<Record>, c: nat, perBatch: int, accepts: Accepts, build: (nat, nat) -> Record)
  {
    && |batch| <= (if perBatch < 0 then 0 else perBatch)
    && (forall j | 0 <= j < |batch| :: batch[j] == build(c, j) && accepts(batch[..j], batch[j]))
    && (|batch| < perBatch ==> !accepts(batch, build(c, |batch|)))
  }

  ghost predicate CyclesOk(sent: seq<seq<Record>>, perBatch: int, accepts: Accepts, build: (nat, nat) -> Record)
  {
    forall c | 0 <= c < |sent| :: CycleOk(sent[c], c, perBatch, accepts, build)
  }

  /** The sleeps of the first `|sleeps|` cycles follow the pacing rule. */
  ghost predicate Paced(sleeps: seq<real>, perBatch: int, eventsPerSecond: real, clock: nat -> CycleClock)
    requires eventsPerSecond != 0.0
  {
    forall c | 0 <= c < |sleeps| ::
      sleeps[c] == SleepTime(perBatch as real / eventsPerSecond, clock(c).batchEnd - clock(c).batchStart)
  }

  /** No duration check among the first `n` cycles passed. */
  ghost predicate Running(n: int, duration: Option<int>, startTime: real, clock: nat -> CycleClock)
  {
    forall c | 0 <= c < n :: !DurationOver(duration, startTime, clock(c).check)
  }

  /** One batch of a continuous run: `for _ in range(perBatch)`, stopping at the first rejected add. */
  method FillCycle(c: nat, perBatch: int, accepts: Accepts, build: (nat, nat) -> Record) returns (batch: seq<Record>)
    ensures CycleOk(batch, c, perBatch, accepts, build)
  {
    batch := [];
    var j := 0;
    while j < perBatch
      invariant 0 <= j == |batch| <= (if perBatch < 0 then 0 else perBatch)
      invariant forall i | 0 <= i < j :: batch[i] == build(c, i) && accepts(batch[..i], batch[i])
    {
      var event := build(c, j);
      if !accepts(batch, event) {
        break;
      }
      forall i | 0 <= i <= |batch|
        ensures (batch + [event])[..i] == batch[..i]
      {
      }
      batch := batch + [event];
      j := j + 1;
    }
  }

  /**
   * The loop of `send_continuous_stream`. Cycle `c` builds its events with
   * `build(c, j)`, sends its batch whatever it holds, adds `perBatch` to the count,
   * then paces itself and checks the duration. `clock(c)` are the cycle's clock
   * readings; a `KeyboardInterrupt` arrives after `interruptAfter` cycles, if the
   * run is still going.
   */
  method StreamCycles(perBatch: int, eventsPerSecond: real, duration: Option<int>, startTime: real,
                      clock: nat -> CycleClock, interruptAfter: nat, accepts: Accepts, build: (nat, nat) -> Record)
    returns (sentCount: int, batchCount: nat, sent: seq<seq<Record>>, sleeps: seq<real>, end: StreamEnd)
    ensures batchCount == |sent| <= interruptAfter && sentCount == batchCount * perBatch
    ensures CyclesOk(sent, perBatch, accepts, build)
    ensures eventsPerSecond == 0.0 ==> sleeps == [] && batchCount == (if interruptAfter == 0 then 0 else 1)
    ensures eventsPerSecond == 0.0 && 0 < interruptAfter <==> end == RateUndefined
    ensures eventsPerSecond != 0.0 ==> |sleeps| == batchCount && Paced(sleeps, perBatch, eventsPerSecond, clock)
    ensures end != RateUndefined ==> Running(batchCount - 1, duration, startTime, clock)
    ensures end == DurationReached <==>
      eventsPerSecond != 0.0 && 0 < batchCount && DurationOver(duration, startTime, clock(batchCount - 1).check)
    ensures end == Interrupted ==> batchCount == interruptAfter
    ensures (duration.None? || duration == Some(0)) ==> end != DurationReached
  {
    sentCount, batchCount, sent, sleeps := 0, 0, [], [];
    var stop: Option<StreamEnd> := None;
    while stop.None? && batchCount < interruptAfter
      invariant batchCount == |sent| <= interruptAfter && sentCount == batchCount * perBatch
      invariant CyclesOk(sent, perBatch, accepts, build)
      invariant stop != Some(Interrupted)
      invariant eventsPerSecond == 0.0 ==> sleeps == [] && (stop == Some(RateUndefined) <==> batchCount == 1)
                                            && batchCount <= 1 && (stop.None? <==> batchCount == 0)
      invariant eventsPerSecond != 0.0 ==> |sleeps| == batchCount && Paced(sleeps, perBatch, eventsPerSecond, clock)
                                            && stop != Some(RateUndefined)
      invariant stop.None? ==> Running(batchCount, duration, startTime, clock)
      invariant stop == Some(DurationReached) ==> 0 < batchCount && Running(batchCount - 1, duration, startTime, clock)
                                                   && DurationOver(duration, startTime, clock(batchCount - 1).check)
      decreases interruptAfter - batchCount
    {
      var batch := FillCycle(batchCount, perBatch, accepts, build);
      sent := sent + [batch];
      sentCount := sentCount + perBatch;
      batchCount := batchCount + 1;
      var readings := clock(batchCount - 1);
      if eventsPerSecond == 0.0 {
        stop := Some(RateUndefined);
      } else {
        var pause := SleepTime(perBatch as real / eventsPerSecond, readings.batchEnd - readings.batchStart);
        sleeps := sleeps + [pause];
        if DurationOver(duration, startTime, readings.check) {
          stop := Some(DurationReached);
        }
      }
    }
    end := if stop.Some? then stop.value else Interrupted;
  }

  /** At most `cap` events per batch give at most `cap` times the number of batches, exactly that iff every batch is full. */
  lemma {:induction false} FlattenBound(batches: seq<seq<Record>>, cap: nat)
    requires forall c | 0 <= c < |batches| :: |batches[c]| <= cap
    ensures |Flatten(batches)| <= |batches| * cap
    ensures |Flatten(batches)| == |batches| * cap <==> forall c | 0 <= c < |batches| :: |batches[c]| == cap
  {
    if batches != [] {
      var n := |batches| - 1;
      var init := batches[..n];
      FlattenBound(init, cap);
      assert |batches| * cap == n * cap + cap;
      assert |Flatten(batches)| == |Flatten(init)| + |batches[n]|;
      if forall c | 0 <= c < |batches| :: |batches[c]| == cap {
        assert forall c | 0 <= c < |init| :: |init[c]| == cap by {
          forall c | 0 <= c < |init| ensures |init[c]| == cap {
            assert init[c] == batches[c];
          }
        }
      }
    }
  }

  /**
   * The count a continuous run reports, `batchCount * perBatch`, is never below the
   * number of events it sent, and it equals that number exactly when no batch was
   * cut short by the transport.
   */
  lemma StreamCountBound(sent: seq<seq<Record>>, perBatch: int, accepts: Accepts, build: (nat, nat) -> Record)
    requires CyclesOk(sent, perBatch, accepts, build) && 0 <= perBatch
    ensures |Flatten(sent)| <= |sent| * perBatch
    ensures |Flatten(sent)| == |sent| * perBatch <==> forall c | 0 <= c < |sent| :: |sent[c]| == perBatch
  {
    forall c | 0 <= c < |sent|
      ensures |sent[c]| <= perBatch
    {
      assert CycleOk(sent[c], c, perBatch, accepts, build);
    }
    FlattenBound(sent, perBatch);
  }

  /** The builder `send_continuous_stream` uses: `generate_log_record(datetime.now())`. */
  function StreamBuilder(template: Record, now: (nat, nat) -> Stamp, draws: (nat, nat) -> RecordDraws)
    : (nat, nat) -> Record
  {
    (c: nat, j: nat) => DrawnRecord(template, now(c, j), draws(c, j))
  }

  /** A record of a continuous run is well-formed and stamped with the clock reading it was built at. */
  lemma StreamBuilderWellFormed(profile: Profile, now: (nat, nat) -> Stamp, draws: (nat, nat) -> RecordDraws,
                                c: nat, j: nat)
    requires RecordDrawsOk(profile, draws(c, j))
    ensures WellFormedRecord(profile, StreamBuilder(profile.template, now, draws)(c, j), now(c, j))
  {
    DrawnRecordWellFormed(profile, now(c, j), draws(c, j));
  }

  /**
   * `send_continuous_stream`, as `main` calls it: the batch size is
   * `min(events_per_batch, 10)`, and record `j` of cycle `c` is built at the wall-clock
   * reading `now(c, j)` with the draws `draws(c, j)`.
   */
  method SendContinuousStream(eventsPerSecond: real, duration: Option<int>, eventsPerBatch: int, startTime: real,
                              clock: nat -> CycleClock, interruptAfter: nat, accepts: Accepts,
                              now: (nat, nat) -> Stamp, draws: (nat, nat) -> RecordDraws)
    returns (sentCount: int, batchCount: nat, sent: seq<seq<Record>>, sleeps: seq<real>, end: StreamEnd)
    ensures var perBatch := if eventsPerBatch < 10 then eventsPerBatch else 10;
      && batchCount == |sent| <= interruptAfter && sentCount == batchCount * perBatch
      && CyclesOk(sent, perBatch, accepts, StreamBuilder(Template, now, draws))
      && (eventsPerSecond != 0.0 ==> |sleeps| == batchCount && Paced(sleeps, perBatch, eventsPerSecond, clock))
      && (eventsPerSecond == 0.0 && 0 < interruptAfter <==> end == RateUndefined)
      && (end != RateUndefined ==> Running(batchCount - 1, duration, startTime, clock))
      && (end == DurationReached <==>
          eventsPerSecond != 0.0 && 0 < batchCount && DurationOver(duration, startTime, clock(batchCount - 1).check))
      && (end == Interrupted ==> batchCount == interruptAfter)
  {
    var perBatch := if eventsPerBatch < 10 then eventsPerBatch else 10;
    sentCount, batchCount, sent, sleeps, end :=
      StreamCycles(perBatch, eventsPerSecond, duration, startTime, clock, interruptAfter, accepts,
                   StreamBuilder(Template, now, draws));
  }
}
