/** The poll controller of the `monitor` package: the monitor's state, its
    Stop/Start reset, failure counting in the query, the GPU-cache update in
    `pollMetrics`, and the per-entry collection fold. The ticker and the
    polling goroutine are not modelled; each call below is one step of the
    loop. */
module PollController {
  import opened Wrappers
  import opened Hardware
  import opened Matchers
  import opened NameRules
  import opened Registry
  import MonitorNormalizer

  /** The `done` channel: never made, made and open, or closed. */
  datatype Channel = NoChannel | Open | Closed

  /** The monitor's mutable state. */
  datatype Monitor = Monitor(done: Channel, gpus: Option<seq<Gpu>>, failureCount: nat)

  /** A freshly constructed monitor. */
  const Initial: Monitor := Monitor(NoChannel, None, 0)

  /** Consecutive transport failures after which the GPU cache is refreshed. */
  const RefreshAfter: nat := 3

  // ---------------------------------------------------------------------------
  // Stop and Start

  /** The result of a step that closes a channel: it may close a closed one. */
  datatype Step = Continues(monitor: Monitor) | Panics

  /** `Stop` as written: close `done` if it is set (without setting it back to
      nil), then forget the GPUs and the failures. Closing a closed channel
      panics. */
  function StopAsWritten(m: Monitor): (r: Step)
    ensures r.Panics? <==> m.done == Closed
  {
    match m.done
    case Closed => Panics
    case Open => Continues(Monitor(Closed, None, 0))
    case NoChannel => Continues(Monitor(NoChannel, None, 0))
  }

  /** `Start` as written: `Stop`, then a new open channel. */
  function StartAsWritten(m: Monitor): (r: Step)
    ensures r.Panics? <==> m.done == Closed
  {
    match StopAsWritten(m)
    case Panics => Panics
    case Continues(s) => Continues(s.(done := Open))
  }

  /** A monitor that was started and then stopped cannot be restarted, nor
      stopped again: both close the closed channel. */
  lemma RestartAfterStopPanics(m: Monitor)
    requires m.done == Open
    ensures StopAsWritten(m).Continues?
    ensures StartAsWritten(StopAsWritten(m).monitor) == Panics
    ensures StopAsWritten(StopAsWritten(m).monitor) == Panics
  {
  }

  /** The same sequence from a fresh monitor: start, stop, start. */
  lemma StartStopStartPanics()
    ensures StartAsWritten(Initial).Continues?
    ensures StopAsWritten(StartAsWritten(Initial).monitor).Continues?
    ensures StartAsWritten(StopAsWritten(StartAsWritten(Initial).monitor).monitor) == Panics
  {
  }

  /** `Stop` as intended by its comment ("it can be restarted"): the channel
      is closed and then dropped, so the monitor is back to its fresh state. */
  function Stop(m: Monitor): (r: Monitor)
    ensures r == Initial
  {
    Monitor(NoChannel, None, 0)
  }

  /** `Start` with the corrected `Stop`. */
  function Start(m: Monitor): (r: Monitor)
    ensures r.done == Open && r.gpus == None && r.failureCount == 0
  {
    Stop(m).(done := Open)
  }

  /** Wherever the code as written does not panic, the correction differs
      from it in the channel alone. */
  lemma CorrectionOnlyDropsChannel(m: Monitor)
    requires m.done != Closed
    ensures StopAsWritten(m).monitor.(done := NoChannel) == Stop(m)
    ensures StartAsWritten(m) == Continues(Start(m))
  {
  }

  /** With the correction, stopping twice is stopping once, and a start begins
      clean whatever came before. */
  lemma StopIdempotent(m: Monitor)
    ensures Stop(Stop(m)) == Stop(m)
    ensures Start(Stop(m)) == Start(m)
  {
  }

  lemma StartForgetsHistory(m1: Monitor, m2: Monitor)
    ensures Start(m1) == Start(m2)
  {
  }

  // ---------------------------------------------------------------------------
  // queryMsiAfterburner

  /** The query: only an error from the client's `Do` counts as a failure; a
      request that cannot be built, a bad status or an undecodable body is
      reported without counting. */
  function Query(m: Monitor, outcome: FetchOutcome): (r: (Monitor, Result<Snapshot, FetchError>))
    ensures r.1 == Received(outcome)
    ensures r.0.failureCount == if outcome.TransportFailed? then m.failureCount + 1 else m.failureCount
    ensures r.0.gpus == m.gpus && r.0.done == m.done
  {
    var next := if outcome.TransportFailed? then m.(failureCount := m.failureCount + 1) else m;
    (next, Received(outcome))
  }

  // ---------------------------------------------------------------------------
  // collectMetrics and getMetricCollector

  /** `getMetricCollector`: normalize the name against the snapshot's GPUs,
      then register or reuse the gauge family. */
  function MetricCollector(store: Store, registrar: Registrar, blacklist: seq<Pattern>, e: Entry, gpus: seq<Gpu>)
    : (r: (Store, Option<Series>))
    requires e.gpuIndex >= 0
    ensures MonitorNormalizer.NormalizeName(blacklist, e, Some(gpus)).Failure? ==> r == (store, None)
    ensures r.0.values == store.values && store.families <= r.0.families
  {
    match MonitorNormalizer.NormalizeName(blacklist, e, Some(gpus))
    case Failure(_) => (store, None)
    case Success(c) => GetCollector(store, registrar, c.identifier, c.labels)
  }

  /** One entry of `collectMetrics`: set the gauge, if there is one, to the
      normalized value. */
  function CollectEntry(store: Store, registrar: Registrar, blacklist: seq<Pattern>, e: Entry, gpus: seq<Gpu>): Store
    requires e.gpuIndex >= 0
  {
    var (next, collector) := MetricCollector(store, registrar, blacklist, e, gpus);
    if collector.Some? then Set(next, collector.value, MonitorNormalizer.NormalizeValue(e.data, e.sourceUnits))
    else next
  }

  /** `collectMetrics`: the entries in order, each against the snapshot's own
      GPU list. */
  function CollectMetrics(store: Store, registrar: Registrar, blacklist: seq<Pattern>, entries: seq<Entry>, gpus: seq<Gpu>)
    : Store
    requires IndexesNonNegative(entries)
    decreases |entries|
  {
    if |entries| == 0 then store
    else
      var last := |entries| - 1;
      CollectEntry(CollectMetrics(store, registrar, blacklist, entries[..last], gpus), registrar, blacklist, entries[last], gpus)
  }

  /** An entry whose lookup fails leaves the store as it was; otherwise only
      its own series takes a value, and that value is the normalized one. */
  lemma CollectEntryEffect(store: Store, registrar: Registrar, blacklist: seq<Pattern>, e: Entry, gpus: seq<Gpu>)
    requires e.gpuIndex >= 0
    ensures var (next, collector) := MetricCollector(store, registrar, blacklist, e, gpus);
            var after := CollectEntry(store, registrar, blacklist, e, gpus);
            && (collector.None? ==> after.values == store.values)
            && (collector.Some? ==> after.values == store.values[collector.value := MonitorNormalizer.NormalizeValue(e.data, e.sourceUnits)])
            && Grows(store, after)
  {
  }

  /** Collecting `a + b` is collecting `a` and then `b`. */
  lemma {:induction false} CollectAppend(store: Store, registrar: Registrar, blacklist: seq<Pattern>,
                                         a: seq<Entry>, b: seq<Entry>, gpus: seq<Gpu>)
    requires IndexesNonNegative(a) && IndexesNonNegative(b)
    ensures IndexesNonNegative(a + b)
    ensures CollectMetrics(store, registrar, blacklist, a + b, gpus)
            == CollectMetrics(CollectMetrics(store, registrar, blacklist, a, gpus), registrar, blacklist, b, gpus)
    decreases |b|
  {
    assert forall i :: 0 <= i < |a + b| ==> (a + b)[i] == if i < |a| then a[i] else b[i - |a|];
    if |b| == 0 {
      assert a + b == a;
    } else {
      var b' := b[..|b| - 1];
      assert (a + b)[..|a + b| - 1] == a + b';
      assert IndexesNonNegative(b');
      CollectAppend(store, registrar, blacklist, a, b', gpus);
    }
  }

  /** Collection only grows the registry and the set of series. */
  lemma {:induction false} CollectGrows(store: Store, registrar: Registrar, blacklist: seq<Pattern>,
                                        entries: seq<Entry>, gpus: seq<Gpu>)
    requires IndexesNonNegative(entries)
    ensures Grows(store, CollectMetrics(store, registrar, blacklist, entries, gpus))
    decreases |entries|
  {
    if |entries| > 0 {
      var last := |entries| - 1;
      var before := CollectMetrics(store, registrar, blacklist, entries[..last], gpus);
      CollectGrows(store, registrar, blacklist, entries[..last], gpus);
      CollectEntryEffect(before, registrar, blacklist, entries[last], gpus);
      GrowsTransitive(store, before, CollectMetrics(store, registrar, blacklist, entries, gpus));
    }
  }

  // ---------------------------------------------------------------------------
  // pollMetrics

  /** The cache is refreshed from a snapshot when there is no cache yet or
      after enough failures, and only if the snapshot lists a GPU. */
  predicate RefreshesCache(m: Monitor, snapshot: Snapshot) {
    (m.gpus.None? || m.failureCount >= RefreshAfter) && |snapshot.gpus| > 0
  }

  /** `pollMetrics`: query; on error return it with the store untouched; on
      success update the cache, reset the failures and collect the entries. */
  function Poll(m: Monitor, store: Store, registrar: Registrar, blacklist: seq<Pattern>, outcome: FetchOutcome)
    : (r: (Monitor, Store, Result<(), FetchError>))
    requires WellIndexed(outcome)
    ensures r.2.Failure? <==> Received(outcome).Failure?
    ensures r.0.done == m.done
  {
    var (queried, received) := Query(m, outcome);
    match received
    case Failure(e) => (queried, store, Failure(e))
    case Success(snapshot) =>
      var gpus := if RefreshesCache(queried, snapshot) then Some(snapshot.gpus) else queried.gpus;
      (queried.(gpus := gpus, failureCount := 0),
       CollectMetrics(store, registrar, blacklist, snapshot.entries, snapshot.gpus),
       Success(()))
  }

  /** A failed poll returns the error and leaves the cache and the metrics
      alone; only a transport error is counted. */
  lemma FailedPollTouchesOnlyTheCount(m: Monitor, store: Store, registrar: Registrar, blacklist: seq<Pattern>,
                                      outcome: FetchOutcome)
    requires WellIndexed(outcome)
    requires Received(outcome).Failure?
    ensures var (m', store', result) := Poll(m, store, registrar, blacklist, outcome);
            && store' == store && m'.gpus == m.gpus
            && result == Failure(Received(outcome).error)
            && m'.failureCount == if outcome.TransportFailed? then m.failureCount + 1 else m.failureCount
  {
  }

  /** On success the cache is replaced by the snapshot's GPU list exactly
      when there was no cache or enough failures and the list is non-empty,
      and the failure count is back to zero either way. */
  lemma SuccessfulPollCache(m: Monitor, store: Store, registrar: Registrar, blacklist: seq<Pattern>,
                            outcome: FetchOutcome)
    requires WellIndexed(outcome)
    requires Received(outcome).Success?
    ensures var snapshot := Received(outcome).value;
            var m' := Poll(m, store, registrar, blacklist, outcome).0;
            && m'.failureCount == 0
            && (RefreshesCache(m, snapshot) ==> m'.gpus == Some(snapshot.gpus))
            && (!RefreshesCache(m, snapshot) ==> m'.gpus == m.gpus)
  {
  }

  /** The metrics come from the snapshot alone: two monitors in any states
      store the same values for the same answer. */
  lemma OutputIgnoresCache(m1: Monitor, m2: Monitor, store: Store, registrar: Registrar, blacklist: seq<Pattern>,
                           outcome: FetchOutcome)
    requires WellIndexed(outcome)
    ensures Poll(m1, store, registrar, blacklist, outcome).1 == Poll(m2, store, registrar, blacklist, outcome).1
    ensures Poll(m1, store, registrar, blacklist, outcome).2 == Poll(m2, store, registrar, blacklist, outcome).2
  {
  }

  /** `k` transport failures in a row. */
  function FailTimes(m: Monitor, k: nat): (r: Monitor)
    ensures r.gpus == m.gpus && r.done == m.done
  {
    if k == 0 then m else Query(FailTimes(m, k - 1), TransportFailed).0
  }

  lemma {:induction false} FailTimesCounts(m: Monitor, k: nat)
    ensures FailTimes(m, k).failureCount == m.failureCount + k
  {
    if k > 0 {
      FailTimesCounts(m, k - 1);
    }
  }

  /** After a start, a cache filled by a first answer is refreshed by a later
      answer with GPUs exactly when at least three transport failures came in
      between. */
  lemma RefreshAfterFailures(first: Snapshot, later: Snapshot, k: nat, m: Monitor,
                             store: Store, registrar: Registrar, blacklist: seq<Pattern>)
    requires IndexesNonNegative(first.entries) && IndexesNonNegative(later.entries)
    requires |first.gpus| > 0 && |later.gpus| > 0
    ensures var started := Start(m);
            var cached := Poll(started, store, registrar, blacklist, Answered(200, Some(first))).0;
            var failed := FailTimes(cached, k);
            var refreshed := Poll(failed, store, registrar, blacklist, Answered(200, Some(later))).0;
            && cached.gpus == Some(first.gpus)
            && (refreshed.gpus == Some(later.gpus) <==> k >= RefreshAfter || later.gpus == first.gpus)
            && (k < RefreshAfter ==> refreshed.gpus == Some(first.gpus))
  {
    var started := Start(m);
    var cached := Poll(started, store, registrar, blacklist, Answered(200, Some(first))).0;
    FailTimesCounts(cached, k);
  }
}
