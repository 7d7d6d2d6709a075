/** The scrape collector of the `afterburner-exporter` command: one scrape
    maps a fetched snapshot to the ordered list of metrics it emits. */
module Collector {
  import opened Wrappers
  import opened Hardware
  import opened Matchers
  import opened NameRules
  import opened Registry
  import Normalizer

  /** A constant gauge sample as the collector sends it. */
  datatype Metric = Metric(name: string, labels: map<string, string>, value: real)

  /** The family of the GPU inventory metric. */
  const GpuInfoName: string := "afterburner_gpu"

  /** `getMetric`: the metric for one entry, or nothing when its name does
      not normalize. The GPU list is the snapshot's. */
  function EntryMetric(blacklist: seq<Pattern>, e: Entry, gpus: seq<Gpu>): (r: Option<Metric>)
    requires e.gpuIndex >= 0
    ensures r.None? <==> Normalizer.NormalizeName(blacklist, e, Some(gpus)).Failure?
    ensures r.Some? ==>
              var c := Normalizer.NormalizeName(blacklist, e, Some(gpus)).value;
              r.value == Metric(FamilyName(c.identifier), c.labels, Normalizer.NormalizeValue(e.data, e.sourceUnits))
  {
    match Normalizer.NormalizeName(blacklist, e, Some(gpus))
    case Failure(_) => None
    case Success(c) => Some(Metric(FamilyName(c.identifier), c.labels, Normalizer.NormalizeValue(e.data, e.sourceUnits)))
  }

  /** The metrics of the entries, in entry order, skipping entries that fail. */
  function EntryMetrics(blacklist: seq<Pattern>, entries: seq<Entry>, gpus: seq<Gpu>): seq<Metric>
    requires IndexesNonNegative(entries)
    decreases |entries|
  {
    if |entries| == 0 then []
    else
      var last := |entries| - 1;
      var front := EntryMetrics(blacklist, entries[..last], gpus);
      match EntryMetric(blacklist, entries[last], gpus)
      case None => front
      case Some(m) => front + [m]
  }

  /** The inventory metric for one GPU: value 1, the description in labels. */
  function GpuInfo(g: Gpu): (r: Metric)
    ensures r.name == GpuInfoName && r.value == 1.0
    ensures r.labels.Keys == {"name", "id", "bios", "driver", "family"}
    ensures r.labels["name"] == g.device && r.labels["id"] == g.gpuId && r.labels["bios"] == g.bios
    ensures r.labels["driver"] == g.driver && r.labels["family"] == g.family
  {
    Metric(GpuInfoName, map["name" := g.device, "id" := g.gpuId, "bios" := g.bios,
                            "driver" := g.driver, "family" := g.family], 1.0)
  }

  /** `Collect`: nothing when the fetch fails; otherwise the entry metrics,
      then one inventory metric per GPU, in order. */
  function Collect(blacklist: seq<Pattern>, outcome: FetchOutcome): (r: seq<Metric>)
    requires WellIndexed(outcome)
    ensures Received(outcome).Failure? ==> r == []
  {
    match Received(outcome)
    case Failure(_) => []
    case Success(snapshot) =>
      EntryMetrics(blacklist, snapshot.entries, snapshot.gpus)
      + seq(|snapshot.gpus|, i requires 0 <= i < |snapshot.gpus| => GpuInfo(snapshot.gpus[i]))
  }

  /** The number of entries whose names normalize. */
  function Normalized(blacklist: seq<Pattern>, entries: seq<Entry>, gpus: seq<Gpu>): nat
    requires IndexesNonNegative(entries)
    decreases |entries|
  {
    if |entries| == 0 then 0
    else
      var last := |entries| - 1;
      Normalized(blacklist, entries[..last], gpus)
      + if Normalizer.NormalizeName(blacklist, entries[last], Some(gpus)).Success? then 1 else 0
  }

  /** One metric per entry that normalizes. */
  lemma {:induction false} EntryMetricsCount(blacklist: seq<Pattern>, entries: seq<Entry>, gpus: seq<Gpu>)
    requires IndexesNonNegative(entries)
    ensures |EntryMetrics(blacklist, entries, gpus)| == Normalized(blacklist, entries, gpus)
    decreases |entries|
  {
    if |entries| > 0 {
      EntryMetricsCount(blacklist, entries[..|entries| - 1], gpus);
    }
  }

  /** A scrape emits one metric per normalized entry plus one per GPU. */
  lemma CollectCount(blacklist: seq<Pattern>, snapshot: Snapshot)
    requires IndexesNonNegative(snapshot.entries)
    ensures |Collect(blacklist, Answered(200, Some(snapshot)))|
            == Normalized(blacklist, snapshot.entries, snapshot.gpus) + |snapshot.gpus|
  {
    EntryMetricsCount(blacklist, snapshot.entries, snapshot.gpus);
  }

  /** The metrics of the last entry, as a list of zero or one. */
  function Listed(m: Option<Metric>): (r: seq<Metric>)
    ensures |r| <= 1 && (m.Some? ==> r == [m.value])
  {
    match m
    case None => []
    case Some(x) => [x]
  }

  /** Unfolding `EntryMetrics` once, at the last entry. */
  lemma EntryMetricsLast(blacklist: seq<Pattern>, entries: seq<Entry>, gpus: seq<Gpu>)
    requires IndexesNonNegative(entries) && |entries| > 0
    ensures IndexesNonNegative(entries[..|entries| - 1])
    ensures EntryMetrics(blacklist, entries, gpus)
            == EntryMetrics(blacklist, entries[..|entries| - 1], gpus)
               + Listed(EntryMetric(blacklist, entries[|entries| - 1], gpus))
  {
  }

  /** Dropping the last entry of `a + b`, for a non-empty `b`. */
  lemma ConcatFront(a: seq<Entry>, b: seq<Entry>)
    requires |b| > 0
    ensures (a + b)[..|a + b| - 1] == a + b[..|b| - 1]
    ensures (a + b)[|a + b| - 1] == b[|b| - 1]
  {
  }

  lemma ConcatIndexes(a: seq<Entry>, b: seq<Entry>)
    requires IndexesNonNegative(a) && IndexesNonNegative(b)
    ensures IndexesNonNegative(a + b)
  {
    assert forall i :: 0 <= i < |a + b| ==> (a + b)[i] == if i < |a| then a[i] else b[i - |a|];
  }

  /** Entry order is kept: the metrics of `a + b` are those of `a`, then those of `b`. */
  lemma {:induction false} EntryMetricsAppend(blacklist: seq<Pattern>, a: seq<Entry>, b: seq<Entry>, gpus: seq<Gpu>)
    requires IndexesNonNegative(a) && IndexesNonNegative(b)
    ensures IndexesNonNegative(a + b)
    ensures EntryMetrics(blacklist, a + b, gpus) == EntryMetrics(blacklist, a, gpus) + EntryMetrics(blacklist, b, gpus)
    decreases |b|
  {
    ConcatIndexes(a, b);
    if |b| == 0 {
      assert a + b == a;
    } else {
      var b' := b[..|b| - 1];
      var tail := Listed(EntryMetric(blacklist, b[|b| - 1], gpus));
      ConcatFront(a, b);
      EntryMetricsLast(blacklist, b, gpus);
      EntryMetricsLast(blacklist, a + b, gpus);
      EntryMetricsAppend(blacklist, a, b', gpus);
      calc {
        EntryMetrics(blacklist, a + b, gpus);
        EntryMetrics(blacklist, a + b', gpus) + tail;
        EntryMetrics(blacklist, a, gpus) + EntryMetrics(blacklist, b', gpus) + tail;
        EntryMetrics(blacklist, a, gpus) + EntryMetrics(blacklist, b, gpus);
      }
    }
  }

  /** A single entry emits its own metric, or nothing if its name fails. */
  lemma EntryMetricsSingle(blacklist: seq<Pattern>, e: Entry, gpus: seq<Gpu>)
    requires e.gpuIndex >= 0
    ensures IndexesNonNegative([e])
    ensures EntryMetrics(blacklist, [e], gpus)
            == match EntryMetric(blacklist, e, gpus) case None => [] case Some(m) => [m]
  {
    assert [e][..0] == [];
  }

  /** A scrape opens with the entry metrics, and the inventory metrics close
      it, one per GPU, in GPU order. */
  lemma GpuMetricsLast(blacklist: seq<Pattern>, snapshot: Snapshot)
    requires IndexesNonNegative(snapshot.entries)
    ensures var out := Collect(blacklist, Answered(200, Some(snapshot)));
            var n := |EntryMetrics(blacklist, snapshot.entries, snapshot.gpus)|;
            && |out| == n + |snapshot.gpus|
            && out[..n] == EntryMetrics(blacklist, snapshot.entries, snapshot.gpus)
            && forall i :: 0 <= i < |snapshot.gpus| ==> out[n + i] == GpuInfo(snapshot.gpus[i])
  {
    var entryPart := EntryMetrics(blacklist, snapshot.entries, snapshot.gpus);
    var gpuPart := seq(|snapshot.gpus|, i requires 0 <= i < |snapshot.gpus| => GpuInfo(snapshot.gpus[i]));
    assert Received(Answered(200, Some(snapshot))) == Success(snapshot);
    assert Collect(blacklist, Answered(200, Some(snapshot))) == entryPart + gpuPart;
  }

  /** One more entry adds its metric, if any, at the end. */
  lemma EntryMetricsStep(blacklist: seq<Pattern>, entries: seq<Entry>, gpus: seq<Gpu>, i: nat)
    requires IndexesNonNegative(entries) && i < |entries|
    ensures IndexesNonNegative(entries[..i]) && IndexesNonNegative(entries[..i + 1])
    ensures EntryMetrics(blacklist, entries[..i + 1], gpus)
            == EntryMetrics(blacklist, entries[..i], gpus)
               + match EntryMetric(blacklist, entries[i], gpus) case None => [] case Some(m) => [m]
  {
    var front := entries[..i + 1];
    assert front[..i] == entries[..i] && front[i] == entries[i];
  }

  /** The first loop of `Collect`: entries in order, appending each metric. */
  method EntryLoop(blacklist: seq<Pattern>, entries: seq<Entry>, gpus: seq<Gpu>) returns (out: seq<Metric>)
    requires IndexesNonNegative(entries)
    ensures out == EntryMetrics(blacklist, entries, gpus)
  {
    out := [];
    var i := 0;
    while i < |entries|
      invariant 0 <= i <= |entries|
      invariant IndexesNonNegative(entries[..i])
      invariant out == EntryMetrics(blacklist, entries[..i], gpus)
    {
      EntryMetricsStep(blacklist, entries, gpus, i);
      var metric := EntryMetric(blacklist, entries[i], gpus);
      if metric.Some? {
        out := out + [metric.value];
      }
      i := i + 1;
    }
    assert entries[..i] == entries;
  }

  /** The second loop of `Collect`: one inventory metric per GPU. */
  method GpuLoop(gpus: seq<Gpu>) returns (out: seq<Metric>)
    ensures out == seq(|gpus|, i requires 0 <= i < |gpus| => GpuInfo(gpus[i]))
  {
    out := [];
    var j := 0;
    while j < |gpus|
      invariant 0 <= j <= |gpus|
      invariant |out| == j
      invariant forall k :: 0 <= k < j ==> out[k] == GpuInfo(gpus[k])
    {
      out := out + [GpuInfo(gpus[j])];
      j := j + 1;
    }
  }

  /** `Collect` as the source runs it: the entry loop, then the GPU loop. */
  method CollectLoop(blacklist: seq<Pattern>, outcome: FetchOutcome) returns (out: seq<Metric>)
    requires WellIndexed(outcome)
    ensures out == Collect(blacklist, outcome)
  {
    var received := Received(outcome);
    if received.Failure? {
      return [];
    }
    var snapshot := received.value;
    var entryPart := EntryLoop(blacklist, snapshot.entries, snapshot.gpus);
    var gpuPart := GpuLoop(snapshot.gpus);
    out := entryPart + gpuPart;
  }
}
