/** The oldest variant, `remote_hardware_monitor.go` at the repository root:
    its name normalizer (suffix appended without a separator, `_total` for a
    CPU name without a core, labels only for CPU names) and its poller, which
    sets every entry's gauge straight from the snapshot. */
module Legacy {
  import opened Wrappers
  import opened Text
  import opened Matchers
  import opened Hardware
  import opened NameRules
  import opened Registry
  import Normalizer

  /** The unit table of this variant: no `mhz` and no `mb`. */
  const LegacyUnits: map<string, string> := map[
    "c" := "celsius",
    "ms" := "millis",
    "w" := "watts",
    "%" := "percent"
  ]

  /** A normalized name; the label map is nil unless the CPU rule matched. */
  datatype LegacyCanonical = LegacyCanonical(identifier: string, labels: Option<map<string, string>>)

  /** The suffix the name gets, glued on without a separator. */
  function LegacySuffix(cpu: CpuMatch, unit: string): (r: string)
    ensures NoUpper(r)
  {
    assert LowerCaseValues(LegacyUnits);
    if cpu.AllCores? then "_total" else UnitSuffix(LegacyUnits, unit)
  }

  /** The label map of the CPU rule: nil without `cpu`, empty without a core. */
  function LegacyLabels(cpu: CpuMatch): (r: Option<map<string, string>>)
    ensures r.None? <==> cpu.NoCpu?
    ensures r.Some? ==> ("core" in r.value <==> cpu.Core?) && r.value.Keys <= {"core"}
    ensures cpu.Core? ==> r == Some(map["core" := cpu.number])
  {
    match cpu
    case NoCpu => None
    case AllCores => Some(map[])
    case Core(number) => Some(map["core" := number])
  }

  /** `normalizeMetricName(metricName, unit)` of the oldest variant. */
  function NormalizeName(blacklist: seq<Pattern>, metricName: string, unit: string)
    : (r: Result<LegacyCanonical, NormalizeError>)
    ensures r.Failure? <==> AnyMatches(blacklist, Lowered(metricName))
    ensures r.Failure? ==> r.error == BlackListed(metricName)
    ensures r.Success? ==> IsIdentifier(r.value.identifier)
    ensures r.Success? ==> (r.value.labels.None? <==> !Contains(Lowered(metricName), "cpu"))
  {
    var name := Lowered(metricName);
    if AnyMatches(blacklist, name) then Failure(BlackListed(metricName))
    else
      var cpu := MatchCpu(name);
      var full := name + LegacySuffix(cpu, unit);
      CleanYieldsIdentifier(full);
      Success(LegacyCanonical(Clean(full), LegacyLabels(cpu)))
  }

  /** The value the oldest poller sets: a percentage is scaled down only when
      the sensor's upper limit exceeds 1. */
  function LegacyValue(e: Entry): (r: real)
    ensures e.sourceUnits == "%" && e.maxLimit > 1.0 ==> r * 100.0 == e.data
    ensures !(e.sourceUnits == "%" && e.maxLimit > 1.0) ==> r == e.data
  {
    if e.sourceUnits == "%" && e.maxLimit > 1.0 then e.data / 100.0 else e.data
  }

  /** The oldest value rule against the command's `normalizeMetricValue`: a
      percentage with a limit above 1 and every unit other than `%`, `MB` and
      `MHz` get the same value; a percentage with a limit of at most 1, and
      `MB` and `MHz`, are scaled by the command only. For a non-zero reading
      the two agree exactly outside those cases. */
  lemma ValueAgainstCommand(e: Entry)
    ensures e.sourceUnits == "%" && e.maxLimit > 1.0 ==> LegacyValue(e) == Normalizer.NormalizeValue(e.data, e.sourceUnits)
    ensures e.sourceUnits == "%" && e.maxLimit <= 1.0 ==>
              LegacyValue(e) == e.data && Normalizer.NormalizeValue(e.data, e.sourceUnits) * 100.0 == e.data
    ensures e.sourceUnits == "MB" || e.sourceUnits == "MHz" ==>
              LegacyValue(e) == e.data && Normalizer.NormalizeValue(e.data, e.sourceUnits) == e.data * 1000000.0
    ensures e.sourceUnits !in {"%", "MB", "MHz"} ==> LegacyValue(e) == Normalizer.NormalizeValue(e.data, e.sourceUnits)
    ensures e.data != 0.0 ==>
              (LegacyValue(e) == Normalizer.NormalizeValue(e.data, e.sourceUnits)
               <==> !(e.sourceUnits == "%" && e.maxLimit <= 1.0) && e.sourceUnits !in {"MB", "MHz"})
  {
  }

  /** The legacy table is the newer table without `mhz` and `mb`, so those
      units are used lower-cased, as they come. */
  lemma LegacyUnitsAreOlderTable()
    ensures LegacyUnits.Keys == MetricUnits.Keys - {"mhz", "mb"}
    ensures forall u :: u in LegacyUnits ==> LegacyUnits[u] == MetricUnits[u]
    ensures UnitSuffix(LegacyUnits, "MHz") == "mhz" && UnitSuffix(LegacyUnits, "MB") == "mb"
  {
    assert ToLower("MHz") == "mhz";
    assert ToLower("MB") == "mb";
  }

  /** Without `cpu` in the name the suffix follows the name directly. */
  lemma SuffixWithoutSeparator(blacklist: seq<Pattern>, metricName: string, unit: string)
    requires !AnyMatches(blacklist, Lowered(metricName))
    requires !Contains(Lowered(metricName), "cpu")
    ensures NormalizeName(blacklist, metricName, unit).value.identifier
            == Clean(Lowered(metricName) + UnitSuffix(LegacyUnits, unit))
  {
  }

  /** A CPU name without a core number ends in `_total` whatever the unit. */
  lemma AllCoresTotal(blacklist: seq<Pattern>, metricName: string, unit: string)
    requires !AnyMatches(blacklist, Lowered(metricName))
    requires MatchCpu(Lowered(metricName)).AllCores?
    ensures NormalizeName(blacklist, metricName, unit).value.identifier == Clean(Lowered(metricName) + "_total")
    ensures NormalizeName(blacklist, metricName, unit).value.labels == Some(map[])
  {
  }

  /** Where the old and new variants meet: with an empty unit, or for a CPU
      name without a core, the oldest identifier equals the newer one. With a
      known unit they differ by the separator. */
  lemma AgreesWithCommandWithoutUnit(blacklist: seq<Pattern>, metricName: string, unit: string)
    requires !AnyMatches(blacklist, Lowered(metricName))
    requires unit == "" || MatchCpu(Lowered(metricName)).AllCores?
    ensures NormalizeName(blacklist, metricName, unit).value.identifier
            == Normalizer.Identifier(Lowered(metricName), unit)
  {
    var name := Lowered(metricName);
    if MatchCpu(name).AllCores? {
      assert name + "_" + "total" == name + "_total";
    } else {
      EmptyUnitHasNoSuffix(LegacyUnits);
      EmptyUnitHasNoSuffix(MetricUnits);
      assert LegacySuffix(MatchCpu(name), unit) == "";
      assert name + "" == name;
    }
  }

  // ---------------------------------------------------------------------------
  // pollMetrics

  /** One entry of the poll loop: look up the gauge by the entry's source name
      (not its localized name) and set the raw or scaled value; a blacklisted
      entry, or one whose registration is refused, sets nothing. */
  function PollEntry(store: Store, registrar: Registrar, blacklist: seq<Pattern>, e: Entry): Store {
    match NormalizeName(blacklist, e.sourceName, e.sourceUnits)
    case Failure(_) => store
    case Success(c) =>
      var (next, collector) := GetCollector(store, registrar, c.identifier, c.labels.GetOr(map[]));
      if collector.Some? then Set(next, collector.value, LegacyValue(e)) else next
  }

  /** The loop over the entries, in order. */
  function PollEntries(store: Store, registrar: Registrar, blacklist: seq<Pattern>, entries: seq<Entry>): Store
    decreases |entries|
  {
    if |entries| == 0 then store
    else PollEntry(PollEntries(store, registrar, blacklist, entries[..|entries| - 1]), registrar, blacklist, entries[|entries| - 1])
  }

  /** `pollMetrics`: a request, transport, status or decode error returns
      before any gauge is set; otherwise every entry is polled. */
  function Poll(store: Store, registrar: Registrar, blacklist: seq<Pattern>, outcome: FetchOutcome)
    : (r: (Store, Result<(), FetchError>))
    ensures r.1.Failure? <==> Received(outcome).Failure?
    ensures r.1.Failure? ==> r.0 == store && r.1.error == Received(outcome).error
  {
    match Received(outcome)
    case Failure(e) => (store, Failure(e))
    case Success(snapshot) => (PollEntries(store, registrar, blacklist, snapshot.entries), Success(()))
  }

  /** Polling one entry only adds to the registry, and a series of any other
      family keeps its value. A blacklisted entry, or one the registry
      refuses, leaves the store as it was. */
  lemma PollEntryFrame(store: Store, registrar: Registrar, blacklist: seq<Pattern>, e: Entry)
    ensures Grows(store, PollEntry(store, registrar, blacklist, e))
    ensures var after := PollEntry(store, registrar, blacklist, e);
            var r := NormalizeName(blacklist, e.sourceName, e.sourceUnits);
            forall s :: s in store.values && (r.Failure? || s.family != FamilyName(r.value.identifier))
                        ==> s in after.values && after.values[s] == store.values[s]
    ensures var r := NormalizeName(blacklist, e.sourceName, e.sourceUnits);
            r.Failure? || GetCollector(store, registrar, r.value.identifier, r.value.labels.GetOr(map[])).1.None?
            ==> PollEntry(store, registrar, blacklist, e) == store
  {
  }

  /** Entries in sequence: polling `a + b` is polling `a` and then `b`. */
  lemma {:induction false} PollEntriesAppend(store: Store, registrar: Registrar, blacklist: seq<Pattern>,
                                             a: seq<Entry>, b: seq<Entry>)
    ensures PollEntries(store, registrar, blacklist, a + b)
            == PollEntries(PollEntries(store, registrar, blacklist, a), registrar, blacklist, b)
    decreases |b|
  {
    if |b| == 0 {
      assert a + b == a;
    } else {
      var b' := b[..|b| - 1];
      assert (a + b)[..|a + b| - 1] == a + b';
      assert (a + b)[|a + b| - 1] == b[|b| - 1];
      PollEntriesAppend(store, registrar, blacklist, a, b');
    }
  }

  /** The registry only grows over a poll. */
  lemma {:induction false} PollEntriesGrows(store: Store, registrar: Registrar, blacklist: seq<Pattern>, entries: seq<Entry>)
    ensures Grows(store, PollEntries(store, registrar, blacklist, entries))
    decreases |entries|
  {
    if |entries| > 0 {
      var before := PollEntries(store, registrar, blacklist, entries[..|entries| - 1]);
      PollEntriesGrows(store, registrar, blacklist, entries[..|entries| - 1]);
      PollEntryFrame(before, registrar, blacklist, entries[|entries| - 1]);
      GrowsTransitive(store, before, PollEntries(store, registrar, blacklist, entries));
    }
  }

  /** The last entry to address a series decides its value: if the final
      entry gets a gauge, its series holds that entry's value afterwards. */
  lemma LastWriterWins(store: Store, registrar: Registrar, blacklist: seq<Pattern>, entries: seq<Entry>)
    requires |entries| > 0
    requires var e := entries[|entries| - 1];
             var before := PollEntries(store, registrar, blacklist, entries[..|entries| - 1]);
             && NormalizeName(blacklist, e.sourceName, e.sourceUnits).Success?
             && var c := NormalizeName(blacklist, e.sourceName, e.sourceUnits).value;
                registrar(before.families, FamilyName(c.identifier), c.labels.GetOr(map[]).Keys) != Rejected
    ensures var e := entries[|entries| - 1];
            var c := NormalizeName(blacklist, e.sourceName, e.sourceUnits).value;
            var after := PollEntries(store, registrar, blacklist, entries);
            var series := Series(FamilyName(c.identifier), c.labels.GetOr(map[]));
            series in after.values && after.values[series] == LegacyValue(e)
  {
  }
}
