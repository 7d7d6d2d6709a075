/** The name and value normalizers of the `afterburner-exporter` command: the
    newest variant, with the frame-percentile rule and five GPU labels. */
module Normalizer {
  import opened Wrappers
  import opened Text
  import opened Matchers
  import opened Hardware
  import opened NameRules

  /** The labels that describe the GPU an entry belongs to. */
  const GpuLabelNames: set<string> := {"gpu", "gpu_id", "gpu_bios", "gpu_driver", "gpu_family"}

  function GpuLabels(g: Gpu): (m: map<string, string>)
    ensures m.Keys == GpuLabelNames
  {
    map["gpu" := g.device, "gpu_id" := g.gpuId, "gpu_bios" := g.bios,
        "gpu_driver" := g.driver, "gpu_family" := g.family]
  }

  /** The `core` label of the CPU rule. */
  function CpuLabel(cpu: CpuMatch): map<string, string> {
    if cpu.Core? then map["core" := cpu.number] else map[]
  }

  /** The `percent` label of the frame rule (the group is never empty). */
  function FrameLabel(frame: Option<string>): map<string, string> {
    if frame.Some? && frame.value != "" then map["percent" := frame.value] else map[]
  }

  /** The unit suffix, replaced by `total` when the CPU rule found no core. */
  function Suffix(cpu: CpuMatch, unit: string): (r: string)
    ensures NoUpper(r)
  {
    MetricUnitsAreLowerCase();
    if cpu.AllCores? then "total" else UnitSuffix(MetricUnits, unit)
  }

  /** The identifier of a lower-cased, trimmed name with the given unit. */
  function Identifier(name: string, unit: string): (r: string)
    requires NoUpper(name)
    ensures IsIdentifier(r)
  {
    var full := WithSuffix(name, Suffix(MatchCpu(name), unit));
    CleanYieldsIdentifier(full);
    Clean(full)
  }

  /** The labels the CPU and frame rules set. */
  function RuleLabels(name: string): (r: map<string, string>)
    ensures r.Keys <= {"core", "percent"}
    ensures "core" in r <==> MatchCpu(name).Core?
    ensures MatchCpu(name).Core? ==> r["core"] == MatchCpu(name).number
    ensures "percent" in r <==> MatchFrame(name).Some?
    ensures MatchFrame(name).Some? ==> r["percent"] == MatchFrame(name).value
  {
    CpuLabel(MatchCpu(name)) + FrameLabel(MatchFrame(name))
  }

  /** `normalizeMetricName`: the identifier and labels of an entry, or the
      blacklist error. */
  function NormalizeName(blacklist: seq<Pattern>, entry: Entry, gpus: Option<seq<Gpu>>)
    : (r: Result<Canonical, NormalizeError>)
    requires entry.gpuIndex >= 0
    ensures r.Failure? <==> AnyMatches(blacklist, Lowered(entry.localizedSourceName))
    ensures r.Failure? ==> r.error == BlackListed(entry.localizedSourceName)
    ensures r.Success? ==> IsIdentifier(r.value.identifier)
    ensures r.Success? ==> r.value.labels.Keys <= {"core", "percent"} + GpuLabelNames
  {
    var name := Lowered(entry.localizedSourceName);
    if AnyMatches(blacklist, name) then Failure(BlackListed(entry.localizedSourceName))
    else
      ApplyGpuPatternsOnce(RuleLabels(name), GpuPatterns, name, entry.gpuIndex, gpus, GpuLabels);
      Success(Canonical(Identifier(name, entry.sourceUnits),
                        ApplyGpuPatterns(RuleLabels(name), GpuPatterns, name, entry.gpuIndex, gpus, GpuLabels)))
  }

  /** `normalizeMetricValue`: a dispatch on the exact unit string. */
  function NormalizeValue(value: real, unit: string): (r: real)
    ensures unit == "%" ==> r * 100.0 == value
    ensures unit == "MB" || unit == "MHz" ==> r == value * 1000000.0
    ensures unit !in {"%", "MB", "MHz"} ==> r == value
  {
    match unit
    case "%" => value / 100.0
    case "MB" => value * 1000000.0
    case "MHz" => value * 1000000.0
    case _ => value
  }

  lemma RuleKeysAreNotGpuKeys(rule: map<string, string>)
    requires rule.Keys <= {"core", "percent"}
    ensures rule.Keys !! GpuLabelNames
  {
  }

  /** Removing GPU labels from rule labels plus a GPU description leaves the
      rule labels. */
  lemma StripGpuLabels(rule: map<string, string>, extra: map<string, string>)
    requires rule.Keys <= {"core", "percent"}
    requires extra.Keys == GpuLabelNames
    ensures (rule + extra) - GpuLabelNames == rule
    ensures rule - GpuLabelNames == rule
  {
    assert rule.Keys !! GpuLabelNames;
    assert ((rule + extra) - GpuLabelNames).Keys == rule.Keys;
  }

  /** The labels of a normalized entry, GPU labels aside, are those the CPU
      and frame rules set. */
  lemma LabelsOutsideGpu(blacklist: seq<Pattern>, entry: Entry, gpus: Option<seq<Gpu>>)
    requires entry.gpuIndex >= 0
    requires !AnyMatches(blacklist, Lowered(entry.localizedSourceName))
    ensures NormalizeName(blacklist, entry, gpus).value.labels - GpuLabelNames
            == RuleLabels(Lowered(entry.localizedSourceName))
  {
    var name := Lowered(entry.localizedSourceName);
    ApplyGpuPatternsOnce(RuleLabels(name), GpuPatterns, name, entry.gpuIndex, gpus, GpuLabels);
    if GpuLabelled(GpuPatterns, name, entry.gpuIndex, gpus) {
      StripGpuLabels(RuleLabels(name), GpuLabels(gpus.value[entry.gpuIndex]));
    } else {
      StripGpuLabels(RuleLabels(name), GpuLabels(Gpu("", "", "", "", "", "")));
    }
  }

  /** The identifier depends only on the name and the unit: the GPU list and
      the GPU index change the labels alone. */
  lemma IdentifierIgnoresGpus(blacklist: seq<Pattern>, e1: Entry, g1: Option<seq<Gpu>>,
                              e2: Entry, g2: Option<seq<Gpu>>)
    requires e1.gpuIndex >= 0 && e2.gpuIndex >= 0
    requires e1.localizedSourceName == e2.localizedSourceName && e1.sourceUnits == e2.sourceUnits
    ensures NormalizeName(blacklist, e1, g1).Success? == NormalizeName(blacklist, e2, g2).Success?
    ensures NormalizeName(blacklist, e1, g1).Success? ==>
              NormalizeName(blacklist, e1, g1).value.identifier == NormalizeName(blacklist, e2, g2).value.identifier
    ensures NormalizeName(blacklist, e1, g1).Success? ==>
              NormalizeName(blacklist, e1, g1).value.labels - GpuLabelNames
              == NormalizeName(blacklist, e2, g2).value.labels - GpuLabelNames
  {
    var name := Lowered(e1.localizedSourceName);
    if !AnyMatches(blacklist, name) {
      LabelsOutsideGpu(blacklist, e1, g1);
      LabelsOutsideGpu(blacklist, e2, g2);
    }
  }

  /** The GPU loop adds one GPU description, or nothing, to the rule labels. */
  lemma LabelsClosedForm(blacklist: seq<Pattern>, entry: Entry, gpus: Option<seq<Gpu>>)
    requires entry.gpuIndex >= 0
    requires !AnyMatches(blacklist, Lowered(entry.localizedSourceName))
    ensures var name := Lowered(entry.localizedSourceName);
            NormalizeName(blacklist, entry, gpus).value.labels
            == if GpuLabelled(GpuPatterns, name, entry.gpuIndex, gpus)
               then RuleLabels(name) + GpuLabels(gpus.value[entry.gpuIndex])
               else RuleLabels(name)
  {
    var name := Lowered(entry.localizedSourceName);
    ApplyGpuPatternsOnce(RuleLabels(name), GpuPatterns, name, entry.gpuIndex, gpus, GpuLabels);
  }

  /** A GPU description overrides none of the rule labels. */
  lemma GpuDescriptionKeepsRules(rule: map<string, string>, g: Gpu)
    requires rule.Keys <= {"core", "percent"}
    ensures var labels := rule + GpuLabels(g);
      && ("core" in labels <==> "core" in rule)
      && ("core" in rule ==> labels["core"] == rule["core"])
      && ("percent" in labels <==> "percent" in rule)
      && ("percent" in rule ==> labels["percent"] == rule["percent"])
      && GpuLabelNames <= labels.Keys
      && labels["gpu"] == g.device && labels["gpu_id"] == g.gpuId
      && labels["gpu_bios"] == g.bios && labels["gpu_driver"] == g.driver
      && labels["gpu_family"] == g.family
  {
  }

  /** The CPU and frame rules set their own keys, and the GPU loop overrides
      neither: `core` holds the core number and `percent` the frame group. */
  lemma RuleLabelsKept(blacklist: seq<Pattern>, entry: Entry, gpus: Option<seq<Gpu>>)
    requires entry.gpuIndex >= 0
    requires !AnyMatches(blacklist, Lowered(entry.localizedSourceName))
    ensures var name := Lowered(entry.localizedSourceName);
            var labels := NormalizeName(blacklist, entry, gpus).value.labels;
            && ("core" in labels <==> MatchCpu(name).Core?)
            && (MatchCpu(name).Core? ==> labels["core"] == MatchCpu(name).number)
            && ("percent" in labels <==> MatchFrame(name).Some?)
            && (MatchFrame(name).Some? ==> labels["percent"] == MatchFrame(name).value)
  {
    var name := Lowered(entry.localizedSourceName);
    LabelsClosedForm(blacklist, entry, gpus);
    if GpuLabelled(GpuPatterns, name, entry.gpuIndex, gpus) {
      GpuDescriptionKeepsRules(RuleLabels(name), gpus.value[entry.gpuIndex]);
    }
  }

  /** GPU labels appear exactly when a GPU list is given, a GPU pattern
      matches the name and the index is in range; they then describe the GPU
      at that index. Otherwise no GPU label is set. */
  lemma GpuLabelRule(blacklist: seq<Pattern>, entry: Entry, gpus: Option<seq<Gpu>>)
    requires entry.gpuIndex >= 0
    requires !AnyMatches(blacklist, Lowered(entry.localizedSourceName))
    ensures var name := Lowered(entry.localizedSourceName);
            var labels := NormalizeName(blacklist, entry, gpus).value.labels;
            && (GpuLabelled(GpuPatterns, name, entry.gpuIndex, gpus) ==>
                  var g := gpus.value[entry.gpuIndex];
                  && GpuLabelNames <= labels.Keys
                  && labels["gpu"] == g.device && labels["gpu_id"] == g.gpuId
                  && labels["gpu_bios"] == g.bios && labels["gpu_driver"] == g.driver
                  && labels["gpu_family"] == g.family)
            && (!GpuLabelled(GpuPatterns, name, entry.gpuIndex, gpus) ==> labels.Keys !! GpuLabelNames)
  {
    var name := Lowered(entry.localizedSourceName);
    var labels := NormalizeName(blacklist, entry, gpus).value.labels;
    LabelsClosedForm(blacklist, entry, gpus);
    if GpuLabelled(GpuPatterns, name, entry.gpuIndex, gpus) {
      var g := gpus.value[entry.gpuIndex];
      assert labels == RuleLabels(name) + GpuLabels(g);
      GpuDescriptionKeepsRules(RuleLabels(name), g);
    } else {
      assert labels == RuleLabels(name);
      RuleKeysAreNotGpuKeys(RuleLabels(name));
    }
  }

  /** Unless the CPU rule finds `cpu` without a core number, the identifier
      is the cleaned name followed by `_` and the unit's suffix, or the
      cleaned name alone for an empty suffix. */
  lemma UnitSuffixRule(blacklist: seq<Pattern>, entry: Entry, gpus: Option<seq<Gpu>>)
    requires entry.gpuIndex >= 0
    requires !AnyMatches(blacklist, Lowered(entry.localizedSourceName))
    requires !MatchCpu(Lowered(entry.localizedSourceName)).AllCores?
    ensures var name := Lowered(entry.localizedSourceName);
            var suffix := UnitSuffix(MetricUnits, entry.sourceUnits);
            NormalizeName(blacklist, entry, gpus).value.identifier
              == if suffix == "" then Clean(name) else Clean(name + "_" + suffix)
  {
  }

  /** The CPU rule: a core number after the first `cpu` becomes the `core`
      label; without one the suffix is `total`, whatever the unit. */
  lemma CpuRule(blacklist: seq<Pattern>, entry: Entry, gpus: Option<seq<Gpu>>)
    requires entry.gpuIndex >= 0
    requires !AnyMatches(blacklist, Lowered(entry.localizedSourceName))
    ensures var name := Lowered(entry.localizedSourceName);
            var r := NormalizeName(blacklist, entry, gpus).value;
            && (MatchCpu(name).AllCores? ==> r.identifier == Clean(name + "_total") && "core" !in r.labels)
            && (MatchCpu(name).Core? ==> "core" in r.labels && r.labels["core"] == MatchCpu(name).number)
  {
    var name := Lowered(entry.localizedSourceName);
    if MatchCpu(name).AllCores? {
      TotalSuffix(name, entry.sourceUnits);
    }
    RuleLabelsKept(blacklist, entry, gpus);
  }

  /** Without a core number the suffix is `_total`, whatever the unit. */
  lemma TotalSuffix(name: string, unit: string)
    requires NoUpper(name) && MatchCpu(name).AllCores?
    ensures Identifier(name, unit) == Clean(name + "_total")
  {
    assert name + "_" + "total" == name + "_total";
  }

  /** An entry is blacklisted before any other rule runs, and the shipped
      blacklist never fires. */
  lemma NeverBlackListed(entry: Entry, gpus: Option<seq<Gpu>>)
    requires entry.gpuIndex >= 0
    ensures NormalizeName(ShippedBlackList, entry, gpus).Success?
  {
    ShippedBlackListIsEmpty(Lowered(entry.localizedSourceName));
  }

  /** An identifier is its own lowered form and, with an empty unit and no
      `cpu` in it, its own identifier. */
  lemma IdentifierFixesItself(id: string)
    requires IsIdentifier(id)
    requires !Contains(id, "cpu")
    ensures Lowered(id) == id
    ensures Identifier(id, "") == id
  {
    assert forall i :: 0 <= i < |id| ==> !IsTrimSpace(id[i]);
    assert TrimSpace(id) == id;
    assert NoUpper(id);
    ToLowerFixesLower(id);
    assert UnitSuffix(MetricUnits, "") == "" by {
      assert ToLower("") == "";
    }
    assert WithSuffix(id, Suffix(MatchCpu(id), "")) == id;
    CleanFixesIdentifier(id);
  }

  /** Re-normalizing an identifier with an empty unit gives it back, provided
      the identifier has no `cpu` in it (a name such as `c1pu` does not, but
      its identifier `cpu` does, see `SourceExamples.CpuAppearsAfterCleaning`). */
  lemma IdentifierIsFixpoint(blacklist: seq<Pattern>, entry: Entry, gpus: Option<seq<Gpu>>, again: Entry)
    requires entry.gpuIndex >= 0 && again.gpuIndex >= 0
    requires !AnyMatches(blacklist, Lowered(entry.localizedSourceName))
    requires again.localizedSourceName == NormalizeName(blacklist, entry, gpus).value.identifier
    requires again.sourceUnits == ""
    requires !Contains(again.localizedSourceName, "cpu")
    requires !AnyMatches(blacklist, again.localizedSourceName)
    ensures NormalizeName(blacklist, again, gpus).Success?
    ensures NormalizeName(blacklist, again, gpus).value.identifier == again.localizedSourceName
  {
    IdentifierFixesItself(again.localizedSourceName);
  }
}
