/** The name and value normalizers of the `monitor` package: the middle
    variant, with four GPU labels and no frame-percentile rule. */
module MonitorNormalizer {
  import opened Wrappers
  import opened Text
  import opened Matchers
  import opened Hardware
  import opened NameRules
  import Normalizer

  /** The labels that describe the GPU an entry belongs to; there is no family. */
  const GpuLabelNames: set<string> := {"gpu", "gpu_id", "gpu_bios", "gpu_driver"}

  function GpuLabels(g: Gpu): (m: map<string, string>)
    ensures m.Keys == GpuLabelNames
  {
    map["gpu" := g.device, "gpu_id" := g.gpuId, "gpu_bios" := g.bios, "gpu_driver" := g.driver]
  }

  /** The `core` label, the only label the CPU rule sets. */
  function CoreLabel(cpu: CpuMatch): (r: map<string, string>)
    ensures r.Keys <= {"core"}
  {
    if cpu.Core? then map["core" := cpu.number] else map[]
  }

  /** The identifier: the CPU rule picks the suffix (`total` without a core
      number, else the unit's), then the clean-up. */
  function Identifier(name: string, unit: string): (r: string)
    requires NoUpper(name)
    ensures IsIdentifier(r)
  {
    var suffix := if MatchCpu(name).AllCores? then "total" else UnitSuffix(MetricUnits, unit);
    MetricUnitsAreLowerCase();
    var full := WithSuffix(name, suffix);
    CleanYieldsIdentifier(full);
    Clean(full)
  }

  /** The labels: the core label, then the GPU loop. */
  function Labels(name: string, index: nat, gpus: Option<seq<Gpu>>): (r: map<string, string>)
    ensures r.Keys <= {"core"} + GpuLabelNames
  {
    ApplyGpuPatternsOnce(CoreLabel(MatchCpu(name)), GpuPatterns, name, index, gpus, GpuLabels);
    ApplyGpuPatterns(CoreLabel(MatchCpu(name)), GpuPatterns, name, index, gpus, GpuLabels)
  }

  /** `normalizeMetricName`: the identifier and labels of an entry, or the
      blacklist error. The label map always exists, if empty. */
  function NormalizeName(blacklist: seq<Pattern>, entry: Entry, gpus: Option<seq<Gpu>>)
    : (r: Result<Canonical, NormalizeError>)
    requires entry.gpuIndex >= 0
    ensures r.Failure? <==> AnyMatches(blacklist, Lowered(entry.localizedSourceName))
    ensures r.Failure? ==> r.error == BlackListed(entry.localizedSourceName)
    ensures r.Success? ==> IsIdentifier(r.value.identifier)
    ensures r.Success? ==> r.value.labels.Keys <= {"core"} + GpuLabelNames
  {
    var name := Lowered(entry.localizedSourceName);
    if AnyMatches(blacklist, name) then Failure(BlackListed(entry.localizedSourceName))
    else Success(Canonical(Identifier(name, entry.sourceUnits), Labels(name, entry.gpuIndex, gpus)))
  }

  /** `normalizeMetricValue` of this package. */
  function NormalizeValue(value: real, unit: string): (r: real)
    ensures unit == "%" ==> r * 100.0 == value
    ensures unit == "MB" || unit == "MHz" ==> r == value * 1000000.0
    ensures unit !in {"%", "MB", "MHz"} ==> r == value
  {
    if unit == "%" then value / 100.0
    else if unit == "MB" || unit == "MHz" then value * 1000000.0
    else value
  }

  /** The value normalizer agrees with the command's on every input. */
  lemma ValueAsInCommand(value: real, unit: string)
    ensures NormalizeValue(value, unit) == Normalizer.NormalizeValue(value, unit)
  {
  }

  /** The labels in closed form: the core label plus, when the GPU loop
      fires, the description of the GPU at the entry's index. */
  lemma LabelsClosedForm(blacklist: seq<Pattern>, entry: Entry, gpus: Option<seq<Gpu>>)
    requires entry.gpuIndex >= 0
    requires !AnyMatches(blacklist, Lowered(entry.localizedSourceName))
    ensures var name := Lowered(entry.localizedSourceName);
            NormalizeName(blacklist, entry, gpus).value.labels
            == if GpuLabelled(GpuPatterns, name, entry.gpuIndex, gpus)
               then CoreLabel(MatchCpu(name)) + GpuLabels(gpus.value[entry.gpuIndex])
               else CoreLabel(MatchCpu(name))
  {
    var name := Lowered(entry.localizedSourceName);
    ApplyGpuPatternsOnce(CoreLabel(MatchCpu(name)), GpuPatterns, name, entry.gpuIndex, gpus, GpuLabels);
  }

  /** The four-key description is the five-key one without the family. */
  lemma DescriptionsAgree(g: Gpu)
    ensures GpuLabels(g) == Normalizer.GpuLabels(g) - {"gpu_family"}
  {
  }

  /** Dropping the frame label and the family from the command's labels
      leaves the labels of this package. */
  lemma DropNewerLabels(core: map<string, string>, frame: map<string, string>, g: Gpu)
    requires core.Keys <= {"core"} && frame.Keys <= {"percent"}
    ensures (core + frame) - {"percent", "gpu_family"} == core
    ensures (core + frame + Normalizer.GpuLabels(g)) - {"percent", "gpu_family"} == core + GpuLabels(g)
  {
    DescriptionsAgree(g);
    var both := core + frame + Normalizer.GpuLabels(g);
    assert (both - {"percent", "gpu_family"}).Keys == (core + GpuLabels(g)).Keys;
    assert ((core + frame) - {"percent", "gpu_family"}).Keys == core.Keys;
  }

  /** The middle and newest variants agree on every input up to labels:
      the same entries fail, the identifiers are equal, and the labels here
      are the command's labels without `percent` and `gpu_family`. */
  lemma AgreesWithCommand(blacklist: seq<Pattern>, entry: Entry, gpus: Option<seq<Gpu>>)
    requires entry.gpuIndex >= 0
    ensures NormalizeName(blacklist, entry, gpus).Success? == Normalizer.NormalizeName(blacklist, entry, gpus).Success?
    ensures NormalizeName(blacklist, entry, gpus).Success? ==>
              NormalizeName(blacklist, entry, gpus).value.identifier
              == Normalizer.NormalizeName(blacklist, entry, gpus).value.identifier
    ensures NormalizeName(blacklist, entry, gpus).Success? ==>
              NormalizeName(blacklist, entry, gpus).value.labels
              == Normalizer.NormalizeName(blacklist, entry, gpus).value.labels - {"percent", "gpu_family"}
  {
    var name := Lowered(entry.localizedSourceName);
    if !AnyMatches(blacklist, name) {
      IdentifiersAgree(name, entry.sourceUnits);
      LabelsAgree(blacklist, entry, gpus);
    }
  }

  /** The two identifier pipelines are the same. */
  lemma IdentifiersAgree(name: string, unit: string)
    requires NoUpper(name)
    ensures Identifier(name, unit) == Normalizer.Identifier(name, unit)
  {
  }

  /** The labels here are the command's without `percent` and `gpu_family`. */
  lemma LabelsAgree(blacklist: seq<Pattern>, entry: Entry, gpus: Option<seq<Gpu>>)
    requires entry.gpuIndex >= 0
    requires !AnyMatches(blacklist, Lowered(entry.localizedSourceName))
    ensures NormalizeName(blacklist, entry, gpus).value.labels
            == Normalizer.NormalizeName(blacklist, entry, gpus).value.labels - {"percent", "gpu_family"}
  {
    var name := Lowered(entry.localizedSourceName);
    var core := CoreLabel(MatchCpu(name));
    var frame := Normalizer.FrameLabel(MatchFrame(name));
    LabelsClosedForm(blacklist, entry, gpus);
    Normalizer.LabelsClosedForm(blacklist, entry, gpus);
    RuleLabelsSplit(name);
    if GpuLabelled(GpuPatterns, name, entry.gpuIndex, gpus) {
      DropNewerLabels(core, frame, gpus.value[entry.gpuIndex]);
    } else {
      DropNewerLabels(core, frame, Gpu("", "", "", "", "", ""));
    }
  }

  /** The command's rule labels are the core label and the frame label. */
  lemma RuleLabelsSplit(name: string)
    ensures Normalizer.RuleLabels(name) == CoreLabel(MatchCpu(name)) + Normalizer.FrameLabel(MatchFrame(name))
  {
  }

  /** Adding a GPU description to the core label. */
  lemma DescriptionAdded(core: map<string, string>, g: Gpu)
    requires core.Keys <= {"core"}
    ensures core.Keys !! GpuLabelNames
    ensures var labels := core + GpuLabels(g);
      && labels.Keys >= GpuLabelNames && "gpu_family" !in labels
      && labels["gpu"] == g.device && labels["gpu_id"] == g.gpuId
      && labels["gpu_bios"] == g.bios && labels["gpu_driver"] == g.driver
  {
  }

  /** GPU labels appear exactly when a GPU list is given, a GPU pattern
      matches the name and the index is in range; an index past the end only
      leaves them out. */
  lemma GpuLabelRule(blacklist: seq<Pattern>, entry: Entry, gpus: Option<seq<Gpu>>)
    requires entry.gpuIndex >= 0
    requires !AnyMatches(blacklist, Lowered(entry.localizedSourceName))
    ensures var name := Lowered(entry.localizedSourceName);
            var labels := NormalizeName(blacklist, entry, gpus).value.labels;
            && (GpuLabelled(GpuPatterns, name, entry.gpuIndex, gpus) ==>
                  var g := gpus.value[entry.gpuIndex];
                  && labels.Keys >= GpuLabelNames && "gpu_family" !in labels
                  && labels["gpu"] == g.device && labels["gpu_id"] == g.gpuId
                  && labels["gpu_bios"] == g.bios && labels["gpu_driver"] == g.driver)
            && (!GpuLabelled(GpuPatterns, name, entry.gpuIndex, gpus) ==> labels.Keys !! GpuLabelNames)
  {
    var name := Lowered(entry.localizedSourceName);
    var labels := NormalizeName(blacklist, entry, gpus).value.labels;
    LabelsClosedForm(blacklist, entry, gpus);
    var core := CoreLabel(MatchCpu(name));
    if GpuLabelled(GpuPatterns, name, entry.gpuIndex, gpus) {
      var g := gpus.value[entry.gpuIndex];
      assert labels == core + GpuLabels(g);
      DescriptionAdded(core, g);
    } else {
      assert labels == core;
      DescriptionAdded(core, Gpu("", "", "", "", "", ""));
    }
  }

  /** Re-normalizing an identifier with an empty unit gives it back when the
      identifier has no `cpu` in it; this variant inherits the property from
      the command's normalizer, whose identifiers it shares. */
  lemma IdentifierIsFixpoint(blacklist: seq<Pattern>, entry: Entry, gpus: Option<seq<Gpu>>, again: Entry)
    requires entry.gpuIndex >= 0 && again.gpuIndex >= 0
    requires !AnyMatches(blacklist, Lowered(entry.localizedSourceName))
    requires again.localizedSourceName == NormalizeName(blacklist, entry, gpus).value.identifier
    requires again.sourceUnits == ""
    requires !Contains(again.localizedSourceName, "cpu")
    requires !AnyMatches(blacklist, again.localizedSourceName)
    ensures NormalizeName(blacklist, again, gpus).Success?
    ensures NormalizeName(blacklist, again, gpus).value.identifier == again.localizedSourceName
  {
    AgreesWithCommand(blacklist, entry, gpus);
    Normalizer.IdentifierIsFixpoint(blacklist, entry, gpus, again);
    AgreesWithCommand(blacklist, again, gpus);
  }
}
