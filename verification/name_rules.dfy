/** Configuration and steps that the later name normalizers (the `monitor`
    package and the `afterburner-exporter` command) share: the unit table, the
    GPU-scoping patterns, the blacklist and the loop that attaches GPU labels. */
module NameRules {
  import opened Wrappers
  import opened Text
  import opened Matchers
  import opened Hardware

  /** The only error a name normalizer returns; it carries the name as given. */
  datatype NormalizeError = BlackListed(metricName: string)

  /** A normalized metric: its identifier and the labels of this entry. */
  datatype Canonical = Canonical(identifier: string, labels: map<string, string>)

  /** The blacklist compiled into the program. Its only pattern is commented
      out, so it is empty. */
  const ShippedBlackList: seq<Pattern> := []

  /** The GPU-scoping patterns, in the order the loop tries them. */
  const GpuPatterns: seq<Pattern> := [
    AnyOf(["gpu"]),
    AnyOf(["fb usage", "vid usage", "bus usage", "memory usage"]),
    AnyOf(["core clock", "memory clock"]),
    EndThenStart("power"),
    AnyOf(["fan speed", "fan tachometer"]),
    AnyOf(["temp limit", "power limit", "voltage limit", "no load limit"])
  ]

  /** The unit table of the later normalizers, keyed by lower-cased unit. */
  const MetricUnits: map<string, string> := map[
    "c" := "celsius",
    "ms" := "millis",
    "w" := "watts",
    "%" := "percent",
    "mhz" := "hertz",
    "mb" := "bytes"
  ]

  /** Every suffix a table can yield is free of upper-case letters. */
  ghost predicate LowerCaseValues(table: map<string, string>) {
    forall u :: u in table ==> NoUpper(table[u])
  }

  /** The lower-cased trimmed name every normalizer starts from. */
  function Lowered(metricName: string): (r: string)
    ensures NoUpper(r)
  {
    ToLower(TrimSpace(metricName))
  }

  /** Suffix lookup: the table entry for the lower-cased unit, or the
      lower-cased unit itself when the table has no entry. */
  function UnitSuffix(table: map<string, string>, unit: string): (r: string)
    ensures ToLower(unit) in table ==> r == table[ToLower(unit)]
    ensures ToLower(unit) !in table ==> r == ToLower(unit)
    ensures LowerCaseValues(table) ==> NoUpper(r)
  {
    var lower := ToLower(unit);
    if lower in table then table[lower] else lower
  }

  /** The lookup ignores the case of the unit. */
  lemma UnitSuffixIgnoresCase(table: map<string, string>, unit: string)
    ensures UnitSuffix(table, unit) == UnitSuffix(table, ToLower(unit))
  {
    ToLowerIdempotent(unit);
  }

  /** An empty unit gives an empty suffix unless the table maps it. */
  lemma EmptyUnitHasNoSuffix(table: map<string, string>)
    requires "" !in table
    ensures UnitSuffix(table, "") == ""
  {
  }

  lemma MetricUnitsAreLowerCase()
    ensures LowerCaseValues(MetricUnits)
  {
  }

  /** The name followed by `_` and the suffix, or the bare name if the suffix
      is empty. */
  function WithSuffix(name: string, suffix: string): (r: string)
    ensures NoUpper(name) && NoUpper(suffix) ==> NoUpper(r)
    ensures suffix == "" ==> r == name
    ensures suffix != "" ==> r == name + "_" + suffix
  {
    if suffix != "" then name + "_" + suffix else name
  }

  /** The loop over the GPU patterns: for every pattern that matches a name,
      with a GPU list given, the GPU at the entry's index is described in the
      labels if the index is in range (otherwise the source only logs). */
  function ApplyGpuPatterns(labels: map<string, string>, patterns: seq<Pattern>, name: string,
                            index: nat, gpus: Option<seq<Gpu>>,
                            describe: Gpu -> map<string, string>): map<string, string>
    decreases |patterns|
  {
    if |patterns| == 0 then labels
    else
      var next := if gpus.Some? && Matches(patterns[0], name) && index < |gpus.value|
                  then labels + describe(gpus.value[index])
                  else labels;
      ApplyGpuPatterns(next, patterns[1..], name, index, gpus, describe)
  }

  /** Whether the GPU loop describes a GPU at all. */
  predicate GpuLabelled(patterns: seq<Pattern>, name: string, index: nat, gpus: Option<seq<Gpu>>) {
    gpus.Some? && AnyMatches(patterns, name) && index < |gpus.value|
  }

  /** Setting the same labels once per matching pattern is the same as setting
      them once if any pattern matches. */
  lemma {:induction false} ApplyGpuPatternsOnce(labels: map<string, string>, patterns: seq<Pattern>, name: string,
                                                index: nat, gpus: Option<seq<Gpu>>,
                                                describe: Gpu -> map<string, string>)
    ensures ApplyGpuPatterns(labels, patterns, name, index, gpus, describe)
         == if GpuLabelled(patterns, name, index, gpus) then labels + describe(gpus.value[index]) else labels
    decreases |patterns|
  {
    if |patterns| > 0 {
      var next := if gpus.Some? && Matches(patterns[0], name) && index < |gpus.value|
                  then labels + describe(gpus.value[index])
                  else labels;
      ApplyGpuPatternsOnce(next, patterns[1..], name, index, gpus, describe);
      if gpus.Some? && index < |gpus.value| {
        var d := describe(gpus.value[index]);
        assert labels + d + d == labels + d;
        assert AnyMatches(patterns, name) <==> Matches(patterns[0], name) || AnyMatches(patterns[1..], name) by {
          if AnyMatches(patterns, name) && !Matches(patterns[0], name) {
            var i :| 0 <= i < |patterns| && Matches(patterns[i], name);
            assert patterns[1..][i - 1] == patterns[i];
          }
          if AnyMatches(patterns[1..], name) {
            var i :| 0 <= i < |patterns[1..]| && Matches(patterns[1..][i], name);
            assert patterns[i + 1] == patterns[1..][i];
          }
        }
      }
    }
  }

  /** The GPU patterns are plain substring tests; `$power^` contributes nothing. */
  lemma GpuPatternsAreSubstrings(name: string)
    ensures AnyMatches(GpuPatterns, name) <==>
      || Contains(name, "gpu")
      || Contains(name, "fb usage") || Contains(name, "vid usage")
      || Contains(name, "bus usage") || Contains(name, "memory usage")
      || Contains(name, "core clock") || Contains(name, "memory clock")
      || Contains(name, "fan speed") || Contains(name, "fan tachometer")
      || Contains(name, "temp limit") || Contains(name, "power limit")
      || Contains(name, "voltage limit") || Contains(name, "no load limit")
  {
    EndThenStartNeverMatches("power", name);
    AnyOfOne("gpu", name);
    AnyOfFour("fb usage", "vid usage", "bus usage", "memory usage", name);
    AnyOfTwo("core clock", "memory clock", name);
    AnyOfTwo("fan speed", "fan tachometer", name);
    AnyOfFour("temp limit", "power limit", "voltage limit", "no load limit", name);
    AnyMatchesSix(GpuPatterns, name);
  }

  lemma AnyOfOne(a: string, s: string)
    ensures Matches(AnyOf([a]), s) <==> Contains(s, a)
  {
    assert [a][0] == a;
  }

  lemma AnyOfTwo(a: string, b: string, s: string)
    ensures Matches(AnyOf([a, b]), s) <==> Contains(s, a) || Contains(s, b)
  {
    assert [a, b][0] == a && [a, b][1] == b;
  }

  lemma AnyOfFour(a: string, b: string, c: string, d: string, s: string)
    ensures Matches(AnyOf([a, b, c, d]), s) <==> Contains(s, a) || Contains(s, b) || Contains(s, c) || Contains(s, d)
  {
    var ws := [a, b, c, d];
    assert ws[0] == a && ws[1] == b && ws[2] == c && ws[3] == d;
  }

  lemma AnyMatchesSix(ps: seq<Pattern>, s: string)
    requires |ps| == 6
    ensures AnyMatches(ps, s) <==>
      Matches(ps[0], s) || Matches(ps[1], s) || Matches(ps[2], s)
      || Matches(ps[3], s) || Matches(ps[4], s) || Matches(ps[5], s)
  {
  }

  /** With the shipped, empty blacklist no name is blacklisted. */
  lemma ShippedBlackListIsEmpty(name: string)
    ensures !AnyMatches(ShippedBlackList, name)
  {
  }
}
