/** The repository's test tables and a few worked names, stated on the model:
    each lemma pins a concrete input to the output the source promises. */
module SourceExamples {
  import opened Wrappers
  import opened Text
  import opened Matchers
  import opened Hardware
  import opened NameRules
  import Normalizer
  import MonitorNormalizer
  import Legacy


  // ---------------------------------------------------------------------------
  // Reasoning steps for concrete names. Each worked name below is split into
  // facts about its literal pieces, stated exactly as the general steps here
  // require them.

  /** `w` cannot occur where its first character does not. */
  lemma AbsentFirstChar(s: string, w: string)
    requires |w| > 0
    requires forall i :: 0 <= i < |s| ==> s[i] != w[0]
    ensures !Contains(s, w)
  {
    forall i: nat
      ensures !OccursAt(s, w, i)
    {
      if i + |w| <= |s| {
        assert s[i..i + |w|][0] == s[i];
      }
    }
  }

  /** `w` cannot occur where its first two characters never follow each other. */
  lemma AbsentPair(s: string, w: string)
    requires |w| >= 2
    requires forall i :: 0 <= i < |s| - 1 ==> !(s[i] == w[0] && s[i + 1] == w[1])
    ensures !Contains(s, w)
  {
    forall i: nat
      ensures !OccursAt(s, w, i)
    {
      if i + |w| <= |s| {
        assert s[i..i + |w|][0] == s[i] && s[i..i + |w|][1] == s[i + 1];
      }
    }
  }

  /** A name without blanks at either end is its own trimmed form. */
  lemma Untrimmed(s: string)
    requires |s| > 0 && !IsTrimSpace(s[0]) && !IsTrimSpace(s[|s| - 1])
    ensures TrimSpace(s) == s
  {
    TrimSpaceKeeps(s, 0, |s|);
    assert s[0..|s|] == s;
  }

  /** An empty unit adds no suffix. */
  lemma NoUnitNoSuffix()
    ensures UnitSuffix(MetricUnits, "") == ""
  {
    assert ToLower("") == "";
  }

  /** Only identifier characters. */
  predicate Word(s: string) {
    forall i :: 0 <= i < |s| ==> IsIdentifierChar(s[i])
  }

  /** Only plain blanks. */
  predicate Blanks(s: string) {
    forall i :: 0 <= i < |s| ==> s[i] == ' '
  }

  /** Nothing the invalid-character pattern keeps. */
  predicate Junk(s: string) {
    forall i :: 0 <= i < |s| ==> !IsNameChar(s[i])
  }

  /** Only decimal digits. */
  predicate Digits(s: string) {
    forall i :: 0 <= i < |s| ==> IsDigit(s[i])
  }

  /** `name` is the words `a` and `b` with a gap of blanks between them and
      junk somewhere in the gap; `id` is the two words joined by `_`. */
  predicate Gapped(name: string, a: string, g1: string, junk: string, g2: string, b: string, id: string) {
    && name == a + g1 + junk + g2 + b
    && Word(a) && Word(b) && Blanks(g1) && Blanks(g2) && Junk(junk) && |g1 + g2| > 0
    && id == a + "_" + b
  }

  /** `name` is junk followed by a word. */
  predicate JunkThenWord(name: string, junk: string, b: string) {
    name == junk + b && Junk(junk) && Word(b)
  }

  /** `name` starts with `cpu`, then the digit run `digits`, then `rest`,
      which does not start with a digit. */
  predicate CpuThen(name: string, digits: string, rest: string) {
    name == "cpu" + digits + rest && Digits(digits) && (rest == "" || !IsDigit(rest[0]))
  }

  /** The character filter keeps the words and the blanks and drops the junk. */
  lemma KeepTwoWords(a: string, g1: string, junk: string, g2: string, b: string)
    requires Word(a) && Word(b) && Blanks(g1) && Blanks(g2) && Junk(junk)
    ensures KeepNameChars(a + g1 + junk + g2 + b) == a + (g1 + g2) + b
  {
    assert KeepNameChars(a + g1) == a + g1 by {
      KeepNameCharsAppend(a, g1);
      KeepNameCharsKeepsAll(a);
      KeepNameCharsKeepsAll(g1);
    }
    assert KeepNameChars(a + g1 + junk) == a + g1 by {
      KeepNameCharsAppend(a + g1, junk);
      KeepNameCharsDropsAll(junk);
      assert a + g1 + "" == a + g1;
    }
    assert KeepNameChars(a + g1 + junk + g2) == a + g1 + g2 by {
      KeepNameCharsAppend(a + g1 + junk, g2);
      KeepNameCharsKeepsAll(g2);
    }
    assert KeepNameChars(a + g1 + junk + g2 + b) == a + g1 + g2 + b by {
      KeepNameCharsAppend(a + g1 + junk + g2, b);
      KeepNameCharsKeepsAll(b);
    }
    assert a + g1 + g2 + b == a + (g1 + g2) + b;
  }

  /** Cleaning two words with a gap of blanks, junk among the blanks, joins
      the words with one underscore. */
  lemma CleanGapped(name: string, a: string, g1: string, junk: string, g2: string, b: string, id: string)
    requires Gapped(name, a, g1, junk, g2, b, id)
    ensures Clean(name) == id
  {
    KeepTwoWords(a, g1, junk, g2, b);
    RemoveInvalidCharactersIsFilter(name);
    var gap := g1 + g2;
    assert forall i :: 0 <= i < |gap| ==> IsRegexSpace(gap[i]);
    ReplaceSpaceRunsSplit(a, gap, b);
    ReplaceSpaceRunsFixes(b);
  }

  /** Cleaning drops leading junk before a word. */
  lemma CleanJunkThenWord(name: string, junk: string, b: string)
    requires JunkThenWord(name, junk, b)
    ensures Clean(name) == b
  {
    KeepNameCharsAppend(junk, b);
    KeepNameCharsDropsAll(junk);
    KeepNameCharsKeepsAll(b);
    assert "" + b == b;
    RemoveInvalidCharactersIsFilter(name);
    ReplaceSpaceRunsFixes(b);
  }

  /** `\d+` takes exactly a digit run that is not followed by a digit. */
  lemma {:induction false} DigitPrefixOf(digits: string, rest: string)
    requires Digits(digits) && (rest == "" || !IsDigit(rest[0]))
    ensures DigitPrefix(digits + rest) == digits
    decreases |digits|
  {
    if |digits| == 0 {
      assert digits + rest == rest;
    } else {
      assert (digits + rest)[1..] == digits[1..] + rest;
      DigitPrefixOf(digits[1..], rest);
    }
  }

  /** The CPU rule on a name that starts with `cpu`. */
  lemma CpuAtStart(name: string, digits: string, rest: string)
    requires CpuThen(name, digits, rest)
    ensures MatchCpu(name) == if digits == "" then AllCores else Core(digits)
  {
    assert name[0..3] == "cpu";
    assert name[3..] == digits + rest;
    DigitPrefixOf(digits, rest);
  }

  /** Without `cpu` and without a unit the identifier is the cleaned name. */
  lemma NoUnitIdentifier(name: string, id: string)
    requires NoUpper(name) && !Contains(name, "cpu") && Clean(name) == id
    ensures Normalizer.Identifier(name, "") == id
  {
    NoUnitNoSuffix();
  }

  /** Without `cpu` the identifier is the cleaned name with the unit's suffix. */
  lemma UnitIdentifier(name: string, unit: string, id: string)
    requires NoUpper(name) && !Contains(name, "cpu")
    requires Clean(WithSuffix(name, UnitSuffix(MetricUnits, unit))) == id
    ensures Normalizer.Identifier(name, unit) == id
  {
  }

  /** With a core number and without a unit the identifier is the cleaned name. */
  lemma CoreIdentifier(name: string, id: string)
    requires NoUpper(name) && MatchCpu(name).Core? && Clean(name) == id
    ensures Normalizer.Identifier(name, "") == id
  {
    NoUnitNoSuffix();
  }

  /** Without a core number the identifier ends in `total`, whatever the unit. */
  lemma AllCoresIdentifier(name: string, unit: string, id: string)
    requires NoUpper(name) && MatchCpu(name).AllCores? && Clean(WithSuffix(name, "total")) == id
    ensures Normalizer.Identifier(name, unit) == id
  {
  }

  /** An identifier without `cpu` is its own identifier. */
  lemma IdentifierOfIdentifier(name: string)
    requires IsIdentifier(name) && !Contains(name, "cpu")
    ensures Normalizer.Identifier(name, "") == name
  {
    CleanFixesIdentifier(name);
    NoUnitIdentifier(name, name);
  }

  // ---------------------------------------------------------------------------
  // Facts shared by several worked names

  lemma GpuTemperatureWords()
    ensures Word("gpu") && Word("temperature")
    ensures "gpu_temperature" == "gpu" + "_" + "temperature"
  {
  }

  lemma VoltageLimitWords()
    ensures Word("voltage") && Word("limit")
    ensures "voltage_limit" == "voltage" + "_" + "limit"
  {
  }

  lemma FramerateLowWords()
    ensures Word("framerate") && Word("low")
    ensures "framerate_low" == "framerate" + "_" + "low"
  {
  }

  lemma CpuTemperatureWords()
    ensures Word("cpu") && Word("temperature")
    ensures "cpu_temperature" == "cpu" + "_" + "temperature"
  {
  }

  lemma GapParts()
    ensures Blanks("") && Blanks(" ") && Blanks("  ") && Blanks("    ")
    ensures Junk("") && Junk("123") && Junk("18") && Junk("1%")
  {
  }

  // ---------------------------------------------------------------------------
  // The rows of the name tests: the lowered name, then its identifier

  lemma CelsiusIsIdentifier()
    ensures IsIdentifier("gpu_temperature_celsius")
  {
  }

  lemma CelsiusNoCpu()
    ensures !Contains("gpu_temperature_celsius", "cpu")
  {
    AbsentPair("gpu_temperature_celsius", "cpu");
  }

  lemma CelsiusName()
    ensures Normalizer.Identifier("gpu_temperature_celsius", "") == "gpu_temperature_celsius"
  {
    CelsiusIsIdentifier();
    CelsiusNoCpu();
    IdentifierOfIdentifier("gpu_temperature_celsius");
  }

  lemma LowerCaseTrim()
    ensures TrimSpace("gpu_temperature_celsius") == "gpu_temperature_celsius"
  {
    Untrimmed("gpu_temperature_celsius");
  }

  lemma LowerCaseLower()
    ensures ToLower("gpu_temperature_celsius") == "gpu_temperature_celsius"
  {
  }

  lemma LowerCaseLowered()
    ensures Lowered("gpu_temperature_celsius") == "gpu_temperature_celsius"
  {
    LowerCaseTrim();
    LowerCaseLower();
  }

  /** A lower-case identifier is kept as it is. */
  lemma LowerCaseRow()
    ensures Normalizer.Identifier(Lowered("gpu_temperature_celsius"), "") == "gpu_temperature_celsius"
  {
    LowerCaseLowered();
    CelsiusName();
  }

  lemma UpperCaseTrim()
    ensures TrimSpace("GPU_TEMPERATURE_CELSIUS") == "GPU_TEMPERATURE_CELSIUS"
  {
    Untrimmed("GPU_TEMPERATURE_CELSIUS");
  }

  lemma UpperCaseLower()
    ensures ToLower("GPU_TEMPERATURE_CELSIUS") == "gpu_temperature_celsius"
  {
  }

  lemma UpperCaseLowered()
    ensures Lowered("GPU_TEMPERATURE_CELSIUS") == "gpu_temperature_celsius"
  {
    UpperCaseTrim();
    UpperCaseLower();
  }

  /** Upper case is lowered. */
  lemma UpperCaseRow()
    ensures Normalizer.Identifier(Lowered("GPU_TEMPERATURE_CELSIUS"), "") == "gpu_temperature_celsius"
  {
    UpperCaseLowered();
    CelsiusName();
  }

  lemma OneSpaceTrim()
    ensures TrimSpace("Gpu Temperature") == "Gpu Temperature"
  {
    Untrimmed("Gpu Temperature");
  }

  lemma OneSpaceLower()
    ensures ToLower("Gpu Temperature") == "gpu temperature"
  {
  }

  lemma OneSpaceLowered()
    ensures Lowered("Gpu Temperature") == "gpu temperature"
  {
    OneSpaceTrim();
    OneSpaceLower();
  }

  lemma OneSpaceNoUpper()
    ensures NoUpper("gpu temperature")
  {
  }

  lemma OneSpaceNoCpu()
    ensures !Contains("gpu temperature", "cpu")
  {
    AbsentFirstChar("gpu temperature", "cpu");
  }

  lemma OneSpaceSplit()
    ensures "gpu temperature" == "gpu" + " " + "" + "" + "temperature"
  {
  }

  lemma OneSpaceGap()
    ensures Gapped("gpu temperature", "gpu", " ", "", "", "temperature", "gpu_temperature")
  {
    OneSpaceSplit();
    GpuTemperatureWords();
    GapParts();
  }

  lemma OneSpaceCleaned()
    ensures Clean("gpu temperature") == "gpu_temperature"
  {
    OneSpaceGap();
    CleanGapped("gpu temperature", "gpu", " ", "", "", "temperature", "gpu_temperature");
  }

  lemma OneSpaceName()
    ensures Normalizer.Identifier("gpu temperature", "") == "gpu_temperature"
  {
    OneSpaceNoUpper();
    OneSpaceNoCpu();
    OneSpaceCleaned();
    NoUnitIdentifier("gpu temperature", "gpu_temperature");
  }

  /** One space becomes an underscore. */
  lemma OneSpaceRow()
    ensures Normalizer.Identifier(Lowered("Gpu Temperature"), "") == "gpu_temperature"
  {
    OneSpaceLowered();
    OneSpaceName();
  }

  lemma SpaceRunTrim()
    ensures TrimSpace("Gpu    Temperature") == "Gpu    Temperature"
  {
    Untrimmed("Gpu    Temperature");
  }

  lemma SpaceRunLower()
    ensures ToLower("Gpu    Temperature") == "gpu    temperature"
  {
  }

  lemma SpaceRunLowered()
    ensures Lowered("Gpu    Temperature") == "gpu    temperature"
  {
    SpaceRunTrim();
    SpaceRunLower();
  }

  lemma SpaceRunNoUpper()
    ensures NoUpper("gpu    temperature")
  {
  }

  lemma SpaceRunNoCpu()
    ensures !Contains("gpu    temperature", "cpu")
  {
    AbsentFirstChar("gpu    temperature", "cpu");
  }

  lemma SpaceRunSplit()
    ensures "gpu    temperature" == "gpu" + "    " + "" + "" + "temperature"
  {
  }

  lemma SpaceRunGap()
    ensures Gapped("gpu    temperature", "gpu", "    ", "", "", "temperature", "gpu_temperature")
  {
    SpaceRunSplit();
    GpuTemperatureWords();
    GapParts();
  }

  lemma SpaceRunCleaned()
    ensures Clean("gpu    temperature") == "gpu_temperature"
  {
    SpaceRunGap();
    CleanGapped("gpu    temperature", "gpu", "    ", "", "", "temperature", "gpu_temperature");
  }

  lemma SpaceRunName()
    ensures Normalizer.Identifier("gpu    temperature", "") == "gpu_temperature"
  {
    SpaceRunNoUpper();
    SpaceRunNoCpu();
    SpaceRunCleaned();
    NoUnitIdentifier("gpu    temperature", "gpu_temperature");
  }

  /** A run of spaces becomes one underscore. */
  lemma SpaceRunRow()
    ensures Normalizer.Identifier(Lowered("Gpu    Temperature"), "") == "gpu_temperature"
  {
    SpaceRunLowered();
    SpaceRunName();
  }

  lemma LeadingSpaceTrim()
    ensures TrimSpace("  Gpu  Temperature") == "Gpu  Temperature"
  {
    TrimSpaceKeeps("  Gpu  Temperature", 2, 18);
  }

  lemma LeadingSpaceLower()
    ensures ToLower("Gpu  Temperature") == "gpu  temperature"
  {
  }

  lemma LeadingSpaceLowered()
    ensures Lowered("  Gpu  Temperature") == "gpu  temperature"
  {
    LeadingSpaceTrim();
    LeadingSpaceLower();
  }

  lemma LeadingSpaceNoUpper()
    ensures NoUpper("gpu  temperature")
  {
  }

  lemma LeadingSpaceNoCpu()
    ensures !Contains("gpu  temperature", "cpu")
  {
    AbsentFirstChar("gpu  temperature", "cpu");
  }

  lemma LeadingSpaceSplit()
    ensures "gpu  temperature" == "gpu" + "  " + "" + "" + "temperature"
  {
  }

  lemma LeadingSpaceGap()
    ensures Gapped("gpu  temperature", "gpu", "  ", "", "", "temperature", "gpu_temperature")
  {
    LeadingSpaceSplit();
    GpuTemperatureWords();
    GapParts();
  }

  lemma LeadingSpaceCleaned()
    ensures Clean("gpu  temperature") == "gpu_temperature"
  {
    LeadingSpaceGap();
    CleanGapped("gpu  temperature", "gpu", "  ", "", "", "temperature", "gpu_temperature");
  }

  lemma LeadingSpaceName()
    ensures Normalizer.Identifier("gpu  temperature", "") == "gpu_temperature"
  {
    LeadingSpaceNoUpper();
    LeadingSpaceNoCpu();
    LeadingSpaceCleaned();
    NoUnitIdentifier("gpu  temperature", "gpu_temperature");
  }

  /** Surrounding blanks are trimmed. */
  lemma LeadingSpaceRow()
    ensures Normalizer.Identifier(Lowered("  Gpu  Temperature"), "") == "gpu_temperature"
  {
    LeadingSpaceLowered();
    LeadingSpaceName();
  }

  lemma InvalidCharactersTrim()
    ensures TrimSpace(" Gpu 123 temperature ") == "Gpu 123 temperature"
  {
    TrimSpaceKeeps(" Gpu 123 temperature ", 1, 20);
  }

  lemma InvalidCharactersLower()
    ensures ToLower("Gpu 123 temperature") == "gpu 123 temperature"
  {
  }

  lemma InvalidCharactersLowered()
    ensures Lowered(" Gpu 123 temperature ") == "gpu 123 temperature"
  {
    InvalidCharactersTrim();
    InvalidCharactersLower();
  }

  lemma InvalidCharactersNoUpper()
    ensures NoUpper("gpu 123 temperature")
  {
  }

  lemma InvalidCharactersNoCpu()
    ensures !Contains("gpu 123 temperature", "cpu")
  {
    AbsentFirstChar("gpu 123 temperature", "cpu");
  }

  lemma InvalidCharactersSplit()
    ensures "gpu 123 temperature" == "gpu" + " " + "123" + " " + "temperature"
  {
  }

  lemma InvalidCharactersGap()
    ensures Gapped("gpu 123 temperature", "gpu", " ", "123", " ", "temperature", "gpu_temperature")
  {
    InvalidCharactersSplit();
    GpuTemperatureWords();
    GapParts();
  }

  lemma InvalidCharactersCleaned()
    ensures Clean("gpu 123 temperature") == "gpu_temperature"
  {
    InvalidCharactersGap();
    CleanGapped("gpu 123 temperature", "gpu", " ", "123", " ", "temperature", "gpu_temperature");
  }

  lemma InvalidCharactersName()
    ensures Normalizer.Identifier("gpu 123 temperature", "") == "gpu_temperature"
  {
    InvalidCharactersNoUpper();
    InvalidCharactersNoCpu();
    InvalidCharactersCleaned();
    NoUnitIdentifier("gpu 123 temperature", "gpu_temperature");
  }

  /** Digits are dropped and the blanks around them merge. */
  lemma InvalidCharactersRow()
    ensures Normalizer.Identifier(Lowered(" Gpu 123 temperature "), "") == "gpu_temperature"
  {
    InvalidCharactersLowered();
    InvalidCharactersName();
  }

  lemma LeadingInvalidTrim()
    ensures TrimSpace("123gpu_temperature") == "123gpu_temperature"
  {
    Untrimmed("123gpu_temperature");
  }

  lemma LeadingInvalidLower()
    ensures ToLower("123gpu_temperature") == "123gpu_temperature"
  {
  }

  lemma LeadingInvalidNoUpper()
    ensures NoUpper("123gpu_temperature")
  {
  }

  lemma LeadingInvalidNoCpu()
    ensures !Contains("123gpu_temperature", "cpu")
  {
    AbsentFirstChar("123gpu_temperature", "cpu");
  }

  lemma LeadingInvalidSplit()
    ensures JunkThenWord("123gpu_temperature", "123", "gpu_temperature")
  {
    assert "123gpu_temperature" == "123" + "gpu_temperature";
  }

  lemma LeadingInvalidName()
    ensures Normalizer.Identifier("123gpu_temperature", "") == "gpu_temperature"
  {
    LeadingInvalidNoUpper();
    LeadingInvalidNoCpu();
    LeadingInvalidSplit();
    CleanJunkThenWord("123gpu_temperature", "123", "gpu_temperature");
    NoUnitIdentifier("123gpu_temperature", "gpu_temperature");
  }

  /** Leading digits are dropped. */
  lemma LeadingInvalidRow()
    ensures Normalizer.Identifier(Lowered("123gpu_temperature"), "") == "gpu_temperature"
  {
    LeadingInvalidTrim();
    LeadingInvalidLower();
    LeadingInvalidName();
  }

  lemma CpuTrim()
    ensures TrimSpace("CPU18 Temperature") == "CPU18 Temperature"
  {
    Untrimmed("CPU18 Temperature");
  }

  lemma CpuLower()
    ensures ToLower("CPU18 Temperature") == "cpu18 temperature"
  {
  }

  lemma CpuLowered()
    ensures Lowered("CPU18 Temperature") == "cpu18 temperature"
  {
    CpuTrim();
    CpuLower();
  }

  lemma CpuCoreNoUpper()
    ensures NoUpper("cpu18 temperature")
  {
  }

  lemma CpuCoreSplit()
    ensures "cpu18 temperature" == "cpu" + "" + "18" + " " + "temperature"
  {
  }

  lemma CpuCoreStart()
    ensures CpuThen("cpu18 temperature", "18", " temperature")
  {
    assert "cpu18 temperature" == "cpu" + "18" + " temperature";
  }

  lemma CpuCoreMatch()
    ensures MatchCpu("cpu18 temperature") == Core("18")
  {
    CpuCoreStart();
    CpuAtStart("cpu18 temperature", "18", " temperature");
  }

  lemma CpuCoreGap()
    ensures Gapped("cpu18 temperature", "cpu", "", "18", " ", "temperature", "cpu_temperature")
  {
    CpuCoreSplit();
    CpuTemperatureWords();
    GapParts();
  }

  lemma CpuCoreCleaned()
    ensures Clean("cpu18 temperature") == "cpu_temperature"
  {
    CpuCoreGap();
    CleanGapped("cpu18 temperature", "cpu", "", "18", " ", "temperature", "cpu_temperature");
  }

  lemma CpuCoreName()
    ensures Normalizer.Identifier("cpu18 temperature", "") == "cpu_temperature"
  {
    CpuCoreNoUpper();
    CpuCoreMatch();
    CpuCoreCleaned();
    CoreIdentifier("cpu18 temperature", "cpu_temperature");
  }

  /** The core number leaves the identifier. */
  lemma CpuCoreRow()
    ensures Normalizer.Identifier(Lowered("CPU18 Temperature"), "") == "cpu_temperature"
  {
    CpuLowered();
    CpuCoreName();
  }

  lemma NoUnitTrim()
    ensures TrimSpace("Voltage limit") == "Voltage limit"
  {
    Untrimmed("Voltage limit");
  }

  lemma NoUnitLower()
    ensures ToLower("Voltage limit") == "voltage limit"
  {
  }

  lemma NoUnitLowered()
    ensures Lowered("Voltage limit") == "voltage limit"
  {
    NoUnitTrim();
    NoUnitLower();
  }

  lemma NoUnitNoUpper()
    ensures NoUpper("voltage limit")
  {
  }

  lemma NoUnitNoCpu()
    ensures !Contains("voltage limit", "cpu")
  {
    AbsentFirstChar("voltage limit", "cpu");
  }

  lemma NoUnitSplit()
    ensures "voltage limit" == "voltage" + " " + "" + "" + "limit"
  {
  }

  lemma NoUnitGap()
    ensures Gapped("voltage limit", "voltage", " ", "", "", "limit", "voltage_limit")
  {
    NoUnitSplit();
    VoltageLimitWords();
    GapParts();
  }

  lemma NoUnitCleaned()
    ensures Clean("voltage limit") == "voltage_limit"
  {
    NoUnitGap();
    CleanGapped("voltage limit", "voltage", " ", "", "", "limit", "voltage_limit");
  }

  lemma NoUnitName()
    ensures Normalizer.Identifier("voltage limit", "") == "voltage_limit"
  {
    NoUnitNoUpper();
    NoUnitNoCpu();
    NoUnitCleaned();
    NoUnitIdentifier("voltage limit", "voltage_limit");
  }

  /** A name without a unit gets no suffix. */
  lemma NoUnitRow()
    ensures Normalizer.Identifier(Lowered("Voltage limit"), "") == "voltage_limit"
  {
    NoUnitLowered();
    NoUnitName();
  }

  /** The name test of the `monitor` package: raw name and expected
      identifier, all with an empty unit. */
  const MonitorNameTests: seq<(string, string)> := [
    ("gpu_temperature_celsius", "gpu_temperature_celsius"),
    ("GPU_TEMPERATURE_CELSIUS", "gpu_temperature_celsius"),
    ("Gpu Temperature", "gpu_temperature"),
    ("Gpu    Temperature", "gpu_temperature"),
    ("  Gpu  Temperature", "gpu_temperature"),
    (" Gpu 123 temperature ", "gpu_temperature"),
    ("123gpu_temperature", "gpu_temperature"),
    ("CPU18 Temperature", "cpu_temperature"),
    ("Voltage limit", "voltage_limit")
  ]

  /** The name test of the oldest variant: the same rows without the last. */
  const LegacyNameTests: seq<(string, string)> := MonitorNameTests[..8]

  lemma TableRows()
    ensures |MonitorNameTests| == 9
    ensures MonitorNameTests[0] == ("gpu_temperature_celsius", "gpu_temperature_celsius")
    ensures MonitorNameTests[1] == ("GPU_TEMPERATURE_CELSIUS", "gpu_temperature_celsius")
    ensures MonitorNameTests[2] == ("Gpu Temperature", "gpu_temperature")
    ensures MonitorNameTests[3] == ("Gpu    Temperature", "gpu_temperature")
    ensures MonitorNameTests[4] == ("  Gpu  Temperature", "gpu_temperature")
    ensures MonitorNameTests[5] == (" Gpu 123 temperature ", "gpu_temperature")
    ensures MonitorNameTests[6] == ("123gpu_temperature", "gpu_temperature")
    ensures MonitorNameTests[7] == ("CPU18 Temperature", "cpu_temperature")
    ensures MonitorNameTests[8] == ("Voltage limit", "voltage_limit")
  {
  }

  /** Every row of the tables, on the shared identifier pipeline. */
  lemma NameTestRow(i: nat)
    requires i < |MonitorNameTests|
    ensures Normalizer.Identifier(Lowered(MonitorNameTests[i].0), "") == MonitorNameTests[i].1
  {
    TableRows();
    if i == 0 { LowerCaseRow(); }
    else if i == 1 { UpperCaseRow(); }
    else if i == 2 { OneSpaceRow(); }
    else if i == 3 { SpaceRunRow(); }
    else if i == 4 { LeadingSpaceRow(); }
    else if i == 5 { InvalidCharactersRow(); }
    else if i == 6 { LeadingInvalidRow(); }
    else if i == 7 { CpuCoreRow(); }
    else { NoUnitRow(); }
  }

  /** The command's identifier is the shared pipeline on the lowered name. */
  lemma CommandIdentifier(entry: Entry, gpus: Option<seq<Gpu>>)
    requires entry.gpuIndex >= 0
    ensures Normalizer.NormalizeName(ShippedBlackList, entry, gpus).Success?
    ensures Normalizer.NormalizeName(ShippedBlackList, entry, gpus).value.identifier
            == Normalizer.Identifier(Lowered(entry.localizedSourceName), entry.sourceUnits)
  {
    Normalizer.NeverBlackListed(entry, gpus);
  }

  /** The `monitor` name test passes for every entry carrying a row's name
      and no unit, with any GPU list. */
  lemma MonitorNameTableHolds(i: nat, entry: Entry, gpus: Option<seq<Gpu>>)
    requires i < |MonitorNameTests|
    requires entry.localizedSourceName == MonitorNameTests[i].0 && entry.sourceUnits == ""
    requires entry.gpuIndex >= 0
    ensures MonitorNormalizer.NormalizeName(ShippedBlackList, entry, gpus).Success?
    ensures MonitorNormalizer.NormalizeName(ShippedBlackList, entry, gpus).value.identifier
            == MonitorNameTests[i].1
  {
    NameTestRow(i);
    CommandIdentifier(entry, gpus);
    MonitorNormalizer.AgreesWithCommand(ShippedBlackList, entry, gpus);
  }

  /** The oldest variant's name test passes for every row. */
  lemma LegacyNameTableHolds(i: nat, metricName: string)
    requires i < |LegacyNameTests| && metricName == LegacyNameTests[i].0
    ensures Legacy.NormalizeName(ShippedBlackList, metricName, "").Success?
    ensures Legacy.NormalizeName(ShippedBlackList, metricName, "").value.identifier == LegacyNameTests[i].1
  {
    NameTestRow(i);
    ShippedBlackListIsEmpty(Lowered(metricName));
    Legacy.AgreesWithCommandWithoutUnit(ShippedBlackList, metricName, "");
  }

  /** The value test of the `monitor` package. */
  lemma MonitorValueTableHolds()
    ensures MonitorNormalizer.NormalizeValue(53.5, "%") == 0.535
    ensures MonitorNormalizer.NormalizeValue(35.3, "MB") == 35300000.0
    ensures MonitorNormalizer.NormalizeValue(17.3, "MHz") == 17300000.0
    ensures MonitorNormalizer.NormalizeValue(25.32, "Some other stuff") == 25.32
  {
  }

  // ---------------------------------------------------------------------------
  // Worked names beyond the tables

  /** A name without an `f` has no frame percentile. */
  lemma NoFrameWithoutF(name: string)
    requires forall i :: 0 <= i < |name| ==> name[i] != 'f'
    ensures MatchFrame(name) == None
  {
    AbsentFirstChar(name, FramePrefix);
    NoFramePrefixNoMatch(name);
  }

  /** The labels of a name with a core number and no frame percentile. */
  lemma CoreOnlyLabels(name: string, number: string)
    requires MatchCpu(name) == Core(number) && MatchFrame(name) == None
    ensures Normalizer.RuleLabels(name) == map["core" := number]
  {
  }

  /** The labels of a name with a frame percentile and no `cpu`. */
  lemma PercentOnlyLabels(name: string, group: string)
    requires !Contains(name, "cpu") && MatchFrame(name) == Some(group)
    ensures Normalizer.RuleLabels(name) == map["percent" := group]
  {
  }

  /** The command's result without GPUs, from the facts about the lowered name. */
  lemma CommandResult(entry: Entry, name: string, identifier: string, labels: map<string, string>)
    requires entry.gpuIndex >= 0
    requires Lowered(entry.localizedSourceName) == name
    requires Normalizer.Identifier(name, entry.sourceUnits) == identifier
    requires Normalizer.RuleLabels(name) == labels
    ensures Normalizer.NormalizeName(ShippedBlackList, entry, None) == Success(Canonical(identifier, labels))
  {
    CommandIdentifier(entry, None);
    Normalizer.LabelsClosedForm(ShippedBlackList, entry, None);
  }

  lemma CpuCoreNoFrame()
    ensures MatchFrame("cpu18 temperature") == None
  {
    NoFrameWithoutF("cpu18 temperature");
  }

  lemma CpuCoreRuleLabels()
    ensures Normalizer.RuleLabels("cpu18 temperature") == map["core" := "18"]
  {
    CpuCoreMatch();
    CpuCoreNoFrame();
    CoreOnlyLabels("cpu18 temperature", "18");
  }

  /** `CPU18 Temperature` without a unit and without GPUs: the core number
      leaves the identifier and becomes the only label. */
  lemma CpuCoreLabel(entry: Entry)
    requires entry.localizedSourceName == "CPU18 Temperature" && entry.sourceUnits == ""
    requires entry.gpuIndex >= 0
    ensures Normalizer.NormalizeName(ShippedBlackList, entry, None)
            == Success(Canonical("cpu_temperature", map["core" := "18"]))
  {
    CpuLowered();
    CpuCoreName();
    CpuCoreRuleLabels();
    CommandResult(entry, "cpu18 temperature", "cpu_temperature", map["core" := "18"]);
  }

  lemma FrameTrim()
    ensures TrimSpace("framerate 1% low") == "framerate 1% low"
  {
    Untrimmed("framerate 1% low");
  }

  lemma FrameLower()
    ensures ToLower("framerate 1% low") == "framerate 1% low"
  {
  }

  lemma FrameLowered()
    ensures Lowered("framerate 1% low") == "framerate 1% low"
  {
    FrameTrim();
    FrameLower();
  }

  lemma FrameNoUpper()
    ensures NoUpper("framerate 1% low")
  {
  }

  lemma FrameNoCpu()
    ensures !Contains("framerate 1% low", "cpu")
  {
    AbsentFirstChar("framerate 1% low", "cpu");
  }

  lemma FrameSplit()
    ensures "framerate 1% low" == "framerate" + " " + "1%" + " " + "low"
  {
  }

  lemma FrameGap()
    ensures Gapped("framerate 1% low", "framerate", " ", "1%", " ", "low", "framerate_low")
  {
    FrameSplit();
    FramerateLowWords();
    GapParts();
  }

  lemma FrameCleaned()
    ensures Clean("framerate 1% low") == "framerate_low"
  {
    FrameGap();
    CleanGapped("framerate 1% low", "framerate", " ", "1%", " ", "low", "framerate_low");
  }

  lemma FrameName()
    ensures Normalizer.Identifier("framerate 1% low", "") == "framerate_low"
  {
    FrameNoUpper();
    FrameNoCpu();
    FrameCleaned();
    NoUnitIdentifier("framerate 1% low", "framerate_low");
  }

  /** The lazy group of `framerate 1% low` is `1`. */
  lemma FrameGroup()
    ensures MatchFrame("framerate 1% low") == Some("1")
  {
    var name := "framerate 1% low";
    assert OccursAt(name, FramePrefix, 0);
    assert OccursAt(name, "low", 13);
    assert FrameMatchAt(name, 0, 11);
    assert FirstFrameMatch(name, 0, 11);
    var p: nat, e: nat :| FirstFrameMatch(name, p, e) && MatchFrame(name).value == name[p + |FramePrefix|..e];
    FirstFrameMatchUnique(name, p, e, 0, 11);
    assert name[10..11] == "1";
  }

  lemma FrameRuleLabels()
    ensures Normalizer.RuleLabels("framerate 1% low") == map["percent" := "1"]
  {
    FrameNoCpu();
    FrameGroup();
    PercentOnlyLabels("framerate 1% low", "1");
  }

  /** `framerate 1% low`: the percentile becomes the `percent` label and
      leaves the identifier. */
  lemma FramePercentLabel(entry: Entry)
    requires entry.localizedSourceName == "framerate 1% low" && entry.sourceUnits == ""
    requires entry.gpuIndex >= 0
    ensures Normalizer.NormalizeName(ShippedBlackList, entry, None)
            == Success(Canonical("framerate_low", map["percent" := "1"]))
  {
    FrameLowered();
    FrameName();
    FrameRuleLabels();
    CommandResult(entry, "framerate 1% low", "framerate_low", map["percent" := "1"]);
  }

  // ---------------------------------------------------------------------------
  // Where the variants differ

  lemma GpuTempTrim()
    ensures TrimSpace("Gpu temp") == "Gpu temp"
  {
    Untrimmed("Gpu temp");
  }

  lemma GpuTempLower()
    ensures ToLower("Gpu temp") == "gpu temp"
  {
  }

  lemma GpuTempLowered()
    ensures Lowered("Gpu temp") == "gpu temp"
  {
    GpuTempTrim();
    GpuTempLower();
  }

  lemma GpuTempNoUpper()
    ensures NoUpper("gpu temp")
  {
  }

  lemma GpuTempNoCpu()
    ensures !Contains("gpu temp", "cpu")
  {
    AbsentFirstChar("gpu temp", "cpu");
  }

  lemma CelsiusSuffix()
    ensures UnitSuffix(MetricUnits, "C") == "celsius"
    ensures UnitSuffix(Legacy.LegacyUnits, "C") == "celsius"
  {
    assert ToLower("C") == "c";
  }

  lemma GluedWords()
    ensures "gpu temp" + "celsius" == "gpu" + " " + "" + "" + "tempcelsius"
    ensures Word("gpu") && Word("tempcelsius")
    ensures "gpu_tempcelsius" == "gpu" + "_" + "tempcelsius"
  {
  }

  lemma GluedCleaned()
    ensures Clean("gpu temp" + "celsius") == "gpu_tempcelsius"
  {
    GluedWords();
    GapParts();
    CleanGapped("gpu temp" + "celsius", "gpu", " ", "", "", "tempcelsius", "gpu_tempcelsius");
  }

  lemma SeparatedSuffix()
    ensures WithSuffix("gpu temp", "celsius") == "gpu temp" + "_" + "celsius"
  {
  }

  lemma SeparatedSplit()
    ensures "gpu temp" + "_" + "celsius" == "gpu" + " " + "" + "" + "temp_celsius"
  {
  }

  lemma SeparatedWords()
    ensures WithSuffix("gpu temp", "celsius") == "gpu" + " " + "" + "" + "temp_celsius"
    ensures Word("gpu") && Word("temp_celsius")
    ensures "gpu_temp_celsius" == "gpu" + "_" + "temp_celsius"
  {
    SeparatedSuffix();
    SeparatedSplit();
  }

  lemma SeparatedCleaned()
    ensures Clean(WithSuffix("gpu temp", "celsius")) == "gpu_temp_celsius"
  {
    SeparatedWords();
    GapParts();
    CleanGapped(WithSuffix("gpu temp", "celsius"), "gpu", " ", "", "", "temp_celsius", "gpu_temp_celsius");
  }

  /** The oldest variant's result for a name without `cpu`. */
  lemma LegacyPlain(raw: string, unit: string, name: string, id: string)
    requires Lowered(raw) == name && !Contains(name, "cpu")
    requires Clean(name + UnitSuffix(Legacy.LegacyUnits, unit)) == id
    ensures Legacy.NormalizeName(ShippedBlackList, raw, unit) == Success(Legacy.LegacyCanonical(id, None))
  {
    ShippedBlackListIsEmpty(name);
  }

  /** The oldest variant glues a known unit's suffix on without a separator. */
  lemma LegacyGluesSuffix()
    ensures Legacy.NormalizeName(ShippedBlackList, "Gpu temp", "C")
            == Success(Legacy.LegacyCanonical("gpu_tempcelsius", None))
  {
    GpuTempLowered();
    GpuTempNoCpu();
    CelsiusSuffix();
    GluedCleaned();
    LegacyPlain("Gpu temp", "C", "gpu temp", "gpu_tempcelsius");
  }

  /** The newer variants put an underscore before the same suffix. */
  lemma CommandSeparatesSuffix(entry: Entry)
    requires entry.localizedSourceName == "Gpu temp" && entry.sourceUnits == "C" && entry.gpuIndex >= 0
    ensures Normalizer.NormalizeName(ShippedBlackList, entry, None).Success?
    ensures Normalizer.NormalizeName(ShippedBlackList, entry, None).value.identifier == "gpu_temp_celsius"
  {
    GpuTempLowered();
    GpuTempNoUpper();
    GpuTempNoCpu();
    CelsiusSuffix();
    SeparatedCleaned();
    UnitIdentifier("gpu temp", "C", "gpu_temp_celsius");
    CommandIdentifier(entry, None);
  }

  lemma CpuUsageTrim()
    ensures TrimSpace("CPU Usage") == "CPU Usage"
  {
    Untrimmed("CPU Usage");
  }

  lemma CpuUsageLower()
    ensures ToLower("CPU Usage") == "cpu usage"
  {
  }

  lemma CpuUsageStart()
    ensures CpuThen("cpu usage", "", " usage")
  {
    assert "cpu usage" == "cpu" + "" + " usage";
  }

  lemma CpuUsageWords()
    ensures "cpu usage" + "_total" == "cpu" + " " + "" + "" + "usage_total"
    ensures Word("cpu") && Word("usage_total")
    ensures "cpu_usage_total" == "cpu" + "_" + "usage_total"
  {
  }

  lemma CpuUsageCleaned()
    ensures Clean("cpu usage" + "_total") == "cpu_usage_total"
  {
    CpuUsageWords();
    GapParts();
    CleanGapped("cpu usage" + "_total", "cpu", " ", "", "", "usage_total", "cpu_usage_total");
  }

  /** The oldest variant's result for a `cpu` name without a core number. */
  lemma LegacyAllCores(raw: string, unit: string, name: string, id: string)
    requires Lowered(raw) == name && MatchCpu(name).AllCores?
    requires Clean(name + "_total") == id
    ensures Legacy.NormalizeName(ShippedBlackList, raw, unit) == Success(Legacy.LegacyCanonical(id, Some(map[])))
  {
    ShippedBlackListIsEmpty(name);
  }

  /** In the oldest variant a `cpu` name without a core number ends in
      `_total` and gets an empty label map, whatever the unit. */
  lemma LegacyCpuUsageTotal(unit: string)
    ensures Legacy.NormalizeName(ShippedBlackList, "CPU Usage", unit)
            == Success(Legacy.LegacyCanonical("cpu_usage_total", Some(map[])))
  {
    CpuUsageTrim();
    CpuUsageLower();
    CpuUsageStart();
    CpuAtStart("cpu usage", "", " usage");
    CpuUsageCleaned();
    LegacyAllCores("CPU Usage", unit, "cpu usage", "cpu_usage_total");
  }

  // ---------------------------------------------------------------------------
  // Re-normalizing an identifier

  lemma C1puNoUpper()
    ensures NoUpper("c1pu")
  {
  }

  lemma C1puNoCpu()
    ensures !Contains("c1pu", "cpu")
  {
    AbsentPair("c1pu", "cpu");
  }

  lemma C1puParts()
    ensures "c1pu" == "c" + "1" + "pu"
    ensures Word("c") && Junk("1") && Word("pu")
    ensures "c" + "pu" == "cpu" && IsIdentifier("cpu")
  {
  }

  lemma C1puCleansToCpu()
    ensures Clean("c1pu") == "cpu"
  {
    C1puParts();
    KeepNameCharsAppend("c" + "1", "pu");
    KeepNameCharsAppend("c", "1");
    KeepNameCharsKeepsAll("c");
    KeepNameCharsKeepsAll("pu");
    KeepNameCharsDropsAll("1");
    RemoveInvalidCharactersIsFilter("c1pu");
    ReplaceSpaceRunsFixes("cpu");
  }

  lemma CpuNoUpper()
    ensures NoUpper("cpu")
  {
  }

  lemma CpuStart()
    ensures CpuThen("cpu", "", "")
  {
    assert "cpu" == "cpu" + "" + "";
  }

  lemma CpuTotalIsIdentifier()
    ensures WithSuffix("cpu", "total") == "cpu_total"
    ensures IsIdentifier("cpu_total")
  {
  }

  lemma CpuGetsTotal()
    ensures Normalizer.Identifier("cpu", "") == "cpu_total"
  {
    CpuNoUpper();
    CpuStart();
    CpuAtStart("cpu", "", "");
    CpuTotalIsIdentifier();
    CleanFixesIdentifier("cpu_total");
    AllCoresIdentifier("cpu", "", "cpu_total");
  }

  /** The CPU rule looks at the name before cleaning: `c1pu` has no `cpu` and
      cleans to `cpu`, whose own identifier then gets the `total` suffix. So
      re-normalizing an identifier is not the identity in general. */
  lemma CpuAppearsAfterCleaning()
    ensures !Contains("c1pu", "cpu")
    ensures Normalizer.Identifier("c1pu", "") == "cpu"
    ensures Normalizer.Identifier(Normalizer.Identifier("c1pu", ""), "") == "cpu_total"
  {
    C1puNoUpper();
    C1puNoCpu();
    C1puCleansToCpu();
    NoUnitIdentifier("c1pu", "cpu");
    CpuGetsTotal();
  }
}
