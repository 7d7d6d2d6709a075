# MSI Afterburner exporter: a Dafny model of its metric pipeline

The exporter polls the `/mahm` endpoint of MSI Afterburner's remote server.
That endpoint returns a snapshot of hardware sensor readings and the GPU
inventory. The exporter turns each reading into a Prometheus gauge called
`afterburner_<identifier>`, with labels. The repository holds three
generations of this code:

- the oldest poller and normalizer at the repository root;
- the `monitor` package, a poller with a GPU cache and failure counting;
- the `afterburner-exporter` command, which builds metrics on each scrape.

This project models the pure path from a decoded snapshot to metrics, in all
three variants, and proves properties of it:

- **Name normalization** (`NameRules`, `Normalizer`, `MonitorNormalizer`, `Legacy`).
  - Trim and lower-case the name, then check the blacklist.
  - Look up the unit suffix.
  - Apply the CPU-core rule, the frame-percentile rule and the GPU labels.
  - Append the suffix, strip invalid characters and turn white space into `_`.
- **The regular expressions** (`Matchers`). Each is a hand-written matcher with Go RE2's leftmost-first semantics:
  - `invalidCharacters` is stated literally and proved equal to a per-character filter;
  - `cpuMetrics` captures the digits right after the first `cpu`;
  - `frameMetrics` takes the leftmost start, then the shortest group;
  - the GPU patterns are substring tests, and `$power^` never matches.
- **Value normalization**, the exact-unit dispatch, with values as `real`.
  - The oldest poller instead scales a percentage only when its limit exceeds 1.
- **The `monitor` poll controller** (`PollController`).
  - The state is the `done` channel, the GPU cache and the failure counter.
  - Stop and Start, as written and corrected.
  - Failure counting in the query.
  - The GPU-cache refresh rule.
  - The `collectMetrics` fold, over a registry whose registration outcome is an input (`Registry`).
- **The oldest poller** (`Legacy.Poll`): early returns, then one gauge per entry.
- **The command's scrape collector** (`Collector`).
  - The ordered list of metrics built from one fetch.
  - Loop implementations proved equal to the functional definition.
- **The repository's own test tables** (`SourceExamples`), proved as lemmas.

The fetch is an input datatype, `Hardware.FetchOutcome`. It has four cases:
the request could not be built, the transport failed, or an answer came with
a status and an optional decoded body. `Hardware.Received` maps an outcome to
what every caller sees: the snapshot for status 200 with a decoded body, or
the error.

Points where the code behaves in a way a reader might not expect:

- Only an error from the HTTP client's `Do` increments `failureCount`. A non-200 status or an undecodable body returns an error without counting it.
- `Stop` is not idempotent, though the comment above it says the monitor can be restarted: see Findings.
- The name normalizers are not idempotent on all names: `c1pu` has no `cpu` in it, but its identifier `cpu` does, and that identifier gets `_total` when normalized again (`SourceExamples.CpuAppearsAfterCleaning`).

## Model

| member | source | states |
|---|---|---|
| Hardware.Received | monitor/remote_hardware_monitor.go:93-132 | the snapshot comes back exactly for status 200 with a decoded body; a request, transport, status or decode failure maps to its own error |
| Text.ToLower | cmd/afterburner-exporter/metric_normalizer.go:65 | lower-casing keeps the length and maps each character on its own: an upper-case letter becomes the same letter in lower case, and every other character is kept |
| Text.ToLowerIdempotent | cmd/afterburner-exporter/metric_normalizer.go:79 | lower-casing twice is lower-casing once |
| Text.TrimSpace | cmd/afterburner-exporter/metric_normalizer.go:65 | the result neither starts nor ends with white space; text with no white space is returned unchanged, and text made only of white space trims to "" |
| Text.TrimSpaceKeeps | cmd/afterburner-exporter/metric_normalizer.go:65 | trimming keeps exactly the infix from the first to the last non-space character |
| Text.Contains | cmd/afterburner-exporter/metric_normalizer.go:39-46 | the executable substring test holds iff the word occurs at some index |
| Text.DigitPrefix | cmd/afterburner-exporter/metric_normalizer.go:25 | the greedy `\d+` run: a prefix made only of digits, followed by the end or a non-digit |
| Matchers.RemoveInvalidCharactersIsFilter | cmd/afterburner-exporter/metric_normalizer.go:132 | replacing every match of `[^a-zA-Z_ ][^a-zA-Z0-9_ ]*` with "" deletes exactly the characters outside `[a-zA-Z_ ]` |
| Matchers.ReplaceSpaceRuns | cmd/afterburner-exporter/metric_normalizer.go:135 | after replacing white-space runs no white space is left, and the text is no longer |
| Matchers.ReplaceSpaceRunsFixes | cmd/afterburner-exporter/metric_normalizer.go:135 | text without white space passes through unchanged |
| Matchers.ReplaceSpaceRunsSplit | cmd/afterburner-exporter/metric_normalizer.go:135 | a maximal run of white space after a word becomes exactly one `_` |
| Matchers.CleanYieldsIdentifier | cmd/afterburner-exporter/metric_normalizer.go:132-135 | stripping and underscoring text without upper-case letters yields only `a-z` and `_` (possibly empty, possibly starting with `_`) |
| Matchers.CleanFixesIdentifier | cmd/afterburner-exporter/metric_normalizer.go:132-135 | stripping and underscoring leave such an identifier as it is |
| Matchers.MatchCpu | cmd/afterburner-exporter/metric_normalizer.go:89-93 | `cpuMetrics` matches iff the name contains `cpu`; the group is the digit run right after the first `cpu`, or empty when no digit follows |
| Matchers.MatchFrame | cmd/afterburner-exporter/metric_normalizer.go:100-103 | `frameMetrics` matches iff some start and group end fit it; the reported group is the non-empty text of the leftmost match with the shortest group |
| Matchers.FirstFrameMatchUnique | cmd/afterburner-exporter/metric_normalizer.go:28 | the match the engine reports, leftmost start then shortest group, is unique |
| Matchers.NoFramePrefixNoMatch | cmd/afterburner-exporter/metric_normalizer.go:28 | without `framerate ` in the name the frame rule cannot fire |
| Matchers.EndThenStartNeverMatches | cmd/afterburner-exporter/metric_normalizer.go:43 | `$power^` matches no name |
| NameRules.Lowered | cmd/afterburner-exporter/metric_normalizer.go:65 | the trimmed, lower-cased name has no upper-case letter |
| NameRules.UnitSuffix | cmd/afterburner-exporter/metric_normalizer.go:79-84 | the suffix is the table's entry for the lower-cased unit, or the lower-cased unit itself when the table has none |
| NameRules.UnitSuffixIgnoresCase | cmd/afterburner-exporter/metric_normalizer.go:79-84 | the lookup gives the same suffix for a unit and its lower-cased form |
| NameRules.EmptyUnitHasNoSuffix | cmd/afterburner-exporter/metric_normalizer.go:79-84 | an empty unit gives an empty suffix |
| NameRules.MetricUnitsAreLowerCase | cmd/afterburner-exporter/metric_normalizer.go:48-56 | every suffix in the unit table is lower-case |
| NameRules.WithSuffix | cmd/afterburner-exporter/metric_normalizer.go:126-129 | a non-empty suffix follows the name after one `_`; an empty suffix adds neither `_` nor text; the result adds no upper-case letter |
| NameRules.ApplyGpuPatternsOnce | cmd/afterburner-exporter/metric_normalizer.go:109-124 | the GPU loop equals describing the GPU once if it is labelled at all: a list is given, some pattern matches and the index is in range; otherwise the labels are unchanged |
| NameRules.GpuPatternsAreSubstrings | cmd/afterburner-exporter/metric_normalizer.go:39-46 | some GPU pattern matches iff the name contains one of the thirteen listed phrases |
| NameRules.ShippedBlackListIsEmpty | cmd/afterburner-exporter/metric_normalizer.go:33-35 | the shipped blacklist matches no name |
| Normalizer.GpuLabels | cmd/afterburner-exporter/metric_normalizer.go:115-119 | a GPU is described by exactly the five keys `gpu`, `gpu_id`, `gpu_bios`, `gpu_driver` and `gpu_family` |
| Normalizer.Identifier | cmd/afterburner-exporter/metric_normalizer.go:126-135 | the identifier contains only `a-z` and `_` |
| Normalizer.RuleLabels | cmd/afterburner-exporter/metric_normalizer.go:86-107 | the CPU and frame rules set `core` iff a core number follows the first `cpu`, and `percent` iff the frame regex matches, with the captured groups as values |
| Normalizer.NormalizeName | cmd/afterburner-exporter/metric_normalizer.go:61-138 | fails iff the blacklist matches the lowered name, with that name in the error; otherwise yields an identifier and labels drawn only from `core`, `percent` and the five GPU keys |
| Normalizer.NormalizeValue | cmd/afterburner-exporter/metric_normalizer.go:142-153 | `%` divides by 100; `MB` and `MHz` multiply by 1000000; every other unit, `mb` and `mhz` included, passes through |
| Normalizer.LabelsOutsideGpu | cmd/afterburner-exporter/metric_normalizer.go:109-124 | without the GPU keys, the labels are exactly those the CPU and frame rules set |
| Normalizer.IdentifierIgnoresGpus | cmd/afterburner-exporter/metric_normalizer.go:109-124 | two entries with the same name and unit succeed or fail together, get the same identifier and agree outside the GPU labels, whatever their GPU lists and indexes |
| Normalizer.LabelsClosedForm | cmd/afterburner-exporter/metric_normalizer.go:86-124 | the labels are the rule labels, plus the description of the entry's GPU when the GPU loop fires |
| Normalizer.GpuDescriptionKeepsRules | cmd/afterburner-exporter/metric_normalizer.go:115-119 | adding a GPU description overrides neither `core` nor `percent` |
| Normalizer.RuleLabelsKept | cmd/afterburner-exporter/metric_normalizer.go:86-107 | in the final labels, `core` holds the core number and `percent` the frame group, exactly when their rules fire |
| Normalizer.GpuLabelRule | cmd/afterburner-exporter/metric_normalizer.go:109-124 | the five GPU labels appear, describing the GPU at the entry's index, iff a list is given, a pattern matches and the index is in range; otherwise no GPU key is set and no error is raised |
| Normalizer.UnitSuffixRule | cmd/afterburner-exporter/metric_normalizer.go:126-135 | unless `cpu` occurs without a core number after it, the identifier is the cleaned name, then `_` and the unit's suffix; with an empty suffix it is the cleaned name alone |
| Normalizer.CpuRule | cmd/afterburner-exporter/metric_normalizer.go:89-98 | with no core number the identifier ends in `_total` whatever the unit, and there is no `core` label; with one, `core` holds it |
| Normalizer.TotalSuffix | cmd/afterburner-exporter/metric_normalizer.go:96 | when the CPU rule finds no core, the unit plays no part and the suffix is `_total` |
| Normalizer.NeverBlackListed | cmd/afterburner-exporter/metric_normalizer.go:67-73 | with the shipped blacklist the normalizer never fails |
| Normalizer.IdentifierFixesItself | cmd/afterburner-exporter/metric_normalizer.go:65-135 | an identifier without `cpu` is its own lowered form and its own identifier with an empty unit |
| Normalizer.IdentifierIsFixpoint | cmd/afterburner-exporter/metric_normalizer.go:61-138 | normalizing an output identifier again with an empty unit returns it, when it contains no `cpu` |
| MonitorNormalizer.GpuLabels | monitor/metric_normalizer.go:100-103 | a GPU is described by exactly the four keys `gpu`, `gpu_id`, `gpu_bios` and `gpu_driver` |
| MonitorNormalizer.CoreLabel | monitor/metric_normalizer.go:83-92 | the CPU rule sets no key other than `core` |
| MonitorNormalizer.Identifier | monitor/metric_normalizer.go:110-119 | the identifier contains only `a-z` and `_` |
| MonitorNormalizer.Labels | monitor/metric_normalizer.go:80-108 | the label map always exists and holds no key other than `core` and the four GPU keys: no frame label, no family |
| MonitorNormalizer.NormalizeName | monitor/metric_normalizer.go:55-122 | fails iff the blacklist matches, with the name in the error; otherwise an identifier and labels drawn from `core` and the four GPU keys |
| MonitorNormalizer.NormalizeValue | monitor/metric_normalizer.go:124-135 | `%` divides by 100; `MB` and `MHz` multiply by 1000000; everything else passes through |
| MonitorNormalizer.ValueAsInCommand | monitor/metric_normalizer.go:124-135 | the value normalizer equals the command's on every value and unit |
| MonitorNormalizer.LabelsClosedForm | monitor/metric_normalizer.go:80-108 | the labels are the core label plus, when the GPU loop fires, the four-key description of the entry's GPU |
| MonitorNormalizer.DescriptionsAgree | monitor/metric_normalizer.go:100-103 | the four-key description is the command's five-key one without `gpu_family` |
| MonitorNormalizer.AgreesWithCommand | monitor/metric_normalizer.go:55-122 | on every entry and GPU list the middle and newest variants fail together and give the same identifier, and the labels here are the command's without `percent` and `gpu_family` |
| MonitorNormalizer.IdentifiersAgree | monitor/metric_normalizer.go:110-119 | the two identifier pipelines are equal |
| MonitorNormalizer.LabelsAgree | monitor/metric_normalizer.go:80-108 | the labels are the command's labels without `percent` and `gpu_family` |
| MonitorNormalizer.GpuLabelRule | monitor/metric_normalizer.go:94-108 | the four GPU labels appear iff a list is given, a pattern matches and the index is in range; an index past the end only leaves them out |
| MonitorNormalizer.IdentifierIsFixpoint | monitor/metric_normalizer.go:55-122 | normalizing an output identifier again with an empty unit returns it, when it contains no `cpu` |
| Legacy.LegacyLabels | remote_hardware_monitor.go:193-215 | the label map is nil iff the name has no `cpu`; it holds `core`, and only `core`, exactly when a core number was captured |
| Legacy.NormalizeName | remote_hardware_monitor.go:182-227 | fails iff blacklisted, with the name in the error; otherwise the identifier contains only `a-z` and `_`, and the labels are nil iff the name has no `cpu` |
| Legacy.LegacyValue | remote_hardware_monitor.go:122-126 | a `%` value is divided by 100 when the sensor's limit exceeds 1; every other value is set raw |
| Legacy.ValueAgainstCommand | remote_hardware_monitor.go:122-126 | the oldest value rule equals the command's for a percentage with a limit above 1 and for every unit other than `%`, `MB` and `MHz`; a percentage with a limit of at most 1, `MB` and `MHz` are scaled by the command only; for a non-zero reading they agree iff outside those cases |
| Legacy.LegacyUnitsAreOlderTable | remote_hardware_monitor.go:167-172 | the table is the newer one without `mhz` and `mb`, so those units are used lower-cased as suffixes |
| Legacy.SuffixWithoutSeparator | remote_hardware_monitor.go:217-224 | without `cpu` the suffix follows the name with no separator |
| Legacy.AllCoresTotal | remote_hardware_monitor.go:205-218 | a CPU name without a core number ends in `_total` whatever the unit, with an empty label map |
| Legacy.AgreesWithCommandWithoutUnit | remote_hardware_monitor.go:182-227 | with an empty unit, or a CPU name without a core, the oldest identifier equals the command's |
| Legacy.Poll | remote_hardware_monitor.go:73-131 | a request, transport, status or decode error is returned with no gauge set; otherwise the poll succeeds |
| Legacy.PollEntryFrame | remote_hardware_monitor.go:109-128 | one entry only adds to the registry; a blacklisted or refused entry sets nothing, and series of other families keep their values |
| Legacy.PollEntriesAppend | remote_hardware_monitor.go:109-128 | polling `a + b` is polling `a` and then `b` |
| Legacy.PollEntriesGrows | remote_hardware_monitor.go:109-128 | the registry and the set of series only grow over a poll |
| Legacy.LastWriterWins | remote_hardware_monitor.go:109-128 | if the last entry gets a gauge, its series ends with that entry's value |
| Registry.FamilyName | monitor/remote_hardware_monitor.go:209-211 | the family is `afterburner_` followed by the identifier |
| Registry.GetCollector | monitor/remote_hardware_monitor.go:207-224 | a fresh registration adds the family; a collision reuses it and leaves the registry as it was; any other error yields no series; values are never touched |
| Registry.Set | monitor/remote_hardware_monitor.go:147 | setting a gauge changes its own series and no other |
| PollController.StopAsWritten | monitor/remote_hardware_monitor.go:80-91 | `Stop` panics exactly when `done` is already closed |
| PollController.StartAsWritten | monitor/remote_hardware_monitor.go:49-58 | `Start` panics exactly when `done` is already closed, because it calls `Stop` first |
| PollController.RestartAfterStopPanics | monitor/remote_hardware_monitor.go:80-91 | after a started monitor is stopped, both a restart and a second stop panic |
| PollController.StartStopStartPanics | monitor/remote_hardware_monitor.go:49-91 | start, stop, start from a fresh monitor panics on the second start |
| PollController.Stop | monitor/remote_hardware_monitor.go:80-91 | the corrected `Stop` returns the monitor to its fresh state |
| PollController.Start | monitor/remote_hardware_monitor.go:49-58 | a (re)started monitor has an open channel, no cache and no failures |
| PollController.CorrectionOnlyDropsChannel | monitor/remote_hardware_monitor.go:80-91 | where the code as written does not panic, the correction differs from it in the channel alone |
| PollController.StopIdempotent | monitor/remote_hardware_monitor.go:78-91 | with the correction, stopping twice is stopping once, and starting after a stop is starting |
| PollController.StartForgetsHistory | monitor/remote_hardware_monitor.go:49-58 | a start gives the same monitor whatever state came before |
| PollController.Query | monitor/remote_hardware_monitor.go:93-132 | the query returns the fetch's result, and only a transport failure increments the failure count |
| PollController.MetricCollector | monitor/remote_hardware_monitor.go:200-225 | a name that fails to normalize yields no collector and no registry change; values are never touched and families are only added |
| PollController.CollectEntryEffect | monitor/remote_hardware_monitor.go:134-149 | an entry without a collector leaves the values as they were; otherwise only its series changes, to the normalized value |
| PollController.CollectAppend | monitor/remote_hardware_monitor.go:134-150 | collecting `a + b` is collecting `a` and then `b` |
| PollController.CollectGrows | monitor/remote_hardware_monitor.go:134-150 | collection only grows the registry and the set of series |
| PollController.Poll | monitor/remote_hardware_monitor.go:152-175 | a poll fails iff the fetch does, and never touches the channel |
| PollController.FailedPollTouchesOnlyTheCount | monitor/remote_hardware_monitor.go:153-157 | a failed poll returns the fetch error and leaves the cache and the metrics untouched; only a transport failure is counted |
| PollController.SuccessfulPollCache | monitor/remote_hardware_monitor.go:159-170 | on success the cache is replaced iff it was empty or there were at least three failures, and the snapshot lists a GPU; the count is then zero |
| PollController.OutputIgnoresCache | monitor/remote_hardware_monitor.go:134-172 | the stored metrics and the result depend on the answer alone, not on the cache or the failure count |
| PollController.FailTimes | monitor/remote_hardware_monitor.go:110-115 | failed queries change neither the cache nor the channel |
| PollController.FailTimesCounts | monitor/remote_hardware_monitor.go:110-115 | `k` transport failures raise the count by `k` |
| PollController.RefreshAfterFailures | monitor/remote_hardware_monitor.go:159-170 | after a start and a first answer with GPUs, a later answer with GPUs replaces the cache iff at least three transport failures came in between (or the list is the same); fewer leave it alone |
| Collector.EntryMetric | cmd/afterburner-exporter/afterburner_collector.go:68-90 | an entry gives no metric iff its name fails to normalize; otherwise `afterburner_<identifier>` with the normalizer's labels and the normalized value |
| Collector.GpuInfo | cmd/afterburner-exporter/afterburner_collector.go:48-65 | the inventory metric is `afterburner_gpu` with value 1 and labels `name`, `id`, `bios`, `driver` and `family` from the GPU's device, id, BIOS, driver and family |
| Collector.Collect | cmd/afterburner-exporter/afterburner_collector.go:24-29 | a failed fetch emits nothing |
| Collector.EntryMetricsCount | cmd/afterburner-exporter/afterburner_collector.go:31-46 | one metric per entry that normalizes |
| Collector.CollectCount | cmd/afterburner-exporter/afterburner_collector.go:24-66 | a scrape emits as many metrics as there are normalized entries and GPUs together |
| Collector.EntryMetricsAppend | cmd/afterburner-exporter/afterburner_collector.go:31-46 | entry order is kept: the metrics of `a + b` are those of `a`, then those of `b` |
| Collector.EntryMetricsSingle | cmd/afterburner-exporter/afterburner_collector.go:31-46 | a single entry emits its own metric, or nothing |
| Collector.GpuMetricsLast | cmd/afterburner-exporter/afterburner_collector.go:48-65 | a scrape starts with the entry metrics, and the inventory metrics follow, one per GPU in GPU order |
| Collector.EntryLoop | cmd/afterburner-exporter/afterburner_collector.go:31-46 | the entry loop emits exactly the functional list of entry metrics |
| Collector.GpuLoop | cmd/afterburner-exporter/afterburner_collector.go:48-65 | the GPU loop emits one inventory metric per GPU, in order |
| Collector.CollectLoop | cmd/afterburner-exporter/afterburner_collector.go:24-66 | the two loops together emit exactly the functional result |
| SourceExamples.MonitorNameTableHolds | monitor/remote_hardware_monitor_test.go:15-28 | every row of the name table holds for the middle variant with unit "", whatever the GPU list |
| SourceExamples.LegacyNameTableHolds | remote_hardware_monitor_test.go:13-25 | every row of the name table holds for the oldest variant with unit "" |
| SourceExamples.MonitorValueTableHolds | monitor/remote_hardware_monitor_test.go:45-48 | the four value cases hold, in exact arithmetic |
| SourceExamples.CpuCoreLabel | monitor/remote_hardware_monitor_test.go:22 | "CPU18 Temperature" with unit "" gives `cpu_temperature` with `core=18` in the command's normalizer |
| SourceExamples.FramePercentLabel | cmd/afterburner-exporter/metric_normalizer.go:100-107 | "framerate 1% low" gives `framerate_low` with `percent=1` |
| SourceExamples.LegacyGluesSuffix | remote_hardware_monitor.go:218-224 | "Gpu temp" with unit "C" gives `gpu_tempcelsius` and nil labels in the oldest variant |
| SourceExamples.CommandSeparatesSuffix | cmd/afterburner-exporter/metric_normalizer.go:126-135 | the same entry gives `gpu_temp_celsius` in the newest variant |
| SourceExamples.LegacyCpuUsageTotal | remote_hardware_monitor.go:205-218 | "CPU Usage" gives `cpu_usage_total` and an empty label map in the oldest variant, whatever the unit |
| SourceExamples.CpuAppearsAfterCleaning | cmd/afterburner-exporter/metric_normalizer.go:89-135 | `c1pu` has no `cpu`, its identifier is `cpu`, and that identifier normalizes again to `cpu_total` |

## Left out

- HTTP fetching and basic authentication (afterburner/afterburner_client.go and the request code of both pollers) are I/O; the fetch is the input datatype `Hardware.FetchOutcome`.
- XML decoding (`parseResponse`) wraps `encoding/xml`; only the decoded struct shapes are modelled.
- The goroutine, the ticker and the `select` loop are concurrency. Each modelled call is one loop step, and the `done` channel is reduced to never made, open or closed.
- Stop and Start of the oldest poller (remote_hardware_monitor.go:35-71) close `done` in the same way. They are not modelled separately; that poller has no GPU cache or failure count to reset.
- Prometheus internals are not modelled: counters and histograms, the choice between `AlreadyRegisteredError` and other errors, `MustNewConstMetric` validation, and `GetMapKeys`. The registration outcome is the input function `Registry.Registrar`, and a series is identified by its family and labels.
- Floating point: values are `real`, so the test expectations such as 53.5/100 = 0.535 hold in exact arithmetic, not IEEE.
- Unicode: `strings.ToLower`, `strings.TrimSpace` and the regex classes are modelled on ASCII only.
- A negative `GpuIndex` panics in the newer normalizers only when a GPU list is given and a GPU pattern matches, because the source checks only the upper bound before indexing. The requires `gpuIndex >= 0` on every normalizer, and `WellIndexed` on `Collector.Collect` and `PollController.Poll`, also exclude negative indexes on other entries, which the source accepts.
- The blacklist is a list of `Matchers.Pattern` values, which express only literal alternations matched anywhere and the anchored form `$w^`. A general regular expression, such as the commented-out `cpu.*?usage.*`, cannot be given. The shipped list is empty, so no shipped behaviour depends on this.
- Logging, the process wiring (both `main.go` files and the sample server), the version collector, and the empty test table of cmd/afterburner-exporter/metric_normalizer_test.go.
- monitor/remote_hardware_monitor_test.go calls `normalizeMetricName(string, string)`, which does not match the middle variant's signature. Its rows are read as entries with that localized name, unit "" and any GPU list.
- Normalizer.IdentifierIsFixpoint: requires that the identifier contain no `cpu`, which is stronger than requiring no `cpu` in the original name, because the claim is false without it (see `SourceExamples.CpuAppearsAfterCleaning`).
- MonitorNormalizer.IdentifierIsFixpoint: carries the same extra requirement, for the same reason.
- PollController.Poll: its ensures states only the failure iff and the untouched channel; the cache and count rules are stated by `FailedPollTouchesOnlyTheCount` and `SuccessfulPollCache`.

## Findings

| source | as written | input that shows it | evidently intended | confidence | as-written member | corrected member |
|---|---|---|---|---|---|---|
| monitor/remote_hardware_monitor.go:85-87 | `Stop` closes `done` but leaves it set. `Start` calls `Stop` before making a new channel, so the closed channel is closed again | `Start`, `Stop`, `Start` on a fresh monitor, or `Stop` twice after a `Start`: the close of a closed channel panics | the comment above `Stop` says the monitor can be restarted: after closing, `done` should be dropped so that a later `Stop` or `Start` is safe | high, not executed | PollController.StartStopStartPanics | PollController.StopIdempotent |
