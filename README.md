# GreenPipeline energy and carbon accounting, modelled in Dafny

GreenPipeline estimates the energy and carbon footprint of a command or a
function. This project models the two parts that do the arithmetic and keep
state:

- **The energy estimator** (`core/estimator.py`, class `EnergyEstimator`).
  It looks up the CPU's TDP by architecture, with a default of 65 W. Power is
  `tdp * (util * 0.6 + 0.4) + memGB * 0.375`. Energy is power times duration.
  The energy is converted to kWh and then to grams of CO2e; the SCI score is
  the carbon. It has two entry points: one averages sampled CPU and memory
  series, the other takes megabytes directly. Module `Estimator` in
  `estimator.dfy` holds this model. The class keeps the three fields that
  `__init__` sets as `const` fields, because nothing changes them afterwards.
- **The command-line tool** (`src/greenpipeline/cli.py`, class
  `GreenPipelineCLI`). Module `Cli` in `cli.dfy` holds this model. The tool
  picks a grid intensity per location and charges every run a fixed 25 W. It
  builds a record with the smartphone and kilometre equivalents. The history
  file keeps the last 100 records. The history view lists the last `limit`
  records and totals the whole log. The comparison runs the command for four
  locations and reports each run's change against the first.
  The history file is the class field `historyFile: Option<seq<RunRecord>>`.
  `None` means the file does not exist.

`py_builtins.dfy` models the Python built-ins the core relies on. Both files use
`sum`. Only `cli.py` uses the slice `s[start:]`, with its handling of negative
and zero starts.
`units.dfy` holds the joules-per-kWh constant that both files use.

Both source files are modelled as written and are kept separate. `run_command`
does not call the estimator: its imports are commented out, and it uses
placeholder values (45% CPU, 512 MB, 25 W).

Behaviour of the code as written that a reader might not expect:

- `run` uses the placeholder 25 W model, not the sampling estimator.
- Utilisation and memory are used as given, with no check of their range. The range lemmas
  (`CpuPowerRange`, `SampledCpuPowerInRange`, `MetricsNonNegative`) therefore
  require inputs in range. `TotalPowerMonotone` needs only ordered inputs.
- A history file that exists but does not parse makes `json.load` raise.
  That path is not modelled.
- The tool's fallback intensity is 389 g/kWh. The estimator's default is
  475 g/kWh.
- The argument parser has no `--limit` option, so `main` always lists 10
  records. `ShowHistory` still takes the limit as a parameter.

## Model

| member | source | states |
|---|---|---|
| `Estimator.LookupTdp` | core/estimator.py:27-31 | TDP is 15 W exactly for "aarch64" and "arm64". It is 65 W for "x86_64" and for any architecture not in the table. |
| `Estimator.TdpIgnoresCase` | core/estimator.py:47-48 | The machine name is lower-cased before the lookup. "ARM64" and "AArch64" give 15 W, and "X86_64" gives 65 W. |
| `Estimator.Lower` | core/estimator.py:47 | Lower-casing keeps the length, turns each upper-case ASCII letter into its lower-case counterpart, and changes no other character. |
| `Estimator.TdpIgnoresAsciiCase` | core/estimator.py:46-48 | Two machine names that differ only in the case of ASCII letters give the same platform name and so the same TDP. |
| `Estimator.EnergyEstimator.constructor` | core/estimator.py:41-48 | The estimator keeps the given intensity and the lower-cased platform name. Its TDP is the table's value for that platform. With no intensity given, it uses the global average of 475 g/kWh. |
| `Estimator.Average` | core/estimator.py:85-88 | An empty series averages to 0. A non-empty series has an average that, times the number of samples, gives the sum, with no division error. |
| `PyBuiltins.Sum` | core/estimator.py:85-86 | `sum` of an empty list is 0 and of one value is that value. The body adds left to right; `SumAppend`, `SumBounds` and `SumNonNegative` state its properties. |
| `Estimator.AverageBounded` | core/estimator.py:85-88 | The average lies between any bounds that hold for every sample. So CPU samples in [0, 100] average to a value in [0, 100], and this also holds for an empty series. |
| `Estimator.EnergyEstimator.CalculateEnergy` | core/estimator.py:95-137 | Energy is total power times duration. Carbon is energy / 3 600 000 * intensity. The SCI score equals the carbon. Duration and CPU pass through unchanged, and memory is reported as GB * 1024. |
| `Estimator.EnergyEstimator.CpuPower` | core/estimator.py:106-110 | The CPU draws 0.4 * TDP at 0% and the full TDP at 100%. `CpuPowerRange` states the range in between. |
| `Estimator.EnergyEstimator.RamPower` | core/estimator.py:112-113 | Memory draws 0.375 W per GB: nothing for no memory, and a non-negative draw for non-negative memory. |
| `Estimator.EnergyEstimator.TotalPower` | core/estimator.py:115-116 | Total draw is CPU plus memory draw. An idle machine with no memory draws the CPU baseline 0.4 * TDP. `TotalPowerMonotone` states that it grows with load and memory. |
| `Estimator.CpuPowerRange` | core/estimator.py:106-110 | For TDP >= 0 and CPU in [0, 100], CPU power lies in [0.4 * TDP, TDP]. It is 0.4 * TDP at 0% and TDP at 100%. |
| `Estimator.TotalPowerMonotone` | core/estimator.py:107-116 | Total power never decreases when CPU percentage or memory increases. |
| `Estimator.EnergyAtZeroLoad` | core/estimator.py:101-119 | At 0% CPU and 0 GB, energy is TDP * 0.4 * duration. |
| `Estimator.WorkedExample` | core/estimator.py:101-128 | An x86_64 estimator at 50%, 2 GB and 10 s draws 45.5 W + 0.75 W and uses 462.5 J. At 475 g/kWh that gives 462.5 / 3 600 000 * 475 g. |
| `Estimator.MetricsNonNegative` | core/estimator.py:110-128 | Non-negative TDP, intensity, duration, CPU and memory give non-negative energy, carbon and SCI score. |
| `Estimator.EnergyEstimator.EstimateFromMetrics` | core/estimator.py:139-146 | The returned record gives back the megabytes it was given. Duration and CPU pass through unchanged. |
| `Estimator.EntryPointsAgree` | core/estimator.py:139-146 | `estimate_from_metrics` with memory in MB equals `_calculate_energy` with that memory in GB, for every input. |
| `Estimator.EnergyEstimator.MeasureFromSamples` | core/estimator.py:82-93 | The sampled entry point gives exactly what the metrics entry point gives for the mean CPU and the mean memory converted to MB. |
| `Estimator.SampledCpuPowerInRange` | core/estimator.py:85-110 | CPU samples in [0, 100] give a reported CPU percentage in [0, 100]. The CPU power is then between the idle draw and the TDP. |
| `PyBuiltins.SliceFrom` | src/greenpipeline/cli.py:158 | Python's `s[start:]` always returns a suffix of `s`, never longer than `s`. |
| `PyBuiltins.SliceFromLast` | src/greenpipeline/cli.py:177 | For n >= 1, `s[-n:]` is the last min(n, len) elements, in order. |
| `PyBuiltins.SliceFromZero` | src/greenpipeline/cli.py:177 | `s[-0:]` is the whole sequence. |
| `PyBuiltins.SumAppend` | src/greenpipeline/cli.py:186-187 | The sum of a concatenation is the sum of the sums of its parts. |
| `Cli.CarbonIntensityFor` | src/greenpipeline/cli.py:45 | Intensity is 420 exactly for "DE" and 165 exactly for "CO". Every other code gets 389. |
| `Cli.FallbackIntensities` | src/greenpipeline/cli.py:45 | "US-CA", "FR" and the default "GLOBAL" all get 389. |
| `Cli.ExecutionStatus` | src/greenpipeline/cli.py:52-60 | Success holds exactly when the command exited with status 0. Output is stdout on success, stderr on a non-zero exit, and the exception text when running raised. |
| `Cli.BuildRecord` | src/greenpipeline/cli.py:62-93 | The record carries the inputs and the location's intensity. kWh is joules / 3 600 000. Carbon is kWh * intensity. Smartphone charges are carbon * 1000 / 0.062, and km driven is carbon / 192. |
| `Cli.FixedPowerDraw` | src/greenpipeline/cli.py:64-70 | Energy is duration * 25 J whatever the command does. Every record carries the placeholder 45% CPU and 512 MB. |
| `Cli.FailedRunStillAccounted` | src/greenpipeline/cli.py:52-93 | A failed or raising run gets the same metrics and equivalents as a successful run of the same duration. |
| `Cli.RecordNonNegative` | src/greenpipeline/cli.py:70-91 | A non-negative duration gives non-negative energy, kWh, carbon and equivalents. |
| `Cli.CarbonOrderByLocation` | src/greenpipeline/cli.py:45-72 | For the same positive duration, CO emits less than any other code, and any other code emits less than DE. |
| `Cli.BoundedAppend` | src/greenpipeline/cli.py:155-158 | Appending and keeping the last 100 gives a log of 1 to 100 records that ends with the new one. `BoundedAppendShape` states the rest of its shape. |
| `Cli.BoundedAppendShape` | src/greenpipeline/cli.py:155-158 | After an append, the log has min(old + 1, 100) entries and ends with the new record. It is preceded by the most recent old entries in their order. A log with room grows by one, and a full log drops its oldest entry. |
| `Cli.BoundedAppendOfSuffix` | src/greenpipeline/cli.py:155-158 | Keeping the last 100 before appending and trimming gives the same log as appending to the untrimmed log and trimming. |
| `Cli.AppendsKeepMostRecent` | src/greenpipeline/cli.py:147-161 | After any non-empty series of saves, the log is exactly the last 100 of the old log followed by the saved records. |
| `Cli.GreenPipelineCli.constructor` | src/greenpipeline/cli.py:18-20 | The tool starts over the history file as it is on disk, with None meaning absent. |
| `Cli.GreenPipelineCli.StoredHistory` | src/greenpipeline/cli.py:149-153 | An absent file reads as the empty log, and an existing file as its records. |
| `Cli.GreenPipelineCli.SaveToHistory` | src/greenpipeline/cli.py:147-161 | The file becomes (old log, or empty if absent, ++ [record]) trimmed to its last 100 entries. Saving to a log with room adds the record's carbon and energy to the totals. Saving to a full log also drops the oldest record's carbon and energy from them. |
| `Cli.GreenPipelineCli.RunCommand` | src/greenpipeline/cli.py:22-102 | Returns the record for the run. The history changes only when `save_history` is true, and then by one bounded append. The location defaults to "GLOBAL" and saving defaults to on. |
| `Cli.GreenPipelineCli.ShowHistory` | src/greenpipeline/cli.py:165-195 | Shows nothing exactly when the file is absent. Otherwise the count is the length of the whole log. The limit defaults to 10. |
| `Cli.ShowHistoryListsLatest` | src/greenpipeline/cli.py:177 | For limit >= 1, the listing is the last min(limit, count) records in chronological order. Limit 0 lists the whole log. |
| `Cli.ShowHistoryTotalsIgnoreLimit` | src/greenpipeline/cli.py:186-190 | The count and the carbon and energy totals are the same for every limit. |
| `Cli.TotalsAfterSave` | src/greenpipeline/cli.py:186-187 | Saving to a log with fewer than 100 entries adds the record's carbon and energy to the totals. |
| `Cli.TotalsAfterFullSave` | src/greenpipeline/cli.py:186-187 | Saving to a log of exactly 100 records drops the oldest record's carbon and energy from the totals and adds the new record's. |
| `Cli.TotalsNonNegative` | src/greenpipeline/cli.py:186-187 | Records with non-negative carbon and energy give non-negative totals. |
| `Cli.DeltaPercent` | src/greenpipeline/cli.py:224 | The delta is 0 exactly when the carbon equals the baseline. `DeltaPercentMeaning` states its sign and how to recover the carbon. |
| `Cli.DeltaPercentMeaning` | src/greenpipeline/cli.py:224-225 | For a positive baseline, the delta is 0 at the baseline and positive exactly above it. The carbon is recovered as baseline * (1 + delta / 100). |
| `Cli.DeltasReportInOrder` | src/greenpipeline/cli.py:216-229 | The report has one row per run, in run order, with the run's name and carbon. The baseline row shows 0%, and a row shows an increase exactly when it emits more than the first run. |
| `Cli.Deltas` | src/greenpipeline/cli.py:220-225 | The report fails exactly when the first run's carbon is 0. Otherwise it has one row per run. `DeltasReportInOrder` states the rows. |
| `Cli.ReportDeltas` | src/greenpipeline/cli.py:216-229 | The loop computes exactly the specified report. It gives None, standing for the division error, exactly when the first carbon is 0. |
| `Cli.ComparisonRuns` | src/greenpipeline/cli.py:210-213 | There is one run per compared location, in the order CO, DE, US-CA, FR. Each run carries that location's name and code, the command and its observed duration. |
| `Cli.ComparisonRunCarbon` | src/greenpipeline/cli.py:210-213 | The k-th comparison run's carbon is its duration at 25 W, in kWh, times the k-th location's intensity. |
| `Cli.DeltaOfSameEnergy` | src/greenpipeline/cli.py:224 | At equal energy, the delta between two locations is the relative difference of their intensities. |
| `Cli.ComparisonOfEqualRuns` | src/greenpipeline/cli.py:199-225 | With equal positive durations, the deltas are 0, +1700/11 %, +4480/33 % and +4480/33 % for CO, DE, US-CA and FR. A zero-length first run makes the comparison fail. |
| `Cli.GreenPipelineCli.CompareLocations` | src/greenpipeline/cli.py:197-229 | Runs CO, DE, US-CA and FR in that order without saving, so the history file is unchanged. The report is the delta table against the first run. |

## Left out

- Sampling: the thread, its `running` flag, `join(timeout=1)`, `psutil` and `time.sleep` are concurrency and system calls. The two sample series they produce are parameters of `MeasureFromSamples`.
- The function `measure_execution` calls, and the value it returns: this is a foreign call. Only the metrics are modelled.
- `Estimator.EnergyEstimator.MeasureFromSamples` models only the path where the measured function returns. If it raises, the `finally` block stops the sampler and the exception escapes (core/estimator.py:75-80), so no measurement is produced. This is the reverse of `run_command`, which records a failed or raising command with full metrics.
- Clocks and process execution: `time.time`, `datetime.now()` and `subprocess.run` are inputs. These are the duration, the timestamp and an `Execution` value, which is either an exit status with stdout and stderr, or the text of a raised exception.
- `platform.machine()` is a parameter of the constructors. `str.lower()` is modelled for ASCII letters only, because machine names are ASCII.
- JSON reading and writing, `Path.home()` and `mkdir` are I/O. The history file is an in-memory `Option<seq<RunRecord>>`. A file that exists but does not parse, which would make `json.load` raise, is not modelled.
- `round(...)`: every value is the exact real before rounding, and IEEE-754 floating point is not modelled. In the Python program, the history totals and the comparison baseline read the rounded carbon (4 decimals) and the rounded energy in joules (2 decimals). There, a CO run of less than about 0.0436 s already rounds to a zero baseline and raises the division error. In this model the division error (`None`) arises only when the first run's carbon is exactly 0.
- `_print_results`, all printing and formatting, the emoji choice, the truncation of timestamps and commands in the listing, and the smartphone figure printed under the totals are display only.
- `time.sleep(1)` between comparison runs is a clock call.
- `main` and the argparse dispatch are argument parsing.
- `setup.py` is packaging metadata.
