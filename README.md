# FPGA accelerator controller and performance profiler, in Dafny

This project models the simulated PCIe FPGA accelerator controller (`FPGAController`) and
the post-collection computations of its performance profiler (`PerformanceProfiler`), and
proves properties of that model. The modules are:

- `Outcomes` (`outcomes.dfy`): `Option`, the Python exceptions the code can raise
  (`RuntimeError`, `ZeroDivisionError`, `StatisticsError`) and a `Result` type.
- `SampleStats` (`sample_stats.dfy`): `sum`, `min`, `max`, `sorted`, the mean, and the
  nearest-rank percentile `sorted(xs)[int(len(xs) * p)]` over exact reals. `sorted` is
  modelled as insertion sort. A lemma shows that only one ascending arrangement exists,
  so the choice of sorting algorithm does not matter.
- `FpgaControl` (`fpga_controller.dfy`): the configuration record, the keyword-argument
  merge of `update_config`, the sample formula of `read_metrics`, and the rolling
  statistics of `get_statistics`. It also holds the `FPGAController` class, whose fields
  are the configuration, the connection flag and the append-only sample history.
- `PerformanceProfiling` (`performance_profiler.dfy`): the latency, jitter and throughput
  reports with their PASS/FAIL decisions, and the `PerformanceProfiler` class, whose
  methods run the sampling loops against the controller.

Inputs from the outside world are parameters:
- Each `read_metrics` call takes a `Draws` value: the timestamp plus the three
  `random.uniform` draws. `DrawsInRange` requires each draw to lie in its closed uniform range.
- The latency test takes the elapsed times that `perf_counter` would measure, one per iteration.
- The wall-clock loops of the jitter and throughput tests take a sequence of draws,
  one per `read_metrics` call.

Behaviour of the code that the model keeps as written:
- Latency noise is drawn from [-5, 15] and throughput noise from [-50, 50].
- `update_config` neither clamps nor validates anything.
- The history is unbounded, and the statistics use its last 100 samples.
- An empty history yields no statistics (an empty dictionary), not zeros.
- A mean latency of 0 raises `ZeroDivisionError`. The model shows this is reachable:
  `active_cores` is not validated, and 13 cores give a latency floor of 0.

Consequences proved about the code as written:
- For any window of at most 100 samples, the nearest-rank index `(k*99)/100` equals `k-1`.
  So the controller's `p99_latency_us` always equals its `max_latency_us`.
- The jitter test needs at least three latency samples, because `statistics.stdev` needs
  two jitter values.
- The latency test needs at least two iterations, because `stdev` needs two values.

## Model

| member | source | states |
|---|---|---|
| `FpgaControl.WithField` | scripts/fpga_controller.py:81-82 | `setattr` on a known attribute sets that attribute to the value; the other three attributes keep theirs |
| `FpgaControl.ApplyUpdate` | scripts/fpga_controller.py:80-82 | a keyword argument naming an attribute sets that attribute and leaves the other three; any other name leaves the configuration unchanged |
| `FpgaControl.ApplyUpdates` | scripts/fpga_controller.py:80-83 | the in-order merge leaves every attribute for which no value is supplied at its old value |
| `FpgaControl.UpdateFieldwise` | scripts/fpga_controller.py:80-83 | after the merge, each attribute holds the last value supplied for it; an attribute not supplied keeps its old value |
| `FpgaControl.UnknownKeysIgnored` | scripts/fpga_controller.py:80-83 | the merge gives the same configuration as the same updates with every unknown key removed |
| `FpgaControl.UnrelatedUpdatesChangeNothing` | scripts/fpga_controller.py:80-83 | updates that name no configuration attribute leave the configuration unchanged |
| `FpgaControl.SingleFieldUpdate` | scripts/fpga_controller.py:80-83 | `update_config(active_cores=6)` gives the old configuration with only `active_cores` set to 6 |
| `FpgaControl.NoRangeValidation` | scripts/fpga_controller.py:75-86 | any integer supplied for `active_cores`, in range or not, is stored as given |
| `FpgaControl.FPGAController.UpdateConfig` | scripts/fpga_controller.py:75-86 | returns true; the new configuration is the in-order merge of the updates into the old one; connection flag and history unchanged |
| `FpgaControl.FPGAController.constructor` | scripts/fpga_controller.py:46-49 | default configuration (1024, 4, 1000, 100), not connected, empty history |
| `FpgaControl.FPGAController.Connect` | scripts/fpga_controller.py:51-67 | sets the connection flag and returns true; configuration and history unchanged |
| `FpgaControl.FPGAController.Disconnect` | scripts/fpga_controller.py:69-73 | clears the connection flag; configuration and history unchanged |
| `FpgaControl.FPGAController.StreamData` | scripts/fpga_controller.py:122-141 | raises `RuntimeError("FPGA not connected")` when not connected; otherwise returns the payload unchanged |
| `FpgaControl.BaseLatency` | scripts/fpga_controller.py:94 | for 1..8 active cores the latency floor lies in [50, 120]; it is non-negative iff at most 13 cores are active |
| `FpgaControl.Sample` | scripts/fpga_controller.py:94-108 | all three component statuses are ACTIVE; for in-range draws, latency lies in [base-5, base+15] with base = 50 + (8 - cores) * 10, throughput lies in [cores*250 - 50, cores*250 + 50], and jitter in [0, 5] |
| `FpgaControl.SampleScaling` | scripts/fpga_controller.py:94-97 | with the draws fixed, one more active core lowers latency by exactly 10 and raises throughput by exactly 250 |
| `FpgaControl.SamplesFor` | scripts/fpga_controller.py:88-111 | one sample per draw, in order: entry i is the `read_metrics` sample of draw i under the configuration, carrying that draw's timestamp |
| `FpgaControl.FPGAController.ReadMetrics` | scripts/fpga_controller.py:88-111 | returns the sample of the current configuration; the history grows by exactly that one sample at its tail, with earlier entries untouched; configuration and flag unchanged |
| `FpgaControl.DefaultFirstSample` | scripts/fpga_controller.py:94-97 | default configuration with zero draws gives latency 90 and throughput 1000, and statistics with mean, min, max and p99 of 90, max jitter 0 and speedup 150/90 |
| `FpgaControl.Recent` | scripts/fpga_controller.py:148-149 | the slice `[-100:]`: the suffix of the history of length min(n, 100) |
| `FpgaControl.Latencies` | scripts/fpga_controller.py:148 | one entry per sample, entry i being sample i's latency |
| `FpgaControl.Jitters` | scripts/fpga_controller.py:149 | one entry per sample, entry i being sample i's jitter |
| `FpgaControl.Throughputs` | scripts/performance_profiler.py:121 | one entry per sample, entry i being sample i's throughput |
| `FpgaControl.ComputeStatistics` | scripts/fpga_controller.py:143-158 | no statistics iff the history is empty; an error iff the history is non-empty and the mean of its last min(n, 100) latencies is 0, and that error is a division by zero; otherwise, over those latencies, avg is exactly their mean, min <= avg <= max, min <= p99 <= max, p99 == max, min and max are window values bounding all of them, avg != 0 and speedup * avg == 150; max jitter is a window jitter bounding all others |
| `FpgaControl.Speedup` | scripts/fpga_controller.py:157 | the speedup over the 150 microsecond CPU baseline times the mean latency is 150, and it is positive for a positive mean |
| `FpgaControl.StatisticsSeeOnlyRecent` | scripts/fpga_controller.py:148-149 | samples older than the most recent 100 do not affect the statistics |
| `FpgaControl.StatisticsOfRecent` | scripts/fpga_controller.py:148-149 | the statistics of a history equal those of its last 100 samples |
| `FpgaControl.StatisticsDefinedForPositiveLatencies` | scripts/fpga_controller.py:152-157 | a non-empty history of positive latencies always yields statistics (no division by zero) |
| `FpgaControl.StatisticsDefinedUpToTwelveCores` | scripts/fpga_controller.py:94-95 | samples read under at most 12 active cores always yield statistics, with the mean latency in [base-5, base+15] |
| `FpgaControl.ZeroDivisionReachable` | scripts/fpga_controller.py:157 | with 13 active cores and a zero latency draw, get_statistics raises ZeroDivisionError |
| `FpgaControl.FPGAController.GetStatistics` | scripts/fpga_controller.py:143-158 | the statistics of the controller's history as `ComputeStatistics` gives them; no statistics iff the history is empty; the maximum jitter of recorded samples lies in [0, 5] |
| `SampleStats.Min` | scripts/fpga_controller.py:154 | the minimum is one of the samples and is at most every sample |
| `SampleStats.Max` | scripts/fpga_controller.py:153 | the maximum is one of the samples and is at least every sample |
| `SampleStats.SumLeftToRight` | scripts/fpga_controller.py:152 | the sum equals Python's left-to-right accumulation: the sum of all but the last value, plus the last |
| `SampleStats.SumBounds` | scripts/fpga_controller.py:152 | a sum of n values in [lo, hi] lies in [n*lo, n*hi] |
| `SampleStats.MeanBounds` | scripts/fpga_controller.py:152 | the mean of values in [lo, hi] lies in [lo, hi] |
| `SampleStats.Mean` | scripts/performance_profiler.py:44 | the mean lies between the minimum and the maximum |
| `SampleStats.Insert` | scripts/fpga_controller.py:155 | inserting into an ascending list keeps it ascending and adds exactly the one element |
| `SampleStats.SortAscending` | scripts/fpga_controller.py:155 | `sorted` returns an ascending permutation of its input |
| `SampleStats.SortedPermutationUnique` | scripts/fpga_controller.py:155 | two ascending permutations of the same samples are equal, so any sort gives the same list |
| `SampleStats.SortAscendingOfSorted` | scripts/fpga_controller.py:155 | sorting an already ascending list returns it unchanged |
| `SampleStats.SortedLastIsMax` | scripts/fpga_controller.py:155 | the last element of the sorted list is the maximum |
| `SampleStats.RankIndex` | scripts/performance_profiler.py:49-50 | for n >= 1 the rank index (n*p)/100 with p < 100 is below n, and is the floor of n*p/100 |
| `SampleStats.RankIndexMonotone` | scripts/performance_profiler.py:49-50 | the p95 rank index is at most the p99 rank index |
| `SampleStats.RankIndex99OfSmallWindow` | scripts/fpga_controller.py:155 | for 1 <= n <= 100 the p99 rank index is n - 1 |
| `SampleStats.Percentile` | scripts/fpga_controller.py:155 | the nearest-rank percentile is one of the samples and lies between min and max |
| `SampleStats.PercentileMonotone` | scripts/performance_profiler.py:49-50 | on the same samples p95 <= p99 |
| `SampleStats.Percentile99OfSmallWindow` | scripts/fpga_controller.py:148-155 | over at most 100 samples the p99 latency equals the maximum latency |
| `PerformanceProfiling.RangeLength` | scripts/performance_profiler.py:30 | `range(n)` runs n times for n >= 0 and not at all for n <= 0 |
| `PerformanceProfiling.Abs` | scripts/performance_profiler.py:87 | `abs` is non-negative and is x or -x |
| `PerformanceProfiling.LatencyReport` | scripts/performance_profiler.py:43-51 | raises StatisticsError iff fewer than 2 latencies; otherwise mean is the arithmetic mean, p95 and p99 are the nearest-rank percentiles `sorted(xs)[int(n*0.95)]` and `[int(n*0.99)]`, min <= p95 <= p99 <= max and min <= mean <= max, with min and max values of the list bounding all of it |
| `PerformanceProfiling.LatencyVerdict` | scripts/performance_profiler.py:62-65 | PASS iff the mean is below 100 |
| `PerformanceProfiling.LatencyVerdictFromSamples` | scripts/performance_profiler.py:62-65 | every latency below 100 implies PASS; PASS implies some latency below 100 |
| `PerformanceProfiling.SuccessiveDifferences` | scripts/performance_profiler.py:85-88 | len(latencies) - 1 entries (none for an empty list); entry i is abs(latencies[i+1] - latencies[i]), hence non-negative |
| `PerformanceProfiling.ComputeJitterValues` | scripts/performance_profiler.py:85-88 | the `range(1, len)` loop builds exactly the successive absolute differences |
| `PerformanceProfiling.JitterReport` | scripts/performance_profiler.py:90-94 | raises StatisticsError iff fewer than 2 jitter values; otherwise mean jitter is the arithmetic mean of the values, max jitter is one of the values, bounds them all, and mean <= max |
| `PerformanceProfiling.JitterVerdict` | scripts/performance_profiler.py:102-105 | PASS iff the max jitter is below 10 |
| `PerformanceProfiling.JitterVerdictIff` | scripts/performance_profiler.py:85-105 | with at least 3 latencies the report exists with mean jitter >= 0, and the test passes iff every two successive latencies differ by less than 10 |
| `PerformanceProfiling.JitterOfControllerSamples` | scripts/performance_profiler.py:79-88 | latencies read under one configuration never jump by more than 20, so the max jitter is at most 20 |
| `PerformanceProfiling.ThroughputReport` | scripts/performance_profiler.py:124-128 | raises StatisticsError iff the list is empty; otherwise mean is the arithmetic mean of the list, min <= mean <= max, with min and max values of the list bounding all of it |
| `PerformanceProfiling.ThroughputOfControllerSamples` | scripts/performance_profiler.py:119-128 | throughputs read under one configuration have mean within 50 of active_cores * 250 |
| `PerformanceProfiling.PerformanceProfiler.constructor` | scripts/performance_profiler.py:18-20 | keeps the controller; results start empty |
| `PerformanceProfiling.PerformanceProfiler.MeasureLatencies` | scripts/performance_profiler.py:29-41 | with at least one iteration on a disconnected controller it raises RuntimeError; otherwise it records exactly max(iterations, 0) elapsed times, one per iteration, in order |
| `PerformanceProfiling.PerformanceProfiler.RunLatencyTest` | scripts/performance_profiler.py:22-67 | the RuntimeError of the loop, or else the latency report over the recorded times |
| `PerformanceProfiling.PerformanceProfiler.CollectSamples` | scripts/performance_profiler.py:79-82 | one read_metrics sample per draw, in order, all appended to the controller's history; configuration and flag unchanged |
| `PerformanceProfiling.PerformanceProfiler.RunJitterTest` | scripts/performance_profiler.py:69-107 | the jitter report over the successive differences of the collected latencies; the samples remain in the history |
| `PerformanceProfiling.PerformanceProfiler.RunThroughputTest` | scripts/performance_profiler.py:109-135 | the throughput report over the collected throughputs; the samples remain in the history |
| `PerformanceProfiling.PerformanceProfiler.RunFullValidation` | scripts/performance_profiler.py:137-153 | runs latency (1000 iterations), jitter and throughput in order, stops at the first exception, and keeps the samples appended before it |

## Left out

- Sleeps, `time.time` and `time.perf_counter`: wall-clock time is replaced by given timestamps and elapsed times. For the same reason, the jitter and throughput loops run once per given draw instead of until a duration has passed.
- Console output (`print`, the progress lines, the PASS/FAIL lines) and both `main()` demo functions. The PASS/FAIL decisions are modelled as `LatencyVerdict` and `JitterVerdict`.
- The `random` module: each `random.uniform(a, b)` draw is a caller-supplied value in [a, b]. No distribution is modelled.
- `statistics.median` and `statistics.stdev`: only their failure on too few values (median needs 1, stdev needs 2) is modelled. `LatencyResults` and `JitterResults` do not carry these two entries.
- Floating-point arithmetic: latencies and throughputs are exact reals.
- Floating-point percentile index: the index `int(len * 0.99)` (and `* 0.95`) is modelled as the exact `(len * 99) / 100` (and `* 95`). For some lengths Python's floating-point product could differ from the exact one.
- The simulated PCIe/DMA transfer inside `stream_data` (its sleeps and the unused `elapsed`): only the connection check and the identity return are modelled.
- `update_config` on other attribute names: `hasattr` on the dataclass instance is also true for its methods and dunder attributes. For `__class__` and `__dict__` the `setattr` of an integer raises `TypeError`, and for `__weakref__` it raises `AttributeError`, so `update_config` raises instead of returning True. For the rest (for example `__doc__`, `__init__`) it stores a new instance attribute. The model treats only the four configuration fields as known names. It leaves out that error path and those extra attributes, and treats such names like any unknown key.
- `update_config` values have no type in Python. They are restricted to integers, as the dataclass annotates them.
- The profiler's `results` list is never written by the code. It is modelled only as a field that starts empty.
- The repository's TypeScript dashboard is not part of this model; only the two Python scripts are modelled.
