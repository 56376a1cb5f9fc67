# Job-scheduling simulator: engine model

This project models the core of a small job-scheduling simulator. Its
engine appears twice: as a Next.js `POST` handler and as a Flask endpoint.
The dashboard holds a third copy of the timeline loop.

The engine takes a list of jobs. Each job has an id, an arrival time, an
execution time, a deadline and a weight. The engine orders the jobs three
ways:

- SJF: shortest execution time first.
- EDF: earliest deadline first.
- Weighted: highest weight first.

For each order it replays the jobs on a single non-preemptive resource that
is free from time 0. From that timeline it computes four metrics:

- The makespan.
- The average turnaround.
- The CPU utilisation.
- Jain's fairness index, taken over the allocated/requested ratio of each slot.

The four metrics are combined into an equal-weighted score. When no execution
time is negative, the score lies in (0, 100]. The
driver validates the request and reports the three results in the order
SJF, EDF, Weighted.

Two dashboard pieces are modelled as well:

- The "best policy" choice.
- The radar chart's min/max normalisation.

Modules:

- `Jobs`: the entities, the policy keys and the total work. `Ordering`: the
  stable sort by a policy's key.
- `Simulator`: the timeline and the policy loop.
- `Fairness`: the execution-time dictionary, the ratios, Jain's index, the
  two-loop method that computes it, and the Cauchy–Schwarz bound behind it.
- `Scoring`: the composite score.
- `Engine`:
  - One policy run and the three-policy driver.
  - Request validation for both backends.
  - A two-job worked example.
- `Dashboard`: the comparators, `createSchedule`, the mock result list and
  the `bestAlgorithm` reduce.
- `Performance`: `normalizeMetric`.
- `RealArith`: small facts about real multiplication and division.

Times are mathematical reals. Where the two backends differ, the model
follows the Flask code and says so below.

**Worked example.** J1 (arrival 0, execution 5) and J2 (arrival 2,
execution 3) under SJF have turnarounds (5 − 2) and (10 − 0). A figure of
5.5 for their average is an arithmetic slip: the same terms give
13 / 2 = 6.5, which is what the code computes and what `Engine.TwoJobExample`
proves.

### Expectations the code does not meet

- **Ties for the best policy.** One might expect a tie to go to the first
  maximal element in driver order. The reduce at
  `components/results-dashboard.tsx:142` keeps the previous element only
  when its score is strictly greater, so the later element wins.
  `Dashboard.TieGoesToLater` proves this.
- **CPU utilisation on a makespan of 0 or less.** The Next.js backend
  divides by the makespan with no guard (`app/api/process-jobs/route.ts:82`).
  The Flask backend returns 0 unless the makespan is positive
  (`api/process_jobs.py:49`). The model uses the Flask guard for both
  backends, so for Next.js it departs from the code whenever the makespan is
  not positive:
  - At 0, the code gives 0/0 or x/0 (see Findings).
  - When the makespan is negative, the code gives a plain quotient. For
    example, one job with execution time −1 gives −1 / −1 = 1, where the
    model gives 0 (`Engine.RouteCpuNegativeMakespan`).

## Model

| member | source | states |
|---|---|---|
| Jobs.Max | app/api/process-jobs/route.ts:59 | `Math.max`: the result is at least both arguments and is one of them |
| Jobs.TotalJobTimePermutation | app/api/process-jobs/route.ts:81 | the total work of the jobs is the same in every order, so summing the input or a sorted copy agrees |
| Jobs.TotalJobTimeNonNegative | app/api/process-jobs/route.ts:81 | with no negative execution time the total work is not negative |
| Jobs.TotalJobTimeZero | api/process_jobs.py:48 | with no negative execution time the total work is 0 exactly when every job has zero execution time |
| Jobs.SomeWorkPermutation | api/process_jobs.py:220 | whether some job requests positive time does not depend on the order of the jobs |
| Ordering.SortBy | app/api/process-jobs/route.ts:51 | a policy's order is a new list of the same length holding exactly the input's jobs (a permutation); the input list is a value and is not changed |
| Ordering.SortBySorted | app/api/process-jobs/route.ts:103 | the order is non-decreasing in the policy's key: execution time, deadline, or negated weight |
| Ordering.SortByStable | api/process_jobs.py:19 | the sort is stable: for every key value, the jobs carrying that key appear in their input order |
| Ordering.SortByWeightedDescending | app/api/process-jobs/route.ts:155 | the weighted order is non-increasing in weight |
| Ordering.SortedStableUnique | api/process_jobs.py:84 | two orders that are both sorted and agree on every key class are the same list |
| Ordering.StableSortIsSortBy | api/process_jobs.py:148 | any sorted, stable output equals `SortBy`. This covers JavaScript's stable `sort` with these comparators and Python's `sorted`, including `reverse=True` on weight |
| Simulator.Timeline | app/api/process-jobs/route.ts:57-74 | a timeline holds exactly one slot per job |
| Simulator.Simulate | app/api/process-jobs/route.ts:53-74 | the policy loop (also api/process_jobs.py:21-41). It emits the timeline of the sorted jobs, ends with `currentTime` at the last slot's end, and accumulates the total turnaround |
| Simulator.TimelineSlot | app/api/process-jobs/route.ts:59-66 | slot k carries job k's id, starts at the later of the previous end (0 for the first) and the job's arrival, and lasts exactly the job's execution time |
| Simulator.TimelinePrefix | app/api/process-jobs/route.ts:57-74 | running a prefix of the order gives the same prefix of the timeline |
| Simulator.TimelineOrdered | app/api/process-jobs/route.ts:59-73 | no slot starts before its job arrives, and each slot starts no earlier than the previous one ends, so slots never overlap |
| Simulator.TimelineStartsNonNegative | app/api/process-jobs/route.ts:53-59 | with non-negative execution times no slot starts before 0 |
| Simulator.TimelineWithinMakespan | app/api/process-jobs/route.ts:77 | with non-negative execution times, slots lie in [0, makespan] and end times never decrease. The makespan is not negative and is the largest end time |
| Simulator.MakespanCoversWork | app/api/process-jobs/route.ts:77-81 | the makespan is at least the total work |
| Simulator.TurnaroundCoversWork | app/api/process-jobs/route.ts:69-70 | the total turnaround is at least the total work |
| Fairness.FairnessIndex | app/api/process-jobs/route.ts:205-236 | the two-loop computation (also api/process_jobs.py:201-235) returns exactly the fairness index of the schedule: 0 for no jobs, no collected ratio or a zero sum of squares, and Jain's index otherwise |
| Fairness.ExecTimesLookup | app/api/process-jobs/route.ts:209-212 | the dictionary maps a job's id to that job's execution time when no later job reuses the id; the last job with an id wins, as with `Map.set` and the Python dict comprehension |
| Fairness.ExecTimesKeys | api/process_jobs.py:211 | an id is a key of the dictionary exactly when some job carries it |
| Fairness.SquaresZero | app/api/process-jobs/route.ts:233 | the sum of squared ratios is not negative, and it is positive exactly when some ratio is not 0 |
| Fairness.RatiosExact | app/api/process-jobs/route.ts:216-224 | when every slot lasted its requested time, every collected ratio is 1. A ratio is collected exactly when some slot's requested time is positive |
| Fairness.ExactFairness | api/process_jobs.py:213-235 | when every slot lasted its requested time, the index is 1 if some slot requested positive time and 0 otherwise |
| Fairness.SpreadNonNegative | app/api/process-jobs/route.ts:228-235 | Cauchy–Schwarz: n·Σr² − (Σr)² ≥ 0, with strict inequality exactly when two ratios differ |
| Fairness.QuotientBounds | app/api/process-jobs/route.ts:235 | the final division lies in [0, 1]. It is 1 exactly when (Σr)² = n·Σr², and positive exactly when Σr ≠ 0 |
| Fairness.JainBounds | app/api/process-jobs/route.ts:226-236 | Jain's index lies in [0, 1] for every list of ratios |
| Fairness.JainPositive | api/process_jobs.py:223-234 | the index is positive exactly when some ratio was collected and the ratios do not sum to 0 |
| Fairness.JainIsOne | app/api/process-jobs/route.ts:228-235 | the index is 1 exactly when there is a ratio, all ratios are equal, and they are not 0 |
| Scoring.InverseScoreRange | app/api/process-jobs/route.ts:247-248 | for a non-negative metric, `100 / (1 + x/scale)` lies in (0, 100] and is 100 exactly at x = 0 |
| Scoring.InverseScoreDecreasing | app/api/process-jobs/route.ts:247 | `100 / (1 + x/scale)` is strictly decreasing above −scale |
| Scoring.ScoreRange | app/api/process-jobs/route.ts:239-268 | for T, A ≥ 0 and cpu, fairness in [0, 1]: the score is defined and lies in (0, 100]. It is 100 exactly when T = A = 0 and cpu = fairness = 1 |
| Scoring.ScoreDecreasingInExecTime | app/api/process-jobs/route.ts:247 | the score strictly decreases as the makespan grows, with the other metrics fixed |
| Scoring.ScoreDecreasingInTurnaround | app/api/process-jobs/route.ts:248 | the score strictly decreases as the average turnaround grows, with the other metrics fixed |
| Scoring.ScoreMonotone | api/process_jobs.py:237-267 | improving any metric never lowers the score. The score rises strictly exactly when some metric strictly improves |
| Engine.RouteCpuUtilization | app/api/process-jobs/route.ts:82 | the unguarded Next.js utilisation has no value exactly when the makespan is 0; with a positive makespan it agrees with the guarded form |
| Engine.RouteCpuZeroMakespan | app/api/process-jobs/route.ts:82 | one zero-length job gives makespan 0, where the unguarded division is undefined and the guarded one gives 0 |
| Engine.CpuUtilizationBounds | api/process_jobs.py:48-49 | when the makespan covers the work, utilisation lies in [0, 1]. It is 1 exactly when the two are equal and positive, and 0 when the makespan is 0 |
| Engine.RunPolicy | app/api/process-jobs/route.ts:49-99 | one policy run (each of the three functions, and their Python twins) returns exactly `Evaluate` for its policy |
| Engine.EvaluateName | app/api/process-jobs/route.ts:90-97 | a run reports its policy's name and the timeline of its policy's order |
| Engine.MakespanBounds | api/process_jobs.py:44 | the reported makespan covers the total work, which is not negative |
| Engine.SortByNonNegative | app/api/process-jobs/route.ts:51 | sorting keeps execution times non-negative |
| Engine.AverageTurnaroundBounds | app/api/process-jobs/route.ts:78 | with non-negative execution times the average turnaround is not negative |
| Engine.EvaluateBounds | app/api/process-jobs/route.ts:76-98 | with non-negative execution times every run has a result. Its timeline is the order's timeline and its makespan covers the work. The average turnaround is ≥ 0, utilisation and fairness lie in [0, 1] (utilisation is 1 exactly when the makespan equals the total work and that work is positive), and the score lies in (0, 100] |
| Engine.ExactRequests | app/api/process-jobs/route.ts:216-219 | with distinct ids, in the timeline of any order of the jobs each slot's requested time equals both its length and its job's execution time |
| Engine.TimelineFairness | app/api/process-jobs/route.ts:205-236 | with distinct ids, every order's fairness index is 1 when some job has positive execution time, and 0 otherwise |
| Engine.CompareAllDefined | app/api/process-jobs/route.ts:36-42 | the driver has a result exactly when every policy run does |
| Engine.CompareAllNonNegative | api/process_jobs.py:279-285 | with non-negative execution times the driver always has a result |
| Engine.CompareAllOrder | app/api/process-jobs/route.ts:41 | the driver reports three results: SJF's, EDF's and Weighted's, in that order |
| Engine.Post | app/api/process-jobs/route.ts:27-47 | an unparseable body, or a JSON `null` (destructuring throws), gives a server error. Any other non-object body, and a missing, non-list or empty `jobs`, gets 400 "Invalid or empty jobs array". Otherwise the reply is the driver's results, or a server error when one run fails |
| Engine.ProcessJobsApi | api/process_jobs.py:269-288 | an unparseable body, or one that is not a JSON object (it has no `get`), gives a server error. A missing, falsy or empty `jobs` gives 400 "No jobs provided", and a truthy non-list a server error. A non-empty list gets the driver's results |
| Engine.RunAll | app/api/process-jobs/route.ts:36-42 | runs the three policies in driver order and answers with their results, or a server error when one fails |
| Engine.ValidationAgrees | app/api/process-jobs/route.ts:31 | the Next.js check rejects exactly what the Flask check rejects, plus a truthy non-list `jobs`. Anything it accepts is a non-empty list |
| Engine.TwoJobExample | app/api/process-jobs/route.ts:49-99 | J1(0, 5) and J2(2, 3) under SJF: J2 runs over [2, 5] and J1 over [5, 10]. The makespan is 10, the average turnaround 6.5, the utilisation 0.8 and the fairness 1 |
| Engine.ZeroLengthExample | api/process_jobs.py:49 | one job of zero length gives makespan 0, utilisation 0, fairness 0 and score 50 |
| Dashboard.Comparator | components/results-dashboard.tsx:70-76 | a comparator is ≤ 0 exactly when the first job's key is not larger, and 0 exactly on equal keys |
| Dashboard.ComparatorsAsWritten | components/results-dashboard.tsx:70-76 | the three comparators are `a.executionTime - b.executionTime`, `a.deadline - b.deadline` and `b.weight - a.weight`; the last puts the heavier job first |
| Dashboard.CreateSchedule | components/results-dashboard.tsx:79-97 | the dashboard's loop produces exactly the engine's timeline of the same order |
| Dashboard.GenerateMockResults | components/results-dashboard.tsx:100-128 | three entries, named SJF, EDF, Weighted in that order. Each shows the timeline of its policy's sorted copy of the jobs, next to the given numbers |
| Dashboard.BestIndex | components/results-dashboard.tsx:142 | the reduce settles on an index whose score is at least every score, and every later score is strictly smaller: the last maximal element |
| Dashboard.BestAlgorithm | components/results-dashboard.tsx:142 | on a non-empty list the chosen result is one of the results, with the largest score; an empty list has none |
| Dashboard.BestIndexUnique | components/results-dashboard.tsx:142 | the last maximal position is the only index the reduce can choose |
| Dashboard.TieGoesToLater | components/results-dashboard.tsx:142 | of two results with equal scores the second is chosen |
| Performance.MetricValues | components/algorithm-performance.tsx:36-51 | the `results.map` with its switch, one value per result in result order; see `Performance.MetricExtremes` and `Performance.NormalizeMetricRange` |
| Performance.MetricExtremes | components/algorithm-performance.tsx:36-54 | the minimum and the maximum `normalizeMetric` works with are each the metric of some result, and every result's metric lies between them |
| Performance.Minimum | components/algorithm-performance.tsx:53 | `Math.min`: a member of the list no larger than any member |
| Performance.Maximum | components/algorithm-performance.tsx:54 | `Math.max`: a member of the list no smaller than any member |
| Performance.NormalizeFlat | components/algorithm-performance.tsx:58 | when min = max, both directions give 100 |
| Performance.NormalizeEndpoints | components/algorithm-performance.tsx:57-62 | higher-is-better maps max to 100 and min to 0; lower-is-better maps min to 100 and max to 0 |
| Performance.NormalizeComplement | components/algorithm-performance.tsx:57-62 | on a non-flat range, lower-is-better is 100 minus higher-is-better |
| Performance.NormalizeRange | components/algorithm-performance.tsx:53-62 | a value within [min, max] lands in [0, 100] |
| Performance.NormalizeMonotone | components/algorithm-performance.tsx:58-62 | higher-is-better never decreases and lower-is-better never increases with the value, strictly on a non-flat range |
| Performance.NormalizeMetricRange | components/algorithm-performance.tsx:34-63 | normalising each result's own metric gives values in [0, 100]. Some result gets 100, and unless all results agree, some result gets 0 |
| Jobs.TotalJobTime | app/api/process-jobs/route.ts:81 | the total work, summed left to right (the `reduce` here, `sum` at api/process_jobs.py:48); its properties are in the lemmas below |
| Simulator.TurnaroundTotal | app/api/process-jobs/route.ts:69-70 | the accumulated `endTime - arrivalTime` of paired jobs and slots; see `Simulator.Simulate` and `Simulator.TurnaroundCoversWork` |
| Fairness.Jain | app/api/process-jobs/route.ts:226-235 | Jain's index `(Σr)² / (n·Σr²)`, 0 for no ratio or a zero sum of squares; see `Fairness.JainBounds`, `Fairness.JainPositive` and `Fairness.JainIsOne` |
| Fairness.ScheduleFairness | app/api/process-jobs/route.ts:205-236 | `calculateFairnessIndex` as a function: 0 for no jobs, else Jain's index of the schedule's ratios; see `Fairness.FairnessIndex` |
| Scoring.OverallScore | app/api/process-jobs/route.ts:239-268 | `calculateOverallScore` / `calculate_overall_score`: four sub-scores weighted 0.25 each; see `Scoring.ScoreRange` and `Scoring.ScoreMonotone` |
| Engine.CpuUtilization | api/process_jobs.py:49 | total work over the makespan when the makespan is positive, else 0; see `Engine.CpuUtilizationBounds` |
| Engine.Evaluate | api/process_jobs.py:19-71 | one policy run as a function: sort, timeline, metrics and score, `None` when the score divides by 0; see `Engine.RunPolicy` and `Engine.EvaluateBounds` |
| Engine.CompareAll | app/api/process-jobs/route.ts:36-41 | the three runs in the order SJF, EDF, Weighted; see `Engine.CompareAllDefined` and `Engine.CompareAllOrder` |
| Engine.RouteCpuNegativeMakespan | app/api/process-jobs/route.ts:82 | one job of execution time −1: the Next.js division gives 1, the guarded utilisation 0 |
| Fairness.ExecTimes | app/api/process-jobs/route.ts:209-212 | the id-to-execution-time dictionary, each job in turn setting its id's entry (the dict comprehension at api/process_jobs.py:211); see `Fairness.ExecTimesLookup` and `Fairness.ExecTimesKeys` |
| Fairness.RequestedTime | app/api/process-jobs/route.ts:219 | a slot's requested time: its id's entry, or 0 for an unknown id, in both backends (also api/process_jobs.py:218); see `Engine.ExactRequests` |
| Fairness.Ratios | app/api/process-jobs/route.ts:214-224 | allocated over requested time for each slot in schedule order, skipping slots whose requested time is not positive; see `Fairness.RatiosExact` |
| Engine.RouteRejects | app/api/process-jobs/route.ts:31 | the Next.js 400 check: `jobs` is not a non-empty array; see `Engine.Post` and `Engine.ValidationAgrees` |
| Engine.FlaskRejects | api/process_jobs.py:275 | the Flask 400 check `not jobs`: missing, falsy or an empty list; see `Engine.ProcessJobsApi` and `Engine.ValidationAgrees` |
| Performance.MetricValue | components/algorithm-performance.tsx:37-50 | the metric a name selects from one result, 0 for an unknown name |
| Performance.Normalize | components/algorithm-performance.tsx:57-62 | the min/max normalisation with its flat-range case and both directions; see `Performance.NormalizeFlat`, `Performance.NormalizeEndpoints`, `Performance.NormalizeComplement`, `Performance.NormalizeRange` and `Performance.NormalizeMonotone` |
| Scoring.InverseScore | app/api/process-jobs/route.ts:247-248 | a lower-is-better sub-score `100 / (1 + x/scale)`; see `Scoring.InverseScoreRange` and `Scoring.InverseScoreDecreasing` |
| Scoring.PercentScore | app/api/process-jobs/route.ts:251-252 | a higher-is-better sub-score `x * 100`; see `Scoring.ScoreRange` |
| Jobs.Key | app/api/process-jobs/route.ts:51 | a policy's sort key: execution time for SJF, deadline for EDF (route.ts line 103) and the negated weight for Weighted (route.ts line 155, `reverse=True` at api/process_jobs.py:148); see `Ordering.SortBySorted` and `Dashboard.ComparatorsAsWritten` |
| Jobs.PolicyName | app/api/process-jobs/route.ts:91 | the names "Shortest Job First (SJF)", "Earliest Deadline First (EDF)" (line 143) and "Weighted Job Scheduling" (line 195); see `Engine.EvaluateName` |
| Simulator.Finish | app/api/process-jobs/route.ts:77 | the makespan: the end of the last slot, or 0 with no slot, which is where `currentTime` stands (also api/process_jobs.py:44); see `Simulator.Simulate` and `Simulator.TimelineWithinMakespan` |
| Scoring.ScoreDefined | api/process_jobs.py:245-246 | neither `1 + T/10` nor `1 + A/5` is 0, so neither division raises; see `Scoring.ScoreRange` and `Engine.Evaluate` |
| Fairness.Sum | app/api/process-jobs/route.ts:229 | the left-to-right sum of the ratios (`sum` at api/process_jobs.py:227); see `Fairness.SpreadNonNegative` |
| Fairness.SumSquares | app/api/process-jobs/route.ts:230 | the sum of squared ratios (api/process_jobs.py:228); see `Fairness.SquaresZero` |
| Fairness.Quotient | app/api/process-jobs/route.ts:235 | the final division `(Σr)² / (n·Σr²)`; see `Fairness.QuotientBounds` |
| Engine.Collect | app/api/process-jobs/route.ts:40-42 | the reply list `[sjfResult, edfResult, weightedResult]` (api/process_jobs.py:283-285), or `None` when one run has no result; see `Engine.CompareAllDefined` and `Engine.CompareAllOrder` |
| Engine.Outcome | api/process_jobs.py:283-285 | the driver's reply: the three results, or a server error when a run fails; see `Engine.RunAll` |
| Dashboard.WithMetrics | components/results-dashboard.tsx:101-127 | one mock result literal: the policy's name, the given headline numbers and a schedule; see `Dashboard.GenerateMockResults` |
| Performance.NormalizeMetric | components/algorithm-performance.tsx:34-63 | `normalizeMetric`: normalises a value against the metric's minimum and maximum across the results; see `Performance.NormalizeMetricRange` |

## Left out

- Transport: reading the request, JSON parsing, `NextResponse`/`jsonify` and CORS, because they are I/O. The parsed body is the `RequestBody` value.
- The text of the 500 replies ("Failed to process jobs", and `str(e)` in Flask), because it is logging detail. Both backends answer `ServerError`.
- Floating point: NaN, Infinity and rounding. Times and metrics are exact reals.
- Engine.RunPolicy: when `1 + T/10` or `1 + A/5` is 0, which needs negative times, JavaScript would produce an infinite or NaN score. Python raises, giving a 500. The model returns `None`, and both endpoints answer `ServerError`.
- Engine.RunPolicy: for the Next.js code, its utilisation uses the Flask guard. Wherever the makespan is 0 or less it reports 0, where `app/api/process-jobs/route.ts:82` divides: 0/0 or x/0 at zero, a plain quotient when negative (`Engine.RouteCpuNegativeMakespan`).
- Engine.Post: uses the Flask-guarded utilisation. Wherever the makespan is 0 or less, the model reports 0 where the Next.js code divides: 0/0 or x/0 at zero (see Findings), and a plain quotient when negative (`Engine.RouteCpuNegativeMakespan`).
- Engine.Post: when `1 + T/10` or `1 + A/5` is 0, which needs negative execution times (one job of execution time −10 is an example), `app/api/process-jobs/route.ts:247-248` would give an infinite or NaN score and a 200 reply. The model answers `ServerError`, as the Flask endpoint does.
- Lists whose items are not well-formed jobs, because a `JobList` holds only well-formed jobs. Examples are missing keys (a `KeyError`, hence 500, in Flask) and non-numeric fields (NaN in JavaScript).
- Dashboard.GenerateMockResults: the headline numbers are `Math.random` draws in the source and parameters here, because randomness cannot be modelled.
- Performance.NormalizeMetric: requires a non-empty result list. On an empty list `Math.min` and `Math.max` return ±Infinity, which the reals cannot express.
- The radar chart's calls `normalizeMetric(results[i]?.x || 0, ...)`, because they are chart shaping.
- React state: `hasData`, `localStorage`, rendering, and the CSV/JSON upload with its `|| default` field defaults, because they are UI and persistence.
- Engine.TimelineFairness: stated for distinct ids. With duplicate ids, the last job with an id sets the requested time (`Fairness.ExecTimesLookup`), and the index is bounded only by `Fairness.JainBounds`.

## Findings

| source | as written | input that shows it | evidently intended | confidence | as-written member | corrected member |
|---|---|---|---|---|---|---|
| app/api/process-jobs/route.ts:82 | `cpuUtilization = totalJobTime / totalExecutionTime` with no guard | one job with arrival 0 and execution time 0: the makespan is 0, so the division is 0/0 | utilisation 0 when the makespan is 0, as api/process_jobs.py:49 computes | not executed | Engine.RouteCpuZeroMakespan | Engine.CpuUtilizationBounds |
