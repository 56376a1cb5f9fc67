/** The results dashboard's own copy of the engine: the three comparators,
    the schedule loop, the mock result list and the choice of the best
    policy. */
module Dashboard {
  import opened Jobs
  import opened Ordering
  import opened Simulator

  /** The comparator a policy hands to `Array.prototype.sort`: negative when
      `a` goes first, positive when `b` does, zero on a tie. */
  function Comparator(p: Policy, a: Job, b: Job): (c: real)
    ensures c <= 0.0 <==> Key(p, a) <= Key(p, b)
    ensures c == 0.0 <==> Key(p, a) == Key(p, b)
  {
    Key(p, a) - Key(p, b)
  }

  /** The three comparators are `a.executionTime - b.executionTime`,
      `a.deadline - b.deadline` and `b.weight - a.weight`. */
  lemma ComparatorsAsWritten(a: Job, b: Job)
    ensures Comparator(SJF, a, b) == a.executionTime - b.executionTime
    ensures Comparator(EDF, a, b) == a.deadline - b.deadline
    ensures Comparator(Weighted, a, b) == b.weight - a.weight
    ensures Comparator(Weighted, a, b) < 0.0 <==> a.weight > b.weight
  {
  }

  /** `createSchedule`: one slot per job in the given order, each starting
      when the resource is free and the job has arrived. */
  method CreateSchedule(sortedJobs: seq<Job>) returns (schedule: seq<Slot>)
    ensures schedule == Timeline(sortedJobs)
  {
    schedule := [];
    var currentTime := 0.0;
    for i := 0 to |sortedJobs|
      invariant schedule == Timeline(sortedJobs[..i])
      invariant currentTime == Finish(schedule)
    {
      var job := sortedJobs[i];
      var startTime := Max(currentTime, job.arrivalTime);
      var endTime := startTime + job.executionTime;
      var before := schedule;
      schedule := schedule + [Slot(job.id, startTime, endTime)];
      currentTime := endTime;
      assert sortedJobs[..i + 1][..i] == sortedJobs[..i];
      assert schedule[..i] == before;
    }
    assert sortedJobs[..|sortedJobs|] == sortedJobs;
  }

  /** The five headline numbers of a mock result. */
  datatype Metrics = Metrics(
    totalExecutionTime: real,
    averageTurnaroundTime: real,
    cpuUtilization: real,
    fairnessIndex: real,
    overallScore: real)

  function WithMetrics(p: Policy, m: Metrics, schedule: seq<Slot>): AlgorithmResult {
    AlgorithmResult(PolicyName(p), m.totalExecutionTime, m.averageTurnaroundTime,
                    m.cpuUtilization, m.fairnessIndex, m.overallScore, schedule)
  }

  /** `generateMockResults`: one entry per policy in the order SJF, EDF,
      Weighted, each with its policy's name and the timeline of its own sorted
      copy of the jobs. The headline numbers are drawn at random in the source
      and are parameters here. */
  method GenerateMockResults(jobs: seq<Job>, sjf: Metrics, edf: Metrics, weighted: Metrics)
    returns (results: seq<AlgorithmResult>)
    ensures |results| == |DriverOrder|
    ensures results[0] == WithMetrics(SJF, sjf, Timeline(SortBy(jobs, SJF)))
    ensures results[1] == WithMetrics(EDF, edf, Timeline(SortBy(jobs, EDF)))
    ensures results[2] == WithMetrics(Weighted, weighted, Timeline(SortBy(jobs, Weighted)))
  {
    var sjfJobs := SortBy(jobs, SJF);
    var edfJobs := SortBy(jobs, EDF);
    var weightedJobs := SortBy(jobs, Weighted);
    var sjfSchedule := CreateSchedule(sjfJobs);
    var edfSchedule := CreateSchedule(edfJobs);
    var weightedSchedule := CreateSchedule(weightedJobs);
    results := [WithMetrics(SJF, sjf, sjfSchedule), WithMetrics(EDF, edf, edfSchedule),
                WithMetrics(Weighted, weighted, weightedSchedule)];
  }

  /** The index the `bestAlgorithm` reduce settles on: it walks the list left
      to right and keeps the current best only while its score is strictly
      greater, so the last of several equal top scores wins. */
  function BestIndex(results: seq<AlgorithmResult>): (best: nat)
    requires |results| > 0
    ensures best < |results|
    ensures forall k :: 0 <= k < |results| ==> results[k].overallScore <= results[best].overallScore
    ensures forall k :: best < k < |results| ==> results[k].overallScore < results[best].overallScore
    decreases |results|
  {
    if |results| == 1 then 0
    else
      var prev := BestIndex(results[..|results| - 1]);
      assert forall k :: 0 <= k < |results| - 1 ==> results[..|results| - 1][k] == results[k];
      if results[prev].overallScore > results[|results| - 1].overallScore then prev else |results| - 1
  }

  /** The best policy's result; `reduce` without a start value throws on an
      empty list, which is `None` here. */
  function BestAlgorithm(results: seq<AlgorithmResult>): (best: Option<AlgorithmResult>)
    ensures best.Some? <==> results != []
    ensures best.Some? ==> best.value in results
    ensures best.Some? ==> forall r :: r in results ==> r.overallScore <= best.value.overallScore
  {
    if results == [] then None else Some(results[BestIndex(results)])
  }

  /** The top score is reached exactly at `BestIndex` and nowhere after it:
      it is the last position holding the maximum. */
  lemma BestIndexUnique(results: seq<AlgorithmResult>, i: nat)
    requires i < |results|
    requires forall k :: 0 <= k < |results| ==> results[k].overallScore <= results[i].overallScore
    requires forall k :: i < k < |results| ==> results[k].overallScore < results[i].overallScore
    ensures BestIndex(results) == i
  {
  }

  /** Two results with equal scores: the second is chosen, not the first. */
  lemma TieGoesToLater(a: AlgorithmResult, b: AlgorithmResult)
    requires a.overallScore == b.overallScore
    ensures BestIndex([a, b]) == 1
  {
    BestIndexUnique([a, b], 1);
  }
}
