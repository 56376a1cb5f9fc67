/** One policy run and the comparison driver of both backends: the Next.js
    `POST` handler and the Flask `process_jobs_api` endpoint. */
module Engine {
  import opened Jobs
  import opened RealArith
  import opened Ordering
  import opened Simulator
  import opened Fairness
  import opened Scoring

  /** Total work over the makespan, and 0 when the makespan is not positive
      (the guard of the Flask backend). */
  function CpuUtilization(totalJobTime: real, makespan: real): real {
    if makespan > 0.0 then totalJobTime / makespan else 0.0
  }

  /** The Next.js utilisation as written: the division has no guard, so a
      zero makespan has no real value (NaN or Infinity in JavaScript), which
      is `None` here. Where it is defined with a positive makespan it agrees
      with the guarded version. */
  function RouteCpuUtilization(totalJobTime: real, makespan: real): (u: Option<real>)
    ensures u.None? <==> makespan == 0.0
    ensures u.Some? && makespan > 0.0 ==> u.value == CpuUtilization(totalJobTime, makespan)
  {
    if makespan == 0.0 then None else Some(totalJobTime / makespan)
  }

  /** The result of running policy `p` on a non-empty job list, or `None` when
      the composite score would divide by zero. */
  function Evaluate(jobs: seq<Job>, p: Policy): Option<AlgorithmResult>
    requires |jobs| > 0
  {
    var sorted := SortBy(jobs, p);
    var slots := Timeline(sorted);
    var makespan := Finish(slots);
    var averageTurnaround := TurnaroundTotal(sorted, slots) / |jobs| as real;
    if ScoreDefined(makespan, averageTurnaround) then
      var cpu := CpuUtilization(TotalJobTime(jobs), makespan);
      var fairness := ScheduleFairness(jobs, slots);
      Some(AlgorithmResult(PolicyName(p), makespan, averageTurnaround, cpu, fairness,
                           OverallScore(makespan, averageTurnaround, cpu, fairness), slots))
    else None
  }

  /** `shortestJobFirst`, `earliestDeadlineFirst` and `weightedJobScheduling`
      (and their Python twins), which differ only in the sort key. */
  method RunPolicy(jobs: seq<Job>, p: Policy) returns (result: Option<AlgorithmResult>)
    requires |jobs| > 0
    ensures result == Evaluate(jobs, p)
  {
    var sortedJobs := SortBy(jobs, p);
    var jobSchedule, currentTime, totalTurnaroundTime := Simulate(sortedJobs);
    var totalExecutionTime := currentTime;
    var averageTurnaroundTime := totalTurnaroundTime / |jobs| as real;
    var totalJobTime := TotalJobTime(jobs);
    var cpuUtilization := CpuUtilization(totalJobTime, totalExecutionTime);
    var fairnessIndex := FairnessIndex(jobs, jobSchedule);
    if !ScoreDefined(totalExecutionTime, averageTurnaroundTime) {
      return None;
    }
    var overallScore := OverallScore(totalExecutionTime, averageTurnaroundTime, cpuUtilization, fairnessIndex);
    result := Some(AlgorithmResult(PolicyName(p), totalExecutionTime, averageTurnaroundTime,
                                   cpuUtilization, fairnessIndex, overallScore, jobSchedule));
  }

  /** A run reports its policy's name and the timeline of its order. */
  lemma EvaluateName(jobs: seq<Job>, p: Policy)
    requires |jobs| > 0
    ensures Evaluate(jobs, p).Some? ==>
      Evaluate(jobs, p).value.name == PolicyName(p) && Evaluate(jobs, p).value.jobSchedule == Timeline(SortBy(jobs, p))
  {
  }

  /** The makespan of a policy's timeline covers the total work, which is not
      negative. */
  lemma MakespanBounds(jobs: seq<Job>, p: Policy)
    requires NonNegativeExecution(jobs)
    ensures Finish(Timeline(SortBy(jobs, p))) >= TotalJobTime(jobs) >= 0.0
  {
    var sorted := SortBy(jobs, p);
    TotalJobTimePermutation(sorted, jobs);
    TotalJobTimeNonNegative(jobs);
    MakespanCoversWork(sorted);
  }

  /** Sorting keeps every job, so it keeps execution times non-negative. */
  lemma SortByNonNegative(jobs: seq<Job>, p: Policy)
    requires NonNegativeExecution(jobs)
    ensures NonNegativeExecution(SortBy(jobs, p))
  {
    var sorted := SortBy(jobs, p);
    forall j | j in sorted
      ensures j.executionTime >= 0.0
    {
      assert j in multiset(jobs);
    }
  }

  /** The average turnaround is not negative. */
  lemma AverageTurnaroundBounds(jobs: seq<Job>, p: Policy)
    requires |jobs| > 0 && NonNegativeExecution(jobs)
    ensures TurnaroundTotal(SortBy(jobs, p), Timeline(SortBy(jobs, p))) / |jobs| as real >= 0.0
  {
    var sorted := SortBy(jobs, p);
    SortByNonNegative(jobs, p);
    TotalJobTimeNonNegative(sorted);
    TurnaroundCoversWork(sorted);
    QuotientNonNegative(TurnaroundTotal(sorted, Timeline(sorted)), |jobs| as real);
  }

  /** Utilisation lies in [0, 1] when the makespan covers the work, and is 1
      exactly when the two are equal and positive. */
  lemma CpuUtilizationBounds(totalJobTime: real, makespan: real)
    requires 0.0 <= totalJobTime <= makespan
    ensures 0.0 <= CpuUtilization(totalJobTime, makespan) <= 1.0
    ensures CpuUtilization(totalJobTime, makespan) == 1.0 <==> makespan == totalJobTime && totalJobTime > 0.0
    ensures makespan == 0.0 ==> CpuUtilization(totalJobTime, makespan) == 0.0
  {
    if makespan > 0.0 {
      DivisionBounds(totalJobTime, makespan);
    }
  }

  /** With no negative execution time a run always produces a result: one slot
      per job in the policy's order, a makespan covering the total work, a
      non-negative average turnaround, utilisation and fairness in [0, 1]
      (utilisation 1 exactly when the resource never idles) and a score in
      (0, 100]. */
  lemma EvaluateBounds(jobs: seq<Job>, p: Policy)
    requires |jobs| > 0 && NonNegativeExecution(jobs)
    ensures Evaluate(jobs, p).Some?
    ensures var r := Evaluate(jobs, p).value;
      && r.name == PolicyName(p)
      && r.jobSchedule == Timeline(SortBy(jobs, p))
      && r.totalExecutionTime >= TotalJobTime(jobs) >= 0.0
      && r.averageTurnaroundTime >= 0.0
      && 0.0 <= r.cpuUtilization <= 1.0
      && (r.cpuUtilization == 1.0 <==> r.totalExecutionTime == TotalJobTime(jobs) && TotalJobTime(jobs) > 0.0)
      && 0.0 <= r.fairnessIndex <= 1.0
      && 0.0 < r.overallScore <= 100.0
  {
    var slots := Timeline(SortBy(jobs, p));
    MakespanBounds(jobs, p);
    AverageTurnaroundBounds(jobs, p);
    CpuUtilizationBounds(TotalJobTime(jobs), Finish(slots));
    JainBounds(Ratios(ExecTimes(jobs), slots));
    ScoreRange(Finish(slots), TurnaroundTotal(SortBy(jobs, p), slots) / |jobs| as real,
               CpuUtilization(TotalJobTime(jobs), Finish(slots)), ScheduleFairness(jobs, slots));
  }

  /** With distinct ids, in the timeline of any order of the jobs every slot
      lasts exactly the time its job requested, which is that job's execution
      time. */
  lemma ExactRequests(jobs: seq<Job>, order: seq<Job>)
    requires DistinctIds(jobs) && multiset(order) == multiset(jobs)
    ensures forall k :: 0 <= k < |order| ==>
      && RequestedTime(ExecTimes(jobs), Timeline(order)[k].jobId) == Timeline(order)[k].endTime - Timeline(order)[k].startTime
      && RequestedTime(ExecTimes(jobs), Timeline(order)[k].jobId) == order[k].executionTime
  {
    forall k | 0 <= k < |order|
      ensures RequestedTime(ExecTimes(jobs), Timeline(order)[k].jobId) == Timeline(order)[k].endTime - Timeline(order)[k].startTime
      ensures RequestedTime(ExecTimes(jobs), Timeline(order)[k].jobId) == order[k].executionTime
    {
      TimelineSlot(order, k);
      assert order[k] in multiset(jobs);
      var i :| 0 <= i < |jobs| && jobs[i] == order[k];
      ExecTimesLookup(jobs, i);
    }
  }

  /** With distinct ids the fairness index of the timeline of any order of
      the jobs, in particular of every policy's order, is 1 as soon as some
      job has positive execution time, and 0 otherwise. */
  lemma TimelineFairness(jobs: seq<Job>, order: seq<Job>)
    requires |jobs| > 0 && DistinctIds(jobs) && multiset(order) == multiset(jobs)
    ensures ScheduleFairness(jobs, Timeline(order)) == if SomeWork(jobs) then 1.0 else 0.0
  {
    var slots := Timeline(order);
    var m := ExecTimes(jobs);
    ExactRequests(jobs, order);
    assert forall k :: 0 <= k < |slots| ==> RequestedTime(m, slots[k].jobId) == slots[k].endTime - slots[k].startTime;
    ExactFairness(jobs, slots);
    SomeWorkPermutation(order, jobs);
    if SomeWork(order) {
      var j :| j in order && j.executionTime > 0.0;
      var k :| 0 <= k < |order| && order[k] == j;
      assert RequestedTime(m, slots[k].jobId) > 0.0;
    }
    if exists k :: 0 <= k < |slots| && RequestedTime(m, slots[k].jobId) > 0.0 {
      var k :| 0 <= k < |slots| && RequestedTime(m, slots[k].jobId) > 0.0;
      assert order[k] in order;
    }
  }

  /** The three runs in the order the driver reports them, or `None` when one
      of them has no defined score. */
  function CompareAll(jobs: seq<Job>): Option<seq<AlgorithmResult>>
    requires |jobs| > 0
  {
    Collect(Evaluate(jobs, SJF), Evaluate(jobs, EDF), Evaluate(jobs, Weighted))
  }

  /** The three results as a list, or `None` when one is missing. */
  function Collect(sjf: Option<AlgorithmResult>, edf: Option<AlgorithmResult>, weighted: Option<AlgorithmResult>): Option<seq<AlgorithmResult>> {
    if sjf.Some? && edf.Some? && weighted.Some? then Some([sjf.value, edf.value, weighted.value]) else None
  }

  /** The driver fails exactly when some policy's run does. */
  lemma CompareAllDefined(jobs: seq<Job>)
    requires |jobs| > 0
    ensures CompareAll(jobs).Some? <==> forall p :: Evaluate(jobs, p).Some?
  {
    forall p ensures CompareAll(jobs).Some? ==> Evaluate(jobs, p).Some? {
      if p == SJF {} else if p == EDF {} else {}
    }
  }

  /** Without negative execution times the driver never fails. */
  lemma CompareAllNonNegative(jobs: seq<Job>)
    requires |jobs| > 0 && NonNegativeExecution(jobs)
    ensures CompareAll(jobs).Some?
  {
    EvaluateBounds(jobs, SJF);
    EvaluateBounds(jobs, EDF);
    EvaluateBounds(jobs, Weighted);
  }

  /** The driver reports one result per policy, in the order SJF, EDF,
      Weighted, each equal to that policy's run and carrying its name. */
  lemma CompareAllOrder(jobs: seq<Job>)
    requires |jobs| > 0 && CompareAll(jobs).Some?
    ensures var results := CompareAll(jobs).value;
      && |results| == |DriverOrder|
      && Some(results[0]) == Evaluate(jobs, SJF)
      && Some(results[1]) == Evaluate(jobs, EDF)
      && Some(results[2]) == Evaluate(jobs, Weighted)
  {
  }

  // ---------------------------------------------------------------------
  // Request validation and the two endpoints.

  /** The `jobs` field of a parsed request body: missing, present but not a
      list (with its Python truthiness, which only the Flask check reads), or
      a list of jobs. */
  datatype JobsField = Absent | NotAList(truthy: bool) | JobList(jobs: seq<Job>)

  /** A request body: not parseable as JSON, well-formed JSON that is not an
      object (`null`, or an array, number, string or boolean), or an object
      with a `jobs` field. */
  datatype RequestBody = Malformed | NotAnObject(isNull: bool) | Body(jobs: JobsField)

  datatype Response = Ok(results: seq<AlgorithmResult>) | BadRequest(error: string) | ServerError

  const RouteInvalidMessage: string := "Invalid or empty jobs array"
  const FlaskInvalidMessage: string := "No jobs provided"

  /** The Next.js check: `jobs` must be a non-empty array. */
  predicate RouteRejects(field: JobsField) {
    !(field.JobList? && |field.jobs| > 0)
  }

  /** The Flask check `not jobs` on `request.json.get('jobs', [])`. */
  predicate FlaskRejects(field: JobsField) {
    field.Absent? || (field.NotAList? && !field.truthy) || (field.JobList? && field.jobs == [])
  }

  /** What the driver answers once validation has passed. */
  function Outcome(results: Option<seq<AlgorithmResult>>): Response {
    if results.Some? then Ok(results.value) else ServerError
  }

  /** The Next.js `POST` handler. Destructuring `null` throws; destructuring
      any other non-object value leaves `jobs` undefined. */
  method Post(body: RequestBody) returns (response: Response)
    ensures body.Malformed? ==> response == ServerError
    ensures body.NotAnObject? && body.isNull ==> response == ServerError
    ensures body.NotAnObject? && !body.isNull ==> response == BadRequest(RouteInvalidMessage)
    ensures body.Body? && RouteRejects(body.jobs) ==> response == BadRequest(RouteInvalidMessage)
    ensures body.Body? && !RouteRejects(body.jobs) ==> response == Outcome(CompareAll(body.jobs.jobs))
  {
    if body.Malformed? || (body.NotAnObject? && body.isNull) {
      return ServerError;
    }
    if body.NotAnObject? {
      return BadRequest(RouteInvalidMessage);
    }
    var field := body.jobs;
    if !field.JobList? || |field.jobs| == 0 {
      return BadRequest(RouteInvalidMessage);
    }
    response := RunAll(field.jobs);
  }

  /** The Flask `process_jobs_api` endpoint. A present, truthy `jobs` value
      that is not a list passes the check and makes the first sort fail,
      which the handler reports as a server error. A body that is not an
      object has no `get`, which is a server error too. */
  method ProcessJobsApi(body: RequestBody) returns (response: Response)
    ensures body.Malformed? ==> response == ServerError
    ensures body.NotAnObject? ==> response == ServerError
    ensures body.Body? && FlaskRejects(body.jobs) ==> response == BadRequest(FlaskInvalidMessage)
    ensures body.Body? && body.jobs.NotAList? && body.jobs.truthy ==> response == ServerError
    ensures body.Body? && body.jobs.JobList? && body.jobs.jobs != [] ==> response == Outcome(CompareAll(body.jobs.jobs))
  {
    if !body.Body? {
      return ServerError;
    }
    var field := body.jobs;
    if FlaskRejects(field) {
      return BadRequest(FlaskInvalidMessage);
    }
    if field.NotAList? {
      return ServerError;
    }
    response := RunAll(field.jobs);
  }

  /** Runs the three policies in driver order. */
  method RunAll(jobs: seq<Job>) returns (response: Response)
    requires |jobs| > 0
    ensures response == Outcome(CompareAll(jobs))
  {
    var sjfResult := RunPolicy(jobs, SJF);
    var edfResult := RunPolicy(jobs, EDF);
    var weightedResult := RunPolicy(jobs, Weighted);
    if sjfResult.Some? && edfResult.Some? && weightedResult.Some? {
      response := Ok([sjfResult.value, edfResult.value, weightedResult.value]);
    } else {
      response := ServerError;
    }
    assert response == Outcome(Collect(sjfResult, edfResult, weightedResult));
  }

  /** The two backends reject the same `jobs` fields with status 400, except a
      truthy non-list one, which only the Next.js handler rejects. */
  lemma ValidationAgrees(field: JobsField)
    ensures RouteRejects(field) <==> FlaskRejects(field) || (field.NotAList? && field.truthy)
    ensures !RouteRejects(field) ==> field.JobList? && field.jobs != []
  {
    if field.JobList? && field.jobs != [] {
      assert |field.jobs| > 0;
    }
  }

  // ---------------------------------------------------------------------
  // Worked examples.

  const ExampleJ1: Job := Job("J1", 0.0, 5.0, 10.0, 3.0)
  const ExampleJ2: Job := Job("J2", 2.0, 3.0, 6.0, 5.0)

  lemma TwoJobOrder()
    ensures SortBy([ExampleJ1, ExampleJ2], SJF) == [ExampleJ2, ExampleJ1]
  {
    assert [ExampleJ1, ExampleJ2][1..] == [ExampleJ2];
  }

  lemma TwoJobTimeline()
    ensures Timeline([ExampleJ2, ExampleJ1]) == [Slot("J2", 2.0, 5.0), Slot("J1", 5.0, 10.0)]
  {
    assert [ExampleJ2, ExampleJ1][..1] == [ExampleJ2];
    assert [ExampleJ2][..0] == [];
  }

  lemma TwoJobTotals()
    ensures TotalJobTime([ExampleJ1, ExampleJ2]) == 8.0
    ensures TurnaroundTotal([ExampleJ2, ExampleJ1], [Slot("J2", 2.0, 5.0), Slot("J1", 5.0, 10.0)]) == 13.0
  {
    assert [ExampleJ1, ExampleJ2][..1] == [ExampleJ1];
    assert TotalJobTime([ExampleJ1]) == 5.0 by {
      assert [ExampleJ1][..0] == [];
    }
    var slots := [Slot("J2", 2.0, 5.0), Slot("J1", 5.0, 10.0)];
    assert [ExampleJ2, ExampleJ1][..1] == [ExampleJ2];
    assert slots[..1] == [Slot("J2", 2.0, 5.0)];
    assert TurnaroundTotal([ExampleJ2], [Slot("J2", 2.0, 5.0)]) == 3.0 by {
      assert [ExampleJ2][..0] == [];
      assert [Slot("J2", 2.0, 5.0)][..0] == [];
    }
  }

  lemma TwoJobFairness()
    ensures ScheduleFairness([ExampleJ1, ExampleJ2], [Slot("J2", 2.0, 5.0), Slot("J1", 5.0, 10.0)]) == 1.0
  {
    var jobs := [ExampleJ1, ExampleJ2];
    assert "J1" != "J2" by {
      assert "J1"[1] != "J2"[1];
    }
    assert DistinctIds(jobs);
    assert ExampleJ1 in jobs;
    TwoJobOrder();
    TwoJobTimeline();
    TimelineFairness(jobs, [ExampleJ2, ExampleJ1]);
  }

  /** Two jobs under SJF: J2 runs over [2, 5] and J1 over [5, 10]; the
      makespan is 10, the average turnaround (3 + 10) / 2 = 6.5, the
      utilisation 8 / 10 and the fairness 1. */
  lemma TwoJobExample()
    ensures var r := Evaluate([ExampleJ1, ExampleJ2], SJF);
      && r.Some?
      && r.value.jobSchedule == [Slot("J2", 2.0, 5.0), Slot("J1", 5.0, 10.0)]
      && r.value.totalExecutionTime == 10.0
      && r.value.averageTurnaroundTime == 6.5
      && r.value.cpuUtilization == 0.8
      && r.value.fairnessIndex == 1.0
  {
    var jobs := [ExampleJ1, ExampleJ2];
    TwoJobOrder();
    TwoJobTimeline();
    TwoJobTotals();
    TwoJobFairness();
  }

  /** The input that exposes the missing guard: one job of zero length has
      makespan 0, where the unguarded utilisation is undefined and the guarded
      one is 0. */
  lemma RouteCpuZeroMakespan()
    ensures var jobs := [Job("J1", 0.0, 0.0, 5.0, 1.0)];
      var makespan := Finish(Timeline(SortBy(jobs, SJF)));
      && RouteCpuUtilization(TotalJobTime(jobs), makespan).None?
      && CpuUtilization(TotalJobTime(jobs), makespan) == 0.0
  {
    var jobs := [Job("J1", 0.0, 0.0, 5.0, 1.0)];
    assert SortBy(jobs, SJF) == jobs;
    assert Timeline(jobs) == [Slot("J1", 0.0, 0.0)];
  }

  /** A negative makespan, reachable with a negative execution time: the
      Next.js division is an ordinary quotient there, while the guarded
      utilisation is 0. */
  lemma RouteCpuNegativeMakespan()
    ensures var jobs := [Job("A", 0.0, -1.0, 0.0, 1.0)];
      var makespan := Finish(Timeline(SortBy(jobs, SJF)));
      && makespan == -1.0
      && RouteCpuUtilization(TotalJobTime(jobs), makespan) == Some(1.0)
      && CpuUtilization(TotalJobTime(jobs), makespan) == 0.0
  {
    var jobs := [Job("A", 0.0, -1.0, 0.0, 1.0)];
    assert SortBy(jobs, SJF) == jobs;
    assert Timeline(jobs) == [Slot("A", 0.0, -1.0)];
    assert jobs[..0] == [];
  }

  /** A single job of zero length: the makespan is 0, so the utilisation is 0
      instead of a division by zero, and no ratio is collected, so the
      fairness is 0 as well; the score is 50. */
  lemma ZeroLengthExample()
    ensures var r := Evaluate([Job("J1", 0.0, 0.0, 5.0, 1.0)], SJF);
      && r.Some?
      && r.value.totalExecutionTime == 0.0
      && r.value.cpuUtilization == 0.0
      && r.value.fairnessIndex == 0.0
      && r.value.overallScore == 50.0
  {
    var jobs := [Job("J1", 0.0, 0.0, 5.0, 1.0)];
    TimelineFairness(jobs, SortBy(jobs, SJF));
    var sorted := SortBy(jobs, SJF);
    assert sorted == jobs;
    assert Timeline(sorted) == [Slot("J1", 0.0, 0.0)];
  }
}
