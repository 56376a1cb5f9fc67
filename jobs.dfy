/** The entities every part of the engine shares: jobs, timeline slots and
    the three ordering policies. */
module Jobs {

  /** An input job. Times are reals; the engine never changes a job. */
  datatype Job = Job(id: string, arrivalTime: real, executionTime: real, deadline: real, weight: real)

  /** One entry of a policy's timeline. */
  datatype Slot = Slot(jobId: string, startTime: real, endTime: real)

  datatype Policy = SJF | EDF | Weighted

  /** What a policy reports: its name, the makespan (`totalExecutionTime`),
      the average turnaround, the CPU utilisation, the fairness index, the
      composite score and the timeline. */
  datatype AlgorithmResult = AlgorithmResult(
    name: string,
    totalExecutionTime: real,
    averageTurnaroundTime: real,
    cpuUtilization: real,
    fairnessIndex: real,
    overallScore: real,
    jobSchedule: seq<Slot>)

  datatype Option<T> = None | Some(value: T)

  /** The policies in the order the comparison driver reports them. */
  const DriverOrder: seq<Policy> := [SJF, EDF, Weighted]

  /** The name a policy's result carries. */
  function PolicyName(p: Policy): string {
    match p
    case SJF => "Shortest Job First (SJF)"
    case EDF => "Earliest Deadline First (EDF)"
    case Weighted => "Weighted Job Scheduling"
  }

  /** The sort key of a job under a policy. Every policy orders by its key
      ascending; the weighted policy's key is the negated weight, so it orders
      by weight descending. Each comparator of the source is `Key(a) - Key(b)`. */
  function Key(p: Policy, j: Job): real {
    match p
    case SJF => j.executionTime
    case EDF => j.deadline
    case Weighted => -j.weight
  }

  /** `Math.max` and Python's `max` on two numbers. */
  function Max(a: real, b: real): (m: real)
    ensures m >= a && m >= b && (m == a || m == b)
  {
    if a >= b then a else b
  }

  predicate DistinctIds(jobs: seq<Job>) {
    forall i, j :: 0 <= i < j < |jobs| ==> jobs[i].id != jobs[j].id
  }

  predicate NonNegativeExecution(jobs: seq<Job>) {
    forall j :: j in jobs ==> j.executionTime >= 0.0
  }

  /** Some job asks for a positive amount of work. */
  predicate SomeWork(jobs: seq<Job>) {
    exists j :: j in jobs && j.executionTime > 0.0
  }

  /** Whether some job has work does not depend on the order of the jobs. */
  lemma SomeWorkPermutation(a: seq<Job>, b: seq<Job>)
    requires multiset(a) == multiset(b)
    ensures SomeWork(a) <==> SomeWork(b)
  {
    assert forall j :: j in a <==> j in multiset(a);
    assert forall j :: j in b <==> j in multiset(b);
  }

  /** The total work of a job list, summed left to right like the source's
      `reduce` and `sum`. */
  function TotalJobTime(jobs: seq<Job>): real {
    if jobs == [] then 0.0 else TotalJobTime(jobs[..|jobs| - 1]) + jobs[|jobs| - 1].executionTime
  }

  lemma {:induction false} TotalJobTimeAppend(a: seq<Job>, b: seq<Job>)
    ensures TotalJobTime(a + b) == TotalJobTime(a) + TotalJobTime(b)
    decreases |b|
  {
    if b == [] {
      assert a + b == a;
    } else {
      assert (a + b)[..|a + b| - 1] == a + b[..|b| - 1];
      TotalJobTimeAppend(a, b[..|b| - 1]);
    }
  }

  /** The total work does not depend on the order of the jobs. */
  lemma {:induction false} TotalJobTimePermutation(a: seq<Job>, b: seq<Job>)
    requires multiset(a) == multiset(b)
    ensures TotalJobTime(a) == TotalJobTime(b)
    decreases |a|
  {
    if a == [] {
      assert |b| == |multiset(b)| == 0;
    } else {
      var x := a[|a| - 1];
      var a' := a[..|a| - 1];
      assert a == a' + [x];
      assert x in multiset(b);
      var i :| 0 <= i < |b| && b[i] == x;
      var b' := b[..i] + b[i + 1..];
      assert b == b[..i] + [x] + b[i + 1..];
      assert multiset(a') == multiset(a) - multiset{x};
      assert multiset(b') == multiset(b) - multiset{x};
      TotalJobTimePermutation(a', b');
      assert [x][..0] == [];
      assert TotalJobTime([x]) == x.executionTime;
      TotalJobTimeAppend(b[..i], [x]);
      TotalJobTimeAppend(b[..i] + [x], b[i + 1..]);
      TotalJobTimeAppend(b[..i], b[i + 1..]);
    }
  }

  /** With no negative execution time the total work is not negative. */
  lemma {:induction false} TotalJobTimeNonNegative(jobs: seq<Job>)
    requires NonNegativeExecution(jobs)
    ensures TotalJobTime(jobs) >= 0.0
    decreases |jobs|
  {
    if jobs != [] {
      var prefix := jobs[..|jobs| - 1];
      assert forall j :: j in prefix ==> j in jobs;
      assert jobs[|jobs| - 1] in jobs;
      TotalJobTimeNonNegative(prefix);
    }
  }

  /** The total work is zero exactly when every job has zero execution time,
      as long as none is negative. */
  lemma {:induction false} TotalJobTimeZero(jobs: seq<Job>)
    requires NonNegativeExecution(jobs)
    ensures TotalJobTime(jobs) == 0.0 <==> forall j :: j in jobs ==> j.executionTime == 0.0
    decreases |jobs|
  {
    if jobs != [] {
      var prefix := jobs[..|jobs| - 1];
      assert jobs == prefix + [jobs[|jobs| - 1]];
      assert forall j :: j in prefix ==> j in jobs;
      TotalJobTimeZero(prefix);
      TotalJobTimeNonNegative(prefix);
    }
  }
}
