/** The timeline simulator: replays an ordered job list on one
    non-preemptive resource that starts free at time 0. */
module Simulator {
  import opened Jobs

  /** When the resource is free again after `slots`: the end of the last
      slot, or 0 before any slot. */
  function Finish(slots: seq<Slot>): real {
    if slots == [] then 0.0 else slots[|slots| - 1].endTime
  }

  /** The slots the simulator emits for `jobs`, taken in the given order:
      each job starts when both the resource is free and the job has
      arrived, and runs for its execution time. */
  function Timeline(jobs: seq<Job>): (slots: seq<Slot>)
    ensures |slots| == |jobs|
    decreases |jobs|
  {
    if jobs == [] then []
    else
      var earlier := Timeline(jobs[..|jobs| - 1]);
      var job := jobs[|jobs| - 1];
      var start := Max(Finish(earlier), job.arrivalTime);
      earlier + [Slot(job.id, start, start + job.executionTime)]
  }

  /** The accumulated turnaround `endTime - arrivalTime` of paired jobs and slots. */
  function TurnaroundTotal(jobs: seq<Job>, slots: seq<Slot>): real
    requires |jobs| == |slots|
    decreases |jobs|
  {
    if jobs == [] then 0.0
    else
      TurnaroundTotal(jobs[..|jobs| - 1], slots[..|slots| - 1])
        + (slots[|slots| - 1].endTime - jobs[|jobs| - 1].arrivalTime)
  }

  /** The loop each policy runs over its sorted copy of the jobs. It returns
      the schedule, the final `currentTime` and the accumulated turnaround. */
  method Simulate(sortedJobs: seq<Job>) returns (jobSchedule: seq<Slot>, currentTime: real, totalTurnaroundTime: real)
    ensures jobSchedule == Timeline(sortedJobs)
    ensures currentTime == Finish(jobSchedule)
    ensures totalTurnaroundTime == TurnaroundTotal(sortedJobs, jobSchedule)
  {
    currentTime := 0.0;
    totalTurnaroundTime := 0.0;
    jobSchedule := [];
    var i := 0;
    while i < |sortedJobs|
      invariant 0 <= i <= |sortedJobs|
      invariant jobSchedule == Timeline(sortedJobs[..i])
      invariant currentTime == Finish(jobSchedule)
      invariant totalTurnaroundTime == TurnaroundTotal(sortedJobs[..i], jobSchedule)
    {
      var job := sortedJobs[i];
      var startTime := Max(currentTime, job.arrivalTime);
      var endTime := startTime + job.executionTime;
      var before := jobSchedule;
      jobSchedule := jobSchedule + [Slot(job.id, startTime, endTime)];
      totalTurnaroundTime := totalTurnaroundTime + (endTime - job.arrivalTime);
      currentTime := endTime;
      assert sortedJobs[..i + 1][..i] == sortedJobs[..i];
      assert jobSchedule[..i] == before;
      i := i + 1;
    }
    assert sortedJobs[..|sortedJobs|] == sortedJobs;
  }

  /** Slot `k` belongs to job `k`, starts at the later of the previous slot's
      end (0 for the first) and the job's arrival, and lasts exactly the job's
      execution time. */
  lemma {:induction false} TimelineSlot(jobs: seq<Job>, k: nat)
    requires k < |jobs|
    ensures Timeline(jobs)[k].jobId == jobs[k].id
    ensures Timeline(jobs)[k].startTime
         == Max(if k == 0 then 0.0 else Timeline(jobs)[k - 1].endTime, jobs[k].arrivalTime)
    ensures Timeline(jobs)[k].endTime - Timeline(jobs)[k].startTime == jobs[k].executionTime
    decreases |jobs|
  {
    var n := |jobs|;
    var prefix := jobs[..n - 1];
    var earlier := Timeline(prefix);
    assert Timeline(jobs)[..n - 1] == earlier;
    if k < n - 1 {
      TimelineSlot(prefix, k);
    }
  }

  /** Running a prefix of the order yields a prefix of the timeline. */
  lemma {:induction false} TimelinePrefix(jobs: seq<Job>, i: nat)
    requires i <= |jobs|
    ensures Timeline(jobs[..i]) == Timeline(jobs)[..i]
    decreases |jobs|
  {
    if i < |jobs| {
      var prefix := jobs[..|jobs| - 1];
      assert Timeline(jobs)[..|jobs| - 1] == Timeline(prefix);
      assert prefix[..i] == jobs[..i];
      TimelinePrefix(prefix, i);
    } else {
      assert jobs[..i] == jobs;
    }
  }

  /** Slots never start before their job arrives and never overlap: each
      starts no earlier than the previous one ends. */
  lemma TimelineOrdered(jobs: seq<Job>)
    ensures forall k :: 0 <= k < |jobs| ==> Timeline(jobs)[k].startTime >= jobs[k].arrivalTime
    ensures forall k :: 0 <= k < |jobs| - 1 ==> Timeline(jobs)[k + 1].startTime >= Timeline(jobs)[k].endTime
  {
    forall k | 0 <= k < |jobs| {
      TimelineSlot(jobs, k);
    }
  }

  /** With no negative execution time every slot lies within [0, makespan],
      ends are non-decreasing, and the makespan is the largest end time. */
  lemma TimelineWithinMakespan(jobs: seq<Job>)
    requires NonNegativeExecution(jobs)
    ensures forall k :: 0 <= k < |jobs| ==>
      0.0 <= Timeline(jobs)[k].startTime <= Timeline(jobs)[k].endTime <= Finish(Timeline(jobs))
    ensures forall i, j :: 0 <= i <= j < |jobs| ==> Timeline(jobs)[i].endTime <= Timeline(jobs)[j].endTime
    ensures Finish(Timeline(jobs)) >= 0.0
    ensures jobs != [] ==> exists k :: 0 <= k < |jobs| && Timeline(jobs)[k].endTime == Finish(Timeline(jobs))
  {
    var slots := Timeline(jobs);
    forall k | 0 <= k < |jobs|
      ensures 0.0 <= slots[k].startTime <= slots[k].endTime
      ensures k + 1 < |jobs| ==> slots[k].endTime <= slots[k + 1].endTime
    {
      assert jobs[k] in jobs;
      TimelineSlot(jobs, k);
      if k + 1 < |jobs| {
        assert jobs[k + 1] in jobs;
        TimelineSlot(jobs, k + 1);
      }
      if k > 0 {
        TimelineStartsNonNegative(jobs, k);
      }
    }
    EndsMonotone(slots);
    if jobs != [] {
      assert slots[|jobs| - 1].endTime == Finish(slots);
    }
  }

  lemma {:induction false} TimelineStartsNonNegative(jobs: seq<Job>, k: nat)
    requires NonNegativeExecution(jobs)
    requires k < |jobs|
    ensures Timeline(jobs)[k].startTime >= 0.0
    decreases k
  {
    TimelineSlot(jobs, k);
    if k > 0 {
      TimelineStartsNonNegative(jobs, k - 1);
      TimelineSlot(jobs, k - 1);
      assert jobs[k - 1] in jobs;
    }
  }

  lemma {:induction false} EndsMonotone(slots: seq<Slot>)
    requires forall k :: 0 <= k < |slots| - 1 ==> slots[k].endTime <= slots[k + 1].endTime
    ensures forall i, j :: 0 <= i <= j < |slots| ==> slots[i].endTime <= slots[j].endTime
    decreases |slots|
  {
    if |slots| > 1 {
      var prefix := slots[..|slots| - 1];
      EndsMonotone(prefix);
      assert forall i :: 0 <= i < |prefix| ==> prefix[i] == slots[i];
      forall i, j | 0 <= i <= j < |slots|
        ensures slots[i].endTime <= slots[j].endTime
      {
        if j == |slots| - 1 && i < j {
          assert slots[i].endTime <= slots[j - 1].endTime;
        }
      }
    }
  }

  /** The makespan covers at least the total work of the order. */
  lemma {:induction false} MakespanCoversWork(jobs: seq<Job>)
    ensures Finish(Timeline(jobs)) >= TotalJobTime(jobs)
    decreases |jobs|
  {
    if jobs != [] {
      MakespanCoversWork(jobs[..|jobs| - 1]);
    }
  }

  /** Every job's turnaround is at least its execution time, so the total
      turnaround is at least the total work. */
  lemma {:induction false} TurnaroundCoversWork(jobs: seq<Job>)
    ensures TurnaroundTotal(jobs, Timeline(jobs)) >= TotalJobTime(jobs)
    decreases |jobs|
  {
    if jobs != [] {
      var n := |jobs|;
      var prefix := jobs[..n - 1];
      assert Timeline(jobs)[..n - 1] == Timeline(prefix);
      TurnaroundCoversWork(prefix);
      TimelineSlot(jobs, n - 1);
    }
  }
}
