/** The equal-weighted composite score of a policy's metrics. */
module Scoring {
  import opened RealArith

  const ExecTimeWeight: real := 0.25
  const TurnaroundWeight: real := 0.25
  const CpuWeight: real := 0.25
  const FairnessWeight: real := 0.25

  /** The makespan and the average turnaround are scored as
      `100 / (1 + x / scale)`, with these scales. */
  const ExecTimeScale: real := 10.0
  const TurnaroundScale: real := 5.0

  /** A lower-is-better metric on a 0-100 scale: 100 at 0, falling towards 0
      as the metric grows. */
  function InverseScore(x: real, scale: real): real
    requires scale > 0.0 && 1.0 + x / scale != 0.0
  {
    100.0 / (1.0 + x / scale)
  }

  /** A higher-is-better metric in [0, 1] on a 0-100 scale. */
  function PercentScore(x: real): real {
    x * 100.0
  }

  /** The score's two divisions are defined: neither the makespan is
      `-ExecTimeScale` nor the average turnaround `-TurnaroundScale`. */
  predicate ScoreDefined(totalExecutionTime: real, avgTurnaroundTime: real) {
    1.0 + totalExecutionTime / ExecTimeScale != 0.0 && 1.0 + avgTurnaroundTime / TurnaroundScale != 0.0
  }

  /** `calculateOverallScore` / `calculate_overall_score`. */
  function OverallScore(totalExecutionTime: real, avgTurnaroundTime: real, cpuUtilization: real, fairnessIndex: real): real
    requires ScoreDefined(totalExecutionTime, avgTurnaroundTime)
  {
    ExecTimeWeight * InverseScore(totalExecutionTime, ExecTimeScale)
      + TurnaroundWeight * InverseScore(avgTurnaroundTime, TurnaroundScale)
      + CpuWeight * PercentScore(cpuUtilization)
      + FairnessWeight * PercentScore(fairnessIndex)
  }

  /** A metric above `-scale` has a positive denominator. */
  lemma AboveMinusScale(x: real, scale: real)
    requires scale > 0.0 && x > -scale
    ensures 1.0 + x / scale > 0.0
  {
    DivisionMonotone(-scale, x, scale);
    var r := -scale / scale;
    assert scale * r == scale * -1.0;
    Cancel(scale, r, -1.0);
  }

  /** For a metric >= 0, the inverse score lies in (0, 100] and is 100 exactly
      at 0. */
  lemma InverseScoreRange(x: real, scale: real)
    requires scale > 0.0 && x >= 0.0
    ensures 1.0 + x / scale > 0.0
    ensures 0.0 < InverseScore(x, scale) <= 100.0
    ensures InverseScore(x, scale) == 100.0 <==> x == 0.0
  {
    AboveMinusScale(x, scale);
    if x > 0.0 {
      DivisionMonotone(0.0, x, scale);
      QuotientDecreasing(100.0, 1.0, 1.0 + x / scale);
    }
  }

  /** Above `-scale`, the inverse score strictly decreases as the metric grows. */
  lemma InverseScoreDecreasing(x1: real, x2: real, scale: real)
    requires scale > 0.0 && -scale < x1 < x2
    ensures 1.0 + x1 / scale > 0.0 && 1.0 + x2 / scale > 0.0
    ensures InverseScore(x1, scale) > InverseScore(x2, scale)
  {
    AboveMinusScale(x1, scale);
    AboveMinusScale(x2, scale);
    DivisionMonotone(x1, x2, scale);
    QuotientDecreasing(100.0, 1.0 + x1 / scale, 1.0 + x2 / scale);
  }

  /** With non-negative times and utilisation and fairness in [0, 1], the
      score lies in (0, 100], and it is 100 exactly for zero times and full
      utilisation and fairness. */
  lemma ScoreRange(totalExecutionTime: real, avgTurnaroundTime: real, cpuUtilization: real, fairnessIndex: real)
    requires totalExecutionTime >= 0.0 && avgTurnaroundTime >= 0.0
    requires 0.0 <= cpuUtilization <= 1.0 && 0.0 <= fairnessIndex <= 1.0
    ensures ScoreDefined(totalExecutionTime, avgTurnaroundTime)
    ensures 0.0 < OverallScore(totalExecutionTime, avgTurnaroundTime, cpuUtilization, fairnessIndex) <= 100.0
    ensures OverallScore(totalExecutionTime, avgTurnaroundTime, cpuUtilization, fairnessIndex) == 100.0 <==>
      totalExecutionTime == 0.0 && avgTurnaroundTime == 0.0 && cpuUtilization == 1.0 && fairnessIndex == 1.0
  {
    InverseScoreRange(totalExecutionTime, ExecTimeScale);
    InverseScoreRange(avgTurnaroundTime, TurnaroundScale);
  }

  /** The score strictly decreases as the makespan grows (above -10). */
  lemma ScoreDecreasingInExecTime(t1: real, t2: real, avgTurnaroundTime: real, cpuUtilization: real, fairnessIndex: real)
    requires -ExecTimeScale < t1 < t2
    requires 1.0 + avgTurnaroundTime / TurnaroundScale != 0.0
    ensures ScoreDefined(t1, avgTurnaroundTime) && ScoreDefined(t2, avgTurnaroundTime)
    ensures OverallScore(t1, avgTurnaroundTime, cpuUtilization, fairnessIndex)
          > OverallScore(t2, avgTurnaroundTime, cpuUtilization, fairnessIndex)
  {
    InverseScoreDecreasing(t1, t2, ExecTimeScale);
  }

  /** The score strictly decreases as the average turnaround grows (above -5). */
  lemma ScoreDecreasingInTurnaround(totalExecutionTime: real, a1: real, a2: real, cpuUtilization: real, fairnessIndex: real)
    requires -TurnaroundScale < a1 < a2
    requires 1.0 + totalExecutionTime / ExecTimeScale != 0.0
    ensures ScoreDefined(totalExecutionTime, a1) && ScoreDefined(totalExecutionTime, a2)
    ensures OverallScore(totalExecutionTime, a1, cpuUtilization, fairnessIndex)
          > OverallScore(totalExecutionTime, a2, cpuUtilization, fairnessIndex)
  {
    InverseScoreDecreasing(a1, a2, TurnaroundScale);
  }

  /** Better metrics never lower the score: shorter times (above the poles)
      and higher utilisation and fairness give a score at least as high, and a
      strictly higher one as soon as one metric strictly improves. */
  lemma ScoreMonotone(t1: real, a1: real, cpu1: real, f1: real, t2: real, a2: real, cpu2: real, f2: real)
    requires -ExecTimeScale < t2 <= t1 && -TurnaroundScale < a2 <= a1
    requires cpu1 <= cpu2 && f1 <= f2
    ensures ScoreDefined(t1, a1) && ScoreDefined(t2, a2)
    ensures OverallScore(t1, a1, cpu1, f1) <= OverallScore(t2, a2, cpu2, f2)
    ensures OverallScore(t1, a1, cpu1, f1) < OverallScore(t2, a2, cpu2, f2) <==>
      t2 < t1 || a2 < a1 || cpu1 < cpu2 || f1 < f2
  {
    AboveMinusScale(t1, ExecTimeScale);
    AboveMinusScale(t2, ExecTimeScale);
    AboveMinusScale(a1, TurnaroundScale);
    AboveMinusScale(a2, TurnaroundScale);
    if t2 < t1 {
      InverseScoreDecreasing(t2, t1, ExecTimeScale);
    }
    if a2 < a1 {
      InverseScoreDecreasing(a2, a1, TurnaroundScale);
    }
  }
}
