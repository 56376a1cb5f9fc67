/** The radar chart's min/max normalisation of one metric across the
    policies' results onto a 0-100 scale. */
module Performance {
  import opened Jobs
  import opened RealArith

  /** The metric a name selects; an unknown name reads as 0. */
  function MetricValue(r: AlgorithmResult, metric: string): real {
    if metric == "totalExecutionTime" then r.totalExecutionTime
    else if metric == "averageTurnaroundTime" then r.averageTurnaroundTime
    else if metric == "cpuUtilization" then r.cpuUtilization
    else if metric == "fairnessIndex" then r.fairnessIndex
    else if metric == "overallScore" then r.overallScore
    else 0.0
  }

  /** The metric of every result, in result order. */
  function MetricValues(results: seq<AlgorithmResult>, metric: string): seq<real> {
    seq(|results|, i requires 0 <= i < |results| => MetricValue(results[i], metric))
  }

  /** `Math.min(...values)` on a non-empty list. */
  function Minimum(values: seq<real>): (m: real)
    requires |values| > 0
    ensures m in values
    ensures forall i :: 0 <= i < |values| ==> m <= values[i]
    decreases |values|
  {
    if |values| == 1 then values[0]
    else
      var rest := Minimum(values[..|values| - 1]);
      assert forall i :: 0 <= i < |values| - 1 ==> values[..|values| - 1][i] == values[i];
      if values[|values| - 1] < rest then values[|values| - 1] else rest
  }

  /** `Math.max(...values)` on a non-empty list. */
  function Maximum(values: seq<real>): (m: real)
    requires |values| > 0
    ensures m in values
    ensures forall i :: 0 <= i < |values| ==> values[i] <= m
    decreases |values|
  {
    if |values| == 1 then values[0]
    else
      var rest := Maximum(values[..|values| - 1]);
      assert forall i :: 0 <= i < |values| - 1 ==> values[..|values| - 1][i] == values[i];
      if values[|values| - 1] > rest then values[|values| - 1] else rest
  }

  /** Where `value` sits between `lo` and `hi` on a 0-100 scale, counted
      from `lo` when higher is better and from `hi` otherwise; 100 when the
      range is flat. */
  function Normalize(value: real, lo: real, hi: real, isHigherBetter: bool): real {
    if !isHigherBetter then
      (if hi == lo then 100.0 else 100.0 - ((value - lo) / (hi - lo)) * 100.0)
    else
      (if hi == lo then 100.0 else ((value - lo) / (hi - lo)) * 100.0)
  }

  /** `normalizeMetric`: normalises `value` against the smallest and largest
      value the metric takes across `results`. */
  function NormalizeMetric(results: seq<AlgorithmResult>, value: real, metric: string, isHigherBetter: bool): real
    requires |results| > 0
  {
    var values := MetricValues(results, metric);
    Normalize(value, Minimum(values), Maximum(values), isHigherBetter)
  }

  /** The bounds `normalizeMetric` works with are the metric values of some
      result, and every result's value lies between them. */
  lemma MetricExtremes(results: seq<AlgorithmResult>, metric: string)
    requires |results| > 0
    ensures exists i :: 0 <= i < |results| && Minimum(MetricValues(results, metric)) == MetricValue(results[i], metric)
    ensures exists i :: 0 <= i < |results| && Maximum(MetricValues(results, metric)) == MetricValue(results[i], metric)
    ensures forall i :: 0 <= i < |results| ==>
      Minimum(MetricValues(results, metric)) <= MetricValue(results[i], metric) <= Maximum(MetricValues(results, metric))
  {
    var values := MetricValues(results, metric);
    assert |values| == |results|;
    forall i | 0 <= i < |results|
      ensures Minimum(values) <= MetricValue(results[i], metric) <= Maximum(values)
    {
      assert values[i] == MetricValue(results[i], metric);
    }
    var iLo :| 0 <= iLo < |values| && values[iLo] == Minimum(values);
    var iHi :| 0 <= iHi < |values| && values[iHi] == Maximum(values);
    assert values[iLo] == MetricValue(results[iLo], metric);
    assert values[iHi] == MetricValue(results[iHi], metric);
  }

  /** A flat range maps every value to 100, whichever direction is better. */
  lemma NormalizeFlat(value: real, lo: real, isHigherBetter: bool)
    ensures Normalize(value, lo, lo, isHigherBetter) == 100.0
  {
  }

  /** Higher-is-better sends the maximum to 100 and the minimum to 0;
      lower-is-better sends the minimum to 100 and the maximum to 0. */
  lemma NormalizeEndpoints(lo: real, hi: real)
    requires lo < hi
    ensures Normalize(hi, lo, hi, true) == 100.0 && Normalize(lo, lo, hi, true) == 0.0
    ensures Normalize(lo, lo, hi, false) == 100.0 && Normalize(hi, lo, hi, false) == 0.0
  {
    DivisionBounds(hi - lo, hi - lo);
    DivisionBounds(0.0, hi - lo);
  }

  /** On a non-flat range, lower-is-better is the complement of
      higher-is-better. */
  lemma NormalizeComplement(value: real, lo: real, hi: real)
    requires lo != hi
    ensures Normalize(value, lo, hi, false) == 100.0 - Normalize(value, lo, hi, true)
  {
  }

  /** A value inside the range lands in [0, 100]. */
  lemma NormalizeRange(value: real, lo: real, hi: real, isHigherBetter: bool)
    requires lo <= value <= hi
    ensures 0.0 <= Normalize(value, lo, hi, isHigherBetter) <= 100.0
  {
    if lo < hi {
      DivisionBounds(value - lo, hi - lo);
    }
  }

  /** Higher-is-better grows with the value and lower-is-better shrinks, strictly
      on a non-flat range. */
  lemma NormalizeMonotone(v1: real, v2: real, lo: real, hi: real)
    requires v1 <= v2 && lo <= hi
    ensures Normalize(v1, lo, hi, true) <= Normalize(v2, lo, hi, true)
    ensures Normalize(v1, lo, hi, false) >= Normalize(v2, lo, hi, false)
    ensures lo < hi && v1 < v2 ==>
      Normalize(v1, lo, hi, true) < Normalize(v2, lo, hi, true)
      && Normalize(v1, lo, hi, false) > Normalize(v2, lo, hi, false)
  {
    if lo < hi && v1 < v2 {
      DivisionMonotone(v1 - lo, v2 - lo, hi - lo);
    }
  }

  /** Normalising a result's own metric gives a score in [0, 100]; some
      result scores 100, and unless all results agree, some result scores 0. */
  lemma NormalizeMetricRange(results: seq<AlgorithmResult>, metric: string, isHigherBetter: bool)
    requires |results| > 0
    ensures forall i :: 0 <= i < |results| ==>
      0.0 <= NormalizeMetric(results, MetricValue(results[i], metric), metric, isHigherBetter) <= 100.0
    ensures exists i ::
      0 <= i < |results| && NormalizeMetric(results, MetricValue(results[i], metric), metric, isHigherBetter) == 100.0
    ensures (exists i, j :: 0 <= i < |results| && 0 <= j < |results| && MetricValue(results[i], metric) != MetricValue(results[j], metric))
      ==> exists i ::
            0 <= i < |results| && NormalizeMetric(results, MetricValue(results[i], metric), metric, isHigherBetter) == 0.0
  {
    var values := MetricValues(results, metric);
    var lo, hi := Minimum(values), Maximum(values);
    forall i | 0 <= i < |results|
      ensures 0.0 <= NormalizeMetric(results, MetricValue(results[i], metric), metric, isHigherBetter) <= 100.0
    {
      NormalizeRange(values[i], lo, hi, isHigherBetter);
    }
    var iLo :| 0 <= iLo < |values| && values[iLo] == lo;
    var iHi :| 0 <= iHi < |values| && values[iHi] == hi;
    if lo == hi {
      NormalizeFlat(values[iLo], lo, isHigherBetter);
    } else {
      NormalizeEndpoints(lo, hi);
      if isHigherBetter {
        assert NormalizeMetric(results, MetricValue(results[iHi], metric), metric, isHigherBetter) == 100.0;
      } else {
        assert NormalizeMetric(results, MetricValue(results[iLo], metric), metric, isHigherBetter) == 100.0;
      }
    }
    if exists i, j :: 0 <= i < |results| && 0 <= j < |results| && MetricValue(results[i], metric) != MetricValue(results[j], metric) {
      var i, j :| 0 <= i < |results| && 0 <= j < |results| && MetricValue(results[i], metric) != MetricValue(results[j], metric);
      assert lo <= values[i] && values[j] <= hi;
      assert lo < hi;
      if isHigherBetter {
        assert NormalizeMetric(results, MetricValue(results[iLo], metric), metric, isHigherBetter) == 0.0;
      } else {
        assert NormalizeMetric(results, MetricValue(results[iHi], metric), metric, isHigherBetter) == 0.0;
      }
    }
  }
}
