/** Jain's fairness index over the allocated/requested time ratios of a
    schedule (Jain, Chiu and Hawe, DEC-TR-301). */
module Fairness {
  import opened Jobs
  import opened RealArith

  /** Left-to-right sum, as the source's `reduce` and `sum`. */
  function Sum(xs: seq<real>): real {
    if xs == [] then 0.0 else Sum(xs[..|xs| - 1]) + xs[|xs| - 1]
  }

  function SumSquares(xs: seq<real>): real {
    if xs == [] then 0.0 else SumSquares(xs[..|xs| - 1]) + Square(xs[|xs| - 1])
  }

  /** The id-to-execution-time dictionary built from the input jobs: each job
      in turn sets its id's entry. */
  function ExecTimes(jobs: seq<Job>): map<string, real>
    decreases |jobs|
  {
    if jobs == [] then map[]
    else ExecTimes(jobs[..|jobs| - 1])[jobs[|jobs| - 1].id := jobs[|jobs| - 1].executionTime]
  }

  /** The requested time of a slot's job: its dictionary entry, or 0 when the
      id is unknown (`get(id) || 0` in TypeScript, `get(id, 0)` in Python). */
  function RequestedTime(execTimes: map<string, real>, id: string): real {
    if id in execTimes then execTimes[id] else 0.0
  }

  /** The ratio allocated/requested of each slot, in schedule order, skipping
      slots whose requested time is not positive. */
  function Ratios(execTimes: map<string, real>, schedule: seq<Slot>): seq<real>
    decreases |schedule|
  {
    if schedule == [] then []
    else
      var slot := schedule[|schedule| - 1];
      var requested := RequestedTime(execTimes, slot.jobId);
      Ratios(execTimes, schedule[..|schedule| - 1])
        + if requested > 0.0 then [(slot.endTime - slot.startTime) / requested] else []
  }

  /** Jain's index `(sum r)^2 / (n * sum r^2)`, or 0 when there is no ratio
      or the sum of squares is 0. */
  function Jain(ratios: seq<real>): real {
    if ratios == [] then 0.0
    else if SumSquares(ratios) == 0.0 then 0.0
    else
      SquaresZero(ratios);
      Quotient(Sum(ratios), |ratios| as real, SumSquares(ratios))
  }

  /** `s^2 / (n * q)`, the final division of the index. */
  function Quotient(s: real, n: real, q: real): real
    requires n > 0.0 && q > 0.0
  {
    ProductPositive(n, q);
    Square(s) / (n * q)
  }

  /** The fairness index of a schedule for the given jobs; 0 for no jobs. */
  function ScheduleFairness(jobs: seq<Job>, schedule: seq<Slot>): real {
    if jobs == [] then 0.0 else Jain(Ratios(ExecTimes(jobs), schedule))
  }

  /** `calculateFairnessIndex` / `calculate_fairness_index`: fills the
      dictionary and the ratio list in two loops. */
  method FairnessIndex(jobs: seq<Job>, schedule: seq<Slot>) returns (fairness: real)
    ensures fairness == ScheduleFairness(jobs, schedule)
  {
    if |jobs| == 0 {
      return 0.0;
    }
    var jobExecTimes: map<string, real> := map[];
    var i := 0;
    while i < |jobs|
      invariant 0 <= i <= |jobs|
      invariant jobExecTimes == ExecTimes(jobs[..i])
    {
      jobExecTimes := jobExecTimes[jobs[i].id := jobs[i].executionTime];
      assert jobs[..i + 1][..i] == jobs[..i];
      i := i + 1;
    }
    assert jobs[..|jobs|] == jobs;
    var ratios: seq<real> := [];
    var k := 0;
    while k < |schedule|
      invariant 0 <= k <= |schedule|
      invariant ratios == Ratios(jobExecTimes, schedule[..k])
    {
      var slot := schedule[k];
      var allocatedTime := slot.endTime - slot.startTime;
      var requestedTime := RequestedTime(jobExecTimes, slot.jobId);
      if requestedTime > 0.0 {
        ratios := ratios + [allocatedTime / requestedTime];
      }
      assert schedule[..k + 1][..k] == schedule[..k];
      k := k + 1;
    }
    assert schedule[..|schedule|] == schedule;
    if |ratios| == 0 {
      return 0.0;
    }
    var sumRatios := Sum(ratios);
    var sumSquaredRatios := SumSquares(ratios);
    var n := |ratios| as real;
    if sumSquaredRatios == 0.0 {
      return 0.0;
    }
    SquaresZero(ratios);
    fairness := Quotient(sumRatios, n, sumSquaredRatios);
  }

  // ---------------------------------------------------------------------
  // The dictionary.

  /** An id has an entry exactly when some job carries it, and the entry is
      the execution time of the LAST job carrying it. */
  lemma {:induction false} ExecTimesLookup(jobs: seq<Job>, k: nat)
    requires k < |jobs|
    requires forall l :: k < l < |jobs| ==> jobs[l].id != jobs[k].id
    ensures jobs[k].id in ExecTimes(jobs)
    ensures ExecTimes(jobs)[jobs[k].id] == jobs[k].executionTime
    decreases |jobs|
  {
    if k < |jobs| - 1 {
      ExecTimesLookup(jobs[..|jobs| - 1], k);
    }
  }

  lemma {:induction false} ExecTimesKeys(jobs: seq<Job>, id: string)
    ensures id in ExecTimes(jobs) <==> exists k :: 0 <= k < |jobs| && jobs[k].id == id
    decreases |jobs|
  {
    if jobs != [] {
      var prefix := jobs[..|jobs| - 1];
      ExecTimesKeys(prefix, id);
      if id in ExecTimes(prefix) {
        var k :| 0 <= k < |prefix| && prefix[k].id == id;
        assert jobs[k].id == id;
      }
      if exists k :: 0 <= k < |jobs| && jobs[k].id == id {
        var k :| 0 <= k < |jobs| && jobs[k].id == id;
        if k < |prefix| {
          assert prefix[k].id == id;
        }
      }
    }
  }

  /** A sum of squares is never negative, and it is zero exactly when every
      entry is zero. */
  lemma {:induction false} SquaresZero(xs: seq<real>)
    ensures SumSquares(xs) >= 0.0
    ensures SumSquares(xs) > 0.0 <==> exists k :: 0 <= k < |xs| && xs[k] != 0.0
    decreases |xs|
  {
    if xs != [] {
      var prefix, y := xs[..|xs| - 1], xs[|xs| - 1];
      SquaresZero(prefix);
      SquareSign(y);
      if exists k :: 0 <= k < |prefix| && prefix[k] != 0.0 {
        var k :| 0 <= k < |prefix| && prefix[k] != 0.0;
        assert xs[k] != 0.0;
      }
      if exists k :: 0 <= k < |xs| && xs[k] != 0.0 {
        var k :| 0 <= k < |xs| && xs[k] != 0.0;
        if k < |prefix| {
          assert prefix[k] != 0.0;
        }
      }
    }
  }

  /** When every slot lasted exactly its requested time, every collected
      ratio is 1, and a ratio is collected exactly when some slot has a
      positive requested time. */
  lemma {:induction false} RatiosExact(execTimes: map<string, real>, schedule: seq<Slot>)
    requires forall k :: 0 <= k < |schedule| ==>
      RequestedTime(execTimes, schedule[k].jobId) == schedule[k].endTime - schedule[k].startTime
    ensures forall i :: 0 <= i < |Ratios(execTimes, schedule)| ==> Ratios(execTimes, schedule)[i] == 1.0
    ensures Ratios(execTimes, schedule) != [] <==>
      exists k :: 0 <= k < |schedule| && RequestedTime(execTimes, schedule[k].jobId) > 0.0
    decreases |schedule|
  {
    if schedule != [] {
      var prefix, slot := schedule[..|schedule| - 1], schedule[|schedule| - 1];
      assert forall k :: 0 <= k < |prefix| ==> prefix[k] == schedule[k];
      RatiosExact(execTimes, prefix);
      var requested := RequestedTime(execTimes, slot.jobId);
      if requested > 0.0 {
        var r := (slot.endTime - slot.startTime) / requested;
        assert requested * r == requested * 1.0;
        Cancel(requested, r, 1.0);
      }
      if exists k :: 0 <= k < |schedule| && RequestedTime(execTimes, schedule[k].jobId) > 0.0 {
        var k :| 0 <= k < |schedule| && RequestedTime(execTimes, schedule[k].jobId) > 0.0;
        if k < |prefix| {
          assert RequestedTime(execTimes, prefix[k].jobId) > 0.0;
        }
      }
    }
  }

  /** When every slot lasted exactly its requested time, the index is 1 if
      some slot requested a positive time, and 0 otherwise. */
  lemma ExactFairness(jobs: seq<Job>, schedule: seq<Slot>)
    requires jobs != []
    requires forall k :: 0 <= k < |schedule| ==>
      RequestedTime(ExecTimes(jobs), schedule[k].jobId) == schedule[k].endTime - schedule[k].startTime
    ensures ScheduleFairness(jobs, schedule)
         == if exists k :: 0 <= k < |schedule| && RequestedTime(ExecTimes(jobs), schedule[k].jobId) > 0.0
            then 1.0 else 0.0
  {
    RatiosExact(ExecTimes(jobs), schedule);
    JainIsOne(Ratios(ExecTimes(jobs), schedule));
  }

  // ---------------------------------------------------------------------
  // Cauchy-Schwarz: (sum r)^2 <= n * sum r^2, with equality exactly when all
  // ratios are equal.

  /** n * sum r^2 - (sum r)^2, which the index compares against 0. */
  function Spread(xs: seq<real>): real {
    |xs| as real * SumSquares(xs) - Square(Sum(xs))
  }

  lemma ConstantStep(n: real, c: real)
    ensures (n + 1.0) * c == n * c + c
    ensures (n + 1.0) * (c * c) == n * (c * c) + c * c
  {
  }

  /** A list whose entries are all `c` sums to `n * c`, its squares to `n * c^2`. */
  lemma {:induction false} SumsOfConstant(xs: seq<real>, c: real)
    requires forall k :: 0 <= k < |xs| ==> xs[k] == c
    ensures Sum(xs) == |xs| as real * c
    ensures SumSquares(xs) == |xs| as real * Square(c)
    decreases |xs|
  {
    if xs != [] {
      var prefix := xs[..|xs| - 1];
      assert forall k :: 0 <= k < |prefix| ==> prefix[k] == xs[k];
      SumsOfConstant(prefix, c);
      ConstantStep(|prefix| as real, c);
    }
  }

  /** One more entry never lowers the spread; it raises it exactly when the
      spread was already positive or the new entry differs from the mean
      `s / n` of the earlier ones (written `s != n * y`). */
  lemma CauchyStep(n: real, q: real, s: real, y: real, n': real, q': real, s': real)
    requires n > 0.0 && n * q - Square(s) >= 0.0
    requires n' == n + 1.0 && q' == q + Square(y) && s' == s + y
    ensures n' * q' - Square(s') >= n * q - Square(s)
    ensures n' * q' - Square(s') > n * q - Square(s) <==> n * q - Square(s) > 0.0 || s != n * y
  {
    var sp := n * q - Square(s);
    var t := q - 2.0 * y * s + n * Square(y);
    assert n' * q' - Square(s') == sp + t;
    assert n * t == sp + Square(s - n * y);
    SquareSign(s - n * y);
    if t < 0.0 {
      ProductPositive(n, -t);
    }
    if t > 0.0 {
      ProductPositive(n, t);
    }
  }

  /** Appending `y` to a non-empty list of non-negative spread does not lower
      the spread, and raises it exactly when the spread was positive or `y`
      differs from the list's mean. */
  lemma SpreadSnoc(xs: seq<real>)
    requires |xs| > 1 && Spread(xs[..|xs| - 1]) >= 0.0
    ensures Spread(xs) >= Spread(xs[..|xs| - 1])
    ensures Spread(xs) > Spread(xs[..|xs| - 1]) <==>
      Spread(xs[..|xs| - 1]) > 0.0 || Sum(xs[..|xs| - 1]) != (|xs| - 1) as real * xs[|xs| - 1]
  {
    var prefix := xs[..|xs| - 1];
    CauchyStep(|prefix| as real, SumSquares(prefix), Sum(prefix), xs[|xs| - 1], |xs| as real, SumSquares(xs), Sum(xs));
  }

  /** The mean of a list whose entries all equal `c` is `y` exactly when `c` is. */
  lemma ConstantMean(xs: seq<real>, c: real, y: real)
    requires xs != [] && forall k :: 0 <= k < |xs| ==> xs[k] == c
    ensures Sum(xs) != |xs| as real * y <==> c != y
  {
    SumsOfConstant(xs, c);
    Cancel(|xs| as real, c, y);
  }

  /** Cauchy-Schwarz for sums: the spread is never negative, and it is
      positive exactly when some entry differs from the first. */
  lemma {:induction false} SpreadNonNegative(xs: seq<real>)
    ensures Spread(xs) >= 0.0
    ensures Spread(xs) > 0.0 <==> exists k :: 0 <= k < |xs| && xs[k] != xs[0]
    decreases |xs|
  {
    if xs != [] {
      var prefix, y := xs[..|xs| - 1], xs[|xs| - 1];
      assert xs == prefix + [y];
      if prefix == [] {
        assert Spread(xs) == 1.0 * Square(y) - Square(y);
      } else {
        SpreadNonNegative(prefix);
        SpreadSnoc(xs);
        assert forall k :: 0 <= k < |prefix| ==> prefix[k] == xs[k];
        if Spread(prefix) == 0.0 {
          ConstantMean(prefix, xs[0], y);
        }
      }
    }
  }

  /** The quotient of a square by a positive product it does not exceed lies
      in [0, 1]; it is 1 exactly at equality and positive exactly when the
      squared value is not 0. */
  lemma QuotientBounds(s: real, n: real, q: real)
    requires n > 0.0 && q > 0.0 && Square(s) <= n * q
    ensures 0.0 <= Quotient(s, n, q) <= 1.0
    ensures Quotient(s, n, q) == 1.0 <==> Square(s) == n * q
    ensures Quotient(s, n, q) > 0.0 <==> s != 0.0
  {
    SquareSign(s);
    ProductPositive(n, q);
    DivisionBounds(Square(s), n * q);
  }

  /** Jain's index lies in [0, 1]. */
  lemma JainBounds(ratios: seq<real>)
    ensures 0.0 <= Jain(ratios) <= 1.0
  {
    if ratios != [] && SumSquares(ratios) != 0.0 {
      SpreadNonNegative(ratios);
      SquaresZero(ratios);
      QuotientBounds(Sum(ratios), |ratios| as real, SumSquares(ratios));
    }
  }

  /** Jain's index is positive exactly when some ratio exists and the ratios do
      not sum to zero. */
  lemma JainPositive(ratios: seq<real>)
    ensures Jain(ratios) > 0.0 <==> ratios != [] && Sum(ratios) != 0.0
  {
    if ratios != [] {
      SquaresZero(ratios);
      if SumSquares(ratios) == 0.0 {
        SumsOfConstant(ratios, 0.0);
      } else {
        SpreadNonNegative(ratios);
        QuotientBounds(Sum(ratios), |ratios| as real, SumSquares(ratios));
      }
    }
  }

  /** Jain's index is exactly 1 when, and only when, there is at least one
      ratio, the ratios are all equal, and they are not zero. */
  lemma JainIsOne(ratios: seq<real>)
    ensures Jain(ratios) == 1.0 <==>
      ratios != [] && ratios[0] != 0.0 && forall k :: 0 <= k < |ratios| ==> ratios[k] == ratios[0]
  {
    if ratios != [] {
      SquaresZero(ratios);
      SpreadNonNegative(ratios);
      if SumSquares(ratios) != 0.0 {
        QuotientBounds(Sum(ratios), |ratios| as real, SumSquares(ratios));
      } else {
        assert ratios[0] == 0.0;
      }
    }
  }
}
