/** The three ordering policies: each sorts a copy of the job list by its
    key (see `Jobs.Key`), and the sort is stable. */
module Ordering {
  import opened Jobs

  /** `s` is in non-decreasing order of the policy's key. */
  predicate Sorted(s: seq<Job>, p: Policy) {
    forall i, j :: 0 <= i < j < |s| ==> Key(p, s[i]) <= Key(p, s[j])
  }

  /** The jobs of `s` whose key is `k`, in the order they occur in `s`. */
  function WithKey(s: seq<Job>, p: Policy, k: real): seq<Job> {
    if s == [] then []
    else if Key(p, s[0]) == k then [s[0]] + WithKey(s[1..], p, k)
    else WithKey(s[1..], p, k)
  }

  /** Stability: for every key, the jobs carrying that key appear in `output`
      in exactly the order they have in `input`. (This also makes `output` a
      permutation of `input`.) */
  ghost predicate Stable(input: seq<Job>, output: seq<Job>, p: Policy) {
    forall k :: WithKey(output, p, k) == WithKey(input, p, k)
  }

  /** Inserts `x` in front of the first job whose key is not smaller. */
  function Insert(x: Job, s: seq<Job>, p: Policy): (r: seq<Job>)
    ensures |r| == |s| + 1
    ensures multiset(r) == multiset(s) + multiset{x}
  {
    if s == [] || Key(p, x) <= Key(p, s[0]) then [x] + s
    else
      assert s == [s[0]] + s[1..];
      [s[0]] + Insert(x, s[1..], p)
  }

  /** The order a stable sort by the policy's key produces: `[...jobs].sort(cmp)`
      in the Next.js backend and the dashboard, `sorted(jobs, key=...)` in the
      Flask backend. The input sequence itself is a value and is never changed. */
  function SortBy(s: seq<Job>, p: Policy): (r: seq<Job>)
    ensures |r| == |s|
    ensures multiset(r) == multiset(s)
  {
    if s == [] then []
    else
      assert s == [s[0]] + s[1..];
      Insert(s[0], SortBy(s[1..], p), p)
  }

  /** The sort's output is in key order. */
  lemma {:induction false} SortBySorted(s: seq<Job>, p: Policy)
    ensures Sorted(SortBy(s, p), p)
    decreases |s|
  {
    if s != [] {
      SortBySorted(s[1..], p);
      InsertSorted(s[0], SortBy(s[1..], p), p);
    }
  }

  lemma {:induction false} InsertSorted(x: Job, s: seq<Job>, p: Policy)
    requires Sorted(s, p)
    ensures Sorted(Insert(x, s, p), p)
    decreases |s|
  {
    if s != [] && Key(p, x) > Key(p, s[0]) {
      var t := Insert(x, s[1..], p);
      InsertSorted(x, s[1..], p);
      forall j | 0 <= j < |t|
        ensures Key(p, s[0]) <= Key(p, t[j])
      {
        assert t[j] in multiset(t);
        if t[j] != x {
          assert t[j] in multiset(s[1..]);
          var m :| 0 <= m < |s[1..]| && s[1..][m] == t[j];
          assert s[1 + m] == t[j];
        }
      }
      assert Insert(x, s, p) == [s[0]] + t;
    }
  }

  lemma {:induction false} InsertWithKey(x: Job, s: seq<Job>, p: Policy, k: real)
    ensures WithKey(Insert(x, s, p), p, k)
         == if Key(p, x) == k then [x] + WithKey(s, p, k) else WithKey(s, p, k)
    decreases |s|
  {
    if s == [] || Key(p, x) <= Key(p, s[0]) {
      var r := [x] + s;
      assert r[0] == x && r[1..] == s;
    } else {
      var t := Insert(x, s[1..], p);
      var r := [s[0]] + t;
      assert r[0] == s[0] && r[1..] == t;
      InsertWithKey(x, s[1..], p, k);
    }
  }

  lemma {:induction false} SortByWithKey(s: seq<Job>, p: Policy, k: real)
    ensures WithKey(SortBy(s, p), p, k) == WithKey(s, p, k)
    decreases |s|
  {
    if s != [] {
      SortByWithKey(s[1..], p, k);
      InsertWithKey(s[0], SortBy(s[1..], p), p, k);
    }
  }

  /** The sort is stable: jobs with equal keys keep their input order. */
  lemma SortByStable(s: seq<Job>, p: Policy)
    ensures Stable(s, SortBy(s, p), p)
  {
    forall k {
      SortByWithKey(s, p, k);
    }
  }

  /** The weighted policy orders by weight, highest first. */
  lemma SortByWeightedDescending(s: seq<Job>)
    ensures forall i, j :: 0 <= i < j < |s| ==> SortBy(s, Weighted)[i].weight >= SortBy(s, Weighted)[j].weight
  {
    var r := SortBy(s, Weighted);
    SortBySorted(s, Weighted);
    assert forall i, j :: 0 <= i < j < |r| ==> Key(Weighted, r[i]) <= Key(Weighted, r[j]);
  }

  lemma {:induction false} WithKeyMember(s: seq<Job>, p: Policy, k: real, y: Job)
    requires y in WithKey(s, p, k)
    ensures y in s && Key(p, y) == k
    decreases |s|
  {
    if s != [] && !(Key(p, s[0]) == k && y == s[0]) {
      WithKeyMember(s[1..], p, k, y);
    }
  }

  lemma WithKeyHead(s: seq<Job>, p: Policy)
    ensures s != [] ==> WithKey(s, p, Key(p, s[0])) == [s[0]] + WithKey(s[1..], p, Key(p, s[0]))
  {
  }

  /** Two sorted sequences that agree on the order of every key class are
      equal: sortedness and stability determine the output completely. */
  lemma {:induction false} SortedStableUnique(a: seq<Job>, b: seq<Job>, p: Policy)
    requires Sorted(a, p) && Sorted(b, p) && Stable(a, b, p)
    ensures a == b
    decreases |a|
  {
    WithKeyHead(a, p);
    WithKeyHead(b, p);
    if a != [] && b != [] {
      var ka, kb := Key(p, a[0]), Key(p, b[0]);
      assert WithKey(b, p, kb) == [b[0]] + WithKey(b[1..], p, kb);
      WithKeyMember(a, p, kb, b[0]);
      assert WithKey(a, p, ka) == [a[0]] + WithKey(a[1..], p, ka);
      WithKeyMember(b, p, ka, a[0]);
      assert ka <= kb by {
        var i :| 0 <= i < |a| && a[i] == b[0];
        assert i == 0 || Key(p, a[0]) <= Key(p, a[i]);
      }
      assert kb <= ka by {
        var i :| 0 <= i < |b| && b[i] == a[0];
        assert i == 0 || Key(p, b[0]) <= Key(p, b[i]);
      }
      assert WithKey(b, p, ka) == WithKey(a, p, ka);
      assert ([b[0]] + WithKey(b[1..], p, ka))[0] == b[0];
      assert ([a[0]] + WithKey(a[1..], p, ka))[0] == a[0];
      assert a[0] == b[0];
      forall k
        ensures WithKey(b[1..], p, k) == WithKey(a[1..], p, k)
      {
        assert WithKey(b, p, k) == WithKey(a, p, k);
        if k == ka {
          assert ([b[0]] + WithKey(b[1..], p, k))[1..] == WithKey(b[1..], p, k);
          assert ([a[0]] + WithKey(a[1..], p, k))[1..] == WithKey(a[1..], p, k);
        }
      }
      SortedStableUnique(a[1..], b[1..], p);
      assert a == [a[0]] + a[1..] && b == [b[0]] + b[1..];
    }
  }

  /** Any stable sort by the policy's key, in particular JavaScript's
      `Array.prototype.sort` and Python's `sorted` (also with `reverse=True`),
      yields exactly `SortBy`. */
  lemma StableSortIsSortBy(input: seq<Job>, output: seq<Job>, p: Policy)
    requires Sorted(output, p) && Stable(input, output, p)
    ensures output == SortBy(input, p)
  {
    SortByStable(input, p);
    SortBySorted(input, p);
    SortedStableUnique(output, SortBy(input, p), p);
  }
}
