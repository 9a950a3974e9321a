/** Sums over sequences, products and pigeonhole facts, used by the protocols with a variable number of agents. */
module Sequences {

  function SumBy<T>(f: T -> int, s: seq<T>): int {
    if s == [] then 0 else f(s[0]) + SumBy(f, s[1..])
  }

  /** Replacing one element changes the sum by the difference of the two terms. */
  lemma {:induction false} SumUpdate<T>(f: T -> int, s: seq<T>, i: nat, v: T)
    requires i < |s|
    ensures SumBy(f, s[i := v]) == SumBy(f, s) - f(s[i]) + f(v)
  {
    if i == 0 {
      assert s[i := v][1..] == s[1..];
    } else {
      assert s[i := v][1..] == s[1..][i - 1 := v];
      SumUpdate(f, s[1..], i - 1, v);
    }
  }

  /** The sum depends on the terms only. */
  lemma {:induction false} SumSame<T>(f: T -> int, s: seq<T>, t: seq<T>)
    requires |s| == |t| && forall i :: 0 <= i < |s| ==> f(s[i]) == f(t[i])
    ensures SumBy(f, s) == SumBy(f, t)
  {
    if s == [] {
    } else {
      SumSame(f, s[1..], t[1..]);
    }
  }

  /** A sum of non-negative terms is non-negative, and at least each of its terms. */
  lemma {:induction false} SumAtLeast<T>(f: T -> int, s: seq<T>)
    requires forall i :: 0 <= i < |s| ==> 0 <= f(s[i])
    ensures 0 <= SumBy(f, s)
    ensures forall i :: 0 <= i < |s| ==> f(s[i]) <= SumBy(f, s)
  {
    if s == [] {
    } else {
      SumAtLeast(f, s[1..]);
      forall i | 0 <= i < |s| ensures f(s[i]) <= SumBy(f, s) {
        assert i > 0 ==> s[i] == s[1..][i - 1];
      }
    }
  }

  /** A positive sum has a positive term. */
  lemma {:induction false} PositiveTerm<T>(f: T -> int, s: seq<T>) returns (i: nat)
    requires SumBy(f, s) > 0
    ensures i < |s| && f(s[i]) > 0
  {
    if f(s[0]) > 0 {
      i := 0;
    } else {
      i := PositiveTerm(f, s[1..]);
      i := i + 1;
    }
  }

  /** A sum of terms of at most `hi` reaches `hi * |s|` exactly when every term is `hi`. */
  lemma {:induction false} SumFull<T>(f: T -> int, s: seq<T>, hi: int)
    requires forall i :: 0 <= i < |s| ==> f(s[i]) <= hi
    ensures SumBy(f, s) <= hi * |s|
    ensures SumBy(f, s) == hi * |s| <==> forall i :: 0 <= i < |s| ==> f(s[i]) == hi
  {
    if s == [] {
    } else {
      SumFull(f, s[1..], hi);
      assert hi * |s| == hi + hi * |s[1..]|;
      assert forall i :: 0 < i < |s| ==> s[i] == s[1..][i - 1];
      if SumBy(f, s) == hi * |s| {
        forall i | 0 <= i < |s| ensures f(s[i]) == hi {
          assert i > 0 ==> s[i] == s[1..][i - 1];
        }
      }
    }
  }

  ghost predicate Distinct(q: seq<int>) {
    forall i, j :: 0 <= i < j < |q| ==> q[i] != q[j]
  }

  ghost predicate Within(q: seq<int>, n: nat) {
    forall i :: 0 <= i < |q| ==> 0 <= q[i] < n
  }

  lemma WithinNonempty(q: seq<int>, n: nat)
    requires Within(q, n) && q != []
    ensures 0 < n
  {
    assert 0 <= q[0] < n;
  }

  /** Pigeonhole: distinct numbers below `n` are at most `n` many. */
  lemma {:induction false} PigeonLength(q: seq<int>, n: nat)
    requires Distinct(q) && Within(q, n)
    ensures |q| <= n
  {
    if q == [] {
    } else {
      WithinNonempty(q, n);
      if n - 1 in q {
        var k :| 0 <= k < |q| && q[k] == n - 1;
        PigeonLength(q[..k] + q[k + 1..], n - 1);
      } else {
        PigeonLength(q, n - 1);
      }
    }
  }

  /** `n` distinct numbers below `n` are all of them. */
  lemma PigeonFull(q: seq<int>, n: nat)
    requires Distinct(q) && Within(q, n) && |q| == n
    ensures forall i :: 0 <= i < n ==> i in q
  {
    forall i | 0 <= i < n ensures i in q {
      if i !in q {
        PigeonLength(q + [i], n);
      }
    }
  }

  /** Fewer than `n` distinct numbers below `n` leave one out. */
  lemma {:induction false} PigeonMissing(q: seq<int>, n: nat) returns (i: nat)
    requires |q| < n
    ensures i < n && i !in q
  {
    if n - 1 !in q {
      i := n - 1;
    } else {
      var k :| 0 <= k < |q| && q[k] == n - 1;
      i := PigeonMissing(q[..k] + q[k + 1..], n - 1);
      assert forall j :: 0 <= j < |q| && j != k ==> q[j] in q[..k] + q[k + 1..] by {
        forall j | 0 <= j < |q| && j != k ensures q[j] in q[..k] + q[k + 1..] {
          assert j < k ==> q[j] == (q[..k] + q[k + 1..])[j];
          assert j > k ==> q[j] == (q[..k] + q[k + 1..])[j - 1];
        }
      }
    }
  }

  lemma MultiplyMonotone(w: nat, a: nat, b: nat)
    requires a <= b
    ensures w * a <= w * b
  {
    assert w * b == w * a + w * (b - a);
  }

  lemma Distribute(x: int, y: int)
    ensures x * (y + 1) == x * y + x
  {
  }
}
