/** Finite integer sums: the aggregate every ledger, escrow and reservation total is built from. */
module Sums {

  function Sum(s: seq<int>): int {
    if |s| == 0 then 0 else Sum(s[..|s| - 1]) + s[|s| - 1]
  }

  lemma {:induction false} SumAppend(s: seq<int>, x: int)
    ensures Sum(s + [x]) == Sum(s) + x
  {
    assert (s + [x])[..|s|] == s;
  }

  lemma {:induction false} SumConcat(s: seq<int>, t: seq<int>)
    ensures Sum(s + t) == Sum(s) + Sum(t)
  {
    if |t| == 0 {
      assert s + t == s;
    } else {
      var init := t[..|t| - 1];
      SumConcat(s, init);
      assert (s + t)[..|s + t| - 1] == s + init;
    }
  }

  lemma {:induction false} SumUpdate(s: seq<int>, k: nat, v: int)
    requires k < |s|
    ensures Sum(s[k := v]) == Sum(s) - s[k] + v
  {
    var n := |s| - 1;
    if k < n {
      SumUpdate(s[..n], k, v);
      assert s[k := v][..n] == s[..n][k := v];
    } else {
      assert s[k := v][..n] == s[..n];
    }
  }

  /** A sum is monotone in its terms; with `t` all zero it is a sign rule. */
  lemma {:induction false} SumMonotone(s: seq<int>, t: seq<int>)
    requires |s| == |t|
    requires forall i :: 0 <= i < |s| ==> s[i] <= t[i]
    ensures Sum(s) <= Sum(t)
  {
    if |s| > 0 {
      SumMonotone(s[..|s| - 1], t[..|t| - 1]);
    }
  }

  lemma {:induction false} SumNonNegative(s: seq<int>)
    requires forall i :: 0 <= i < |s| ==> 0 <= s[i]
    ensures 0 <= Sum(s)
  {
    if |s| > 0 {
      SumNonNegative(s[..|s| - 1]);
    }
  }

  /** A term of a non-negative sum never exceeds the sum. */
  lemma {:induction false} TermAtMostSum(s: seq<int>, k: nat)
    requires k < |s|
    requires forall i :: 0 <= i < |s| ==> 0 <= s[i]
    ensures s[k] <= Sum(s)
  {
    SumUpdate(s, k, 0);
    SumNonNegative(s[k := 0]);
  }

  lemma {:induction false} SumZero(s: seq<int>)
    requires forall i :: 0 <= i < |s| ==> s[i] == 0
    ensures Sum(s) == 0
  {
    if |s| > 0 {
      SumZero(s[..|s| - 1]);
    }
  }

  /** Pointwise `a*s + b*t` sums to the same combination of the sums. */
  lemma {:induction false} SumLinear(a: int, s: seq<int>, b: int, t: seq<int>, r: seq<int>)
    requires |s| == |t| == |r|
    requires forall i :: 0 <= i < |s| ==> r[i] == a * s[i] + b * t[i]
    ensures Sum(r) == a * Sum(s) + b * Sum(t)
  {
    if |s| > 0 {
      SumLinear(a, s[..|s| - 1], b, t[..|t| - 1], r[..|r| - 1]);
    }
  }
}
