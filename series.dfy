/**
 * The pandas column operations that the feature code applies to one
 * product's series, given in date order: `shift`, `rolling(w,
 * min_periods=1)` over the shifted series, `diff` and `fillna(0)`. A
 * missing value (NaN) is `None`.
 */
module Series {
  import opened Common

  function Sum(s: seq<int>): int
  {
    if s == [] then 0 else Sum(s[..|s| - 1]) + s[|s| - 1]
  }

  function Mean(s: seq<int>): real
    requires |s| > 0
  {
    Sum(s) as real / |s| as real
  }

  function MaxOf(s: seq<int>): (m: int)
    requires |s| > 0
    ensures m in s
    ensures forall x :: x in s ==> x <= m
  {
    if |s| == 1 then s[0]
    else
      var rest := MaxOf(s[1..]);
      assert s == [s[0]] + s[1..];
      if s[0] >= rest then s[0] else rest
  }

  function MinOf(s: seq<int>): (m: int)
    requires |s| > 0
    ensures m in s
    ensures forall x :: x in s ==> m <= x
  {
    if |s| == 1 then s[0]
    else
      var rest := MinOf(s[1..]);
      assert s == [s[0]] + s[1..];
      if s[0] <= rest then s[0] else rest
  }

  lemma {:induction false} SumBounds(s: seq<int>, lo: int, hi: int)
    requires forall k :: 0 <= k < |s| ==> lo <= s[k] <= hi
    ensures |s| * lo <= Sum(s) <= |s| * hi
  {
    if s != [] {
      assert s[..|s| - 1] + [s[|s| - 1]] == s;
      SumBounds(s[..|s| - 1], lo, hi);
    }
  }

  /** A mean lies between the smallest and the largest value averaged. */
  lemma MeanWithinRange(s: seq<int>)
    requires |s| > 0
    ensures MinOf(s) as real <= Mean(s) <= MaxOf(s) as real
  {
    var lo, hi, n := MinOf(s), MaxOf(s), |s|;
    assert forall k :: 0 <= k < n ==> s[k] in s;
    SumBounds(s, lo, hi);
    QuotientBounds(Sum(s), n, lo, hi);
  }

  /** Integer bounds on a sum carry over to its real quotient by the count. */
  lemma QuotientBounds(sum: int, n: int, lo: int, hi: int)
    requires n > 0 && n * lo <= sum <= n * hi
    ensures lo as real <= sum as real / n as real <= hi as real
  {
    var q := sum as real / n as real;
    assert q * n as real == sum as real;
  }

  /** `shift(k)` at row i: the value k rows earlier, missing for the first k rows. */
  function Lag(s: seq<int>, k: nat, i: nat): (r: Option<int>)
    requires i < |s|
    ensures r.Some? <==> i >= k
    ensures r.Some? ==> r.value == s[i - k]
  {
    if i >= k then Some(s[i - k]) else None
  }

  /**
   * The values that `shift(1).rolling(w, min_periods=1)` aggregates at row
   * i: the last (at most) w values strictly before row i.
   */
  function PastWindow(s: seq<int>, w: nat, i: nat): (r: seq<int>)
    requires i <= |s|
    ensures |r| == Min(i, w)
    ensures forall j :: 0 <= j < |r| ==> r[j] == s[i - |r| + j]
  {
    s[i - Min(i, w)..i]
  }

  /** `shift(1).rolling(w, min_periods=1).mean()` at row i: missing only at the first row. */
  function RollingMean(s: seq<int>, w: nat, i: nat): (r: Option<real>)
    requires i <= |s| && w > 0
    ensures r.None? <==> i == 0
    ensures r.Some? ==> r.value * Min(i, w) as real == Sum(PastWindow(s, w, i)) as real
  {
    if i == 0 then None else Some(Mean(PastWindow(s, w, i)))
  }

  /** `shift(1).rolling(w, min_periods=1).max()` at row i: the largest of the past window. */
  function RollingMax(s: seq<int>, w: nat, i: nat): (r: Option<int>)
    requires i <= |s| && w > 0
    ensures r.None? <==> i == 0
    ensures r.Some? ==> r.value in PastWindow(s, w, i) && forall x :: x in PastWindow(s, w, i) ==> x <= r.value
  {
    if i == 0 then None else Some(MaxOf(PastWindow(s, w, i)))
  }

  /** `shift(1).rolling(w, min_periods=1).min()` at row i: the smallest of the past window. */
  function RollingMin(s: seq<int>, w: nat, i: nat): (r: Option<int>)
    requires i <= |s| && w > 0
    ensures r.None? <==> i == 0
    ensures r.Some? ==> r.value in PastWindow(s, w, i) && forall x :: x in PastWindow(s, w, i) ==> r.value <= x
  {
    if i == 0 then None else Some(MinOf(PastWindow(s, w, i)))
  }

  /** `diff(k)` at row i: the row's value less `shift(k)`, missing for the first k rows. */
  function Difference(s: seq<int>, k: nat, i: nat): (r: Option<int>)
    requires i < |s|
    ensures r.Some? <==> Lag(s, k, i).Some?
    ensures r.Some? ==> r.value == s[i] - Lag(s, k, i).value
  {
    if i >= k then Some(s[i] - s[i - k]) else None
  }

  /** `fillna(0)` on an integer column. */
  function OrZero(v: Option<int>): int
  {
    if v.Some? then v.value else 0
  }

  /** `fillna(0)` on a real column. */
  function OrZeroReal(v: Option<real>): real
  {
    if v.Some? then v.value else 0.0
  }

  /** The rolling maximum is one of the last w values before row i and no smaller than any of them. */
  lemma RollingMaxIsPastMaximum(s: seq<int>, w: nat, i: nat)
    requires 0 < i <= |s| && w > 0
    ensures RollingMax(s, w, i).Some?
    ensures exists j :: i - Min(i, w) <= j < i && RollingMax(s, w, i).value == s[j]
    ensures forall j :: i - Min(i, w) <= j < i ==> s[j] <= RollingMax(s, w, i).value
  {
    var win := PastWindow(s, w, i);
    var m := MaxOf(win);
    var k :| 0 <= k < |win| && win[k] == m;
    assert s[i - |win| + k] == m;
    forall j | i - Min(i, w) <= j < i ensures s[j] <= m {
      assert win[j - (i - |win|)] == s[j];
      assert win[j - (i - |win|)] in win;
    }
  }

  /** The rolling minimum is one of the last w values before row i and no larger than any of them. */
  lemma RollingMinIsPastMinimum(s: seq<int>, w: nat, i: nat)
    requires 0 < i <= |s| && w > 0
    ensures RollingMin(s, w, i).Some?
    ensures exists j :: i - Min(i, w) <= j < i && RollingMin(s, w, i).value == s[j]
    ensures forall j :: i - Min(i, w) <= j < i ==> RollingMin(s, w, i).value <= s[j]
  {
    var win := PastWindow(s, w, i);
    var m := MinOf(win);
    var k :| 0 <= k < |win| && win[k] == m;
    assert s[i - |win| + k] == m;
    forall j | i - Min(i, w) <= j < i ensures m <= s[j] {
      assert win[j - (i - |win|)] == s[j];
      assert win[j - (i - |win|)] in win;
    }
  }

  /** Rolling minimum <= rolling mean <= rolling maximum on every row after the first. */
  lemma RollingMeanBetween(s: seq<int>, w: nat, i: nat)
    requires 0 < i <= |s| && w > 0
    ensures RollingMin(s, w, i).value as real <= RollingMean(s, w, i).value <= RollingMax(s, w, i).value as real
  {
    MeanWithinRange(PastWindow(s, w, i));
  }

  /** Every rolling statistic at row i is a function of the rows before i alone. */
  lemma RollingIsCausal(s: seq<int>, t: seq<int>, w: nat, i: nat)
    requires i <= |s| && i <= |t| && w > 0
    requires s[..i] == t[..i]
    ensures RollingMean(s, w, i) == RollingMean(t, w, i)
    ensures RollingMax(s, w, i) == RollingMax(t, w, i)
    ensures RollingMin(s, w, i) == RollingMin(t, w, i)
  {
    var a, b := PastWindow(s, w, i), PastWindow(t, w, i);
    assert a == b by {
      forall j | 0 <= j < |a| ensures a[j] == b[j] {
        assert s[..i][i - |a| + j] == t[..i][i - |a| + j];
      }
    }
  }
}
