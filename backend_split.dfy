/**
 * The backend's chronological split of one product's rows into training,
 * validation and test parts (backend/main.py, split_product_timeseries).
 */
module BackendSplit {
  import opened Sorting

  datatype Split<T> = Split(train: seq<T>, val: seq<T>, test: seq<T>)

  /** `int(n * 0.70)`. */
  function TrainEnd(n: nat): (k: nat)
    ensures 10 * k <= 7 * n < 10 * k + 10
  {
    n * 7 / 10
  }

  /** `int(n * (0.70 + 0.15))`. */
  function ValEnd(n: nat): (k: nat)
    ensures 20 * k <= 17 * n < 20 * k + 20
  {
    n * 17 / 20
  }

  /** The cut points are ordered: `train_end <= val_end <= n`. */
  lemma CutPointsOrdered(n: nat)
    ensures TrainEnd(n) <= ValEnd(n) <= n
  {
  }

  function DateKey<T>(date: T -> int): T -> real
  {
    r => date(r) as real
  }

  /** Every row of `a` is dated no later than every row of `b`. */
  predicate NotLater<T>(a: seq<T>, b: seq<T>, date: T -> int)
  {
    forall i, j :: 0 <= i < |a| && 0 <= j < |b| ==> date(a[i]) <= date(b[j])
  }

  /**
   * Sorts one product's rows by date and cuts them at the 70% and 85%
   * marks. The parts are date-ordered, follow each other in time, and
   * together hold exactly the input rows.
   */
  function SplitProductTimeseries<T>(rows: seq<T>, date: T -> int): (s: Split<T>)
    ensures |s.train| == TrainEnd(|rows|) && |s.train| + |s.val| == ValEnd(|rows|)
    ensures |s.train| + |s.val| + |s.test| == |rows|
    ensures multiset(s.train + s.val + s.test) == multiset(rows)
    ensures SortedBy(s.train + s.val + s.test, DateKey(date))
    ensures NotLater(s.train, s.val, date) && NotLater(s.val, s.test, date) && NotLater(s.train, s.test, date)
  {
    var sorted := SortBy(rows, DateKey(date));
    SortByCorrect(rows, DateKey(date));
    var n := |rows|;
    CutPointsOrdered(n);
    var s := Split(sorted[..TrainEnd(n)], sorted[TrainEnd(n)..ValEnd(n)], sorted[ValEnd(n)..]);
    assert s.train + s.val + s.test == sorted;
    CutsOrdered(sorted, TrainEnd(n), ValEnd(n), date);
    s
  }

  lemma CutsOrdered<T>(s: seq<T>, a: nat, b: nat, date: T -> int)
    requires a <= b <= |s| && SortedBy(s, DateKey(date))
    ensures NotLater(s[..a], s[a..b], date) && NotLater(s[a..b], s[b..], date) && NotLater(s[..a], s[b..], date)
  {
    forall i, j | 0 <= i < a && 0 <= j < b - a ensures date(s[..a][i]) <= date(s[a..b][j]) {
      assert DateKey(date)(s[i]) <= DateKey(date)(s[a + j]);
    }
    forall i, j | 0 <= i < b - a && 0 <= j < |s| - b ensures date(s[a..b][i]) <= date(s[b..][j]) {
      assert DateKey(date)(s[a + i]) <= DateKey(date)(s[b + j]);
    }
    forall i, j | 0 <= i < a && 0 <= j < |s| - b ensures date(s[..a][i]) <= date(s[b..][j]) {
      assert DateKey(date)(s[i]) <= DateKey(date)(s[b + j]);
    }
  }

  /** A product with any rows gets a test part, and one with two or more rows a training part. */
  lemma PartsNonEmpty<T>(rows: seq<T>, date: T -> int)
    ensures |rows| >= 1 ==> |SplitProductTimeseries(rows, date).test| >= 1
    ensures |rows| >= 2 ==> |SplitProductTimeseries(rows, date).train| >= 1
  {
  }

  /** With 20 rows the parts hold 14, 3 and 3. */
  lemma TwentyRows<T>(rows: seq<T>, date: T -> int)
    requires |rows| == 20
    ensures var s := SplitProductTimeseries(rows, date); |s.train| == 14 && |s.val| == 3 && |s.test| == 3
  {
  }
}
