/**
 * The pipeline's split_data (backend/umkm_python_code.py): three boolean
 * filters on the date of the feature frame, at two thresholds.
 */
module PipelineSplit {
  import opened Calendar
  import opened PipelineFeatures

  /** The default thresholds: 2025-03-31 and 2025-06-30. */
  const TrainEnd: Day := 20178
  const ValEnd: Day := 20269

  lemma DefaultThresholds()
    ensures Date(2025, 3, 31) == TrainEnd && Date(2025, 6, 30) == ValEnd
  {
    DaysFromCivilAt(Civil(2025, 3, 31), 2025, 5, 9161);
    DaysFromCivilAt(Civil(2025, 6, 30), 2025, 5, 9252);
  }

  /** `df[mask]` for a mask on the date: the rows that pass, order kept. */
  function Where(rows: seq<FeatureRow>, keep: Day -> bool): (r: seq<FeatureRow>)
    ensures forall x :: x in r ==> x in rows && keep(x.row.date)
  {
    if rows == [] then []
    else
      var n := |rows| - 1;
      if keep(rows[n].row.date) then Where(rows[..n], keep) + [rows[n]] else Where(rows[..n], keep)
  }

  lemma {:induction false} WhereCount(rows: seq<FeatureRow>, keep: Day -> bool, x: FeatureRow)
    ensures multiset(Where(rows, keep))[x] == if keep(x.row.date) then multiset(rows)[x] else 0
  {
    if rows != [] {
      var n := |rows| - 1;
      WhereCount(rows[..n], keep, x);
      assert rows == rows[..n] + [rows[n]];
    }
  }

  datatype SplitParts = SplitParts(train: seq<FeatureRow>, val: seq<FeatureRow>, test: seq<FeatureRow>)

  /** Training up to train_end, validation after it up to val_end, test after val_end. */
  function SplitData(df: seq<FeatureRow>, trainEnd: Day, valEnd: Day): (s: SplitParts)
    ensures forall x :: x in s.train ==> x in df && x.row.date <= trainEnd
    ensures forall x :: x in s.val ==> x in df && trainEnd < x.row.date <= valEnd
    ensures forall x :: x in s.test ==> x in df && valEnd < x.row.date
  {
    SplitParts(Where(df, d => d <= trainEnd), Where(df, d => trainEnd < d <= valEnd), Where(df, d => valEnd < d))
  }

  /**
   * With ordered thresholds every row lands in exactly one part, decided
   * by its date: together the parts hold each row as often as the frame.
   */
  lemma SplitDataPartition(df: seq<FeatureRow>, trainEnd: Day, valEnd: Day)
    requires trainEnd <= valEnd
    ensures var s := SplitData(df, trainEnd, valEnd);
      multiset(s.train) + multiset(s.val) + multiset(s.test) == multiset(df)
      && |s.train| + |s.val| + |s.test| == |df|
  {
    var s := SplitData(df, trainEnd, valEnd);
    forall x ensures (multiset(s.train) + multiset(s.val) + multiset(s.test))[x] == multiset(df)[x] {
      WhereCount(df, d => d <= trainEnd, x);
      WhereCount(df, d => trainEnd < d <= valEnd, x);
      WhereCount(df, d => valEnd < d, x);
    }
    assert multiset(s.train) + multiset(s.val) + multiset(s.test) == multiset(df);
    assert |multiset(s.train) + multiset(s.val) + multiset(s.test)| == |multiset(df)|;
  }

  /** A row is in a part exactly when it is in the frame and its date is in that part's range. */
  lemma SplitDataPlaces(df: seq<FeatureRow>, trainEnd: Day, valEnd: Day, x: FeatureRow)
    ensures var s := SplitData(df, trainEnd, valEnd);
      (x in s.train <==> x in df && x.row.date <= trainEnd)
      && (x in s.val <==> x in df && trainEnd < x.row.date <= valEnd)
      && (x in s.test <==> x in df && valEnd < x.row.date)
  {
    var s := SplitData(df, trainEnd, valEnd);
    WhereCount(df, d => d <= trainEnd, x);
    WhereCount(df, d => trainEnd < d <= valEnd, x);
    WhereCount(df, d => valEnd < d, x);
    assert x in s.train <==> x in multiset(s.train);
    assert x in s.val <==> x in multiset(s.val);
    assert x in s.test <==> x in multiset(s.test);
  }

  /** The parts come out in frame order: each is a subsequence of the frame. */
  lemma {:induction false} WhereKeepsOrder(rows: seq<FeatureRow>, keep: Day -> bool, more: seq<FeatureRow>)
    ensures Where(rows + more, keep) == Where(rows, keep) + Where(more, keep)
  {
    if more == [] {
      assert rows + more == rows;
    } else {
      var n, c := |more| - 1, rows + more;
      WhereKeepsOrder(rows, keep, more[..n]);
      assert c[..|c| - 1] == rows + more[..n] && c[|c| - 1] == more[n];
    }
  }

  /** With the thresholds reversed a row dated between them would land in training and in test. */
  lemma ReversedThresholdsOverlap(x: FeatureRow, trainEnd: Day, valEnd: Day)
    requires valEnd < x.row.date <= trainEnd
    ensures var s := SplitData([x], trainEnd, valEnd); x in s.train && x in s.test
  {
    SplitDataPlaces([x], trainEnd, valEnd, x);
  }
}
