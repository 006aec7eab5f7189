/**
 * The prediction clamp of the pipeline's evaluate_model
 * (backend/umkm_python_code.py): predictions are raised to 0 before the
 * errors are measured. The error metrics themselves are library calls;
 * the mean absolute error is stated here to show what the clamp does to it.
 */
module PipelineEvaluate {
  import opened Common

  /** `np.maximum(y_pred, 0)` on the whole prediction vector. */
  function ClampAll(pred: seq<real>): (r: seq<real>)
    ensures |r| == |pred|
    ensures forall i :: 0 <= i < |pred| ==> r[i] == ClampPrediction(pred[i])
  {
    seq(|pred|, i requires 0 <= i < |pred| => ClampPrediction(pred[i]))
  }

  function AbsError(actual: real, predicted: real): real
  {
    if actual >= predicted then actual - predicted else predicted - actual
  }

  function TotalAbsError(actual: seq<real>, pred: seq<real>): real
    requires |actual| == |pred|
  {
    if actual == [] then 0.0
    else
      var n := |actual| - 1;
      TotalAbsError(actual[..n], pred[..n]) + AbsError(actual[n], pred[n])
  }

  /** The mean absolute error over a non-empty test set. */
  function MeanAbsError(actual: seq<real>, pred: seq<real>): real
    requires |actual| == |pred| > 0
  {
    TotalAbsError(actual, pred) / |actual| as real
  }

  /** Against non-negative sales no clamped prediction is farther off than the raw one. */
  lemma ClampNeverFartherOff(actual: real, predicted: real)
    requires actual >= 0.0
    ensures AbsError(actual, ClampPrediction(predicted)) <= AbsError(actual, predicted)
    ensures predicted < 0.0 ==> AbsError(actual, ClampPrediction(predicted)) < AbsError(actual, predicted)
  {
  }

  lemma {:induction false} ClampNeverRaisesTotalError(actual: seq<real>, pred: seq<real>)
    requires |actual| == |pred|
    requires forall i :: 0 <= i < |actual| ==> actual[i] >= 0.0
    ensures TotalAbsError(actual, ClampAll(pred)) <= TotalAbsError(actual, pred)
  {
    if actual != [] {
      var n := |actual| - 1;
      assert ClampAll(pred)[..n] == ClampAll(pred[..n]);
      ClampNeverRaisesTotalError(actual[..n], pred[..n]);
      ClampNeverFartherOff(actual[n], pred[n]);
    }
  }

  /** Hence on sales data the clamp never makes the reported MAE worse. */
  lemma ClampNeverRaisesMeanError(actual: seq<real>, pred: seq<real>)
    requires |actual| == |pred| > 0
    requires forall i :: 0 <= i < |actual| ==> actual[i] >= 0.0
    ensures MeanAbsError(actual, ClampAll(pred)) <= MeanAbsError(actual, pred)
  {
    ClampNeverRaisesTotalError(actual, pred);
    DivideMonotone(TotalAbsError(actual, ClampAll(pred)), TotalAbsError(actual, pred), |actual| as real);
  }

  lemma DivideMonotone(a: real, b: real, n: real)
    requires a <= b && n > 0.0
    ensures a / n <= b / n
  {
  }

  /** Predictions that are already non-negative pass through unchanged. */
  lemma ClampKeepsNonNegative(pred: seq<real>)
    requires forall i :: 0 <= i < |pred| ==> pred[i] >= 0.0
    ensures ClampAll(pred) == pred
  {
  }
}
