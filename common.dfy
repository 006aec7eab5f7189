/** Small helper types shared by every module of the model. */
module Common {

  /** A value that may be missing: pandas' NaN, JavaScript's null and undefined. */
  datatype Option<T> = None | Some(value: T)

  function Min(a: int, b: int): int { if a <= b then a else b }

  function Max(a: int, b: int): int { if a >= b then a else b }

  /**
   * One field of a loosely typed JSON record as the browser sees it:
   * `null` or a number (a missing key is the absence of the field).
   */
  datatype Field = Null | Num(x: real)

  /** A JSON object whose values are numbers or null. */
  type Record = map<string, Field>

  /** `np.maximum(prediction, 0)`: a prediction is clamped at zero. */
  function ClampPrediction(x: real): (r: real)
    ensures r >= 0.0 && r >= x
    ensures x >= 0.0 ==> r == x
    ensures x < 0.0 ==> r == 0.0
  {
    if x >= 0.0 then x else 0.0
  }

  /** No value occurs twice. */
  predicate NoDuplicates<T(==)>(s: seq<T>)
  {
    forall i, j :: 0 <= i < j < |s| ==> s[i] != s[j]
  }

  /** pandas' `unique()`: each distinct value once, in order of first appearance. */
  function Distinct<T(==,!new)>(s: seq<T>): (r: seq<T>)
    ensures forall x :: x in r <==> x in s
    ensures NoDuplicates(r)
  {
    if s == [] then []
    else
      var d := Distinct(s[..|s| - 1]);
      assert forall x :: x in s <==> x in s[..|s| - 1] || x == s[|s| - 1];
      if s[|s| - 1] in d then d else d + [s[|s| - 1]]
  }
}
