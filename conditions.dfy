/** Conditions 1 and 2 and the final conjunction, element by element over aligned slope columns.
    An undefined operand makes a comparison false, as a comparison with NaN is in pandas. */
module Conditions {
  import opened Wrappers

  function Abs(x: real): (r: real) { if x < 0.0 then -x else x }

  /** Two slopes are parallel when both exist and differ by less than the tolerance. */
  predicate Parallel(a: Option<real>, b: Option<real>, tolerance: real) {
    a.Some? && b.Some? && Abs(a.value - b.value) < tolerance
  }

  /** A slope is positive when it exists and is strictly above zero. */
  predicate Positive(a: Option<real>) {
    a.Some? && a.value > 0.0
  }

  /** Condition 1: the EMA slope and the long-MA slope are parallel. */
  function Condition1(emaSlope: seq<Option<real>>, longSlope: seq<Option<real>>, tolerance: real): (r: seq<bool>)
    requires |emaSlope| == |longSlope|
    ensures |r| == |emaSlope|
    ensures forall i :: 0 <= i < |r| ==>
              (r[i] <==> emaSlope[i].Some? && longSlope[i].Some? &&
                         -tolerance < emaSlope[i].value - longSlope[i].value < tolerance)
  {
    seq(|emaSlope|, i requires 0 <= i < |emaSlope| => Parallel(emaSlope[i], longSlope[i], tolerance))
  }

  /** Condition 2: starts from "EMA slope and long-MA slope positive" and ANDs in "mid slope positive"
      for each mid period in turn. */
  method Condition2(emaSlope: seq<Option<real>>, longSlope: seq<Option<real>>, midSlopes: seq<seq<Option<real>>>)
    returns (c2: seq<bool>)
    requires |emaSlope| == |longSlope|
    requires forall k :: 0 <= k < |midSlopes| ==> |midSlopes[k]| == |emaSlope|
    ensures |c2| == |emaSlope|
    ensures forall i :: 0 <= i < |c2| ==>
              (c2[i] <==> emaSlope[i].Some? && emaSlope[i].value > 0.0 &&
                          longSlope[i].Some? && longSlope[i].value > 0.0 &&
                          forall k :: 0 <= k < |midSlopes| ==> midSlopes[k][i].Some? && midSlopes[k][i].value > 0.0)
  {
    var n := |emaSlope|;
    c2 := seq(n, i requires 0 <= i < n => Positive(emaSlope[i]) && Positive(longSlope[i]));
    for k := 0 to |midSlopes|
      invariant |c2| == n
      invariant forall i :: 0 <= i < n ==>
                  (c2[i] <==> Positive(emaSlope[i]) && Positive(longSlope[i]) &&
                              forall m :: 0 <= m < k ==> Positive(midSlopes[m][i]))
    {
      var prev := c2;
      var mid := midSlopes[k];
      c2 := seq(n, i requires 0 <= i < n => prev[i] && Positive(mid[i]));
    }
  }

  /** The signal: a bar signals exactly when all three conditions hold there. */
  function Conjunction(c1: seq<bool>, c2: seq<bool>, c3: seq<bool>): (r: seq<bool>)
    requires |c1| == |c2| == |c3|
    ensures |r| == |c1|
    ensures forall i :: 0 <= i < |r| ==> (r[i] <==> c1[i] && c2[i] && c3[i])
  {
    seq(|c1|, i requires 0 <= i < |c1| => c1[i] && c2[i] && c3[i])
  }
}
