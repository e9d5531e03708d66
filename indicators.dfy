/** The moving-average columns and their per-second slopes. */
module Indicators {
  import opened Wrappers
  import opened Series

  /** Sum of a sequence, peeling off the last element. */
  function Sum(s: seq<real>): (r: real) {
    if |s| == 0 then 0.0 else Sum(s[..|s| - 1]) + s[|s| - 1]
  }

  lemma {:induction false} SumCons(x: real, s: seq<real>)
    ensures Sum([x] + s) == x + Sum(s)
    decreases |s|
  {
    if |s| > 0 {
      assert ([x] + s)[..|s|] == [x] + s[..|s| - 1];
      SumCons(x, s[..|s| - 1]);
    }
  }

  /** The `close` values that make up the trailing window of length `w` ending at bar `i`. */
  function Window(c: seq<real>, w: nat, i: nat): (r: seq<real>)
    requires w <= i + 1 <= |c|
    ensures |r| == w
  {
    c[i + 1 - w..i + 1]
  }

  /** Simple moving average of order `w` at bar `i`: the mean of the `w` closes ending at `i`.
      It is undefined until `w` closes exist. */
  function SmaAt(c: seq<real>, w: nat, i: nat): (r: Option<real>)
    requires 0 < w && i < |c|
  {
    if i + 1 < w then None else Some(Sum(Window(c, w, i)) / (w as real))
  }

  /** The `MA<w>` column. */
  function SmaColumn(c: seq<real>, w: nat): (r: seq<Option<real>>)
    requires 0 < w
    ensures |r| == |c|
  {
    seq(|c|, i requires 0 <= i < |c| => SmaAt(c, w, i))
  }

  /** The slope at bar `i`: first difference of `avg` over the seconds elapsed since bar `i - 1`.
      Undefined at the first bar and wherever either average is undefined. */
  function SlopeAt(avg: seq<Option<real>>, t: seq<int>, i: nat): (r: Option<real>)
    requires |avg| == |t| && i < |avg| && StrictlyIncreasing(t)
  {
    if i == 0 then None
    else if avg[i - 1].Some? && avg[i].Some? then
      Some((avg[i].value - avg[i - 1].value) / ((t[i] - t[i - 1]) as real))
    else None
  }

  /** The `<col>_slope` column. */
  function SlopeColumn(avg: seq<Option<real>>, t: seq<int>): (r: seq<Option<real>>)
    requires |avg| == |t| && StrictlyIncreasing(t)
    ensures |r| == |avg|
  {
    seq(|avg|, i requires 0 <= i < |avg| => SlopeAt(avg, t, i))
  }

  /** The SMA is defined exactly from bar `w - 1` on, and then holds the window mean. */
  lemma SmaDefined(c: seq<real>, w: nat, i: nat)
    requires 0 < w && i < |c|
    ensures SmaColumn(c, w)[i].Some? <==> w <= i + 1
    ensures w <= i + 1 ==> SmaColumn(c, w)[i].value * (w as real) == Sum(c[i + 1 - w..i + 1])
  {
  }

  /** Sliding the window one bar forward adds the entering close and drops the leaving one. */
  lemma SlideSum(c: seq<real>, w: nat, i: nat)
    requires 0 < w <= i < |c|
    ensures Sum(Window(c, w, i)) == Sum(Window(c, w, i - 1)) + c[i] - c[i - w]
  {
    var both := c[i - w..i + 1];
    assert both[..|both| - 1] == Window(c, w, i - 1);
    assert both == [c[i - w]] + Window(c, w, i);
    SumCons(c[i - w], Window(c, w, i));
  }

  /** Between two defined bars the SMA moves by the entering close minus the leaving close, over `w`. */
  lemma SmaStep(c: seq<real>, w: nat, i: nat)
    requires 0 < w <= i < |c|
    ensures SmaAt(c, w, i).Some? && SmaAt(c, w, i - 1).Some?
    ensures SmaAt(c, w, i).value - SmaAt(c, w, i - 1).value == (c[i] - c[i - w]) / (w as real)
  {
    SlideSum(c, w, i);
  }

  /** The SMA rises at bar `i` exactly when the close entering the window exceeds the close leaving it. */
  lemma SmaRisesIff(c: seq<real>, w: nat, i: nat)
    requires 0 < w <= i < |c|
    ensures SmaAt(c, w, i).Some? && SmaAt(c, w, i - 1).Some?
    ensures SmaAt(c, w, i).value > SmaAt(c, w, i - 1).value <==> c[i] > c[i - w]
  {
    SmaStep(c, w, i);
  }

  /** A slope exists exactly at the bars past the first whose average and predecessor are both defined. */
  lemma SlopeDefined(avg: seq<Option<real>>, t: seq<int>, i: nat)
    requires |avg| == |t| && i < |avg| && StrictlyIncreasing(t)
    ensures SlopeColumn(avg, t)[i].Some? <==> 0 < i && avg[i - 1].Some? && avg[i].Some?
  {
  }

  /** With strictly increasing timestamps the slope times the elapsed seconds is the first difference,
      so it has the sign of the first difference. */
  lemma SlopeSign(avg: seq<Option<real>>, t: seq<int>, i: nat)
    requires |avg| == |t| && i < |avg| && StrictlyIncreasing(t)
    requires 0 < i && avg[i - 1].Some? && avg[i].Some?
    ensures SlopeColumn(avg, t)[i].Some?
    ensures SlopeColumn(avg, t)[i].value * ((t[i] - t[i - 1]) as real) == avg[i].value - avg[i - 1].value
    ensures SlopeColumn(avg, t)[i].value > 0.0 <==> avg[i].value > avg[i - 1].value
    ensures SlopeColumn(avg, t)[i].value < 0.0 <==> avg[i].value < avg[i - 1].value
  {
  }

  /** The slope of `MA<w>` is defined exactly from bar `w` on (one bar later than the average itself). */
  lemma SmaSlopeDefined(c: seq<real>, t: seq<int>, w: nat, i: nat)
    requires 0 < w && |c| == |t| && i < |c| && StrictlyIncreasing(t)
    ensures SlopeColumn(SmaColumn(c, w), t)[i].Some? <==> w <= i
  {
    SlopeDefined(SmaColumn(c, w), t, i);
  }

  /** The slope of `MA<w>` at a bar past the warm-up is positive exactly when the close entering the
      window exceeds the close leaving it. */
  lemma SmaSlopePositiveIff(c: seq<real>, t: seq<int>, w: nat, i: nat)
    requires 0 < w <= i < |c| && |c| == |t| && StrictlyIncreasing(t)
    ensures SlopeColumn(SmaColumn(c, w), t)[i].Some?
    ensures SlopeColumn(SmaColumn(c, w), t)[i].value > 0.0 <==> c[i] > c[i - w]
  {
    SmaRisesIff(c, w, i);
    SlopeSign(SmaColumn(c, w), t, i);
  }

  /** The SMA at bar `i` reads only the closes up to bar `i`: truncating the series after `i` keeps it. */
  lemma SmaCausal(c: seq<real>, w: nat, i: nat, k: nat)
    requires 0 < w && i < k <= |c|
    ensures SmaColumn(c[..k], w)[i] == SmaColumn(c, w)[i]
  {
    if w <= i + 1 {
      assert Window(c[..k], w, i) == Window(c, w, i);
    }
  }

  /** The slope at bar `i` reads only bars `i - 1` and `i`: truncating after `i` keeps it. */
  lemma SlopeCausal(avg: seq<Option<real>>, t: seq<int>, avg': seq<Option<real>>, t': seq<int>, i: nat)
    requires |avg| == |t| && i < |avg| && StrictlyIncreasing(t)
    requires |avg'| == |t'| && i < |avg'| && StrictlyIncreasing(t')
    requires avg'[i] == avg[i] && t'[i] == t[i]
    requires 0 < i ==> avg'[i - 1] == avg[i - 1] && t'[i - 1] == t[i - 1]
    ensures SlopeColumn(avg', t')[i] == SlopeColumn(avg, t)[i]
  {
  }
}
