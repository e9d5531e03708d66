/** Condition 3: the pullback scan over a trailing window of bars. */
module Pullback {
  import opened Series

  /** Largest `high` in a non-empty window; only the value matters, not where it occurs. */
  function MaxHigh(window: seq<Bar>): (m: real)
    requires |window| > 0
    ensures forall k :: 0 <= k < |window| ==> window[k].high <= m
    ensures exists k :: 0 <= k < |window| && window[k].high == m
  {
    if |window| == 1 then window[0].high
    else
      var rest := MaxHigh(window[..|window| - 1]);
      var last := window[|window| - 1].high;
      assert forall k :: 0 <= k < |window| - 1 ==> window[..|window| - 1][k] == window[k];
      if last > rest then last else rest
  }

  /** The first breakout test: bar `i` opens below the close of bar `i - 1` discounted by `threshold`. */
  predicate PriceDrop(bars: seq<Bar>, threshold: real, i: nat)
    requires 0 < i < |bars|
  {
    bars[i].open < bars[i - 1].close * (1.0 - threshold)
  }

  /** The second breakout test, by reference: bar `i` opens below the high of at least one bar of the
      window `[i - period, i)` (bar `i` itself is not in the window). */
  predicate BelowWindowHigh(bars: seq<Bar>, period: nat, i: nat)
    requires period <= i < |bars|
  {
    exists j :: i - period <= j < i && bars[i].open < bars[j].high
  }

  /** Reference definition of condition 3 at bar `i`: a full window of `period` earlier bars exists
      and both breakout tests pass. */
  predicate PullbackAt(bars: seq<Bar>, period: nat, threshold: real, i: nat)
    requires i < |bars|
  {
    0 < period <= i && PriceDrop(bars, threshold, i) && BelowWindowHigh(bars, period, i)
  }

  /** A price lies below the window maximum exactly when it lies below some bar's high in the window. */
  lemma BelowMaxIff(window: seq<Bar>, x: real)
    requires |window| > 0
    ensures x < MaxHigh(window) <==> exists k :: 0 <= k < |window| && x < window[k].high
  {

  }

  /** The reference definition of the second test agrees with the scan's comparison against the
      window maximum, `previous_high`. */
  lemma BelowWindowHighIffMax(bars: seq<Bar>, period: nat, i: nat)
    requires 0 < period <= i < |bars|
    ensures BelowWindowHigh(bars, period, i) <==> bars[i].open < MaxHigh(bars[i - period..i])
  {
    var window := bars[i - period..i];
    var x := bars[i].open;
    BelowMaxIff(window, x);
    if exists k :: 0 <= k < |window| && x < window[k].high {
      var k :| 0 <= k < |window| && x < window[k].high;
      assert bars[i - period + k] == window[k];
    }
    if exists j :: i - period <= j < i && x < bars[j].high {
      var j :| i - period <= j < i && x < bars[j].high;
      assert window[j - (i - period)] == bars[j];
    }
  }

  /** The scan: every bar starts unflagged, and each bar `i` from `period` on is flagged iff it
      opens below the discounted previous close and below the window's highest high. */
  method FindPullbackBreakout(df: seq<Bar>, period: nat, threshold: real) returns (signals: seq<bool>)
    requires 0 < period
    ensures |signals| == |df|
    ensures forall i :: 0 <= i < |df| ==> (signals[i] <==> PullbackAt(df, period, threshold, i))
    ensures forall i :: 0 <= i < |df| && i < period ==> !signals[i]
  {
    var flags := new bool[|df|](_ => false);
    var i := period;
    while i < |df|
      invariant period <= i
      invariant i > |df| ==> i == period
      invariant forall j :: 0 <= j < flags.Length ==> (flags[j] <==> j < i && PullbackAt(df, period, threshold, j))
    {
      var window := df[i - period..i];
      var currentPrice := df[i];
      var previousHigh := MaxHigh(window);
      var previousClose := window[|window| - 1].close;
      var breakout1 := currentPrice.open < previousClose * (1.0 - threshold);
      var breakout2 := currentPrice.open < previousHigh;
      assert breakout1 == PriceDrop(df, threshold, i);
      BelowWindowHighIffMax(df, period, i);
      flags[i] := breakout1 && breakout2;
      i := i + 1;
    }
    signals := flags[..];
  }

  /** Condition 3 is causal: it reads bars `i - period .. i` only, so two series that agree there
      agree on it, whatever the bars before the window or after `i`. */
  lemma PullbackCausal(bars: seq<Bar>, bars': seq<Bar>, period: nat, threshold: real, i: nat)
    requires i < |bars| && i < |bars'|
    requires forall j :: i - period <= j <= i && 0 <= j ==> bars'[j] == bars[j]
    ensures PullbackAt(bars', period, threshold, i) == PullbackAt(bars, period, threshold, i)
  {

  }

  /** For well-formed bars the price drop implies the second test: with a non-negative threshold and a
      non-negative previous close that does not exceed its own high, opening below the discounted close
      already means opening below the window's highest high. */
  lemma DropImpliesBelowHigh(bars: seq<Bar>, period: nat, threshold: real, i: nat)
    requires 0 < period <= i < |bars|
    requires 0.0 <= threshold && 0.0 <= bars[i - 1].close <= bars[i - 1].high
    ensures PullbackAt(bars, period, threshold, i) <==> PriceDrop(bars, threshold, i)
  {

  }

  /** A bar that opens at the previous close never pulls back, when that close is non-negative and the
      threshold is too: the first breakout test needs the open strictly below the close. */
  lemma OpenAtPreviousCloseNoPullback(bars: seq<Bar>, period: nat, threshold: real, i: nat)
    requires i < |bars| && 0 < i
    requires 0.0 <= threshold && 0.0 <= bars[i - 1].close && bars[i].open == bars[i - 1].close
    ensures !PullbackAt(bars, period, threshold, i)
  {

  }
}
