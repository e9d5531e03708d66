/** What the engine promises about its signal series, stated over the reference definitions. */
module Properties {
  import opened Wrappers
  import opened Series
  import opened Indicators
  import opened Pullback
  import opened Conditions
  import opened Strategy

  /** No signal during warm-up: a bar signals only once the pullback window is full, the long and every
      mid moving average have a slope (bar index at least their window), and the EMA is defined at the
      bar and the one before it. An undefined operand never yields a true condition. */
  lemma SignalWarmup(bars: seq<Bar>, ema: seq<Option<real>>, p: Params, i: nat)
    requires |ema| == |bars| && StrictlyIncreasing(Times(bars)) && ValidParams(p) && i < |bars|
    requires SignalAt(bars, ema, p, i)
    ensures p.compressionPeriod <= i && p.maLongPeriod <= i
    ensures forall k :: 0 <= k < |p.maMidPeriods| ==> p.maMidPeriods[k] <= i
    ensures 0 < i && ema[i - 1].Some? && ema[i].Some?
  {
    SmaSlopeDefined(Closes(bars), Times(bars), p.maLongPeriod, i);
    SlopeDefined(ema, Times(bars), i);
    forall k | 0 <= k < |p.maMidPeriods|
      ensures p.maMidPeriods[k] <= i
    {
      assert Positive(MaSlope(bars, p.maMidPeriods[k])[i]);
      SmaSlopeDefined(Closes(bars), Times(bars), p.maMidPeriods[k], i);
    }
  }

  /** A series no longer than the pullback window, the long window or one of the mid windows yields
      an all-false signal series. So does one no longer than the EMA window when the EMA column is
      undefined before bar `ema_period - 1`. */
  lemma ShortSeriesNoSignal(bars: seq<Bar>, ema: seq<Option<real>>, p: Params)
    requires |ema| == |bars| && StrictlyIncreasing(Times(bars)) && ValidParams(p)
    requires || |bars| <= p.compressionPeriod
             || |bars| <= p.maLongPeriod
             || (exists k :: 0 <= k < |p.maMidPeriods| && |bars| <= p.maMidPeriods[k])
             || (|bars| <= p.emaPeriod && forall j :: 0 <= j < |ema| && j + 1 < p.emaPeriod ==> ema[j].None?)
    ensures forall i :: 0 <= i < |bars| ==> !SignalAt(bars, ema, p, i)
  {
    forall i | 0 <= i < |bars|
      ensures !SignalAt(bars, ema, p, i)
    {
      if SignalAt(bars, ema, p, i) {
        SignalWarmup(bars, ema, p, i);
      }
    }
  }

  /** With the default parameters no bar before index 111 (the long window) signals. */
  lemma DefaultWarmup(bars: seq<Bar>, ema: seq<Option<real>>, i: nat)
    requires |ema| == |bars| && StrictlyIncreasing(Times(bars)) && i < |bars|
    ensures ValidParams(DefaultParams)
    ensures SignalAt(bars, ema, DefaultParams, i) ==> 111 <= i
  {
    if SignalAt(bars, ema, DefaultParams, i) {
      SignalWarmup(bars, ema, DefaultParams, i);
    }
  }

  /** Condition 1 propagates undefined values: it can hold at bar `i` only once the long average has a
      slope (bar index at least its window) and the EMA is defined at the bar and the one before it. */
  lemma Condition1Warmup(bars: seq<Bar>, ema: seq<Option<real>>, p: Params, i: nat)
    requires |ema| == |bars| && StrictlyIncreasing(Times(bars)) && ValidParams(p) && i < |bars|
    requires Condition1At(bars, ema, p, i)
    ensures 0 < i && p.maLongPeriod <= i && ema[i - 1].Some? && ema[i].Some?
  {
    SmaSlopeDefined(Closes(bars), Times(bars), p.maLongPeriod, i);
    SlopeDefined(ema, Times(bars), i);
  }

  /** Condition 1 compares first differences: the slopes of two columns defined at bars `i - 1` and
      `i` (for condition 1, the EMA and `MA<ma_long_period>` columns) are parallel iff the columns'
      changes over the bar differ by less than the tolerance times the `dt` seconds elapsed. */
  lemma ParallelSlopes(a: seq<Option<real>>, b: seq<Option<real>>, t: seq<int>, i: nat, tolerance: real, dt: real)
    requires |a| == |b| == |t| && 0 < i < |a| && StrictlyIncreasing(t)
    requires a[i - 1].Some? && a[i].Some? && b[i - 1].Some? && b[i].Some?
    requires dt == (t[i] - t[i - 1]) as real
    ensures Parallel(SlopeColumn(a, t)[i], SlopeColumn(b, t)[i], tolerance) <==>
            -tolerance * dt < (a[i].value - a[i - 1].value) - (b[i].value - b[i - 1].value) < tolerance * dt
  {
    SlopeSign(a, t, i);
    SlopeSign(b, t, i);
    ScaledParallel(SlopeColumn(a, t)[i], SlopeColumn(b, t)[i], a[i].value - a[i - 1].value,
                   b[i].value - b[i - 1].value, dt, tolerance);
  }

  /** Two defined slopes that are first differences over the same positive time step `dt` are
      parallel iff their differences agree within the tolerance scaled by `dt`. */
  lemma ScaledParallel(a: Option<real>, b: Option<real>, da: real, db: real, dt: real, tolerance: real)
    requires 0.0 < dt && a.Some? && b.Some?
    requires a.value * dt == da && b.value * dt == db
    ensures Parallel(a, b, tolerance) <==> -tolerance * dt < da - db < tolerance * dt
  {
    var x := a.value - b.value;
    assert x * dt == da - db;
    assert x < tolerance <==> x * dt < tolerance * dt;
    assert -tolerance < x <==> -tolerance * dt < x * dt;
  }

  /** Truncating the series after bar `k - 1` and re-running reproduces every signal before `k`:
      no bar's signal reads a later bar. */
  lemma SignalPrefix(bars: seq<Bar>, ema: seq<Option<real>>, p: Params, k: nat, i: nat)
    requires |ema| == |bars| && StrictlyIncreasing(Times(bars)) && ValidParams(p)
    requires i < k <= |bars|
    ensures StrictlyIncreasing(Times(bars[..k]))
    ensures SignalAt(bars[..k], ema[..k], p, i) == SignalAt(bars, ema, p, i)
  {
    var short := bars[..k];
    ColumnsOfPrefix(bars, k);
    var c, t := Closes(bars), Times(bars);
    assert Times(short) == t[..k];
    assert EmaSlope(short, ema[..k])[i] == EmaSlope(bars, ema)[i] by {
      SlopeCausal(ema, t, ema[..k], t[..k], i);
    }
    forall w | 0 < w
      ensures MaSlope(short, w)[i] == MaSlope(bars, w)[i]
    {
      SmaCausal(c, w, i, k);
      if 0 < i { SmaCausal(c, w, i - 1, k); }
      SlopeCausal(SmaColumn(c, w), t, SmaColumn(c[..k], w), t[..k], i);
    }
    PullbackCausal(bars, short, p.compressionPeriod, p.compressionThreshold, i);
  }

  /** No lookahead: two series that agree on bars `0 .. i` (and on the EMA there) agree on the signal
      at `i`, whatever their later bars. */
  lemma SignalCausal(bars: seq<Bar>, ema: seq<Option<real>>, bars': seq<Bar>, ema': seq<Option<real>>,
                     p: Params, i: nat)
    requires |ema| == |bars| && StrictlyIncreasing(Times(bars)) && ValidParams(p)
    requires |ema'| == |bars'| && StrictlyIncreasing(Times(bars'))
    requires i < |bars| && i < |bars'|
    requires bars[..i + 1] == bars'[..i + 1] && ema[..i + 1] == ema'[..i + 1]
    ensures SignalAt(bars', ema', p, i) == SignalAt(bars, ema, p, i)
  {
    var b, e := bars[..i + 1], ema[..i + 1];
    SignalPrefix(bars, ema, p, i + 1, i);
    SignalPrefix(bars', ema', p, i + 1, i);
    assert SignalAt(bars', ema', p, i) == SignalAt(b, e, p, i);
  }

  /** Bar `i` opens exactly at the non-negative close of bar `i - 1`. */
  predicate OpensAtPreviousClose(bars: seq<Bar>, i: nat)
    requires 0 < i < |bars|
  {
    bars[i].open == bars[i - 1].close && 0.0 <= bars[i - 1].close
  }

  /** A series where every bar opens at the previous close (a non-negative one), as in a steady uptrend,
      never pulls back and so never signals for a non-negative threshold: the price-drop test of
      condition 3 never passes. */
  lemma OpenAtCloseNoSignal(bars: seq<Bar>, ema: seq<Option<real>>, p: Params)
    requires |ema| == |bars| && StrictlyIncreasing(Times(bars)) && ValidParams(p)
    requires 0.0 <= p.compressionThreshold
    requires forall i :: 0 < i < |bars| ==> OpensAtPreviousClose(bars, i)
    ensures forall i :: 0 <= i < |bars| ==> !PullbackAt(bars, p.compressionPeriod, p.compressionThreshold, i)
    ensures forall i :: 0 <= i < |bars| ==> !SignalAt(bars, ema, p, i)
  {
    forall i | 0 <= i < |bars|
      ensures !PullbackAt(bars, p.compressionPeriod, p.compressionThreshold, i)
    {
      if 0 < i {
        assert OpensAtPreviousClose(bars, i);
        OpenAtPreviousCloseNoPullback(bars, p.compressionPeriod, p.compressionThreshold, i);
      }
    }
  }

  /** With strictly rising closes every simple-average slope is positive from bar `w` on. */
  lemma RisingClosesPositiveMaSlope(bars: seq<Bar>, w: nat, i: nat)
    requires 0 < w <= i < |bars| && StrictlyIncreasing(Times(bars))
    requires forall a, b :: 0 <= a < b < |bars| ==> bars[a].close < bars[b].close
    ensures Positive(MaSlope(bars, w)[i])
  {
    SmaSlopePositiveIff(Closes(bars), Times(bars), w, i);
  }

  /** An engineered pullback: a bar with a full window behind it that opens at 80% of a positive previous
      close, below that bar's own high, passes condition 3 at a 5% threshold; its signal is then
      decided by conditions 1 and 2 alone. */
  lemma EngineeredPullback(bars: seq<Bar>, ema: seq<Option<real>>, p: Params, i: nat)
    requires |ema| == |bars| && StrictlyIncreasing(Times(bars)) && ValidParams(p)
    requires p.compressionPeriod <= i < |bars| && p.compressionThreshold == 0.05
    requires 0.0 < bars[i - 1].close <= bars[i - 1].high && bars[i].open == 0.8 * bars[i - 1].close
    ensures PullbackAt(bars, p.compressionPeriod, p.compressionThreshold, i)
    ensures SignalAt(bars, ema, p, i) <==> Condition1At(bars, ema, p, i) && Condition2At(bars, ema, p, i)
  {
    DropImpliesBelowHigh(bars, p.compressionPeriod, p.compressionThreshold, i);
  }
}
