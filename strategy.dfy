/** The signal engine: adds the average and slope columns to the frame, evaluates the three
    conditions and returns their per-bar conjunction. */
module Strategy {
  import opened Wrappers
  import opened Series
  import opened Indicators
  import opened Pullback
  import opened Conditions
  import opened Frame

  /** The engine's parameters. */
  datatype Params = Params(
    tolerance: real,
    compressionPeriod: nat,
    compressionThreshold: real,
    emaPeriod: nat,
    maLongPeriod: nat,
    maMidPeriods: seq<nat>)

  /** The defaults of the engine's signature. */
  const DefaultParams := Params(0.0001, 20, 0.02, 120, 111, [25, 33, 49])

  /** Every window length is positive. */
  predicate ValidParams(p: Params) {
    0 < p.compressionPeriod && 0 < p.emaPeriod && 0 < p.maLongPeriod &&
    forall k :: 0 <= k < |p.maMidPeriods| ==> 0 < p.maMidPeriods[k]
  }

  /** A column whose averages have positive windows. */
  predicate WellFormed(c: Column) {
    match c
    case Ema(_) => true
    case Ma(w) => 0 < w
    case Slope(of) => WellFormed(of)
  }

  /** The content of a derived column. The `EMA<ema_period>` column is the supplied `ema`. */
  function ColumnValue(bars: seq<Bar>, ema: seq<Option<real>>, c: Column): (r: seq<Option<real>>)
    requires |ema| == |bars| && StrictlyIncreasing(Times(bars)) && WellFormed(c)
    ensures |r| == |bars|
  {
    match c
    case Ema(_) => ema
    case Ma(w) => SmaColumn(Closes(bars), w)
    case Slope(of) => SlopeColumn(ColumnValue(bars, ema, of), Times(bars))
  }

  /** The averaged columns, in the order the engine takes their slopes. */
  function MaColumns(p: Params): (r: seq<Column>)
    ensures |r| == 2 + |p.maMidPeriods|
  {
    [Ema(p.emaPeriod), Ma(p.maLongPeriod)] +
    seq(|p.maMidPeriods|, k requires 0 <= k < |p.maMidPeriods| => Ma(p.maMidPeriods[k]))
  }

  /** The slope columns, one per averaged column. */
  function SlopeColumns(p: Params): (r: seq<Column>)
    ensures |r| == |MaColumns(p)|
  {
    var ma := MaColumns(p);
    seq(|ma|, k requires 0 <= k < |ma| => Slope(ma[k]))
  }

  /** Every column the engine writes: the averages, then their slopes. */
  function AddedColumns(p: Params): (r: seq<Column>) {
    MaColumns(p) + SlopeColumns(p)
  }

  function Names(cs: seq<Column>): (r: set<string>) {
    set c | c in cs :: ColumnName(c)
  }

  /** Every column of `cs` is stored in `m` under its name, with its content. */
  ghost predicate Stores(m: map<string, seq<Option<real>>>, bars: seq<Bar>, ema: seq<Option<real>>, cs: seq<Column>)
    requires |ema| == |bars| && StrictlyIncreasing(Times(bars))
  {
    forall c :: c in cs ==> WellFormed(c) && ColumnName(c) in m && m[ColumnName(c)] == ColumnValue(bars, ema, c)
  }

  /** Storing one more column keeps the earlier ones: names are unique. */
  lemma StoreOne(m: map<string, seq<Option<real>>>, bars: seq<Bar>, ema: seq<Option<real>>, cs: seq<Column>, c0: Column)
    requires |ema| == |bars| && StrictlyIncreasing(Times(bars)) && WellFormed(c0)
    requires Stores(m, bars, ema, cs)
    ensures Stores(m[ColumnName(c0) := ColumnValue(bars, ema, c0)], bars, ema, cs)
    ensures Stores(m[ColumnName(c0) := ColumnValue(bars, ema, c0)], bars, ema, cs + [c0])
  {
    var m' := m[ColumnName(c0) := ColumnValue(bars, ema, c0)];
    forall c | c in cs + [c0]
      ensures WellFormed(c) && ColumnName(c) in m' && m'[ColumnName(c)] == ColumnValue(bars, ema, c)
    {
      if ColumnName(c) == ColumnName(c0) {
        ColumnNameInjective(c, c0);
      }
    }
  }

  /** `m` is `before` with the columns named in `done` added or replaced, and nothing else changed. */
  ghost predicate Extends(m: map<string, seq<Option<real>>>, before: map<string, seq<Option<real>>>, done: seq<Column>) {
    m.Keys == before.Keys + Names(done) &&
    forall name :: name in before && name !in Names(done) ==> m[name] == before[name]
  }

  lemma ExtendOne(m: map<string, seq<Option<real>>>, before: map<string, seq<Option<real>>>, done: seq<Column>,
                  c0: Column, v: seq<Option<real>>)
    requires Extends(m, before, done)
    ensures Extends(m[ColumnName(c0) := v], before, done + [c0])
  {
    assert Names(done + [c0]) == Names(done) + {ColumnName(c0)};
  }

  /** The slope of the EMA column. */
  function EmaSlope(bars: seq<Bar>, ema: seq<Option<real>>): (r: seq<Option<real>>)
    requires |ema| == |bars| && StrictlyIncreasing(Times(bars))
    ensures |r| == |bars|
  {
    SlopeColumn(ema, Times(bars))
  }

  /** The slope of the `MA<w>` column. */
  function MaSlope(bars: seq<Bar>, w: nat): (r: seq<Option<real>>)
    requires 0 < w && StrictlyIncreasing(Times(bars))
    ensures |r| == |bars|
  {
    SlopeColumn(SmaColumn(Closes(bars), w), Times(bars))
  }

  /** Condition 1 at bar `i`: the EMA and long-MA slopes are parallel within the tolerance. */
  predicate Condition1At(bars: seq<Bar>, ema: seq<Option<real>>, p: Params, i: nat)
    requires |ema| == |bars| && StrictlyIncreasing(Times(bars)) && ValidParams(p) && i < |bars|
  {
    Parallel(EmaSlope(bars, ema)[i], MaSlope(bars, p.maLongPeriod)[i], p.tolerance)
  }

  /** Condition 2 at bar `i`: all five slopes exist and are strictly positive. */
  predicate Condition2At(bars: seq<Bar>, ema: seq<Option<real>>, p: Params, i: nat)
    requires |ema| == |bars| && StrictlyIncreasing(Times(bars)) && ValidParams(p) && i < |bars|
  {
    Positive(EmaSlope(bars, ema)[i]) && Positive(MaSlope(bars, p.maLongPeriod)[i]) &&
    forall k :: 0 <= k < |p.maMidPeriods| ==> Positive(MaSlope(bars, p.maMidPeriods[k])[i])
  }

  /** The signal at bar `i`: all three conditions hold there. */
  predicate SignalAt(bars: seq<Bar>, ema: seq<Option<real>>, p: Params, i: nat)
    requires |ema| == |bars| && StrictlyIncreasing(Times(bars)) && ValidParams(p) && i < |bars|
  {
    Condition1At(bars, ema, p, i) && Condition2At(bars, ema, p, i) &&
    PullbackAt(bars, p.compressionPeriod, p.compressionThreshold, i)
  }

  /** After the first `n` averaged columns are stored: they hold their content, and only their names
      have changed since `before`. */
  ghost predicate AveragesStored(m: map<string, seq<Option<real>>>, before: map<string, seq<Option<real>>>,
                                 bars: seq<Bar>, ema: seq<Option<real>>, p: Params, n: nat)
    requires |ema| == |bars| && StrictlyIncreasing(Times(bars))
  {
    n <= |MaColumns(p)| && Stores(m, bars, ema, MaColumns(p)[..n]) && Extends(m, before, MaColumns(p)[..n])
  }

  lemma AverageStep(m: map<string, seq<Option<real>>>, before: map<string, seq<Option<real>>>,
                    bars: seq<Bar>, ema: seq<Option<real>>, p: Params, n: nat)
    requires |ema| == |bars| && StrictlyIncreasing(Times(bars)) && ValidParams(p)
    requires n < |MaColumns(p)| && AveragesStored(m, before, bars, ema, p, n)
    ensures WellFormed(MaColumns(p)[n])
    ensures AveragesStored(m[ColumnName(MaColumns(p)[n]) := ColumnValue(bars, ema, MaColumns(p)[n])],
                           before, bars, ema, p, n + 1)
  {
    var ma := MaColumns(p);
    var c0 := ma[n];
    assert 2 <= n ==> c0 == Ma(p.maMidPeriods[n - 2]);
    assert ma[..n + 1] == ma[..n] + [c0];
    StoreOne(m, bars, ema, ma[..n], c0);
    ExtendOne(m, before, ma[..n], c0, ColumnValue(bars, ema, c0));
  }

  /** Stores `EMA<ema_period>`, `MA<ma_long_period>` and `MA<p>` for each mid period, in that order. */
  method AddAverages(ohlcv: Frame, ema: seq<Option<real>>, p: Params)
    requires ohlcv.Valid() && ValidParams(p)
    requires |ema| == |ohlcv.bars| && StrictlyIncreasing(Times(ohlcv.bars))
    modifies ohlcv
    ensures ohlcv.Valid()
    ensures Stores(ohlcv.derived, ohlcv.bars, ema, MaColumns(p))
    ensures Extends(ohlcv.derived, old(ohlcv.derived), MaColumns(p))
  {
    var bars := ohlcv.bars;
    var closes := Closes(bars);
    ghost var before := ohlcv.derived;
    assert MaColumns(p)[..0] == [];
    assert AveragesStored(ohlcv.derived, before, bars, ema, p, 0);

    AverageStep(ohlcv.derived, before, bars, ema, p, 0);
    ohlcv.SetColumn(ColumnName(Ema(p.emaPeriod)), ema);

    AverageStep(ohlcv.derived, before, bars, ema, p, 1);
    ohlcv.SetColumn(ColumnName(Ma(p.maLongPeriod)), SmaColumn(closes, p.maLongPeriod));

    for k := 0 to |p.maMidPeriods|
      invariant ohlcv.Valid()
      invariant AveragesStored(ohlcv.derived, before, bars, ema, p, 2 + k)
    {
      var period := p.maMidPeriods[k];
      AverageStep(ohlcv.derived, before, bars, ema, p, 2 + k);
      assert MaColumns(p)[2 + k] == Ma(period);
      ohlcv.SetColumn(ColumnName(Ma(period)), SmaColumn(closes, period));
    }
    assert MaColumns(p)[..|MaColumns(p)|] == MaColumns(p);
  }

  /** After the averages and the first `n` slope columns are stored: all hold their content, and only
      the slope names have changed since `before`. */
  ghost predicate SlopesStored(m: map<string, seq<Option<real>>>, before: map<string, seq<Option<real>>>,
                               bars: seq<Bar>, ema: seq<Option<real>>, p: Params, n: nat)
    requires |ema| == |bars| && StrictlyIncreasing(Times(bars))
  {
    n <= |SlopeColumns(p)| && Stores(m, bars, ema, MaColumns(p)) &&
    Stores(m, bars, ema, SlopeColumns(p)[..n]) && Extends(m, before, SlopeColumns(p)[..n])
  }

  lemma SlopeStep(m: map<string, seq<Option<real>>>, before: map<string, seq<Option<real>>>,
                  bars: seq<Bar>, ema: seq<Option<real>>, p: Params, n: nat)
    requires |ema| == |bars| && StrictlyIncreasing(Times(bars)) && ValidParams(p)
    requires n < |MaColumns(p)| && SlopesStored(m, before, bars, ema, p, n)
    ensures WellFormed(MaColumns(p)[n])
    ensures ColumnName(MaColumns(p)[n]) in m && m[ColumnName(MaColumns(p)[n])] == ColumnValue(bars, ema, MaColumns(p)[n])
    ensures SlopesStored(m[ColumnName(Slope(MaColumns(p)[n])) := ColumnValue(bars, ema, Slope(MaColumns(p)[n]))],
                         before, bars, ema, p, n + 1)
  {
    var ma, slopes := MaColumns(p), SlopeColumns(p);
    var c0 := Slope(ma[n]);
    var m' := m[ColumnName(c0) := ColumnValue(bars, ema, c0)];
    assert ma[n] in ma;
    SlopesPrefix(p, n);
    assert Stores(m', bars, ema, ma) by {
      StoreOne(m, bars, ema, ma, c0);
    }
    assert Stores(m', bars, ema, slopes[..n + 1]) by {
      StoreOne(m, bars, ema, slopes[..n], c0);
    }
    assert Extends(m', before, slopes[..n + 1]) by {
      ExtendOne(m, before, slopes[..n], c0, ColumnValue(bars, ema, c0));
    }
  }

  /** The first `n + 1` slope columns are the first `n` and the slope of the `n`-th averaged column. */
  lemma SlopesPrefix(p: Params, n: nat)
    requires n < |MaColumns(p)|
    ensures SlopeColumns(p)[..n + 1] == SlopeColumns(p)[..n] + [Slope(MaColumns(p)[n])]
  {
    assert SlopeColumns(p)[n] == Slope(MaColumns(p)[n]);
  }

  /** Stores `<col>_slope` for one averaged column, computed from the stored `<col>`. */
  method AddSlope(ohlcv: Frame, ema: seq<Option<real>>, col: Column)
    requires ohlcv.Valid() && WellFormed(col)
    requires |ema| == |ohlcv.bars| && StrictlyIncreasing(Times(ohlcv.bars))
    requires ColumnName(col) in ohlcv.derived && ohlcv.derived[ColumnName(col)] == ColumnValue(ohlcv.bars, ema, col)
    modifies ohlcv
    ensures ohlcv.Valid()
    ensures ohlcv.derived == old(ohlcv.derived)[ColumnName(Slope(col)) := ColumnValue(ohlcv.bars, ema, Slope(col))]
  {
    var slope := SlopeColumn(ohlcv.derived[ColumnName(col)], Times(ohlcv.bars));
    ohlcv.SetColumn(ColumnName(Slope(col)), slope);
  }

  /** Stores `<col>_slope` for each averaged column in turn, computed from the stored column. */
  method AddSlopes(ohlcv: Frame, ema: seq<Option<real>>, p: Params)
    requires ohlcv.Valid() && ValidParams(p)
    requires |ema| == |ohlcv.bars| && StrictlyIncreasing(Times(ohlcv.bars))
    requires Stores(ohlcv.derived, ohlcv.bars, ema, MaColumns(p))
    modifies ohlcv
    ensures ohlcv.Valid()
    ensures Stores(ohlcv.derived, ohlcv.bars, ema, AddedColumns(p))
    ensures Extends(ohlcv.derived, old(ohlcv.derived), SlopeColumns(p))
  {
    var bars := ohlcv.bars;
    var maColumns := MaColumns(p);
    ghost var before := ohlcv.derived;
    assert SlopeColumns(p)[..0] == [];
    for k := 0 to |maColumns|
      invariant ohlcv.Valid()
      invariant SlopesStored(ohlcv.derived, before, bars, ema, p, k)
    {
      var col := maColumns[k];
      SlopeStep(ohlcv.derived, before, bars, ema, p, k);
      AddSlope(ohlcv, ema, col);
    }
    assert SlopeColumns(p)[..|maColumns|] == SlopeColumns(p);
    StoresAppend(ohlcv.derived, bars, ema, MaColumns(p), SlopeColumns(p));
  }

  lemma StoresAppend(m: map<string, seq<Option<real>>>, bars: seq<Bar>, ema: seq<Option<real>>, a: seq<Column>, b: seq<Column>)
    requires |ema| == |bars| && StrictlyIncreasing(Times(bars))
    requires Stores(m, bars, ema, a) && Stores(m, bars, ema, b)
    ensures Stores(m, bars, ema, a + b)
  {
  }

  /** Evaluates conditions 1, 2 and 3 over the stored slope columns and returns their conjunction. */
  method Signals(bars: seq<Bar>, ema: seq<Option<real>>, p: Params,
                 emaSlope: seq<Option<real>>, longSlope: seq<Option<real>>, midSlopes: seq<seq<Option<real>>>)
    returns (signals: seq<bool>)
    requires |ema| == |bars| && StrictlyIncreasing(Times(bars)) && ValidParams(p)
    requires emaSlope == EmaSlope(bars, ema) && longSlope == MaSlope(bars, p.maLongPeriod)
    requires |midSlopes| == |p.maMidPeriods|
    requires forall k :: 0 <= k < |midSlopes| ==> midSlopes[k] == MaSlope(bars, p.maMidPeriods[k])
    ensures |signals| == |bars|
    ensures forall i :: 0 <= i < |bars| ==> (signals[i] <==> SignalAt(bars, ema, p, i))
  {
    var condition1 := Condition1(emaSlope, longSlope, p.tolerance);
    var condition2 := Condition2(emaSlope, longSlope, midSlopes);
    var condition3 := FindPullbackBreakout(bars, p.compressionPeriod, p.compressionThreshold);
    signals := Conjunction(condition1, condition2, condition3);
    forall i | 0 <= i < |bars|
      ensures signals[i] <==> SignalAt(bars, ema, p, i)
    {
      assert condition1[i] <==> Condition1At(bars, ema, p, i);
      assert (forall k :: 0 <= k < |midSlopes| ==> midSlopes[k][i].Some? && midSlopes[k][i].value > 0.0) <==>
             (forall k :: 0 <= k < |p.maMidPeriods| ==> Positive(MaSlope(bars, p.maMidPeriods[k])[i]));
      assert condition2[i] <==> Condition2At(bars, ema, p, i);
    }
  }

  /** Adds the `EMA<p>`, `MA<p>` and `<col>_slope` columns to `ohlcv` (replacing any of those names
      and leaving every other column alone) and returns the signal of every bar. `ema` is the
      column the EMA indicator yields for `ema_period` over the closes. */
  method AnalyzeStrategy(ohlcv: Frame, ema: seq<Option<real>>, p: Params) returns (signals: seq<bool>)
    requires ohlcv.Valid() && ValidParams(p)
    requires |ema| == |ohlcv.bars| && StrictlyIncreasing(Times(ohlcv.bars))
    modifies ohlcv
    ensures ohlcv.Valid()
    ensures Stores(ohlcv.derived, ohlcv.bars, ema, AddedColumns(p))
    ensures Extends(ohlcv.derived, old(ohlcv.derived), AddedColumns(p))
    ensures |signals| == |ohlcv.bars|
    ensures forall i :: 0 <= i < |signals| ==> (signals[i] <==> SignalAt(ohlcv.bars, ema, p, i))
  {
    ghost var before := ohlcv.derived;
    AddAverages(ohlcv, ema, p);
    ghost var middle := ohlcv.derived;
    AddSlopes(ohlcv, ema, p);
    ExtendsTwice(ohlcv.derived, middle, before, MaColumns(p), SlopeColumns(p));

    var m := ohlcv.derived;
    var mids := p.maMidPeriods;
    StoredSlopes(m, ohlcv.bars, ema, p);
    var emaSlope := m[ColumnName(Slope(Ema(p.emaPeriod)))];
    var longSlope := m[ColumnName(Slope(Ma(p.maLongPeriod)))];
    var midSlopes := seq(|mids|, k requires 0 <= k < |mids| => m[ColumnName(Slope(Ma(mids[k])))]);
    signals := Signals(ohlcv.bars, ema, p, emaSlope, longSlope, midSlopes);
  }

  /** The stored slope columns are the slopes of the EMA and of each simple average. */
  lemma StoredSlopes(m: map<string, seq<Option<real>>>, bars: seq<Bar>, ema: seq<Option<real>>, p: Params)
    requires |ema| == |bars| && StrictlyIncreasing(Times(bars)) && ValidParams(p)
    requires Stores(m, bars, ema, AddedColumns(p))
    ensures ColumnName(Slope(Ema(p.emaPeriod))) in m && m[ColumnName(Slope(Ema(p.emaPeriod)))] == EmaSlope(bars, ema)
    ensures ColumnName(Slope(Ma(p.maLongPeriod))) in m && m[ColumnName(Slope(Ma(p.maLongPeriod)))] == MaSlope(bars, p.maLongPeriod)
    ensures forall k :: 0 <= k < |p.maMidPeriods| ==>
              ColumnName(Slope(Ma(p.maMidPeriods[k]))) in m &&
              m[ColumnName(Slope(Ma(p.maMidPeriods[k])))] == MaSlope(bars, p.maMidPeriods[k])
  {
    SlopeIn(p, 0);
    SlopeIn(p, 1);
    forall k | 0 <= k < |p.maMidPeriods|
      ensures ColumnName(Slope(Ma(p.maMidPeriods[k]))) in m &&
              m[ColumnName(Slope(Ma(p.maMidPeriods[k])))] == MaSlope(bars, p.maMidPeriods[k])
    {
      SlopeIn(p, 2 + k);
    }
  }

  /** The slope of the `k`-th averaged column is among the added columns; the averaged columns are
      the EMA, the long MA and the mid MAs, in that order. */
  lemma SlopeIn(p: Params, k: nat)
    requires k < |MaColumns(p)|
    ensures Slope(MaColumns(p)[k]) in AddedColumns(p)
    ensures k == 0 ==> MaColumns(p)[k] == Ema(p.emaPeriod)
    ensures k == 1 ==> MaColumns(p)[k] == Ma(p.maLongPeriod)
    ensures 2 <= k ==> MaColumns(p)[k] == Ma(p.maMidPeriods[k - 2])
  {
    assert AddedColumns(p)[|MaColumns(p)| + k] == SlopeColumns(p)[k];
  }

  /** Two rounds of stores extend the frame by both lists of names. */
  lemma ExtendsTwice(m2: map<string, seq<Option<real>>>, m1: map<string, seq<Option<real>>>,
                     m0: map<string, seq<Option<real>>>, a: seq<Column>, b: seq<Column>)
    requires Extends(m1, m0, a) && Extends(m2, m1, b)
    ensures Extends(m2, m0, a + b)
  {
    assert Names(a + b) == Names(a) + Names(b);
  }
}
