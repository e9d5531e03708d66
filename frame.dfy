/** The analysed frame: the OHLCV rows, plus the indicator columns the engine adds by name. */
module Frame {
  import opened Wrappers
  import opened Series

  /** The derived columns the engine writes: `EMA<p>`, `MA<p>` and `<col>_slope`. */
  datatype Column = Ema(period: nat) | Ma(period: nat) | Slope(of: Column)

  function DigitChar(d: nat): (c: char)
    requires d < 10
    ensures '0' <= c <= '9'
  {
    (48 + d) as char
  }

  /** Decimal rendering of a natural number, without leading zeros. */
  function Digits(n: nat): (s: string)
    ensures |s| >= 1
    ensures (n < 10) == (|s| == 1)
    ensures s[|s| - 1] == DigitChar(n % 10)
    ensures '0' <= s[|s| - 1] <= '9'
  {
    if n < 10 then [DigitChar(n)] else Digits(n / 10) + [DigitChar(n % 10)]
  }

  /** The name a column is stored under. */
  function ColumnName(c: Column): (r: string) {
    match c
    case Ema(p) => "EMA" + Digits(p)
    case Ma(p) => "MA" + Digits(p)
    case Slope(of) => ColumnName(of) + "_slope"
  }

  /** Different numbers render differently. */
  lemma {:induction false} DigitsInjective(a: nat, b: nat)
    requires Digits(a) == Digits(b)
    ensures a == b
    decreases a
  {
    assert DigitChar(a % 10) == DigitChar(b % 10);
    assert a % 10 == b % 10;
    if 10 <= a {
      assert 10 <= b;
      var da, db := Digits(a), Digits(b);
      assert da[..|da| - 1] == Digits(a / 10);
      assert db[..|db| - 1] == Digits(b / 10);
      DigitsInjective(a / 10, b / 10);
    }
  }

  /** The last character of a column name: a digit for an average, `e` for a slope. */
  lemma NameEnd(c: Column)
    ensures |ColumnName(c)| >= 1
    ensures var n := ColumnName(c); (c.Slope? <==> n[|n| - 1] == 'e')
  {

  }

  /** Distinct columns get distinct names, so storing one column never overwrites another. */
  lemma {:induction false} ColumnNameInjective(c: Column, d: Column)
    requires ColumnName(c) == ColumnName(d)
    ensures c == d
  {
    NameEnd(c);
    NameEnd(d);
    match c
    case Ema(p) =>
      assert ColumnName(d)[0] == 'E';
      assert d.Ema?;
      assert ColumnName(c)[3..] == Digits(p) && ColumnName(d)[3..] == Digits(d.period);
      DigitsInjective(p, d.period);
    case Ma(p) =>
      assert ColumnName(d)[0] == 'M';
      assert d.Ma?;
      assert ColumnName(c)[2..] == Digits(p) && ColumnName(d)[2..] == Digits(d.period);
      DigitsInjective(p, d.period);
    case Slope(of) =>
      assert d.Slope?;
      var n := ColumnName(c);
      assert n[..|n| - 6] == ColumnName(of);
      assert n[..|n| - 6] == ColumnName(d.of);
      ColumnNameInjective(of, d.of);
  }

  /** The frame: its rows are fixed, and the derived columns it gains are aligned with them. */
  class Frame {
    const bars: seq<Bar>
    var derived: map<string, seq<Option<real>>>

    /** Every derived column has one entry per row. */
    ghost predicate Valid()
      reads this
    {
      forall name :: name in derived ==> |derived[name]| == |bars|
    }

    constructor (bars: seq<Bar>)
      ensures this.bars == bars && derived == map[] && Valid()
    {
      this.bars := bars;
      derived := map[];
    }

    /** `frame[name] = column`: adds the column, or replaces the one of that name. */
    method SetColumn(name: string, column: seq<Option<real>>)
      requires Valid() && |column| == |bars|
      modifies this
      ensures Valid()
      ensures derived == old(derived)[name := column]
    {
      derived := derived[name := column];
    }
  }
}
