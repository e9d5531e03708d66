/** The price series the engine reads: one bar per row, ordered by timestamp. */
module Series {

  /** One OHLCV row; `time` is its index key, in whole seconds. */
  datatype Bar = Bar(time: int, open: real, high: real, low: real, close: real, volume: nat)

  /** The `close` column. */
  function Closes(bars: seq<Bar>): (r: seq<real>)
    ensures |r| == |bars|
    ensures forall i :: 0 <= i < |bars| ==> r[i] == bars[i].close
  {
    seq(|bars|, i requires 0 <= i < |bars| => bars[i].close)
  }

  /** The index column, as seconds. */
  function Times(bars: seq<Bar>): (r: seq<int>)
    ensures |r| == |bars|
    ensures forall i :: 0 <= i < |bars| ==> r[i] == bars[i].time
  {
    seq(|bars|, i requires 0 <= i < |bars| => bars[i].time)
  }

  /** Consecutive timestamps strictly increase: the index is sorted and has no duplicates. */
  predicate StrictlyIncreasing(t: seq<int>) {
    forall i :: 0 < i < |t| ==> t[i - 1] < t[i]
  }

  /** Truncating the series truncates each of its columns the same way. */
  lemma ColumnsOfPrefix(bars: seq<Bar>, k: nat)
    requires k <= |bars|
    ensures Closes(bars[..k]) == Closes(bars)[..k]
    ensures Times(bars[..k]) == Times(bars)[..k]
  {
  }
}
