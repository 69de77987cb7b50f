/**
 * The parts of the analysis step that do not call into the indicator
 * library: the minimum-history guard on the downloaded bars, the rule that
 * merges the parabolic-SAR output columns into one SAR series, and the
 * frame of named columns to which the analysis adds its results in place.
 */
module History {
  import opened Wrappers
  import opened Signal

  /** One daily bar as downloaded; any field may be NaN. */
  datatype Bar = Bar(open: Num, high: Num, low: Num, close: Num, volume: Num)

  /** Fewest bars the analysis accepts. */
  const MinBars: nat := 50
  /** The error reported for a download that is missing or too short. */
  const InsufficientData: string := "Veri yetersiz."

  /**
   * The minimum-history guard: no download, or fewer than 50 bars, is
   * rejected with the insufficient-data message; anything else passes
   * through unchanged.
   */
  function CheckHistory(download: Option<seq<Bar>>): (r: Result<seq<Bar>, string>)
    ensures r.Failure? <==> download.None? || |download.value| < MinBars
    ensures r.Failure? ==> r.error == InsufficientData
    ensures r.Success? ==> r.value == download.value && |r.value| >= MinBars
  {
    if download.None? || |download.value| < MinBars then Failure(InsufficientData)
    else Success(download.value)
  }

  /** Index k holds the first present value of vals. */
  predicate IsFirstPresent(vals: seq<Num>, k: int) {
    0 <= k < |vals| && vals[k].Some? && forall j :: 0 <= j < k ==> vals[j].None?
  }

  /**
   * What a backward fill along a row followed by taking its first cell
   * yields: the first value that is not NaN, or NaN when every value is.
   */
  function FirstPresent(vals: seq<Num>): (v: Num)
    ensures v.None? <==> forall j :: 0 <= j < |vals| ==> vals[j].None?
    ensures v.Some? ==> exists k :: IsFirstPresent(vals, k) && vals[k] == v
  {
    if |vals| == 0 then None
    else if vals[0].Some? then
      assert IsFirstPresent(vals, 0);
      vals[0]
    else
      var v := FirstPresent(vals[1..]);
      assert forall j :: 1 <= j < |vals| ==> vals[j] == vals[1..][j - 1];
      if v.Some? then
        var k :| IsFirstPresent(vals[1..], k) && vals[1..][k] == v;
        assert IsFirstPresent(vals, k + 1);
        v
      else
        v
  }

  /** Every column in cols has n entries. */
  predicate Aligned(cols: seq<seq<Num>>, n: nat) {
    forall j :: 0 <= j < |cols| ==> |cols[j]| == n
  }

  /** Row i across the columns, in column order. */
  function Row(cols: seq<seq<Num>>, n: nat, i: nat): (row: seq<Num>)
    requires Aligned(cols, n) && i < n
    ensures |row| == |cols|
    ensures forall j :: 0 <= j < |cols| ==> row[j] == cols[j][i]
  {
    seq(|cols|, j requires 0 <= j < |cols| => cols[j][i])
  }

  /**
   * The SAR series: with no PSAR column it is the close series; otherwise
   * each row takes the first PSAR value that is not NaN, in column order.
   */
  function MergeSar(psar: seq<seq<Num>>, close: seq<Num>): (sar: seq<Num>)
    requires Aligned(psar, |close|)
    ensures |sar| == |close|
  {
    if psar == [] then close
    else seq(|close|, i requires 0 <= i < |close| => FirstPresent(Row(psar, |close|, i)))
  }

  /** Without PSAR columns the SAR series falls back to the close series. */
  lemma MergeSarFallback(close: seq<Num>)
    ensures MergeSar([], close) == close
  {
  }

  /**
   * Row by row, the merged SAR is NaN exactly when every PSAR column is NaN
   * in that row, and otherwise equals the first PSAR column's value that is
   * present there, every earlier column being NaN.
   */
  lemma MergeSarRow(psar: seq<seq<Num>>, close: seq<Num>, i: nat)
    requires Aligned(psar, |close|) && psar != [] && i < |close|
    ensures MergeSar(psar, close)[i].None? <==> forall j :: 0 <= j < |psar| ==> psar[j][i].None?
    ensures MergeSar(psar, close)[i].Some? ==>
              exists k :: 0 <= k < |psar| && psar[k][i] == MergeSar(psar, close)[i]
                          && forall j :: 0 <= j < k ==> psar[j][i].None?
  {
  }

  /** The columns named, in the order named. */
  function Select(columns: map<string, seq<Num>>, names: seq<string>): (cols: seq<seq<Num>>)
    requires forall j :: 0 <= j < |names| ==> names[j] in columns
    ensures |cols| == |names|
    ensures forall j :: 0 <= j < |names| ==> cols[j] == columns[names[j]]
  {
    seq(|names|, j requires 0 <= j < |names| => columns[names[j]])
  }

  /** A frame of equally long named columns, to which the analysis adds columns in place. */
  class Frame {
    var columns: map<string, seq<Num>>
    var rows: nat

    /** The frame has a close column and every column has one entry per row. */
    ghost predicate Valid()
      reads this
    {
      "Close" in columns && forall name :: name in columns ==> |columns[name]| == rows
    }

    /** The frame of a download: one column per bar field. */
    constructor FromBars(bars: seq<Bar>)
      ensures Valid() && rows == |bars|
      ensures columns.Keys == {"Open", "High", "Low", "Close", "Volume"}
      ensures forall i :: 0 <= i < |bars| ==>
                columns["Open"][i] == bars[i].open && columns["High"][i] == bars[i].high
                && columns["Low"][i] == bars[i].low && columns["Close"][i] == bars[i].close
                && columns["Volume"][i] == bars[i].volume
    {
      rows := |bars|;
      columns := map[
        "Open" := seq(|bars|, i requires 0 <= i < |bars| => bars[i].open),
        "High" := seq(|bars|, i requires 0 <= i < |bars| => bars[i].high),
        "Low" := seq(|bars|, i requires 0 <= i < |bars| => bars[i].low),
        "Close" := seq(|bars|, i requires 0 <= i < |bars| => bars[i].close),
        "Volume" := seq(|bars|, i requires 0 <= i < |bars| => bars[i].volume)];
    }

    /** Adds or replaces one column; every other column is left as it was. */
    method SetColumn(name: string, values: seq<Num>)
      requires Valid() && |values| == rows
      modifies this
      ensures Valid() && rows == old(rows)
      ensures columns == old(columns)[name := values]
    {
      columns := columns[name := values];
    }

    /**
     * Adds the SAR column: the merge of the named PSAR columns, or a copy of
     * the close column when there are none. Every other column is left as
     * it was.
     */
    method SetSar(psarNames: seq<string>)
      requires Valid()
      requires forall j :: 0 <= j < |psarNames| ==> psarNames[j] in columns
      modifies this
      ensures Valid() && rows == old(rows)
      ensures columns == old(columns)["SAR" := MergeSar(Select(old(columns), psarNames), old(columns)["Close"])]
      ensures psarNames == [] ==> columns["SAR"] == old(columns)["Close"]
    {
      var psar := Select(columns, psarNames);
      var close := columns["Close"];
      if |psarNames| > 0 {
        columns := columns["SAR" := MergeSar(psar, close)];
      } else {
        columns := columns["SAR" := close];
      }
    }
  }
}
