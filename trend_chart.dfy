/**
 * The usage-trend chart: it loads the trend once, replaces an empty trend with thirty
 * zero points of its own, and records loading and error state.
 */
module TrendChart {
  import opened Wrappers
  import opened JsValues
  import opened Dashboard

  const LoadFailedMessage: string := "トレンドデータの読み込みに失敗しました"

  /** The chart's own thirty days: today - 30, ..., today - 1. */
  function ZeroFillDays(today: int): (days: seq<int>)
    ensures |days| == 30
    ensures forall i :: 0 <= i < 30 ==> days[i] == today - (30 - i)
  {
    seq(30, i requires 0 <= i < 30 => today - (30 - i))
  }

  /** Thirty zero points, labelled (as `M/D` in the application) in chronological order. */
  function ZeroFill(today: int, format: Formatter): (points: seq<UsageTrend>)
    ensures |points| == 30
    ensures forall i :: 0 <= i < 30 ==> points[i] == UsageTrend(format(today - (30 - i)), Num(0.0))
  {
    seq(30, i requires 0 <= i < 30 => UsageTrend(format(today - (30 - i)), Num(0.0)))
  }

  /**
   * The chart's window is the server's shifted back by one day: it starts a day earlier,
   * and today, the server window's last day, is missing from it.
   */
  lemma ZeroFillOneDayBehind(today: int)
    ensures forall i :: 0 <= i < 30 ==> ZeroFillDays(today)[i] == WindowDays(today)[i] - 1
    ensures ZeroFillDays(today)[0] == today - 30 && ZeroFillDays(today)[0] !in WindowDays(today)
    ensures today in WindowDays(today) && today !in ZeroFillDays(today)
  {
    assert WindowDays(today)[29] == today;
  }

  class TrendChart {
    var trendData: seq<UsageTrend>
    var isLoading: bool
    var error: Option<string>

    /** The first render: no data, loading, no error. */
    constructor ()
      ensures trendData == [] && isLoading && error.None?
    {
      trendData := [];
      isLoading := true;
      error := None;
    }

    /**
     * The load: a non-empty trend is shown as fetched, an empty one replaced by the zero
     * fill, and the error cleared; a failed fetch sets the error and keeps the data. Either
     * way loading ends.
     */
    method LoadTrendData(fetched: Result<seq<UsageTrend>, string>, today: int, format: Formatter)
      modifies this
      ensures fetched.Success? && fetched.value != [] ==> trendData == fetched.value
      ensures fetched.Success? && fetched.value == [] ==> trendData == ZeroFill(today, format)
      ensures fetched.Success? ==> error.None?
      ensures fetched.Failure? ==> trendData == old(trendData) && error == Some(LoadFailedMessage)
      ensures !isLoading
    {
      isLoading := true;
      if fetched.Success? {
        var data := fetched.value;
        if |data| == 0 {
          trendData := ZeroFill(today, format);
        } else {
          trendData := data;
        }
        error := None;
      } else {
        error := Some(LoadFailedMessage);
      }
      isLoading := false;
    }
  }
}
