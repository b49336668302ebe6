/**
 * The two dashboard aggregations after their queries: the 30-day usage trend, whose
 * gaps are filled with zero counts (or which is replaced by dummy counts when the query
 * returns nothing), and the popular-ingredient ranking, which falls back to a shuffled,
 * truncated and sorted dummy list. Query results arrive as rows; days are day numbers
 * and the date formatter is a parameter.
 */
module Dashboard {
  import opened Wrappers
  import opened Strings
  import opened JsValues

  /** One point of the trend: a date label and the number of uses that day. */
  datatype UsageTrend = UsageTrend(date: string, usageCount: Number)

  /** One row of the trend query: the day and its count, as text. */
  datatype TrendRow = TrendRow(day: int, usage_count: string)

  /** Rendering of a day as a label (`MM/DD` in the application). */
  type Formatter = int -> string

  /** The days of the window: today - 29, ..., today, in chronological order. */
  function WindowDays(today: int): (days: seq<int>)
    ensures |days| == 30
    ensures forall i :: 0 <= i < 30 ==> days[i] == today - (29 - i)
    ensures forall i, j :: 0 <= i < j < 30 ==> days[i] < days[j]
    ensures days[29] == today
  {
    seq(30, i requires 0 <= i < 30 => today - (29 - i))
  }

  /** The 30 labels of the window. */
  function Window(today: int, format: Formatter): (labels: seq<string>)
    ensures |labels| == 30
    ensures forall i :: 0 <= i < 30 ==> labels[i] == format(WindowDays(today)[i])
  {
    seq(30, i requires 0 <= i < 30 => format(WindowDays(today)[i]))
  }

  /** The rows as trend points, in query order, the count read with `parseInt`. */
  function Trends(rows: seq<TrendRow>, format: Formatter): (trends: seq<UsageTrend>)
    ensures |trends| == |rows|
    ensures forall i :: 0 <= i < |rows| ==>
              trends[i] == UsageTrend(format(rows[i].day), ParseInt(rows[i].usage_count))
  {
    seq(|rows|, i requires 0 <= i < |rows| => UsageTrend(format(rows[i].day), ParseInt(rows[i].usage_count)))
  }

  /** The first point whose label equals `label`, as `find` returns it. */
  function Lookup(trends: seq<UsageTrend>, date: string): (r: Option<UsageTrend>)
    ensures r.None? <==> forall j :: 0 <= j < |trends| ==> trends[j].date != date
    ensures r.Some? ==> (r.value.date == date &&
              exists k :: 0 <= k < |trends| && trends[k] == r.value &&
                          forall j :: 0 <= j < k ==> trends[j].date != date)
  {
    if trends == [] then None
    else if trends[0].date == date then Some(trends[0])
    else
      var r := Lookup(trends[1..], date);
      if r.Some? then
        ghost var k :| 0 <= k < |trends[1..]| && trends[1..][k] == r.value &&
                       forall j :: 0 <= j < k ==> trends[1..][j].date != date;
        assert trends[k + 1] == r.value;
        r
      else r
  }

  /**
   * The gap fill: one point per label, in label order; each takes the first point with
   * an equal date, or a zero count when there is none.
   */
  function FillGaps(labels: seq<string>, trends: seq<UsageTrend>): (filled: seq<UsageTrend>)
    ensures |filled| == |labels|
    ensures forall i :: 0 <= i < |labels| ==> filled[i].date == labels[i]
    ensures forall i :: 0 <= i < |labels| ==>
              filled[i] == (if Lookup(trends, labels[i]).Some? then Lookup(trends, labels[i]).value
                            else UsageTrend(labels[i], Num(0.0)))
  {
    seq(|labels|, i requires 0 <= i < |labels| =>
      match Lookup(trends, labels[i])
      case Some(t) => t
      case None => UsageTrend(labels[i], Num(0.0)))
  }

  /** A point with another label, inserted anywhere, does not change what is found. */
  lemma {:induction false} LookupSkips(a: seq<UsageTrend>, t: UsageTrend, b: seq<UsageTrend>, date: string)
    requires t.date != date
    ensures Lookup(a + [t] + b, date) == Lookup(a + b, date)
    decreases |a|
  {
    if a == [] {
      assert a + [t] + b == [t] + b && a + b == b;
      assert ([t] + b)[1..] == b;
    } else {
      assert (a + [t] + b)[1..] == a[1..] + [t] + b;
      assert (a + b)[1..] == a[1..] + b;
      if a[0].date != date {
        LookupSkips(a[1..], t, b, date);
      }
    }
  }

  /** Points whose label is outside the window are dropped. */
  lemma OutsidePointIgnored(labels: seq<string>, a: seq<UsageTrend>, t: UsageTrend, b: seq<UsageTrend>)
    requires t.date !in labels
    ensures FillGaps(labels, a + [t] + b) == FillGaps(labels, a + b)
  {
    forall i | 0 <= i < |labels|
      ensures Lookup(a + [t] + b, labels[i]) == Lookup(a + b, labels[i])
    {
      LookupSkips(a, t, b, labels[i]);
    }
  }

  ghost predicate DistinctDates(trends: seq<UsageTrend>)
  {
    forall i, j :: 0 <= i < j < |trends| ==> trends[i].date != trends[j].date
  }

  /** With distinct labels among the points, their order does not matter to `find`. */
  lemma LookupPermutation(t1: seq<UsageTrend>, t2: seq<UsageTrend>, date: string)
    requires multiset(t1) == multiset(t2)
    requires DistinctDates(t1)
    ensures Lookup(t1, date) == Lookup(t2, date)
  {
    var r1 := Lookup(t1, date);
    var r2 := Lookup(t2, date);
    if r1.Some? {
      var k1 :| 0 <= k1 < |t1| && t1[k1] == r1.value;
      assert r2.Some? by {
        assert t1[k1] in multiset(t2);
        var k2 :| 0 <= k2 < |t2| && t2[k2] == t1[k1];
        assert t2[k2].date == date;
      }
      var j2 :| 0 <= j2 < |t2| && t2[j2] == r2.value;
      assert t2[j2] in multiset(t1);
      var j1 :| 0 <= j1 < |t1| && t1[j1] == t2[j2];
      SameDateSameIndex(t1, k1, j1);
    } else {
      forall j | 0 <= j < |t2|
        ensures t2[j].date != date
      {
        assert t2[j] in multiset(t1);
        var k :| 0 <= k < |t1| && t1[k] == t2[j];
      }
    }
  }

  lemma SameDateSameIndex(t: seq<UsageTrend>, k: int, j: int)
    requires DistinctDates(t)
    requires 0 <= k < |t| && 0 <= j < |t| && t[k].date == t[j].date
    ensures k == j
  {
    assert !(k < j) && !(j < k);
  }

  /** With distinct labels among the points, the fill follows the window, whatever the row order. */
  lemma FillGapsIgnoresOrder(labels: seq<string>, t1: seq<UsageTrend>, t2: seq<UsageTrend>)
    requires multiset(t1) == multiset(t2)
    requires DistinctDates(t1)
    ensures FillGaps(labels, t1) == FillGaps(labels, t2)
  {
    forall i | 0 <= i < |labels|
      ensures Lookup(t1, labels[i]) == Lookup(t2, labels[i])
    {
      LookupPermutation(t1, t2, labels[i]);
    }
  }

  /**
   * `getUsageTrends` after its query: with no rows, one dummy point per window label, its
   * count 1 + the `i`-th random draw (each below 5); otherwise the gap fill of the rows
   * over the window.
   */
  function UsageTrends(rows: seq<TrendRow>, today: int, format: Formatter, draws: seq<nat>): (r: seq<UsageTrend>)
    requires |draws| == 30 && forall i :: 0 <= i < 30 ==> draws[i] < 5
    ensures |r| == 30
    ensures forall i :: 0 <= i < 30 ==> r[i].date == format(today - (29 - i))
    ensures rows == [] ==> forall i :: 0 <= i < 30 ==>
              r[i].usageCount.Num? && 1.0 <= r[i].usageCount.value <= 5.0
    ensures rows != [] ==> r == FillGaps(Window(today, format), Trends(rows, format))
  {
    if rows == [] then DummyTrends(Window(today, format), draws)
    else FillGaps(Window(today, format), Trends(rows, format))
  }

  /** The dummy trend: one point per label, its count one more than its draw. */
  function DummyTrends(labels: seq<string>, draws: seq<nat>): (r: seq<UsageTrend>)
    requires |draws| == |labels| && forall i :: 0 <= i < |draws| ==> draws[i] < 5
    ensures |r| == |labels|
    ensures forall i :: 0 <= i < |labels| ==>
              r[i].date == labels[i] && r[i].usageCount.Num? && 1.0 <= r[i].usageCount.value <= 5.0
  {
    seq(|labels|, i requires 0 <= i < |labels| => UsageTrend(labels[i], Num((draws[i] + 1) as real)))
  }

  lemma TrendsAppend(a: seq<TrendRow>, b: seq<TrendRow>, format: Formatter)
    ensures Trends(a + b, format) == Trends(a, format) + Trends(b, format)
  {
  }

  /**
   * With a formatter that tells days apart, a row for a day outside the window leaves
   * the trend unchanged.
   */
  lemma OldRowIgnored(a: seq<TrendRow>, row: TrendRow, b: seq<TrendRow>, today: int, format: Formatter, draws: seq<nat>)
    requires |draws| == 30 && forall i :: 0 <= i < 30 ==> draws[i] < 5
    requires forall d1, d2 :: format(d1) == format(d2) ==> d1 == d2
    requires row.day < today - 29 || row.day > today
    requires a + b != []
    ensures UsageTrends(a + [row] + b, today, format, draws) == UsageTrends(a + b, today, format, draws)
  {
    var labels := Window(today, format);
    var t := UsageTrend(format(row.day), ParseInt(row.usage_count));
    forall i | 0 <= i < 30
      ensures labels[i] != t.date
    {
      assert labels[i] == format(today - (29 - i));
      assert today - (29 - i) != row.day;
    }
    TrendsAppend(a + [row], b, format);
    TrendsAppend(a, [row], format);
    TrendsAppend(a, b, format);
    assert Trends([row], format) == [t];
    OutsidePointIgnored(labels, Trends(a, format), t, Trends(b, format));
  }

  /** A single row for today fills the last point and leaves the other 29 at zero. */
  lemma SingleRowToday(today: int, format: Formatter, count: nat, draws: seq<nat>)
    requires |draws| == 30 && forall i :: 0 <= i < 30 ==> draws[i] < 5
    requires forall d1, d2 :: format(d1) == format(d2) ==> d1 == d2
    ensures var r := UsageTrends([TrendRow(today, NatToString(count))], today, format, draws);
            && r[29] == UsageTrend(format(today), Num(count as real))
            && forall i :: 0 <= i < 29 ==> r[i] == UsageTrend(format(today - (29 - i)), Num(0.0))
  {
    ParseIntOfIntToString(count);
    var trends := Trends([TrendRow(today, NatToString(count))], format);
    assert trends == [UsageTrend(format(today), Num(count as real))];
  }

  /** One entry of the popular-ingredient ranking. */
  datatype PopularIngredient = PopularIngredient(name: string, usageCount: Number)

  /** One row of the ranking query. */
  datatype PopularRow = PopularRow(name: string, usage_count: string)

  /** The default number of entries. */
  const DefaultLimit: int := 10

  /** The names the fallback draws from. */
  const DummyIngredients: seq<string> := [
    "トマト", "玉ねぎ", "にんにく", "豚肉", "じゃがいも",
    "にんじん", "鶏肉", "ブロッコリー", "ピーマン", "きのこ",
    "キャベツ", "なす", "豆腐", "白菜", "ベーコン"
  ]

  /** The rows as entries, in query order, the count read with `parseInt`. */
  function PopularFromRows(rows: seq<PopularRow>): (r: seq<PopularIngredient>)
    ensures |r| == |rows|
    ensures forall i :: 0 <= i < |rows| ==>
              r[i].name == rows[i].name && r[i].usageCount == ParseInt(rows[i].usage_count)
  {
    seq(|rows|, i requires 0 <= i < |rows| => PopularIngredient(rows[i].name, ParseInt(rows[i].usage_count)))
  }

  /** The end `slice(0, end)` uses on a list of `length` elements. */
  function SliceEnd(length: nat, end: int): (e: nat)
    ensures e <= length
    ensures end >= 0 ==> e == Min(end, length)
    ensures end < 0 ==> e == (if length + end > 0 then length + end else 0)
  {
    if end < 0 then (if length + end > 0 then length + end else 0)
    else if end < length then end else length
  }

  /** The sort key of an entry: its count (every fallback count is a number). */
  function Count(p: PopularIngredient): real
  {
    match p.usageCount
    case Num(v) => v
    case NaN => 0.0
  }

  ghost predicate SortedByCountDesc(s: seq<PopularIngredient>)
  {
    forall k, l :: 0 <= k < l < |s| ==> Count(s[k]) >= Count(s[l])
  }

  /** Exchanges two neighbouring entries. */
  method SwapWithPrevious(a: array<PopularIngredient>, j: int)
    requires 0 < j < a.Length
    modifies a
    ensures a[j - 1] == old(a[j]) && a[j] == old(a[j - 1])
    ensures forall m :: 0 <= m < a.Length && m != j - 1 && m != j ==> a[m] == old(a[m])
    ensures multiset(a[..]) == old(multiset(a[..]))
  {
    a[j - 1], a[j] := a[j], a[j - 1];
  }

  /**
   * One pass of the insertion sort: moves `a[i]` left past every entry with a smaller
   * count, so the first `i + 1` entries are sorted; later entries stay where they are.
   */
  method Sink(a: array<PopularIngredient>, i: int)
    requires 0 <= i < a.Length
    requires forall k, l :: 0 <= k < l < i ==> Count(a[k]) >= Count(a[l])
    modifies a
    ensures forall k, l :: 0 <= k < l <= i ==> Count(a[k]) >= Count(a[l])
    ensures forall m :: i < m < a.Length ==> a[m] == old(a[m])
    ensures multiset(a[..]) == old(multiset(a[..]))
  {
    var j := i;
    while j > 0 && Count(a[j - 1]) < Count(a[j])
      invariant 0 <= j <= i
      invariant forall k, l :: 0 <= k < l <= i && k != j && l != j ==> Count(a[k]) >= Count(a[l])
      invariant forall l :: j < l <= i ==> Count(a[j]) > Count(a[l])
      invariant forall m :: i < m < a.Length ==> a[m] == old(a[m])
      invariant multiset(a[..]) == old(multiset(a[..]))
    {
      SwapWithPrevious(a, j);
      j := j - 1;
    }
  }

  /** The in-place sort by count, largest first (an insertion sort; ties keep their order). */
  method SortByCountDesc(a: array<PopularIngredient>)
    modifies a
    ensures SortedByCountDesc(a[..])
    ensures multiset(a[..]) == multiset(old(a[..]))
  {
    var i := 0;
    while i < a.Length
      invariant 0 <= i <= a.Length
      invariant forall k, l :: 0 <= k < l < i ==> Count(a[k]) >= Count(a[l])
      invariant multiset(a[..]) == multiset(old(a[..]))
    {
      Sink(a, i);
      i := i + 1;
    }
  }

  /** The fallback itself: the first `n` shuffled names with their counts, sorted in place. */
  method SortedFallback(shuffled: seq<string>, draws: seq<nat>, n: nat) returns (r: seq<PopularIngredient>)
    requires n <= |shuffled| && n <= |draws|
    ensures |r| == n
    ensures SortedByCountDesc(r)
    ensures multiset(r) == multiset(DummyData(shuffled, draws, n))
  {
    var data := DummyData(shuffled, draws, n);
    var a := new PopularIngredient[n](i requires 0 <= i < n => data[i]);
    assert a[..] == data;
    SortByCountDesc(a);
    r := a[..];
    assert |r| == |multiset(r)| == |multiset(data)| == n;
  }

  /**
   * `getPopularIngredients` after its query: the rows when there are any; otherwise the
   * first `SliceEnd(15, limit)` names of a shuffle of the dummy names, each with count
   * 1 + its random draw (each below 20), sorted by count, largest first.
   */
  method PopularIngredients(rows: seq<PopularRow>, limit: int, shuffled: seq<string>, draws: seq<nat>)
    returns (r: seq<PopularIngredient>)
    requires |shuffled| == |DummyIngredients| && multiset(shuffled) == multiset(DummyIngredients)
    requires |draws| == |DummyIngredients| && forall i :: 0 <= i < |draws| ==> draws[i] < 20
    ensures rows != [] ==> r == PopularFromRows(rows)
    ensures rows == [] ==> && |r| == SliceEnd(|DummyIngredients|, limit)
                           && SortedByCountDesc(r)
                           && multiset(r) == multiset(DummyData(shuffled, draws, SliceEnd(|DummyIngredients|, limit)))
  {
    if rows != [] {
      return PopularFromRows(rows);
    }
    r := SortedFallback(shuffled, draws, SliceEnd(|DummyIngredients|, limit));
  }

  /** The unsorted fallback: the first `n` shuffled names with their counts. */
  function DummyData(shuffled: seq<string>, draws: seq<nat>, n: nat): (d: seq<PopularIngredient>)
    requires n <= |shuffled| && n <= |draws|
    ensures |d| == n
    ensures forall i :: 0 <= i < n ==> d[i].name == shuffled[i] && d[i].usageCount == Num((draws[i] + 1) as real)
  {
    seq(n, i requires 0 <= i < n => PopularIngredient(shuffled[i], Num((draws[i] + 1) as real)))
  }

  /** A non-negative limit bounds the fallback's length, and every fallback count lies in 1..20. */
  lemma FallbackBounds(shuffled: seq<string>, draws: seq<nat>, limit: int)
    requires |shuffled| == |DummyIngredients|
    requires |draws| == |DummyIngredients| && forall i :: 0 <= i < |draws| ==> draws[i] < 20
    ensures limit >= 0 ==> SliceEnd(|DummyIngredients|, limit) <= limit
    ensures var d := DummyData(shuffled, draws, SliceEnd(|DummyIngredients|, limit));
            forall i :: 0 <= i < |d| ==> 1.0 <= Count(d[i]) <= 20.0
  {
  }
}
