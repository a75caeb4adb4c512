/**
 * The data handling of the analytics manager (`youtube_analytics_tools.py`): reshaping report
 * rows into day records, period statistics, the best day, the view trend, the comparison
 * rankings, correlations and best practices, the audience summary and the parsing of the
 * comparison tool's id list.  The Analytics API answers are parameters; numbers are exact
 * reals (Python's float rounding is not modelled).
 */
module YoutubeAnalyticsTools {
  import opened Seqs
  import opened Text
  import opened JsonValue

  // ---------------------------------------------------------------------------
  // Report rows to day records
  // ---------------------------------------------------------------------------

  /** The key a column is stored under: the `day` dimension becomes `date`. */
  function KeyOf(name: string): string
  {
    if name == "day" then "date" else name
  }

  /** The dict built for one row: each header's cell under its key, a later header overwriting an earlier one. */
  function DayRecord(names: seq<string>, row: seq<Json>): (r: map<string, Json>)
    requires |names| <= |row|
    ensures "day" !in r
    ensures forall k :: k in r <==> exists i :: 0 <= i < |names| && KeyOf(names[i]) == k
  {
    if names == [] then map[]
    else
      var n := |names| - 1;
      var prev := DayRecord(names[..n], row);
      assert forall i :: 0 <= i < n ==> names[..n][i] == names[i];
      prev[KeyOf(names[n]) := row[n]]
  }

  /**
   * `daily_data`: one record per row, in order; `None` where a row has fewer cells than there
   * are headers (the `IndexError` the source raises).
   */
  function Reshape(names: seq<string>, rows: seq<seq<Json>>): (r: Option<seq<map<string, Json>>>)
    ensures r.Some? <==> forall i :: 0 <= i < |rows| ==> |names| <= |rows[i]|
    ensures r.Some? ==> |r.value| == |rows|
  {
    if rows == [] then Some([])
    else
      var n := |rows| - 1;
      assert forall i :: 0 <= i < n ==> rows[..n][i] == rows[i];
      match Reshape(names, rows[..n])
      case None => None
      case Some(prev) =>
        if |names| <= |rows[n]| then Some(prev + [DayRecord(names, rows[n])]) else None
  }

  /** The inner loop: one row's cells stored under their header keys. */
  method BuildDay(names: seq<string>, row: seq<Json>) returns (r: Option<map<string, Json>>)
    ensures r.Some? <==> |names| <= |row|
    ensures r.Some? ==> r.value == DayRecord(names, row)
  {
    var day: map<string, Json> := map[];
    for i := 0 to |names|
      invariant i <= |row|
      invariant day == DayRecord(names[..i], row)
    {
      if i >= |row| {
        return None;
      }
      assert names[..i + 1][..i] == names[..i];
      day := day[KeyOf(names[i]) := row[i]];
    }
    assert names[..|names|] == names;
    return Some(day);
  }

  /** The outer loop of the reshaping in `get_channel_analytics` and `get_video_analytics`. */
  method ReshapeRows(names: seq<string>, rows: seq<seq<Json>>) returns (r: Option<seq<map<string, Json>>>)
    ensures r == Reshape(names, rows)
  {
    var daily: seq<map<string, Json>> := [];
    for i := 0 to |rows|
      invariant Reshape(names, rows[..i]) == Some(daily)
    {
      assert rows[..i + 1][..i] == rows[..i];
      var day := BuildDay(names, rows[i]);
      if day.None? {
        ReshapeFailureSticks(names, rows, i + 1);
        return None;
      }
      daily := daily + [day.value];
    }
    assert rows[..|rows|] == rows;
    return Some(daily);
  }

  /** Once a prefix of the rows fails to reshape, so do all the rows. */
  lemma {:induction false} ReshapeFailureSticks(names: seq<string>, rows: seq<seq<Json>>, i: nat)
    requires i <= |rows| && Reshape(names, rows[..i]).None?
    ensures Reshape(names, rows).None?
  {
    var j :| 0 <= j < i && |rows[..i][j]| < |names|;
    assert rows[j] == rows[..i][j];
  }

  /** A cell is stored under its own header's key unless a later header has the same key. */
  lemma {:induction false} DayRecordCells(names: seq<string>, row: seq<Json>, i: nat)
    requires |names| <= |row| && i < |names|
    requires forall j :: i < j < |names| ==> KeyOf(names[j]) != KeyOf(names[i])
    ensures DayRecord(names, row)[KeyOf(names[i])] == row[i]
  {
    var n := |names| - 1;
    var init := names[..n];
    assert DayRecord(names, row) == DayRecord(init, row)[KeyOf(names[n]) := row[n]];
    if i < n {
      assert init[i] == names[i];
      assert KeyOf(names[i]) != KeyOf(names[n]);
      forall j | i < j < |init| ensures KeyOf(init[j]) != KeyOf(init[i]) {
        assert init[j] == names[j];
      }
      DayRecordCells(init, row, i);
    }
  }

  // ---------------------------------------------------------------------------
  // Period statistics
  // ---------------------------------------------------------------------------

  /**
   * A numeric cell.  A cell that is not a number (where Python's `sum` or comparison would
   * raise) reads as 0.
   */
  function Num(j: Json): real
  {
    match j
    case JInt(i) => i as real
    case JReal(x) => x
    case JBool(b) => if b then 1.0 else 0.0
    case _ => 0.0
  }

  /** `day.get(metric, 0)` for every day, as numbers. */
  function Values(daily: seq<map<string, Json>>, metric: string): (r: seq<real>)
    ensures |r| == |daily|
    ensures forall i :: 0 <= i < |daily| ==> r[i] == Num(Get(daily[i], metric, JInt(0)))
  {
    if daily == [] then []
    else Values(daily[..|daily| - 1], metric) + [Num(Get(daily[|daily| - 1], metric, JInt(0)))]
  }

  function RealSum(s: seq<real>): real
  {
    if s == [] then 0.0 else RealSum(s[..|s| - 1]) + s[|s| - 1]
  }

  /** Python's `min` over a non-empty list. */
  function MinOf(s: seq<real>): real
    requires s != []
  {
    if |s| == 1 then s[0]
    else
      var p := MinOf(s[..|s| - 1]);
      if s[|s| - 1] < p then s[|s| - 1] else p
  }

  /** Python's `max` over a non-empty list. */
  function MaxOf(s: seq<real>): real
    requires s != []
  {
    if |s| == 1 then s[0]
    else
      var p := MaxOf(s[..|s| - 1]);
      if s[|s| - 1] > p then s[|s| - 1] else p
  }

  /** `min` and `max` pick an element that is below, respectively above, every element. */
  lemma {:induction false} MinMaxBound(s: seq<real>)
    requires s != []
    ensures MinOf(s) in s && forall x :: x in s ==> MinOf(s) <= x
    ensures MaxOf(s) in s && forall x :: x in s ==> x <= MaxOf(s)
  {
    if |s| > 1 {
      var init := s[..|s| - 1];
      MinMaxBound(init);
      assert forall x :: x in s ==> x in init || x == s[|s| - 1];
      assert forall x :: x in init ==> x in s;
    }
  }

  /** A metric's entry in `total_stats` (the average is not modelled). */
  datatype PeriodStat = PeriodStat(total: real, min: real, max: real)

  function StatOf(daily: seq<map<string, Json>>, metric: string): PeriodStat
    requires daily != []
  {
    var v := Values(daily, metric);
    PeriodStat(RealSum(v), MinOf(v), MaxOf(v))
  }

  /** `_calculate_period_stats`: an entry per metric other than `day`, none when there are no days. */
  function PeriodStats(daily: seq<map<string, Json>>, metrics: seq<string>): map<string, PeriodStat>
  {
    if metrics == [] then map[]
    else
      var m := metrics[|metrics| - 1];
      var prev := PeriodStats(daily, metrics[..|metrics| - 1]);
      if m == "day" || daily == [] then prev else prev[m := StatOf(daily, m)]
  }

  /** The loop of `_calculate_period_stats`. */
  method CalculatePeriodStats(daily: seq<map<string, Json>>, metrics: seq<string>) returns (stats: map<string, PeriodStat>)
    ensures stats == PeriodStats(daily, metrics)
  {
    stats := map[];
    for i := 0 to |metrics|
      invariant stats == PeriodStats(daily, metrics[..i])
    {
      assert metrics[..i + 1][..i] == metrics[..i];
      var metric := metrics[i];
      if metric == "day" {
        continue;
      }
      var values := Values(daily, metric);
      if values != [] {
        stats := stats[metric := PeriodStat(RealSum(values), MinOf(values), MaxOf(values))];
      }
    }
    assert metrics[..|metrics|] == metrics;
  }

  /** A metric has an entry exactly when there are days and it is a requested metric other than `day`; the entry holds its statistics. */
  lemma {:induction false} PeriodStatsKeys(daily: seq<map<string, Json>>, metrics: seq<string>, m: string)
    ensures m in PeriodStats(daily, metrics) <==> daily != [] && m in metrics && m != "day"
    ensures m in PeriodStats(daily, metrics) ==> PeriodStats(daily, metrics)[m] == StatOf(daily, m)
  {
    if metrics != [] {
      var n := |metrics| - 1;
      PeriodStatsKeys(daily, metrics[..n], m);
      assert m in metrics <==> m in metrics[..n] || m == metrics[n] by {
        assert metrics == metrics[..n] + [metrics[n]];
      }
    }
  }

  lemma {:induction false} RealSumBounds(s: seq<real>, lo: real, hi: real)
    requires forall x :: x in s ==> lo <= x <= hi
    ensures lo * |s| as real <= RealSum(s) <= hi * |s| as real
  {
    if s != [] {
      var init := s[..|s| - 1];
      assert forall x :: x in init ==> x in s;
      assert s[|s| - 1] in s;
      RealSumBounds(init, lo, hi);
      assert lo * |s| as real == lo * |init| as real + lo;
      assert hi * |s| as real == hi * |init| as real + hi;
    }
  }

  lemma TotalBetween(v: seq<real>)
    requires v != []
    ensures MinOf(v) * |v| as real <= RealSum(v) <= MaxOf(v) * |v| as real
  {
    MinMaxBound(v);
    RealSumBounds(v, MinOf(v), MaxOf(v));
  }

  /** Every day's value lies between the entry's `min` and `max`. */
  lemma PeriodStatBounds(daily: seq<map<string, Json>>, metric: string)
    requires daily != []
    ensures forall i :: 0 <= i < |daily| ==>
      StatOf(daily, metric).min <= Num(Get(daily[i], metric, JInt(0))) <= StatOf(daily, metric).max
  {
    var v := Values(daily, metric);
    assert forall i :: 0 <= i < |daily| ==> v[i] in v;
    MinMaxBound(v);
  }

  /** The entry's `total` lies between `n·min` and `n·max` for a period of `n` days. */
  lemma PeriodTotalBounds(daily: seq<map<string, Json>>, metric: string)
    requires daily != []
    ensures StatOf(daily, metric).min * |daily| as real <= StatOf(daily, metric).total
    ensures StatOf(daily, metric).total <= StatOf(daily, metric).max * |daily| as real
  {
    var v := Values(daily, metric);
    TotalBetween(v);
    assert |v| as real == |daily| as real;
  }

  // ---------------------------------------------------------------------------
  // Best day and trend
  // ---------------------------------------------------------------------------

  function ViewsOfDay(day: map<string, Json>): real { Num(Get(day, "views", JInt(0))) }

  /** `max(daily_data, key=views)`: the first day with the most views. */
  function BestIndex(daily: seq<map<string, Json>>): (k: nat)
    requires daily != []
    ensures k < |daily|
    ensures forall i :: 0 <= i < |daily| ==> ViewsOfDay(daily[i]) <= ViewsOfDay(daily[k])
    ensures forall i :: 0 <= i < k ==> ViewsOfDay(daily[i]) < ViewsOfDay(daily[k])
  {
    if |daily| == 1 then 0
    else
      var n := |daily| - 1;
      var k := BestIndex(daily[..n]);
      assert forall i :: 0 <= i < n ==> daily[..n][i] == daily[i];
      if ViewsOfDay(daily[n]) > ViewsOfDay(daily[k]) then n else k
  }

  datatype BestDay = BestDay(date: Json, views: Json, watchTimeMinutes: Json, engagement: real)

  /** `_find_best_day`: nothing for no days; engagement is likes plus comments. */
  function FindBestDay(daily: seq<map<string, Json>>): (r: Option<BestDay>)
    ensures r.None? <==> daily == []
  {
    if daily == [] then None
    else
      var d := daily[BestIndex(daily)];
      Some(BestDay(Get(d, "date", JNull), Get(d, "views", JInt(0)), Get(d, "estimatedMinutesWatched", JInt(0)),
                   Num(Get(d, "likes", JInt(0))) + Num(Get(d, "comments", JInt(0)))))
  }

  datatype Trend = InsufficientData | ViewsTrend(verdict: string)

  /** The trend of a series of daily views: the halves split at `n // 2`, compared within ±10%. */
  function TrendOf(views: seq<real>): Trend
  {
    if |views| < 3 then InsufficientData
    else
      var mid := |views| / 2;
      var first := Average(views[..mid]);
      var second := Average(views[mid..]);
      if second > first * 1.1 then ViewsTrend("上昇傾向")
      else if second < first * 0.9 then ViewsTrend("下降傾向")
      else ViewsTrend("横ばい")
  }

  function Average(s: seq<real>): real
    requires s != []
  {
    RealSum(s) / |s| as real
  }

  /** `_analyze_trends`. */
  function AnalyzeTrends(daily: seq<map<string, Json>>): Trend
  {
    TrendOf(Values(daily, "views"))
  }

  lemma {:induction false} RealSumConstant(s: seq<real>, v: real)
    requires forall x :: x in s ==> x == v
    ensures RealSum(s) == v * |s| as real
  {
    if s != [] {
      var init := s[..|s| - 1];
      assert forall x :: x in init ==> x in s;
      assert s[|s| - 1] in s;
      RealSumConstant(init, v);
      assert v * |s| as real == v * |init| as real + v;
    }
  }

  lemma {:induction false} RealSumNonNegative(s: seq<real>)
    requires forall x :: x in s ==> x >= 0.0
    ensures RealSum(s) >= 0.0
    ensures (exists x :: x in s && x > 0.0) ==> RealSum(s) > 0.0
  {
    if s != [] {
      var init := s[..|s| - 1];
      assert s == init + [s[|s| - 1]];
      assert forall x :: x in s <==> x in init || x == s[|s| - 1];
      assert s[|s| - 1] in s;
      RealSumNonNegative(init);
    }
  }

  /** The average of equal values is that value. */
  lemma AverageConstant(s: seq<real>, v: real)
    requires s != [] && forall x :: x in s ==> x == v
    ensures Average(s) == v
  {
    RealSumConstant(s, v);
    var m := |s| as real;
    assert RealSum(s) == v * m;
    assert (v * m) / m == v;
  }

  /** The average of non-negative values, one of them positive, is positive. */
  lemma AveragePositive(s: seq<real>)
    requires s != [] && forall x :: x in s ==> x >= 0.0
    requires exists x :: x in s && x > 0.0
    ensures Average(s) > 0.0
  {
    RealSumNonNegative(s);
  }

  /** Three or more days with the same (non-negative) views are flat. */
  lemma ConstantViewsFlat(views: seq<real>, v: real)
    requires |views| >= 3 && v >= 0.0 && forall x :: x in views ==> x == v
    ensures TrendOf(views) == ViewsTrend("横ばい")
  {
    var mid := |views| / 2;
    assert forall x :: x in views[..mid] ==> x in views;
    assert forall x :: x in views[mid..] ==> x in views;
    AverageConstant(views[..mid], v);
    AverageConstant(views[mid..], v);
  }

  /**
   * Views that appear only in the later half are rising, and views that stop in the later
   * half are falling.
   */
  lemma OneSidedViews(views: seq<real>)
    requires |views| >= 3 && forall x :: x in views ==> x >= 0.0
    ensures var mid := |views| / 2;
      (((forall x :: x in views[..mid] ==> x == 0.0) && (exists x :: x in views[mid..] && x > 0.0))
         ==> TrendOf(views) == ViewsTrend("上昇傾向"))
      && (((exists x :: x in views[..mid] && x > 0.0) && (forall x :: x in views[mid..] ==> x == 0.0))
         ==> TrendOf(views) == ViewsTrend("下降傾向"))
  {
    var mid := |views| / 2;
    var first := views[..mid];
    var second := views[mid..];
    assert forall x :: x in first ==> x in views;
    assert forall x :: x in second ==> x in views;
    if (forall x :: x in first ==> x == 0.0) && (exists x :: x in second && x > 0.0) {
      AverageConstant(first, 0.0);
      AveragePositive(second);
    }
    if (exists x :: x in first && x > 0.0) && (forall x :: x in second ==> x == 0.0) {
      AveragePositive(first);
      AverageConstant(second, 0.0);
    }
  }

  // ---------------------------------------------------------------------------
  // Video comparison
  // ---------------------------------------------------------------------------

  datatype Comparison =
    | Measured(videoId: string, views: real, watchTimeMinutes: real, likes: real, comments: real,
               shares: real, subscribersGained: real, engagementRate: real)
    | Unavailable(videoId: string, error: string)

  /** `(likes + comments) / views * 100`, or 0 for a video without views. */
  function EngagementRate(views: real, likes: real, comments: real): real
  {
    if views > 0.0 then (likes + comments) / views * 100.0 else 0.0
  }

  /**
   * `_get_video_comparison_data`: `rows` is the report's rows, `None` when the request
   * raised.  A row with fewer than six cells raises too, and is caught the same way.
   */
  function ComparisonOf(videoId: string, rows: Option<seq<seq<real>>>): (r: Comparison)
    ensures r.videoId == videoId
  {
    match rows
    case None => Unavailable(videoId, "データ取得エラー")
    case Some(rs) =>
      if rs == [] then Unavailable(videoId, "データなし")
      else
        var row := rs[0];
        if |row| < 6 then Unavailable(videoId, "データ取得エラー")
        else Measured(videoId, row[0], row[1], row[2], row[3], row[4], row[5], EngagementRate(row[0], row[2], row[3]))
  }

  const RankedMetrics: seq<string> := ["views", "watch_time_minutes", "engagement_rate", "subscribers_gained"]

  function MetricOf(c: Comparison, metric: string): real
    requires c.Measured?
  {
    if metric == "views" then c.views
    else if metric == "watch_time_minutes" then c.watchTimeMinutes
    else if metric == "engagement_rate" then c.engagementRate
    else c.subscribersGained
  }

  datatype Rank = Rank(videoId: string, value: real)

  function RankValue(r: Rank): real { r.value }

  /** The measured videos' values for one metric, in comparison order. */
  function RankEntries(data: seq<Comparison>, metric: string): (r: seq<Rank>)
    ensures |r| <= |data|
    ensures forall x :: x in r ==> exists c :: c in data && c.Measured? && x == Rank(c.videoId, MetricOf(c, metric))
  {
    if data == [] then []
    else
      var n := |data| - 1;
      var c := data[n];
      assert forall x :: x in data[..n] ==> x in data;
      RankEntries(data[..n], metric) + (if c.Measured? then [Rank(c.videoId, MetricOf(c, metric))] else [])
  }

  lemma {:induction false} RankEntriesEmpty(data: seq<Comparison>, metric: string)
    ensures RankEntries(data, metric) == [] <==> forall c :: c in data ==> !c.Measured?
  {
    if data != [] {
      var n := |data| - 1;
      RankEntriesEmpty(data[..n], metric);
      assert forall c :: c in data <==> c in data[..n] || c == data[n];
    }
  }

  /** `_create_performance_rankings`: for each metric with a measured video, the videos by that metric, highest first. */
  function Rankings(data: seq<Comparison>): map<string, seq<Rank>>
  {
    map m | m in RankedMetrics && RankEntries(data, m) != [] :: SortDesc(RankEntries(data, m), RankValue)
  }

  /**
   * A metric has a ranking exactly when some video was measured; each ranking lists every
   * measured video once, by non-increasing value.
   */
  lemma RankingsRanked(data: seq<Comparison>)
    ensures var r := Rankings(data);
      (forall m :: m in r ==> m in RankedMetrics)
      && (forall m :: m in RankedMetrics ==> (m in r <==> exists c :: c in data && c.Measured?))
      && (forall m :: m in r ==> SortedDesc(r[m], RankValue) && multiset(r[m]) == multiset(RankEntries(data, m)))
  {
    forall m | m in RankedMetrics {
      RankEntriesEmpty(data, m);
    }
  }

  datatype Correlation = TooFewVideos | Correlation(positive: bool, highPerformers: nat, highEngagement: nat)

  const TooFewMessage: string := "データ不足のため相関分析できません"

  predicate HighWatchTime(c: Comparison) { c.Measured? && c.watchTimeMinutes > 1000.0 }
  predicate HighEngagement(c: Comparison) { c.Measured? && c.engagementRate > 2.0 }
  predicate IsMeasured(c: Comparison) { c.Measured? }

  /** `len([d for d in xs if d in ys])`. */
  function CountIn(xs: seq<Comparison>, ys: seq<Comparison>): nat
  {
    if xs == [] then 0 else (if xs[0] in ys then 1 else 0) + CountIn(xs[1..], ys)
  }

  /** `_analyze_correlations`; the overlap counts the high-watch-time entries found in the high-engagement list. */
  function Correlations(data: seq<Comparison>): Correlation
  {
    var valid := Filter(data, IsMeasured);
    if |valid| < 2 then TooFewVideos
    else
      var highWatch := Filter(valid, HighWatchTime);
      var highEngagement := Filter(valid, HighEngagement);
      Correlation(3 * CountIn(highWatch, highEngagement) > |valid|, |highWatch|, |highEngagement|)
  }

  predicate HighBoth(c: Comparison) { HighWatchTime(c) && HighEngagement(c) }

  lemma {:induction false} CountInFilter(xs: seq<Comparison>, ys: seq<Comparison>)
    requires forall x :: x in xs ==> (x in ys <==> HighEngagement(x))
    ensures CountIn(xs, ys) == |Filter(xs, HighEngagement)|
  {
    if xs != [] {
      assert forall x :: x in xs[1..] ==> x in xs;
      assert xs[0] in xs;
      CountInFilter(xs[1..], ys);
    }
  }

  lemma {:induction false} FilterHighBoth(s: seq<Comparison>)
    ensures Filter(Filter(s, HighWatchTime), HighEngagement) == Filter(s, HighBoth)
  {
    if s != [] {
      FilterHighBoth(s[1..]);
      FilterAppend(if HighWatchTime(s[0]) then [s[0]] else [], Filter(s[1..], HighWatchTime), HighEngagement);
      assert Filter(if HighWatchTime(s[0]) then [s[0]] else [], HighEngagement) == if HighBoth(s[0]) then [s[0]] else [];
    }
  }

  /**
   * The correlation is positive exactly when more than a third of the measured videos have
   * both a high watch time and a high engagement rate.
   */
  lemma CorrelationCountsBoth(data: seq<Comparison>)
    ensures var valid := Filter(data, IsMeasured);
      var r := Correlations(data);
      (r.TooFewVideos? <==> |valid| < 2)
      && (r.Correlation? ==> (r.positive <==> 3 * |Filter(valid, HighBoth)| > |valid|))
  {
    var valid := Filter(data, IsMeasured);
    if |valid| >= 2 {
      var highWatch := Filter(valid, HighWatchTime);
      var highEngagement := Filter(valid, HighEngagement);
      forall x | x in highWatch ensures x in highEngagement <==> HighEngagement(x) {
        assert x in valid;
        FilterMultiset(valid, HighEngagement, x);
        assert multiset(valid)[x] > 0;
      }
      CountInFilter(highWatch, highEngagement);
      FilterHighBoth(valid);
    }
  }

  const NeedMoreData: string := "より多くのデータが必要です"
  const TopViewsPractice: string := "高視聴回数の動画は高エンゲージメント率も達成"
  const WatchTimePractice: string := "長時間視聴される動画コンテンツが効果的"

  /** `next(d for d in data if d['video_id'] == id)`. */
  function FirstWithId(data: seq<Comparison>, id: string): (r: Option<Comparison>)
    ensures r.Some? ==> r.value in data && r.value.videoId == id
    ensures r.None? ==> forall c :: c in data ==> c.videoId != id
  {
    if data == [] then None
    else if data[0].videoId == id then Some(data[0])
    else FirstWithId(data[1..], id)
  }

  /** `top_video.get('engagement_rate', 0)`. */
  function EngagementOf(c: Comparison): real
  {
    if c.Measured? then c.engagementRate else 0.0
  }

  function TopViewsEngaged(data: seq<Comparison>, rankings: map<string, seq<Rank>>): bool
  {
    "views" in rankings && rankings["views"] != []
    && match FirstWithId(data, rankings["views"][0].videoId)
       case None => false
       case Some(top) => EngagementOf(top) > 3.0
  }

  function LongWatched(rankings: map<string, seq<Rank>>): bool
  {
    "watch_time_minutes" in rankings && rankings["watch_time_minutes"] != []
    && rankings["watch_time_minutes"][0].value > 5000.0
  }

  /** `_extract_best_practices`. */
  function BestPractices(data: seq<Comparison>, rankings: map<string, seq<Rank>>): (r: seq<string>)
    ensures 1 <= |r| <= 2
    ensures r == [NeedMoreData] <==> !TopViewsEngaged(data, rankings) && !LongWatched(rankings)
  {
    assert TopViewsPractice[0] != NeedMoreData[0] && WatchTimePractice[0] != NeedMoreData[0];
    assert [TopViewsPractice][0] != [NeedMoreData][0] && [WatchTimePractice][0] != [NeedMoreData][0];
    assert [TopViewsPractice, WatchTimePractice] != [NeedMoreData];
    var practices := (if TopViewsEngaged(data, rankings) then [TopViewsPractice] else [])
                   + (if LongWatched(rankings) then [WatchTimePractice] else []);
    if practices == [] then [NeedMoreData] else practices
  }

  /** Without a single measured video there are no rankings, and only the fallback practice. */
  lemma NothingMeasuredFallsBack(data: seq<Comparison>)
    requires forall c :: c in data ==> !c.Measured?
    ensures Rankings(data) == map[]
    ensures BestPractices(data, Rankings(data)) == [NeedMoreData]
  {
    forall m | m in RankedMetrics ensures RankEntries(data, m) == [] {
      RankEntriesEmpty(data, m);
    }
  }

  datatype ComparisonReport = ComparisonReport(
    videosCompared: nat, data: seq<Comparison>, rankings: map<string, seq<Rank>>,
    correlations: Correlation, bestPractices: seq<string>)

  function Comparisons(ids: seq<string>, fetch: string -> Option<seq<seq<real>>>): (r: seq<Comparison>)
    ensures |r| == |ids|
    ensures forall i :: 0 <= i < |ids| ==> r[i] == ComparisonOf(ids[i], fetch(ids[i]))
  {
    if ids == [] then [] else Comparisons(ids[..|ids| - 1], fetch) + [ComparisonOf(ids[|ids| - 1], fetch(ids[|ids| - 1]))]
  }

  /** `compare_video_performance`: one comparison entry per id, in order, then the analyses. */
  method CompareVideoPerformance(ids: seq<string>, fetch: string -> Option<seq<seq<real>>>) returns (r: ComparisonReport)
    ensures r.videosCompared == |ids| && r.data == Comparisons(ids, fetch)
    ensures r.rankings == Rankings(r.data) && r.correlations == Correlations(r.data)
    ensures r.bestPractices == BestPractices(r.data, r.rankings)
  {
    var data: seq<Comparison> := [];
    for i := 0 to |ids|
      invariant data == Comparisons(ids[..i], fetch)
    {
      assert ids[..i + 1][..i] == ids[..i];
      data := data + [ComparisonOf(ids[i], fetch(ids[i]))];
    }
    assert ids[..|ids|] == ids;
    var rankings := Rankings(data);
    r := ComparisonReport(|ids|, data, rankings, Correlations(data), BestPractices(data, rankings));
  }

  // ---------------------------------------------------------------------------
  // Audience summary and the comparison tool's ids
  // ---------------------------------------------------------------------------

  datatype AudienceSummary = AudienceSummary(
    primaryAudience: string, topCountries: seq<string>, preferredDevices: seq<string>, bestPostingTime: string)

  /**
   * `_summarize_audience_insights` on the countries and devices in report order and the
   * `peak_hours` entry (`None` when absent); an empty `peak_hours` list raises `IndexError`.
   */
  function SummarizeAudience(countries: seq<string>, devices: seq<string>, peakHours: Option<seq<string>>): (r: Option<AudienceSummary>)
    ensures r.None? <==> peakHours == Some([])
    ensures r.Some? ==>
      |r.value.topCountries| == (if |countries| < 3 then |countries| else 3) && r.value.topCountries <= countries
      && |r.value.preferredDevices| == (if |devices| < 2 then |devices| else 2) && r.value.preferredDevices <= devices
      && r.value.bestPostingTime == (if peakHours.None? then "不明" else peakHours.value[0])
  {
    var peaks := if peakHours.None? then ["不明"] else peakHours.value;
    if peaks == [] then None
    else Some(AudienceSummary("データ取得中", Take(countries, 3), Take(devices, 2), peaks[0]))
  }

  const TooFewIds: string := "比較には2つ以上の動画IDが必要です"

  /** `[vid.strip() for vid in video_ids.split(',')]`. */
  function ParseVideoIds(s: string): (r: seq<string>)
    ensures |r| == |Split(s, ',')|
    ensures forall i :: 0 <= i < |r| ==> r[i] == Strip(Split(s, ',')[i])
  {
    var parts := Split(s, ',');
    seq(|parts|, i requires 0 <= i < |parts| => Strip(parts[i]))
  }

  /** The id check of `compare_video_performance_tool`, made before any authentication. */
  function CompareToolIds(s: string): Result<seq<string>, string>
  {
    var ids := ParseVideoIds(s);
    if |ids| < 2 then Err(TooFewIds) else Ok(ids)
  }

  /** The tool refuses exactly the inputs without a comma; otherwise it has one id more than commas. */
  lemma CompareToolNeedsComma(s: string)
    ensures CompareToolIds(s).Err? <==> ',' !in s
    ensures CompareToolIds(s).Ok? ==> |CompareToolIds(s).value| == 1 + multiset(s)[',']
  {
    SplitCount(s, ',');
  }
}
