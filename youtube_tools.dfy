/**
 * The YouTube Data API tools: the parameters of a search and of a details request, the
 * short-circuits of `analyze_youtube_videos`, and the analysis report built from the video
 * details (plain totals, per-channel tallies, keyword frequencies, top lists and summaries
 * sorted by views).
 *
 * The API is an oracle from the request to the dict it answers with (an error dict when the
 * HTTP call failed). `os.getenv("YOUTUBE_API_KEY")` and `datetime.now().isoformat()` are
 * parameters, and so is the word tokenizer: `words(text)` stands for
 * `re.findall(r'\b\w+\b', text.lower())`.
 */
module YoutubeTools {
  import opened Seqs
  import opened Text
  import opened JsonValue

  const MissingKey := "YouTube API key is required"
  const NoIds := "At least one video ID is required"
  const NoVideosFound := "No videos found for the given query"
  const NoDetails := "No video details available for analysis"
  const NoInsights := "No videos available for insight generation."

  // ---------------------------------------------------------------------------
  // Request parameters
  // ---------------------------------------------------------------------------

  const ValidOrders: seq<string> := ["relevance", "date", "rating", "viewCount", "title"]

  /** `max_results` as sent: kept when in 1..50, otherwise reset to the default 10. */
  function MaxResultsParam(n: int): (r: int)
    ensures 1 <= r <= 50
    ensures 1 <= n <= 50 ==> r == n
  {
    if n < 1 || n > 50 then 10 else n
  }

  /** `order` as sent: kept when it is one of the five orders, otherwise "relevance". */
  function OrderParam(order: string): (r: string)
    ensures r in ValidOrders
    ensures order in ValidOrders ==> r == order
  {
    if order in ValidOrders then order else "relevance"
  }

  datatype SearchRequest = SearchRequest(
    key: string, part: string, q: string, kind: string, maxResults: int, order: string, publishedAfter: Option<string>)

  /** `search_youtube_videos` up to the request: the key check, then the normalised parameters. */
  function SearchVideos(query: string, maxResults: int, order: string, publishedAfter: Option<string>, key: Option<string>)
    : (r: Result<SearchRequest, string>)
    ensures r.Err? <==> !Given(key)
    ensures r.Err? ==> r.error == MissingKey
    ensures r.Ok? ==>
      var q := r.value;
      q.key == key.value && q.q == query && q.part == "snippet" && q.kind == "video"
      && 1 <= q.maxResults <= 50 && q.order in ValidOrders
      && (q.publishedAfter.Some? <==> Given(publishedAfter))
      && (Given(publishedAfter) ==> q.publishedAfter == publishedAfter)
  {
    if !Given(key) then Err(MissingKey)
    else
      Ok(SearchRequest(key.value, "snippet", query, "video", MaxResultsParam(maxResults), OrderParam(order),
                       if Given(publishedAfter) then publishedAfter else None))
  }

  datatype DetailsRequest = DetailsRequest(key: string, part: string, ids: seq<string>, idParam: string)

  /** `get_video_details` up to the request: the key, then a non-empty id list; at most 50 ids are sent. */
  function VideoDetails(videoIds: seq<string>, key: Option<string>): (r: Result<DetailsRequest, string>)
    ensures !Given(key) ==> r == Err(MissingKey)
    ensures Given(key) && videoIds == [] ==> r == Err(NoIds)
    ensures r.Ok? <==> Given(key) && videoIds != []
    ensures r.Ok? ==>
      var q := r.value;
      q.ids <= videoIds && |q.ids| == (if |videoIds| < 50 then |videoIds| else 50)
      && q.idParam == Join(q.ids, ",") && q.part == "snippet,statistics,contentDetails"
  {
    if !Given(key) then Err(MissingKey)
    else if videoIds == [] then Err(NoIds)
    else
      var ids := Take(videoIds, 50);
      Ok(DetailsRequest(key.value, "snippet,statistics,contentDetails", ids, Join(ids, ",")))
  }

  /** A dict holding only an "error" message. */
  function ErrorDict(message: string): map<string, Json>
  {
    map["error" := JStr(message)]
  }

  // ---------------------------------------------------------------------------
  // The videos of a details answer
  // ---------------------------------------------------------------------------

  /** What the report reads of one video. */
  datatype VideoFacts = VideoFacts(
    id: Json, title: Json, description: Json, channelTitle: Option<Json>, publishedAt: Json,
    views: int, likes: int, comments: int, duration: Option<string>)

  /**
   * A description the summary loop can take: a string, or a list or dict short enough that
   * `description[:200] + "..."` is never evaluated. Any other value makes `len` raise, and a
   * longer list or dict cannot be sliced and added to a string.
   */
  predicate Previewable(d: Json)
  {
    match d
    case JStr(_) => true
    case JArr(xs) => |xs| <= 200
    case JObj(m) => |m| <= 200
    case _ => false
  }

  /**
   * Reading one video, or `None` when Python raises on it in either loop of the report: a
   * video or a part of it that is not a dict, a count `int()` refuses, a duration that is not
   * a string, a channel title that cannot be a dict key, a description the preview cannot
   * take. Missing parts are `{}` and missing counts 0.
   */
  function ReadVideo(v: Json): (r: Option<VideoFacts>)
    ensures r.Some? ==> v.JObj? && Previewable(r.value.description)
  {
    if !v.JObj? then None
    else
      var snippet := Get(v.fields, "snippet", JObj(map[]));
      var statistics := Get(v.fields, "statistics", JObj(map[]));
      var details := Get(v.fields, "contentDetails", JObj(map[]));
      if !snippet.JObj? || !statistics.JObj? || !details.JObj? then None
      else
        var views := IntOf(Get(statistics.fields, "viewCount", JInt(0)));
        var likes := IntOf(Get(statistics.fields, "likeCount", JInt(0)));
        var comments := IntOf(Get(statistics.fields, "commentCount", JInt(0)));
        var duration := Get(details.fields, "duration", JStr("PT0S"));
        var channel := Get(snippet.fields, "channelTitle", JStr("Unknown"));
        var description := Get(snippet.fields, "description", JStr(""));
        if views.None? || likes.None? || comments.None? || !duration.JStr? || !Hashable(channel) || !Previewable(description) then None
        else
          Some(VideoFacts(
            Get(v.fields, "id", JStr("")), Get(snippet.fields, "title", JStr("")), description,
            if "channelTitle" in snippet.fields then Some(channel) else None,
            Get(snippet.fields, "publishedAt", JStr("")),
            views.value, likes.value, comments.value,
            if "duration" in details.fields then Some(duration.s) else None))
  }

  /** The facts of every video, or `None` when reading one of them raises. */
  function Facts(videos: seq<Json>): (r: Option<seq<VideoFacts>>)
    ensures r.Some? ==> |r.value| == |videos|
  {
    if videos == [] then Some([])
    else match Facts(videos[..|videos| - 1])
      case None => None
      case Some(fs) =>
        match ReadVideo(videos[|videos| - 1])
        case None => None
        case Some(f) => Some(fs + [f])
  }

  lemma {:induction false} FactsFailureSticks(videos: seq<Json>, i: nat, n: nat)
    requires i <= n <= |videos| && Facts(videos[..i]).None?
    ensures Facts(videos[..n]).None?
  {
    if i < n {
      FactsFailureSticks(videos, i, n - 1);
      assert videos[..n][..n - 1] == videos[..n - 1];
    }
  }

  /**
   * `video_details.get("items", [])` as the loop sees it: a list, or an empty string or dict
   * (which `len` counts as no video); anything else raises.
   */
  function ReportInput(items: Json): Option<seq<Json>>
  {
    match items
    case JArr(xs) => Some(xs)
    case JStr(s) => if s == "" then Some([]) else None
    case JObj(m) => if m == map[] then Some([]) else None
    case _ => None
  }

  function ViewsOf(f: VideoFacts): int { f.views }
  function LikesOf(f: VideoFacts): int { f.likes }
  function CommentsOf(f: VideoFacts): int { f.comments }
  function OneVideo(f: VideoFacts): int { 1 }

  /** The key a video is tallied under: its channel title, "Unknown" when it has none. */
  function ChannelKey(f: VideoFacts): Json
  {
    if f.channelTitle.Some? then f.channelTitle.value else JStr("Unknown")
  }

  // ---------------------------------------------------------------------------
  // Keywords
  // ---------------------------------------------------------------------------

  /** The text keywords are taken from: `f"{title} {description}"`. */
  function TextOf(f: VideoFacts, repr: Json -> string): string
  {
    Show(f.title, repr) + " " + Show(f.description, repr)
  }

  predicate IsKeyword(w: string) { |w| > 3 }

  function Same(w: string): string { w }
  function One(w: string): int { 1 }

  /** The keywords of the videos in order: every token longer than three characters. */
  function Keywords(facts: seq<VideoFacts>, words: string -> seq<string>, repr: Json -> string): (r: seq<string>)
    ensures forall w :: w in r ==> IsKeyword(w)
  {
    if facts == [] then []
    else Keywords(facts[..|facts| - 1], words, repr) + Filter(words(TextOf(facts[|facts| - 1], repr)), IsKeyword)
  }

  /** The `(word, frequency)` items of the keyword dict for the keys `ks`. */
  function CountsFor(ws: seq<string>, ks: seq<string>): (r: seq<(string, int)>)
    ensures |r| == |ks|
    ensures forall i :: 0 <= i < |ks| ==> r[i] == (ks[i], Total(ws, Same, One, ks[i]))
  {
    if ks == [] then [] else [(ks[0], Total(ws, Same, One, ks[0]))] + CountsFor(ws, ks[1..])
  }

  /** `top_keywords`: the ten most frequent keywords, ties in first-seen order. */
  function TopKeywords(ws: seq<string>): seq<(string, int)>
  {
    Take(SortDesc(CountsFor(ws, KeysOf(ws, Same)), PairCount), 10)
  }

  // ---------------------------------------------------------------------------
  // Channels
  // ---------------------------------------------------------------------------

  datatype ChannelStat = ChannelStat(channel: Json, videoCount: int, totalViews: int)

  function StatOf(facts: seq<VideoFacts>, k: Json): ChannelStat
  {
    ChannelStat(k, Total(facts, ChannelKey, OneVideo, k), Total(facts, ChannelKey, ViewsOf, k))
  }

  /** The channel dict's entries for the keys `ks`, in that order. */
  function StatsFor(facts: seq<VideoFacts>, ks: seq<Json>): (r: seq<ChannelStat>)
    ensures |r| == |ks|
    ensures forall i :: 0 <= i < |ks| ==> r[i] == StatOf(facts, ks[i])
  {
    if ks == [] then [] else [StatOf(facts, ks[0])] + StatsFor(facts, ks[1..])
  }

  /** The channel dict's entries, in insertion order. */
  function ChannelStats(facts: seq<VideoFacts>): seq<ChannelStat>
  {
    StatsFor(facts, KeysOf(facts, ChannelKey))
  }

  function ViewsKey(c: ChannelStat): real { c.totalViews as real }
  function StatCount(c: ChannelStat): int { c.videoCount }
  function StatViews(c: ChannelStat): int { c.totalViews }

  /** `top_channels`: the five channels with the most views, ties in first-seen order. */
  function TopChannels(facts: seq<VideoFacts>): seq<ChannelStat>
  {
    Take(SortDesc(ChannelStats(facts), ViewsKey), 5)
  }

  // ---------------------------------------------------------------------------
  // Video summaries
  // ---------------------------------------------------------------------------

  datatype Summary = Summary(
    title: Json, channel: Json, published: Json, views: int, likes: int, comments: int,
    duration: string, url: string, preview: Json)

  /** `description_preview`: the description up to 200 characters, cut there and marked with "..." when longer. */
  function Preview(d: string): (r: string)
    ensures |d| <= 200 ==> r == d
    ensures |d| > 200 ==> |r| == 203 && r[..200] == d[..200] && r[200..] == "..."
  {
    if |d| > 200 then d[..200] + "..." else d
  }

  /** `description_preview` of any description the loop takes: a list or dict is kept as it is. */
  function PreviewOf(d: Json): Json
  {
    if d.JStr? then JStr(Preview(d.s)) else d
  }

  /** One entry of `video_summaries`; its channel defaults to "" where the tally's defaults to "Unknown". */
  function SummaryOf(f: VideoFacts, repr: Json -> string): Summary
  {
    Summary(f.title, if f.channelTitle.Some? then f.channelTitle.value else JStr(""), f.publishedAt,
            f.views, f.likes, f.comments, if f.duration.Some? then f.duration.value else "",
            "https://www.youtube.com/watch?v=" + Show(f.id, repr), PreviewOf(f.description))
  }

  /** The summaries in video order, before sorting. */
  function SummaryList(facts: seq<VideoFacts>, repr: Json -> string): (r: seq<Summary>)
    ensures |r| == |facts|
    ensures forall i :: 0 <= i < |facts| ==> r[i] == SummaryOf(facts[i], repr)
  {
    if facts == [] then [] else SummaryList(facts[..|facts| - 1], repr) + [SummaryOf(facts[|facts| - 1], repr)]
  }

  function SummaryViews(s: Summary): real { s.views as real }

  // ---------------------------------------------------------------------------
  // Insights
  // ---------------------------------------------------------------------------

  /** `"{:,}".format(n)` for a non-negative `n`: digits in groups of three separated by commas. */
  function Thousands(n: nat): string
  {
    if n < 1000 then NatToString(n) else Thousands(n / 1000) + "," + Digits3(n % 1000)
  }

  predicate NotComma(c: char) { c != ',' }

  /** The text with its separators taken out. */
  function Unseparated(s: string): string { Filter(s, NotComma) }

  /** A comma between two parts disappears when the separators are taken out. */
  lemma UnseparatedJoin(head: string, tail: string)
    requires AllDigits(tail)
    ensures Unseparated(head + "," + tail) == Unseparated(head) + tail
  {
    FilterAppend(head + ",", tail, NotComma);
    FilterAppend(head, ",", NotComma);
    assert Filter(",", NotComma) == [] by {
      assert ","[1..] == [];
      assert !NotComma(',');
    }
    forall x | x in tail ensures NotComma(x) {
      var i :| 0 <= i < |tail| && tail[i] == x;
      assert IsDigit(tail[i]);
    }
    FilterAll(tail, NotComma);
    assert Unseparated(head + ",") == Unseparated(head);
  }

  lemma ThreeDigitScale()
    ensures Pow10(3) == 1000
  {
    assert Pow10(3) == 10 * Pow10(2) && Pow10(2) == 10 * Pow10(1) && Pow10(1) == 10 * Pow10(0);
  }

  /** Taking the commas out of `{:,}` leaves the decimal digits of the number. */
  lemma {:induction false} ThousandsReadsBack(n: nat)
    ensures AllDigits(Unseparated(Thousands(n))) && DigitsValue(Unseparated(Thousands(n))) == n
  {
    if n < 1000 {
      FilterAll(NatToString(n), NotComma);
    } else {
      var q, m := n / 1000, n % 1000;
      var head := Thousands(q);
      var tail := Digits3(m);
      ThousandsReadsBack(q);
      var digits := Unseparated(head);
      UnseparatedJoin(head, tail);
      assert Thousands(n) == head + "," + tail;
      DigitsValueAppend(digits, tail);
      ThreeDigitScale();
      assert |tail| == 3 && DigitsValue(digits) == q && DigitsValue(tail) == m;
      assert DigitsValue(digits + tail) == q * 1000 + m;
    }
  }

  /** `{:,}` for any integer. */
  function CountText(i: int): string
  {
    if i < 0 then "-" + Thousands(-i) else Thousands(i)
  }

  /** The first insight: the most viewed video. */
  function PopularLine(top: Summary, repr: Json -> string): string
  {
    "Most popular video: '" + Show(top.title, repr) + "' with " + CountText(top.views) + " views"
  }

  /** The insight on the top channel. */
  function ChannelLine(c: ChannelStat, repr: Json -> string): string
  {
    "Top performing channel: '" + Show(c.channel, repr) + "' with " + IntToString(c.videoCount)
    + " videos and " + CountText(c.totalViews) + " total views"
  }

  /** The insight on the top keyword. */
  function KeywordLine(k: (string, int)): string
  {
    "Most frequent keyword: '" + k.0 + "' appears " + IntToString(k.1) + " times across video titles and descriptions"
  }

  /**
   * The insights `_generate_insights` writes with integers only: the most popular video, the
   * top channel when there is one and the top keyword when there is one. Without videos it
   * writes its single message instead.
   */
  function LeadingInsights(summaries: seq<Summary>, keywords: seq<(string, int)>, channels: seq<ChannelStat>,
                           repr: Json -> string): seq<string>
  {
    if summaries == [] then [NoInsights]
    else
      [PopularLine(summaries[0], repr)]
      + (if channels == [] then [] else [ChannelLine(channels[0], repr)])
      + (if keywords == [] then [] else [KeywordLine(keywords[0])])
  }

  // ---------------------------------------------------------------------------
  // The report
  // ---------------------------------------------------------------------------

  datatype Report = Report(
    query: string, analysisDate: string, totalVideos: nat,
    totalViews: int, totalLikes: int, totalComments: int,
    topKeywords: seq<(string, int)>, topChannels: seq<ChannelStat>, summaries: seq<Summary>,
    insights: seq<string>)

  /** What `analyze_youtube_videos` returns. */
  datatype AnalyzeResult =
    | Passed(dict: map<string, Json>)  // an error dict from a call, returned unchanged
    | Failure(error: string)           // an error dict made here
    | Analyzed(report: Report)
    | Raises                           // an exception escapes the tool

  function BuildReport(facts: seq<VideoFacts>, query: string, now: string, words: string -> seq<string>,
                       repr: Json -> string): Report
  {
    var summaries := SortDesc(SummaryList(facts, repr), SummaryViews);
    var keywords := TopKeywords(Keywords(facts, words, repr));
    var channels := TopChannels(facts);
    Report(query, now, |facts|, Sum(facts, ViewsOf), Sum(facts, LikesOf), Sum(facts, CommentsOf),
           keywords, channels, summaries, LeadingInsights(summaries, keywords, channels, repr))
  }

  /** `_generate_analysis_report` on a details answer. */
  function AnalysisReport(details: map<string, Json>, query: string, now: string, words: string -> seq<string>,
                          repr: Json -> string): AnalyzeResult
  {
    match ReportInput(Get(details, "items", JArr([])))
    case None => Raises
    case Some(videos) =>
      if videos == [] then Failure(NoDetails)
      else match Facts(videos)
        case None => Raises
        case Some(facts) => Analyzed(BuildReport(facts, query, now, words, repr))
  }

  /** The facts of a prefix of the videos grow by one video per step. */
  lemma FactsStep(videos: seq<Json>, i: nat, fs: seq<VideoFacts>)
    requires i < |videos| && Facts(videos[..i]) == Some(fs)
    ensures Facts(videos[..i + 1]) == match ReadVideo(videos[i]) case None => None case Some(f) => Some(fs + [f])
  {
    assert videos[..i + 1][..i] == videos[..i];
  }

  /** The per-channel tallies after one more video. */
  lemma ChannelStep(fs: seq<VideoFacts>, f: VideoFacts)
    ensures KeysOf(fs + [f], ChannelKey)
         == if ChannelKey(f) in KeysOf(fs, ChannelKey) then KeysOf(fs, ChannelKey) else KeysOf(fs, ChannelKey) + [ChannelKey(f)]
    ensures forall k :: Total(fs + [f], ChannelKey, OneVideo, k) == Total(fs, ChannelKey, OneVideo, k) + (if ChannelKey(f) == k then 1 else 0)
    ensures forall k :: Total(fs + [f], ChannelKey, ViewsOf, k) == Total(fs, ChannelKey, ViewsOf, k) + (if ChannelKey(f) == k then f.views else 0)
    ensures ChannelKey(f) !in KeysOf(fs, ChannelKey) ==>
      Total(fs, ChannelKey, OneVideo, ChannelKey(f)) == 0 && Total(fs, ChannelKey, ViewsOf, ChannelKey(f)) == 0
  {
    var s := fs + [f];
    assert s[..|fs|] == fs && s[..|fs| + 1] == s;
    KeysOfSnoc(s, |fs|, ChannelKey);
    TotalSnoc(s, |fs|, ChannelKey, OneVideo);
    TotalSnoc(s, |fs|, ChannelKey, ViewsOf);
    if ChannelKey(f) !in KeysOf(fs, ChannelKey) {
      TotalAbsent(fs, ChannelKey, OneVideo, ChannelKey(f));
      TotalAbsent(fs, ChannelKey, ViewsOf, ChannelKey(f));
    }
  }

  /** The channel dict after the videos `facts`: its keys in insertion order, each with its video count and views. */
  ghost predicate ChannelsTallied(order: seq<Json>, counts: map<Json, int>, views: map<Json, int>, facts: seq<VideoFacts>)
  {
    order == KeysOf(facts, ChannelKey)
    && (forall k :: k in counts <==> k in order)
    && (forall k :: k in views <==> k in order)
    && (forall k :: k in order ==>
          counts[k] == Total(facts, ChannelKey, OneVideo, k) && views[k] == Total(facts, ChannelKey, ViewsOf, k))
  }

  /** The channel part of one turn of the first loop: a known channel is bumped, a new one appended. */
  method TallyChannel(video: VideoFacts, ghost facts: seq<VideoFacts>, order: seq<Json>, counts: map<Json, int>, views: map<Json, int>)
    returns (order': seq<Json>, counts': map<Json, int>, views': map<Json, int>)
    requires ChannelsTallied(order, counts, views, facts)
    ensures ChannelsTallied(order', counts', views', facts + [video])
  {
    ChannelStep(facts, video);
    var channel := ChannelKey(video);
    if channel in counts {
      order', counts', views' := order, counts[channel := counts[channel] + 1], views[channel := views[channel] + video.views];
    } else {
      order', counts', views' := order + [channel], counts[channel := 1], views[channel := video.views];
    }
    var s := facts + [video];
    forall k | k in order'
      ensures counts'[k] == Total(s, ChannelKey, OneVideo, k) && views'[k] == Total(s, ChannelKey, ViewsOf, k)
    {
      if k != channel {
        assert k in order;
      }
    }
  }

  /** What the first loop of `_generate_analysis_report` carries from one video to the next. */
  datatype Scan = Scan(
    totalViews: int, totalLikes: int, totalComments: int,
    channelOrder: seq<Json>, channelCounts: map<Json, int>, channelViews: map<Json, int>,
    keywords: seq<string>)

  /** The accumulators after the videos `facts`: plain totals, per-channel tallies in insertion order, keywords. */
  ghost predicate Scanned(acc: Scan, facts: seq<VideoFacts>, words: string -> seq<string>, repr: Json -> string)
  {
    acc.totalViews == Sum(facts, ViewsOf) && acc.totalLikes == Sum(facts, LikesOf) && acc.totalComments == Sum(facts, CommentsOf)
    && ChannelsTallied(acc.channelOrder, acc.channelCounts, acc.channelViews, facts)
    && acc.keywords == Keywords(facts, words, repr)
  }

  /** One turn of the first loop, on a video that was read. */
  method ScanVideo(acc: Scan, video: VideoFacts, ghost facts: seq<VideoFacts>, words: string -> seq<string>, repr: Json -> string)
    returns (acc': Scan)
    requires Scanned(acc, facts, words, repr)
    ensures Scanned(acc', facts + [video], words, repr)
  {
    var order, counts, views := TallyChannel(video, facts, acc.channelOrder, acc.channelCounts, acc.channelViews);
    var s := facts + [video];
    assert s[..|facts|] == facts;
    assert s[|facts|] == video;
    acc' := Scan(acc.totalViews + video.views, acc.totalLikes + video.likes, acc.totalComments + video.comments,
                 order, counts, views, acc.keywords + Filter(words(TextOf(video, repr)), IsKeyword));
  }

  /**
   * The first loop of `_generate_analysis_report`: reads every video, adding up the counts,
   * tallying views and videos per channel in insertion order, and collecting the keywords.
   * It stops where reading a video raises.
   */
  method ScanVideos(videos: seq<Json>, words: string -> seq<string>, repr: Json -> string)
    returns (ok: bool, facts: seq<VideoFacts>, acc: Scan)
    ensures ok <==> Facts(videos).Some?
    ensures ok ==> facts == Facts(videos).value && Scanned(acc, facts, words, repr)
  {
    facts := [];
    acc := Scan(0, 0, 0, [], map[], map[], []);
    for i := 0 to |videos|
      invariant Facts(videos[..i]) == Some(facts)
      invariant Scanned(acc, facts, words, repr)
    {
      FactsStep(videos, i, facts);
      var f := ReadVideo(videos[i]);
      if f.None? {
        FactsFailureSticks(videos, i + 1, |videos|);
        assert videos[..|videos|] == videos;
        return false, facts, acc;
      }
      acc := ScanVideo(acc, f.value, facts, words, repr);
      facts := facts + [f.value];
    }
    assert videos[..|videos|] == videos;
    ok := true;
  }

  /** `channels.items()` as `ChannelStat` entries, in insertion order. */
  method ChannelEntries(ghost facts: seq<VideoFacts>, order: seq<Json>, counts: map<Json, int>, views: map<Json, int>)
    returns (stats: seq<ChannelStat>)
    requires ChannelsTallied(order, counts, views, facts)
    ensures stats == ChannelStats(facts)
  {
    stats := [];
    for j := 0 to |order|
      invariant |stats| == j
      invariant forall i :: 0 <= i < j ==> stats[i] == ChannelStat(order[i], counts[order[i]], views[order[i]])
    {
      stats := stats + [ChannelStat(order[j], counts[order[j]], views[order[j]])];
    }
    EntriesAreStats(facts, order, counts, views, stats);
  }

  /** The entries read from the tallied dicts are the channel statistics of the videos. */
  lemma EntriesAreStats(facts: seq<VideoFacts>, order: seq<Json>, counts: map<Json, int>, views: map<Json, int>,
                        stats: seq<ChannelStat>)
    requires ChannelsTallied(order, counts, views, facts)
    requires |stats| == |order|
    requires forall i :: 0 <= i < |order| ==> stats[i] == ChannelStat(order[i], counts[order[i]], views[order[i]])
    ensures stats == ChannelStats(facts)
  {
    var expected := StatsFor(facts, order);
    forall i | 0 <= i < |stats| ensures stats[i] == expected[i] {
      assert order[i] in order;
    }
  }

  /** The second loop: one summary per video, in video order. */
  method Summaries(facts: seq<VideoFacts>, repr: Json -> string) returns (summaries: seq<Summary>)
    ensures summaries == SummaryList(facts, repr)
  {
    summaries := [];
    for i := 0 to |facts|
      invariant summaries == SummaryList(facts[..i], repr)
    {
      assert facts[..i + 1][..i] == facts[..i];
      summaries := summaries + [SummaryOf(facts[i], repr)];
    }
    assert facts[..|facts|] == facts;
  }

  /** `_generate_analysis_report` as it runs: the scan, the sorted tallies, the sorted summaries and the insights. */
  method GenerateAnalysisReport(details: map<string, Json>, query: string, now: string, words: string -> seq<string>,
                                repr: Json -> string)
    returns (r: AnalyzeResult)
    ensures r == AnalysisReport(details, query, now, words, repr)
  {
    var input := ReportInput(Get(details, "items", JArr([])));
    if input.None? {
      return Raises;
    }
    var videos := input.value;
    if |videos| == 0 {
      return Failure(NoDetails);
    }
    var ok, facts, acc := ScanVideos(videos, words, repr);
    if !ok {
      return Raises;
    }
    var report := ReportFromScan(facts, acc, query, now, words, repr);
    r := Analyzed(report);
  }

  /** The part of `_generate_analysis_report` after the first loop: rankings, summaries and insights. */
  method ReportFromScan(facts: seq<VideoFacts>, acc: Scan, query: string, now: string, words: string -> seq<string>,
                        repr: Json -> string)
    returns (report: Report)
    requires Scanned(acc, facts, words, repr)
    ensures report == BuildReport(facts, query, now, words, repr)
  {
    var topKeywords := RankKeywords(acc.keywords);
    var stats := ChannelEntries(facts, acc.channelOrder, acc.channelCounts, acc.channelViews);
    var topChannels := Take(SortDesc(stats, ViewsKey), 5);
    var summaries := Summaries(facts, repr);
    summaries := SortDesc(summaries, SummaryViews);
    report := Report(query, now, |facts|, acc.totalViews, acc.totalLikes, acc.totalComments, topKeywords, topChannels,
                     summaries, LeadingInsights(summaries, topKeywords, topChannels, repr));
  }

  /** The keyword dict built by counting, then its ten most frequent items. */
  method RankKeywords(ws: seq<string>) returns (top: seq<(string, int)>)
    ensures top == TopKeywords(ws)
  {
    var keywordOrder, keywordCounts := Tally(ws, Same, One);
    var counts := Items(keywordOrder, keywordCounts);
    assert counts == CountsFor(ws, keywordOrder);
    top := Take(SortDesc(counts, PairCount), 10);
  }

  // ---------------------------------------------------------------------------
  // analyze_youtube_videos
  // ---------------------------------------------------------------------------

  /** `item["id"]["videoId"]` of one search item, of whatever type; `None` where the lookup raises. */
  function ItemVideoId(item: Json): Option<Json>
  {
    if item.JObj? && "id" in item.fields && item.fields["id"].JObj? && "videoId" in item.fields["id"].fields
    then Some(item.fields["id"].fields["videoId"])
    else None
  }

  /** The list comprehension over the search items; `None` where one item's lookup raises. */
  function VideoIdsOf(items: seq<Json>): (r: Option<seq<Json>>)
    ensures r.Some? <==> forall i :: 0 <= i < |items| ==> ItemVideoId(items[i]).Some?
    ensures r.Some? ==> |r.value| == |items| && forall i :: 0 <= i < |items| ==> r.value[i] == ItemVideoId(items[i]).value
  {
    if items == [] then Some([])
    else if ItemVideoId(items[0]).None? then None
    else match VideoIdsOf(items[1..])
      case None => None
      case Some(ids) => Some([ItemVideoId(items[0]).value] + ids)
  }

  /** The ids as strings, or `None` when one is not a string and `",".join` raises. */
  function StringIds(ids: seq<Json>): (r: Option<seq<string>>)
    ensures r.Some? <==> forall i :: 0 <= i < |ids| ==> ids[i].JStr?
    ensures r.Some? ==> |r.value| == |ids| && forall i :: 0 <= i < |ids| ==> r.value[i] == ids[i].s
  {
    if ids == [] then Some([])
    else if !ids[0].JStr? then None
    else match StringIds(ids[1..])
      case None => None
      case Some(rest) => Some([ids[0].s] + rest)
  }

  /** What `search_youtube_videos` returns: the key error, or the API's answer. */
  function SearchResult(query: string, maxResults: int, order: string, key: Option<string>,
                        search: SearchRequest -> map<string, Json>): map<string, Json>
  {
    match SearchVideos(query, maxResults, order, None, key)
    case Err(e) => ErrorDict(e)
    case Ok(q) => search(q)
  }

  /**
   * What `get_video_details` returns on the ids as the search gave them: a check's error, or
   * the API's answer; `None` where joining the first 50 ids raises. The key check comes
   * before the join, and an id past the first 50 is dropped before it.
   */
  function DetailsResult(ids: seq<Json>, key: Option<string>, details: DetailsRequest -> map<string, Json>): Option<map<string, Json>>
  {
    match StringIds(Take(ids, 50))
    case None => if !Given(key) then Some(ErrorDict(MissingKey)) else None
    case Some(sent) =>
      match VideoDetails(sent, key)
      case Err(e) => Some(ErrorDict(e))
      case Ok(q) => Some(details(q))
  }

  /**
   * `analyze_youtube_videos`: an error from the search or the details call is returned as it
   * is, a search without items ends with its own error, and otherwise the report is built.
   */
  function AnalyzeVideos(query: string, maxResults: int, order: string, key: Option<string>,
                         search: SearchRequest -> map<string, Json>, details: DetailsRequest -> map<string, Json>,
                         now: string, words: string -> seq<string>, repr: Json -> string): AnalyzeResult
  {
    var found := SearchResult(query, maxResults, order, key, search);
    if "error" in found then Passed(found)
    else if "items" !in found || !Truthy(found["items"]) then Failure(NoVideosFound)
    else if !found["items"].JArr? then Raises
    else match VideoIdsOf(found["items"].items)
      case None => Raises
      case Some(ids) =>
        match DetailsResult(ids, key, details)
        case None => Raises
        case Some(answer) =>
          if "error" in answer then Passed(answer)
          else AnalysisReport(answer, query, now, words, repr)
  }

  // ---------------------------------------------------------------------------
  // Properties
  // ---------------------------------------------------------------------------

  /**
   * Out-of-range page sizes are reset to 10 rather than clamped, an unknown order becomes
   * "relevance", and normalised parameters are left as they are.
   */
  lemma SearchParamsNormalised(query: string, maxResults: int, order: string, publishedAfter: Option<string>, key: Option<string>)
    ensures MaxResultsParam(100) == 10 && MaxResultsParam(0) == 10
    ensures OrderParam("invalid_order") == "relevance"
    ensures var r := SearchVideos(query, maxResults, order, publishedAfter, key);
      r.Ok? ==> SearchVideos(query, r.value.maxResults, r.value.order, r.value.publishedAfter, key) == r
  {
    assert "invalid_order" !in ValidOrders by {
      assert "invalid_order"[0] !in {'r', 'd', 'v', 't'};
    }
  }

  /** More than 50 ids are cut to the first 50; 50 or fewer are all sent. */
  lemma DetailsIdsLimited(videoIds: seq<string>, key: Option<string>)
    requires Given(key) && videoIds != []
    ensures var q := VideoDetails(videoIds, key).value;
      (|videoIds| > 50 ==> q.ids == videoIds[..50]) && (|videoIds| <= 50 ==> q.ids == videoIds)
  {
  }

  /**
   * The short-circuits of `analyze_youtube_videos`: a search error (the missing key among
   * them) is returned unchanged, an answer without items gives "No videos found", and a
   * details error is returned unchanged.
   */
  lemma AnalyzeShortCircuits(query: string, maxResults: int, order: string, key: Option<string>,
                             search: SearchRequest -> map<string, Json>, details: DetailsRequest -> map<string, Json>,
                             now: string, words: string -> seq<string>, repr: Json -> string)
    ensures var r := AnalyzeVideos(query, maxResults, order, key, search, details, now, words, repr);
      var found := SearchResult(query, maxResults, order, key, search);
      (!Given(key) ==> r == Passed(ErrorDict(MissingKey)))
      && ("error" in found ==> r == Passed(found))
      && ("error" !in found && ("items" !in found || found["items"] == JArr([])) ==> r == Failure(NoVideosFound))
      && ("error" !in found && "items" in found && found["items"].JArr? && found["items"].items != []
            && VideoIdsOf(found["items"].items).Some?
            && DetailsResult(VideoIdsOf(found["items"].items).value, key, details).Some? ==>
            var answer := DetailsResult(VideoIdsOf(found["items"].items).value, key, details).value;
            ("error" in answer ==> r == Passed(answer))
            && ("error" !in answer ==> r == AnalysisReport(answer, query, now, words, repr)))
  {
  }

  /**
   * The details call on the search's ids: with a key, it raises exactly when one of the first
   * 50 ids is not a string, and otherwise the request carries those ids as strings; without a
   * key it answers the key error whatever the ids are.
   */
  lemma DetailsJoinFirst50(ids: seq<Json>, key: Option<string>, details: DetailsRequest -> map<string, Json>)
    requires ids != []
    ensures !Given(key) ==> DetailsResult(ids, key, details) == Some(ErrorDict(MissingKey))
    ensures Given(key) ==>
      (DetailsResult(ids, key, details).None? <==> exists i :: 0 <= i < |ids| && i < 50 && !ids[i].JStr?)
    ensures Given(key) && DetailsResult(ids, key, details).Some? ==>
      var q := VideoDetails(StringIds(Take(ids, 50)).value, key).value;
      && DetailsResult(ids, key, details) == Some(details(q))
      && |q.ids| == (if |ids| < 50 then |ids| else 50)
      && forall i :: 0 <= i < |q.ids| ==> ids[i] == JStr(q.ids[i])
  {
    var first := Take(ids, 50);
    if Given(key) && StringIds(first).None? {
      var i :| 0 <= i < |first| && !first[i].JStr?;
      assert ids[i] == first[i];
    }
    if Given(key) && StringIds(first).Some? {
      var sent := StringIds(first).value;
      assert forall i :: 0 <= i < |ids| && i < 50 ==> ids[i] == first[i];
      assert Take(sent, 50) == sent;
    }
  }

  /** A count the statistics do not carry reads as 0. */
  lemma MissingCountsReadAsZero(v: Json)
    requires ReadVideo(v).Some?
    ensures var stats := Get(v.fields, "statistics", JObj(map[]));
      ("viewCount" !in stats.fields ==> ReadVideo(v).value.views == 0)
      && ("likeCount" !in stats.fields ==> ReadVideo(v).value.likes == 0)
      && ("commentCount" !in stats.fields ==> ReadVideo(v).value.comments == 0)
  {
  }

  /** The video `v` with its snippet's description replaced by `d`. */
  function WithDescription(v: Json, d: Json): Json
    requires v.JObj?
  {
    var snippet := Get(v.fields, "snippet", JObj(map[]));
    var fields := if snippet.JObj? then snippet.fields else map[];
    JObj(v.fields["snippet" := JObj(fields["description" := d])])
  }

  /**
   * On a readable video the description alone decides: a string, or a list or dict of at
   * most 200 entries, is read with every other fact unchanged; the summary cuts a string and
   * keeps a list or dict as it is. Any other description makes the report raise.
   */
  lemma DescriptionDecidesRead(v: Json, d: Json, repr: Json -> string)
    requires ReadVideo(v).Some?
    ensures ReadVideo(WithDescription(v, d)).Some? <==> Previewable(d)
    ensures ReadVideo(WithDescription(v, d)).Some? ==>
      var f := ReadVideo(WithDescription(v, d)).value;
      && f == ReadVideo(v).value.(description := d)
      && (d.JStr? ==> SummaryOf(f, repr).preview == JStr(Preview(d.s)))
      && (d.JArr? || d.JObj? ==> SummaryOf(f, repr).preview == d)
  {
    var w := WithDescription(v, d);
    var snippet := Get(v.fields, "snippet", JObj(map[]));
    assert snippet.JObj?;
    assert w.fields["snippet"].fields == snippet.fields["description" := d];
    assert Get(w.fields, "statistics", JObj(map[])) == Get(v.fields, "statistics", JObj(map[]));
    assert Get(w.fields, "contentDetails", JObj(map[])) == Get(v.fields, "contentDetails", JObj(map[]));
    assert Get(w.fields, "id", JStr("")) == Get(v.fields, "id", JStr(""));
  }

  /** A video whose statistics give its view count as the string "10000"-style decimal text of `n`. */
  function VideoWithViews(n: nat): Json
  {
    JObj(map["statistics" := JObj(map["viewCount" := JStr(NatToString(n))])])
  }

  /** The facts read from such a video: its count, and the defaults for everything else. */
  lemma ReadVideoWithViews(n: nat)
    ensures ReadVideo(VideoWithViews(n)) == Some(VideoFacts(JStr(""), JStr(""), JStr(""), None, JStr(""), n, 0, 0, None))
  {
    var v := VideoWithViews(n);
    var statistics := v.fields["statistics"];
    assert "snippet" !in v.fields && "contentDetails" !in v.fields && "id" !in v.fields;
    assert "likeCount" !in statistics.fields && "commentCount" !in statistics.fields;
    IntOfShownInt(n);
    assert IntOf(statistics.fields["viewCount"]) == Some(n);
  }

  /** The report on two readable videos counts both and adds their views. */
  lemma TwoVideosReport(va: Json, vb: Json, query: string, now: string, words: string -> seq<string>, repr: Json -> string)
    requires ReadVideo(va).Some? && ReadVideo(vb).Some?
    ensures var r := AnalysisReport(map["items" := JArr([va, vb])], query, now, words, repr);
      r.Analyzed? && r.report.totalVideos == 2 && r.report.totalViews == ReadVideo(va).value.views + ReadVideo(vb).value.views
  {
    var fa, fb := ReadVideo(va).value, ReadVideo(vb).value;
    TwoFacts(va, vb);
    var details := map["items" := JArr([va, vb])];
    assert Get(details, "items", JArr([])) == JArr([va, vb]);
    ReportOfFacts(details, [va, vb], [fa, fb], query, now, words, repr);
    ReportTotals([fa, fb], query, now, words, repr);
    SumTwo(fa, fb);
  }

  lemma SumTwo(fa: VideoFacts, fb: VideoFacts)
    ensures Sum([fa, fb], ViewsOf) == fa.views + fb.views
  {
    var s := [fa, fb];
    assert s[..1] == [fa] && [fa][..0] == [];
    assert Sum([fa], ViewsOf) == Sum([], ViewsOf) + ViewsOf(fa);
    assert Sum(s, ViewsOf) == Sum([fa], ViewsOf) + ViewsOf(fb);
  }

  /** Readable videos in the details answer give the report on their facts. */
  lemma ReportOfFacts(details: map<string, Json>, videos: seq<Json>, facts: seq<VideoFacts>,
                      query: string, now: string, words: string -> seq<string>, repr: Json -> string)
    requires ReportInput(Get(details, "items", JArr([]))) == Some(videos) && videos != []
    requires Facts(videos) == Some(facts)
    ensures AnalysisReport(details, query, now, words, repr) == Analyzed(BuildReport(facts, query, now, words, repr))
  {
  }

  /** Two readable videos read one after the other. */
  lemma TwoFacts(va: Json, vb: Json)
    requires ReadVideo(va).Some? && ReadVideo(vb).Some?
    ensures Facts([va, vb]) == Some([ReadVideo(va).value, ReadVideo(vb).value])
  {
    var fa := ReadVideo(va).value;
    var videos := [va, vb];
    var none: seq<VideoFacts> := [];
    assert [va][..0] == [] && none + [fa] == [fa];
    assert Facts([va]) == Some([fa]);
    assert videos[..1] == [va] && videos[1] == vb;
    assert [fa] + [ReadVideo(vb).value] == [fa, ReadVideo(vb).value];
  }

  /** The report counts the videos and adds up their views. */
  lemma ReportTotals(facts: seq<VideoFacts>, query: string, now: string, words: string -> seq<string>, repr: Json -> string)
    ensures var report := BuildReport(facts, query, now, words, repr);
      report.totalVideos == |facts| && report.totalViews == Sum(facts, ViewsOf)
  {
  }

  /** The report's total views is the plain sum of the videos' counts given as text (10000 and 20000 make 30000). */
  lemma TotalViewsAdd(a: nat, b: nat, query: string, now: string, words: string -> seq<string>, repr: Json -> string)
    ensures var r := AnalysisReport(map["items" := JArr([VideoWithViews(a), VideoWithViews(b)])], query, now, words, repr);
      r.Analyzed? && r.report.totalVideos == 2 && r.report.totalViews == a + b
  {
    ReadVideoWithViews(a);
    ReadVideoWithViews(b);
    TwoVideosReport(VideoWithViews(a), VideoWithViews(b), query, now, words, repr);
  }

  /** No details to analyse is an error of its own, whether "items" is missing or empty. */
  lemma NoDetailsIsAnError(details: map<string, Json>, query: string, now: string, words: string -> seq<string>, repr: Json -> string)
    requires "items" !in details || details["items"] in {JArr([]), JStr(""), JObj(map[])}
    ensures AnalysisReport(details, query, now, words, repr) == Failure(NoDetails)
  {
    var items := Get(details, "items", JArr([]));
    assert items == JArr([]) || items == JStr("") || items == JObj(map[]);
    assert ReportInput(items) == Some([]);
  }

  /**
   * `top_keywords` holds at most ten keywords, by non-increasing frequency; each comes with
   * its number of occurrences, and a keyword left out occurs no more often than any kept one.
   */
  lemma TopKeywordsRanked(ws: seq<string>)
    ensures var top := TopKeywords(ws);
      |top| <= 10 && SortedDesc(top, PairCount)
      && forall p :: p in top ==> p.0 in ws && p.1 == multiset(ws)[p.0]
  {
    var ks := KeysOf(ws, Same);
    var counts := CountsFor(ws, ks);
    TopOfSorted(counts, PairCount, 10);
    forall p | p in TopKeywords(ws) ensures p.0 in ws && p.1 == multiset(ws)[p.0] {
      assert p in counts;
      var i :| 0 <= i < |counts| && counts[i] == p;
      TotalCounts(ws, Same, One, ks[i]);
      assert ks[i] in ks;
      var x :| x in ws && Same(x) == ks[i];
    }
  }

  /** A keyword left out of `top_keywords` occurs no more often than any kept one. */
  lemma TopKeywordsDominate(ws: seq<string>, w: string)
    requires w in ws && (w, multiset(ws)[w]) !in TopKeywords(ws)
    ensures forall p :: p in TopKeywords(ws) ==> p.1 >= multiset(ws)[w]
  {
    var ks := KeysOf(ws, Same);
    var counts := CountsFor(ws, ks);
    assert Same(w) in ks;
    var i :| 0 <= i < |ks| && ks[i] == w;
    TotalCounts(ws, Same, One, w);
    var y := counts[i];
    assert y == (w, multiset(ws)[w]);
    assert multiset(counts)[y] > 0;
    TopDominates(counts, PairCount, 10, y);
  }

  /**
   * `top_channels` holds at most five channels by non-increasing total views, and every
   * channel left out has no more views than any kept one.
   */
  lemma TopChannelsRanked(facts: seq<VideoFacts>)
    ensures var top := TopChannels(facts);
      |top| <= 5 && SortedDesc(top, ViewsKey)
      && (forall c :: c in top ==> c == StatOf(facts, c.channel) && c.channel in KeysOf(facts, ChannelKey))
      && (forall k :: k in KeysOf(facts, ChannelKey) && StatOf(facts, k) !in top ==>
            forall c :: c in top ==> c.totalViews >= StatOf(facts, k).totalViews)
  {
    var ks := KeysOf(facts, ChannelKey);
    var stats := ChannelStats(facts);
    var top := TopChannels(facts);
    TopOfSorted(stats, ViewsKey, 5);
    forall c | c in top ensures c == StatOf(facts, c.channel) && c.channel in ks {
      assert c in stats;
    }
    forall k | k in ks && StatOf(facts, k) !in top ensures forall c :: c in top ==> c.totalViews >= StatOf(facts, k).totalViews {
      TopChannelDominates(facts, k);
    }
  }

  /** A channel left out of `top_channels` has no more views than any kept one. */
  lemma TopChannelDominates(facts: seq<VideoFacts>, k: Json)
    requires k in KeysOf(facts, ChannelKey) && StatOf(facts, k) !in TopChannels(facts)
    ensures forall c :: c in TopChannels(facts) ==> c.totalViews >= StatOf(facts, k).totalViews
  {
    var ks := KeysOf(facts, ChannelKey);
    var stats := ChannelStats(facts);
    var i :| 0 <= i < |ks| && ks[i] == k;
    var y := stats[i];
    assert y == StatOf(facts, k);
    assert multiset(stats)[y] > 0;
    assert multiset(TopChannels(facts))[y] == 0;
    TopDominates(stats, ViewsKey, 5, y);
  }

  lemma {:induction false} StatsSum(facts: seq<VideoFacts>, ks: seq<Json>)
    ensures Sum(StatsFor(facts, ks), StatCount) == SumTotals(facts, ChannelKey, OneVideo, ks)
    ensures Sum(StatsFor(facts, ks), StatViews) == SumTotals(facts, ChannelKey, ViewsOf, ks)
  {
    if ks != [] {
      StatsSum(facts, ks[1..]);
      assert StatsFor(facts, ks) == [StatOf(facts, ks[0])] + StatsFor(facts, ks[1..]);
      SumCons(StatOf(facts, ks[0]), StatsFor(facts, ks[1..]), StatCount);
      SumCons(StatOf(facts, ks[0]), StatsFor(facts, ks[1..]), StatViews);
    }
  }

  lemma {:induction false} SumOneVideo(facts: seq<VideoFacts>)
    ensures Sum(facts, OneVideo) == |facts|
  {
    if facts != [] {
      SumOneVideo(facts[..|facts| - 1]);
    }
  }

  /**
   * Every video is tallied under exactly one channel: the channel counts add up to the
   * number of videos and the channel views to the report's total views.
   */
  lemma ChannelTalliesAddUp(facts: seq<VideoFacts>)
    ensures Sum(ChannelStats(facts), StatCount) == |facts|
    ensures Sum(ChannelStats(facts), StatViews) == Sum(facts, ViewsOf)
  {
    var ks := KeysOf(facts, ChannelKey);
    StatsSum(facts, ks);
    forall x | x in facts ensures ChannelKey(x) in ks {
    }
    TotalsPartition(facts, ChannelKey, OneVideo, ks);
    TotalsPartition(facts, ChannelKey, ViewsOf, ks);
    SumOneVideo(facts);
  }

  /**
   * `video_summaries` has one entry per video, sorted by views with ties in video order,
   * and its first entry, the one the first insight names, has the most views.
   */
  lemma SummariesSortedByViews(facts: seq<VideoFacts>, repr: Json -> string, v: real)
    ensures var s := SortDesc(SummaryList(facts, repr), SummaryViews);
      |s| == |facts| && SortedDesc(s, SummaryViews)
      && multiset(s) == multiset(SummaryList(facts, repr))
      && KeyRun(s, SummaryViews, v) == KeyRun(SummaryList(facts, repr), SummaryViews, v)
      && (s != [] ==> forall x :: x in s ==> s[0].views >= x.views)
  {
    SortDescStable(SummaryList(facts, repr), SummaryViews, v);
  }

  /** The first insight names the most popular video's title. */
  lemma PopularLineNamesVideo(top: Summary, repr: Json -> string)
    ensures Contains(PopularLine(top, repr), Show(top.title, repr))
  {
    var t := Show(top.title, repr);
    var pre := "Most popular video: '";
    var line := PopularLine(top, repr);
    assert line == pre + (t + ("' with " + CountText(top.views) + " views"));
    assert line[|pre|..|pre| + |t|] == t;
    ContainsAt(line, t, |pre|);
  }

  /** Without videos the insights are the single "No videos available" message; otherwise one line per present fact. */
  lemma InsightsShape(summaries: seq<Summary>, keywords: seq<(string, int)>, channels: seq<ChannelStat>, repr: Json -> string)
    ensures var r := LeadingInsights(summaries, keywords, channels, repr);
      (summaries == [] <==> r == [NoInsights])
      && (summaries != [] ==> |r| == 1 + (if channels == [] then 0 else 1) + (if keywords == [] then 0 else 1)
                              && Contains(r[0], Show(summaries[0].title, repr)))
  {
    if summaries != [] {
      var line := PopularLine(summaries[0], repr);
      var r := LeadingInsights(summaries, keywords, channels, repr);
      assert r[0] == line;
      assert line[0] == 'M' != NoInsights[0];
      PopularLineNamesVideo(summaries[0], repr);
    }
  }

  /** `{:,}` of 1234567 is "1,234,567". */
  lemma ThousandsExample()
    ensures Thousands(1234567) == "1,234,567"
  {
    assert Thousands(1) == "1";
    assert Digits3(234) == "234";
    assert Thousands(1234) == "1,234";
    assert Digits3(567) == "567";
  }
}
