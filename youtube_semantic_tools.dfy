/**
 * The semantic analysis tools' own logic: the topics and keywords extracted from the
 * generated chapters, the chapter list for YouTube's chapter feature, the batch analysis of
 * several videos and the API key check.
 *
 * The semantic chapter generator is an oracle `generate`: for a request (video id, segment
 * length, granularity, custom prompt) it answers with the chapters and the formatted total
 * duration, or with the text of the exception it raised. The Gemini test call is an oracle
 * `call` from the key to the answer's text or the exception's text. The environment's
 * `GEMINI_API_KEY` is the parameter `env`.
 */
module YoutubeSemanticTools {
  import opened Seqs
  import opened Text
  import opened JsonValue
  import YoutubeTools

  /** The fields of a generated chapter that these tools read. */
  datatype Chapter = Chapter(title: string, summary: string, startTimestamp: string, keyPoints: seq<string>,
                             category: string, technicalLevel: string)

  /** What `generate_semantic_chapters` answers: its chapters and `total_duration_formatted`. */
  datatype ChapterAnswer = ChapterAnswer(chapters: seq<Chapter>, durationFormatted: string)

  datatype ChapterRequest = ChapterRequest(videoId: string, segmentDuration: int, granularity: string,
                                           customPrompt: Option<string>)

  /** The request the tools make with the generator's defaults for granularity and prompt. */
  function DefaultRequest(videoId: string, segmentDuration: int): ChapterRequest
  {
    ChapterRequest(videoId, segmentDuration, "medium", None)
  }

  // ---------------------------------------------------------------------------
  // The analyzer's key
  // ---------------------------------------------------------------------------

  /** The key in use: the `api_key` argument when it is non-empty, else the environment's. */
  function ResolveKey(apiKey: Option<string>, env: Option<string>): (r: Option<string>)
    ensures r.None? <==> !Given(apiKey) && !Given(env)
    ensures r.Some? ==> r.value != "" && (r == apiKey || r == env)
    ensures Given(apiKey) ==> r == apiKey
  {
    if Given(apiKey) then apiKey else if Given(env) then env else None
  }

  /** The `ValueError` the analyzer's constructor raises without a key. */
  const NoKeyError := "Gemini API key が必要です。環境変数 GEMINI_API_KEY を設定するか、api_key パラメータを指定してください。"

  // ---------------------------------------------------------------------------
  // extract_video_key_topics
  // ---------------------------------------------------------------------------

  /** The topics are extracted from ten-minute segments. */
  const KeyTopicsSegment := 600

  /** A chapter as it is listed under its category. */
  datatype TopicEntry = TopicEntry(title: string, summary: string, timestamp: string, keyPoints: seq<string>)

  function EntryOf(ch: Chapter): TopicEntry
  {
    TopicEntry(ch.title, ch.summary, ch.startTimestamp, ch.keyPoints)
  }

  function Category(ch: Chapter): string { ch.category }

  function Entries(chs: seq<Chapter>): (r: seq<TopicEntry>)
    ensures |r| == |chs|
    ensures forall i :: 0 <= i < |chs| ==> r[i] == EntryOf(chs[i])
  {
    if chs == [] then [] else Entries(chs[..|chs| - 1]) + [EntryOf(chs[|chs| - 1])]
  }

  /** The list kept under category `c`: the entries of the chapters of that category, in order. */
  function TopicGroup(chs: seq<Chapter>, c: string): seq<TopicEntry>
  {
    if chs == [] then []
    else TopicGroup(chs[..|chs| - 1], c) + (if chs[|chs| - 1].category == c then [EntryOf(chs[|chs| - 1])] else [])
  }

  /** The list under a category holds the entries of the chapters `Group` keeps for it. */
  lemma {:induction false} TopicGroupEntries(chs: seq<Chapter>, c: string)
    ensures TopicGroup(chs, c) == Entries(Group(chs, Category, c))
  {
    if chs != [] {
      var g := Group(chs[..|chs| - 1], Category, c);
      TopicGroupEntries(chs[..|chs| - 1], c);
      if chs[|chs| - 1].category == c {
        assert (g + [chs[|chs| - 1]])[..|g|] == g;
      }
    }
  }

  lemma {:induction false} TopicGroupAbsent(chs: seq<Chapter>, c: string)
    requires c !in KeysOf(chs, Category)
    ensures TopicGroup(chs, c) == []
  {
    GroupAbsent(chs, Category, c);
    TopicGroupEntries(chs, c);
  }

  /** `all_key_points`: the chapters' key points, chapter after chapter. */
  function KeyPoints(chs: seq<Chapter>): seq<string>
  {
    if chs == [] then [] else KeyPoints(chs[..|chs| - 1]) + chs[|chs| - 1].keyPoints
  }

  /** `tech_levels`: the set of the chapters' technical levels. */
  function TechLevels(chs: seq<Chapter>): set<string>
  {
    if chs == [] then {} else TechLevels(chs[..|chs| - 1]) + {chs[|chs| - 1].technicalLevel}
  }

  /** The answer of `extract_video_key_topics`; `categories` is the key order of `topics`. */
  datatype KeyTopics =
    | KeyTopics(videoId: string, duration: string, categories: seq<string>, topics: map<string, seq<TopicEntry>>,
                topKeywords: seq<(string, int)>, technicalLevels: set<string>, totalChapters: nat)
    | TopicsFailed(error: string, message: string)

  function TopicsError(e: string): KeyTopics
  {
    TopicsFailed(e, "トピック抽出に失敗しました: " + e)
  }

  /**
   * The topics of a chapter answer: each category with its chapters in order, the ten most
   * frequent key points and the technical levels.
   */
  function TopicsOf(videoId: string, a: ChapterAnswer): KeyTopics
  {
    var chs := a.chapters;
    var order := KeysOf(chs, Category);
    KeyTopics(videoId, a.durationFormatted, order,
              map c | c in order :: TopicGroup(chs, c),
              YoutubeTools.TopKeywords(KeyPoints(chs)), TechLevels(chs), |chs|)
  }

  function KeyTopicsOf(apiKey: Option<string>, env: Option<string>, videoId: string,
                       generate: ChapterRequest -> Result<ChapterAnswer, string>): KeyTopics
  {
    if ResolveKey(apiKey, env).None? then TopicsError(NoKeyError)
    else match generate(DefaultRequest(videoId, KeyTopicsSegment))
      case Err(e) => TopicsError(e)
      case Ok(a) => TopicsOf(videoId, a)
  }

  /** A dict described key by key is the map comprehension over its key order. */
  lemma TopicsMap(chs: seq<Chapter>, order: seq<string>, topics: map<string, seq<TopicEntry>>)
    requires forall c :: c in topics <==> c in order
    requires forall c :: c in topics ==> topics[c] == TopicGroup(chs, c)
    ensures topics == map c | c in order :: TopicGroup(chs, c)
  {
  }

  /** One pass of the loop over the chapters, for chapter `i`. */
  method AddChapter(chs: seq<Chapter>, i: nat, order: seq<string>, topics: map<string, seq<TopicEntry>>)
    returns (order': seq<string>, topics': map<string, seq<TopicEntry>>)
    requires i < |chs|
    requires order == KeysOf(chs[..i], Category)
    requires forall c :: c in topics <==> c in order
    requires forall c :: c in topics ==> topics[c] == TopicGroup(chs[..i], c)
    ensures order' == KeysOf(chs[..i + 1], Category)
    ensures forall c :: c in topics' <==> c in order'
    ensures forall c :: c in topics' ==> topics'[c] == TopicGroup(chs[..i + 1], c)
  {
    var ch := chs[i];
    var c := ch.category;
    KeysOfSnoc(chs, i, Category);
    assert chs[..i + 1][..i] == chs[..i];
    order', topics' := order, topics;
    if c !in topics {
      TopicGroupAbsent(chs[..i], c);
      order' := order + [c];
      topics' := topics[c := []];
    }
    topics' := topics'[c := topics'[c] + [EntryOf(ch)]];
  }

  /** The loop over the chapters: group them, collect the key points and the levels. */
  method CollectTopics(chs: seq<Chapter>)
    returns (order: seq<string>, topics: map<string, seq<TopicEntry>>, points: seq<string>, levels: set<string>)
    ensures order == KeysOf(chs, Category)
    ensures forall c :: c in topics <==> c in order
    ensures forall c :: c in topics ==> topics[c] == TopicGroup(chs, c)
    ensures points == KeyPoints(chs)
    ensures levels == TechLevels(chs)
  {
    order, topics, points, levels := [], map[], [], {};
    for i := 0 to |chs|
      invariant order == KeysOf(chs[..i], Category)
      invariant forall c :: c in topics <==> c in order
      invariant forall c :: c in topics ==> topics[c] == TopicGroup(chs[..i], c)
      invariant points == KeyPoints(chs[..i])
      invariant levels == TechLevels(chs[..i])
    {
      assert chs[..i + 1][..i] == chs[..i];
      order, topics := AddChapter(chs, i, order, topics);
      points := points + chs[i].keyPoints;
      levels := levels + {chs[i].technicalLevel};
    }
    assert chs[..|chs|] == chs;
  }

  /** `keyword_count` filled in a loop, then sorted by frequency and cut to ten. */
  method RankKeyPoints(points: seq<string>) returns (top: seq<(string, int)>)
    ensures top == YoutubeTools.TopKeywords(points)
  {
    var keys, counts := Tally(points, YoutubeTools.Same, YoutubeTools.One);
    var items := Items(keys, counts);
    assert items == YoutubeTools.CountsFor(points, keys);
    top := Take(SortDesc(items, PairCount), 10);
  }

  /** `extract_video_key_topics`: the chapters of ten-minute segments, grouped and counted. */
  method ExtractVideoKeyTopics(apiKey: Option<string>, env: Option<string>, videoId: string,
                               generate: ChapterRequest -> Result<ChapterAnswer, string>)
    returns (r: KeyTopics)
    ensures r == KeyTopicsOf(apiKey, env, videoId, generate)
  {
    if ResolveKey(apiKey, env).None? {
      return TopicsError(NoKeyError);
    }
    var answer := generate(DefaultRequest(videoId, KeyTopicsSegment));
    if answer.Err? {
      return TopicsError(answer.error);
    }
    var chs := answer.value.chapters;
    var order, topics, points, levels := CollectTopics(chs);
    TopicsMap(chs, order, topics);
    var top := RankKeyPoints(points);
    assert top == YoutubeTools.TopKeywords(KeyPoints(chs));
    assert topics == map c | c in order :: TopicGroup(chs, c);
    assert KeyTopicsOf(apiKey, env, videoId, generate) == TopicsOf(videoId, answer.value);
    r := KeyTopics(videoId, answer.value.durationFormatted, order, topics, top, levels, |chs|);
  }

  /**
   * Every chapter appears exactly once, under its own category: the categories are the
   * chapters' ones without repeats, a category lists only its own chapters, each chapter
   * occurs there as often as among all chapters, and the lists add up to the chapter count.
   */
  lemma TopicsPartitionChapters(videoId: string, a: ChapterAnswer)
    ensures var r := TopicsOf(videoId, a);
      r.totalChapters == |a.chapters|
      && (forall c :: c in r.topics <==> exists ch :: ch in a.chapters && ch.category == c)
      && (forall c :: c in r.topics ==> r.topics[c] == Entries(Group(a.chapters, Category, c)))
      && (forall i, j :: 0 <= i < j < |r.categories| ==> r.categories[i] != r.categories[j])
      && (forall ch :: ch in a.chapters ==>
            multiset(Group(a.chapters, Category, ch.category))[ch] == multiset(a.chapters)[ch])
      && (forall c, ch :: ch in Group(a.chapters, Category, c) ==> ch.category == c)
      && GroupSizes(a.chapters, Category, r.categories) == |a.chapters|
  {
    var chs := a.chapters;
    var order := KeysOf(chs, Category);
    forall c | c in order ensures TopicGroup(chs, c) == Entries(Group(chs, Category, c)) {
      TopicGroupEntries(chs, c);
    }
    forall ch | ch in chs ensures multiset(Group(chs, Category, ch.category))[ch] == multiset(chs)[ch] {
      GroupOccurrences(chs, Category, ch.category, ch);
    }
    forall c, ch | ch in Group(chs, Category, c) ensures ch.category == c {
      GroupOccurrences(chs, Category, c, ch);
    }
    forall ch | ch in chs ensures Category(ch) in order { }
    GroupsPartition(chs, Category, order);
  }

  /** A key point is counted exactly when some chapter lists it. */
  lemma {:induction false} KeyPointsCollected(chs: seq<Chapter>)
    ensures forall p :: p in KeyPoints(chs) <==> exists ch :: ch in chs && p in ch.keyPoints
  {
    if chs != [] {
      var init := chs[..|chs| - 1];
      KeyPointsCollected(init);
      assert forall ch :: ch in chs <==> ch in init || ch == chs[|chs| - 1];
    }
  }

  /**
   * At most ten keywords, by non-increasing frequency, each with its true number of
   * occurrences among the key points; every keyword is a key point of some chapter.
   */
  lemma TopicsKeywordsRanked(videoId: string, a: ChapterAnswer)
    ensures var top := TopicsOf(videoId, a).topKeywords;
      var ws := KeyPoints(a.chapters);
      |top| <= 10 && SortedDesc(top, PairCount)
      && (forall p :: p in top ==> p.1 == multiset(ws)[p.0] && exists ch :: ch in a.chapters && p.0 in ch.keyPoints)
  {
    var ws := KeyPoints(a.chapters);
    YoutubeTools.TopKeywordsRanked(ws);
    KeyPointsCollected(a.chapters);
  }

  /**
   * Keywords of equal frequency keep their order of first appearance in the ranking the
   * top ten are cut from (Python's sort is stable and the dict keeps insertion order).
   */
  lemma KeywordTiesFirstSeen(ws: seq<string>, k: real)
    ensures var counts := YoutubeTools.CountsFor(ws, KeysOf(ws, YoutubeTools.Same));
      KeyRun(SortDesc(counts, PairCount), PairCount, k) == KeyRun(counts, PairCount, k)
  {
    SortDescStable(YoutubeTools.CountsFor(ws, KeysOf(ws, YoutubeTools.Same)), PairCount, k);
  }

  /** The top keywords are the first ten of that ranking. */
  lemma TopKeywordsArePrefix(ws: seq<string>)
    ensures YoutubeTools.TopKeywords(ws) <= SortDesc(YoutubeTools.CountsFor(ws, KeysOf(ws, YoutubeTools.Same)), PairCount)
  {
  }

  /** Without a key nothing is generated: the answer is the analyzer's key error. */
  lemma TopicsNeedKey(apiKey: Option<string>, env: Option<string>, videoId: string,
                      generate: ChapterRequest -> Result<ChapterAnswer, string>)
    requires !Given(apiKey) && !Given(env)
    ensures KeyTopicsOf(apiKey, env, videoId, generate) == TopicsError(NoKeyError)
  {
  }

  // ---------------------------------------------------------------------------
  // generate_chapter_timestamps_only
  // ---------------------------------------------------------------------------

  /** One line of YouTube's chapter list: the start timestamp, a space and the title. */
  function TimestampLine(ch: Chapter): string
  {
    ch.startTimestamp + " " + ch.title
  }

  function TimestampLines(chs: seq<Chapter>): (r: seq<string>)
    ensures |r| == |chs|
  {
    if chs == [] then [] else TimestampLines(chs[..|chs| - 1]) + [TimestampLine(chs[|chs| - 1])]
  }

  /** Line `i` is the line of chapter `i`. */
  lemma {:induction false} TimestampLinesEach(chs: seq<Chapter>)
    ensures forall i :: 0 <= i < |chs| ==> TimestampLines(chs)[i] == TimestampLine(chs[i])
  {
    if chs != [] {
      var init := chs[..|chs| - 1];
      TimestampLinesEach(init);
      forall i | 0 <= i < |init| ensures TimestampLines(chs)[i] == TimestampLine(chs[i]) {
        assert init[i] == chs[i];
      }
    }
  }

  datatype ChapterRef = ChapterRef(timestamp: string, title: string, category: string)

  datatype Timestamps =
    | Timestamps(videoId: string, text: string, chapters: seq<ChapterRef>, totalChapters: nat)
    | TimestampsFailed(error: string, message: string)

  function TimestampsError(e: string): Timestamps
  {
    TimestampsFailed(e, "チャプター生成に失敗しました: " + e)
  }

  function RefOf(ch: Chapter): ChapterRef { ChapterRef(ch.startTimestamp, ch.title, ch.category) }

  function TimestampsOf(apiKey: Option<string>, env: Option<string>, request: ChapterRequest,
                        generate: ChapterRequest -> Result<ChapterAnswer, string>): Timestamps
  {
    if ResolveKey(apiKey, env).None? then TimestampsError(NoKeyError)
    else match generate(request)
      case Err(e) => TimestampsError(e)
      case Ok(a) =>
        var chs := a.chapters;
        Timestamps(request.videoId, Join(TimestampLines(chs), "\n"),
                   seq(|chs|, i requires 0 <= i < |chs| => RefOf(chs[i])), |chs|)
  }

  /** `generate_chapter_timestamps_only`: the lines appended in a loop, then joined. */
  method ChapterTimestampsOnly(apiKey: Option<string>, env: Option<string>, request: ChapterRequest,
                               generate: ChapterRequest -> Result<ChapterAnswer, string>)
    returns (r: Timestamps)
    ensures r == TimestampsOf(apiKey, env, request, generate)
  {
    if ResolveKey(apiKey, env).None? {
      return TimestampsError(NoKeyError);
    }
    var answer := generate(request);
    if answer.Err? {
      return TimestampsError(answer.error);
    }
    var chs := answer.value.chapters;
    var lines: seq<string> := [];
    for i := 0 to |chs|
      invariant lines == TimestampLines(chs[..i])
    {
      assert chs[..i + 1][..i] == chs[..i];
      lines := lines + [TimestampLine(chs[i])];
    }
    assert chs[..|chs|] == chs;
    r := Timestamps(request.videoId, Join(lines, "\n"), seq(|chs|, i requires 0 <= i < |chs| => RefOf(chs[i])), |chs|);
  }

  /**
   * The chapter list holds one entry per chapter, and when no timestamp or title holds a
   * line break, splitting the text at line breaks gives back one line per chapter, in order.
   */
  lemma TimestampLinesRecovered(apiKey: Option<string>, env: Option<string>, request: ChapterRequest,
                                generate: ChapterRequest -> Result<ChapterAnswer, string>)
    requires generate(request).Ok? && ResolveKey(apiKey, env).Some?
    ensures var r := TimestampsOf(apiKey, env, request, generate);
      var chs := generate(request).value.chapters;
      r.Timestamps? && |r.chapters| == r.totalChapters == |chs|
      && (chs != [] && (forall ch :: ch in chs ==> '\n' !in ch.startTimestamp && '\n' !in ch.title) ==>
            Split(r.text, '\n') == TimestampLines(chs))
  {
    var chs := generate(request).value.chapters;
    var lines := TimestampLines(chs);
    TimestampLinesEach(chs);
    if chs != [] && (forall ch :: ch in chs ==> '\n' !in ch.startTimestamp && '\n' !in ch.title) {
      forall l | l in lines ensures '\n' !in l {
        var i :| 0 <= i < |lines| && lines[i] == l;
        assert chs[i] in chs;
      }
      SplitJoin(lines, '\n');
    }
  }

  // ---------------------------------------------------------------------------
  // batch_analyze_channel_videos
  // ---------------------------------------------------------------------------

  /** The batch analyses five-minute segments. */
  const BatchSegment := 300

  /** One video's entry of the results. */
  datatype BatchEntry =
    | Analyzed(duration: string, chaptersCount: nat, topics: set<string>, techLevels: set<string>)
    | NotAnalyzed(error: string)

  function EntryFor(answer: Result<ChapterAnswer, string>): BatchEntry
  {
    match answer
    case Err(e) => NotAnalyzed(e)
    case Ok(a) => Analyzed(a.durationFormatted, |a.chapters|, set ch | ch in a.chapters :: ch.category,
                           TechLevels(a.chapters))
  }

  function AnswerFor(id: string, generate: ChapterRequest -> Result<ChapterAnswer, string>): Result<ChapterAnswer, string>
  {
    generate(DefaultRequest(id, BatchSegment))
  }

  /** How many of the ids in `keys` were analysed. */
  function Analysed(keys: seq<string>, generate: ChapterRequest -> Result<ChapterAnswer, string>): (n: nat)
    ensures n <= |keys|
  {
    if keys == [] then 0
    else Analysed(keys[..|keys| - 1], generate) + (if AnswerFor(keys[|keys| - 1], generate).Ok? then 1 else 0)
  }

  datatype BatchReport =
    | BatchReport(totalVideos: nat, successfulAnalyses: nat, order: seq<string>, results: map<string, BatchEntry>)
    | BatchFailed(error: string, message: string)

  /**
   * `batch_analyze_channel_videos`: an entry per distinct id (a repeated id writes its entry
   * again), the number of ids given and the number of analysed entries.
   */
  function BatchOf(apiKey: Option<string>, env: Option<string>, ids: seq<string>,
                   generate: ChapterRequest -> Result<ChapterAnswer, string>): BatchReport
  {
    if ResolveKey(apiKey, env).None? then BatchFailed(NoKeyError, "一括分析に失敗しました: " + NoKeyError)
    else
      var order := KeysOf(ids, YoutubeTools.Same);
      BatchReport(|ids|, Analysed(order, generate), order, Tabulate(order, id => EntryFor(AnswerFor(id, generate))))
  }

  /** The loop over the ids: an entry per id, written again when an id repeats. */
  method AnalyseAll(ids: seq<string>, generate: ChapterRequest -> Result<ChapterAnswer, string>)
    returns (order: seq<string>, results: map<string, BatchEntry>)
    ensures order == KeysOf(ids, YoutubeTools.Same)
    ensures results == Tabulate(order, id => EntryFor(AnswerFor(id, generate)))
  {
    var entry := id => EntryFor(AnswerFor(id, generate));
    order, results := StoreEach(ids, YoutubeTools.Same, entry);
    TabulateOf(results, order, entry);
  }

  /** `sum(1 for r in results.values() if r['success'])`, in the dict's key order. */
  method CountAnalysed(order: seq<string>, results: map<string, BatchEntry>,
                       generate: ChapterRequest -> Result<ChapterAnswer, string>)
    returns (successful: nat)
    requires forall id :: id in order ==> id in results && results[id] == EntryFor(AnswerFor(id, generate))
    ensures successful == Analysed(order, generate)
  {
    successful := 0;
    for i := 0 to |order|
      invariant successful == Analysed(order[..i], generate)
    {
      assert order[..i + 1][..i] == order[..i];
      if results[order[i]].Analyzed? {
        successful := successful + 1;
      }
    }
    assert order[..|order|] == order;
  }

  method BatchAnalyzeChannelVideos(apiKey: Option<string>, env: Option<string>, ids: seq<string>,
                                   generate: ChapterRequest -> Result<ChapterAnswer, string>)
    returns (r: BatchReport)
    ensures r == BatchOf(apiKey, env, ids, generate)
  {
    if ResolveKey(apiKey, env).None? {
      return BatchFailed(NoKeyError, "一括分析に失敗しました: " + NoKeyError);
    }
    var order, results := AnalyseAll(ids, generate);
    var successful := CountAnalysed(order, results, generate);
    r := BatchReport(|ids|, successful, order, results);
  }

  /**
   * A failure is isolated to its video: each id's entry is made from that id's answer alone.
   * `total_videos` counts the ids given and the successes never exceed it.
   */
  lemma BatchCounts(apiKey: Option<string>, env: Option<string>, ids: seq<string>,
                    generate: ChapterRequest -> Result<ChapterAnswer, string>)
    requires ResolveKey(apiKey, env).Some?
    ensures var r := BatchOf(apiKey, env, ids, generate);
      r.BatchReport? && r.totalVideos == |ids|
      && (forall id :: id in r.results <==> id in ids)
      && (forall id :: id in r.results ==> r.results[id] == EntryFor(AnswerFor(id, generate)))
      && r.successfulAnalyses <= |r.order| <= r.totalVideos
  {
    KeysOfShorter(ids, YoutubeTools.Same);
  }

  /**
   * A repeated id is analysed into one entry and counted once among the successes, but
   * twice among the videos: two copies of one analysable id report "1/2".
   */
  lemma RepeatedIdCountedOnce(apiKey: Option<string>, env: Option<string>, id: string,
                              generate: ChapterRequest -> Result<ChapterAnswer, string>)
    requires ResolveKey(apiKey, env).Some? && AnswerFor(id, generate).Ok?
    ensures var r := BatchOf(apiKey, env, [id, id], generate);
      r.BatchReport? && r.totalVideos == 2 && r.successfulAnalyses == 1 && r.order == [id]
  {
    assert [id, id][..1] == [id];
    assert KeysOf([id], YoutubeTools.Same) == [id];
    assert KeysOf([id, id], YoutubeTools.Same) == [id];
    assert [id][..0] == [];
  }

  // ---------------------------------------------------------------------------
  // check_gemini_api_status
  // ---------------------------------------------------------------------------

  datatype ApiStatus =
    | ApiValid(testResponse: string)
    | ApiUnavailable(error: string, message: string)

  /** The test answer as reported: its first 100 characters and "..." when it is longer. */
  function Preview(text: string): (r: string)
    ensures |text| <= 100 ==> r == text
    ensures |text| > 100 ==> r == text[..100] + "..." && |r| == 103
  {
    if |text| > 100 then text[..100] + "..." else text
  }

  /** `check_gemini_api_status`: no key, no call; otherwise one test call with the key in use. */
  function ApiStatusOf(apiKey: Option<string>, env: Option<string>, call: string -> Result<string, string>)
    : (r: ApiStatus)
    ensures r.ApiValid? <==> ResolveKey(apiKey, env).Some? && call(ResolveKey(apiKey, env).value).Ok?
    ensures r.ApiValid? ==> r.testResponse == Preview(call(ResolveKey(apiKey, env).value).value)
                            && |r.testResponse| <= 103
    ensures ResolveKey(apiKey, env).Some? && call(ResolveKey(apiKey, env).value).Err? ==>
      var e := call(ResolveKey(apiKey, env).value).error;
      r == ApiUnavailable(e, "Gemini API接続エラー: " + e)
  {
    match ResolveKey(apiKey, env)
    case None => ApiUnavailable("API key not found", "GEMINI_API_KEY環境変数が設定されていません")
    case Some(key) =>
      match call(key)
      case Err(e) => ApiUnavailable(e, "Gemini API接続エラー: " + e)
      case Ok(text) => ApiValid(Preview(text))
  }

  /**
   * A missing key is reported without any model call: the answer does not depend on the
   * call at all. With a key, the call made is with the argument's key when it is given.
   */
  lemma MissingKeyNoCall(apiKey: Option<string>, env: Option<string>,
                         call: string -> Result<string, string>, call': string -> Result<string, string>)
    ensures !Given(apiKey) && !Given(env) ==>
      ApiStatusOf(apiKey, env, call) == ApiStatusOf(apiKey, env, call')
      && ApiStatusOf(apiKey, env, call).ApiUnavailable? && ApiStatusOf(apiKey, env, call).error == "API key not found"
    ensures Given(apiKey) && call(apiKey.value) == call'(apiKey.value) ==>
      ApiStatusOf(apiKey, env, call) == ApiStatusOf(apiKey, env, call')
  {
  }
}
