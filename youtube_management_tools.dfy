/**
 * The management tools (`create_youtube_management_tools`): thin tools over the content
 * generator that add counts and analyses to its answers, and the batch update of several
 * videos of a channel.
 *
 * Each tool first builds a content generator, whose analyzer needs a Gemini key: without one
 * the constructor raises and the tool answers with its own failure record. The generator's
 * answers come from `YoutubeContentGenerator`, with its oracles for the generated content,
 * the chapters, the tag answer and the YouTube Data API.
 */
module YoutubeManagementTools {
  import opened Seqs
  import opened Text
  import opened JsonValue
  import YoutubeTools
  import Semantic = YoutubeSemanticTools
  import Content = YoutubeContentGenerator
  import Gemini = GeminiAnalyzer

  // ---------------------------------------------------------------------------
  // generate_video_content_automatically
  // ---------------------------------------------------------------------------

  /** The answer of `generate_video_content_automatically`. */
  datatype ContentReport =
    | ContentReady(generated: Content.Generated, characterCount: nat, hashtagCount: nat, titleOptions: nat,
                   message: string)
    | ContentAsIs(generated: Content.Generated)
    | ContentFailed(error: string, message: string)

  const ContentMessage := "動画コンテンツを自動生成しました"

  /** The tool's own failure record, for what it catches. */
  function ContentError(e: string): ContentReport
  {
    ContentFailed(e, "コンテンツ生成に失敗: " + e)
  }

  /**
   * The counts and the message are added to a successful generation only; a failed one is
   * passed on as it is, and what the generator raised is caught as the tool's failure record.
   */
  function Enrich(g: Content.Generated): (r: ContentReport)
    ensures r.ContentReady? <==> g.Generated?
    ensures r.ContentAsIs? <==> g.GenerationFailed?
    ensures !r.ContentFailed? ==> r.generated == g
    ensures g.Raised? ==> r == ContentFailed(g.error, "コンテンツ生成に失敗: " + g.error)
    ensures r.ContentReady? ==>
      r.characterCount == |g.description| && r.hashtagCount == |g.hashtags|
      && r.titleOptions == |g.titleSuggestions| && r.message == ContentMessage
  {
    if g.Generated? then ContentReady(g, |g.description|, |g.hashtags|, |g.titleSuggestions|, ContentMessage)
    else if g.Raised? then ContentError(g.error)
    else ContentAsIs(g)
  }

  /**
   * `generate_video_content_automatically`: the generator's description, with the character,
   * hashtag and title counts when it succeeded. The counts are those of the description the
   * content and the chapters give. What the transcript steps raise is caught by the tool.
   */
  method GenerateVideoContentAutomatically(
    videoId: string, includeChapters: bool, includeSummary: bool, includeHashtags: bool, sections: seq<string>,
    apiKey: Option<string>, env: Option<string>, transcript: Result<seq<Gemini.Entry>, string>,
    content: Result<Content.ContentData, string>,
    generate: Semantic.ChapterRequest -> Result<Semantic.ChapterAnswer, string>)
    returns (r: ContentReport)
    ensures Semantic.ResolveKey(apiKey, env).None? ==>
      r == ContentFailed(Semantic.NoKeyError, "コンテンツ生成に失敗: " + Semantic.NoKeyError)
    ensures Semantic.ResolveKey(apiKey, env).Some? && Content.TranscriptFailure(transcript).Some? ==>
      var e := Content.TranscriptFailure(transcript).value;
      r == ContentFailed(e, "コンテンツ生成に失敗: " + e)
    ensures Semantic.ResolveKey(apiKey, env).Some? && Content.TranscriptFailure(transcript).None? ==>
      var parts := if content.Err? then Err(content.error)
                   else Content.DescriptionParts(content.value, includeChapters, includeSummary, includeHashtags,
                                                 sections, Content.DescriptionChapters(videoId, generate));
      (r.ContentReady? <==> parts.Ok?)
      && (r.ContentReady? ==>
            r.generated.Generated? && r.generated.videoId == videoId && r.characterCount == |Join(parts.value, "\n")|
            && r.hashtagCount == |Content.ListOr(content.value.hashtags)|
            && r.titleOptions == |Content.ListOr(content.value.titleSuggestions)|
            && r.message == ContentMessage)
      && (parts.Err? ==> r == ContentAsIs(Content.GenerationError(parts.error)))
  {
    if Semantic.ResolveKey(apiKey, env).None? {
      return ContentError(Semantic.NoKeyError);
    }
    var g := Content.GenerateVideoDescription(videoId, includeChapters, includeSummary, includeHashtags, sections,
                                              transcript, content, generate);
    r := Enrich(g);
  }

  // ---------------------------------------------------------------------------
  // generate_seo_optimized_tags
  // ---------------------------------------------------------------------------

  /** A hiragana (U+3040..U+309F) or katakana (U+30A0..U+30FF) character. */
  predicate Kana(c: char) { '\U{3040}' <= c <= '\U{309F}' || '\U{30A0}' <= c <= '\U{30FF}' }

  predicate HasKana(tag: string) { exists i :: 0 <= i < |tag| && Kana(tag[i]) }

  /** `japanese_tags`: the tags with a kana character, in their order. */
  function JapaneseTags(tags: seq<string>): seq<string>
  {
    Filter(tags, HasKana)
  }

  /** `english_tags`: the tags that are not among the Japanese ones, in their order. */
  function EnglishTags(tags: seq<string>): seq<string>
  {
    var japanese := JapaneseTags(tags);
    Filter(tags, t => t !in japanese)
  }

  /** The Japanese tags are exactly the tags with a kana character. */
  lemma JapaneseExact(tags: seq<string>)
    ensures forall t :: t in JapaneseTags(tags) <==> t in tags && HasKana(t)
  {
    var japanese := JapaneseTags(tags);
    forall t | t in tags && HasKana(t) ensures t in japanese {
      FilterMultiset(tags, HasKana, t);
      assert multiset(japanese)[t] == multiset(tags)[t] > 0;
    }
  }

  /**
   * The English tags are the tags without a kana character: the test "not among the
   * Japanese tags" keeps the same tags as the test "no kana character".
   */
  lemma EnglishWithoutKana(tags: seq<string>)
    ensures EnglishTags(tags) == Filter(tags, t => !HasKana(t))
  {
    var japanese := JapaneseTags(tags);
    JapaneseExact(tags);
    FilterSame(tags, t => t !in japanese, t => !HasKana(t));
  }

  /**
   * The two lists split the tags: the English ones are exactly the tags without a kana
   * character, and together the two lists hold every tag as often as the tags do.
   */
  lemma TagsPartitioned(tags: seq<string>)
    ensures forall t :: t in EnglishTags(tags) <==> t in tags && !HasKana(t)
    ensures multiset(JapaneseTags(tags)) + multiset(EnglishTags(tags)) == multiset(tags)
  {
    EnglishWithoutKana(tags);
    var japanese := JapaneseTags(tags);
    var english := Filter(tags, t => !HasKana(t));
    forall t | t in tags && !HasKana(t) ensures t in english {
      FilterMultiset(tags, t => !HasKana(t), t);
      assert multiset(english)[t] == multiset(tags)[t] > 0;
    }
    forall t ensures (multiset(japanese) + multiset(english))[t] == multiset(tags)[t] {
      FilterMultiset(tags, HasKana, t);
      FilterMultiset(tags, t => !HasKana(t), t);
    }
    assert forall t :: (multiset(japanese) + multiset(english))[t] == multiset(tags)[t];
  }

  /** `japanese_ratio`: the percentage of Japanese tags, 0 without tags. */
  function JapaneseRatio(tags: seq<string>): (r: real)
    ensures tags == [] ==> r == 0.0
    ensures 0.0 <= r <= 100.0
  {
    if tags == [] then 0.0
    else
      var share := (|JapaneseTags(tags)| as real) / (|tags| as real);
      ShareAtMostOne(|JapaneseTags(tags)|, |tags|);
      share * 100.0
  }

  lemma ShareAtMostOne(part: nat, whole: nat)
    requires part <= whole && whole > 0
    ensures 0.0 <= (part as real) / (whole as real) <= 1.0
  {
  }

  function TagLength(t: string): int { |t| }

  /** `average_length`: the mean number of characters of a tag, 0 without tags. */
  function AverageLength(tags: seq<string>): real
  {
    if tags == [] then 0.0 else (Sum(tags, TagLength) as real) / (|tags| as real)
  }

  /** Every tag shorter than `bound` characters keeps the mean below `bound`, and it is never negative. */
  lemma AverageLengthBounds(tags: seq<string>, bound: int)
    requires forall t :: t in tags ==> |t| < bound
    ensures 0.0 <= AverageLength(tags)
    ensures tags != [] ==> AverageLength(tags) < bound as real
  {
    if tags != [] {
      SumBounds(tags, TagLength, 0, bound);
      MeanBelow(Sum(tags, TagLength), |tags|, bound);
    }
  }

  lemma MeanBelow(total: int, count: nat, bound: int)
    requires count > 0 && 0 <= total < bound * count
    ensures 0.0 <= (total as real) / (count as real) < bound as real
  {
    assert (total as real) < (bound as real) * (count as real);
  }

  /** The answer of `generate_seo_optimized_tags`. */
  datatype TagReport =
    | TagReport(videoId: string, tags: seq<string>, totalCount: nat, japaneseTags: seq<string>,
                englishTags: seq<string>, japaneseRatio: real, averageLength: real, message: string)
    | TagsFailed(error: string, message: string)

  /** The failure record of `generate_seo_optimized_tags`. */
  function TagsError(e: string): TagReport
  {
    TagsFailed(e, "タグ生成に失敗: " + e)
  }

  /**
   * `generate_seo_optimized_tags`: the generator's tags with their partition and analysis.
   * `generate_optimized_tags` fetches the transcript before its own `try`, so a failed fetch
   * reaches this tool's handler with the analyzer's prefix, while a failed model call only
   * leaves the tag list empty. `include_trending` only changes the prompt.
   */
  function SeoOptimizedTags(videoId: string, maxTags: int, apiKey: Option<string>, env: Option<string>,
                            fetch: string -> Result<seq<Gemini.Entry>, string>,
                            answer: Result<string, string>): (r: TagReport)
    ensures Semantic.ResolveKey(apiKey, env).None? ==> r == TagsError(Semantic.NoKeyError)
    ensures r.TagReport? ==>
      r.videoId == videoId && r.tags == Content.OptimizedTags(answer, maxTags) && r.totalCount == |r.tags|
      && r.message == NatToString(|r.tags|) + "個のSEO最適化タグを生成しました"
  {
    if Semantic.ResolveKey(apiKey, env).None? then TagsError(Semantic.NoKeyError)
    else if fetch(videoId).Err? then TagsError(Gemini.TranscriptErrorPrefix + fetch(videoId).error)
    else
      var tags := Content.OptimizedTags(answer, maxTags);
      TagReport(videoId, tags, |tags|, JapaneseTags(tags), EnglishTags(tags), JapaneseRatio(tags), AverageLength(tags),
                NatToString(|tags|) + "個のSEO最適化タグを生成しました")
  }

  /**
   * With a key, the report succeeds exactly when the transcript is fetched, and a failed fetch
   * is reported with the analyzer's message. A report's `total_count` counts the tags, each tag
   * lands in exactly one of the two lists, the ratio is a percentage and, the generated tags
   * being shorter than 100 characters, so is their mean length. Without tags both figures are 0.
   */
  lemma SeoTagsReported(videoId: string, maxTags: int, apiKey: Option<string>, env: Option<string>,
                        fetch: string -> Result<seq<Gemini.Entry>, string>, answer: Result<string, string>)
    requires Semantic.ResolveKey(apiKey, env).Some?
    ensures var r := SeoOptimizedTags(videoId, maxTags, apiKey, env, fetch, answer);
      && (r.TagReport? <==> fetch(videoId).Ok?)
      && (fetch(videoId).Err? ==> r == TagsFailed(Gemini.TranscriptErrorPrefix + fetch(videoId).error,
                                                  "タグ生成に失敗: " + Gemini.TranscriptErrorPrefix + fetch(videoId).error))
    ensures var r := SeoOptimizedTags(videoId, maxTags, apiKey, env, fetch, answer);
      r.TagReport? ==>
      r.tags == Content.OptimizedTags(answer, maxTags) && r.totalCount == |r.tags|
      && (forall t :: t in r.tags ==> (t in r.japaneseTags <==> t !in r.englishTags))
      && multiset(r.japaneseTags) + multiset(r.englishTags) == multiset(r.tags)
      && 0.0 <= r.japaneseRatio <= 100.0 && 0.0 <= r.averageLength < 100.0
      && (r.tags == [] ==> r.japaneseRatio == 0.0 && r.averageLength == 0.0)
  {
    var tags := Content.OptimizedTags(answer, maxTags);
    JapaneseExact(tags);
    TagsPartitioned(tags);
    Content.TagsWellFormed(answer, maxTags);
    AverageLengthBounds(tags, 100);
  }

  /** Without a key the tool fails with the analyzer's constructor error before any fetch. */
  lemma SeoTagsNeedKey(videoId: string, maxTags: int, apiKey: Option<string>, env: Option<string>,
                       fetch: string -> Result<seq<Gemini.Entry>, string>, answer: Result<string, string>)
    requires Semantic.ResolveKey(apiKey, env).None?
    ensures SeoOptimizedTags(videoId, maxTags, apiKey, env, fetch, answer)
            == TagsFailed(Semantic.NoKeyError, "タグ生成に失敗: " + Semantic.NoKeyError)
  {
  }

  // ---------------------------------------------------------------------------
  // update_youtube_video_metadata
  // ---------------------------------------------------------------------------

  /** `update_youtube_video_metadata`: the generator's update, once the generator is built. */
  function VideoMetadataUpdate(videoId: string, updateTitle: bool, updateDescription: bool, updateTags: bool,
                               titleIndex: int, dryRun: bool, apiKey: Option<string>, env: Option<string>,
                               generated: Content.Generated, tagTranscript: Result<seq<Gemini.Entry>, string>,
                               tagAnswer: Result<string, string>,
                               fetch: string -> Result<Option<map<string, Json>>, string>,
                               update: (string, map<string, Json>) -> Option<string>): (r: Content.UpdateOutcome)
    ensures Semantic.ResolveKey(apiKey, env).None? ==> !Succeeded(r) && r.UpdateFailed?
    ensures generated.Raised? ==> !Succeeded(r) && r.UpdateFailed?
  {
    if Semantic.ResolveKey(apiKey, env).None? then
      Content.UpdateFailed(Semantic.NoKeyError, "メタデータ更新に失敗: " + Semantic.NoKeyError)
    else
      Content.UpdateWithGenerated(videoId, updateTitle, updateDescription, updateTags, titleIndex, dryRun,
                                  generated, tagTranscript, tagAnswer, fetch, update)
  }

  /**
   * Without a Gemini key the tool answers with its own failure record, which is not a
   * success; with one it answers what the generator's update answers, so a dry run never
   * applies anything and what the transcript steps raise is the update's failure record.
   */
  lemma VideoMetadataUpdateAnswer(videoId: string, updateTitle: bool, updateDescription: bool, updateTags: bool,
                                  titleIndex: int, dryRun: bool, apiKey: Option<string>, env: Option<string>,
                                  generated: Content.Generated, tagTranscript: Result<seq<Gemini.Entry>, string>,
                                  tagAnswer: Result<string, string>,
                                  fetch: string -> Result<Option<map<string, Json>>, string>,
                                  update: (string, map<string, Json>) -> Option<string>)
    ensures var r := VideoMetadataUpdate(videoId, updateTitle, updateDescription, updateTags, titleIndex, dryRun,
                                         apiKey, env, generated, tagTranscript, tagAnswer, fetch, update);
      (Semantic.ResolveKey(apiKey, env).None? ==>
         r == Content.UpdateFailed(Semantic.NoKeyError, "メタデータ更新に失敗: " + Semantic.NoKeyError))
      && (Semantic.ResolveKey(apiKey, env).Some? ==>
            r == Content.UpdateWithGenerated(videoId, updateTitle, updateDescription, updateTags, titleIndex, dryRun,
                                             generated, tagTranscript, tagAnswer, fetch, update)
            && (dryRun ==> !r.Applied?)
            && (generated.Raised? ==> r == Content.UpdateError(generated.error)))
      && (Succeeded(r) ==> Semantic.ResolveKey(apiKey, env).Some? && generated.Generated?)
  {
    Content.TranscriptFailuresCaught(videoId, updateTitle, updateDescription, updateTags, titleIndex, dryRun,
                                     generated, tagTranscript, tagAnswer, fetch, update);
  }

  // ---------------------------------------------------------------------------
  // batch_update_channel_videos
  // ---------------------------------------------------------------------------

  /**
   * What the generator and the API answer for each video: the generated content, the
   * transcript fetched again for the tags, the tag answer, and the snippet fetch and update.
   */
  datatype Oracles = Oracles(
    generated: string -> Content.Generated,
    transcript: string -> Result<seq<Gemini.Entry>, string>,
    tagAnswer: string -> Result<string, string>,
    fetch: string -> Result<Option<map<string, Json>>, string>,
    update: (string, map<string, Json>) -> Option<string>)

  /** One video's update in the batch: never its title, with the default title index. */
  function OutcomeFor(id: string, updateDescriptions: bool, updateTags: bool, dryRun: bool, o: Oracles)
    : Content.UpdateOutcome
  {
    Content.UpdateWithGenerated(id, false, updateDescriptions, updateTags, 0, dryRun, o.generated(id),
                                o.transcript(id), o.tagAnswer(id), o.fetch, o.update)
  }

  /** `result['success']` of an update. */
  predicate Succeeded(r: Content.UpdateOutcome) { r.Preview? || r.Applied? }

  /** How many of the ids, counted with repetitions, were updated. */
  function Successes(ids: seq<string>, updateDescriptions: bool, updateTags: bool, dryRun: bool, o: Oracles): (n: nat)
    ensures n <= |ids|
  {
    Count(ids, id => Succeeded(OutcomeFor(id, updateDescriptions, updateTags, dryRun, o)))
  }

  /** The answer of `batch_update_channel_videos`. */
  datatype BatchUpdate =
    | BatchUpdated(totalVideos: nat, successfulUpdates: nat, failedUpdates: int, dryRun: bool, order: seq<string>,
                   results: map<string, Content.UpdateOutcome>, message: string)
    | BatchUpdateFailed(error: string, message: string)

  /** "s/n個の動画をプレビューしました" for a dry run, "…を更新しました" otherwise. */
  function BatchMessage(successful: nat, total: nat, dryRun: bool): string
  {
    NatToString(successful) + "/" + NatToString(total) + "個の動画を" + (if dryRun then "プレビュー" else "更新") + "しました"
  }

  /**
   * The batch: one result per distinct id (a repeated id writes its result again), the
   * number of ids given, the successes counted once per id given and the failures as the
   * rest.
   */
  function BatchUpdateOf(ids: seq<string>, updateDescriptions: bool, updateTags: bool, dryRun: bool,
                         apiKey: Option<string>, env: Option<string>, o: Oracles): BatchUpdate
  {
    if Semantic.ResolveKey(apiKey, env).None? then
      BatchUpdateFailed(Semantic.NoKeyError, "一括更新に失敗: " + Semantic.NoKeyError)
    else
      BatchAnswer(|ids|, dryRun, KeysOf(ids, YoutubeTools.Same),
                  Tabulate(KeysOf(ids, YoutubeTools.Same), id => OutcomeFor(id, updateDescriptions, updateTags, dryRun, o)),
                  Successes(ids, updateDescriptions, updateTags, dryRun, o))
  }

  /** The answer once the loop has run: the failures are the ids given that did not succeed. */
  function BatchAnswer(total: nat, dryRun: bool, order: seq<string>, results: map<string, Content.UpdateOutcome>,
                       successful: nat): BatchUpdate
  {
    BatchUpdated(total, successful, total - successful, dryRun, order, results, BatchMessage(successful, total, dryRun))
  }

  /** The loop over the ids: each id's update stored under it, and the successes counted. */
  method UpdateAll(ids: seq<string>, updateDescriptions: bool, updateTags: bool, dryRun: bool, o: Oracles)
    returns (order: seq<string>, results: map<string, Content.UpdateOutcome>, successful: nat)
    ensures order == KeysOf(ids, YoutubeTools.Same)
    ensures results == Tabulate(order, id => OutcomeFor(id, updateDescriptions, updateTags, dryRun, o))
    ensures successful == Successes(ids, updateDescriptions, updateTags, dryRun, o)
  {
    var update := id => OutcomeFor(id, updateDescriptions, updateTags, dryRun, o);
    var succeeds := id => Succeeded(OutcomeFor(id, updateDescriptions, updateTags, dryRun, o));
    order, results, successful := StoreAll(ids, YoutubeTools.Same, update, Succeeded, succeeds);
    TabulateOf(results, order, update);
  }

  /** `batch_update_channel_videos` step by step. */
  method BatchUpdateChannelVideos(ids: seq<string>, updateDescriptions: bool, updateTags: bool, dryRun: bool,
                                  apiKey: Option<string>, env: Option<string>, o: Oracles)
    returns (r: BatchUpdate)
    ensures r == BatchUpdateOf(ids, updateDescriptions, updateTags, dryRun, apiKey, env, o)
  {
    if Semantic.ResolveKey(apiKey, env).None? {
      return BatchUpdateFailed(Semantic.NoKeyError, "一括更新に失敗: " + Semantic.NoKeyError);
    }
    var order, results, successful := UpdateAll(ids, updateDescriptions, updateTags, dryRun, o);
    r := BatchAnswer(|ids|, dryRun, order, results, successful);
  }

  /**
   * With a key, `total_videos` is the number of ids given, the successes and the failures add
   * up to it and neither is negative, and the results hold exactly the ids, in the order they
   * first appear, each with its own video's outcome.
   */
  lemma BatchCounts(ids: seq<string>, updateDescriptions: bool, updateTags: bool, dryRun: bool,
                    apiKey: Option<string>, env: Option<string>, o: Oracles)
    requires Semantic.ResolveKey(apiKey, env).Some?
    ensures var r := BatchUpdateOf(ids, updateDescriptions, updateTags, dryRun, apiKey, env, o);
      r.BatchUpdated? && r.totalVideos == |ids|
      && r.successfulUpdates + r.failedUpdates == r.totalVideos
      && 0 <= r.failedUpdates && r.successfulUpdates <= |ids|
      && (forall id :: id in r.results <==> id in ids)
      && (forall id :: id in r.order <==> id in ids)
      && (forall id :: id in r.results ==> r.results[id] == OutcomeFor(id, updateDescriptions, updateTags, dryRun, o))
      && r.dryRun == dryRun
  {
    var order := KeysOf(ids, YoutubeTools.Same);
    forall id ensures id in order <==> id in ids {
      if id in ids {
        assert YoutubeTools.Same(id) == id;
      }
    }
  }

  /** The batch never touches a title, whatever was generated. */
  lemma BatchLeavesTitles(id: string, updateDescriptions: bool, updateTags: bool, dryRun: bool, o: Oracles)
    ensures var r := OutcomeFor(id, updateDescriptions, updateTags, dryRun, o);
      (r.Preview? ==> "title" !in Content.FieldNames(r.preview))
      && (r.Applied? ==> "title" !in r.updatedFields)
  {
    var g := o.generated(id);
    if g.Generated? {
      var tags := Content.UpdateTagsOf(updateTags, o.tagAnswer(id));
      Content.OutcomeShowsData(id, false, updateDescriptions, updateTags, 0, dryRun, g,
                               o.transcript(id), o.tagAnswer(id), o.fetch, o.update);
      if Content.UpdateDataOf(g, false, updateDescriptions, updateTags, 0, tags).Ok? {
        NoTitleNamed(g, updateDescriptions, updateTags, tags);
      }
    }
  }

  /** Update data built without a title update names no title field. */
  lemma NoTitleNamed(g: Content.Generated, updateDescriptions: bool, updateTags: bool, tags: seq<string>)
    requires g.Generated?
    requires Content.UpdateDataOf(g, false, updateDescriptions, updateTags, 0, tags).Ok?
    ensures "title" !in Content.FieldNames(Content.UpdateDataOf(g, false, updateDescriptions, updateTags, 0, tags).value)
  {
    Content.UpdateDataNames(g, false, updateDescriptions, updateTags, 0, tags);
    var names := Content.FieldNames(Content.UpdateDataOf(g, false, updateDescriptions, updateTags, 0, tags).value);
    var none: seq<string> := [];
    assert names == none + (if updateDescriptions then ["description"] else [])
                         + (if updateTags && tags != [] then ["tags"] else []);
    TitleAbsent(names, updateDescriptions, updateTags && tags != []);
  }

  lemma TitleAbsent(names: seq<string>, description: bool, tags: bool)
    requires names == [] + (if description then ["description"] else []) + (if tags then ["tags"] else [])
    ensures "title" !in names
  {
    var d: seq<string> := if description then ["description"] else [];
    var k: seq<string> := if tags then ["tags"] else [];
    assert names == d + k;
    forall i | 0 <= i < |names| ensures names[i] != "title" {
      if i < |d| {
        assert names[i] == "description";
      } else {
        assert names[i] == "tags";
      }
    }
  }

  /** A dry run updates nothing: no video's result is an applied update. */
  lemma DryRunBatchApplies(ids: seq<string>, updateDescriptions: bool, updateTags: bool,
                           apiKey: Option<string>, env: Option<string>, o: Oracles)
    requires Semantic.ResolveKey(apiKey, env).Some?
    ensures var r := BatchUpdateOf(ids, updateDescriptions, updateTags, true, apiKey, env, o);
      r.BatchUpdated? && forall id :: id in r.results ==> !r.results[id].Applied?
  {
  }

  /**
   * A repeated id has one result but is counted for each time it is given: two copies of an
   * id that updates report two successes out of two videos.
   */
  lemma RepeatedIdCountedTwice(id: string, updateDescriptions: bool, updateTags: bool, dryRun: bool,
                               apiKey: Option<string>, env: Option<string>, o: Oracles)
    requires Semantic.ResolveKey(apiKey, env).Some?
    requires Succeeded(OutcomeFor(id, updateDescriptions, updateTags, dryRun, o))
    ensures var r := BatchUpdateOf([id, id], updateDescriptions, updateTags, dryRun, apiKey, env, o);
      r.BatchUpdated? && r.totalVideos == 2 && r.successfulUpdates == 2 && r.failedUpdates == 0
      && r.order == [id]
  {
    KeysOfTwice(id, YoutubeTools.Same);
    CountTwice(id, id => Succeeded(OutcomeFor(id, updateDescriptions, updateTags, dryRun, o)));
  }
}
