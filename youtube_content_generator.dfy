/**
 * The content generator's own logic (`YouTubeContentGenerator`): the description assembled
 * from the generated content, the post-processing of generated tags, the metadata update
 * built from both (with its dry run and its snippet merge) and the social media posts.
 *
 * The Gemini model, the JSON extraction from its answer and the YouTube Data API are
 * oracles. The transcript fetched through the analyzer is a `Result` of its entries or of the
 * fetch error. The generated content reaches the model as `Result<ContentData, string>`: the
 * parsed object, or the text of the exception raised while asking for it or parsing it. A
 * key of the object that the code reads with `[...]` is an `Option`, `None` when absent.
 * The chapters come from the semantic chapter generator, the oracle `generate` of
 * `YoutubeSemanticTools` (its answer, or the text of the exception it raised), the tag answer
 * is a `Result<string, string>` and the API is a pair of functions `fetch` and `update` as in
 * the channel manager.
 */
module YoutubeContentGenerator {
  import opened Seqs
  import opened Text
  import opened JsonValue
  import Semantic = YoutubeSemanticTools
  import Gemini = GeminiAnalyzer

  // ---------------------------------------------------------------------------
  // The generated content
  // ---------------------------------------------------------------------------

  datatype ContentData = ContentData(
    titleSuggestions: Option<seq<string>>,
    shortDescription: Option<string>,
    detailedSummary: Option<string>,
    keyPoints: Option<seq<string>>,
    targetAudience: Option<string>,
    learningOutcomes: Option<seq<string>>,
    hashtags: Option<seq<string>>,
    seoKeywords: Option<seq<string>>,
    callToAction: Option<string>)

  /** `content_data.get(key)` is truthy for a list: present and non-empty. */
  predicate Listed(o: Option<seq<string>>) { o.Some? && o.value != [] }

  /** `content_data.get(key)` is truthy for a string: present and non-empty. */
  predicate Stated(o: Option<string>) { o.Some? && o.value != "" }

  /** `content_data.get(key, [])` for a list. */
  function ListOr(o: Option<seq<string>>): seq<string> { if o.Some? then o.value else [] }

  /** The text of the `KeyError` raised by `content_data[key]`. */
  function Missing(key: string): string { "'" + key + "'" }

  // ---------------------------------------------------------------------------
  // The description (generate_video_description)
  // ---------------------------------------------------------------------------

  const LearnHeading := "📚 この動画で学べること:"
  const ChapterHeading := "📋 目次 / チャプター"
  const Placeholder := "（ここに内容を追加）"
  /** `"―" * 20`. */
  const Rule := "――――――――――――――――――――"
  /** `"=" * 40`. */
  const ChapterRule := "========================================"

  /** Each item of `xs` behind the same prefix (`f"・{outcome}"`). */
  function Bulleted(prefix: string, xs: seq<string>): (r: seq<string>)
    ensures |r| == |xs|
    ensures forall i :: 0 <= i < |xs| ==> r[i] == prefix + xs[i]
  {
    if xs == [] then [] else Bulleted(prefix, xs[..|xs| - 1]) + [prefix + xs[|xs| - 1]]
  }

    /** The three lines of each custom section: its bracketed name, the placeholder, a blank. */
  function SectionBlock(sections: seq<string>): seq<string>
  {
    if sections == [] then []
    else SectionBlock(sections[..|sections| - 1]) + ["【" + sections[|sections| - 1] + "】", Placeholder, ""]
  }

  function SummaryBlock(c: ContentData, includeSummary: bool): seq<string>
    requires includeSummary ==> c.shortDescription.Some?
  {
    if includeSummary then [c.shortDescription.value, ""] else []
  }

  function OutcomeBlock(c: ContentData): seq<string>
  {
    if Listed(c.learningOutcomes) then [LearnHeading] + Bulleted("・", c.learningOutcomes.value) + [""] else []
  }

  function ChapterBlock(chapters: Result<seq<Semantic.Chapter>, string>, includeChapters: bool): seq<string>
    requires includeChapters ==> chapters.Ok?
  {
    if includeChapters then [ChapterHeading, ChapterRule] + Semantic.TimestampLines(chapters.value) + [""] else []
  }

  function CtaBlock(c: ContentData): seq<string>
  {
    if Stated(c.callToAction) then [Rule, c.callToAction.value, ""] else []
  }

  function HashtagBlock(c: ContentData, includeHashtags: bool): seq<string>
  {
    if includeHashtags && Listed(c.hashtags) then [Rule, Join(c.hashtags.value, " ")] else []
  }

  /**
   * The lines of the description, in their order: the short description (when asked for),
   * the detailed summary, the learning outcomes, the chapters (when asked for), the custom
   * sections, the call to action and the hashtags (when asked for). A key read with `[...]`
   * that is absent raises its `KeyError`, in the order the code reads them.
   */
  function DescriptionParts(c: ContentData, includeChapters: bool, includeSummary: bool, includeHashtags: bool,
                            sections: seq<string>, chapters: Result<seq<Semantic.Chapter>, string>): Result<seq<string>, string>
  {
    if includeSummary && c.shortDescription.None? then Err(Missing("short_description"))
    else if c.detailedSummary.None? then Err(Missing("detailed_summary"))
    else if includeChapters && chapters.Err? then Err(chapters.error)
    else Ok(SummaryBlock(c, includeSummary) + [c.detailedSummary.value, ""] + OutcomeBlock(c)
            + ChapterBlock(chapters, includeChapters) + SectionBlock(sections) + CtaBlock(c)
            + HashtagBlock(c, includeHashtags))
  }

  /** The learning outcomes appended under their heading, one line each. */
  method AppendOutcomes(parts: seq<string>, c: ContentData) returns (parts': seq<string>)
    ensures parts' == parts + OutcomeBlock(c)
  {
    parts' := parts;
    if Listed(c.learningOutcomes) {
      var outcomes := c.learningOutcomes.value;
      parts' := parts' + [LearnHeading];
      for i := 0 to |outcomes|
        invariant parts' == parts + [LearnHeading] + Bulleted("・", outcomes[..i])
      {
        assert outcomes[..i + 1][..i] == outcomes[..i];
        parts' := parts' + ["・" + outcomes[i]];
      }
      assert outcomes[..|outcomes|] == outcomes;
      parts' := parts' + [""];
    }
  }

  /** The chapter block appended: heading, rule, a line per chapter and a blank line. */
  method AppendChapters(parts: seq<string>, chapters: seq<Semantic.Chapter>) returns (parts': seq<string>)
    ensures parts' == parts + ChapterBlock(Ok(chapters), true)
  {
    var prefix := parts + [ChapterHeading, ChapterRule];
    parts' := prefix;
    for i := 0 to |chapters|
      invariant parts' == prefix + Semantic.TimestampLines(chapters[..i])
    {
      ghost var done := Semantic.TimestampLines(chapters[..i]);
      var line := Semantic.TimestampLine(chapters[i]);
      assert chapters[..i + 1][..i] == chapters[..i];
      assert Semantic.TimestampLines(chapters[..i + 1]) == done + [line];
      parts' := parts' + [line];
      assert parts' == prefix + (done + [line]);
    }
    assert chapters[..|chapters|] == chapters;
    ghost var lines := Semantic.TimestampLines(chapters);
    parts' := parts' + [""];
    assert parts' == parts + ([ChapterHeading, ChapterRule] + lines + [""]);
  }

  /** The custom sections appended, three lines each. */
  method AppendSections(parts: seq<string>, sections: seq<string>) returns (parts': seq<string>)
    ensures parts' == parts + SectionBlock(sections)
  {
    parts' := parts;
    for i := 0 to |sections|
      invariant parts' == parts + SectionBlock(sections[..i])
    {
      assert sections[..i + 1][..i] == sections[..i];
      parts' := parts' + ["【" + sections[i] + "】", Placeholder, ""];
    }
    assert sections[..|sections|] == sections;
  }

  /** `description_parts` built by appends, as the code builds it. */
  method BuildDescription(c: ContentData, includeChapters: bool, includeSummary: bool, includeHashtags: bool,
                          sections: seq<string>, chapters: Result<seq<Semantic.Chapter>, string>)
    returns (r: Result<seq<string>, string>)
    ensures r == DescriptionParts(c, includeChapters, includeSummary, includeHashtags, sections, chapters)
  {
    var parts: seq<string> := [];
    if includeSummary {
      if c.shortDescription.None? {
        return Err(Missing("short_description"));
      }
      parts := parts + [c.shortDescription.value, ""];
    }
    if c.detailedSummary.None? {
      return Err(Missing("detailed_summary"));
    }
    parts := parts + [c.detailedSummary.value, ""];
    ghost var opening := parts;
    assert opening == SummaryBlock(c, includeSummary) + [c.detailedSummary.value, ""];
    parts := AppendOutcomes(parts, c);
    if includeChapters {
      if chapters.Err? {
        return Err(chapters.error);
      }
      parts := AppendChapters(parts, chapters.value);
    }
    assert parts == opening + OutcomeBlock(c) + ChapterBlock(chapters, includeChapters);
    parts := AppendSections(parts, sections);
    if Stated(c.callToAction) {
      parts := parts + [Rule, c.callToAction.value, ""];
    }
    if includeHashtags && Listed(c.hashtags) {
      parts := parts + [Rule, Join(c.hashtags.value, " ")];
    }
    assert parts == opening + OutcomeBlock(c) + ChapterBlock(chapters, includeChapters) + SectionBlock(sections)
                    + CtaBlock(c) + HashtagBlock(c, includeHashtags);
    r := Ok(parts);
  }

  /** Each custom section gives three lines: `【name】`, the placeholder and a blank line. */
  lemma {:induction false} SectionLines(sections: seq<string>)
    ensures |SectionBlock(sections)| == 3 * |sections|
    ensures forall i :: 0 <= i < |sections| ==>
      SectionBlock(sections)[3 * i] == "【" + sections[i] + "】"
      && SectionBlock(sections)[3 * i + 1] == Placeholder && SectionBlock(sections)[3 * i + 2] == ""
  {
    if sections != [] {
      var init := sections[..|sections| - 1];
      SectionLines(init);
      forall i | 0 <= i < |init| ensures init[i] == sections[i] { }
    }
  }

  /** A description fails exactly when a key the code reads with `[...]` is absent. */
  lemma DescriptionFails(c: ContentData, includeChapters: bool, includeSummary: bool, includeHashtags: bool,
                         sections: seq<string>, chapters: Result<seq<Semantic.Chapter>, string>)
    ensures DescriptionParts(c, includeChapters, includeSummary, includeHashtags, sections, chapters).Err?
      <==> (includeSummary && c.shortDescription.None?) || c.detailedSummary.None?
           || (includeChapters && chapters.Err?)
  {
  }

  /**
   * The description opens with the short description, a blank line and the detailed summary
   * when the summary is asked for, and with the detailed summary otherwise.
   */
  lemma DescriptionOpens(c: ContentData, includeChapters: bool, includeSummary: bool, includeHashtags: bool,
                         sections: seq<string>, chapters: Result<seq<Semantic.Chapter>, string>)
    requires DescriptionParts(c, includeChapters, includeSummary, includeHashtags, sections, chapters).Ok?
    ensures var parts := DescriptionParts(c, includeChapters, includeSummary, includeHashtags, sections, chapters).value;
      (includeSummary ==> |parts| >= 4 && parts[0] == c.shortDescription.value && parts[1] == ""
                          && parts[2] == c.detailedSummary.value)
      && (!includeSummary ==> |parts| >= 2 && parts[0] == c.detailedSummary.value)
  {
  }

  /**
   * The description closes with the joined hashtags after a rule when they are asked for and
   * present; otherwise every block ends with a blank line, and so does the description.
   */
  lemma DescriptionCloses(c: ContentData, includeChapters: bool, includeSummary: bool, includeHashtags: bool,
                          sections: seq<string>, chapters: Result<seq<Semantic.Chapter>, string>)
    requires DescriptionParts(c, includeChapters, includeSummary, includeHashtags, sections, chapters).Ok?
    ensures var parts := DescriptionParts(c, includeChapters, includeSummary, includeHashtags, sections, chapters).value;
      |parts| >= 2
      && (includeHashtags && Listed(c.hashtags) ==>
            parts[|parts| - 1] == Join(c.hashtags.value, " ") && parts[|parts| - 2] == Rule)
      && (!(includeHashtags && Listed(c.hashtags)) ==> parts[|parts| - 1] == "")
  {
    var parts := DescriptionParts(c, includeChapters, includeSummary, includeHashtags, sections, chapters).value;
    var body := SummaryBlock(c, includeSummary) + [c.detailedSummary.value, ""] + OutcomeBlock(c)
                + ChapterBlock(chapters, includeChapters) + SectionBlock(sections);
    SectionLines(sections);
    if sections != [] {
      assert SectionBlock(sections)[|SectionBlock(sections)| - 1] == "";
    }
    assert body[|body| - 1] == "";
  }

  /** The number of lines of the description, block by block. */
  lemma DescriptionLineCount(c: ContentData, includeChapters: bool, includeSummary: bool, includeHashtags: bool,
                             sections: seq<string>, chapters: Result<seq<Semantic.Chapter>, string>)
    requires DescriptionParts(c, includeChapters, includeSummary, includeHashtags, sections, chapters).Ok?
    ensures |DescriptionParts(c, includeChapters, includeSummary, includeHashtags, sections, chapters).value|
      == (if includeSummary then 2 else 0) + 2
         + (if Listed(c.learningOutcomes) then |c.learningOutcomes.value| + 2 else 0)
         + (if includeChapters then |chapters.value| + 3 else 0)
         + 3 * |sections|
         + (if Stated(c.callToAction) then 3 else 0)
         + (if includeHashtags && Listed(c.hashtags) then 2 else 0)
  {
    SectionLines(sections);
  }

  /**
   * The answer of `generate_video_description`: the generated fields, the failure record its
   * `try` returns, or `Raised` with the text of an exception raised before that `try` (while
   * fetching the transcript or reading its last entry), which reaches the caller.
   */
  datatype Generated =
    | Generated(videoId: string, description: string, titleSuggestions: seq<string>, hashtags: seq<string>,
                seoKeywords: seq<string>, targetAudience: string, content: ContentData)
    | GenerationFailed(error: string, message: string)
    | Raised(error: string)

  function GenerationError(e: string): Generated
  {
    GenerationFailed(e, "コンテンツ生成エラー: " + e)
  }

  /**
   * What the transcript steps before the `try` raise: the fetch error re-raised with its
   * prefix, the `IndexError` of `transcript[-1]` on an empty transcript, or the `KeyError` of
   * a last entry without a duration. `None` exactly when the total duration can be computed.
   */
  function TranscriptFailure(transcript: Result<seq<Gemini.Entry>, string>): (r: Option<string>)
    ensures r.None? <==> transcript.Ok? && transcript.value != [] && transcript.value[|transcript.value| - 1].duration.Some?
    ensures transcript.Err? ==> r == Some(Gemini.TranscriptErrorPrefix + transcript.error)
    ensures transcript == Ok([]) ==> r == Some(IndexErrorText)
  {
    if transcript.Err? then Some(Gemini.TranscriptErrorPrefix + transcript.error)
    else if transcript.value == [] then Some(IndexErrorText)
    else if transcript.value[|transcript.value| - 1].duration.None? then Some(Missing("duration"))
    else None
  }

  /**
   * The chapters the description asks for: `generate_semantic_chapters` with 300-second
   * segments and the medium granularity, its "chapters", or the text of what it raised.
   */
  function DescriptionChapters(videoId: string, generate: Semantic.ChapterRequest -> Result<Semantic.ChapterAnswer, string>)
    : (r: Result<seq<Semantic.Chapter>, string>)
    ensures var answer := generate(Semantic.ChapterRequest(videoId, 300, "medium", None));
      (r.Ok? <==> answer.Ok?) && (r.Ok? ==> r.value == answer.value.chapters) && (r.Err? ==> r.error == answer.error)
  {
    match generate(Semantic.ChapterRequest(videoId, 300, "medium", None))
    case Ok(a) => Ok(a.chapters)
    case Err(e) => Err(e)
  }

  /**
   * `generate_video_description`: the description lines joined with line breaks, and the
   * generated fields read with their defaults. What the transcript steps raise before the
   * `try` is raised to the caller; any later exception becomes a failure record.
   */
  method GenerateVideoDescription(videoId: string, includeChapters: bool, includeSummary: bool, includeHashtags: bool,
                                  sections: seq<string>, transcript: Result<seq<Gemini.Entry>, string>,
                                  content: Result<ContentData, string>,
                                  generate: Semantic.ChapterRequest -> Result<Semantic.ChapterAnswer, string>)
    returns (r: Generated)
    ensures TranscriptFailure(transcript).Some? ==> r == Raised(TranscriptFailure(transcript).value)
    ensures TranscriptFailure(transcript).None? && content.Err? ==> r == GenerationError(content.error)
    ensures TranscriptFailure(transcript).None? && content.Ok? ==>
      var parts := DescriptionParts(content.value, includeChapters, includeSummary, includeHashtags, sections,
                                    DescriptionChapters(videoId, generate));
      (parts.Err? ==> r == GenerationError(parts.error))
      && (parts.Ok? ==>
            r.Generated? && r.videoId == videoId && r.description == Join(parts.value, "\n")
            && r.content == content.value
            && r.titleSuggestions == ListOr(content.value.titleSuggestions)
            && r.hashtags == ListOr(content.value.hashtags)
            && r.seoKeywords == ListOr(content.value.seoKeywords)
            && r.targetAudience == (if content.value.targetAudience.Some? then content.value.targetAudience.value else ""))
  {
    var raised := TranscriptFailure(transcript);
    if raised.Some? {
      return Raised(raised.value);
    }
    if content.Err? {
      return GenerationError(content.error);
    }
    var c := content.value;
    var chapters := if includeChapters then DescriptionChapters(videoId, generate) else Ok([]);
    var parts := BuildDescription(c, includeChapters, includeSummary, includeHashtags, sections, chapters);
    if parts.Err? {
      return GenerationError(parts.error);
    }
    var audience := if c.targetAudience.Some? then c.targetAudience.value else "";
    r := Generated(videoId, Join(parts.value, "\n"), ListOr(c.titleSuggestions), ListOr(c.hashtags),
                   ListOr(c.seoKeywords), audience, c);
  }

  // ---------------------------------------------------------------------------
  // generate_optimized_tags
  // ---------------------------------------------------------------------------

  /** Every piece stripped (`[tag.strip() for tag in ...]`). */
  function StripAll(pieces: seq<string>): (r: seq<string>)
    ensures |r| == |pieces|
    ensures forall i :: 0 <= i < |pieces| ==> r[i] == Strip(pieces[i])
  {
    if pieces == [] then [] else StripAll(pieces[..|pieces| - 1]) + [Strip(pieces[|pieces| - 1])]
  }

  /** A tag is kept when it is non-empty and shorter than 100 characters. */
  predicate KeepTag(t: string) { t != "" && |t| < 100 }

  /** Python's `s[:n]` for any integer `n`: a negative `n` drops that many items from the end. */
  function SliceTo<T>(s: seq<T>, n: int): (r: seq<T>)
    ensures r <= s
    ensures |r| == if n >= 0 then (if n < |s| then n else |s|) else (if |s| + n > 0 then |s| + n else 0)
  {
    if n >= 0 then Take(s, n) else if |s| + n > 0 then s[..|s| + n] else []
  }

  /** The candidate tags of an answer: split at commas and stripped, the empty and long ones dropped. */
  function TagCandidates(text: string): seq<string>
  {
    Filter(StripAll(Split(Strip(text), ',')), KeepTag)
  }

  /** `generate_optimized_tags`: the first `max_tags` candidates, or nothing when the model call fails. */
  function OptimizedTags(answer: Result<string, string>, maxTags: int): (r: seq<string>)
    ensures answer.Err? ==> r == []
    ensures answer.Ok? ==> r <= TagCandidates(answer.value)
    ensures maxTags >= 0 ==> |r| <= maxTags
  {
    match answer
    case Err(_) => []
    case Ok(text) => SliceTo(TagCandidates(text), maxTags)
  }

  /** A stripped piece of a split keeps no comma. */
  lemma StripNoComma(p: string)
    requires ',' !in p
    ensures ',' !in Strip(p)
  {
    StripCharacterized(p);
    var s := Strip(p);
    forall k | 0 <= k < |s| ensures s[k] != ',' {
      assert s[k] == p[|p| - |TrimLeft(p)| + k];
    }
  }

  /**
   * Every tag is non-empty, shorter than 100 characters, free of commas and of surrounding
   * whitespace; the tags are the first candidates in the answer's order, there are at most
   * `max_tags` of them (a negative `max_tags` drops that many from the end, as Python's slice
   * does) and never more than the answer has comma-separated pieces.
   */
  lemma TagsWellFormed(answer: Result<string, string>, maxTags: int)
    ensures var r := OptimizedTags(answer, maxTags);
      (forall t :: t in r ==> KeepTag(t) && ',' !in t && Strip(t) == t)
      && (maxTags >= 0 ==> |r| <= maxTags)
      && (answer.Ok? && maxTags < 0 ==>
            |r| == (if |TagCandidates(answer.value)| + maxTags > 0 then |TagCandidates(answer.value)| + maxTags else 0))
      && (answer.Err? ==> r == [])
      && (answer.Ok? ==> r <= TagCandidates(answer.value)
                         && |r| <= 1 + multiset(Strip(answer.value))[','])
  {
    if answer.Ok? {
      var text := answer.value;
      var pieces := Split(Strip(text), ',');
      var stripped := StripAll(pieces);
      var r := OptimizedTags(answer, maxTags);
      SplitCount(Strip(text), ',');
      forall t | t in r ensures KeepTag(t) && ',' !in t && Strip(t) == t {
        assert t in TagCandidates(text);
        var i :| 0 <= i < |stripped| && stripped[i] == t;
        assert pieces[i] in pieces;
        StripNoComma(pieces[i]);
        StripIdempotent(pieces[i]);
      }
    }
  }

  // ---------------------------------------------------------------------------
  // update_video_metadata_with_generated_content
  // ---------------------------------------------------------------------------

  /** Python's `s[i]`: a negative index counts from the end; outside the list it raises. */
  function PyIndex<T>(s: seq<T>, i: int): (r: Option<T>)
    ensures r.Some? <==> -|s| <= i < |s|
    ensures 0 <= i < |s| ==> r == Some(s[i])
    ensures -|s| <= i < 0 ==> r == Some(s[|s| + i])
  {
    if 0 <= i < |s| then Some(s[i]) else if -|s| <= i < 0 then Some(s[|s| + i]) else None
  }

  const IndexErrorText := "list index out of range"

  function TagList(tags: seq<string>): Json
  {
    JArr(seq(|tags|, i requires 0 <= i < |tags| => JStr(tags[i])))
  }

  /** `update_data`: a dict filled in the order title, description, tags. */
  type UpdateData = seq<(string, Json)>

  function FieldNames(data: UpdateData): (r: seq<string>)
    ensures |r| == |data|
    ensures forall i :: 0 <= i < |data| ==> r[i] == data[i].0
  {
    if data == [] then [] else FieldNames(data[..|data| - 1]) + [data[|data| - 1].0]
  }

  /** The title field of the update data: present when a title update is asked for and suggested. */
  function TitleField(g: Generated, updateTitle: bool, titleIndex: int): UpdateData
    requires g.Generated?
  {
    if updateTitle && g.titleSuggestions != [] && PyIndex(g.titleSuggestions, titleIndex).Some?
    then [("title", JStr(PyIndex(g.titleSuggestions, titleIndex).value))]
    else []
  }

  function DescriptionField(g: Generated, updateDescription: bool): UpdateData
    requires g.Generated?
  {
    if updateDescription then [("description", JStr(g.description))] else []
  }

  function TagsField(updateTags: bool, tags: seq<string>): UpdateData
  {
    if updateTags && tags != [] then [("tags", TagList(tags))] else []
  }

  /**
   * The update data: the title at `title_index` when a title update is asked for and there
   * are suggestions (an index outside them raises), the description when asked for, and the
   * tags when asked for and some were generated.
   */
  function UpdateDataOf(g: Generated, updateTitle: bool, updateDescription: bool, updateTags: bool,
                        titleIndex: int, tags: seq<string>): Result<UpdateData, string>
    requires g.Generated?
  {
    if updateTitle && g.titleSuggestions != [] && PyIndex(g.titleSuggestions, titleIndex).None? then Err(IndexErrorText)
    else Ok(TitleField(g, updateTitle, titleIndex) + DescriptionField(g, updateDescription) + TagsField(updateTags, tags))
  }

  /** The assignments that fill `update_data`. */
  method BuildUpdateData(g: Generated, updateTitle: bool, updateDescription: bool, updateTags: bool,
                         titleIndex: int, tags: seq<string>)
    returns (r: Result<UpdateData, string>)
    requires g.Generated?
    ensures r == UpdateDataOf(g, updateTitle, updateDescription, updateTags, titleIndex, tags)
  {
    var data: UpdateData := [];
    if updateTitle && g.titleSuggestions != [] {
      var title := PyIndex(g.titleSuggestions, titleIndex);
      if title.None? {
        return Err(IndexErrorText);
      }
      data := data + [("title", JStr(title.value))];
    }
    assert data == TitleField(g, updateTitle, titleIndex);
    if updateDescription {
      data := data + [("description", JStr(g.description))];
    }
    assert data == TitleField(g, updateTitle, titleIndex) + DescriptionField(g, updateDescription);
    if updateTags && tags != [] {
      data := data + [("tags", TagList(tags))];
    }
    assert data == TitleField(g, updateTitle, titleIndex) + DescriptionField(g, updateDescription) + TagsField(updateTags, tags);
    r := Ok(data);
  }

  /** The field names of the update data, in the order the code assigns them. */
  lemma UpdateDataNames(g: Generated, updateTitle: bool, updateDescription: bool, updateTags: bool,
                        titleIndex: int, tags: seq<string>)
    requires g.Generated?
    requires UpdateDataOf(g, updateTitle, updateDescription, updateTags, titleIndex, tags).Ok?
    ensures FieldNames(UpdateDataOf(g, updateTitle, updateDescription, updateTags, titleIndex, tags).value)
      == (if updateTitle && g.titleSuggestions != [] then ["title"] else [])
         + (if updateDescription then ["description"] else [])
         + (if updateTags && tags != [] then ["tags"] else [])
  {
    var t := TitleField(g, updateTitle, titleIndex);
    var d := DescriptionField(g, updateDescription);
    var k := TagsField(updateTags, tags);
    var names := (if updateTitle && g.titleSuggestions != [] then ["title"] else [])
                 + (if updateDescription then ["description"] else [])
                 + (if updateTags && tags != [] then ["tags"] else []);
    assert |t + d + k| == |names|;
    forall i | 0 <= i < |names| ensures FieldNames(t + d + k)[i] == names[i] {
      if i < |t| {
        assert (t + d + k)[i] == t[i];
      } else if i < |t| + |d| {
        assert (t + d + k)[i] == d[i - |t|];
      } else {
        assert (t + d + k)[i] == k[i - |t| - |d|];
      }
    }
  }

  /**
   * Which fields the update data holds: the title exactly when asked for with suggestions
   * present (and raising exactly when its index is out of range), the description exactly
   * when asked for, the tags exactly when asked for and generated; no field twice.
   */
  lemma UpdateDataFields(g: Generated, updateTitle: bool, updateDescription: bool, updateTags: bool,
                         titleIndex: int, tags: seq<string>)
    requires g.Generated?
    ensures var r := UpdateDataOf(g, updateTitle, updateDescription, updateTags, titleIndex, tags);
      (r.Err? <==> updateTitle && g.titleSuggestions != []
                   && !(-|g.titleSuggestions| <= titleIndex < |g.titleSuggestions|))
      && (r.Ok? ==>
            ("title" in FieldNames(r.value) <==> updateTitle && g.titleSuggestions != [])
            && ("description" in FieldNames(r.value) <==> updateDescription)
            && ("tags" in FieldNames(r.value) <==> updateTags && tags != [])
            && (forall i, j :: 0 <= i < j < |r.value| ==> r.value[i].0 != r.value[j].0)
            && (forall p :: p in r.value && p.0 == "description" ==> p.1 == JStr(g.description))
            && (forall p :: p in r.value && p.0 == "tags" ==> p.1 == TagList(tags)))
  {
    var r := UpdateDataOf(g, updateTitle, updateDescription, updateTags, titleIndex, tags);
    if r.Ok? {
      UpdateDataNames(g, updateTitle, updateDescription, updateTags, titleIndex, tags);
      var names := FieldNames(r.value);
      ThreeNames(updateTitle && g.titleSuggestions != [], updateDescription, updateTags && tags != []);
      forall i, j | 0 <= i < j < |r.value| ensures r.value[i].0 != r.value[j].0 {
        assert names[i] == r.value[i].0 && names[j] == r.value[j].0;
      }
      var t := TitleField(g, updateTitle, titleIndex);
      var d := DescriptionField(g, updateDescription);
      var k := TagsField(updateTags, tags);
      assert r.value == t + d + k;
      forall p | p in r.value
        ensures (p.0 == "description" ==> p.1 == JStr(g.description)) && (p.0 == "tags" ==> p.1 == TagList(tags))
      {
        assert p in t || p in d || p in k;
      }
    }
  }

  /** The names of up to three fields, each present when asked for: no name twice. */
  lemma ThreeNames(title: bool, description: bool, tags: bool)
    ensures var names := (if title then ["title"] else []) + (if description then ["description"] else [])
                         + (if tags then ["tags"] else []);
      ("title" in names <==> title) && ("description" in names <==> description) && ("tags" in names <==> tags)
      && forall i, j :: 0 <= i < j < |names| ==> names[i] != names[j]
  {
  }

  /** The current snippet with the update's fields written over it, one after the other. */
  function Merged(snippet: map<string, Json>, data: UpdateData): map<string, Json>
  {
    if data == [] then snippet
    else Merged(snippet, data[..|data| - 1])[data[|data| - 1].0 := data[|data| - 1].1]
  }

  /** `updated_snippet`: a copy of the snippet overwritten key by key. */
  method MergeSnippet(snippet: map<string, Json>, data: UpdateData) returns (updated: map<string, Json>)
    ensures updated == Merged(snippet, data)
  {
    updated := snippet;
    for i := 0 to |data|
      invariant updated == Merged(snippet, data[..i])
    {
      assert data[..i + 1][..i] == data[..i];
      updated := updated[data[i].0 := data[i].1];
    }
    assert data[..|data|] == data;
  }

  /** The merge adds exactly the update's keys to the snippet's, and keeps the others' values. */
  lemma {:induction false} MergedKeys(snippet: map<string, Json>, data: UpdateData)
    ensures forall k :: k in Merged(snippet, data) <==> k in snippet || k in FieldNames(data)
    ensures forall k :: k in snippet && k !in FieldNames(data) ==> Merged(snippet, data)[k] == snippet[k]
  {
    if data != [] {
      var init := data[..|data| - 1];
      MergedKeys(snippet, init);
      assert FieldNames(data) == FieldNames(init) + [data[|data| - 1].0];
    }
  }

  /** When no key repeats, each of the update's keys takes the update's value. */
  lemma {:induction false} MergedValues(snippet: map<string, Json>, data: UpdateData)
    requires forall i, j :: 0 <= i < j < |data| ==> data[i].0 != data[j].0
    ensures forall i :: 0 <= i < |data| ==> data[i].0 in Merged(snippet, data)
    ensures forall i :: 0 <= i < |data| ==> Merged(snippet, data)[data[i].0] == data[i].1
  {
    if data != [] {
      var n := |data| - 1;
      var init, last := data[..n], data[n];
      forall i, j | 0 <= i < j < |init| ensures init[i].0 != init[j].0 {
        assert init[i] == data[i] && init[j] == data[j];
      }
      MergedValues(snippet, init);
      var m := Merged(snippet, init);
      assert Merged(snippet, data) == m[last.0 := last.1];
      forall i | 0 <= i < |data|
        ensures data[i].0 in Merged(snippet, data) && Merged(snippet, data)[data[i].0] == data[i].1
      {
        if i < n {
          assert init[i] == data[i];
          assert data[i].0 != last.0;
        }
      }
    }
  }

  /** The answer of `update_video_metadata_with_generated_content`. */
  datatype UpdateOutcome =
    | Unchanged(failure: Generated)
    | Preview(videoId: string, preview: UpdateData)
    | Applied(videoId: string, updatedFields: seq<string>, newValues: UpdateData, sent: map<string, Json>)
    | UpdateFailed(error: string, message: string)

  function UpdateError(e: string): UpdateOutcome
  {
    UpdateFailed(e, "更新エラー: " + e)
  }

  /** The tag count `generate_optimized_tags` asks for by default. */
  const DefaultMaxTags := 30

  /** The tags the update asks for: generated only when a tag update is asked for. */
  function UpdateTagsOf(updateTags: bool, tagAnswer: Result<string, string>): seq<string>
  {
    if updateTags then OptimizedTags(tagAnswer, DefaultMaxTags) else []
  }

  /** Sending the merged snippet, once the update data and the current snippet are known. */
  function Send(videoId: string, data: UpdateData, current: Result<Option<map<string, Json>>, string>,
                update: (string, map<string, Json>) -> Option<string>): UpdateOutcome
  {
    match current
    case Err(e) => UpdateError(e)
    case Ok(None) => UpdateFailed("Video not found", "動画が見つかりません: " + videoId)
    case Ok(Some(snippet)) =>
      var merged := Merged(snippet, data);
      match update(videoId, merged)
      case Some(e) => UpdateError(e)
      case None => Applied(videoId, FieldNames(data), data, merged)
  }

  /**
   * The whole update: a failed generation is returned as it is; what the generation raised,
   * and a failed second fetch of the transcript when tags are asked for, are caught as the
   * update's failure record; a dry run previews the update data; otherwise the current
   * snippet is fetched, merged with the data and sent back.
   */
  function UpdateWithGenerated(videoId: string, updateTitle: bool, updateDescription: bool, updateTags: bool,
                               titleIndex: int, dryRun: bool, generated: Generated,
                               tagTranscript: Result<seq<Gemini.Entry>, string>, tagAnswer: Result<string, string>,
                               fetch: string -> Result<Option<map<string, Json>>, string>,
                               update: (string, map<string, Json>) -> Option<string>): UpdateOutcome
  {
    if generated.Raised? then UpdateError(generated.error)
    else if generated.GenerationFailed? then Unchanged(generated)
    else if updateTags && tagTranscript.Err? then UpdateError(Gemini.TranscriptErrorPrefix + tagTranscript.error)
    else
      match UpdateDataOf(generated, updateTitle, updateDescription, updateTags, titleIndex, UpdateTagsOf(updateTags, tagAnswer))
      case Err(e) => UpdateError(e)
      case Ok(data) => if dryRun then Preview(videoId, data) else Send(videoId, data, fetch(videoId), update)
  }

  /** `update_video_metadata_with_generated_content` step by step. */
  method UpdateVideoMetadataWithGeneratedContent(
    videoId: string, updateTitle: bool, updateDescription: bool, updateTags: bool, titleIndex: int, dryRun: bool,
    generated: Generated, tagTranscript: Result<seq<Gemini.Entry>, string>, tagAnswer: Result<string, string>,
    fetch: string -> Result<Option<map<string, Json>>, string>,
    update: (string, map<string, Json>) -> Option<string>)
    returns (r: UpdateOutcome)
    ensures r == UpdateWithGenerated(videoId, updateTitle, updateDescription, updateTags, titleIndex, dryRun,
                                     generated, tagTranscript, tagAnswer, fetch, update)
  {
    if generated.Raised? {
      return UpdateError(generated.error);
    }
    if generated.GenerationFailed? {
      return Unchanged(generated);
    }
    if updateTags && tagTranscript.Err? {
      return UpdateError(Gemini.TranscriptErrorPrefix + tagTranscript.error);
    }
    var tags := if updateTags then OptimizedTags(tagAnswer, DefaultMaxTags) else [];
    var data := BuildUpdateData(generated, updateTitle, updateDescription, updateTags, titleIndex, tags);
    if data.Err? {
      return UpdateError(data.error);
    }
    if dryRun {
      return Preview(videoId, data.value);
    }
    var current := fetch(videoId);
    if current.Err? {
      return UpdateError(current.error);
    }
    if current.value.None? {
      return UpdateFailed("Video not found", "動画が見つかりません: " + videoId);
    }
    var merged := MergeSnippet(current.value.value, data.value);
    var answer := update(videoId, merged);
    if answer.Some? {
      return UpdateError(answer.value);
    }
    r := Applied(videoId, FieldNames(data.value), data.value, merged);
  }

  /** A failed content generation is the answer, unchanged. */
  lemma FailedGenerationReturned(videoId: string, updateTitle: bool, updateDescription: bool, updateTags: bool,
                                 titleIndex: int, dryRun: bool, generated: Generated,
                                 tagTranscript: Result<seq<Gemini.Entry>, string>, tagAnswer: Result<string, string>,
                                 fetch: string -> Result<Option<map<string, Json>>, string>,
                                 update: (string, map<string, Json>) -> Option<string>)
    requires generated.GenerationFailed?
    ensures UpdateWithGenerated(videoId, updateTitle, updateDescription, updateTags, titleIndex, dryRun,
                                generated, tagTranscript, tagAnswer, fetch, update) == Unchanged(generated)
  {
  }

  /**
   * The transcript failures the update's `try` catches: a generation that raised and, when
   * tags are asked for, a second transcript fetch that fails both become the update's failure
   * record; an update that succeeds had its content generated and, for tags, its transcript.
   */
  lemma TranscriptFailuresCaught(videoId: string, updateTitle: bool, updateDescription: bool, updateTags: bool,
                                 titleIndex: int, dryRun: bool, generated: Generated,
                                 tagTranscript: Result<seq<Gemini.Entry>, string>, tagAnswer: Result<string, string>,
                                 fetch: string -> Result<Option<map<string, Json>>, string>,
                                 update: (string, map<string, Json>) -> Option<string>)
    ensures var r := UpdateWithGenerated(videoId, updateTitle, updateDescription, updateTags, titleIndex, dryRun,
                                         generated, tagTranscript, tagAnswer, fetch, update);
      (generated.Raised? ==> r == UpdateError(generated.error))
      && (generated.Generated? && updateTags && tagTranscript.Err? ==>
            r == UpdateError(Gemini.TranscriptErrorPrefix + tagTranscript.error))
      && (r.Preview? || r.Applied? ==> generated.Generated? && (updateTags ==> tagTranscript.Ok?))
  {
  }

  /** A dry run never consults the API: its answer is the same whatever `fetch` and `update` do. */
  lemma DryRunNeedsNoApi(videoId: string, updateTitle: bool, updateDescription: bool, updateTags: bool,
                         titleIndex: int, generated: Generated,
                         tagTranscript: Result<seq<Gemini.Entry>, string>, tagAnswer: Result<string, string>,
                         fetch: string -> Result<Option<map<string, Json>>, string>,
                         update: (string, map<string, Json>) -> Option<string>,
                         fetch': string -> Result<Option<map<string, Json>>, string>,
                         update': (string, map<string, Json>) -> Option<string>)
    ensures UpdateWithGenerated(videoId, updateTitle, updateDescription, updateTags, titleIndex, true,
                                generated, tagTranscript, tagAnswer, fetch, update)
         == UpdateWithGenerated(videoId, updateTitle, updateDescription, updateTags, titleIndex, true,
                                generated, tagTranscript, tagAnswer, fetch', update')
  {
  }

  /**
   * A dry run previews exactly the values a real run sends: when the real run succeeds, its
   * new values are the preview, its fields are the preview's names and the snippet it sends
   * is the fetched one merged with them.
   */
  lemma DryRunPreviewsUpdate(videoId: string, updateTitle: bool, updateDescription: bool, updateTags: bool,
                             titleIndex: int, generated: Generated,
                             tagTranscript: Result<seq<Gemini.Entry>, string>, tagAnswer: Result<string, string>,
                             fetch: string -> Result<Option<map<string, Json>>, string>,
                             update: (string, map<string, Json>) -> Option<string>)
    ensures var run := UpdateWithGenerated(videoId, updateTitle, updateDescription, updateTags, titleIndex, false,
                                           generated, tagTranscript, tagAnswer, fetch, update);
      var dry := UpdateWithGenerated(videoId, updateTitle, updateDescription, updateTags, titleIndex, true,
                                     generated, tagTranscript, tagAnswer, fetch, update);
      run.Applied? ==> dry.Preview? && run.newValues == dry.preview && run.updatedFields == FieldNames(dry.preview)
                       && fetch(videoId).Ok? && fetch(videoId).value.Some?
                       && run.sent == Merged(fetch(videoId).value.value, dry.preview)
  {
    AppliedShape(videoId, updateTitle, updateDescription, updateTags, titleIndex,
                 generated, tagTranscript, tagAnswer, fetch, update);
  }

  /** An applied update is the update data sent on top of the fetched snippet. */
  lemma AppliedShape(videoId: string, updateTitle: bool, updateDescription: bool, updateTags: bool,
                     titleIndex: int, generated: Generated,
                     tagTranscript: Result<seq<Gemini.Entry>, string>, tagAnswer: Result<string, string>,
                     fetch: string -> Result<Option<map<string, Json>>, string>,
                     update: (string, map<string, Json>) -> Option<string>)
    ensures var r := UpdateWithGenerated(videoId, updateTitle, updateDescription, updateTags, titleIndex, false,
                                         generated, tagTranscript, tagAnswer, fetch, update);
      r.Applied? ==>
        generated.Generated? && (updateTags ==> tagTranscript.Ok?)
        && var data := UpdateDataOf(generated, updateTitle, updateDescription, updateTags, titleIndex,
                                    UpdateTagsOf(updateTags, tagAnswer));
        data.Ok? && fetch(videoId).Ok? && fetch(videoId).value.Some?
        && r == Applied(videoId, FieldNames(data.value), data.value, Merged(fetch(videoId).value.value, data.value))
  {
    if generated.Generated? && !(updateTags && tagTranscript.Err?) {
      var data := UpdateDataOf(generated, updateTitle, updateDescription, updateTags, titleIndex,
                               UpdateTagsOf(updateTags, tagAnswer));
      if data.Ok? {
        var r := Send(videoId, data.value, fetch(videoId), update);
        assert r.Applied? ==> fetch(videoId).Ok? && fetch(videoId).value.Some?;
      }
    }
  }

  /** A preview shows the update data, and an applied update reports the data's field names. */
  lemma OutcomeShowsData(videoId: string, updateTitle: bool, updateDescription: bool, updateTags: bool,
                         titleIndex: int, dryRun: bool, generated: Generated,
                         tagTranscript: Result<seq<Gemini.Entry>, string>, tagAnswer: Result<string, string>,
                         fetch: string -> Result<Option<map<string, Json>>, string>,
                         update: (string, map<string, Json>) -> Option<string>)
    requires generated.Generated?
    ensures var r := UpdateWithGenerated(videoId, updateTitle, updateDescription, updateTags, titleIndex, dryRun,
                                         generated, tagTranscript, tagAnswer, fetch, update);
      var data := UpdateDataOf(generated, updateTitle, updateDescription, updateTags, titleIndex,
                               UpdateTagsOf(updateTags, tagAnswer));
      (r.Preview? ==> data.Ok? && r.preview == data.value)
      && (r.Applied? ==> data.Ok? && r.updatedFields == FieldNames(data.value))
  {
    var data := UpdateDataOf(generated, updateTitle, updateDescription, updateTags, titleIndex,
                             UpdateTagsOf(updateTags, tagAnswer));
    if data.Ok? && !dryRun {
      var r := Send(videoId, data.value, fetch(videoId), update);
      assert r.Applied? ==> r.updatedFields == FieldNames(data.value);
    }
  }

  /**
   * An applied update changed exactly the fields it reports: each reported field holds its
   * new value in the snippet sent, and the rest of the fetched snippet is kept.
   */
  lemma AppliedReportsFields(videoId: string, updateTitle: bool, updateDescription: bool, updateTags: bool,
                             titleIndex: int, generated: Generated,
                             tagTranscript: Result<seq<Gemini.Entry>, string>, tagAnswer: Result<string, string>,
                             fetch: string -> Result<Option<map<string, Json>>, string>,
                             update: (string, map<string, Json>) -> Option<string>)
    ensures var r := UpdateWithGenerated(videoId, updateTitle, updateDescription, updateTags, titleIndex, false,
                                         generated, tagTranscript, tagAnswer, fetch, update);
      r.Applied? ==>
        fetch(videoId).Ok? && fetch(videoId).value.Some? &&
        var snippet := fetch(videoId).value.value;
        (forall k :: k in r.sent <==> k in snippet || k in r.updatedFields)
        && (forall i :: 0 <= i < |r.newValues| ==> r.sent[r.updatedFields[i]] == r.newValues[i].1)
        && (forall k :: k in snippet && k !in r.updatedFields ==> r.sent[k] == snippet[k])
  {
    var r := UpdateWithGenerated(videoId, updateTitle, updateDescription, updateTags, titleIndex, false,
                                 generated, tagTranscript, tagAnswer, fetch, update);
    AppliedShape(videoId, updateTitle, updateDescription, updateTags, titleIndex,
                 generated, tagTranscript, tagAnswer, fetch, update);
    if r.Applied? {
      var tags := UpdateTagsOf(updateTags, tagAnswer);
      UpdateDataFields(generated, updateTitle, updateDescription, updateTags, titleIndex, tags);
      var data := UpdateDataOf(generated, updateTitle, updateDescription, updateTags, titleIndex, tags).value;
      MergedKeys(fetch(videoId).value.value, data);
      MergedValues(fetch(videoId).value.value, data);
    }
  }

  // ---------------------------------------------------------------------------
  // generate_social_media_posts
  // ---------------------------------------------------------------------------

  const Platforms := ["twitter", "facebook", "linkedin"]

  /** The hashtags LinkedIn drops. */
  predicate Entertainment(tag: string) { StartsWith(tag, "#エンタメ") }

  predicate NotEntertainment(tag: string) { !Entertainment(tag) }

  /** LinkedIn's hashtags: the first five that do not start with '#エンタメ'. */
  function LinkedinTags(tags: seq<string>): seq<string>
  {
    Take(Filter(tags, NotEntertainment), 5)
  }

  /**
   * LinkedIn's hashtags come from the generated ones, none starts with '#エンタメ', and there
   * are five of them unless fewer remain after the filter.
   */
  lemma LinkedinTagsFiltered(tags: seq<string>)
    ensures var r := LinkedinTags(tags);
      (forall t :: t in r ==> t in tags && !StartsWith(t, "#エンタメ"))
      && |r| == (if |Filter(tags, NotEntertainment)| < 5 then |Filter(tags, NotEntertainment)| else 5)
      && (forall t :: t in tags && !StartsWith(t, "#エンタメ") && |Filter(tags, NotEntertainment)| <= 5 ==> t in r)
  {
    var f := Filter(tags, NotEntertainment);
    forall t | t in tags && !StartsWith(t, "#エンタメ") && |f| <= 5 ensures t in LinkedinTags(tags) {
      FilterMultiset(tags, NotEntertainment, t);
      assert multiset(f)[t] == multiset(tags)[t];
      assert t in multiset(f);
    }
  }

  /** The Twitter post reads the short description, then the hashtags; a missing one raises `KeyError`. */
  function TwitterPost(c: ContentData, videoId: string): (r: Result<string, string>)
    ensures r.Ok? <==> c.shortDescription.Some? && c.hashtags.Some?
    ensures c.shortDescription.None? ==> r == Err(Missing("short_description"))
    ensures c.shortDescription.Some? && c.hashtags.None? ==> r == Err(Missing("hashtags"))
  {
    if c.shortDescription.None? then Err(Missing("short_description"))
    else if c.hashtags.None? then Err(Missing("hashtags"))
    else Ok("\n" + c.shortDescription.value + "\n\n▶️ youtu.be/" + videoId + "\n\n"
            + Join(Take(c.hashtags.value, 5), " ") + "\n")
  }

  /**
   * The Facebook post reads the key points first, then the first title suggestion (an empty
   * list raises `IndexError`), the detailed summary and the hashtags.
   */
  function FacebookPost(c: ContentData, videoId: string): (r: Result<string, string>)
    ensures r.Ok? <==> c.keyPoints.Some? && c.titleSuggestions.Some? && c.titleSuggestions.value != []
                       && c.detailedSummary.Some? && c.hashtags.Some?
    ensures c.keyPoints.None? ==> r == Err(Missing("key_points"))
    ensures c.keyPoints.Some? && c.titleSuggestions == Some([]) ==> r == Err(IndexErrorText)
  {
    if c.keyPoints.None? then Err(Missing("key_points"))
    else if c.titleSuggestions.None? then Err(Missing("title_suggestions"))
    else if c.titleSuggestions.value == [] then Err(IndexErrorText)
    else if c.detailedSummary.None? then Err(Missing("detailed_summary"))
    else if c.hashtags.None? then Err(Missing("hashtags"))
    else Ok("\n" + c.titleSuggestions.value[0] + "\n\n" + c.detailedSummary.value + "\n\n"
            + Join(Bulleted("✅ ", Take(c.keyPoints.value, 3)), "\n")
            + "\n\n🎥 動画を見る: https://youtu.be/" + videoId + "\n\n"
            + Join(Take(c.hashtags.value, 8), " ") + "\n")
  }

  /**
   * The LinkedIn post reads the first title suggestion (an empty list raises `IndexError`),
   * the detailed summary, the learning outcomes, the audience and the hashtags.
   */
  function LinkedinPost(c: ContentData, videoId: string): (r: Result<string, string>)
    ensures r.Ok? <==> c.titleSuggestions.Some? && c.titleSuggestions.value != [] && c.detailedSummary.Some?
                       && c.learningOutcomes.Some? && c.targetAudience.Some? && c.hashtags.Some?
    ensures c.titleSuggestions.None? ==> r == Err(Missing("title_suggestions"))
    ensures c.titleSuggestions == Some([]) ==> r == Err(IndexErrorText)
  {
    if c.titleSuggestions.None? then Err(Missing("title_suggestions"))
    else if c.titleSuggestions.value == [] then Err(IndexErrorText)
    else if c.detailedSummary.None? then Err(Missing("detailed_summary"))
    else if c.learningOutcomes.None? then Err(Missing("learning_outcomes"))
    else if c.targetAudience.None? then Err(Missing("target_audience"))
    else if c.hashtags.None? then Err(Missing("hashtags"))
    else Ok("\n【" + c.titleSuggestions.value[0] + "】\n\n" + c.detailedSummary.value
            + "\n\nこの動画では以下について解説しています：\n"
            + Join(Bulleted("• ", Take(c.learningOutcomes.value, 3)), "\n")
            + "\n\n対象: " + c.targetAudience.value
            + "\n\n▶️ 動画リンク: https://youtu.be/" + videoId + "\n\n"
            + Join(LinkedinTags(c.hashtags.value), " ") + "\n")
  }

  /** The post of one platform when it is requested, nothing when it is not. */
  function PostFor(platform: string, platforms: seq<string>, post: Result<string, string>,
                   posts: map<string, string>): Result<map<string, string>, string>
  {
    if platform !in platforms then Ok(posts)
    else match post
      case Err(e) => Err(e)
      case Ok(text) => Ok(posts[platform := text])
  }

  /**
   * `generate_social_media_posts`: what the generation raised is raised again (`Err`);
   * nothing when the generation failed; otherwise a post for
   * each requested platform among twitter, facebook and linkedin, built in that order. The
   * posts are not wrapped in a `try`, so a missing key raises out of the call (`Err`).
   */
  function SocialMediaPosts(videoId: string, platforms: seq<string>, generated: Generated)
    : (r: Result<map<string, string>, string>)
    ensures generated.Raised? ==> r == Err(generated.error)
    ensures generated.GenerationFailed? ==> r == Ok(map[])
    ensures r.Ok? ==> r.value.Keys <= set p | p in platforms
  {
    if generated.Raised? then Err(generated.error)
    else if generated.GenerationFailed? then Ok(map[])
    else
      var c := generated.content;
      match PostFor("twitter", platforms, TwitterPost(c, videoId), map[])
      case Err(e) => Err(e)
      case Ok(p1) =>
        match PostFor("facebook", platforms, FacebookPost(c, videoId), p1)
        case Err(e) => Err(e)
        case Ok(p2) => PostFor("linkedin", platforms, LinkedinPost(c, videoId), p2)
  }

  /**
   * The posts are keyed by exactly the requested platforms the generator knows, and each
   * holds that platform's post; a failed generation gives no posts at all, and what the
   * generation raised is raised by the posts too.
   */
  lemma PostsForRequestedPlatforms(videoId: string, platforms: seq<string>, generated: Generated)
    ensures var r := SocialMediaPosts(videoId, platforms, generated);
      (generated.GenerationFailed? ==> r == Ok(map[]))
      && (generated.Raised? ==> r == Err(generated.error))
      && (r.Ok? && generated.Generated? ==>
            r.value.Keys == (set p | p in Platforms && p in platforms)
            && ("twitter" in r.value ==> TwitterPost(generated.content, videoId) == Ok(r.value["twitter"]))
            && ("facebook" in r.value ==> FacebookPost(generated.content, videoId) == Ok(r.value["facebook"]))
            && ("linkedin" in r.value ==> LinkedinPost(generated.content, videoId) == Ok(r.value["linkedin"])))
  {
  }

  /**
   * With a short description present (as it is whenever the description was generated with
   * its summary), a Twitter-only request raises exactly when the hashtags are absent.
   */
  lemma TwitterOnlyNeedsHashtags(videoId: string, generated: Generated)
    requires generated.Generated? && generated.content.shortDescription.Some?
    ensures SocialMediaPosts(videoId, ["twitter"], generated).Ok? <==> generated.content.hashtags.Some?
  {
  }
}
