/**
 * The channel manager's own logic (`YouTubeChannelManager`): the buzz-title generator, the
 * snippet merge of a metadata update, the batch update loop with its summary, and the chapter
 * block written into a description. Its duration renderer is `Duration.ParseDurationText`.
 *
 * The YouTube Data API is a pair of oracles: `fetch(id)` answers with the snippet of the
 * video (`None` when the answer has no items, `Err` with the HTTP error's text when the call
 * fails) and `update(id, snippet)` answers with the error text of a failed update, or `None`.
 * `datetime.now().year` is the parameter `year`.
 */
module YoutubeChannelTools {
  import opened Seqs
  import opened Text
  import opened JsonValue

  // ---------------------------------------------------------------------------
  // re.sub(r'【.*?】', '', title)
  // ---------------------------------------------------------------------------

  /**
   * Where the lazy `.*?】` after an opening 【 ends: the first 】 of `t` with no line break
   * before it (`.` does not match a line break), or `None`.
   */
  function CloseAt(t: string): (r: Option<nat>)
    ensures r.Some? ==> r.value < |t| && t[r.value] == '】'
    ensures r.Some? ==> forall j :: 0 <= j < r.value ==> t[j] != '】' && t[j] != '\n'
  {
    if t == [] || t[0] == '\n' then None
    else if t[0] == '】' then Some(0)
    else match CloseAt(t[1..])
      case None => None
      case Some(i) => Some(i + 1)
  }

  /** `re.sub(r'【.*?】', '', s)`: every bracketed run on one line is removed, scanning left to right. */
  function DropBracketed(s: string): (r: string)
    ensures |r| <= |s|
    decreases |s|
  {
    if s == [] then []
    else if s[0] == '【' && CloseAt(s[1..]).Some? then DropBracketed(s[1..][CloseAt(s[1..]).value + 1..])
    else [s[0]] + DropBracketed(s[1..])
  }

  /** No 【 is followed by a 】 on its own line: nothing is left for the pattern to match. */
  predicate NoBracketed(s: string)
  {
    forall i :: 0 <= i < |s| && s[i] == '【' ==> CloseAt(s[i + 1..]).None?
  }

  /** A line without 】 stays without it: removals only happen after a 】. */
  lemma {:induction false} OpenLineKept(t: string)
    requires CloseAt(t).None?
    ensures CloseAt(DropBracketed(t)).None?
  {
    if t != [] && t[0] != '\n' {
      OpenLineKept(t[1..]);
      assert DropBracketed(t) == [t[0]] + DropBracketed(t[1..]);
      assert ([t[0]] + DropBracketed(t[1..]))[1..] == DropBracketed(t[1..]);
    }
  }

  /** After the substitution the pattern matches nowhere: applying it again changes nothing. */
  lemma {:induction false} DropBracketedLeavesNone(s: string)
    ensures NoBracketed(DropBracketed(s))
    decreases |s|
  {
    if s == [] {
    } else if s[0] == '【' && CloseAt(s[1..]).Some? {
      DropBracketedLeavesNone(s[1..][CloseAt(s[1..]).value + 1..]);
    } else {
      var rest := DropBracketed(s[1..]);
      DropBracketedLeavesNone(s[1..]);
      var r := [s[0]] + rest;
      forall i | 0 <= i < |r| && r[i] == '【' ensures CloseAt(r[i + 1..]).None? {
        if i == 0 {
          assert r[1..] == rest;
          OpenLineKept(s[1..]);
        } else {
          assert r[i + 1..] == rest[i..];
          assert rest[i - 1] == '【';
        }
      }
    }
  }

  /** A title without 【 is left as it is. */
  lemma {:induction false} DropBracketedNoOpen(s: string)
    requires '【' !in s
    ensures DropBracketed(s) == s
  {
    if s != [] {
      assert '【' !in s[1..];
      DropBracketedNoOpen(s[1..]);
    }
  }

  /** The match is lazy: "【a】b【c】" keeps the "b" between the two bracketed runs. */
  lemma DropBracketedIsLazy()
    ensures DropBracketed("【a】b【c】") == "b"
  {
    var s := "【a】b【c】";
    assert CloseAt(s[1..]) == Some(1);
    var t := s[3..];
    assert t == "b【c】";
    assert CloseAt(t[2..]) == Some(1);
    assert DropBracketed(t[2..][2..]) == "";
    assert DropBracketed(t[1..]) == "";
    assert DropBracketed(t) == "b";
  }

  // ---------------------------------------------------------------------------
  // generate_buzz_title
  // ---------------------------------------------------------------------------

  /** The longest title YouTube accepts. */
  const MaxTitle := 100

  /**
   * The `k`-th template applied to the base title, when its condition holds: `views` is the
   * statistics' view count, `None` when no statistics were given.
   */
  function Candidate(k: nat, base: string, year: int, views: Option<int>): Option<string>
  {
    if k == 0 then
      if |base| < 30 then Some("【必見】" + base + "【" + IntToString(year) + "年最新】") else None
    else if k == 1 then
      if Contains(base, "方法") || Contains(base, "やり方") then Some(base + "した結果...衝撃の事実が判明") else None
    else if k == 2 then
      if !Contains(base, "コツ") && |base| < 20 then Some("知らないと損する" + base + "のコツ") else None
    else if k == 3 then
      if Contains(base, "初心者") || Contains(base, "入門") then Some(base + "｜プロが教える3つのポイント") else None
    else if k == 4 then
      if views.Some? && views.value > 10000 && views.value / 10000 > 0
      then Some("【" + IntToString(views.value / 10000) + "万回再生】" + base + "がヤバすぎる件")
      else None
    else None
  }

  /** The suggestions of the first `n` templates, those at most `MaxTitle` long, in template order. */
  function Suggested(base: string, year: int, views: Option<int>, n: nat): (r: seq<string>)
    ensures |r| <= n
  {
    if n == 0 then []
    else
      var c := Candidate(n - 1, base, year, views);
      Suggested(base, year, views, n - 1) + (if c.Some? && |c.value| <= MaxTitle then [c.value] else [])
  }

  /** `t` is the whole output of one of the first `n` templates, and at most `MaxTitle` long. */
  predicate Templated(t: string, base: string, year: int, views: Option<int>, n: nat)
  {
    |t| <= MaxTitle && exists k :: 0 <= k < n && Candidate(k, base, year, views) == Some(t)
  }

  /** Every suggestion is a template's whole output, at most `MaxTitle` long. */
  lemma {:induction false} SuggestedFromTemplates(base: string, year: int, views: Option<int>, n: nat)
    ensures forall s :: s in Suggested(base, year, views, n) ==> Templated(s, base, year, views, n)
  {
    if n > 0 {
      var prev := Suggested(base, year, views, n - 1);
      var c := Candidate(n - 1, base, year, views);
      SuggestedFromTemplates(base, year, views, n - 1);
      forall s | s in Suggested(base, year, views, n)
        ensures Templated(s, base, year, views, n)
      {
        if s in prev {
          assert Templated(s, base, year, views, n - 1);
        } else {
          assert c.Some? && s == c.value;
          assert Candidate(n - 1, base, year, views) == Some(s);
        }
      }
    }
  }

  /** The title the templates are applied to: the current one without its bracketed runs, stripped. */
  function BaseTitle(current: string): string
  {
    Strip(DropBracketed(current))
  }

  /** `generate_buzz_title`: the current title, then the suggestions that fit, at most five in all. */
  function BuzzTitles(current: string, year: int, views: Option<int>): seq<string>
  {
    Take([current] + Suggested(BaseTitle(current), year, views, 5), 5)
  }

  /** One turn of the pattern loop: the `k`-th suggestion is appended when its condition holds and it fits. */
  method TryPattern(base: string, year: int, views: Option<int>, k: nat, suggestions: seq<string>) returns (next: seq<string>)
    requires suggestions == Suggested(base, year, views, k)
    ensures next == Suggested(base, year, views, k + 1)
  {
    var c := Candidate(k, base, year, views);
    next := suggestions;
    if c.Some? && |c.value| <= MaxTitle {
      next := next + [c.value];
    }
  }

  /** `generate_buzz_title` as it runs: the loop over the five patterns, then the current title in front. */
  method GenerateBuzzTitle(current: string, year: int, views: Option<int>) returns (r: seq<string>)
    ensures r == BuzzTitles(current, year, views)
  {
    var base := BaseTitle(current);
    var suggestions: seq<string> := [];
    for k := 0 to 5
      invariant suggestions == Suggested(base, year, views, k)
    {
      suggestions := TryPattern(base, year, views, k, suggestions);
    }
    suggestions := [current] + suggestions;
    r := Take(suggestions, 5);
  }

  /**
   * The current title always comes first, unchanged, and at most five titles come back; every
   * other one is a template's output of at most 100 characters, kept whole.
   */
  lemma BuzzTitlesShape(current: string, year: int, views: Option<int>)
    ensures var r := BuzzTitles(current, year, views);
      1 <= |r| <= 5 && r[0] == current
      && forall i :: 1 <= i < |r| ==> Templated(r[i], BaseTitle(current), year, views, 5)
  {
    var base := BaseTitle(current);
    var s := Suggested(base, year, views, 5);
    var r := Take([current] + s, 5);
    SuggestedFromTemplates(base, year, views, 5);
    forall i | 1 <= i < |r| ensures Templated(r[i], base, year, views, 5) {
      assert r[i] == s[i - 1];
      assert s[i - 1] in s;
    }
  }

  /** The view-count template fires exactly above 10000 views and names the count in units of 10000. */
  lemma ViewsTemplate(base: string, year: int, views: Option<int>)
    ensures Candidate(4, base, year, views).Some? <==> views.Some? && views.value > 10000
    ensures views.Some? && views.value > 10000 ==>
      Candidate(4, base, year, views).value == "【" + IntToString(views.value / 10000) + "万回再生】" + base + "がヤバすぎる件"
  {
  }

  /** A template's output over 100 characters is dropped, not cut. */
  lemma LongSuggestionDropped(base: string, year: int, views: Option<int>, k: nat)
    requires k < 5 && Candidate(k, base, year, views).Some? && |Candidate(k, base, year, views).value| > MaxTitle
    ensures Candidate(k, base, year, views).value !in Suggested(base, year, views, 5)
  {
    SuggestedFromTemplates(base, year, views, 5);
  }

  // ---------------------------------------------------------------------------
  // update_video_metadata
  // ---------------------------------------------------------------------------

  /** The snippet after an update: each argument that is not `None` overwrites its key. */
  function MergeSnippet(snippet: map<string, Json>, title: Option<string>, description: Option<string>,
                        tags: Option<seq<string>>, categoryId: Option<string>): (r: map<string, Json>)
    ensures r.Keys == snippet.Keys
      + (if title.Some? then {"title"} else {}) + (if description.Some? then {"description"} else {})
      + (if tags.Some? then {"tags"} else {}) + (if categoryId.Some? then {"categoryId"} else {})
    ensures forall k :: k in snippet && k !in {"title", "description", "tags", "categoryId"} ==> r[k] == snippet[k]
    ensures title.Some? ==> r["title"] == JStr(title.value)
    ensures title.None? && "title" in snippet ==> r["title"] == snippet["title"]
    ensures description.Some? ==> r["description"] == JStr(description.value)
    ensures description.None? && "description" in snippet ==> r["description"] == snippet["description"]
    ensures tags.Some? ==> r["tags"] == TagList(tags.value)
    ensures tags.None? && "tags" in snippet ==> r["tags"] == snippet["tags"]
    ensures categoryId.Some? ==> r["categoryId"] == JStr(categoryId.value)
    ensures categoryId.None? && "categoryId" in snippet ==> r["categoryId"] == snippet["categoryId"]
  {
    var a := if title.Some? then snippet["title" := JStr(title.value)] else snippet;
    var b := if description.Some? then a["description" := JStr(description.value)] else a;
    var c := if tags.Some? then b["tags" := TagList(tags.value)] else b;
    if categoryId.Some? then c["categoryId" := JStr(categoryId.value)] else c
  }

  function TagList(tags: seq<string>): Json
  {
    JArr(seq(|tags|, i requires 0 <= i < |tags| => JStr(tags[i])))
  }

  /** The `updated_fields` of the answer: each argument as truthiness reports it. */
  datatype UpdatedFields = UpdatedFields(title: string, description: string, tags: Json, categoryId: string)

  function Reported(title: Option<string>, description: Option<string>, tags: Option<seq<string>>,
                    categoryId: Option<string>): UpdatedFields
  {
    UpdatedFields(
      if Given(title) then title.value else "unchanged",
      if Given(description) then "updated" else "unchanged",
      if tags.Some? && tags.value != [] then JInt(|tags.value|) else JStr("unchanged"),
      if Given(categoryId) then categoryId.value else "unchanged")
  }

  /** A successful update: the snippet sent and the answer. */
  datatype Updated = Updated(videoId: string, sent: map<string, Json>, fields: UpdatedFields)

  const UpdateFailed := "動画メタデータ更新エラー: "

  function NotFound(videoId: string): string { "動画が見つかりません: " + videoId }

  /**
   * `update_video_metadata`: the current snippet is fetched, merged with the arguments that
   * are not `None` and sent back. A video that is not found raises its own message; an HTTP
   * error of either call raises with the update prefix.
   */
  function UpdateVideoMetadata(videoId: string, title: Option<string>, description: Option<string>,
                               tags: Option<seq<string>>, categoryId: Option<string>,
                               fetch: string -> Result<Option<map<string, Json>>, string>,
                               update: (string, map<string, Json>) -> Option<string>): Result<Updated, string>
  {
    match fetch(videoId)
    case Err(e) => Err(UpdateFailed + e)
    case Ok(None) => Err(NotFound(videoId))
    case Ok(Some(snippet)) =>
      var merged := MergeSnippet(snippet, title, description, tags, categoryId);
      match update(videoId, merged)
      case Some(e) => Err(UpdateFailed + e)
      case None => Ok(Updated(videoId, merged, Reported(title, description, tags, categoryId)))
  }

  /**
   * An empty title is written to the snippet, yet reported as 'unchanged'; a `None` title
   * leaves the snippet's title alone and is reported the same way.
   */
  lemma EmptyTitleWrittenButUnreported(videoId: string, description: Option<string>, tags: Option<seq<string>>,
                                       categoryId: Option<string>,
                                       fetch: string -> Result<Option<map<string, Json>>, string>,
                                       update: (string, map<string, Json>) -> Option<string>)
    ensures var r := UpdateVideoMetadata(videoId, Some(""), description, tags, categoryId, fetch, update);
      r.Ok? ==> r.value.sent["title"] == JStr("") && r.value.fields.title == "unchanged"
    ensures var r := UpdateVideoMetadata(videoId, None, description, tags, categoryId, fetch, update);
      r.Ok? ==> (r.value.fields.title == "unchanged"
                 && ("title" in fetch(videoId).value.value ==> r.value.sent["title"] == fetch(videoId).value.value["title"]))
  {
  }

  /** A video the API does not find raises "動画が見つかりません" and nothing is sent. */
  lemma MissingVideoRaises(videoId: string, title: Option<string>, description: Option<string>,
                           tags: Option<seq<string>>, categoryId: Option<string>,
                           fetch: string -> Result<Option<map<string, Json>>, string>,
                           update: (string, map<string, Json>) -> Option<string>)
    requires fetch(videoId) == Ok(None)
    ensures UpdateVideoMetadata(videoId, title, description, tags, categoryId, fetch, update) == Err(NotFound(videoId))
  {
  }

  // ---------------------------------------------------------------------------
  // batch_update_videos and its tool summary
  // ---------------------------------------------------------------------------

  /** One entry of the update list: a dict with an optional "video_id" and the update's arguments. */
  datatype UpdateArgs = UpdateArgs(
    videoId: Option<string>, title: Option<string>, description: Option<string>,
    tags: Option<seq<string>>, categoryId: Option<string>)

  /** One entry of the results: the update's answer, or a failure record. */
  datatype BatchItem = Succeeded(updated: Updated) | FailedItem(videoId: string, error: string)

  /**
   * One update of the batch. A missing "video_id" raises `KeyError('video_id')`; either way
   * the failure record's id is 'unknown', because the id was popped before the call.
   */
  function BatchItemOf(u: UpdateArgs, fetch: string -> Result<Option<map<string, Json>>, string>,
                       update: (string, map<string, Json>) -> Option<string>): BatchItem
  {
    if u.videoId.None? then FailedItem("unknown", "'video_id'")
    else match UpdateVideoMetadata(u.videoId.value, u.title, u.description, u.tags, u.categoryId, fetch, update)
      case Ok(done) => Succeeded(done)
      case Err(e) => FailedItem("unknown", e)
  }

  function BatchResults(updates: seq<UpdateArgs>, fetch: string -> Result<Option<map<string, Json>>, string>,
                        update: (string, map<string, Json>) -> Option<string>): (r: seq<BatchItem>)
    ensures |r| == |updates|
  {
    if updates == [] then []
    else BatchResults(updates[..|updates| - 1], fetch, update) + [BatchItemOf(updates[|updates| - 1], fetch, update)]
  }

  /** `batch_update_videos` as it runs: one entry per update, a failure caught and recorded. */
  method BatchUpdateVideos(updates: seq<UpdateArgs>, fetch: string -> Result<Option<map<string, Json>>, string>,
                           update: (string, map<string, Json>) -> Option<string>)
    returns (results: seq<BatchItem>)
    ensures results == BatchResults(updates, fetch, update)
  {
    results := [];
    for i := 0 to |updates|
      invariant results == BatchResults(updates[..i], fetch, update)
    {
      assert updates[..i + 1][..i] == updates[..i];
      var u := updates[i];
      var item: BatchItem;
      if u.videoId.None? {
        item := FailedItem("unknown", "'video_id'");
      } else {
        var answer := UpdateVideoMetadata(u.videoId.value, u.title, u.description, u.tags, u.categoryId, fetch, update);
        if answer.Ok? {
          item := Succeeded(answer.value);
        } else {
          item := FailedItem("unknown", answer.error);
        }
      }
      results := results + [item];
    }
    assert updates[..|updates|] == updates;
  }

  /**
   * Failures are isolated: entry `i` of the results depends on update `i` alone, and every
   * failure record carries the id 'unknown'.
   */
  lemma {:induction false} BatchIsolated(updates: seq<UpdateArgs>, fetch: string -> Result<Option<map<string, Json>>, string>,
                                         update: (string, map<string, Json>) -> Option<string>)
    ensures forall i :: 0 <= i < |updates| ==> BatchResults(updates, fetch, update)[i] == BatchItemOf(updates[i], fetch, update)
    ensures forall x :: x in BatchResults(updates, fetch, update) && x.FailedItem? ==> x.videoId == "unknown"
  {
    if updates != [] {
      BatchIsolated(updates[..|updates| - 1], fetch, update);
    }
  }

  function SuccessWeight(x: BatchItem): int { if x.Succeeded? then 1 else 0 }

  datatype BatchSummary = BatchSummary(total: nat, success: int, failed: int)

  /** The summary of `batch_update_videos_tool`. */
  function Summarize(results: seq<BatchItem>): BatchSummary
  {
    var success := Sum(results, SuccessWeight);
    BatchSummary(|results|, success, |results| - success)
  }

  lemma {:induction false} SuccessesBounded(results: seq<BatchItem>)
    ensures 0 <= Sum(results, SuccessWeight) <= |results|
  {
    if results != [] {
      SuccessesBounded(results[..|results| - 1]);
    }
  }

  /**
   * The summary adds up: success plus failed is the number of updates, both are counts, and
   * success counts exactly the updates that went through.
   */
  lemma SummaryAddsUp(updates: seq<UpdateArgs>, fetch: string -> Result<Option<map<string, Json>>, string>,
                      update: (string, map<string, Json>) -> Option<string>)
    ensures var s := Summarize(BatchResults(updates, fetch, update));
      s.total == |updates| && s.success + s.failed == s.total && 0 <= s.success && 0 <= s.failed
      && s.success == Sum(BatchResults(updates, fetch, update), SuccessWeight)
  {
    SuccessesBounded(BatchResults(updates, fetch, update));
  }

  // ---------------------------------------------------------------------------
  // add_video_chapters
  // ---------------------------------------------------------------------------

  /** A chapter of the list: its "time" and "title" strings. */
  datatype Chapter = Chapter(time: string, title: string)

  const HeaderTitle := "📍 目次"

  /** The block's first lines: two line breaks, then the header line. */
  const ChapterHeader := "\n" + "\n" + HeaderTitle + "\n"

  /** One line of the block, without its line break: `f"{time} {title}"`. */
  function ChapterLine(c: Chapter): string
  {
    c.time + " " + c.title
  }

  /** The chapter lines, each followed by a line break. */
  function ChapterBody(chapters: seq<Chapter>): string
  {
    if chapters == [] then "" else ChapterLine(chapters[0]) + "\n" + ChapterBody(chapters[1..])
  }

  function ChapterLines(chapters: seq<Chapter>): (r: seq<string>)
    ensures |r| == |chapters|
    ensures forall i :: 0 <= i < |chapters| ==> r[i] == ChapterLine(chapters[i])
  {
    if chapters == [] then [] else [ChapterLine(chapters[0])] + ChapterLines(chapters[1..])
  }

  lemma {:induction false} ChapterBodySnoc(chapters: seq<Chapter>, c: Chapter)
    ensures ChapterBody(chapters + [c]) == ChapterBody(chapters) + (ChapterLine(c) + "\n")
  {
    if chapters == [] {
      assert ChapterBody([c]) == ChapterLine(c) + "\n" + ChapterBody([c][1..]);
    } else {
      assert (chapters + [c])[1..] == chapters[1..] + [c];
      ChapterBodySnoc(chapters[1..], c);
    }
  }

  /** One turn of the chapter loop: the chapter's line and a line break are appended. */
  method AddChapterLine(text: string, ghost done: seq<Chapter>, c: Chapter) returns (text': string)
    requires text == ChapterHeader + ChapterBody(done)
    ensures text' == ChapterHeader + ChapterBody(done + [c])
  {
    var line := ChapterLine(c) + "\n";
    ChapterBodySnoc(done, c);
    assert (ChapterHeader + ChapterBody(done)) + line == ChapterHeader + (ChapterBody(done) + line);
    text' := text + line;
  }

  /** The chapter text built by the loop of `add_video_chapters`. */
  method ChapterText(chapters: seq<Chapter>) returns (text: string)
    ensures text == ChapterHeader + ChapterBody(chapters)
  {
    text := ChapterHeader;
    for i := 0 to |chapters|
      invariant text == ChapterHeader + ChapterBody(chapters[..i])
    {
      text := AddChapterLine(text, chapters[..i], chapters[i]);
      assert chapters[..i + 1] == chapters[..i] + [chapters[i]];
    }
    assert chapters[..|chapters|] == chapters;
  }

  /** Splitting at the first line break of a line-break-free part. */
  lemma {:induction false} SplitAtLine(a: string, b: string)
    requires '\n' !in a
    ensures Split(a + "\n" + b, '\n') == [a] + Split(b, '\n')
  {
    if a == [] {
      assert a + "\n" + b == "\n" + b;
      assert ("\n" + b)[1..] == b;
    } else {
      assert (a + "\n" + b)[1..] == a[1..] + "\n" + b;
      assert '\n' !in a[1..];
      SplitAtLine(a[1..], b);
      assert a == [a[0]] + a[1..];
    }
  }

  lemma {:induction false} ChapterBodyLines(chapters: seq<Chapter>)
    requires forall c :: c in chapters ==> '\n' !in ChapterLine(c)
    ensures Split(ChapterBody(chapters), '\n') == ChapterLines(chapters) + [""]
  {
    if chapters != [] {
      ChapterBodyLines(chapters[1..]);
      SplitAtLine(ChapterLine(chapters[0]), ChapterBody(chapters[1..]));
    }
  }

  /**
   * Read back line by line, the chapter block is two empty lines, the "📍 目次" header and one
   * "time title" line per chapter in order (when no time or title holds a line break).
   */
  lemma ChapterBlockLines(chapters: seq<Chapter>)
    requires forall c :: c in chapters ==> '\n' !in ChapterLine(c)
    ensures Split(ChapterHeader + ChapterBody(chapters), '\n') == ["", "", HeaderTitle] + ChapterLines(chapters) + [""]
  {
    ChapterBodyLines(chapters);
    assert '\n' !in HeaderTitle;
    HeaderLines(HeaderTitle, ChapterBody(chapters));
    assert ["", "", HeaderTitle] + (ChapterLines(chapters) + [""]) == ["", "", HeaderTitle] + ChapterLines(chapters) + [""];
  }

  /** Two line breaks and a title line read back as two empty lines and the title. */
  lemma HeaderLines(title: string, body: string)
    requires '\n' !in title
    ensures Split("\n" + "\n" + title + "\n" + body, '\n') == ["", "", title] + Split(body, '\n')
  {
    var t3 := title + "\n" + body;
    var t2 := "" + "\n" + t3;
    var t1 := "" + "\n" + t2;
    assert "\n" + "\n" + title + "\n" + body == t1;
    SplitAtLine(title, body);
    SplitAtLine("", t3);
    SplitAtLine("", t2);
  }

  /** The answer of `add_video_chapters`: the update's answer with the number of chapters added. */
  datatype ChaptersAdded = ChaptersAdded(updated: Updated, chaptersAdded: nat)

  const ChapterFailed := "チャプター追加エラー: "

  /**
   * `add_video_chapters`: the new description is the chapter block, a line break and the old
   * description with its previous block removed and stripped; it is written with
   * `update_video_metadata`. Every error is raised again with the chapter prefix. The
   * removal of a previous block (a regular expression) is the parameter `dropOldBlock`.
   */
  function AddVideoChapters(videoId: string, chapters: seq<Chapter>,
                            dropOldBlock: string -> string,
                            fetch: string -> Result<Option<map<string, Json>>, string>,
                            update: (string, map<string, Json>) -> Option<string>): Result<ChaptersAdded, string>
  {
    match fetch(videoId)
    case Err(e) => Err(ChapterFailed + e)
    case Ok(None) => Err(ChapterFailed + NotFound(videoId))
    case Ok(Some(snippet)) =>
      if "description" !in snippet || !snippet["description"].JStr? then Err(ChapterFailed + "'description'")
      else
        var text := ChapterHeader + ChapterBody(chapters);
        var description := text + "\n" + Strip(dropOldBlock(snippet["description"].s));
        match UpdateVideoMetadata(videoId, None, Some(description), None, None, fetch, update)
        case Err(e) => Err(ChapterFailed + e)
        case Ok(done) => Ok(ChaptersAdded(done, |chapters|))
  }

  /**
   * On success the description written starts with the chapter block and ends with the
   * stripped remainder, nothing else in the snippet changes, and `chapters_added` is the
   * number of chapters.
   */
  lemma ChaptersWritten(videoId: string, chapters: seq<Chapter>, dropOldBlock: string -> string,
                        fetch: string -> Result<Option<map<string, Json>>, string>,
                        update: (string, map<string, Json>) -> Option<string>)
    ensures var r := AddVideoChapters(videoId, chapters, dropOldBlock, fetch, update);
      r.Ok? ==>
        var snippet := fetch(videoId).value.value;
        var d := r.value.updated.sent["description"];
        r.value.chaptersAdded == |chapters|
        && d.JStr? && StartsWith(d.s, ChapterHeader + ChapterBody(chapters) + "\n")
        && d.s[|ChapterHeader + ChapterBody(chapters) + "\n"|..] == Strip(dropOldBlock(snippet["description"].s))
        && r.value.updated.sent.Keys == snippet.Keys
        && forall k :: k in snippet && k != "description" ==> r.value.updated.sent[k] == snippet[k]
  {
  }
}
