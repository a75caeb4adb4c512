/**
 * The deterministic part of `GeminiTranscriptAnalyzer`: cutting a timestamped
 * transcript into analysis windows, HH:MM:SS timestamps, the granularity rule
 * for the window length, the fallback record that replaces a failed analysis,
 * chapter assembly, and the table of contents written for a video description.
 *
 * The transcript service and the language model are oracles: `fetch` gives the
 * transcript of a video id (or the message of the exception it raised) and
 * `analyze` gives, per segment, either the JSON value the model's answer parsed
 * to or `Failed` when the call or the parse raised.
 */
module GeminiAnalyzer {
  import opened Seqs
  import opened Text
  import opened JsonValue

  // ---------------------------------------------------------------------------
  // Transcript entries and segments
  // ---------------------------------------------------------------------------

  /** One transcript entry: `{'start': ..., 'text': ..., 'duration': ...}`; the duration may be missing. */
  datatype Entry = Entry(start: real, text: string, duration: Option<real>)

  /** The `current_segment` dict: `start_time`, `end_time`, `text`, `transcript_entries`. */
  datatype Segment = Segment(startTime: real, endTime: real, text: string, entries: seq<Entry>)

  /** `entry.get('duration', 0)`. */
  function DurationOr0(e: Entry): real
  {
    if e.duration.Some? then e.duration.value else 0.0
  }

  /** The accumulator before the first entry. */
  const Initial: Segment := Segment(0.0, 0.0, "", [])

  /** An entry opens a new segment when it starts at least one window after the current one. */
  predicate Opens(cur: Segment, e: Entry, d: int)
  {
    e.start - cur.startTime >= d as real
  }

  /** A segment seeded by the entry that opened it. */
  function Seed(e: Entry): Segment
  {
    Segment(e.start, e.start, e.text, [e])
  }

  /** An entry appended to the current segment. */
  function Extend(cur: Segment, e: Entry): Segment
  {
    cur.(text := cur.text + " " + e.text, entries := cur.entries + [e], endTime := e.start + DurationOr0(e))
  }

  /** What is emitted when `e` opens a new segment: the current one, ended at `e`, if it has text. */
  function Close(cur: Segment, e: Entry): seq<Segment>
  {
    if cur.text != "" then [cur.(endTime := e.start)] else []
  }

  /** What is emitted after the last entry. */
  function Flush(cur: Segment): seq<Segment>
  {
    if cur.text != "" then [cur] else []
  }

  /** The segments emitted for the remaining entries `t` from the accumulator `cur`. */
  function Go(t: seq<Entry>, d: int, cur: Segment): seq<Segment>
    decreases |t|
  {
    if t == [] then Flush(cur)
    else if Opens(cur, t[0], d) then Close(cur, t[0]) + Go(t[1..], d, Seed(t[0]))
    else Go(t[1..], d, Extend(cur, t[0]))
  }

  /** The result of `create_segments_for_analysis(transcript, d)`. */
  function Segments(t: seq<Entry>, d: int): seq<Segment>
  {
    Go(t, d, Initial)
  }

  /** `create_segments_for_analysis`: one pass over the transcript with a mutable accumulator. */
  method CreateSegmentsForAnalysis(transcript: seq<Entry>, segmentDuration: int) returns (segments: seq<Segment>)
    ensures segments == Segments(transcript, segmentDuration)
  {
    segments := [];
    var current := Segment(0.0, 0.0, "", []);
    for i := 0 to |transcript|
      invariant segments + Go(transcript[i..], segmentDuration, current) == Segments(transcript, segmentDuration)
    {
      var entry := transcript[i];
      assert transcript[i..][1..] == transcript[i + 1..];
      if entry.start - current.startTime >= segmentDuration as real {
        if current.text != "" {
          current := current.(endTime := entry.start);
          segments := segments + [current];
        }
        current := Segment(entry.start, entry.start, entry.text, [entry]);
      } else {
        var d := if entry.duration.Some? then entry.duration.value else 0.0;
        current := current.(text := current.text + " " + entry.text,
                            entries := current.entries + [entry],
                            endTime := entry.start + d);
      }
    }
    if current.text != "" {
      segments := segments + [current];
    }
  }

  // ---------------------------------------------------------------------------
  // Properties of the segmentation
  // ---------------------------------------------------------------------------

  predicate AllTextsNonEmpty(t: seq<Entry>)
  {
    forall i :: 0 <= i < |t| ==> t[i].text != ""
  }

  /** Consecutive segments meet: each one ends where the next one starts. */
  predicate Contiguous(segs: seq<Segment>)
  {
    forall i :: 0 <= i < |segs| - 1 ==> segs[i].endTime == segs[i + 1].startTime
  }

  /** The transcript entries of the segments, concatenated in order. */
  function Flatten(segs: seq<Segment>): seq<Entry>
  {
    if segs == [] then [] else segs[0].entries + Flatten(segs[1..])
  }

  /** Every entry after a segment's first starts less than one window after the segment. */
  predicate InWindow(s: Segment, d: int)
  {
    forall j :: 0 < j < |s.entries| ==> s.entries[j].start - s.startTime < d as real
  }

  /**
   * How a segment's end is set when nothing closes it: a segment holding only its seed
   * ends where it starts (the seed's duration is not counted); otherwise it ends at the
   * end of its last entry.
   */
  predicate EndRule(s: Segment)
  {
    if |s.entries| == 1 && s.text == s.entries[0].text then s.endTime == s.startTime
    else s.entries != [] ==> s.endTime == s.entries[|s.entries| - 1].start + DurationOr0(s.entries[|s.entries| - 1])
  }

  lemma {:induction false} GoTextsNonEmpty(t: seq<Entry>, d: int, cur: Segment)
    ensures forall s :: s in Go(t, d, cur) ==> s.text != ""
  {
    if t != [] {
      if Opens(cur, t[0], d) {
        GoTextsNonEmpty(t[1..], d, Seed(t[0]));
      } else {
        GoTextsNonEmpty(t[1..], d, Extend(cur, t[0]));
      }
    }
  }

  /** Only segments with text are emitted; in particular the empty initial accumulator never is. */
  lemma SegmentTextsNonEmpty(t: seq<Entry>, d: int)
    ensures forall s :: s in Segments(t, d) ==> s.text != ""
  {
    GoTextsNonEmpty(t, d, Initial);
  }

  /** An accumulator with text is emitted first, with its start unchanged. */
  lemma {:induction false} GoFirst(t: seq<Entry>, d: int, cur: Segment)
    requires cur.text != ""
    ensures Go(t, d, cur) != [] && Go(t, d, cur)[0].startTime == cur.startTime
  {
    if t != [] && !Opens(cur, t[0], d) {
      GoFirst(t[1..], d, Extend(cur, t[0]));
    }
  }

  lemma ContiguousCons(c: Segment, g: seq<Segment>)
    requires Contiguous(g)
    requires g != [] ==> c.endTime == g[0].startTime
    ensures Contiguous([c] + g)
  {
    var r := [c] + g;
    forall i | 0 <= i < |r| - 1 ensures r[i].endTime == r[i + 1].startTime {
      if i > 0 { assert r[i] == g[i - 1] && r[i + 1] == g[i]; }
    }
  }

  lemma {:induction false} GoContiguous(t: seq<Entry>, d: int, cur: Segment)
    requires AllTextsNonEmpty(t)
    ensures Contiguous(Go(t, d, cur))
  {
    if t != [] {
      var e := t[0];
      assert AllTextsNonEmpty(t[1..]) by {
        forall i | 0 <= i < |t[1..]| ensures t[1..][i].text != "" { assert t[1..][i] == t[i + 1]; }
      }
      if Opens(cur, e, d) {
        var g := Go(t[1..], d, Seed(e));
        GoContiguous(t[1..], d, Seed(e));
        GoFirst(t[1..], d, Seed(e));
        if cur.text != "" {
          ContiguousCons(cur.(endTime := e.start), g);
        } else {
          assert Close(cur, e) + g == g;
        }
      } else {
        GoContiguous(t[1..], d, Extend(cur, e));
      }
    }
  }

  /**
   * When every entry has text, closing a segment at the next segment's first start leaves
   * no gaps: consecutive segments are contiguous.
   */
  lemma SegmentsContiguous(t: seq<Entry>, d: int)
    requires AllTextsNonEmpty(t)
    ensures Contiguous(Segments(t, d))
  {
    GoContiguous(t, d, Initial);
  }

  lemma FlattenCons(c: Segment, g: seq<Segment>)
    ensures Flatten([c] + g) == c.entries + Flatten(g)
  {
    assert ([c] + g)[1..] == g;
  }

  lemma {:induction false} GoEntries(t: seq<Entry>, d: int, cur: Segment)
    requires AllTextsNonEmpty(t)
    requires cur.text != "" || cur.entries == []
    ensures Flatten(Go(t, d, cur)) == cur.entries + t
  {
    if t == [] {
      if cur.text != "" { FlattenCons(cur, []); }
    } else {
      var e := t[0];
      assert t == [e] + t[1..];
      assert AllTextsNonEmpty(t[1..]) by {
        forall i | 0 <= i < |t[1..]| ensures t[1..][i].text != "" { assert t[1..][i] == t[i + 1]; }
      }
      if Opens(cur, e, d) {
        GoEntries(t[1..], d, Seed(e));
        if cur.text != "" {
          FlattenCons(cur.(endTime := e.start), Go(t[1..], d, Seed(e)));
        } else {
          assert Go(t, d, cur) == Go(t[1..], d, Seed(e));
          assert cur.entries + t == [e] + t[1..];
        }
      } else {
        GoEntries(t[1..], d, Extend(cur, e));
      }
    }
  }

  /**
   * When every entry has text, the segments hold every transcript entry exactly once and
   * in transcript order.
   */
  lemma SegmentsKeepEntries(t: seq<Entry>, d: int)
    requires AllTextsNonEmpty(t)
    ensures Flatten(Segments(t, d)) == t
  {
    GoEntries(t, d, Initial);
  }

  lemma {:induction false} GoInWindow(t: seq<Entry>, d: int, cur: Segment)
    requires InWindow(cur, d)
    ensures forall s :: s in Go(t, d, cur) ==> InWindow(s, d)
  {
    if t != [] {
      var e := t[0];
      if Opens(cur, e, d) {
        GoInWindow(t[1..], d, Seed(e));
      } else {
        var n := Extend(cur, e);
        assert InWindow(n, d) by {
          forall j | 0 < j < |n.entries| ensures n.entries[j].start - n.startTime < d as real {
            if j < |cur.entries| { assert n.entries[j] == cur.entries[j]; }
          }
        }
        GoInWindow(t[1..], d, n);
      }
    }
  }

  /** No segment holds an entry, other than its first, that starts one window or more after it. */
  lemma SegmentsInWindow(t: seq<Entry>, d: int)
    ensures forall s :: s in Segments(t, d) ==> InWindow(s, d)
  {
    GoInWindow(t, d, Initial);
  }

  lemma {:induction false} GoLastEnd(t: seq<Entry>, d: int, cur: Segment)
    requires AllTextsNonEmpty(t)
    requires EndRule(cur)
    ensures var g := Go(t, d, cur); g != [] ==> EndRule(g[|g| - 1])
  {
    if t != [] {
      var e := t[0];
      assert AllTextsNonEmpty(t[1..]) by {
        forall i | 0 <= i < |t[1..]| ensures t[1..][i].text != "" { assert t[1..][i] == t[i + 1]; }
      }
      if Opens(cur, e, d) {
        GoLastEnd(t[1..], d, Seed(e));
        GoFirst(t[1..], d, Seed(e));
        var g := Go(t[1..], d, Seed(e));
        assert (Close(cur, e) + g)[|Close(cur, e) + g| - 1] == g[|g| - 1];
      } else {
        var n := Extend(cur, e);
        assert EndRule(n) by {
          if |n.entries| == 1 {
            assert |n.text| == |cur.text| + 1 + |e.text|;
          }
        }
        GoLastEnd(t[1..], d, n);
      }
    }
  }

  /**
   * The last segment, which nothing closes, ends where it starts when it holds only its
   * seed, and at the end of its last entry otherwise.
   */
  lemma LastSegmentEnd(t: seq<Entry>, d: int)
    requires AllTextsNonEmpty(t)
    ensures var g := Segments(t, d); g != [] ==> EndRule(g[|g| - 1])
  {
    GoLastEnd(t, d, Initial);
  }

  /**
   * Three entries, a 300-second window: the first two join the initial accumulator, whose
   * text therefore starts with a space, and the third opens a segment that holds only its seed.
   */
  lemma ThreeEntryExample()
    ensures var e0, e1, e2 := Entry(0.0, "a", Some(10.0)), Entry(100.0, "b", Some(10.0)), Entry(310.0, "c", Some(5.0));
      Segments([e0, e1, e2], 300)
      == [Segment(0.0, 310.0, " a b", [e0, e1]), Segment(310.0, 310.0, "c", [e2])]
  {
    var e0, e1, e2 := Entry(0.0, "a", Some(10.0)), Entry(100.0, "b", Some(10.0)), Entry(310.0, "c", Some(5.0));
    var t := [e0, e1, e2];
    var s1 := Extend(Initial, e0);
    var s2 := Extend(s1, e1);
    assert s2 == Segment(0.0, 110.0, " a b", [e0, e1]);
    assert t[1..] == [e1, e2] && t[1..][1..] == [e2] && t[1..][1..][1..] == [];
    assert Go([], 300, Seed(e2)) == [Seed(e2)];
    assert Go([e2], 300, s2) == [s2.(endTime := 310.0)] + [Seed(e2)];
    assert Go([e1, e2], 300, s1) == Go([e2], 300, s2);
  }

  /**
   * An entry with empty text that is closed at once is dropped with its segment: the
   * segments around it no longer meet and the entry is lost.
   */
  lemma EmptySeedLeavesGap()
    ensures var e0, e1, e2 := Entry(0.0, "a", None), Entry(300.0, "", None), Entry(600.0, "b", None);
      var g := Segments([e0, e1, e2], 300);
      g == [Segment(0.0, 300.0, " a", [e0]), Segment(600.0, 600.0, "b", [e2])]
      && !Contiguous(g) && Flatten(g) != [e0, e1, e2]
  {
    var e0, e1, e2 := Entry(0.0, "a", None), Entry(300.0, "", None), Entry(600.0, "b", None);
    var t := [e0, e1, e2];
    var s1 := Extend(Initial, e0);
    assert s1 == Segment(0.0, 0.0, " a", [e0]);
    assert t[1..] == [e1, e2] && t[1..][1..] == [e2] && t[1..][1..][1..] == [];
    assert Go([], 300, Seed(e2)) == [Seed(e2)];
    assert Go([e2], 300, Seed(e1)) == [Seed(e2)];
    assert Go([e1, e2], 300, s1) == [s1.(endTime := 300.0)] + [Seed(e2)];
    assert Go(t, 300, Initial) == Go([e1, e2], 300, s1);
    var g := [Segment(0.0, 300.0, " a", [e0]), Segment(600.0, 600.0, "b", [e2])];
    assert Segments(t, 300) == g;
    assert g[0].endTime != g[1].startTime;
    FlattenCons(g[0], g[1..]);
    FlattenCons(g[1], []);
    assert Flatten(g) == [e0, e2];
    assert |Flatten(g)| != |t|;
  }

  // ---------------------------------------------------------------------------
  // Timestamps
  // ---------------------------------------------------------------------------

  /**
   * `format_timestamp`: `int(seconds)` taken modulo one day (what `timedelta(...).seconds`
   * keeps), written as zero-padded HH:MM:SS that reads back as that number of seconds.
   */
  function FormatTimestamp(seconds: real): (r: string)
    ensures |r| == 8 && r[2] == ':' && r[5] == ':'
    ensures AllDigits(r[..2]) && AllDigits(r[3..5]) && AllDigits(r[6..])
    ensures DigitsValue(r[..2]) < 24 && DigitsValue(r[3..5]) < 60 && DigitsValue(r[6..]) < 60
    ensures DigitsValue(r[..2]) * 3600 + DigitsValue(r[3..5]) * 60 + DigitsValue(r[6..])
         == Trunc(seconds) % 86400
  {
    var total := Trunc(seconds) % 86400;
    var hours, remainder := total / 3600, total % 3600;
    var h, m, s := Pad2(hours), Pad2(remainder / 60), Pad2(remainder % 60);
    var r := h + ":" + m + ":" + s;
    assert r[..2] == h && r[3..5] == m && r[6..] == s;
    r
  }

  // ---------------------------------------------------------------------------
  // Granularity
  // ---------------------------------------------------------------------------

  datatype ChapterError =
    | ValueError(message: string)
    | FetchError(message: string)
    | TypeError
    | KeyError(key: string)
    | IndexError

  const CustomPromptRequired: string := "custom_promptが必要です（granularity='custom'の場合）"

  predicate MissingPrompt(customPrompt: Option<string>)
  {
    customPrompt == None || customPrompt.value == ""
  }

  /** The window length that `generate_semantic_chapters` uses for a granularity. */
  function ResolveSegmentDuration(granularity: string, d: int, customPrompt: Option<string>): (r: Result<int, ChapterError>)
    ensures r.Err? <==> granularity == "custom" && MissingPrompt(customPrompt)
    ensures r.Err? ==> r.error == ValueError(CustomPromptRequired)
  {
    if granularity == "fine" then Ok(if d < 180 then d else 180)
    else if granularity == "coarse" then Ok(if d > 600 then d else 600)
    else if granularity == "custom" && MissingPrompt(customPrompt) then Err(ValueError(CustomPromptRequired))
    else Ok(d)
  }

  /**
   * "fine" caps the window at three minutes, "coarse" raises it to at least ten, anything
   * else keeps it; resolving an already resolved window changes nothing.
   */
  lemma GranularityRule(granularity: string, d: int, customPrompt: Option<string>)
    requires ResolveSegmentDuration(granularity, d, customPrompt).Ok?
    ensures var v := ResolveSegmentDuration(granularity, d, customPrompt).value;
      && (granularity == "fine" ==> v <= 180 && v <= d && (d <= 180 ==> v == d))
      && (granularity == "coarse" ==> v >= 600 && v >= d && (d >= 600 ==> v == d))
      && (granularity != "fine" && granularity != "coarse" ==> v == d)
      && ResolveSegmentDuration(granularity, v, customPrompt) == Ok(v)
  {
  }

  // ---------------------------------------------------------------------------
  // Analysis results and chapters
  // ---------------------------------------------------------------------------

  /** What the model call produced for one segment. */
  datatype AnalysisOutcome = Parsed(value: Json) | Failed

  /** The fallback summary: the text itself up to 50 characters, else its first 50 and "...". */
  function FallbackSummary(text: string): (r: string)
    ensures Take(text, 50) <= r
    ensures |r| <= 53
    ensures |text| <= 50 ==> r == text
    ensures |text| > 50 ==> r[50..] == "..."
  {
    if |text| > 50 then text[..50] + "..." else text
  }

  const FallbackKeys: set<string> :=
    {"topic_category", "title", "summary", "key_points", "technical_level", "contains_demo", "contains_code"}

  function FallbackField(text: string, k: string): Json
  {
    if k == "topic_category" then JStr("その他")
    else if k == "title" then JStr("セクション")
    else if k == "summary" then JStr(FallbackSummary(text))
    else if k == "key_points" then JArr([])
    else if k == "technical_level" then JStr("general")
    else JBool(false)
  }

  /** The record `analyze_segment_with_gemini` returns when the call or the parse fails. */
  function Fallback(text: string): (r: map<string, Json>)
    ensures r.Keys == FallbackKeys
  {
    map k | k in FallbackKeys :: FallbackField(text, k)
  }

  lemma KeySetsFacts()
    ensures "title" !in ComputedKeys && "topic_category" !in ComputedKeys
    ensures "index" !in FallbackKeys && "title" in FallbackKeys && "topic_category" in FallbackKeys
    ensures "technical_level" in FallbackKeys && "summary" in FallbackKeys
  {
  }

  function AnalysisOf(seg: Segment, outcome: AnalysisOutcome): Json
  {
    match outcome
    case Parsed(v) => v
    case Failed => JObj(Fallback(seg.text))
  }

  const ComputedKeys: set<string> :=
    {"index", "start_seconds", "end_seconds", "start_timestamp", "end_timestamp", "duration_seconds", "original_text"}

  /** The value `generate_semantic_chapters` computes under key `k` for the `i`-th segment (0-based). */
  function ComputedField(i: nat, seg: Segment, k: string): Json
  {
    if k == "index" then JInt(i + 1)
    else if k == "start_seconds" then JReal(seg.startTime)
    else if k == "end_seconds" then JReal(seg.endTime)
    else if k == "start_timestamp" then JStr(FormatTimestamp(seg.startTime))
    else if k == "end_timestamp" then JStr(FormatTimestamp(seg.endTime))
    else if k == "duration_seconds" then JReal(seg.endTime - seg.startTime)
    else JStr(seg.text)
  }

  function Computed(i: nat, seg: Segment): (r: map<string, Json>)
    ensures r.Keys == ComputedKeys
  {
    map k | k in ComputedKeys :: ComputedField(i, seg, k)
  }

  /**
   * The chapter for the `i`-th segment: the computed fields overlaid with the analysis
   * (`{..., **analysis}`), which must be a dict; reading its `title` and `topic_category`
   * raises unless the analysis provides them, since the computed fields have neither.
   */
  function ChapterAt(i: nat, seg: Segment, outcome: AnalysisOutcome): Result<map<string, Json>, ChapterError>
  {
    var analysis := AnalysisOf(seg, outcome);
    if !analysis.JObj? then Err(TypeError)
    else if "title" !in analysis.fields then Err(KeyError("title"))
    else if "topic_category" !in analysis.fields then Err(KeyError("topic_category"))
    else Ok(Computed(i, seg) + analysis.fields)
  }

  /**
   * A chapter exists exactly when the merged dict has a title and a category, that is when
   * the analysis is a dict that provides both.
   */
  lemma ChapterExists(i: nat, seg: Segment, outcome: AnalysisOutcome)
    ensures var a := AnalysisOf(seg, outcome);
      ChapterAt(i, seg, outcome).Ok?
      <==> a.JObj? && "title" in Computed(i, seg) + a.fields && "topic_category" in Computed(i, seg) + a.fields
  {
    KeySetsFacts();
  }

  /**
   * The chapter's keys are the computed ones and the analysis's; the analysis wins on a clash,
   * and a computed field the analysis leaves alone keeps its value (index `i + 1`, duration end
   * minus start, start timestamp).
   */
  lemma ChapterFields(i: nat, seg: Segment, outcome: AnalysisOutcome)
    requires ChapterAt(i, seg, outcome).Ok?
    ensures var a, c := AnalysisOf(seg, outcome).fields, ChapterAt(i, seg, outcome).value;
      && c.Keys == ComputedKeys + a.Keys
      && (forall k :: k in a ==> c[k] == a[k])
      && ("index" !in a ==> c["index"] == JInt(i + 1))
      && ("duration_seconds" !in a ==> c["duration_seconds"] == JReal(seg.endTime - seg.startTime))
      && ("start_timestamp" !in a ==> c["start_timestamp"] == JStr(FormatTimestamp(seg.startTime)))
  {
    var a := AnalysisOf(seg, outcome).fields;
    var comp := Computed(i, seg);
    assert ChapterAt(i, seg, outcome).value == comp + a;
    ComputedAt(i, seg);
  }

  /** The computed fields the chapter keeps unless the analysis overrides them. */
  lemma ComputedAt(i: nat, seg: Segment)
    ensures var comp := Computed(i, seg);
      && "index" in comp && comp["index"] == JInt(i + 1)
      && "duration_seconds" in comp && comp["duration_seconds"] == JReal(seg.endTime - seg.startTime)
      && "start_timestamp" in comp && comp["start_timestamp"] == JStr(FormatTimestamp(seg.startTime))
  {
    assert "index" in ComputedKeys && "duration_seconds" in ComputedKeys && "start_timestamp" in ComputedKeys;
    assert ComputedField(i, seg, "index") == JInt(i + 1);
    assert ComputedField(i, seg, "duration_seconds") == JReal(seg.endTime - seg.startTime);
    assert ComputedField(i, seg, "start_timestamp") == JStr(FormatTimestamp(seg.startTime));
  }

  /** A failed analysis still yields a chapter, filed under "その他" with the title "セクション". */
  lemma FallbackChapter(i: nat, seg: Segment)
    ensures ChapterAt(i, seg, Failed).Ok?
    ensures var c := ChapterAt(i, seg, Failed).value;
      c["topic_category"] == JStr("その他") && c["title"] == JStr("セクション")
      && c["index"] == JInt(i + 1) && c["technical_level"] == JStr("general")
      && c["summary"] == JStr(FallbackSummary(seg.text))
  {
    KeySetsFacts();
  }

  function ChapterOf(segs: seq<Segment>, analyze: Segment -> AnalysisOutcome, i: nat): Result<map<string, Json>, ChapterError>
    requires i < |segs|
  {
    ChapterAt(i, segs[i], analyze(segs[i]))
  }

  /**
   * The chapter loop of `generate_semantic_chapters`: chapter `i` comes from segment `i`, and
   * the first segment whose chapter cannot be built stops the loop with its error.
   */
  method AssembleChapters(segs: seq<Segment>, analyze: Segment -> AnalysisOutcome)
    returns (r: Result<seq<map<string, Json>>, ChapterError>)
    ensures r.Ok? <==> forall i :: 0 <= i < |segs| ==> ChapterOf(segs, analyze, i).Ok?
    ensures r.Ok? ==> |r.value| == |segs|
    ensures r.Ok? ==> forall i :: 0 <= i < |segs| ==> r.value[i] == ChapterOf(segs, analyze, i).value
    ensures r.Err? ==> exists i :: 0 <= i < |segs| && ChapterOf(segs, analyze, i) == Err(r.error)
                                  && (forall j :: 0 <= j < i ==> ChapterOf(segs, analyze, j).Ok?)
  {
    var chapter := (i: nat) requires i < |segs| => ChapterOf(segs, analyze, i);
    r := CollectAll(|segs|, chapter);
    assert forall i :: 0 <= i < |segs| ==> chapter(i) == ChapterOf(segs, analyze, i);
  }

  /** The dict `generate_semantic_chapters` returns. */
  datatype ChapterReport = ChapterReport(
    videoId: string,
    totalDurationSeconds: real,
    totalDurationFormatted: string,
    totalChapters: nat,
    analysisMethod: string,
    segmentDuration: int,
    granularity: string,
    customPromptUsed: bool,
    chapters: seq<map<string, Json>>)

  const TranscriptErrorPrefix: string := "トランスクリプト取得エラー: "

  /**
   * `generate_semantic_chapters`. The granularity check comes before the transcript is
   * fetched; a fetch failure is re-raised with its prefix; the chapters are those of the
   * segments of the resolved window; the total duration is read from the last entry, so an
   * empty transcript or a last entry without a duration fails after the chapter loop.
   */
  method GenerateSemanticChapters(
    videoId: string, segmentDuration: int, granularity: string, customPrompt: Option<string>,
    fetch: string -> Result<seq<Entry>, string>, analyze: Segment -> AnalysisOutcome)
    returns (r: Result<ChapterReport, ChapterError>)
    ensures granularity == "custom" && MissingPrompt(customPrompt) ==> r == Err(ValueError(CustomPromptRequired))
    ensures !(granularity == "custom" && MissingPrompt(customPrompt)) && fetch(videoId).Err? ==>
      r == Err(FetchError(TranscriptErrorPrefix + fetch(videoId).error))
    ensures r.Ok? ==>
      var d := ResolveSegmentDuration(granularity, segmentDuration, customPrompt).value;
      var t := fetch(videoId).value;
      var segs := Segments(t, d);
      && ResolveSegmentDuration(granularity, segmentDuration, customPrompt).Ok?
      && fetch(videoId).Ok? && t != [] && t[|t| - 1].duration.Some?
      && r.value.segmentDuration == d
      && r.value.totalChapters == |r.value.chapters| == |segs|
      && (forall i :: 0 <= i < |segs| ==> ChapterOf(segs, analyze, i) == Ok(r.value.chapters[i]))
      && r.value.totalDurationSeconds == t[|t| - 1].start + t[|t| - 1].duration.value
      && r.value.totalDurationFormatted == FormatTimestamp(r.value.totalDurationSeconds)
      && r.value.videoId == videoId && r.value.granularity == granularity
      && r.value.customPromptUsed == customPrompt.Some?
      && r.value.analysisMethod == "gemini_semantic"
    // Past the granularity check and the fetch, the first chapter that cannot be built decides.
    ensures ResolveSegmentDuration(granularity, segmentDuration, customPrompt).Ok? && fetch(videoId).Ok? ==>
      var segs := Segments(fetch(videoId).value, ResolveSegmentDuration(granularity, segmentDuration, customPrompt).value);
      forall i :: 0 <= i < |segs| && ChapterOf(segs, analyze, i).Err?
                  && (forall j :: 0 <= j < i ==> ChapterOf(segs, analyze, j).Ok?) ==>
        r == Err(ChapterOf(segs, analyze, i).error)
    // With every chapter built, the last entry decides: none, no duration, or a report.
    ensures ResolveSegmentDuration(granularity, segmentDuration, customPrompt).Ok? && fetch(videoId).Ok? ==>
      var t := fetch(videoId).value;
      var segs := Segments(t, ResolveSegmentDuration(granularity, segmentDuration, customPrompt).value);
      (forall i :: 0 <= i < |segs| ==> ChapterOf(segs, analyze, i).Ok?) ==>
        && (t == [] ==> r == Err(IndexError))
        && (t != [] && t[|t| - 1].duration.None? ==> r == Err(KeyError("duration")))
        && (t != [] && t[|t| - 1].duration.Some? ==> r.Ok?)
  {
    var resolved := ResolveSegmentDuration(granularity, segmentDuration, customPrompt);
    if resolved.Err? {
      return Err(resolved.error);
    }
    var d := resolved.value;
    var fetched := fetch(videoId);
    if fetched.Err? {
      return Err(FetchError(TranscriptErrorPrefix + fetched.error));
    }
    var transcript := fetched.value;
    var segments := CreateSegmentsForAnalysis(transcript, d);
    var chapters := AssembleChapters(segments, analyze);
    if chapters.Err? {
      return Err(chapters.error);
    }
    if transcript == [] {
      return Err(IndexError);
    }
    var last := transcript[|transcript| - 1];
    if last.duration == None {
      return Err(KeyError("duration"));
    }
    var total := last.start + last.duration.value;
    r := Ok(ChapterReport(videoId, total, FormatTimestamp(total), |chapters.value|, "gemini_semantic",
                          d, granularity, customPrompt.Some?, chapters.value));
  }

  // ---------------------------------------------------------------------------
  // Table of contents for a video description
  // ---------------------------------------------------------------------------

  const KnownCategories: seq<string> := ["導入", "技術解説", "デモ", "実装", "質疑応答", "まとめ", "その他"]

  /** A chapter the formatter can read without raising. */
  predicate Readable(ch: map<string, Json>)
  {
    && "topic_category" in ch && Hashable(ch["topic_category"])
    && "start_timestamp" in ch && "title" in ch && "summary" in ch
    && "technical_level" in ch && Hashable(ch["technical_level"])
  }

  /** What the formatter takes from one chapter: its category, its line and its level. */
  datatype ChapterView = ChapterView(category: Json, line: string, level: Json)

  function CategoryOf(v: ChapterView): Json { v.category }

  /** `"{start_timestamp} {title}"`, followed by `" - {summary}"` when the summary is truthy. */
  function ViewOf(ch: map<string, Json>, repr: Json -> string): ChapterView
    requires Readable(ch)
  {
    var line := Show(ch["start_timestamp"], repr) + " " + Show(ch["title"], repr)
                + (if Truthy(ch["summary"]) then " - " + Show(ch["summary"], repr) else "");
    ChapterView(ch["topic_category"], line, ch["technical_level"])
  }

  predicate IsKnown(c: Json) { c.JStr? && c.s in KnownCategories }

  /** The known categories present in `cats`, in the fixed order of `known`. */
  function KnownPresent(known: seq<string>, cats: seq<Json>): seq<Json>
  {
    if known == [] then []
    else KnownPresent(known[..|known| - 1], cats)
         + (if JStr(known[|known| - 1]) in cats then [JStr(known[|known| - 1])] else [])
  }

  /** The categories of `cats` that are not known, in their own order. */
  function UnknownIn(cats: seq<Json>): seq<Json>
  {
    if cats == [] then []
    else UnknownIn(cats[..|cats| - 1]) + (if IsKnown(cats[|cats| - 1]) then [] else [cats[|cats| - 1]])
  }

  /** The order of the category sections: known ones in fixed order, then the rest in first-seen order. */
  function SectionOrder(cats: seq<Json>): seq<Json>
  {
    KnownPresent(KnownCategories, cats) + UnknownIn(cats)
  }

  function LinesOf(vs: seq<ChapterView>): (r: seq<string>)
    ensures |r| == |vs| && forall i :: 0 <= i < |vs| ==> r[i] == vs[i].line
  {
    seq(|vs|, i requires 0 <= i < |vs| => vs[i].line)
  }

  /** One section: its heading, one line per chapter of the category, and a blank line. */
  function Section(views: seq<ChapterView>, c: Json, repr: Json -> string): seq<string>
  {
    ["## " + Show(c, repr)] + LinesOf(Group(views, CategoryOf, c)) + [""]
  }

  function Sections(views: seq<ChapterView>, order: seq<Json>, repr: Json -> string): seq<string>
  {
    if order == [] then [] else Section(views, order[0], repr) + Sections(views, order[1..], repr)
  }

  lemma {:induction false} SectionsAppend(views: seq<ChapterView>, a: seq<Json>, b: seq<Json>, repr: Json -> string)
    ensures Sections(views, a + b, repr) == Sections(views, a, repr) + Sections(views, b, repr)
  {
    if a == [] {
      assert a + b == b;
    } else {
      assert (a + b)[1..] == a[1..] + b;
      SectionsAppend(views, a[1..], b, repr);
    }
  }

  function LevelName(level: Json, repr: Json -> string): string
  {
    if level == JStr("beginner") then "初心者向け"
    else if level == JStr("intermediate") then "中級者向け"
    else if level == JStr("advanced") then "上級者向け"
    else if level == JStr("general") then "一般向け"
    else Show(level, repr)
  }

  function LevelLines(levels: seq<Json>, repr: Json -> string): (r: seq<string>)
    ensures |r| == |levels|
  {
    seq(|levels|, i requires 0 <= i < |levels| => "  • " + LevelName(levels[i], repr))
  }

  const Header: seq<string> := ["📋 目次 / Table of Contents", Repeat("=", 40), ""]

  function Footer(report: ChapterReport): seq<string>
  {
    ["---",
     "🤖 この目次はAIによって自動生成されました",
     "📺 動画時間: " + report.totalDurationFormatted,
     "📊 チャプター数: " + NatToString(report.totalChapters)]
  }

  /** The lines of the table of contents, given the chapters' views and the order the level set yields. */
  function DescriptionLines(report: ChapterReport, views: seq<ChapterView>, levels: seq<Json>, repr: Json -> string): seq<string>
  {
    Header
    + Sections(views, SectionOrder(KeysOf(views, CategoryOf)), repr)
    + (if levels != [] then ["🎯 技術レベル:"] + LevelLines(levels, repr) + [""] else [])
    + Footer(report)
  }

  /**
   * The distinct technical levels of the chapters in the order the source's `set` yields
   * them, which Python leaves unspecified and the model takes as given.
   */
  ghost predicate LevelSetOrder(chapters: seq<map<string, Json>>, levels: seq<Json>)
  {
    && NoDup(levels)
    && forall l :: l in levels <==> exists i :: 0 <= i < |chapters| && "technical_level" in chapters[i] && chapters[i]["technical_level"] == l
  }

  function Views(chapters: seq<map<string, Json>>, repr: Json -> string): (r: seq<ChapterView>)
    requires forall i :: 0 <= i < |chapters| ==> Readable(chapters[i])
    ensures |r| == |chapters|
  {
    seq(|chapters|, i requires 0 <= i < |chapters| && Readable(chapters[i]) => ViewOf(chapters[i], repr))
  }

  /** The first loop of `format_for_youtube_description`, reading every chapter's category (and the rest). */
  method ReadViews(chapters: seq<map<string, Json>>, repr: Json -> string) returns (r: Option<seq<ChapterView>>)
    ensures (forall i :: 0 <= i < |chapters| ==> Readable(chapters[i])) <==> r.Some?
    ensures r.Some? ==> r.value == Views(chapters, repr)
  {
    var views: seq<ChapterView> := [];
    for i := 0 to |chapters|
      invariant |views| == i
      invariant forall j :: 0 <= j < i ==> Readable(chapters[j]) && views[j] == ViewOf(chapters[j], repr)
    {
      if !Readable(chapters[i]) {
        return None;
      }
      views := views + [ViewOf(chapters[i], repr)];
    }
    return Some(views);
  }

  /** The sections of the known categories that have chapters, in the fixed category order. */
  method KnownSections(views: seq<ChapterView>, order: seq<Json>, groups: map<Json, seq<ChapterView>>, repr: Json -> string)
    returns (lines: seq<string>)
    requires forall c :: c in groups <==> c in order
    requires forall c :: c in groups ==> groups[c] == Group(views, CategoryOf, c)
    ensures lines == Sections(views, KnownPresent(KnownCategories, order), repr)
  {
    lines := [];
    for k := 0 to |KnownCategories|
      invariant lines == Sections(views, KnownPresent(KnownCategories[..k], order), repr)
    {
      var c := JStr(KnownCategories[k]);
      var prev := KnownPresent(KnownCategories[..k], order);
      assert KnownCategories[..k + 1][..k] == KnownCategories[..k];
      assert KnownPresent(KnownCategories[..k + 1], order) == prev + (if c in order then [c] else []);
      if c in groups {
        SectionsAppend(views, prev, [c], repr);
        assert Sections(views, [c], repr) == Section(views, c, repr) + Sections(views, [], repr);
        var section := ["## " + Show(c, repr)] + LinesOf(groups[c]) + [""];
        assert section == Section(views, c, repr);
        lines := lines + section;
      } else {
        assert prev + [] == prev;
      }
    }
    assert KnownCategories[..|KnownCategories|] == KnownCategories;
  }

  /** The sections of the other categories, in the order the grouping dict first saw them. */
  method UnknownSections(views: seq<ChapterView>, order: seq<Json>, groups: map<Json, seq<ChapterView>>, repr: Json -> string)
    returns (lines: seq<string>)
    requires forall c :: c in groups <==> c in order
    requires forall c :: c in groups ==> groups[c] == Group(views, CategoryOf, c)
    ensures lines == Sections(views, UnknownIn(order), repr)
  {
    lines := [];
    for k := 0 to |order|
      invariant lines == Sections(views, UnknownIn(order[..k]), repr)
    {
      var c := order[k];
      var prev := UnknownIn(order[..k]);
      assert order[..k + 1][..k] == order[..k];
      assert UnknownIn(order[..k + 1]) == prev + (if IsKnown(c) then [] else [c]);
      if !IsKnown(c) {
        SectionsAppend(views, prev, [c], repr);
        assert Sections(views, [c], repr) == Section(views, c, repr) + Sections(views, [], repr);
        var section := ["## " + Show(c, repr)] + LinesOf(groups[c]) + [""];
        assert section == Section(views, c, repr);
        lines := lines + section;
      } else {
        assert prev + [] == prev;
      }
    }
    assert order[..|order|] == order;
  }

  /** The technical-level block, present when some chapter exists. */
  method LevelBlock(levels: seq<Json>, repr: Json -> string) returns (lines: seq<string>)
    ensures lines == if levels != [] then ["🎯 技術レベル:"] + LevelLines(levels, repr) + [""] else []
  {
    lines := [];
    if levels != [] {
      lines := ["🎯 技術レベル:"];
      for k := 0 to |levels|
        invariant lines == ["🎯 技術レベル:"] + LevelLines(levels[..k], repr)
      {
        assert LevelLines(levels[..k + 1], repr) == LevelLines(levels[..k], repr) + ["  • " + LevelName(levels[k], repr)];
        lines := lines + ["  • " + LevelName(levels[k], repr)];
      }
      assert levels[..|levels|] == levels;
      lines := lines + [""];
    }
  }

  /** The lines of the table of contents for readable chapters, built section by section. */
  method BuildDescriptionLines(report: ChapterReport, views: seq<ChapterView>, levels: seq<Json>, repr: Json -> string)
    returns (lines: seq<string>)
    ensures lines == DescriptionLines(report, views, levels, repr)
  {
    var order, groups := GroupBy(views, CategoryOf);
    var known := KnownSections(views, order, groups, repr);
    var unknown := UnknownSections(views, order, groups, repr);
    SectionsAppend(views, KnownPresent(KnownCategories, order), UnknownIn(order), repr);
    var sections := known + unknown;
    assert sections == Sections(views, SectionOrder(KeysOf(views, CategoryOf)), repr);
    var levelLines := LevelBlock(levels, repr);
    lines := Header + sections + levelLines + Footer(report);
  }

  /**
   * `format_for_youtube_description`: `None` stands for the exception the source raises on a
   * chapter it cannot read; otherwise the lines, joined with newlines.
   */
  method FormatForYoutubeDescription(report: ChapterReport, levels: seq<Json>, repr: Json -> string)
    returns (r: Option<string>)
    requires LevelSetOrder(report.chapters, levels)
    ensures (forall i :: 0 <= i < |report.chapters| ==> Readable(report.chapters[i])) <==> r.Some?
    ensures r.Some? ==> r.value == Join(DescriptionLines(report, Views(report.chapters, repr), levels, repr), "\n")
  {
    var read := ReadViews(report.chapters, repr);
    if read.None? {
      return None;
    }
    var lines := BuildDescriptionLines(report, read.value, levels, repr);
    return Some(Join(lines, "\n"));
  }

  // ---------------------------------------------------------------------------
  // Properties of the table of contents
  // ---------------------------------------------------------------------------

  lemma {:induction false} KnownPresentMembers(known: seq<string>, cats: seq<Json>)
    ensures forall c :: c in KnownPresent(known, cats) <==> c in cats && c.JStr? && c.s in known
  {
    if known != [] {
      KnownPresentMembers(known[..|known| - 1], cats);
      assert known == known[..|known| - 1] + [known[|known| - 1]];
    }
  }

  lemma {:induction false} KnownPresentNoDup(known: seq<string>, cats: seq<Json>)
    requires NoDup(known)
    ensures NoDup(KnownPresent(known, cats))
  {
    if known != [] {
      var init := known[..|known| - 1];
      KnownPresentNoDup(init, cats);
      KnownPresentMembers(init, cats);
      assert known[|known| - 1] !in init;
    }
  }

  lemma {:induction false} UnknownInMembers(cats: seq<Json>)
    ensures forall c :: c in UnknownIn(cats) <==> c in cats && !IsKnown(c)
  {
    if cats != [] {
      UnknownInMembers(cats[..|cats| - 1]);
      assert cats == cats[..|cats| - 1] + [cats[|cats| - 1]];
    }
  }

  lemma {:induction false} UnknownInNoDup(cats: seq<Json>)
    requires NoDup(cats)
    ensures NoDup(UnknownIn(cats))
  {
    if cats != [] {
      var init := cats[..|cats| - 1];
      UnknownInNoDup(init);
      UnknownInMembers(init);
      assert cats[|cats| - 1] !in init;
    }
  }

  lemma KnownCategoriesNoDup()
    ensures NoDup(KnownCategories)
  {
  }

  /**
   * Every category with chapters gets exactly one section, and no other section exists; the
   * known categories' sections all come before the others.
   */
  lemma SectionOrderCovers(cats: seq<Json>)
    requires NoDup(cats)
    ensures NoDup(SectionOrder(cats))
    ensures forall c :: c in SectionOrder(cats) <==> c in cats
    ensures forall i, j :: 0 <= i < j < |SectionOrder(cats)| && IsKnown(SectionOrder(cats)[j]) ==> IsKnown(SectionOrder(cats)[i])
  {
    var k, u := KnownPresent(KnownCategories, cats), UnknownIn(cats);
    KnownCategoriesNoDup();
    KnownPresentNoDup(KnownCategories, cats);
    KnownPresentMembers(KnownCategories, cats);
    UnknownInNoDup(cats);
    UnknownInMembers(cats);
    var so := k + u;
    forall i, j | 0 <= i < j < |so| ensures so[i] != so[j] {
      if j < |k| {
        assert so[i] == k[i] && so[j] == k[j];
      } else if i >= |k| {
        assert so[i] == u[i - |k|] && so[j] == u[j - |k|];
      } else {
        assert so[i] in k && so[j] in u;
      }
    }
    forall i, j | 0 <= i < j < |so| && IsKnown(so[j]) ensures IsKnown(so[i]) {
      if j < |k| {
        assert so[i] in k;
      }
    }
  }

  lemma {:induction false} SectionsLength(views: seq<ChapterView>, order: seq<Json>, repr: Json -> string)
    ensures |Sections(views, order, repr)| == 2 * |order| + GroupSizes(views, CategoryOf, order)
  {
    if order != [] {
      SectionsLength(views, order[1..], repr);
    }
  }

  /**
   * The table of contents has one line per chapter, a heading and a blank line per category,
   * the level block when there are chapters, and seven fixed header and footer lines: each
   * chapter is listed exactly once.
   */
  lemma DescriptionLineCount(report: ChapterReport, views: seq<ChapterView>, levels: seq<Json>, repr: Json -> string)
    ensures |DescriptionLines(report, views, levels, repr)|
         == 7 + |views| + 2 * |SectionOrder(KeysOf(views, CategoryOf))| + (if levels != [] then |levels| + 2 else 0)
  {
    var cats := KeysOf(views, CategoryOf);
    var so := SectionOrder(cats);
    SectionOrderCovers(cats);
    SectionsLength(views, so, repr);
    forall x | x in views ensures CategoryOf(x) in so {
      assert CategoryOf(x) in cats;
    }
    GroupsPartition(views, CategoryOf, so);
  }

  /** The section of category `c` lists exactly that category's chapters, each as often as it occurs. */
  lemma SectionLists(views: seq<ChapterView>, c: Json, v: ChapterView, repr: Json -> string)
    ensures var s := Section(views, c, repr);
      s[0] == "## " + Show(c, repr) && s[|s| - 1] == ""
      && multiset(Group(views, CategoryOf, c))[v] == (if v.category == c then multiset(views)[v] else 0)
  {
    GroupOccurrences(views, CategoryOf, c, v);
  }
}
