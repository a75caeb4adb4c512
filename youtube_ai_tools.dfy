/**
 * The deterministic helpers of the AI optimiser (`youtube_ai_tools.py`): the title score, the
 * ranked title suggestions, the content type of a posting-plan slot, the season of a month, the
 * tag-pattern tally and the posting-frequency estimate.  The clock, `random.choice` and the
 * date parser are parameters; the duration parser lives in module Duration.
 */
module YoutubeAiTools {
  import opened Seqs
  import opened Text
  import YoutubeTools
  import YoutubeChannelTools

  // ---------------------------------------------------------------------------
  // Title score
  // ---------------------------------------------------------------------------

  const PowerWords: seq<string> := ["必見", "最新", "完全", "保存版", "神", "最強", "究極"]

  /**
   * `str.isdigit` on one character, in Unicode 15.0 (Python 3.12): the decimal digits of
   * every script, and the other digits such as superscripts, subscripts and circled digits.
   */
  predicate IsDigitChar(c: char)
  {
    || '\U{0030}' <= c <= '\U{0039}' || '\U{00B2}' <= c <= '\U{00B3}' || c == '\U{00B9}'
    || '\U{0660}' <= c <= '\U{0669}' || '\U{06F0}' <= c <= '\U{06F9}' || '\U{07C0}' <= c <= '\U{07C9}'
    || '\U{0966}' <= c <= '\U{096F}' || '\U{09E6}' <= c <= '\U{09EF}' || '\U{0A66}' <= c <= '\U{0A6F}'
    || '\U{0AE6}' <= c <= '\U{0AEF}' || '\U{0B66}' <= c <= '\U{0B6F}' || '\U{0BE6}' <= c <= '\U{0BEF}'
    || '\U{0C66}' <= c <= '\U{0C6F}' || '\U{0CE6}' <= c <= '\U{0CEF}' || '\U{0D66}' <= c <= '\U{0D6F}'
    || '\U{0DE6}' <= c <= '\U{0DEF}' || '\U{0E50}' <= c <= '\U{0E59}' || '\U{0ED0}' <= c <= '\U{0ED9}'
    || '\U{0F20}' <= c <= '\U{0F29}' || '\U{1040}' <= c <= '\U{1049}' || '\U{1090}' <= c <= '\U{1099}'
    || '\U{1369}' <= c <= '\U{1371}' || '\U{17E0}' <= c <= '\U{17E9}' || '\U{1810}' <= c <= '\U{1819}'
    || '\U{1946}' <= c <= '\U{194F}' || '\U{19D0}' <= c <= '\U{19DA}' || '\U{1A80}' <= c <= '\U{1A89}'
    || '\U{1A90}' <= c <= '\U{1A99}' || '\U{1B50}' <= c <= '\U{1B59}' || '\U{1BB0}' <= c <= '\U{1BB9}'
    || '\U{1C40}' <= c <= '\U{1C49}' || '\U{1C50}' <= c <= '\U{1C59}' || c == '\U{2070}'
    || '\U{2074}' <= c <= '\U{2079}' || '\U{2080}' <= c <= '\U{2089}' || '\U{2460}' <= c <= '\U{2468}'
    || '\U{2474}' <= c <= '\U{247C}' || '\U{2488}' <= c <= '\U{2490}' || c == '\U{24EA}'
    || '\U{24F5}' <= c <= '\U{24FD}' || c == '\U{24FF}' || '\U{2776}' <= c <= '\U{277E}'
    || '\U{2780}' <= c <= '\U{2788}' || '\U{278A}' <= c <= '\U{2792}' || '\U{A620}' <= c <= '\U{A629}'
    || '\U{A8D0}' <= c <= '\U{A8D9}' || '\U{A900}' <= c <= '\U{A909}' || '\U{A9D0}' <= c <= '\U{A9D9}'
    || '\U{A9F0}' <= c <= '\U{A9F9}' || '\U{AA50}' <= c <= '\U{AA59}' || '\U{ABF0}' <= c <= '\U{ABF9}'
    || '\U{FF10}' <= c <= '\U{FF19}' || '\U{104A0}' <= c <= '\U{104A9}' || '\U{10A40}' <= c <= '\U{10A43}'
    || '\U{10D30}' <= c <= '\U{10D39}' || '\U{10E60}' <= c <= '\U{10E68}' || '\U{11052}' <= c <= '\U{1105A}'
    || '\U{11066}' <= c <= '\U{1106F}' || '\U{110F0}' <= c <= '\U{110F9}' || '\U{11136}' <= c <= '\U{1113F}'
    || '\U{111D0}' <= c <= '\U{111D9}' || '\U{112F0}' <= c <= '\U{112F9}' || '\U{11450}' <= c <= '\U{11459}'
    || '\U{114D0}' <= c <= '\U{114D9}' || '\U{11650}' <= c <= '\U{11659}' || '\U{116C0}' <= c <= '\U{116C9}'
    || '\U{11730}' <= c <= '\U{11739}' || '\U{118E0}' <= c <= '\U{118E9}' || '\U{11950}' <= c <= '\U{11959}'
    || '\U{11C50}' <= c <= '\U{11C59}' || '\U{11D50}' <= c <= '\U{11D59}' || '\U{11DA0}' <= c <= '\U{11DA9}'
    || '\U{11F50}' <= c <= '\U{11F59}' || '\U{16A60}' <= c <= '\U{16A69}' || '\U{16AC0}' <= c <= '\U{16AC9}'
    || '\U{16B50}' <= c <= '\U{16B59}' || '\U{1D7CE}' <= c <= '\U{1D7FF}' || '\U{1E140}' <= c <= '\U{1E149}'
    || '\U{1E2F0}' <= c <= '\U{1E2F9}' || '\U{1E4F0}' <= c <= '\U{1E4F9}' || '\U{1E950}' <= c <= '\U{1E959}'
    || '\U{1F100}' <= c <= '\U{1F10A}' || '\U{1FBF0}' <= c <= '\U{1FBF9}'
  }

  predicate HasDigit(title: string)
  {
    exists i :: 0 <= i < |title| && IsDigitChar(title[i])
  }

  /** A circled digit, a superscript and a Devanagari digit count as digits, as `str.isdigit` has them. */
  lemma OtherDigitsCount()
    ensures HasDigit("Python入門①") && HasDigit("x²") && HasDigit("भाग३")
  {
    assert IsDigitChar("Python入門①"[8]);
    assert IsDigitChar("x²"[1]);
    assert IsDigitChar("भाग३"[3]);
  }

  /** The length band: 40..60 characters are best, 30..70 still earn something. */
  function LengthPoints(n: nat): nat
  {
    if 40 <= n <= 60 then 20 else if 30 <= n <= 70 then 10 else 0
  }

  /** How many of the words `ws` occur in `title`, counted from the left. */
  function PowerHits(title: string, ws: seq<string>): (n: nat)
    ensures n <= |ws|
  {
    if ws == [] then 0
    else PowerHits(title, ws[..|ws| - 1]) + (if Contains(title, ws[|ws| - 1]) then 1 else 0)
  }

  /** The words of `ws` that occur in `title`, as a set. */
  ghost function PresentWords(title: string, ws: seq<string>): set<string>
  {
    set w | w in ws && Contains(title, w)
  }

  /** `_calculate_title_score`, part by part; every title scores between 0 and 78. */
  function TitleScore(title: string): (score: nat)
    ensures score <= 78
  {
    LengthPoints(|title|)
    + 5 * PowerHits(title, PowerWords)
    + (if HasDigit(title) then 10 else 0)
    + (if '【' in title && '】' in title then 5 else 0)
    + (if '!' in title || '！' in title then 3 else 0)
    + (if '?' in title || '？' in title then 5 else 0)
  }

  /** The loop of `_calculate_title_score`, which adds to `score` one part at a time. */
  method CalculateTitleScore(title: string) returns (score: int)
    ensures score == TitleScore(title)
  {
    score := 0;
    var length := |title|;
    if 40 <= length <= 60 {
      score := score + 20;
    } else if 30 <= length <= 70 {
      score := score + 10;
    }
    for i := 0 to |PowerWords|
      invariant score == LengthPoints(length) + 5 * PowerHits(title, PowerWords[..i])
    {
      assert PowerWords[..i + 1][..i] == PowerWords[..i];
      if Contains(title, PowerWords[i]) {
        score := score + 5;
      }
    }
    assert PowerWords[..|PowerWords|] == PowerWords;
    if HasDigit(title) {
      score := score + 10;
    }
    if '【' in title && '】' in title {
      score := score + 5;
    }
    if '!' in title || '！' in title {
      score := score + 3;
    }
    if '?' in title || '？' in title {
      score := score + 5;
    }
  }

  /** Over a list without repetitions, the hit count is the number of distinct words present. */
  lemma {:induction false} HitsCountDistinctWords(title: string, ws: seq<string>)
    requires forall i, j :: 0 <= i < j < |ws| ==> ws[i] != ws[j]
    ensures PowerHits(title, ws) == |PresentWords(title, ws)|
  {
    if ws != [] {
      var init := ws[..|ws| - 1];
      var x := ws[|ws| - 1];
      HitsCountDistinctWords(title, init);
      forall i | 0 <= i < |init| ensures init[i] != x {
        assert ws[i] != ws[|ws| - 1];
      }
      assert forall w :: w in ws <==> w in init || w == x;
      if Contains(title, x) {
        assert PresentWords(title, ws) == PresentWords(title, init) + {x};
      } else {
        assert PresentWords(title, ws) == PresentWords(title, init);
      }
    }
  }

  /** Each distinct power word in the title is worth 5 points, however often it occurs. */
  lemma PowerWordPoints(title: string)
    ensures TitleScore(title) - 5 * |PresentWords(title, PowerWords)|
         == LengthPoints(|title|)
            + (if HasDigit(title) then 10 else 0)
            + (if '【' in title && '】' in title then 5 else 0)
            + (if '!' in title || '！' in title then 3 else 0)
            + (if '?' in title || '？' in title then 5 else 0)
  {
    HitsCountDistinctWords(title, PowerWords);
  }

  // ---------------------------------------------------------------------------
  // Title suggestions
  // ---------------------------------------------------------------------------

  /** A suggestion before scoring: title, strategy and expected CTR boost. */
  datatype Draft = Draft(title: string, strategy: string, boost: string)

  datatype Suggestion = Suggestion(title: string, strategy: string, boost: string, score: int)

  const EmotionalTriggers: seq<string> := ["衝撃", "感動", "爆笑", "神回", "奇跡"]
  const Audiences: seq<string> := ["若年層", "ビジネス", "主婦層", "シニア"]
  const SocialProofStrategy: string := "社会的証明を活用"
  const AudienceSuffix: string := "向けに最適化"

  /** The view count in units of 万 (ten thousand), rounded down, as the 万 label means. */
  function SocialProofFigure(viewCount: int): (f: int)
    requires viewCount > 10000
    ensures 1 <= f && f * 10000 <= viewCount < (f + 1) * 10000
  {
    viewCount / 10000
  }

  /** The figure the source prints before 万: the view count in thousands. */
  function SocialProofFigureAsWritten(viewCount: int): int
  {
    viewCount / 1000
  }

  /** As written, the figure read as 万 always claims more views than the video has, ten times the intended figure. */
  lemma SocialProofOverstated(viewCount: int)
    requires viewCount > 10000
    ensures SocialProofFigureAsWritten(viewCount) * 10000 > viewCount
    ensures SocialProofFigureAsWritten(viewCount) >= 10 * SocialProofFigure(viewCount)
  {
  }

  function SocialProofTitle(figure: int, base: string): string
  {
    "【" + IntToString(figure) + "万回再生】" + base + "の真実"
  }

  /** The title for one of the four known audiences. */
  function AudienceTitle(audience: string, base: string): (r: Option<string>)
    ensures r.Some? <==> audience in Audiences
  {
    if audience == "若年層" then Some("【Z世代必見】" + base + "がエモすぎる件")
    else if audience == "ビジネス" then Some(base + "｜成功者が実践する3つの法則")
    else if audience == "主婦層" then Some("【保存版】" + base + "で家事が楽になる方法")
    else if audience == "シニア" then Some("【分かりやすく解説】" + base + "の基本と応用")
    else None
  }

  function AudienceDrafts(base: string, audience: Option<string>): seq<Draft>
  {
    if audience.Some? && audience.value != "" then
      match AudienceTitle(audience.value, base)
      case Some(t) => [Draft(t, audience.value + AudienceSuffix, "+20-25%")]
      case None => []
    else []
  }

  /**
   * The suggestions in the order they are appended; `pick` stands for `random.choice` and
   * `year`, `month` for the clock.  The social-proof figure is the corrected one.
   */
  function Drafts(base: string, viewCount: int, pick: nat, audience: Option<string>, year: int, month: int): (r: seq<Draft>)
    ensures 4 <= |r| <= 6
  {
    (if viewCount > 10000 then [Draft(SocialProofTitle(SocialProofFigure(viewCount), base), SocialProofStrategy, "+15-20%")] else [])
    + [Draft(base + "で" + EmotionalTriggers[pick % |EmotionalTriggers|] + "の展開に...", "感情的フック", "+10-15%"),
       Draft("なぜ" + base + "が話題なのか？その理由がヤバすぎた", "好奇心を刺激", "+12-18%"),
       Draft(base + "で分かった5つの重要ポイント", "リスト形式で整理", "+8-12%")]
    + AudienceDrafts(base, audience)
    + [Draft("【" + IntToString(year) + "年" + IntToString(month) + "月最新】" + base + "完全ガイド", "最新性をアピール", "+10-15%")]
  }

  function Scored(ds: seq<Draft>): (r: seq<Suggestion>)
    ensures |r| == |ds|
    ensures forall i :: 0 <= i < |ds| ==> r[i] == Suggestion(ds[i].title, ds[i].strategy, ds[i].boost, TitleScore(ds[i].title))
  {
    if ds == [] then []
    else
      var d := ds[|ds| - 1];
      Scored(ds[..|ds| - 1]) + [Suggestion(d.title, d.strategy, d.boost, TitleScore(d.title))]
  }

  function ScoreKey(s: Suggestion): real { s.score as real }

  /** The drafts scored, sorted by score (stable) and cut to five. */
  function Ranked(ds: seq<Draft>): seq<Suggestion>
  {
    Take(SortDesc(Scored(ds), ScoreKey), 5)
  }

  /** `_generate_title_suggestions`. */
  function TitleSuggestions(current: string, viewCount: int, pick: nat, audience: Option<string>, year: int, month: int): seq<Suggestion>
  {
    Ranked(Drafts(YoutubeChannelTools.BaseTitle(current), viewCount, pick, audience, year, month))
  }

  /** The `for` loop that scores each suggestion. */
  method ScoreDrafts(drafts: seq<Draft>) returns (scored: seq<Suggestion>)
    ensures scored == Scored(drafts)
  {
    scored := [];
    for i := 0 to |drafts|
      invariant scored == Scored(drafts[..i])
    {
      assert drafts[..i + 1][..i] == drafts[..i];
      var score := CalculateTitleScore(drafts[i].title);
      scored := scored + [Suggestion(drafts[i].title, drafts[i].strategy, drafts[i].boost, score)];
    }
    assert drafts[..|drafts|] == drafts;
  }

  /** The suggestion list, scored one entry at a time as the source's `for` loop does. */
  method GenerateTitleSuggestions(current: string, viewCount: int, pick: nat, audience: Option<string>, year: int, month: int)
    returns (r: seq<Suggestion>)
    ensures r == TitleSuggestions(current, viewCount, pick, audience, year, month)
  {
    var base := YoutubeChannelTools.BaseTitle(current);
    var drafts := Drafts(base, viewCount, pick, audience, year, month);
    var scored := ScoreDrafts(drafts);
    r := Take(SortDesc(scored, ScoreKey), 5);
  }

  /**
   * At most five suggestions (four or five for the source's drafts), by non-increasing score;
   * each is one of the drafts with its own title's score, and a draft left out scores no
   * higher than any suggestion kept.
   */
  lemma RankedSuggestions(ds: seq<Draft>)
    ensures var r := Ranked(ds);
      |r| == (if |ds| < 5 then |ds| else 5) && SortedDesc(r, ScoreKey)
      && (forall s :: s in r ==> s.score == TitleScore(s.title) && Draft(s.title, s.strategy, s.boost) in ds)
      && (forall d :: d in ds && Suggestion(d.title, d.strategy, d.boost, TitleScore(d.title)) !in r ==>
            forall s :: s in r ==> s.score >= TitleScore(d.title))
  {
    var scored := Scored(ds);
    var r := Ranked(ds);
    TopOfSorted(scored, ScoreKey, 5);
    forall s | s in r ensures s.score == TitleScore(s.title) && Draft(s.title, s.strategy, s.boost) in ds {
      var i :| 0 <= i < |scored| && scored[i] == s;
      assert ds[i] == Draft(s.title, s.strategy, s.boost);
    }
    forall d | d in ds && Suggestion(d.title, d.strategy, d.boost, TitleScore(d.title)) !in r
      ensures forall s :: s in r ==> s.score >= TitleScore(d.title)
    {
      var y := Suggestion(d.title, d.strategy, d.boost, TitleScore(d.title));
      var i :| 0 <= i < |ds| && ds[i] == d;
      assert scored[i] == y;
      assert multiset(scored)[y] > 0;
      assert multiset(r)[y] == 0;
      TopDominates(scored, ScoreKey, 5, y);
    }
  }

  /** A fixed strategy text never ends like an audience strategy. */
  lemma AudienceStrategyIsNotFixed(a: string)
    ensures a + AudienceSuffix !in [SocialProofStrategy, "感情的フック", "好奇心を刺激", "リスト形式で整理", "最新性をアピール"]
  {
    var s := a + AudienceSuffix;
    assert s[|s| - 1] == '化';
  }

  /** The social-proof draft is offered exactly when the video has more than 10,000 views. */
  lemma SocialProofOnlyWhenPopular(base: string, viewCount: int, pick: nat, audience: Option<string>, year: int, month: int)
    ensures (exists d :: d in Drafts(base, viewCount, pick, audience, year, month) && d.strategy == SocialProofStrategy)
        <==> viewCount > 10000
  {
    var ds := Drafts(base, viewCount, pick, audience, year, month);
    if viewCount > 10000 {
      assert ds[0].strategy == SocialProofStrategy;
    } else {
      forall d | d in ds ensures d.strategy != SocialProofStrategy {
        if d in AudienceDrafts(base, audience) {
          AudienceStrategyIsNotFixed(audience.value);
        }
      }
    }
  }

  lemma AppendCancels(a: string, b: string, s: string)
    ensures a + s == b + s ==> a == b
  {
    if a + s == b + s {
      assert a == (a + s)[..|a|];
      assert b == (b + s)[..|b|];
    }
  }

  /** An audience draft is offered exactly for a requested audience that is one of the four known ones. */
  lemma AudienceDraftOnlyKnown(base: string, viewCount: int, pick: nat, audience: Option<string>, year: int, month: int, a: string)
    ensures (exists d :: d in Drafts(base, viewCount, pick, audience, year, month) && d.strategy == a + AudienceSuffix)
        <==> audience == Some(a) && a in Audiences
  {
    var ds := Drafts(base, viewCount, pick, audience, year, month);
    var aud := AudienceDrafts(base, audience);
    AudienceStrategyIsNotFixed(a);
    if audience == Some(a) && a in Audiences {
      DraftsHoldAudience(base, viewCount, pick, audience, year, month);
      assert aud[0] in ds;
    } else {
      forall d | d in ds ensures d.strategy != a + AudienceSuffix {
        DraftStrategies(base, viewCount, pick, audience, year, month, d);
        if d in aud {
          AppendCancels(audience.value, a, AudienceSuffix);
        }
      }
    }
  }

  /** Every draft but an audience one has one of the fixed strategies. */
  lemma DraftStrategies(base: string, viewCount: int, pick: nat, audience: Option<string>, year: int, month: int, d: Draft)
    requires d in Drafts(base, viewCount, pick, audience, year, month)
    ensures d in AudienceDrafts(base, audience)
            || d.strategy in [SocialProofStrategy, "感情的フック", "好奇心を刺激", "リスト形式で整理", "最新性をアピール"]
  {
  }

  /** The audience drafts are among the drafts. */
  lemma DraftsHoldAudience(base: string, viewCount: int, pick: nat, audience: Option<string>, year: int, month: int)
    ensures forall d :: d in AudienceDrafts(base, audience) ==> d in Drafts(base, viewCount, pick, audience, year, month)
  {
  }

  // ---------------------------------------------------------------------------
  // Content type of a posting-plan slot
  // ---------------------------------------------------------------------------

  /** `_suggest_content_mix`, in dict order. */
  const DefaultMix: seq<(string, int)> :=
    [("メインコンテンツ", 50), ("トレンド対応", 20), ("コラボ・企画物", 15), ("Q&A・雑談", 10), ("お知らせ・告知", 5)]

  const FallbackType: string := "メインコンテンツ"

  /** `[t] * (p // 10)` has this many entries; a negative count gives an empty list. */
  function Copies(p: int): nat
  {
    if p < 0 then 0 else p / 10
  }

  /** The `types` list: `percentage // 10` copies of each type, in mix order. */
  function Expanded(mix: seq<(string, int)>): (r: seq<string>)
    ensures forall t :: t in r ==> exists k :: 0 <= k < |mix| && mix[k].0 == t && mix[k].1 >= 10
  {
    if mix == [] then []
    else
      var p := mix[|mix| - 1];
      Expanded(mix[..|mix| - 1]) + seq(Copies(p.1), _ => p.0)
  }

  function ContentType(index: int, mix: seq<(string, int)>): string
  {
    var types := Expanded(mix);
    if types == [] then FallbackType else types[index % |types|]
  }

  /** `_select_content_type`, which extends `types` one mix entry at a time. */
  method SelectContentType(index: int, mix: seq<(string, int)>) returns (r: string)
    ensures r == ContentType(index, mix)
  {
    var types: seq<string> := [];
    for i := 0 to |mix|
      invariant types == Expanded(mix[..i])
    {
      assert mix[..i + 1][..i] == mix[..i];
      types := types + seq(Copies(mix[i].1), _ => mix[i].0);
    }
    assert mix[..|mix|] == mix;
    if types == [] {
      r := FallbackType;
    } else {
      r := types[index % |types|];
    }
  }

  function CopiesOf(p: (string, int)): int { Copies(p.1) }

  /** The `types` list has one entry per ten percent of each share, rounded down. */
  lemma {:induction false} ExpandedLength(mix: seq<(string, int)>)
    ensures |Expanded(mix)| == Sum(mix, CopiesOf)
  {
    if mix != [] {
      ExpandedLength(mix[..|mix| - 1]);
    }
  }

  /** The chosen type is the fallback only when no share reaches 10%, and otherwise one whose share does. */
  lemma ContentTypeChosen(index: int, mix: seq<(string, int)>)
    ensures var r := ContentType(index, mix);
      (Expanded(mix) == [] <==> forall k :: 0 <= k < |mix| ==> mix[k].1 < 10)
      && (Expanded(mix) != [] ==> exists k :: 0 <= k < |mix| && mix[k].0 == r && mix[k].1 >= 10)
  {
    ExpandedLength(mix);
    if forall k :: 0 <= k < |mix| ==> mix[k].1 < 10 {
      forall x | x in mix ensures 0 <= CopiesOf(x) < 1 {
        var k :| 0 <= k < |mix| && mix[k] == x;
      }
      SumBounds(mix, CopiesOf, 0, 1);
    } else {
      var k :| 0 <= k < |mix| && mix[k].1 >= 10;
      ExpandedHas(mix, k);
    }
    if Expanded(mix) != [] {
      var types := Expanded(mix);
      assert types[index % |types|] in types;
    }
  }

  /** A type with at least a 10% share appears in the `types` list. */
  lemma {:induction false} ExpandedHas(mix: seq<(string, int)>, k: nat)
    requires k < |mix| && mix[k].1 >= 10
    ensures mix[k].0 in Expanded(mix)
  {
    var p := mix[|mix| - 1];
    var tail := seq(Copies(p.1), _ => p.0);
    if k == |mix| - 1 {
      assert tail[0] == p.0;
    } else {
      ExpandedHas(mix[..|mix| - 1], k);
    }
  }

  /**
   * With the suggested mix the plan cycles through nine slots: five main, two trend, one
   * collaboration, one Q&A; announcements (5%) are never chosen.
   */
  lemma DefaultMixCycle(index: int)
    ensures |Expanded(DefaultMix)| == 9
    ensures ContentType(index, DefaultMix)
         == if index % 9 < 5 then "メインコンテンツ" else if index % 9 < 7 then "トレンド対応"
            else if index % 9 == 7 then "コラボ・企画物" else "Q&A・雑談"
  {
    var m := DefaultMix;
    assert m[..1][..0] == [] && m[..2][..1] == m[..1] && m[..3][..2] == m[..2] && m[..4][..3] == m[..3] && m[..4] == m[..|m| - 1];
    var e1 := seq(5, _ => "メインコンテンツ");
    assert Expanded(m[..1]) == e1;
    var e2 := e1 + seq(2, _ => "トレンド対応");
    assert Expanded(m[..2]) == e2;
    var e3 := e2 + seq(1, _ => "コラボ・企画物");
    assert Expanded(m[..3]) == e3;
    var e4 := e3 + seq(1, _ => "Q&A・雑談");
    assert Expanded(m[..4]) == e4;
    assert Expanded(m) == e4 + seq(0, _ => "お知らせ・告知");
  }

  // ---------------------------------------------------------------------------
  // Season
  // ---------------------------------------------------------------------------

  /** `_get_current_season` for the month the clock reports. */
  function Season(month: int): string
  {
    if 3 <= month <= 5 then "春"
    else if 6 <= month <= 8 then "夏"
    else if 9 <= month <= 11 then "秋"
    else "冬"
  }

  const SeasonCycle: seq<string> := ["冬", "春", "夏", "秋"]

  /**
   * The seasons are the quarters of the year counted from December: month `m` falls in
   * quarter `(m mod 12) / 3`.  Consequently the season changes between two consecutive
   * months exactly after February, May, August and November.
   */
  lemma SeasonQuarters(month: int)
    requires 1 <= month <= 12
    ensures Season(month) == SeasonCycle[(month % 12) / 3]
    ensures month < 12 ==> (Season(month + 1) != Season(month) <==> month % 3 == 2)
  {
  }

  // ---------------------------------------------------------------------------
  // Tag patterns
  // ---------------------------------------------------------------------------

  /** All tags of all videos, in order; a video without a `tags` key contributes none. */
  function AllTags(videos: seq<Option<seq<string>>>): seq<string>
  {
    if videos == [] then []
    else AllTags(videos[..|videos| - 1]) + (match videos[|videos| - 1] case None => [] case Some(ts) => ts)
  }

  function Name(p: (string, int)): string { p.0 }

  function Names(ps: seq<(string, int)>): (r: seq<string>)
    ensures |r| == |ps|
    ensures forall i :: 0 <= i < |ps| ==> r[i] == ps[i].0
  {
    if ps == [] then [] else [ps[0].0] + Names(ps[1..])
  }

  /** `_analyze_tag_patterns`: the ten most frequent tags. */
  function TagPatterns(videos: seq<Option<seq<string>>>): seq<string>
  {
    Names(YoutubeTools.TopKeywords(AllTags(videos)))
  }

  /** The loops of `_analyze_tag_patterns`: collect every tag, then count them in a dict. */
  method AnalyzeTagPatterns(videos: seq<Option<seq<string>>>) returns (r: seq<string>)
    ensures r == TagPatterns(videos)
  {
    var allTags: seq<string> := [];
    for i := 0 to |videos|
      invariant allTags == AllTags(videos[..i])
    {
      assert videos[..i + 1][..i] == videos[..i];
      match videos[i]
      case None =>
      case Some(ts) =>
        allTags := allTags + ts;
    }
    assert videos[..|videos|] == videos;
    var order, counts := Tally(allTags, YoutubeTools.Same, YoutubeTools.One);
    var items := Items(order, counts);
    assert items == YoutubeTools.CountsFor(allTags, order);
    r := Names(Take(SortDesc(items, PairCount), 10));
  }

  /** At most ten distinct tags that all occur, by non-increasing number of occurrences. */
  lemma TagPatternsRanked(videos: seq<Option<seq<string>>>)
    ensures var tags := AllTags(videos);
      var r := TagPatterns(videos);
      |r| <= 10 && (forall t :: t in r ==> t in tags)
      && forall i, j :: 0 <= i < j < |r| ==> r[i] != r[j] && multiset(tags)[r[i]] >= multiset(tags)[r[j]]
  {
    var tags := AllTags(videos);
    var top := YoutubeTools.TopKeywords(tags);
    var r := TagPatterns(videos);
    YoutubeTools.TopKeywordsRanked(tags);
    forall t | t in r ensures t in tags {
      var k :| 0 <= k < |r| && r[k] == t;
      assert top[k] in top;
    }
    forall i, j | 0 <= i < j < |r| ensures r[i] != r[j] && multiset(tags)[r[i]] >= multiset(tags)[r[j]] {
      assert top[i] in top && top[j] in top;
      TopKeywordsDistinct(tags, i, j);
    }
  }

  /** A tag left out occurs no more often than any tag kept. */
  lemma TagPatternsDominate(videos: seq<Option<seq<string>>>, t: string)
    requires t in AllTags(videos) && t !in TagPatterns(videos)
    ensures forall u :: u in TagPatterns(videos) ==> multiset(AllTags(videos))[u] >= multiset(AllTags(videos))[t]
  {
    var tags := AllTags(videos);
    var top := YoutubeTools.TopKeywords(tags);
    var r := TagPatterns(videos);
    forall k | 0 <= k < |top| ensures top[k] != (t, multiset(tags)[t]) {
      assert r[k] in r;
    }
    YoutubeTools.TopKeywordsDominate(tags, t);
    YoutubeTools.TopKeywordsRanked(tags);
    forall u | u in r ensures multiset(tags)[u] >= multiset(tags)[t] {
      var k :| 0 <= k < |r| && r[k] == u;
      assert top[k] in top;
    }
  }

  /** Two entries of `top_keywords` never name the same word. */
  lemma TopKeywordsDistinct(ws: seq<string>, i: nat, j: nat)
    requires i < j < |YoutubeTools.TopKeywords(ws)|
    ensures YoutubeTools.TopKeywords(ws)[i].0 != YoutubeTools.TopKeywords(ws)[j].0
  {
    var ks := KeysOf(ws, YoutubeTools.Same);
    var counts := YoutubeTools.CountsFor(ws, ks);
    var sorted := SortDesc(counts, PairCount);
    var top := YoutubeTools.TopKeywords(ws);
    YoutubeTools.TopKeywordsRanked(ws);
    if top[i].0 == top[j].0 {
      assert top[i] in top && top[j] in top;
      assert top[i] == top[j];
      RepeatedCount(top, i, j);
      assert sorted == top + sorted[|top|..];
      assert multiset(sorted)[top[i]] >= 2;
      DistinctCount(counts, top[i]);
      assert false;
    }
  }

  // ---------------------------------------------------------------------------
  // Posting frequency
  // ---------------------------------------------------------------------------

  const DefaultFrequency: string := "週2-3本"

  /** Microseconds in a day: `timedelta.days` is the floor of a difference in these units. */
  const DayMicros: int := 86_400_000_000

  /**
   * The publish times that parse, in order.  `stamp` is `None` when `published_at` is missing
   * or not a string; `parse` stands for `datetime.fromisoformat` after 'Z' is rewritten, and
   * gives microseconds since the epoch.
   */
  function ParsedDates(stamps: seq<Option<string>>, parse: string -> Option<int>): seq<int>
  {
    if stamps == [] then []
    else
      ParsedDates(stamps[..|stamps| - 1], parse)
      + match stamps[|stamps| - 1]
        case None => []
        case Some(s) => (match parse(s) case None => [] case Some(t) => [t])
  }

  /** Whole days from `later` back to `earlier`, floored as `timedelta.days` is. */
  function DaysBetween(later: int, earlier: int): int
  {
    (later - earlier) / DayMicros
  }

  /** The gaps between neighbouring dates, keeping only those strictly between 0 and 30 days. */
  function Intervals(dates: seq<int>): (r: seq<int>)
    ensures forall d :: d in r ==> 0 < d < 30
  {
    if |dates| < 2 then []
    else
      var n := |dates|;
      var d := DaysBetween(dates[n - 2], dates[n - 1]);
      Intervals(dates[..n - 1]) + (if 0 < d < 30 then [d] else [])
  }

  function Day(d: int): int { d }

  /** The label for an average gap of `total / count` days, compared without division. */
  function FrequencyLabel(total: int, count: int): string
  {
    if total < 3 * count then "毎日または隔日"
    else if total < 5 * count then "週3-4本"
    else if total < 8 * count then "週2本"
    else "週1本"
  }

  /** `_calculate_optimal_frequency`. */
  function OptimalFrequency(stamps: seq<Option<string>>, parse: string -> Option<int>): string
  {
    var dates := ParsedDates(stamps, parse);
    var gaps := Intervals(dates);
    if |dates| < 2 || gaps == [] then DefaultFrequency
    else FrequencyLabel(Sum(gaps, Day), |gaps|)
  }

  /** The two loops of `_calculate_optimal_frequency`: parse the dates, then collect the gaps. */
  method CalculateOptimalFrequency(stamps: seq<Option<string>>, parse: string -> Option<int>) returns (r: string)
    ensures r == OptimalFrequency(stamps, parse)
  {
    if |stamps| == 0 {
      return DefaultFrequency;
    }
    var dates: seq<int> := [];
    for i := 0 to |stamps|
      invariant dates == ParsedDates(stamps[..i], parse)
    {
      assert stamps[..i + 1][..i] == stamps[..i];
      match stamps[i]
      case None =>
      case Some(s) =>
        match parse(s)
        case None =>
        case Some(t) =>
          dates := dates + [t];
    }
    assert stamps[..|stamps|] == stamps;
    if |dates| < 2 {
      return DefaultFrequency;
    }
    var gaps: seq<int> := [];
    var total := 0;
    for i := 1 to |dates|
      invariant gaps == Intervals(dates[..i])
      invariant total == Sum(gaps, Day)
    {
      assert dates[..i + 1][..i] == dates[..i];
      var d := DaysBetween(dates[i - 1], dates[i]);
      if 0 < d < 30 {
        assert (gaps + [d])[..|gaps|] == gaps;
        gaps := gaps + [d];
        total := total + d;
      }
    }
    assert dates[..|dates|] == dates;
    if gaps == [] {
      return DefaultFrequency;
    }
    r := FrequencyLabel(total, |gaps|);
  }

  /**
   * The default answer comes exactly when fewer than two dates parse or no gap is between 0
   * and 30 days; gaps all under 3 days give the daily label, gaps all of 8 days or more the
   * weekly one.
   */
  lemma FrequencyThresholds(stamps: seq<Option<string>>, parse: string -> Option<int>)
    ensures var dates := ParsedDates(stamps, parse);
      var gaps := Intervals(dates);
      var r := OptimalFrequency(stamps, parse);
      (r == DefaultFrequency <==> |dates| < 2 || gaps == [])
      && (gaps != [] && (forall d :: d in gaps ==> d < 3) ==> r == "毎日または隔日")
      && (gaps != [] && (forall d :: d in gaps ==> d >= 8) ==> r == "週1本")
  {
    var dates := ParsedDates(stamps, parse);
    var gaps := Intervals(dates);
    if gaps != [] {
      assert |dates| >= 2;
      if forall d :: d in gaps ==> d < 3 {
        SumBounds(gaps, Day, 1, 3);
      }
      if forall d :: d in gaps ==> d >= 8 {
        SumBounds(gaps, Day, 8, 30);
      }
    }
  }
}
