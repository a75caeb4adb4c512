/**
 * The three readers of the time part of an ISO 8601 duration (`PT#H#M#S`, the designator
 * format of section 4.4.3.2 of ISO 8601:2004) found in the YouTube tools:
 *   - `youtube_tools._parse_duration`: seconds, each component found by `re.search`;
 *   - `youtube_ai_tools._parse_duration_to_seconds`: seconds, one anchored `re.match`;
 *   - `youtube_channel_tools._parse_duration`: a 時間/分/秒 rendering of the same match.
 * The regular expressions are written out as the scans they perform.
 */
module Duration {
  import opened Seqs
  import opened Text

  /** Length of the maximal run of digits that `s` starts with (the greedy `\d+`). */
  function Run(s: string): (n: nat)
    ensures n <= |s|
    ensures AllDigits(s[..n])
    ensures n == |s| || !IsDigit(s[n])
  {
    if s != [] && IsDigit(s[0]) then
      var n := 1 + Run(s[1..]);
      assert forall k :: 1 <= k < n ==> s[..n][k] == s[1..][..n - 1][k - 1];
      n
    else 0
  }

  /** `(\d+)u` matches at the start of `s`: a non-empty digit run followed by the designator `u`. */
  predicate UnitAt(s: string, u: char)
  {
    0 < Run(s) < |s| && s[Run(s)] == u
  }

  /** The digits `re.search(r'(\d+)u', s)` captures: the leftmost place where the pattern matches. */
  function Search(s: string, u: char): (r: Option<string>)
    ensures r.Some? ==> u in s && r.value != [] && AllDigits(r.value)
  {
    if s == [] then None
    else if UnitAt(s, u) then Some(s[..Run(s)])
    else
      var r := Search(s[1..], u);
      assert r.Some? ==> u in s by {
        if r.Some? {
          var i :| 0 <= i < |s[1..]| && s[1..][i] == u;
          assert s[i + 1] == u;
        }
      }
      r
  }

  /** One component of `youtube_tools._parse_duration`: 0 unless the designator occurs and the search matches. */
  function SearchComponent(s: string, u: char): nat
  {
    if u in s then
      match Search(s, u)
      case Some(x) => DigitsValue(x)
      case None => 0
    else 0
  }

  /** `youtube_tools._parse_duration`. */
  function ParseDuration(d: string): (r: nat)
    ensures !StartsWith(d, "PT") ==> r == 0
  {
    if !StartsWith(d, "PT") then 0
    else
      var s := d[2..];
      SearchComponent(s, 'H') * 3600 + SearchComponent(s, 'M') * 60 + SearchComponent(s, 'S')
  }

  /**
   * One optional group `(?:(\d+)u)?` of an anchored match at the start of `s`: the captured
   * digits, if the group takes part, and the text matching continues on.
   */
  function OptionalGroup(s: string, u: char): (r: (Option<string>, string))
    ensures r.0.Some? ==> r.0.value != [] && AllDigits(r.0.value)
    ensures r.0.None? ==> r.1 == s
  {
    if UnitAt(s, u) then
      var n := Run(s);
      (Some(s[..n]), s[n + 1..])
    else (None, s)
  }

  /** The three capture groups of `re.match(r'PT(?:(\d+)H)?(?:(\d+)M)?(?:(\d+)S)?', d)`. */
  datatype Groups = Groups(hours: Option<string>, minutes: Option<string>, seconds: Option<string>)

  /**
   * The anchored match: it succeeds exactly when `d` starts with "PT", since every group is
   * optional, and it ignores whatever follows the last group it could take.
   */
  function MatchGroups(d: string): (r: Option<Groups>)
    ensures r.Some? <==> StartsWith(d, "PT")
  {
    if !StartsWith(d, "PT") then None
    else
      var h := OptionalGroup(d[2..], 'H');
      var m := OptionalGroup(h.1, 'M');
      var sec := OptionalGroup(m.1, 'S');
      Some(Groups(h.0, m.0, sec.0))
  }

  /** `int(g) * scale` when the group is present (a captured group is never empty, so always truthy). */
  function GroupSeconds(g: Option<string>, scale: nat): nat
  {
    match g
    case Some(x) => if AllDigits(x) then DigitsValue(x) * scale else 0
    case None => 0
  }

  /** `youtube_ai_tools._parse_duration_to_seconds`. */
  function ParseDurationToSeconds(d: string): (r: nat)
    ensures !StartsWith(d, "PT") ==> r == 0
  {
    match MatchGroups(d)
    case None => 0
    case Some(g) => GroupSeconds(g.hours, 3600) + GroupSeconds(g.minutes, 60) + GroupSeconds(g.seconds, 1)
  }

  function GroupText(g: Option<string>, unit: string): string
  {
    match g
    case Some(x) => x + unit
    case None => ""
  }

  /** `youtube_channel_tools._parse_duration`. */
  function ParseDurationText(d: string): (r: string)
    ensures !StartsWith(d, "PT") ==> r == d
    ensures StartsWith(d, "PT") ==> r != ""
  {
    match MatchGroups(d)
    case None => d
    case Some(g) =>
      var parts := GroupText(g.hours, "時間") + GroupText(g.minutes, "分") + GroupText(g.seconds, "秒");
      if parts == "" then "0秒" else parts
  }

  // ---------------------------------------------------------------------------
  // Canonical durations: what every reader agrees on
  // ---------------------------------------------------------------------------

  /** A component written as its decimal number and designator, or left out. */
  function Field(v: Option<nat>, u: char): string
  {
    match v
    case Some(n) => NatToString(n) + [u]
    case None => ""
  }

  /** The duration `PT[hH][mM][sS]` as YouTube writes it. */
  function Canonical(h: Option<nat>, m: Option<nat>, sec: Option<nat>): string
  {
    "PT" + (Field(h, 'H') + (Field(m, 'M') + Field(sec, 'S')))
  }

  function Seconds(v: Option<nat>, scale: nat): nat
  {
    match v
    case Some(n) => n * scale
    case None => 0
  }

  function Rendered(v: Option<nat>, unit: string): string
  {
    match v
    case Some(n) => NatToString(n) + unit
    case None => ""
  }

  function Digits(v: Option<nat>): Option<string>
  {
    match v
    case Some(n) => Some(NatToString(n))
    case None => None
  }

  predicate IsDesignator(u: char) { u == 'H' || u == 'M' || u == 'S' }

  /** A digit run ends at the first non-digit. */
  lemma {:induction false} RunOf(ds: string, u: char, rest: string)
    requires AllDigits(ds) && !IsDigit(u)
    ensures Run(ds + [u] + rest) == |ds|
  {
    if ds != [] {
      assert (ds + [u] + rest)[1..] == ds[1..] + [u] + rest;
      RunOf(ds[1..], u, rest);
    }
  }

  /** At a digit run ending in designator `u'` the group for `u` matches iff `u == u'`, capturing the run. */
  lemma GroupAt(ds: string, u': char, rest: string, u: char)
    requires AllDigits(ds) && ds != [] && IsDesignator(u')
    ensures OptionalGroup(ds + [u'] + rest, u) == if u == u' then (Some(ds), rest) else (None, ds + [u'] + rest)
  {
    var s := ds + [u'] + rest;
    RunOf(ds, u', rest);
    assert s[|ds|] == u';
    assert s[..|ds|] == ds;
    assert s[|ds| + 1..] == rest;
  }

  /** At a field for designator `u'` the group for `u` matches iff `u == u'`, capturing the field's digits. */
  lemma GroupAtField(n: nat, u': char, rest: string, u: char)
    requires IsDesignator(u')
    ensures OptionalGroup(Field(Some(n), u') + rest, u) == if u == u' then (Some(NatToString(n)), rest) else (None, Field(Some(n), u') + rest)
  {
    GroupAt(NatToString(n), u', rest, u);
  }

  /** The search for `u` walks past a digit run that ends in another designator. */
  lemma {:induction false} SearchSkips(ds: string, u': char, rest: string, u: char)
    requires AllDigits(ds) && IsDesignator(u') && IsDesignator(u) && u != u'
    ensures Search(ds + [u'] + rest, u) == Search(rest, u)
  {
    var s := ds + [u'] + rest;
    RunOf(ds, u', rest);
    assert s[|ds|] == u';
    if ds != [] {
      assert s[1..] == ds[1..] + [u'] + rest;
      SearchSkips(ds[1..], u', rest, u);
    } else {
      assert s[1..] == rest;
    }
  }

  /** The search for `u` stops at the first digit run that ends in `u`. */
  lemma SearchFinds(ds: string, u: char, rest: string)
    requires AllDigits(ds) && ds != [] && IsDesignator(u)
    ensures Search(ds + [u] + rest, u) == Some(ds)
  {
    var s := ds + [u] + rest;
    RunOf(ds, u, rest);
    assert s[|ds|] == u;
    assert s[..|ds|] == ds;
  }

  /** The search for `u` over one canonical field, present or absent. */
  lemma SearchField(v: Option<nat>, u': char, rest: string, u: char)
    requires IsDesignator(u') && IsDesignator(u)
    ensures u == u' && v.Some? ==> Search(Field(v, u') + rest, u) == Digits(v)
    ensures u != u' || v.None? ==> Search(Field(v, u') + rest, u) == Search(rest, u)
  {
    if v.Some? {
      assert Field(v, u') + rest == NatToString(v.value) + [u'] + rest;
      if u == u' {
        SearchFinds(NatToString(v.value), u, rest);
      } else {
        SearchSkips(NatToString(v.value), u', rest, u);
      }
    } else {
      assert Field(v, u') + rest == rest;
    }
  }

  function Component(r: Option<string>): nat
  {
    match r
    case Some(x) => if AllDigits(x) then DigitsValue(x) else 0
    case None => 0
  }

  lemma SearchComponentIs(s: string, u: char)
    ensures SearchComponent(s, u) == Component(Search(s, u))
  {
  }

  /**
   * On the canonical form every reader agrees: both parsers return 3600·h + 60·m + s with
   * absent components counting 0, and the renderer shows the present components in order.
   */
  lemma CanonicalReadsBack(h: Option<nat>, m: Option<nat>, sec: Option<nat>)
    ensures ParseDurationToSeconds(Canonical(h, m, sec)) == Seconds(h, 3600) + Seconds(m, 60) + Seconds(sec, 1)
    ensures ParseDuration(Canonical(h, m, sec)) == Seconds(h, 3600) + Seconds(m, 60) + Seconds(sec, 1)
    ensures var parts := Rendered(h, "時間") + Rendered(m, "分") + Rendered(sec, "秒");
      ParseDurationText(Canonical(h, m, sec)) == if parts == "" then "0秒" else parts
  {
    AnchoredReadsBack(h, m, sec);
    SearchReadsBack(h, m, sec);
    var g := Groups(Digits(h), Digits(m), Digits(sec));
    assert GroupSeconds(g.hours, 3600) == Seconds(h, 3600);
    assert GroupSeconds(g.minutes, 60) == Seconds(m, 60);
    assert GroupSeconds(g.seconds, 1) == Seconds(sec, 1);
    assert GroupText(g.hours, "時間") == Rendered(h, "時間");
    assert GroupText(g.minutes, "分") == Rendered(m, "分");
    assert GroupText(g.seconds, "秒") == Rendered(sec, "秒");
  }

  /** The seconds group over the last canonical field. */
  lemma AnchoredSeconds(sec: Option<nat>)
    ensures OptionalGroup(Field(sec, 'S'), 'S').0 == Digits(sec)
  {
    if sec.Some? {
      assert Field(sec, 'S') == Field(sec, 'S') + "";
      GroupAtField(sec.value, 'S', "", 'S');
    }
  }

  /** The minutes group over the last two canonical fields. */
  lemma AnchoredMinutes(m: Option<nat>, sec: Option<nat>)
    ensures OptionalGroup(Field(m, 'M') + Field(sec, 'S'), 'M') == (Digits(m), Field(sec, 'S'))
  {
    if m.Some? {
      GroupAtField(m.value, 'M', Field(sec, 'S'), 'M');
    } else if sec.Some? {
      var f := Field(Some(sec.value), 'S');
      assert Field(m, 'M') + Field(sec, 'S') == f + "" == f;
      GroupAtField(sec.value, 'S', "", 'M');
      assert OptionalGroup(f + "", 'M') == (None, f + "");
      assert OptionalGroup(f, 'M') == (None, f);
    } else {
      assert Field(m, 'M') + Field(sec, 'S') == "";
      assert !UnitAt("", 'M');
    }
  }

  /** The hours group over all three canonical fields. */
  lemma AnchoredHours(h: Option<nat>, m: Option<nat>, sec: Option<nat>)
    ensures OptionalGroup(Field(h, 'H') + (Field(m, 'M') + Field(sec, 'S')), 'H') == (Digits(h), Field(m, 'M') + Field(sec, 'S'))
  {
    var tail := Field(m, 'M') + Field(sec, 'S');
    if h.Some? {
      GroupAtField(h.value, 'H', tail, 'H');
    } else if m.Some? {
      var f := Field(Some(m.value), 'M') + Field(sec, 'S');
      assert Field(h, 'H') + tail == f == tail;
      GroupAtField(m.value, 'M', Field(sec, 'S'), 'H');
      assert OptionalGroup(f, 'H') == (None, f);
    } else if sec.Some? {
      var f := Field(Some(sec.value), 'S');
      assert Field(h, 'H') + tail == f + "" == f;
      GroupAtField(sec.value, 'S', "", 'H');
      assert OptionalGroup(f + "", 'H') == (None, f + "");
      assert OptionalGroup(f, 'H') == (None, f);
      assert Field(m, 'M') == "" && Field(h, 'H') == "";
      assert tail == f;
    } else {
      assert Field(h, 'H') + tail == "";
      assert !UnitAt("", 'H');
    }
  }

  lemma CanonicalTail(h: Option<nat>, m: Option<nat>, sec: Option<nat>)
    ensures StartsWith(Canonical(h, m, sec), "PT")
    ensures Canonical(h, m, sec)[2..] == Field(h, 'H') + (Field(m, 'M') + Field(sec, 'S'))
  {
    var t := Field(h, 'H') + (Field(m, 'M') + Field(sec, 'S'));
    var c := "PT" + t;
    assert c[..2] == "PT";
    assert c[2..] == t;
  }

  /** The anchored match takes the three groups one after the other. */
  lemma MatchSteps(d: string)
    requires StartsWith(d, "PT")
    ensures var g1 := OptionalGroup(d[2..], 'H');
      var g2 := OptionalGroup(g1.1, 'M');
      MatchGroups(d) == Some(Groups(g1.0, g2.0, OptionalGroup(g2.1, 'S').0))
  {
  }

  /** The anchored match captures exactly the digits of the canonical fields. */
  lemma AnchoredReadsBack(h: Option<nat>, m: Option<nat>, sec: Option<nat>)
    ensures MatchGroups(Canonical(h, m, sec)) == Some(Groups(Digits(h), Digits(m), Digits(sec)))
  {
    var d := Canonical(h, m, sec);
    CanonicalTail(h, m, sec);
    MatchSteps(d);
    AnchoredHours(h, m, sec);
    AnchoredMinutes(m, sec);
    AnchoredSeconds(sec);
  }

  /** The search finds each canonical field's digits wherever the field stands, and nothing for an absent one. */
  lemma SearchReadsBack(h: Option<nat>, m: Option<nat>, sec: Option<nat>)
    ensures ParseDuration(Canonical(h, m, sec)) == Seconds(h, 3600) + Seconds(m, 60) + Seconds(sec, 1)
  {
    var fh, fm, fs := Field(h, 'H'), Field(m, 'M'), Field(sec, 'S');
    var s := Canonical(h, m, sec)[2..];
    assert s == fh + (fm + (fs + ""));
    assert Search("", 'H') == None && Search("", 'M') == None && Search("", 'S') == None;
    SearchField(h, 'H', fm + (fs + ""), 'H');
    SearchField(m, 'M', fs + "", 'H');
    SearchField(sec, 'S', "", 'H');
    SearchField(h, 'H', fm + (fs + ""), 'M');
    SearchField(m, 'M', fs + "", 'M');
    SearchField(sec, 'S', "", 'M');
    SearchField(h, 'H', fm + (fs + ""), 'S');
    SearchField(m, 'M', fs + "", 'S');
    SearchField(sec, 'S', "", 'S');
    SearchComponentIs(s, 'H');
    SearchComponentIs(s, 'M');
    SearchComponentIs(s, 'S');
  }

  // ---------------------------------------------------------------------------
  // Concrete behaviour
  // ---------------------------------------------------------------------------

  lemma SmallNumerals()
    ensures NatToString(0) == "0" && NatToString(1) == "1" && NatToString(2) == "2" && NatToString(3) == "3"
    ensures NatToString(5) == "5" && NatToString(10) == "10" && NatToString(30) == "30" && NatToString(45) == "45"
  {
    assert NatToString(10) == NatToString(1) + [DigitChar(0)];
    assert NatToString(30) == NatToString(3) + [DigitChar(0)];
    assert NatToString(45) == NatToString(4) + [DigitChar(5)];
  }

  /** The canonical spellings of the durations the repository's own tests use. */
  lemma CanonicalSpellings()
    ensures Canonical(Some(1), Some(2), Some(3)) == "PT1H2M3S"
    ensures Canonical(None, Some(5), Some(30)) == "PT5M30S"
    ensures Canonical(None, Some(10), None) == "PT10M"
  {
    SmallNumerals();
    assert Field(Some(1), 'H') == "1H" && Field(Some(2), 'M') == "2M" && Field(Some(3), 'S') == "3S";
    assert Field(None, 'H') == "" && Field(Some(5), 'M') == "5M" && Field(Some(30), 'S') == "30S";
    assert Field(Some(10), 'M') == "10M" && Field(None, 'S') == "";
  }

  /** A value the repository's own tests expect of `youtube_tools._parse_duration`. */
  lemma Expected5M30S()
    ensures ParseDuration("PT5M30S") == 330
  {
    SearchReadsBack(None, Some(5), Some(30));
    CanonicalSpellings();
  }

  /** A value the repository's own tests expect of `youtube_tools._parse_duration`. */
  lemma Expected1H2M3S()
    ensures ParseDuration("PT1H2M3S") == 3723
  {
    SearchReadsBack(Some(1), Some(2), Some(3));
    CanonicalSpellings();
  }

  /** A value the repository's own tests expect of `youtube_tools._parse_duration`. */
  lemma Expected45S()
    ensures ParseDuration("PT45S") == 45
  {
    SmallNumerals();
    SearchReadsBack(None, None, Some(45));
    assert Canonical(None, None, Some(45)) == "PT45S";
  }

  /** A value the repository's own tests expect of `youtube_tools._parse_duration`. */
  lemma Expected10M()
    ensures ParseDuration("PT10M") == 600
  {
    SearchReadsBack(None, Some(10), None);
    CanonicalSpellings();
  }

  /** A value the repository's own tests expect of `youtube_tools._parse_duration`. */
  lemma Expected2H()
    ensures ParseDuration("PT2H") == 7200
  {
    SmallNumerals();
    SearchReadsBack(Some(2), None, None);
    assert Canonical(Some(2), None, None) == "PT2H";
  }

  /** A value the repository's own tests expect of `youtube_tools._parse_duration`. */
  lemma Expected0S()
    ensures ParseDuration("PT0S") == 0
  {
    SmallNumerals();
    SearchReadsBack(None, None, Some(0));
    assert Canonical(None, None, Some(0)) == "PT0S";
  }

  /** The malformed input the repository's own tests use. */
  lemma ExpectedInvalid()
    ensures ParseDuration("invalid") == 0
  {
    assert "invalid"[0] != "PT"[0];
  }

  /**
   * Out of canonical order the readers part ways: the search finds the hours wherever they
   * are ...
   */
  lemma OutOfOrderSearched()
    ensures ParseDuration("PT30M1H") == 5400
  {
    var h, m := "1", "30";
    var rest := h + ['H'] + "";
    var s := m + ['M'] + rest;
    OutOfOrderSpelling();
    assert ("PT" + s)[2..] == s;
    SmallDigits();
    SearchSkips(m, 'M', rest, 'H');
    SearchFinds(h, 'H', "");
    SearchFinds(m, 'M', rest);
    SearchSkips(m, 'M', rest, 'S');
    SearchSkips(h, 'H', "", 'S');
    assert Search("", 'S') == None;
  }

  /** The out-of-order example, spelled as its parts. */
  lemma OutOfOrderSpelling()
    ensures "PT30M1H" == "PT" + ("30" + ['M'] + ("1" + ['H'] + ""))
  {
  }

  /** The digit strings of the out-of-order example and their values. */
  lemma SmallDigits()
    ensures AllDigits("1") && DigitsValue("1") == 1
    ensures AllDigits("30") && DigitsValue("30") == 30
  {
    assert "1"[..0] == "";
    assert "30"[..1] == "3" && "3"[..0] == "";
  }

  /** ... while the anchored match stops at the first group out of place ... */
  lemma OutOfOrderGroups()
    ensures MatchGroups("PT30M1H") == Some(Groups(None, Some("30"), None))
  {
    var h, m := "1", "30";
    var rest := h + ['H'] + "";
    var s := m + ['M'] + rest;
    OutOfOrderSpelling();
    assert ("PT" + s)[2..] == s;
    MatchSteps("PT" + s);
    SmallDigits();
    GroupAt(m, 'M', rest, 'H');
    GroupAt(m, 'M', rest, 'M');
    GroupAt(h, 'H', "", 'S');
  }

  /** ... so both users of the anchored match see the minutes alone. */
  lemma OutOfOrderAnchored()
    ensures ParseDurationToSeconds("PT30M1H") == 1800
    ensures ParseDurationText("PT30M1H") == "30分"
  {
    OutOfOrderGroups();
    assert DigitsValue("30") == 30 by { assert "30"[..1] == "3"; }
  }

  /** The renderer keeps the digits as written, where the parsers read their value. */
  lemma DigitsKeptVerbatim()
    ensures ParseDurationText("PT05M") == "05分"
    ensures ParseDurationToSeconds("PT05M") == 300
    ensures ParseDurationText("PT") == "0秒"
    ensures ParseDurationText("P1D") == "P1D"
  {
    assert "P1D"[1] != "PT"[1];
    assert "PT05M"[2..] == "05" + ['M'] + "";
    RunOf("05", 'M', "");
    assert DigitsValue("05") == 5 by { assert "05"[..1] == "0"; }
    assert OptionalGroup("05" + ['M'] + "", 'H') == (None, "05M");
    assert "05" + ['M'] + "" == "05M";
    assert "05M"[..2] == "05" && "05M"[3..] == "";
    assert OptionalGroup("05M", 'M') == (Some("05"), "");
    assert "PT"[2..] == "";
  }
}
