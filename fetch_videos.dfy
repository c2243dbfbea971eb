/**
 * The YouTube fetcher (supabase/functions/fetch-videos/index.ts): one search
 * request, one statistics request for the ids it returned, and one video per
 * search result. A 403 that reports `quotaExceeded` answers with the curated
 * list instead.
 *
 * The engagement score (`Math.log10` on floating point) and the `toFixed`
 * rendering of view and like counts are inputs, as are the curated list and
 * today's date; the requests are their outcomes.
 */
module FetchVideos {
  import opened Wrappers
  import opened Strings
  import opened Seqs
  import opened ContentModel
  import opened Numbers
  import ContentDetail

  // ---------------------------------------------------------------------
  // `parseDuration`: `/PT(?:(\d+)H)?(?:(\d+)M)?(?:(\d+)S)?/`
  // ---------------------------------------------------------------------

  const DefaultDuration := "10 min"

  /** The end of the run of decimal digits that starts at `i`. */
  function DigitEnd(s: string, i: nat): (e: nat)
    requires i <= |s|
    ensures i <= e <= |s|
    decreases |s| - i
  {
    if i == |s| || !IsDigit(s[i]) then i else DigitEnd(s, i + 1)
  }

  /** The decimal value of the digits in `s[i..e]`, a non-digit counting 0. */
  function ValueOf(s: string, i: nat, e: nat): nat
    requires i <= e <= |s|
    decreases e - i
  {
    if e == i then 0
    else ValueOf(s, i, e - 1) * 10 + (if IsDigit(s[e - 1]) then DigitValue(s[e - 1]) else 0)
  }

  /** Digits copied into `s` at `i` have the value they have on their own. */
  lemma {:induction false} ValueOfIs(s: string, i: nat, d: string)
    requires i + |d| <= |s| && forall k :: 0 <= k < |d| ==> IsDigit(d[k])
    requires forall k :: 0 <= k < |d| ==> s[i + k] == d[k]
    ensures ValueOf(s, i, i + |d|) == DigitsValue(d)
    decreases |d|
  {
    if d != [] {
      var n := |d| - 1;
      assert s[i + n] == d[n];
      ValueOfIs(s, i, d[..n]);
    }
  }

  /**
   * The optional group `(?:(\d+)<unit>)?` tried at `i`: the number and the
   * position after the unit letter when digits followed by `unit` stand
   * there, else 0 and `i` (the group is skipped). A shorter run of digits is
   * followed by a digit, never by the unit, so backtracking finds nothing else.
   */
  function Component(s: string, i: nat, unit: char): (r: (nat, nat))
    requires i <= |s|
    ensures i <= r.1 <= |s|
  {
    var e := DigitEnd(s, i);
    if i < e < |s| && s[e] == unit then (ValueOf(s, i, e), e + 1) else (0, i)
  }

  /**
   * `parseDuration`: no duration, or no `PT` in it, gives `'10 min'`; otherwise
   * the hours, minutes and seconds after the first `PT`, a missing one
   * counting 0, come to `hours * 60 + minutes + ceil(seconds / 60)` minutes.
   */
  function ParseDuration(duration: Option<string>): (r: string)
  {
    if duration.None? || duration.value == "" then DefaultDuration
    else
      var s := duration.value;
      match FindFrom(s, "PT", 0)
      case None => DefaultDuration
      case Some(p) => NatToString(MinutesFrom(s, p)) + " min"
  }

  /** The hours, minutes and seconds after the `PT` at `p`, in minutes, the seconds rounded up. */
  function MinutesFrom(s: string, p: nat): nat
    requires p + 2 <= |s|
  {
    var h := Component(s, p + 2, 'H');
    var m := Component(s, h.1, 'M');
    var sec := Component(s, m.1, 'S');
    h.0 * 60 + m.0 + CeilDiv(sec.0, 60)
  }

  /** A non-empty run of decimal digits, as `\d+` matches. */
  predicate Digits(d: string) {
    d != [] && forall k :: 0 <= k < |d| ==> IsDigit(d[k])
  }

  /**
   * A duration written out in full, `PT<h>H<m>M<s>S`, reads back as its
   * length in minutes, the seconds rounded up to a whole minute.
   */
  lemma DurationOfParts(hd: string, md: string, sd: string)
    requires Digits(hd) && Digits(md) && Digits(sd)
    ensures ParseDuration(Some("PT" + hd + "H" + md + "M" + sd + "S"))
      == NatToString(DigitsValue(hd) * 60 + DigitsValue(md) + CeilDiv(DigitsValue(sd), 60)) + " min"
  {
    IsoLaidOut(hd, md, sd);
    DurationAt("PT" + hd + "H" + md + "M" + sd + "S", hd, md, sd);
  }

  /** `s` is `PT<hd>H<md>M<sd>S`, piece by piece. */
  predicate LaidOut(s: string, hd: string, md: string, sd: string) {
    var a, b := |hd| + 3, |hd| + |md| + 4;
    && |s| == b + |sd| + 1
    && s[0] == 'P' && s[1] == 'T' && s[a - 1] == 'H' && s[b - 1] == 'M' && s[|s| - 1] == 'S'
    && s[2..a - 1] == hd && s[a..b - 1] == md && s[b..|s| - 1] == sd
  }

  lemma IsoLaidOut(hd: string, md: string, sd: string)
    ensures LaidOut("PT" + hd + "H" + md + "M" + sd + "S", hd, md, sd)
  {
    var s := "PT" + hd + "H" + md + "M" + sd + "S";
    var a, b := |hd| + 3, |hd| + |md| + 4;
    assert s == "PT" + hd + ("H" + md + "M" + sd + "S");
    assert s[2..a - 1] == hd;
    assert s[a..] == md + ("M" + sd + "S");
    assert s[a..b - 1] == md;
    assert s[b..] == sd + "S";
    assert s[b..|s| - 1] == sd;
  }

  /** Any text laid out that way reads back as the same minutes. */
  lemma DurationAt(s: string, hd: string, md: string, sd: string)
    requires Digits(hd) && Digits(md) && Digits(sd) && LaidOut(s, hd, md, sd)
    ensures ParseDuration(Some(s)) == NatToString(DigitsValue(hd) * 60 + DigitsValue(md) + CeilDiv(DigitsValue(sd), 60)) + " min"
  {
    ComponentsAt(s, hd, md, sd, DigitsValue(hd), DigitsValue(md), DigitsValue(sd));
    ParsedFrom(s, DigitsValue(hd), DigitsValue(md), DigitsValue(sd), |hd| + 3, |hd| + |md| + 4);
  }

  /** Laid out that way, `PT` is found at 0 and each component reads its digits. */
  lemma ComponentsAt(s: string, hd: string, md: string, sd: string, h: nat, m: nat, sec: nat)
    requires Digits(hd) && Digits(md) && Digits(sd) && LaidOut(s, hd, md, sd)
    requires h == DigitsValue(hd) && m == DigitsValue(md) && sec == DigitsValue(sd)
    ensures FindFrom(s, "PT", 0) == Some(0)
    ensures Component(s, 2, 'H').0 == h && Component(s, 2, 'H').1 == |hd| + 3
    ensures Component(s, |hd| + 3, 'M').0 == m && Component(s, |hd| + 3, 'M').1 == |hd| + |md| + 4
    ensures Component(s, |hd| + |md| + 4, 'S').0 == sec
  {
    PTAtStart(s);
    ComponentAt(s, 2, hd, 'H', h);
    ComponentAt(s, |hd| + 3, md, 'M', m);
    ComponentAt(s, |hd| + |md| + 4, sd, 'S', sec);
  }

  lemma PTAtStart(s: string)
    requires 2 <= |s| && s[0] == 'P' && s[1] == 'T'
    ensures FindFrom(s, "PT", 0) == Some(0)
  {
    assert s[..2] == "PT";
    FindFromIs(s, "PT", 0, 0);
  }

  /** Once `PT` is found first at 0, the three components decide the result. */
  lemma ParsedFrom(s: string, h: nat, m: nat, sec: nat, p1: nat, p2: nat)
    requires FindFrom(s, "PT", 0) == Some(0)
    requires p1 <= |s| && p2 <= |s|
    requires Component(s, 2, 'H').0 == h && Component(s, 2, 'H').1 == p1
    requires Component(s, p1, 'M').0 == m && Component(s, p1, 'M').1 == p2
    requires Component(s, p2, 'S').0 == sec
    ensures ParseDuration(Some(s)) == NatToString(h * 60 + m + CeilDiv(sec, 60)) + " min"
  {
    assert MinutesFrom(s, 0) == h * 60 + m + CeilDiv(sec, 60);
  }

  /** The digits `d` followed by `unit` at `i` are read as their value. */
  lemma ComponentAt(s: string, i: nat, d: string, unit: char, v: nat)
    requires Digits(d) && !IsDigit(unit) && v == DigitsValue(d)
    requires i + |d| < |s| && s[i..i + |d|] == d && s[i + |d|] == unit
    ensures DigitEnd(s, i) == i + |d|
    ensures Component(s, i, unit).0 == v && Component(s, i, unit).1 == i + |d| + 1
  {
    var e := i + |d|;
    forall k | 0 <= k < |d| ensures s[i + k] == d[k] {
      assert s[i..e][k] == d[k];
    }
    forall k | i <= k < e ensures IsDigit(s[k]) {
      assert s[i + (k - i)] == d[k - i];
    }
    DigitEndIs(s, i, e);
    ValueOfIs(s, i, d);
  }

  lemma {:induction false} DigitEndIs(s: string, i: nat, e: nat)
    requires i <= e <= |s| && (e < |s| ==> !IsDigit(s[e]))
    requires forall k :: i <= k < e ==> IsDigit(s[k])
    ensures DigitEnd(s, i) == e
    decreases e - i
  {
    if i < e {
      DigitEndIs(s, i + 1, e);
    }
  }

  /** Without `PT`, as in a duration counted in days (`P1DT2H`), the default. */
  lemma NoTimePartIsDefault(s: string)
    requires !Contains(s, "PT")
    ensures ParseDuration(Some(s)) == DefaultDuration
  {
    FindFromContains(s, "PT");
  }

  /** A missing component counts 0: `PT<m>M` is `m` minutes. */
  lemma MinutesOnly(md: string)
    requires Digits(md)
    ensures ParseDuration(Some("PT" + md + "M")) == NatToString(DigitsValue(md)) + " min"
  {
    var s := "PT" + md + "M";
    var e := 2 + |md|;
    PTAtStart(s);
    assert s[2..e] == md;
    ComponentAt(s, 2, md, 'M', DigitsValue(md));
    assert Component(s, 2, 'H').0 == 0 && Component(s, 2, 'H').1 == 2;
    assert Component(s, |s|, 'S').0 == 0;
    ParsedFrom(s, 0, DigitsValue(md), 0, 2, |s|);
  }

  // ---------------------------------------------------------------------
  // `extractTags` and `getDifficultyFromContent`
  // ---------------------------------------------------------------------

  /** How a possibly missing string prints inside a template literal. */
  function Shown(o: Option<string>): string {
    if o.Some? then o.value else "undefined"
  }

  /** `${title} ${description}`.toLowerCase(). */
  function SearchText(title: string, description: Option<string>): string {
    ToLower(title + " " + Shown(description))
  }

  const Keywords: seq<string> := ["AI", "Machine Learning", "Deep Learning", "Tutorial", "Python",
    "TensorFlow", "PyTorch", "GPT", "LLM", "Neural Network"]

  /** The keyword, lowercased, occurs in `content`. */
  function KeywordIn(content: string): string -> bool {
    (k: string) => Contains(content, ToLower(k))
  }

  /** `extractTags`: the keywords found in the title and description, in list order, at most 5. */
  function ExtractTags(title: string, description: Option<string>): (r: seq<string>)
    ensures |r| <= 5
  {
    TagsFrom(Keywords, SearchText(title, description))
  }

  /** The first five of `words` that occur, lowercased, in `content`. */
  function TagsFrom(words: seq<string>, content: string): (r: seq<string>)
    ensures |r| <= 5
  {
    Take(Filter(words, KeywordIn(content)), 5)
  }

  /**
   * The tags are keywords, in the keyword list's order, at most five, each
   * found in the text; with fewer than five, every keyword found is a tag.
   */
  lemma TagsMeaning(title: string, description: Option<string>)
    ensures var r, content := ExtractTags(title, description), SearchText(title, description);
      && |r| <= 5 && IsSubsequence(r, Keywords)
      && (forall k :: 0 <= k < |r| ==> Contains(content, ToLower(r[k])))
      && (|r| < 5 ==> forall w :: w in Keywords && Contains(content, ToLower(w)) ==> w in r)
  {
    TagsFromMeaning(Keywords, SearchText(title, description));
  }

  lemma TagsFromMeaning(words: seq<string>, content: string)
    ensures var r := TagsFrom(words, content);
      && IsSubsequence(r, words)
      && (forall k :: 0 <= k < |r| ==> Contains(content, ToLower(r[k])))
      && (|r| < 5 ==> forall w :: w in words && Contains(content, ToLower(w)) ==> w in r)
  {
    var f := KeywordIn(content);
    var all := Filter(words, f);
    FilterIsSubsequence(words, f);
    PrefixIsSubsequence(all, if 5 < |all| then 5 else |all|);
    SubsequenceTrans(TagsFrom(words, content), all, words);
    forall w | w in words && Contains(content, ToLower(w)) && |TagsFrom(words, content)| < 5
      ensures w in TagsFrom(words, content)
    {
      assert f(w);
    }
  }

  const BeginnerWords: seq<string> := ["beginner", "introduction", "basics", "getting started"]
  const AdvancedWords: seq<string> := ["advanced", "deep dive", "research", "architecture"]

  /** One of `words` occurs in `content`. */
  predicate AnyIn(content: string, words: seq<string>) {
    exists k :: 0 <= k < |words| && Contains(content, words[k])
  }

  /** `getDifficultyFromContent`: the beginner words are looked for first. */
  function DifficultyOf(title: string, description: Option<string>): Difficulty {
    var content := SearchText(title, description);
    if Contains(content, "beginner") || Contains(content, "introduction")
      || Contains(content, "basics") || Contains(content, "getting started") then Beginner
    else if Contains(content, "advanced") || Contains(content, "deep dive")
      || Contains(content, "research") || Contains(content, "architecture") then Advanced
    else Intermediate
  }

  /**
   * Beginner exactly when a beginner word occurs, whatever else does;
   * advanced exactly when an advanced word occurs and no beginner word.
   */
  lemma DifficultyMeaning(title: string, description: Option<string>)
    ensures var d, content := DifficultyOf(title, description), SearchText(title, description);
      && (d == Beginner <==> AnyIn(content, BeginnerWords))
      && (d == Advanced <==> !AnyIn(content, BeginnerWords) && AnyIn(content, AdvancedWords))
  {
    var content := SearchText(title, description);
    if AnyIn(content, BeginnerWords) {
      var k :| 0 <= k < |BeginnerWords| && Contains(content, BeginnerWords[k]);
      assert k == 0 || k == 1 || k == 2 || k == 3;
    }
    if AnyIn(content, AdvancedWords) {
      var k :| 0 <= k < |AdvancedWords| && Contains(content, AdvancedWords[k]);
      assert k == 0 || k == 1 || k == 2 || k == 3;
    }
    if Contains(content, "beginner") { assert Contains(content, BeginnerWords[0]); }
    if Contains(content, "introduction") { assert Contains(content, BeginnerWords[1]); }
    if Contains(content, "basics") { assert Contains(content, BeginnerWords[2]); }
    if Contains(content, "getting started") { assert Contains(content, BeginnerWords[3]); }
    if Contains(content, "advanced") { assert Contains(content, AdvancedWords[0]); }
    if Contains(content, "deep dive") { assert Contains(content, AdvancedWords[1]); }
    if Contains(content, "research") { assert Contains(content, AdvancedWords[2]); }
    if Contains(content, "architecture") { assert Contains(content, AdvancedWords[3]); }
  }

  // ---------------------------------------------------------------------
  // Statistics: `statsData.items?.reduce((acc, item) => { acc[item.id] = … }, {})`
  // ---------------------------------------------------------------------

  /** One item of the statistics reply. */
  datatype StatsItem = StatsItem(id: string, viewCount: Option<string>, likeCount: Option<string>, duration: Option<string>)

  /** What the accumulator records for a video. */
  datatype Stats = Stats(viewCount: nat, likeCount: nat, duration: Option<string>)

  /**
   * `parseInt(x || '0')` on a count, with `NaN` read as 0 by the later
   * `|| 0`: the leading decimal digits after any white space, or 0.
   */
  function Count(x: Option<string>): nat {
    var s := if x.None? || x.value == "" then "0" else x.value;
    var t := TrimStart(s);
    ValueOf(t, 0, DigitEnd(t, 0))
  }

  function StatsOf(item: StatsItem): Stats {
    Stats(Count(item.viewCount), Count(item.likeCount), item.duration)
  }

  /** The accumulator after the items, each one overwriting an earlier entry with its id. */
  function StatsMap(items: seq<StatsItem>): map<string, Stats>
    decreases |items|
  {
    if items == [] then map[]
    else StatsMap(items[..|items| - 1])[items[|items| - 1].id := StatsOf(items[|items| - 1])]
  }

  /** `items[k]` is the last item with this id. */
  predicate LastWith(items: seq<StatsItem>, k: nat, id: string) {
    k < |items| && items[k].id == id && forall j :: k < j < |items| ==> items[j].id != id
  }

  /** An id has an entry exactly when some item carries it. */
  lemma {:induction false} StatsMapHas(items: seq<StatsItem>, id: string)
    ensures id in StatsMap(items) <==> exists k :: 0 <= k < |items| && items[k].id == id
    decreases |items|
  {
    if items != [] {
      var n := |items| - 1;
      var init := items[..n];
      StatsMapHas(init, id);
      if items[n].id != id {
        if id in StatsMap(init) {
          var k :| 0 <= k < |init| && init[k].id == id;
          assert items[k].id == id;
        }
        if exists k :: 0 <= k < |items| && items[k].id == id {
          var k :| 0 <= k < |items| && items[k].id == id;
          assert init[k].id == id;
        }
      }
    }
  }

  /** A later item overwrites an earlier one: the entry is that of the last item with the id. */
  lemma {:induction false} StatsMapLast(items: seq<StatsItem>, id: string, k: nat)
    requires LastWith(items, k, id)
    ensures id in StatsMap(items) && StatsMap(items)[id] == StatsOf(items[k])
    decreases |items|
  {
    var n := |items| - 1;
    if k < n {
      var init := items[..n];
      assert items[n].id != id;
      assert LastWith(init, k, id);
      StatsMapLast(init, id, k);
    }
  }

  /** The `reduce`: one assignment into the accumulator per item. */
  method CollectStats(items: seq<StatsItem>) returns (acc: map<string, Stats>)
    ensures acc == StatsMap(items)
  {
    acc := map[];
    for i := 0 to |items|
      invariant acc == StatsMap(items[..i])
    {
      assert items[..i + 1][..i] == items[..i];
      acc := acc[items[i].id := StatsOf(items[i])];
    }
    assert items[..|items|] == items;
  }

  // ---------------------------------------------------------------------
  // One video per search result
  // ---------------------------------------------------------------------

  datatype Thumbnails = Thumbnails(high: Option<string>, medium: Option<string>, default: Option<string>)

  datatype Snippet = Snippet(
    title: string,
    description: Option<string>,
    channelTitle: string,
    publishedAt: Option<string>,
    thumbnails: Thumbnails)

  datatype SearchItem = SearchItem(videoId: string, snippet: Snippet)

  const NoDescription := "No description available"

  /** `thumbnails?.high?.url || thumbnails?.medium?.url || thumbnails?.default?.url`. */
  function Thumbnail(t: Thumbnails): (r: Option<string>)
    ensures !Falsy(t.high) ==> r == t.high
    ensures Falsy(t.high) && !Falsy(t.medium) ==> r == t.medium
    ensures Falsy(t.high) && Falsy(t.medium) ==> r == t.default
  {
    if !Falsy(t.high) then t.high else if !Falsy(t.medium) then t.medium else t.default
  }

  /** `description?.slice(0, 300) || 'No description available'`. */
  function Summary(description: Option<string>): (r: string)
    ensures r != "" && (|r| <= 300 || r == NoDescription)
    ensures !Falsy(description) ==> r == Prefix(description.value, 300)
  {
    if Falsy(description) then NoDescription else Prefix(description.value, 300)
  }

  /**
   * The video for a search result, its statistics looked up by id (`|| {}`
   * when there are none); `engagement` stands for `calculateEngagement` and
   * `fixed1` for `toFixed(1)`.
   */
  function VideoOf(item: SearchItem, stats: map<string, Stats>, engagement: (nat, nat) -> int,
                   fixed1: real -> string, today: string): ContentItem
  {
    var st := if item.videoId in stats then stats[item.videoId] else Stats(0, 0, None);
    var sn := item.snippet;
    ContentItem(
      id := "yt-" + item.videoId, title := sn.title, contentType := Video,
      summary := Summary(sn.description),
      keyInsights := [FormatNumber(st.viewCount, fixed1) + " views", FormatNumber(st.likeCount, fixed1) + " likes", "By " + sn.channelTitle],
      tags := ExtractTags(sn.title, sn.description),
      difficulty := DifficultyOf(sn.title, sn.description),
      readTime := ParseDuration(st.duration),
      engagement := engagement(st.viewCount, st.likeCount),
      source := "YouTube", author := sn.channelTitle,
      publishedAt := PublishedDate(sn.publishedAt, today),
      url := "https://www.youtube.com/watch?v=" + item.videoId,
      image := None, stars := None, forks := None, language := None,
      thumbnail := Thumbnail(sn.thumbnails), videoId := Some(item.videoId),
      arxivId := None, toolCategory := None, pricing := None)
  }

  /** What every video looks like. */
  predicate VideoShape(v: ContentItem) {
    VideoIdentity(v) && VideoText(v)
  }

  /** The type, the source, and an id that leads the detail page back to the videos. */
  predicate VideoIdentity(v: ContentItem) {
    && v.contentType == Video && v.source == "YouTube"
    && v.videoId.Some? && v.id == "yt-" + v.videoId.value
    && ContentDetail.ClassifyId(v.id) == Some(Video)
  }

  /** A summary of at most 300 characters or the placeholder, at most five tags, three insights. */
  predicate VideoText(v: ContentItem) {
    && v.summary != "" && (|v.summary| <= 300 || v.summary == NoDescription)
    && |v.tags| <= 5 && |v.keyInsights| == 3
  }

  /** Every video has the shape and keeps the id of its search result. */
  lemma VideoOfShape(item: SearchItem, stats: map<string, Stats>, engagement: (nat, nat) -> int, fixed1: real -> string, today: string)
    ensures var v := VideoOf(item, stats, engagement, fixed1, today);
      VideoShape(v) && v.videoId == Some(item.videoId)
  {
    VideoOfIdentity(item, stats, engagement, fixed1, today);
    VideoOfText(item, stats, engagement, fixed1, today);
  }

  lemma VideoOfIdentity(item: SearchItem, stats: map<string, Stats>, engagement: (nat, nat) -> int, fixed1: real -> string, today: string)
    ensures var v := VideoOf(item, stats, engagement, fixed1, today);
      VideoIdentity(v) && v.videoId == Some(item.videoId)
  {
    ContentDetail.MintedIdsClassify(item.videoId);
  }

  lemma VideoOfText(item: SearchItem, stats: map<string, Stats>, engagement: (nat, nat) -> int, fixed1: real -> string, today: string)
    ensures VideoText(VideoOf(item, stats, engagement, fixed1, today))
  {
  }

  /** A video's length and engagement come from the last statistics item with its id. */
  lemma VideoStats(item: SearchItem, items: seq<StatsItem>, k: nat, engagement: (nat, nat) -> int, fixed1: real -> string, today: string)
    requires LastWith(items, k, item.videoId)
    ensures var v := VideoOf(item, StatsMap(items), engagement, fixed1, today);
      && v.readTime == ParseDuration(items[k].duration)
      && v.engagement == engagement(Count(items[k].viewCount), Count(items[k].likeCount))
  {
    StatsMapLast(items, item.videoId, k);
  }

  function Videos(items: seq<SearchItem>, stats: map<string, Stats>, engagement: (nat, nat) -> int,
                  fixed1: real -> string, today: string): seq<ContentItem>
  {
    seq(|items|, k requires 0 <= k < |items| => VideoOf(items[k], stats, engagement, fixed1, today))
  }

  // ---------------------------------------------------------------------
  // The handler
  // ---------------------------------------------------------------------

  const DefaultQuery := "artificial intelligence tutorial"

  /** `url.searchParams.get('query') || 'artificial intelligence tutorial'`. */
  function SearchQuery(query: Option<string>): (r: string)
    ensures r != ""
    ensures !Falsy(query) ==> r == query.value
    ensures Falsy(query) ==> r == DefaultQuery
  {
    OrElse(query, DefaultQuery)
  }

  /** How the search request ended: it threw, it was not ok, or its JSON and the `items` in it (if any). */
  datatype SearchReply = SearchThrew | SearchFailed(status: int, text: string) | SearchOk(items: Option<seq<SearchItem>>)

  /** How the statistics request ended, when it was made. */
  datatype StatsReply = StatsThrew | StatsNotOk | StatsOk(items: Option<seq<StatsItem>>)

  datatype Answer = VideosFound(data: seq<ContentItem>, quotaExceeded: bool) | Failure(status: int, error: string)

  /** The comma-joined ids: falsy exactly when there is no result, or one with an empty id. */
  function VideoIds(items: seq<SearchItem>): string {
    Join(seq(|items|, k requires 0 <= k < |items| => items[k].videoId), ",")
  }

  /**
   * The handler. Without an API key: 500. A failed search: the curated list
   * on a quota 403, else the upstream status. A search that went through
   * continues in `Found`. Anything that throws gives 500.
   */
  function Handle(apiKey: Option<string>, search: SearchReply, stats: StatsReply, curated: seq<ContentItem>,
                  engagement: (nat, nat) -> int, fixed1: real -> string, today: string): (r: Answer)
  {
    if Falsy(apiKey) then Failure(500, "YouTube API not configured")
    else match search
      case SearchThrew => Failure(500, "Failed to fetch videos")
      case SearchFailed(status, text) =>
        if status == 403 && Contains(text, "quotaExceeded") then VideosFound(curated, true)
        else Failure(status, "Failed to fetch videos")
      case SearchOk(items) =>
        if items.None? then VideosFound([], false)
        else Found(items.value, stats, engagement, fixed1, today)
  }

  /**
   * After a successful search: the statistics are asked for only when the
   * joined ids are non-empty, and a failed statistics request leaves every
   * video without statistics; a statistics reply without `items` leaves the
   * accumulator `undefined`, and the first lookup in it throws.
   */
  function Found(items: seq<SearchItem>, stats: StatsReply,
                 engagement: (nat, nat) -> int, fixed1: real -> string, today: string): Answer
  {
    if VideoIds(items) == "" then VideosFound(Videos(items, map[], engagement, fixed1, today), false)
    else match stats
      case StatsThrew => Failure(500, "Failed to fetch videos")
      case StatsNotOk => VideosFound(Videos(items, map[], engagement, fixed1, today), false)
      case StatsOk(statItems) =>
        if statItems.None? then Failure(500, "Failed to fetch videos")
        else VideosFound(Videos(items, StatsMap(statItems.value), engagement, fixed1, today), false)
  }

  /** One video of the right shape per search result, in order. */
  predicate OnePerResult(r: seq<ContentItem>, items: seq<SearchItem>) {
    |r| == |items| && forall k :: 0 <= k < |r| ==> VideoShape(r[k]) && r[k].videoId == Some(items[k].videoId)
  }

  /** Every video of a list has the shape and comes from the search result at its position. */
  lemma VideosShape(items: seq<SearchItem>, stats: map<string, Stats>, engagement: (nat, nat) -> int, fixed1: real -> string, today: string)
    ensures OnePerResult(Videos(items, stats, engagement, fixed1, today), items)
  {
    var r := Videos(items, stats, engagement, fixed1, today);
    forall k | 0 <= k < |r| ensures VideoShape(r[k]) && r[k].videoId == Some(items[k].videoId) {
      VideoOfShape(items[k], stats, engagement, fixed1, today);
    }
  }

  /** A successful search answers one video of the right shape per search result, in order, or fails with 500. */
  lemma FoundMeaning(items: seq<SearchItem>, stats: StatsReply, engagement: (nat, nat) -> int, fixed1: real -> string, today: string)
    ensures var r := Found(items, stats, engagement, fixed1, today);
      && (r.Failure? ==> r.status == 500)
      && (r.VideosFound? ==> !r.quotaExceeded && OnePerResult(r.data, items))
  {
    if VideoIds(items) == "" || stats.StatsNotOk? {
      VideosShape(items, map[], engagement, fixed1, today);
    } else if stats.StatsOk? && stats.items.Some? {
      VideosShape(items, StatsMap(stats.items.value), engagement, fixed1, today);
    }
  }

  /**
   * The handler's failures: the configuration error, the quota fallback with
   * the curated list exactly on a quota 403, and the upstream status otherwise.
   */
  lemma HandleFailures(apiKey: Option<string>, search: SearchReply, stats: StatsReply, curated: seq<ContentItem>,
                       engagement: (nat, nat) -> int, fixed1: real -> string, today: string)
    ensures var r := Handle(apiKey, search, stats, curated, engagement, fixed1, today);
      && (Falsy(apiKey) ==> r == Failure(500, "YouTube API not configured"))
      && (!Falsy(apiKey) && search.SearchFailed? ==>
            (r == VideosFound(curated, true) <==> search.status == 403 && Contains(search.text, "quotaExceeded"))
            && (r.Failure? ==> r.status == search.status))
      && (!Falsy(apiKey) && search.SearchThrew? ==> r == Failure(500, "Failed to fetch videos"))
      && (r.VideosFound? && r.quotaExceeded ==> r.data == curated)
  {
  }

  /** A successful answer without the quota flag holds exactly one video per search result, in order. */
  lemma HandleVideos(apiKey: Option<string>, search: SearchReply, stats: StatsReply, curated: seq<ContentItem>,
                     engagement: (nat, nat) -> int, fixed1: real -> string, today: string)
    ensures var r := Handle(apiKey, search, stats, curated, engagement, fixed1, today);
      r.VideosFound? && !r.quotaExceeded ==> search.SearchOk? && OnePerResult(r.data, search.items.GetOr([]))
  {
    if !Falsy(apiKey) && search.SearchOk? && search.items.Some? {
      FoundMeaning(search.items.value, stats, engagement, fixed1, today);
    }
  }
}
