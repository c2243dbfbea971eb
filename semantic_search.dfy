/**
 * The semantic-search edge function (supabase/functions/semantic-search/index.ts):
 * the keyword fallback, the cleaning and reading of the model's query
 * analysis, the term set, the relevance score, and the selection of results
 * with the trending top-up.
 *
 * Scores are kept ten times larger than the source's so that they stay
 * integers: a title hit on the query is 1000, and the engagement boost
 * `engagement_score * 0.1` becomes `engagement_score`. Scaling by 10 keeps
 * both the sign of every score and the order between any two.
 */
module SemanticSearch {
  import opened Wrappers
  import opened Strings
  import opened Seqs
  import opened Json
  import opened ContentModel

  /** `expandedQuery` of a search result; `intent` is whatever value the reply held. */
  datatype Expanded = Expanded(original: string, synonyms: seq<string>, relatedTopics: seq<string>, intent: Json)

  /** The `data` of a successful search. */
  datatype SearchResult = SearchResult(items: seq<ContentItem>, expandedQuery: Expanded, hasExactMatches: bool)

  // ---------------------------------------------------------------------
  // Keyword search (`fallbackSearch`, and `basicSearch` on the client)
  // ---------------------------------------------------------------------

  /**
   * The keyword search: the matching items in their order, or, when nothing
   * matches, the 15 items with the highest engagement.
   */
  function KeywordResult(query: string, content: seq<ContentItem>, intent: string): SearchResult {
    var matched := Filter(content, MatchesOf(query));
    SearchResult(
      if |matched| > 0 then matched else Take(SortDesc(content, Engagement), 15),
      Expanded(query, [], [], JStr(intent)),
      |matched| > 0)
  }

  const FallbackIntent := "Basic search (AI unavailable)"

  /**
   * With a match, the items are exactly the matching ones in their original
   * order and `hasExactMatches` holds; without one, they are the first 15 of
   * the content ordered by engagement, drawn from the content.
   */
  lemma KeywordResultMeaning(query: string, content: seq<ContentItem>, intent: string)
    ensures var r := KeywordResult(query, content, intent);
      (r.hasExactMatches <==> exists k :: 0 <= k < |content| && MatchesQuery(content[k], query))
      && r.expandedQuery == Expanded(query, [], [], JStr(intent))
      && (r.hasExactMatches ==>
            r.items == Filter(content, MatchesOf(query)) && IsSubsequence(r.items, content)
            && forall k :: 0 <= k < |r.items| ==> MatchesQuery(r.items[k], query))
      && (!r.hasExactMatches ==>
            |r.items| == Min(15, |content|) && SortedDesc(r.items, Engagement)
            && multiset(r.items) <= multiset(content))
  {
    var matched := Filter(content, MatchesOf(query));
    FilterIsSubsequence(content, MatchesOf(query));
    if |matched| == 0 {
      TopByEngagement(content);
    } else {
      assert MatchesOf(query)(matched[0]) && matched[0] in content;
    }
  }

  /** The first 15 by engagement: as many as there are up to 15, in order, drawn from the content. */
  lemma TopByEngagement(content: seq<ContentItem>)
    ensures var t := Take(SortDesc(content, Engagement), 15);
      |t| == Min(15, |content|) && SortedDesc(t, Engagement) && multiset(t) <= multiset(content)
  {
    var sorted := SortDesc(content, Engagement);
    SortDescSorted(content, Engagement);
    SortDescPermutation(content, Engagement);
    var n := |Take(sorted, 15)|;
    assert sorted == Take(sorted, 15) + sorted[n..];
  }

  /**
   * The keyword search on an array: filters first, and sorts the array in
   * place by engagement only when nothing matched.
   */
  method KeywordSearch(query: string, content: array<ContentItem>, intent: string) returns (r: SearchResult)
    modifies content
    ensures r == KeywordResult(query, old(content[..]), intent)
    ensures content[..] == if Filter(old(content[..]), MatchesOf(query)) == []
      then SortDesc(old(content[..]), Engagement) else old(content[..])
  {
    var matched := Filter(content[..], MatchesOf(query));
    var items := matched;
    if |matched| == 0 {
      SortInPlace(content, Engagement);
      items := Take(content[..], 15);
    }
    r := SearchResult(items, Expanded(query, [], [], JStr(intent)), |matched| > 0);
  }

  // ---------------------------------------------------------------------
  // The model's reply
  // ---------------------------------------------------------------------

  /**
   * `s.replace(/```json\n?|\n?```/g, '')`, scanning left to right: at each
   * position the opening fence (with one line break after it) is tried
   * first, then a closing fence with one line break before it.
   */
  function StripFenceMarks(s: string): (r: string)
    ensures |r| <= |s|
    decreases |s|
  {
    if s == [] then []
    else if FenceAt(s) > 0 then StripFenceMarks(s[FenceAt(s)..])
    else [s[0]] + StripFenceMarks(s[1..])
  }

  /** The length of the fence mark the expression matches at the head of `s`, 0 when there is none. */
  function FenceAt(s: string): (n: nat)
    ensures n <= |s|
  {
    if s == [] || (s[0] != '`' && s[0] != '\n') then 0
    else if MatchFrom(s, "```json", 0, 0) then (if |s| > 7 && s[7] == '\n' then 8 else 7)
    else if MatchFrom(s, "\n```", 0, 0) then 4
    else if MatchFrom(s, "```", 0, 0) then 3
    else 0
  }

  /** The text handed to `JSON.parse`. */
  function CleanReply(text: string): string {
    Trim(StripFenceMarks(text))
  }

  /** Text without backticks in front of a tail that does not start with one passes through. */
  lemma {:induction false} StripFenceMarksBefore(x: string, tail: string)
    requires NoChar(x, '`') && (tail == [] || tail[0] != '`')
    ensures StripFenceMarks(x + tail) == x + StripFenceMarks(tail)
    decreases |x|
  {
    if x != [] {
      var s := x + tail;
      assert s[0] == x[0] && s[1..] == x[1..] + tail;
      assert |s| > 1 ==> s[1] != '`';
      PlainHead(s);
      StripFenceMarksBefore(x[1..], tail);
      calc {
        StripFenceMarks(s);
        [x[0]] + StripFenceMarks(x[1..] + tail);
        [x[0]] + (x[1..] + StripFenceMarks(tail));
        { HeadJoin(x, StripFenceMarks(tail)); }
        x + StripFenceMarks(tail);
      }
    } else {
      assert x + tail == tail;
    }
  }

  lemma HeadJoin(x: string, t: string)
    requires x != []
    ensures [x[0]] + (x[1..] + t) == x + t
  {
    assert [x[0]] + x[1..] == x;
  }

  /** Text that starts with a character other than a backtick, and not with a line break and a backtick, keeps that character. */
  lemma PlainHead(s: string)
    requires s != [] && s[0] != '`' && (|s| > 1 ==> s[1] != '`')
    ensures StripFenceMarks(s) == [s[0]] + StripFenceMarks(s[1..])
  {
    assert FenceAt(s) == 0;
  }

  /**
   * A reply fenced as a JSON code block and the bare text clean to the same
   * string, when the text holds no backtick.
   */
  lemma FencedReplyCleansLikeBare(x: string)
    requires NoChar(x, '`')
    ensures CleanReply("```json\n" + x + "\n```") == Trim(x)
    ensures CleanReply(x) == Trim(x)
  {
    StripFenceMarksBefore(x, []);
    assert x + [] == x;
    var fenced := "```json\n" + x + "\n```";
    assert fenced[..8] == "```json\n";
    assert FenceAt(fenced) == 8 by {
      assert fenced[0] == '`' && fenced[1] == '`' && fenced[2] == '`' && fenced[3] == 'j';
      assert fenced[4] == 's' && fenced[5] == 'o' && fenced[6] == 'n' && fenced[7] == '\n';
    }
    assert fenced[8..] == x + "\n```";
    StripFenceMarksBefore(x, "\n```");
    assert StripFenceMarks("\n```") == [] by {
      assert FenceAt("\n```") == 4;
      assert "\n```"[4..] == [];
    }
    assert x + [] == x;
  }

  /** The members of a parsed analysis that the function reads. */
  datatype Analysis = Analysis(
    synonyms: seq<string>,
    relatedTopics: seq<string>,
    broaderConcepts: seq<string>,
    narrowerConcepts: seq<string>,
    intent: Option<Json>)

  /** The strings of a JSON array, when every element is a string. */
  function Strs(items: seq<Json>): (r: Option<seq<string>>)
    ensures r.Some? <==> forall k :: 0 <= k < |items| ==> items[k].JStr?
    ensures r.Some? ==> |r.value| == |items| && forall k :: 0 <= k < |items| ==> items[k] == JStr(r.value[k])
    decreases |items|
  {
    if items == [] then Some([])
    else if !items[0].JStr? then None
    else match Strs(items[1..])
      case None => None
      case Some(rest) => Some([items[0].s] + rest)
  }

  /**
   * `list?.forEach(s => … s.toLowerCase())`: nothing for a missing or `null`
   * member, the strings of an array of strings; `None` for any other value,
   * on which the call throws.
   */
  function TermList(o: Option<Json>): (r: Option<seq<string>>)
    ensures (o.None? || o == Some(JNull)) ==> r == Some([])
    ensures o.Some? && o.value != JNull && !o.value.JArr? ==> r == None
  {
    if o.None? || o.value == JNull then Some([])
    else if o.value.JArr? then Strs(o.value.items)
    else None
  }

  /** Reading the parsed analysis; `None` when it throws (a `null` analysis, or a list member of the wrong shape). */
  function ReadAnalysis(v: Json): (r: Option<Analysis>)
    ensures v == JNull ==> r == None
    ensures r.Some? ==> r.value.intent == Field(Some(v), "intent")
  {
    if v == JNull then None
    else
      var o := Some(v);
      match (TermList(Field(o, "synonyms")), TermList(Field(o, "relatedTopics")),
             TermList(Field(o, "broaderConcepts")), TermList(Field(o, "narrowerConcepts")))
      case (Some(a), Some(b), Some(c), Some(d)) => Some(Analysis(a, b, c, d, Field(o, "intent")))
      case _ => None
  }

  /** `queryAnalysis.intent || 'General search'`. */
  function IntentOf(a: Analysis): (r: Json)
    ensures Truthy(r)
    ensures TruthyOpt(a.intent) ==> r == a.intent.value
  {
    if TruthyOpt(a.intent) then a.intent.value else JStr("General search")
  }

  // ---------------------------------------------------------------------
  // The term set
  // ---------------------------------------------------------------------

  predicate NoDup(s: seq<string>) {
    forall i, j :: 0 <= i < j < |s| ==> s[i] != s[j]
  }

  /** The distinct elements of `s` in the order of their first occurrence: a `Set` filled by `add`. */
  function Dedup(s: seq<string>): (r: seq<string>)
    decreases |s|
  {
    if s == [] then []
    else
      var d := Dedup(s[..|s| - 1]);
      if s[|s| - 1] in d then d else d + [s[|s| - 1]]
  }

  lemma {:induction false} DedupMeaning(s: seq<string>)
    ensures NoDup(Dedup(s))
    ensures forall x :: x in Dedup(s) <==> x in s
    decreases |s|
  {
    if s != [] {
      var init, last := s[..|s| - 1], s[|s| - 1];
      assert s == init + [last];
      DedupMeaning(init);
    }
  }

  lemma {:induction false} DedupHead(s: seq<string>)
    requires s != []
    ensures Dedup(s) != [] && Dedup(s)[0] == s[0]
    decreases |s|
  {
    if |s| > 1 {
      var init := s[..|s| - 1];
      DedupHead(init);
      assert init[0] == s[0];
    } else {
      assert s[..0] == [];
    }
  }

  /** The lowercased query followed by the four lowercased lists of the analysis, each term once. */
  function SearchTerms(query: string, a: Analysis): seq<string> {
    Dedup([ToLower(query)] + LowerAll(a.synonyms) + LowerAll(a.relatedTopics)
      + LowerAll(a.broaderConcepts) + LowerAll(a.narrowerConcepts))
  }

  /**
   * The terms start with the lowercased query, hold no term twice, and are
   * exactly the lowercased query and the lowercased list entries.
   */
  lemma SearchTermsMeaning(query: string, a: Analysis)
    ensures var t := SearchTerms(query, a);
      t != [] && t[0] == ToLower(query) && NoDup(t)
      && forall x :: x in t <==>
        x == ToLower(query) || x in LowerAll(a.synonyms) || x in LowerAll(a.relatedTopics)
        || x in LowerAll(a.broaderConcepts) || x in LowerAll(a.narrowerConcepts)
  {
    var all := [ToLower(query)] + LowerAll(a.synonyms) + LowerAll(a.relatedTopics)
      + LowerAll(a.broaderConcepts) + LowerAll(a.narrowerConcepts);
    DedupMeaning(all);
    DedupHead(all);
  }

  /** `more.forEach(s => terms.add(s.toLowerCase()))`. */
  method AddTerms(terms: seq<string>, more: seq<string>, ghost base: seq<string>) returns (r: seq<string>)
    requires terms == Dedup(base)
    ensures r == Dedup(base + LowerAll(more))
  {
    r := terms;
    assert base + LowerAll(more[..0]) == base;
    for i := 0 to |more|
      invariant r == Dedup(base + LowerAll(more[..i]))
    {
      var t := ToLower(more[i]);
      assert base + LowerAll(more[..i + 1]) == (base + LowerAll(more[..i])) + [t];
      if t !in r {
        r := r + [t];
      }
    }
    assert more[..|more|] == more;
  }

  /** Builds `searchTerms` as the function does. */
  method BuildSearchTerms(query: string, a: Analysis) returns (terms: seq<string>)
    ensures terms == SearchTerms(query, a)
  {
    ghost var base := [ToLower(query)];
    terms := [ToLower(query)];
    assert terms == Dedup(base) by { assert base[..0] == []; }
    terms := AddTerms(terms, a.synonyms, base);
    base := base + LowerAll(a.synonyms);
    terms := AddTerms(terms, a.relatedTopics, base);
    base := base + LowerAll(a.relatedTopics);
    terms := AddTerms(terms, a.broaderConcepts, base);
    base := base + LowerAll(a.broaderConcepts);
    terms := AddTerms(terms, a.narrowerConcepts, base);
  }

  // ---------------------------------------------------------------------
  // The relevance score
  // ---------------------------------------------------------------------

  /** Some lowercased tag contains the term, or the term contains it. */
  predicate TagHit(tagsLower: seq<string>, term: string) {
    exists k :: 0 <= k < |tagsLower| && (Contains(tagsLower[k], term) || Contains(term, tagsLower[k]))
  }

  /** The points one term earns an item (times 10); `q` is the lowercased query. */
  function TermPoints(term: string, q: string, item: ContentItem): int {
    (if Contains(ToLower(item.title), term) then (if term == q then 1000 else 500) else 0)
    + (if Contains(ToLower(item.summary), term) then (if term == q then 400 else 200) else 0)
    + (if TagHit(LowerAll(item.tags), term) then (if term == q then 600 else 300) else 0)
  }

  /** The points of all terms together. */
  function SumPoints(terms: seq<string>, q: string, item: ContentItem): (r: int)
    decreases |terms|
  {
    if terms == [] then 0 else SumPoints(terms[..|terms| - 1], q, item) + TermPoints(terms[|terms| - 1], q, item)
  }

  /** The loop over the terms followed by the engagement boost. */
  method RelevanceScore(item: ContentItem, terms: seq<string>, q: string) returns (score: int)
    ensures score == SumPoints(terms, q, item) + item.engagement
  {
    score := 0;
    var titleLower := ToLower(item.title);
    var summaryLower := ToLower(item.summary);
    var tagsLower := LowerAll(item.tags);
    for i := 0 to |terms|
      invariant score == SumPoints(terms[..i], q, item)
    {
      var term := terms[i];
      if Contains(titleLower, term) {
        score := score + (if term == q then 1000 else 500);
      }
      if Contains(summaryLower, term) {
        score := score + (if term == q then 400 else 200);
      }
      if TagHit(tagsLower, term) {
        score := score + (if term == q then 600 else 300);
      }
      assert terms[..i + 1][..i] == terms[..i];
    }
    assert terms[..|terms|] == terms;
    score := score + item.engagement;
  }

  lemma {:induction false} SumPointsConcat(a: seq<string>, b: seq<string>, q: string, item: ContentItem)
    ensures SumPoints(a + b, q, item) == SumPoints(a, q, item) + SumPoints(b, q, item)
    decreases |b|
  {
    if b == [] {
      assert a + b == a;
    } else {
      assert (a + b)[..|a + b| - 1] == a + b[..|b| - 1];
      SumPointsConcat(a, b[..|b| - 1], q, item);
    }
  }

  /** The score does not depend on the order in which the set yields its terms. */
  lemma {:induction false} SumPointsPermutation(a: seq<string>, b: seq<string>, q: string, item: ContentItem)
    requires multiset(a) == multiset(b)
    ensures SumPoints(a, q, item) == SumPoints(b, q, item)
    decreases |a|
  {
    if a == [] {
      assert |b| == |multiset(b)| == 0;
    } else {
      var init, x := a[..|a| - 1], a[|a| - 1];
      assert a == init + [x];
      assert x in multiset(b);
      var j :| 0 <= j < |b| && b[j] == x;
      var rest := b[..j] + b[j + 1..];
      assert b == b[..j] + [x] + b[j + 1..];
      assert multiset(b) == multiset(b[..j]) + multiset([x]) + multiset(b[j + 1..]);
      assert multiset(a) == multiset(init) + multiset([x]);
      assert multiset(rest) == multiset(b[..j]) + multiset(b[j + 1..]);
      assert multiset(init) == multiset(a) - multiset([x]);
      assert multiset(rest) == multiset(b) - multiset([x]);
      SumPointsPermutation(init, rest, q, item);
      SumPointsConcat(b[..j] + [x], b[j + 1..], q, item);
      SumPointsConcat(b[..j], [x], q, item);
      SumPointsConcat(b[..j], b[j + 1..], q, item);
      assert SumPoints([x], q, item) == TermPoints(x, q, item) by { assert [x][..0] == []; }
    }
  }

  /** No term takes points away, so every term's points are a lower bound of the sum. */
  lemma {:induction false} SumPointsAtLeast(terms: seq<string>, q: string, item: ContentItem, j: nat)
    requires j < |terms|
    ensures SumPoints(terms, q, item) >= TermPoints(terms[j], q, item)
    ensures SumPoints(terms, q, item) >= 0
    decreases |terms|
  {
    if j < |terms| - 1 {
      SumPointsAtLeast(terms[..|terms| - 1], q, item, j);
    } else if |terms| > 1 {
      SumPointsAtLeast(terms[..|terms| - 1], q, item, 0);
    }
  }

  /**
   * An item that the keyword search finds scores at least 40 (400 here)
   * before the engagement boost, whatever the other terms are.
   */
  lemma KeywordMatchScores(item: ContentItem, terms: seq<string>, query: string)
    requires ToLower(query) in terms
    requires MatchesQuery(item, query)
    ensures SumPoints(terms, ToLower(query), item) >= 400
  {
    var q := ToLower(query);
    var j :| 0 <= j < |terms| && terms[j] == q;
    SumPointsAtLeast(terms, q, item, j);
    if !Contains(ToLower(item.title), q) && !Contains(ToLower(item.summary), q) {
      var k :| 0 <= k < |item.tags| && Contains(ToLower(item.tags[k]), q);
      assert LowerAll(item.tags)[k] == ToLower(item.tags[k]);
      assert TagHit(LowerAll(item.tags), q);
    }
  }

  // ---------------------------------------------------------------------
  // Selecting the results
  // ---------------------------------------------------------------------

  /** An item with its relevance score. */
  datatype Scored = Scored(item: ContentItem, score: int)

  function ScoreKey(s: Scored): int {
    s.score
  }

  function IsPositive(s: Scored): bool {
    s.score > 0
  }

  /** `scoredContent`: every item with its score, in content order. */
  function ScoredAll(content: seq<ContentItem>, terms: seq<string>, q: string): (r: seq<Scored>)
    ensures |r| == |content|
    ensures forall k :: 0 <= k < |r| ==> r[k] == Scored(content[k], SumPoints(terms, q, content[k]) + content[k].engagement)
  {
    seq(|content|, k requires 0 <= k < |content| => Scored(content[k], SumPoints(terms, q, content[k]) + content[k].engagement))
  }

  /** The items without their scores. */
  function Items(s: seq<Scored>): (r: seq<ContentItem>)
    ensures |r| == |s| && forall k :: 0 <= k < |s| ==> r[k] == s[k].item
  {
    seq(|s|, k requires 0 <= k < |s| => s[k].item)
  }

  /** The exact match on title or summary, as a filter on scored items. */
  function ExactOf(query: string): Scored -> bool {
    (s: Scored) => TitleOrSummaryContains(s.item, query)
  }

  /** The trending item is not among `hits` by id. */
  function NotListed(hits: seq<Scored>): ContentItem -> bool {
    (t: ContentItem) => !HasId(Items(hits), t.id)
  }

  /**
   * The trending items that are not yet among the hits, appended with score
   * 0: the hits stay first, every trending item whose id is not among them
   * follows, and nothing else, in the trending order.
   */
  function TopUp(hits: seq<Scored>, trending: seq<ContentItem>): (r: seq<Scored>)
    ensures |r| >= |hits| && r[..|hits|] == hits
    ensures forall k :: |hits| <= k < |r| ==>
      r[k].score == 0 && r[k].item in trending && !HasId(Items(hits), r[k].item.id)
    ensures forall k :: 0 <= k < |trending| && !HasId(Items(hits), trending[k].id) ==>
      Scored(trending[k], 0) in r[|hits|..]
    ensures IsSubsequence(Items(r[|hits|..]), trending)
  {
    var extra := Filter(trending, NotListed(hits));
    var tail := seq(|extra|, k requires 0 <= k < |extra| => Scored(extra[k], 0));
    assert (hits + tail)[|hits|..] == tail;
    assert Items(tail) == extra;
    FilterIsSubsequence(trending, NotListed(hits));
    forall k | 0 <= k < |trending| && !HasId(Items(hits), trending[k].id)
      ensures Scored(trending[k], 0) in tail
    {
      assert NotListed(hits)(trending[k]);
      var j :| 0 <= j < |extra| && extra[j] == trending[k];
      assert tail[j] == Scored(trending[k], 0);
    }
    hits + tail
  }

  /** Whether the trending top-up applies: no exact match and fewer than 5 positive scores. */
  predicate TopsUp(query: string, content: seq<ContentItem>, a: Analysis) {
    var sorted := SortDesc(ScoredAll(content, SearchTerms(query, a), ToLower(query)), ScoreKey);
    Filter(sorted, ExactOf(query)) == [] && |Filter(sorted, IsPositive)| < 5
  }

  /** The scored results, before the scores are removed. */
  function Selected(query: string, content: seq<ContentItem>, a: Analysis): seq<Scored> {
    var sorted := SortDesc(ScoredAll(content, SearchTerms(query, a), ToLower(query)), ScoreKey);
    var hits := Filter(sorted, IsPositive);
    if TopsUp(query, content, a) then TopUp(hits, Take(SortDesc(content, Engagement), 10)) else hits
  }

  /** The search result when the model's analysis could be read. */
  function SemanticResult(query: string, content: seq<ContentItem>, a: Analysis): SearchResult {
    var sorted := SortDesc(ScoredAll(content, SearchTerms(query, a), ToLower(query)), ScoreKey);
    SearchResult(
      Items(Selected(query, content, a)),
      Expanded(query, a.synonyms, a.relatedTopics, IntentOf(a)),
      Filter(sorted, ExactOf(query)) != [])
  }

  /** `hasExactMatches` holds exactly when some item's title or summary contains the query; tags do not count. */
  lemma HasExactMatchesMeaning(query: string, content: seq<ContentItem>, a: Analysis)
    ensures SemanticResult(query, content, a).hasExactMatches <==>
      exists k :: 0 <= k < |content| && TitleOrSummaryContains(content[k], query)
  {
    var scored := ScoredAll(content, SearchTerms(query, a), ToLower(query));
    var sorted := SortDesc(scored, ScoreKey);
    SortDescPermutation(scored, ScoreKey);
    var exact := Filter(sorted, ExactOf(query));
    if exact != [] {
      assert ExactOf(query)(exact[0]) && exact[0] in sorted;
      assert exact[0] in multiset(scored);
      var k :| 0 <= k < |scored| && scored[k] == exact[0];
      assert TitleOrSummaryContains(content[k], query);
    } else {
      forall k | 0 <= k < |content| ensures !TitleOrSummaryContains(content[k], query) {
        assert scored[k] in multiset(sorted);
        assert scored[k].item == content[k];
      }
    }
  }

  /**
   * Without the top-up, the results are the positively scored items, ordered
   * by score from the highest; items with the same score keep their order in
   * the content; and every positively scored item is among them.
   */
  lemma RankedHits(query: string, content: seq<ContentItem>, a: Analysis, s: int)
    requires !TopsUp(query, content, a)
    ensures var scored := ScoredAll(content, SearchTerms(query, a), ToLower(query));
      var r := Selected(query, content, a);
      SortedDesc(r, ScoreKey)
      && (forall k :: 0 <= k < |r| ==> r[k].score > 0)
      && (forall k :: 0 <= k < |scored| && scored[k].score > 0 ==> scored[k] in r)
      && (s > 0 ==> WithKey(r, ScoreKey, s) == WithKey(scored, ScoreKey, s))
  {
    var scored := ScoredAll(content, SearchTerms(query, a), ToLower(query));
    var sorted := SortDesc(scored, ScoreKey);
    SortDescSorted(scored, ScoreKey);
    SortDescPermutation(scored, ScoreKey);
    FilteredStaysSorted(sorted);
    forall k | 0 <= k < |scored| && scored[k].score > 0 ensures scored[k] in Filter(sorted, IsPositive) {
      assert scored[k] in multiset(sorted);
      var i :| 0 <= i < |sorted| && sorted[i] == scored[k];
      assert IsPositive(sorted[i]);
    }
    if s > 0 {
      WithKeyFilter(sorted, IsPositive, ScoreKey, s);
      SortDescStable(scored, ScoreKey, s);
    }
  }

  lemma FilteredStaysSorted(sorted: seq<Scored>)
    requires SortedDesc(sorted, ScoreKey)
    ensures SortedDesc(Filter(sorted, IsPositive), ScoreKey)
  {
    FilterIsSubsequence(sorted, IsPositive);
    SubsequenceSorted(Filter(sorted, IsPositive), sorted);
  }

  lemma {:induction false} SubsequenceSorted(a: seq<Scored>, b: seq<Scored>)
    requires IsSubsequence(a, b) && SortedDesc(b, ScoreKey)
    ensures SortedDesc(a, ScoreKey)
    decreases |b|
  {
    if a != [] {
      if a[0] == b[0] && IsSubsequence(a[1..], b[1..]) {
        SubsequenceSorted(a[1..], b[1..]);
        SubsequenceElements(a[1..], b[1..]);
        forall j | 0 < j < |a| ensures a[0].score >= a[j].score {
          assert a[j] == a[1..][j - 1];
        }
      } else {
        SubsequenceSorted(a, b[1..]);
      }
    }
  }

  lemma {:induction false} SubsequenceElements<T>(a: seq<T>, b: seq<T>)
    requires IsSubsequence(a, b)
    ensures forall k :: 0 <= k < |a| ==> a[k] in b[..]
    decreases |b|
  {
    if a != [] {
      if a[0] == b[0] && IsSubsequence(a[1..], b[1..]) {
        SubsequenceElements(a[1..], b[1..]);
        forall k | 0 < k < |a| ensures a[k] in b {
          assert a[k] == a[1..][k - 1];
        }
      } else {
        SubsequenceElements(a, b[1..]);
      }
    }
  }

  /**
   * With the top-up, the positively scored items come first, followed by
   * trending items (among the 10 with the highest engagement) whose id is not
   * among them.
   */
  lemma TopUpMeaning(query: string, content: seq<ContentItem>, a: Analysis)
    requires TopsUp(query, content, a)
    ensures var sorted := SortDesc(ScoredAll(content, SearchTerms(query, a), ToLower(query)), ScoreKey);
      var hits := Filter(sorted, IsPositive);
      var r := Selected(query, content, a);
      var trending := Take(SortDesc(content, Engagement), 10);
      |hits| < 5 && r[..|hits|] == hits
      && (forall k :: |hits| <= k < |r| ==> r[k].score == 0 && r[k].item in trending && !HasId(Items(hits), r[k].item.id))
      && (forall k :: 0 <= k < |trending| && !HasId(Items(hits), trending[k].id) ==> Scored(trending[k], 0) in r[|hits|..])
      && IsSubsequence(Items(r[|hits|..]), trending)
      && !SemanticResult(query, content, a).hasExactMatches
  {
  }

  // ---------------------------------------------------------------------
  // The request
  // ---------------------------------------------------------------------

  /** What the AI gateway call gave: no response (the request or reading its body threw), or a status and a body. */
  datatype Upstream = Unreachable | Response(ok: bool, body: Json)

  /** The response: 400 with an error, success with a result, or 500 `'Search failed'`. */
  datatype Reply = BadRequest(error: string) | Found(data: SearchResult) | Failed(error: string)

  /** The scores of all items, as `content.map` computes them. */
  method ScoreContent(content: seq<ContentItem>, terms: seq<string>, q: string) returns (scored: seq<Scored>)
    ensures scored == ScoredAll(content, terms, q)
  {
    scored := [];
    for i := 0 to |content|
      invariant scored == ScoredAll(content[..i], terms, q)
    {
      var score := RelevanceScore(content[i], terms, q);
      scored := scored + [Scored(content[i], score)];
    }
    assert content[..|content|] == content;
  }

  /**
   * The request handler. `query == ""` stands for a missing query and
   * `content == None` for content that is missing or not an array;
   * `hasKey` tells whether the gateway key is configured, `upstream` is
   * the gateway's answer and `parse` is `JSON.parse`.
   */
  method Search(query: string, content: Option<array<ContentItem>>, hasKey: bool, upstream: Upstream,
                parse: string -> Option<Json>) returns (reply: Reply)
    modifies if content.Some? then {content.value} else {}
    ensures query == "" || content.None? ==> reply == BadRequest("Missing query or content array")
    ensures query != "" && content.Some? ==>
      var c0 := old(content.value[..]);
      var fallback := Found(KeywordResult(query, c0, FallbackIntent));
      if !hasKey then reply == fallback
      else match upstream
        case Unreachable => reply == Failed("Search failed")
        case Response(ok, body) =>
          if !ok then reply == fallback
          else match ReadMessage(body)
            case NullBody => reply == Failed("Search failed")
            case NotText(_) => reply == fallback
            case Text(text) =>
              match parse(CleanReply(text))
              case None => reply == fallback
              case Some(v) =>
                match ReadAnalysis(v)
                case None => reply == Failed("Search failed")
                case Some(a) => reply == Found(SemanticResult(query, c0, a))
    ensures query != "" && content.Some? && reply.Found? ==>
      var c0 := old(content.value[..]);
      content.value[..] == c0 || content.value[..] == SortDesc(c0, Engagement)
  {
    if query == "" || content.None? {
      return BadRequest("Missing query or content array");
    }
    var arr := content.value;
    if !hasKey {
      var r := KeywordSearch(query, arr, FallbackIntent);
      return Found(r);
    }
    if upstream.Unreachable? {
      return Failed("Search failed");
    }
    if !upstream.ok {
      var r := KeywordSearch(query, arr, FallbackIntent);
      return Found(r);
    }
    var text := ReadMessage(upstream.body);
    if text.NullBody? {
      return Failed("Search failed");
    }
    if text.NotText? {
      var r := KeywordSearch(query, arr, FallbackIntent);
      return Found(r);
    }
    var parsed := parse(CleanReply(text.s));
    if parsed.None? {
      var r := KeywordSearch(query, arr, FallbackIntent);
      return Found(r);
    }
    var analysis := ReadAnalysis(parsed.value);
    if analysis.None? {
      return Failed("Search failed");
    }
    var r := Analyse(query, arr, analysis.value);
    return Found(r);
  }

  /** Scoring, ranking and selection for a readable analysis; sorts the content in place for the top-up. */
  method Analyse(query: string, content: array<ContentItem>, a: Analysis) returns (r: SearchResult)
    modifies content
    ensures r == SemanticResult(query, old(content[..]), a)
    ensures content[..] == if TopsUp(query, old(content[..]), a) then SortDesc(old(content[..]), Engagement) else old(content[..])
  {
    var q := ToLower(query);
    var terms := BuildSearchTerms(query, a);
    var scored := ScoreContent(content[..], terms, q);
    var sorted := SortDesc(scored, ScoreKey);
    var exact := Filter(sorted, ExactOf(query));
    var results := Filter(sorted, IsPositive);
    if exact == [] && |results| < 5 {
      SortInPlace(content, Engagement);
      var trending := Take(content[..], 10);
      results := TopUp(results, trending);
    }
    r := SearchResult(Items(results), Expanded(query, a.synonyms, a.relatedTopics, IntentOf(a)), exact != []);
  }
}
