/**
 * The `fetch-repos` edge function: one repository item per GitHub search
 * result, with field defaults, a keyword difficulty, a read time that rounds
 * the repository size up to hundreds, and the upstream status passed on when
 * the search fails.
 *
 * `log20` stands for `Math.floor(Math.log10(n) * 20)`, `fixed1` for
 * `toFixed(1)` and `today` for today's date.
 */
module FetchRepos {
  import opened Wrappers
  import opened Strings
  import opened Seqs
  import opened ContentModel
  import opened GitHub
  import opened Numbers
  import ContentDetail

  const DefaultQuery := "artificial intelligence machine learning"

  /** `url.searchParams.get('query') || 'artificial intelligence machine learning'`. */
  function SearchQuery(query: Option<string>): (r: string)
    ensures r != ""
    ensures !Falsy(query) ==> r == query.value
    ensures Falsy(query) ==> r == DefaultQuery
  {
    OrElse(query, DefaultQuery)
  }

  // ---------------------------------------------------------------------
  // Difficulty: `getDifficultyFromRepo`
  // ---------------------------------------------------------------------

  const AdvancedWords: seq<string> := ["research", "neural", "deep-learning", "transformer", "llm", "gpt"]
  const BeginnerWords: seq<string> := ["tutorial", "beginner", "example", "starter", "template", "boilerplate"]

  /** `k => topics.includes(k) || description.includes(k)`. */
  function MentionedBy(topics: seq<string>, description: string): string -> bool {
    k => k in topics || Contains(description, k)
  }

  /** The topics as given, the description lowercased; advanced words first. */
  function DifficultyFromRepo(repo: Repo): Difficulty {
    var topics := repo.topics.GetOr([]);
    var description := ToLower(OrElse(repo.description, ""));
    if AnyOf(AdvancedWords, MentionedBy(topics, description)) then Advanced
    else if AnyOf(BeginnerWords, MentionedBy(topics, description)) then Beginner
    else Intermediate
  }

  /**
   * Advanced exactly when an advanced word is one of the topics (compared
   * exactly) or occurs in the lowercased description; beginner exactly when
   * that holds for a beginner word and for no advanced word.
   */
  lemma DifficultyMeaning(repo: Repo)
    ensures var d, topics, description := DifficultyFromRepo(repo), repo.topics.GetOr([]), ToLower(OrElse(repo.description, ""));
      && (d == Advanced <==>
            exists k :: 0 <= k < |AdvancedWords| && (AdvancedWords[k] in topics || Contains(description, AdvancedWords[k])))
      && (d == Beginner <==>
            (forall k :: 0 <= k < |AdvancedWords| ==> AdvancedWords[k] !in topics && !Contains(description, AdvancedWords[k]))
            && exists k :: 0 <= k < |BeginnerWords| && (BeginnerWords[k] in topics || Contains(description, BeginnerWords[k])))
  {
  }

  /** A topic counts only as written: `LLM` is not the keyword `llm`. */
  lemma TopicsAreCaseSensitive(repo: Repo)
    requires repo.topics == Some(["LLM"]) && repo.description.None?
    ensures DifficultyFromRepo(repo) == Intermediate
  {
    assert ToLower(OrElse(repo.description, "")) == "";
    forall k | 0 <= k < |AdvancedWords| + |BeginnerWords|
      ensures !MentionedBy(["LLM"], "")((AdvancedWords + BeginnerWords)[k])
    {
      var w := (AdvancedWords + BeginnerWords)[k];
      assert w != "LLM" by { assert w[0] != 'L'; }
      assert !Contains("", w) by { assert |w| > 0; }
    }
    assert forall k :: 0 <= k < |AdvancedWords| ==> AdvancedWords[k] == (AdvancedWords + BeginnerWords)[k];
    assert forall k :: 0 <= k < |BeginnerWords| ==> BeginnerWords[k] == (AdvancedWords + BeginnerWords)[|AdvancedWords| + k];
  }

  // ---------------------------------------------------------------------
  // One item per repository
  // ---------------------------------------------------------------------

  const NoDescription := "No description available"

  /** `Math.ceil(size / 100)`: the repository size in hundreds, rounded up. */
  function ReadMinutes(size: nat): (m: nat)
    ensures m * 100 >= size && m * 100 < size + 100
  {
    var m := CeilDiv(size, 100);
    assert m >= 0;
    m
  }

  /** `topics?.slice(0, 5) || [language].filter(Boolean)`: an empty topic list is kept. */
  function RepoTags(topics: Option<seq<string>>, language: Option<string>): (r: seq<string>)
    ensures |r| <= 5
    ensures topics.Some? ==> r == Take(topics.value, 5)
    ensures topics.None? && Falsy(language) ==> r == []
    ensures topics.None? && !Falsy(language) ==> r == [language.value]
  {
    if topics.Some? then Take(topics.value, 5)
    else if language.None? then []
    else Filter([language.value], NonEmpty)
  }

  /** The three insights before `.filter(Boolean)`. */
  function Insights(repo: Repo, fixed1: real -> string): seq<string> {
    [FormatNumber(repo.stars, fixed1) + " stars", FormatNumber(repo.forks, fixed1) + " forks",
     OrElse(LicenseName(repo), "No license specified")]
  }

  /** `Math.min(100, Math.floor(Math.log10(stars + 1) * 20))`. */
  function RepoEngagement(stars: nat, log20: nat -> int): (r: int)
    ensures r <= 100
    ensures log20(stars + 1) >= 0 ==> r >= 0
  {
    Min(100, log20(stars + 1))
  }

  /** The item for one repository. */
  function RepoOf(repo: Repo, log20: nat -> int, fixed1: real -> string, today: string): ContentItem {
    ContentItem(
      id := "gh-" + NatToString(repo.id), title := repo.fullName, contentType := ContentType.Repo,
      summary := OrElse(repo.description, NoDescription),
      keyInsights := Filter(Insights(repo, fixed1), NonEmpty),
      tags := RepoTags(repo.topics, repo.language),
      difficulty := DifficultyFromRepo(repo),
      readTime := NatToString(ReadMinutes(repo.size)) + " min",
      engagement := RepoEngagement(repo.stars, log20),
      source := "GitHub", author := OrElse(repo.ownerLogin, "Unknown"),
      publishedAt := PublishedDate(repo.createdAt, today),
      url := repo.htmlUrl,
      image := None, stars := Some(repo.stars), forks := Some(repo.forks),
      language := Some(OrElse(repo.language, "Unknown")),
      thumbnail := None, videoId := None, arxivId := None, toolCategory := None, pricing := None)
  }

  /** No insight is ever empty, so the filter keeps all three. */
  lemma InsightsKept(repo: Repo, fixed1: real -> string)
    ensures Filter(Insights(repo, fixed1), NonEmpty) == Insights(repo, fixed1)
  {
    var s := Insights(repo, fixed1);
    assert s[0] != "" by { assert |s[0]| >= |" stars"|; }
    assert s[1] != "" by { assert |s[1]| >= |" forks"|; }
    FilterAll(s, NonEmpty);
  }

  /** What every repository item looks like. */
  predicate RepoShape(v: ContentItem) {
    RepoIdentity(v) && RepoText(v)
  }

  /** The type, the source, and an id that leads the detail page back to the repositories. */
  predicate RepoIdentity(v: ContentItem) {
    && v.contentType == ContentType.Repo && ContentDetail.ClassifyId(v.id) == Some(ContentType.Repo)
    && v.source == "GitHub"
  }

  /** Defaults fill the summary, author and language; at most five tags, three insights. */
  predicate RepoText(v: ContentItem) {
    && v.summary != "" && v.author != ""
    && v.language.Some? && v.language.value != ""
    && |v.tags| <= 5 && |v.keyInsights| == 3 && v.engagement <= 100
  }

  /** Every item has the shape, with the id, stars and forks of its repository. */
  lemma RepoOfShape(repo: Repo, log20: nat -> int, fixed1: real -> string, today: string)
    ensures var v := RepoOf(repo, log20, fixed1, today);
      && RepoShape(v) && v.id == "gh-" + NatToString(repo.id)
      && v.stars == Some(repo.stars) && v.forks == Some(repo.forks)
  {
    RepoOfIdentity(repo, log20, fixed1, today);
    RepoOfText(repo, log20, fixed1, today);
  }

  lemma RepoOfIdentity(repo: Repo, log20: nat -> int, fixed1: real -> string, today: string)
    ensures var v := RepoOf(repo, log20, fixed1, today);
      RepoIdentity(v) && v.id == "gh-" + NatToString(repo.id)
  {
    ContentDetail.MintedIdsClassify(NatToString(repo.id));
  }

  lemma RepoOfText(repo: Repo, log20: nat -> int, fixed1: real -> string, today: string)
    ensures RepoText(RepoOf(repo, log20, fixed1, today))
  {
    InsightsKept(repo, fixed1);
  }

  // ---------------------------------------------------------------------
  // The handler
  // ---------------------------------------------------------------------

  datatype Answer = ReposFound(data: seq<ContentItem>) | Failure(status: int, error: string)

  const FailureText := "Failed to fetch repositories"

  /** The items of a search that went through: `data.items?.map(…) || []`. */
  function Repos(items: seq<Repo>, log20: nat -> int, fixed1: real -> string, today: string): seq<ContentItem> {
    seq(|items|, k requires 0 <= k < |items| => RepoOf(items[k], log20, fixed1, today))
  }

  /** A failed search passes its status on; an exception gives 500. */
  function Handle(reply: SearchReply, log20: nat -> int, fixed1: real -> string, today: string): Answer {
    match reply
    case SearchThrew => Failure(500, FailureText)
    case SearchNotOk(status) => Failure(status, FailureText)
    case SearchOk(items) => ReposFound(Repos(items.GetOr([]), log20, fixed1, today))
  }

  /**
   * A non-ok search answers its own status, an exception 500; a search that
   * went through answers one item of the right shape per result, in order.
   */
  lemma HandleMeaning(reply: SearchReply, log20: nat -> int, fixed1: real -> string, today: string)
    ensures var r := Handle(reply, log20, fixed1, today);
      && (reply.SearchNotOk? ==> r == Failure(reply.status, FailureText))
      && (reply.SearchThrew? ==> r == Failure(500, FailureText))
      && (reply.SearchOk? ==> r.ReposFound? && |r.data| == |reply.items.GetOr([])|)
      && (reply.SearchOk? ==> forall k :: 0 <= k < |r.data| ==>
            RepoShape(r.data[k]) && r.data[k].id == "gh-" + NatToString(reply.items.GetOr([])[k].id))
  {
    if reply.SearchOk? {
      var items := reply.items.GetOr([]);
      var data := Repos(items, log20, fixed1, today);
      forall k | 0 <= k < |data| ensures RepoShape(data[k]) && data[k].id == "gh-" + NatToString(items[k].id) {
        RepoOfShape(items[k], log20, fixed1, today);
      }
    }
  }
}
