/**
 * The `ContentItem` record shared by the client and the edge functions, and
 * the case-insensitive keyword match that the feed, the basic search and the
 * search fallback all apply to it.
 */
module ContentModel {
  import opened Wrappers
  import opened Strings

  datatype ContentType = Article | Repo | Paper | Video | Tool

  /** The `content_type` string of each kind. */
  function TypeName(t: ContentType): string {
    match t
    case Article => "article"
    case Repo => "repo"
    case Paper => "paper"
    case Video => "video"
    case Tool => "tool"
  }

  datatype Difficulty = Beginner | Intermediate | Advanced

  datatype ContentItem = ContentItem(
    id: string,
    title: string,
    contentType: ContentType,
    summary: string,
    keyInsights: seq<string>,
    tags: seq<string>,
    difficulty: Difficulty,
    readTime: string,
    engagement: int,
    source: string,
    author: string,
    publishedAt: string,
    url: string,
    image: Option<string>,
    stars: Option<int>,
    forks: Option<int>,
    language: Option<string>,
    thumbnail: Option<string>,
    videoId: Option<string>,
    arxivId: Option<string>,
    toolCategory: Option<string>,
    pricing: Option<string>)

  /** The sort key of every engagement-ordered list. */
  function Engagement(item: ContentItem): int {
    item.engagement
  }

  /** Some element of `tags`, lowercased, contains `q`. */
  predicate SomeTagContains(tags: seq<string>, q: string) {
    exists k :: 0 <= k < |tags| && Contains(ToLower(tags[k]), q)
  }

  /**
   * The keyword match: the lowercased title, summary or one of the lowercased
   * tags contains the lowercased query.
   */
  predicate MatchesQuery(item: ContentItem, query: string) {
    var q := ToLower(query);
    Contains(ToLower(item.title), q) || Contains(ToLower(item.summary), q) || SomeTagContains(item.tags, q)
  }

  /** The keyword match on title, summary or tags, as a filter. */
  function MatchesOf(query: string): ContentItem -> bool {
    (item: ContentItem) => MatchesQuery(item, query)
  }

  /** The match on title or summary alone (the semantic search's exact match). */
  predicate TitleOrSummaryContains(item: ContentItem, query: string) {
    var q := ToLower(query);
    Contains(ToLower(item.title), q) || Contains(ToLower(item.summary), q)
  }

  /** A possibly missing string that JavaScript's `||` passes over. */
  predicate Falsy(o: Option<string>) {
    o.None? || o.value == ""
  }

  /** `o || d` on a possibly missing string. */
  function OrElse(o: Option<string>, d: string): (r: string)
    ensures Falsy(o) ==> r == d
    ensures !Falsy(o) ==> r == o.value
  {
    if Falsy(o) then d else o.value
  }

  /** `Boolean` as a filter on strings. */
  function NonEmpty(s: string): bool {
    s != ""
  }

  /** `publishedAt?.split('T')[0] || today`: the date part of a timestamp, else today's date. */
  function PublishedDate(publishedAt: Option<string>, today: string): (r: string)
    ensures publishedAt.Some? && publishedAt.value != "" && publishedAt.value[0] != 'T' ==>
      r != "" && StartsWith(publishedAt.value, r) && !Contains(r, "T") && r == Before(publishedAt.value, "T")
    ensures publishedAt.Some? && !Contains(publishedAt.value, "T") && publishedAt.value != "" ==> r == publishedAt.value
    ensures publishedAt.None? || publishedAt.value == "" || publishedAt.value[0] == 'T' ==> r == today
  {
    if publishedAt.Some? && publishedAt.value != "" && publishedAt.value[0] == 'T' then
      assert OccursAt(publishedAt.value, "T", 0);
      today
    else if publishedAt.Some? && Before(publishedAt.value, "T") != "" then Before(publishedAt.value, "T") else today
  }

  /** The items in `s` whose `id` is `id`. */
  predicate HasId(s: seq<ContentItem>, id: string) {
    exists k :: 0 <= k < |s| && s[k].id == id
  }
}
