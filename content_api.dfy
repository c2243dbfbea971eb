/**
 * The client's content API (src/lib/api/content.ts): one fetcher per content
 * type, the merged feed of all of them, and the search with its local
 * fallback.
 *
 * `invoke` is `supabase.functions.invoke`: it is given as a function from the
 * edge function's name to what the call gave.
 */
module ContentApi {
  import opened Wrappers
  import opened Seqs
  import opened Json
  import opened ContentModel
  import opened SemanticSearch

  /** What one call of an edge function gave. */
  datatype Invocation =
    | Threw                                   // the call threw
    | Errored                                 // `error` was set
    | Returned(data: Option<seq<ContentItem>>) // `data?.data`: the items, or `None` when absent or falsy

  /** The edge function behind each content type. */
  function Endpoint(t: ContentType): string {
    match t
    case Article => "fetch-articles"
    case Repo => "fetch-repos"
    case Paper => "fetch-papers"
    case Video => "fetch-videos"
    case Tool => "fetch-tools"
  }

  /** Each type has its own edge function. */
  lemma EndpointInjective(s: ContentType, t: ContentType)
    ensures Endpoint(s) == Endpoint(t) ==> s == t
  {
  }

  /** `fetchArticles`, …, `fetchTools`: the items of `data.data`, and `[]` on an error, an exception or no data. */
  function Fetch(t: ContentType, invoke: string -> Invocation): (r: seq<ContentItem>)
    ensures invoke(Endpoint(t)).Returned? && invoke(Endpoint(t)).data.Some? ==> r == invoke(Endpoint(t)).data.value
    ensures !(invoke(Endpoint(t)).Returned? && invoke(Endpoint(t)).data.Some?) ==> r == []
  {
    match invoke(Endpoint(t))
    case Returned(Some(items)) => items
    case _ => []
  }

  /** `fetchByType`: dispatches each type to its own fetcher. */
  function FetchByType(t: ContentType, invoke: string -> Invocation): (r: seq<ContentItem>)
    ensures r == Fetch(t, invoke)
  {
    match t
    case Article => Fetch(Article, invoke)
    case Repo => Fetch(Repo, invoke)
    case Paper => Fetch(Paper, invoke)
    case Video => Fetch(Video, invoke)
    case Tool => Fetch(Tool, invoke)
  }

  /** The five lists in the order of the `Promise.all`. */
  function AllFetched(invoke: string -> Invocation): seq<ContentItem> {
    Fetch(Article, invoke) + Fetch(Repo, invoke) + Fetch(Paper, invoke) + Fetch(Video, invoke) + Fetch(Tool, invoke)
  }

  /** `fetchAllContent`: the five lists merged and sorted by engagement (the fetchers never throw). */
  function FetchAllContent(invoke: string -> Invocation): seq<ContentItem> {
    SortDesc(AllFetched(invoke), Engagement)
  }

  /**
   * The merged feed is ordered by engagement from the highest, holds exactly
   * the items of the five lists, and keeps the list order among items with
   * the same engagement.
   */
  lemma FetchAllContentMeaning(invoke: string -> Invocation, e: int)
    ensures SortedDesc(FetchAllContent(invoke), Engagement)
    ensures multiset(FetchAllContent(invoke)) ==
      multiset(Fetch(Article, invoke)) + multiset(Fetch(Repo, invoke)) + multiset(Fetch(Paper, invoke))
      + multiset(Fetch(Video, invoke)) + multiset(Fetch(Tool, invoke))
    ensures WithKey(FetchAllContent(invoke), Engagement, e) == WithKey(AllFetched(invoke), Engagement, e)
  {
    SortDescSorted(AllFetched(invoke), Engagement);
    SortDescPermutation(AllFetched(invoke), Engagement);
    SortDescStable(AllFetched(invoke), Engagement, e);
  }

  /** Every item a single fetcher returns is in the merged feed. */
  lemma FetchedTypeInAll(t: ContentType, invoke: string -> Invocation, item: ContentItem)
    requires item in FetchByType(t, invoke)
    ensures item in FetchAllContent(invoke)
  {
    FetchAllContentMeaning(invoke, 0);
    assert item in multiset(FetchAllContent(invoke));
  }

  /** `basicSearch`: the keyword search with the intent `'Basic search'`; sorts `content` in place when nothing matches. */
  method BasicSearch(query: string, content: array<ContentItem>) returns (r: SearchResult)
    modifies content
    ensures r == KeywordResult(query, old(content[..]), "Basic search")
    ensures content[..] == if Filter(old(content[..]), MatchesOf(query)) == []
      then SortDesc(old(content[..]), Engagement) else old(content[..])
  {
    r := KeywordSearch(query, content, "Basic search");
  }

  /** What the call of the `semantic-search` function gave. */
  datatype SearchCall = CallThrew | CallErrored | CallReturned(data: Option<Json>)

  /** The client's search result: the server's `data.data` as received, or the local search. */
  datatype ClientResult = Remote(data: Json) | Local(result: SearchResult)

  /**
   * `semanticSearch`: the server's `data.data` when it is truthy, and the
   * basic search in every other case, so the call never fails.
   */
  method SemanticSearchCall(query: string, content: array<ContentItem>, call: SearchCall) returns (r: ClientResult)
    modifies content
    ensures call.CallReturned? && TruthyOpt(Field(call.data, "data")) ==>
      r == Remote(Field(call.data, "data").value) && content[..] == old(content[..])
    ensures !(call.CallReturned? && TruthyOpt(Field(call.data, "data"))) ==>
      r == Local(KeywordResult(query, old(content[..]), "Basic search"))
      && content[..] == if Filter(old(content[..]), MatchesOf(query)) == []
        then SortDesc(old(content[..]), Engagement) else old(content[..])
  {
    if call.CallReturned? && TruthyOpt(Field(call.data, "data")) {
      return Remote(Field(call.data, "data").value);
    }
    var basic := BasicSearch(query, content);
    r := Local(basic);
  }
}
