/**
 * The content feed (src/components/content/ContentFeed.tsx): which list is
 * fetched for the active filter, the filtered and ordered view of it, and
 * the set of saved ids.
 */
module ContentFeed {
  import opened Wrappers
  import opened Strings
  import opened Seqs
  import opened ContentModel
  import opened ContentApi

  /** What loading does for a filter value. */
  datatype Plan =
    | NoFetch                 // `analytics`: the effect does nothing
    | FetchAll                // `all`, `trending`, `saved`
    | FetchOne(t: ContentType) // `article`, `repo`, `paper`, `video`
    | NoData                  // any other value: the content becomes `[]`

  function PlanFor(filter: string): (p: Plan)
    ensures p == NoFetch <==> filter == "analytics"
    ensures p == FetchAll <==> filter in {"all", "trending", "saved"}
    ensures p.FetchOne? ==> filter == TypeName(p.t) && p.t != Tool
    ensures filter == "tool" ==> p == NoData
  {
    if filter == "analytics" then NoFetch
    else if filter == "all" || filter == "trending" then FetchAll
    else if filter == "article" then FetchOne(Article)
    else if filter == "repo" then FetchOne(Repo)
    else if filter == "paper" then FetchOne(Paper)
    else if filter == "video" then FetchOne(Video)
    else if filter == "saved" then FetchAll
    else NoData
  }

  /** The content a plan leads to (only defined when a fetch runs). */
  function Loaded(p: Plan, invoke: string -> Invocation): seq<ContentItem>
    requires p != NoFetch
  {
    match p
    case FetchAll => FetchAllContent(invoke)
    case FetchOne(t) => Fetch(t, invoke)
    case NoData => []
  }

  /** The four fetched types load exactly their fetcher's list; every other value but the three feed filters loads nothing. */
  lemma LoadedMeaning(filter: string, invoke: string -> Invocation)
    requires filter != "analytics"
    ensures filter in {"article", "repo", "paper", "video"} ==>
      exists t :: TypeName(t) == filter && Loaded(PlanFor(filter), invoke) == FetchByType(t, invoke)
    ensures filter !in {"all", "trending", "saved", "article", "repo", "paper", "video"} ==>
      Loaded(PlanFor(filter), invoke) == []
  {
    if filter in {"article", "repo", "paper", "video"} {
      var t := PlanFor(filter).t;
      assert TypeName(t) == filter;
    }
  }

  /** The `saved` step. */
  function SavedOf(saved: set<string>): ContentItem -> bool {
    (item: ContentItem) => item.id in saved
  }

  /** `filteredContent`: the saved step, then the trending sort of a copy, then the search. */
  function FilteredContent(content: seq<ContentItem>, filter: string, query: string, saved: set<string>): seq<ContentItem> {
    var a := if filter == "saved" then Filter(content, SavedOf(saved)) else content;
    var b := if filter == "trending" then SortDesc(a, Engagement) else a;
    if query != "" then Filter(b, MatchesOf(query)) else b
  }

  /** Without a query, `saved` keeps exactly the saved items, in order. */
  lemma SavedView(content: seq<ContentItem>, saved: set<string>)
    ensures var r := FilteredContent(content, "saved", "", saved);
      IsSubsequence(r, content)
      && (forall k :: 0 <= k < |r| ==> r[k].id in saved)
      && (forall k :: 0 <= k < |content| && content[k].id in saved ==> content[k] in r)
  {
    FilterIsSubsequence(content, SavedOf(saved));
  }

  /** Without a query, `trending` is the content ordered by engagement: a reordering of it, stable on ties. */
  lemma TrendingView(content: seq<ContentItem>, saved: set<string>, e: int)
    ensures var r := FilteredContent(content, "trending", "", saved);
      SortedDesc(r, Engagement) && multiset(r) == multiset(content)
      && WithKey(r, Engagement, e) == WithKey(content, Engagement, e)
  {
    SortDescSorted(content, Engagement);
    SortDescPermutation(content, Engagement);
    SortDescStable(content, Engagement, e);
  }

  /** A query keeps exactly the matching items of the filtered list, in its order. */
  lemma QueryView(content: seq<ContentItem>, filter: string, query: string, saved: set<string>)
    requires query != ""
    ensures var base := FilteredContent(content, filter, "", saved);
      var r := FilteredContent(content, filter, query, saved);
      IsSubsequence(r, base)
      && (forall k :: 0 <= k < |r| ==> MatchesQuery(r[k], query))
      && (forall k :: 0 <= k < |base| && MatchesQuery(base[k], query) ==> base[k] in r)
  {
    var base := FilteredContent(content, filter, "", saved);
    FilterIsSubsequence(base, MatchesOf(query));
    forall k | 0 <= k < |base| && MatchesQuery(base[k], query) ensures base[k] in Filter(base, MatchesOf(query)) {
      assert MatchesOf(query)(base[k]);
    }
  }

  /** `toggleSave(id)` on the set. */
  function Toggled(saved: set<string>, id: string): (r: set<string>)
    ensures id in r <==> id !in saved
    ensures forall x :: x != id ==> (x in r <==> x in saved)
  {
    if id in saved then saved - {id} else saved + {id}
  }

  /** Toggling an id twice restores the set. */
  lemma ToggleTwice(saved: set<string>, id: string)
    ensures Toggled(Toggled(saved, id), id) == saved
  {
  }

  /** The feed's state. */
  class Feed {
    var savedItems: set<string>
    var content: seq<ContentItem>
    var isLoading: bool

    constructor ()
      ensures savedItems == {} && content == [] && isLoading
    {
      savedItems, content, isLoading := {}, [], true;
    }

    /** The list on screen for the current filter and query. */
    function Shown(filter: string, query: string): seq<ContentItem>
      reads this
    {
      FilteredContent(content, filter, query, savedItems)
    }

    /** `toggleSave`: copies the set, then adds or deletes the id. */
    method ToggleSave(id: string)
      modifies this`savedItems
      ensures savedItems == Toggled(old(savedItems), id)
    {
      var next := savedItems;
      if id in next {
        next := next - {id};
      } else {
        next := next + {id};
      }
      savedItems := next;
    }

    /** The effect for a new filter value; `analytics` leaves everything as it was. */
    method Load(filter: string, invoke: string -> Invocation)
      modifies this`content, this`isLoading
      ensures filter == "analytics" ==> content == old(content) && isLoading == old(isLoading)
      ensures filter != "analytics" ==> content == Loaded(PlanFor(filter), invoke) && !isLoading
    {
      var plan := PlanFor(filter);
      if plan == NoFetch {
        return;
      }
      isLoading := true;
      var data: seq<ContentItem> := [];
      if plan.FetchAll? {
        data := FetchAllContent(invoke);
      } else if plan.FetchOne? {
        data := Fetch(plan.t, invoke);
      }
      content := data;
      isLoading := false;
    }
  }
}
