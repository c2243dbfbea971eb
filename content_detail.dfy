/**
 * The detail page's lookup (src/pages/ContentDetail.tsx): the id prefix tells
 * which fetcher to ask; an id without a known prefix is looked up in all
 * content.
 */
module ContentDetail {
  import opened Wrappers
  import opened Strings
  import opened ContentModel
  import opened ContentApi

  /** The content type an id prefix stands for, or `None`. */
  function ClassifyId(id: string): (r: Option<ContentType>)
    ensures r == Some(Article) <==> StartsWith(id, "devto-") || StartsWith(id, "hn-")
    ensures r == Some(Repo) <==> StartsWith(id, "gh-")
    ensures r == Some(Paper) <==> StartsWith(id, "arxiv-")
    ensures r == Some(Video) <==> StartsWith(id, "yt-")
    ensures r == Some(Tool) <==> StartsWith(id, "tool-")
  {
    // The six prefixes start with six different letters.
    PrefixHead(id, "devto-");
    PrefixHead(id, "hn-");
    PrefixHead(id, "gh-");
    PrefixHead(id, "arxiv-");
    PrefixHead(id, "yt-");
    PrefixHead(id, "tool-");
    if StartsWith(id, "devto-") || StartsWith(id, "hn-") then Some(Article)
    else if StartsWith(id, "gh-") then Some(Repo)
    else if StartsWith(id, "arxiv-") then Some(Paper)
    else if StartsWith(id, "yt-") then Some(Video)
    else if StartsWith(id, "tool-") then Some(Tool)
    else None
  }

  lemma PrefixHead(id: string, p: string)
    requires p != []
    ensures StartsWith(id, p) ==> id != [] && id[0] == p[0]
  {
    if StartsWith(id, p) {
      assert id[..|p|][0] == id[0];
    }
  }

  lemma PrefixStarts(p: string, x: string)
    ensures StartsWith(p + x, p)
  {
    assert (p + x)[..|p|] == p;
  }

  /**
   * Every id the fetchers mint classifies to the type of the item it names:
   * `devto-` and `hn-` articles, `gh-` repositories, `arxiv-` papers, `yt-`
   * videos and `tool-` tools (`tool-gh-…` included).
   */
  lemma MintedIdsClassify(x: string)
    ensures ClassifyId("devto-" + x) == Some(Article)
    ensures ClassifyId("hn-" + x) == Some(Article)
    ensures ClassifyId("gh-" + x) == Some(Repo)
    ensures ClassifyId("arxiv-" + x) == Some(Paper)
    ensures ClassifyId("yt-" + x) == Some(Video)
    ensures ClassifyId("tool-" + x) == Some(Tool)
  {
    PrefixStarts("devto-", x);
    PrefixStarts("hn-", x);
    PrefixStarts("gh-", x);
    PrefixStarts("arxiv-", x);
    PrefixStarts("yt-", x);
    PrefixStarts("tool-", x);
  }

  /** `items.find(c => c.id === id)`. */
  function FindById(items: seq<ContentItem>, id: string): (r: Option<ContentItem>)
    ensures r.Some? ==> r.value in items && r.value.id == id
    ensures r.None? <==> !HasId(items, id)
    ensures r.Some? ==> exists k :: 0 <= k < |items| && items[k] == r.value && forall j :: 0 <= j < k ==> items[j].id != id
    decreases |items|
  {
    if items == [] then None
    else if items[0].id == id then Some(items[0])
    else
      var r := FindById(items[1..], id);
      assert r.Some? ==> exists k :: 0 <= k < |items| && items[k] == r.value && forall j :: 0 <= j < k ==> items[j].id != id by {
        if r.Some? {
          var k :| 0 <= k < |items[1..]| && items[1..][k] == r.value && forall j :: 0 <= j < k ==> items[1..][j].id != id;
          assert items[k + 1] == r.value;
          forall j | 0 <= j < k + 1 ensures items[j].id != id {
            if j > 0 { assert items[j] == items[1..][j - 1]; }
          }
        }
      }
      assert HasId(items, id) ==> HasId(items[1..], id) by {
        if HasId(items, id) {
          var k :| 0 <= k < |items| && items[k].id == id;
          assert items[1..][k - 1] == items[k];
        }
      }
      r
  }

  /** The item shown for a non-empty id: looked up in its type's list, or in all content. */
  function Lookup(id: string, invoke: string -> Invocation): Option<ContentItem> {
    match ClassifyId(id)
    case Some(t) => FindById(FetchByType(t, invoke), id)
    case None => FindById(FetchAllContent(invoke), id)
  }

  /** An id without a known prefix is found exactly when some list holds it. */
  lemma UnknownPrefixSearchesAll(id: string, invoke: string -> Invocation)
    requires ClassifyId(id) == None
    ensures Lookup(id, invoke).Some? <==> HasId(FetchAllContent(invoke), id)
    ensures Lookup(id, invoke).Some? ==> Lookup(id, invoke).value.id == id
  {
  }

  /** An item found through its type's fetcher is also in all content. */
  lemma TypedLookupInAll(id: string, invoke: string -> Invocation)
    requires ClassifyId(id).Some? && Lookup(id, invoke).Some?
    ensures Lookup(id, invoke).value in FetchAllContent(invoke)
    ensures Lookup(id, invoke).value.id == id
  {
    FetchedTypeInAll(ClassifyId(id).value, invoke, Lookup(id, invoke).value);
  }

  /** The page's state. */
  class DetailPage {
    var item: Option<ContentItem>
    var isLoading: bool

    constructor ()
      ensures item == None && isLoading
    {
      item, isLoading := None, true;
    }

    /** The effect for the route's id: nothing for an empty id. */
    method FetchItem(id: string, invoke: string -> Invocation)
      modifies this
      ensures id == "" ==> item == old(item) && isLoading == old(isLoading)
      ensures id != "" ==> item == Lookup(id, invoke) && !isLoading
    {
      if id == "" {
        return;
      }
      isLoading := true;
      var contentType := ClassifyId(id);
      if contentType.Some? {
        var items := FetchByType(contentType.value, invoke);
        item := FindById(items, id);
      } else {
        var all := FetchAllContent(invoke);
        item := FindById(all, id);
      }
      isLoading := false;
    }
  }
}
