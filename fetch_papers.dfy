/**
 * The arXiv fetcher (supabase/functions/fetch-papers/index.ts): the Atom feed
 * arrives as text and is taken apart with regular expressions, one `exec`
 * loop for the `<entry>` elements and one each for the authors and the
 * categories of an entry; every entry with an id and a title becomes a paper.
 *
 * Each matcher is modelled on the text it searches: a `/g` loop that has
 * consumed the text up to `lastIndex` searches on exactly as a fresh search
 * of the rest would, as none of these patterns looks behind or is anchored.
 * `Math.random()` and today's date are inputs: the `n`-th paper's engagement
 * is `70 + rolls(n) % 30`.
 */
module FetchPapers {
  import opened Wrappers
  import opened Strings
  import opened Seqs
  import opened ContentModel

  // ---------------------------------------------------------------------
  // `<entry>([\s\S]*?)<\/entry>`
  // ---------------------------------------------------------------------

  /**
   * The match of the entry pattern from `from` on, `from` being the regular
   * expression's `lastIndex`: where its content starts and ends. The content
   * runs to the first `</entry>` after the first `<entry>`; when that
   * `<entry>` has no `</entry>` after it, no later one has either, so there
   * is no match at all.
   */
  function NextEntry(xml: string, from: nat): (r: Option<(nat, nat)>)
    ensures r.Some? ==> from + 7 <= r.value.0 <= r.value.1 && r.value.1 + 8 <= |xml|
  {
    match FindFrom(xml, "<entry>", from)
    case None => None
    case Some(i) =>
      match FindFrom(xml, "</entry>", i + 7)
      case None => None
      case Some(j) => Some((i + 7, j))
  }

  /**
   * What `NextEntry` finds: the first `<entry>` from `from` on, and the
   * content after it up to the first `</entry>`, which therefore holds none.
   */
  lemma {:induction false} NextEntrySpec(xml: string, from: nat)
    ensures var r := NextEntry(xml, from);
      r.Some? ==> (OccursAt(xml, "<entry>", r.value.0 - 7) && OccursAt(xml, "</entry>", r.value.1)
        && (forall j: nat :: from <= j < r.value.0 - 7 ==> !OccursAt(xml, "<entry>", j))
        && !Contains(xml[r.value.0..r.value.1], "</entry>"))
  {
    FindFromSpec(xml, "<entry>", from);
    var i := FindFrom(xml, "<entry>", from);
    if i.Some? {
      FindFromSpec(xml, "</entry>", i.value + 7);
      var j := FindFrom(xml, "</entry>", i.value + 7);
      if j.Some? {
        NoOccurrenceBetween(xml, "</entry>", i.value + 7, j.value);
      }
    }
  }

  /** The contents of the entries from `from` on, in document order, as the `exec` loop visits them. */
  function Entries(xml: string, from: nat): seq<string>
    decreases |xml| - from
  {
    var m := NextEntry(xml, from);
    if m.None? then [] else [xml[m.value.0..m.value.1]] + Entries(xml, m.value.1 + 8)
  }

  /** No entry content holds `</entry>`. */
  lemma {:induction false} EntriesNoEndTag(xml: string, from: nat)
    ensures forall k :: 0 <= k < |Entries(xml, from)| ==> !Contains(Entries(xml, from)[k], "</entry>")
    decreases |xml| - from
  {
    var m := NextEntry(xml, from);
    if m.Some? {
      NextEntrySpec(xml, from);
      EntriesNoEndTag(xml, m.value.1 + 8);
    }
  }

  /** A feed: each content wrapped in `<entry>` … `</entry>`, one after the other. */
  function Feed(contents: seq<string>): string
    decreases |contents|
  {
    if contents == [] then "" else "<entry>" + contents[0] + "</entry>" + Feed(contents[1..])
  }

  /** Parsing a feed after a header without `<entry>` gives back exactly its contents. */
  lemma {:induction false} FeedEntries(header: string, contents: seq<string>)
    requires !Contains(header, "<entry>")
    requires forall k :: 0 <= k < |contents| ==> !Contains(contents[k], "</entry>")
    ensures Entries(header + Feed(contents), 0) == contents
  {
    var s := header + Feed(contents);
    assert s[0..|header|] == header && s[|header|..] == Feed(contents);
    if contents == [] {
      FindNone([], header, "<entry>");
      assert [] + header == s;
    } else {
      FeedEntriesFrom(s, 0, |header|, contents);
    }
  }

  /** Parsing from `from` when a feed starts at `i` and runs to the end, with no `<entry>` in between. */
  lemma {:induction false} FeedEntriesFrom(s: string, from: nat, i: nat, contents: seq<string>)
    requires from <= i <= |s| && s[i..] == Feed(contents) && !Contains(s[from..i], "<entry>")
    requires forall k :: 0 <= k < |contents| ==> !Contains(contents[k], "</entry>")
    ensures Entries(s, from) == contents
    decreases |contents|
  {
    if contents == [] {
      assert s == s[..from] + s[from..i] && |s| == i;
      FindNone(s[..from], s[from..i], "<entry>");
    } else {
      var j := i + 7 + |contents[0]|;
      FeedPieces(s, i, contents);
      EntryAt(s, from, i, j);
      assert s[j + 8..j + 8] == [];
      NoCharNoMatch([], '<', "<entry>");
      FeedEntriesFrom(s, j + 8, j + 8, contents[1..]);
    }
  }

  /** Where the pieces of the first entry of a feed lie. */
  lemma {:induction false} FeedPieces(s: string, i: nat, contents: seq<string>)
    requires i <= |s| && s[i..] == Feed(contents) && contents != []
    ensures var j := i + 7 + |contents[0]|;
      && j + 8 <= |s| && OccursAt(s, "<entry>", i) && s[i + 7..j] == contents[0]
      && OccursAt(s, "</entry>", j) && s[j + 8..] == Feed(contents[1..])
  {
    var x := contents[0];
    var j := i + 7 + |x|;
    var f := s[i..];
    assert f == "<entry>" + x + "</entry>" + Feed(contents[1..]);
    assert s[i..][..7] == f[..7] == "<entry>";
    assert s[i + 7..j] == f[7..7 + |x|] == x;
    assert s[j..][..8] == f[7 + |x|..][..8] == "</entry>";
    assert s[j + 8..] == f[15 + |x|..] == Feed(contents[1..]);
  }

  /** An entry whose pieces are known by position is the next one read from `from`. */
  lemma {:induction false} EntryAt(s: string, from: nat, i: nat, j: nat)
    requires from <= i && i + 7 <= j && j + 8 <= |s|
    requires OccursAt(s, "<entry>", i) && !Contains(s[from..i], "<entry>")
    requires OccursAt(s, "</entry>", j) && !Contains(s[i + 7..j], "</entry>")
    ensures Entries(s, from) == [s[i + 7..j]] + Entries(s, j + 8)
  {
    assert HeadUnique("<entry>") && HeadUnique("</entry>");
    FindFirst(s, "<entry>", from, i);
    FindFirst(s, "</entry>", i + 7, j);
    NextEntryIs(s, from, i, j);
    EntriesCons(s, from, i + 7, j);
  }

  lemma {:induction false} NextEntryIs(s: string, from: nat, i: nat, j: nat)
    requires FindFrom(s, "<entry>", from) == Some(i) && FindFrom(s, "</entry>", i + 7) == Some(j)
    ensures NextEntry(s, from) == Some((i + 7, j))
  {
  }

  /** One step of `Entries`: the entry found, then the entries after its end tag. */
  lemma {:induction false} EntriesCons(s: string, from: nat, a: nat, b: nat)
    requires NextEntry(s, from) == Some((a, b))
    ensures b + 8 <= |s| && Entries(s, from) == [s[a..b]] + Entries(s, b + 8)
  {
  }

  // ---------------------------------------------------------------------
  // `extractTag`: `<tag[^>]*>([\s\S]*?)<\/tag>`
  // ---------------------------------------------------------------------

  /**
   * The first match, trimmed. The opening tag ends at the first `>` after
   * `<tag`, the content at the first `</tag>` after that. When the first
   * `<tag` has no such ending no later one has, so there is no match.
   */
  function ExtractTag(xml: string, tag: string): (r: Option<string>)
    ensures r.Some? ==> Trim(r.value) == r.value
  {
    match OpenTagEnd(xml, tag)
    case None => None
    case Some(g) =>
      match FindFrom(xml, "</" + tag + ">", g + 1)
      case None => None
      case Some(j) =>
        TrimTrimmed(xml[g + 1..j]);
        Some(Trim(xml[g + 1..j]))
  }

  /** Where the first `<tag` opening tag ends: the first `>` after it. */
  function OpenTagEnd(xml: string, tag: string): (r: Option<nat>)
    ensures r.Some? ==> r.value < |xml| && xml[r.value] == '>'
  {
    match FindFrom(xml, "<" + tag, 0)
    case None => None
    case Some(i) =>
      var g := FindFrom(xml, ">", i + 1 + |tag|);
      FindFromSpec(xml, ">", i + 1 + |tag|);
      if g.Some? then assert xml[g.value..][..1] == ">"; g else None
  }

  lemma {:induction false} OpenTagEndAt(s: string, tag: string, i: nat, g: nat)
    requires FindFrom(s, "<" + tag, 0) == Some(i) && FindFrom(s, ">", i + 1 + |tag|) == Some(g)
    ensures OpenTagEnd(s, tag) == Some(g)
  {
  }

  lemma {:induction false} ExtractTagAt(s: string, tag: string, g: nat, j: nat)
    requires OpenTagEnd(s, tag) == Some(g) && FindFrom(s, "</" + tag + ">", g + 1) == Some(j)
    ensures g + 1 <= j <= |s| && ExtractTag(s, tag) == Some(Trim(s[g + 1..j]))
  {
  }

  /** The first element named `tag` gives its trimmed content. */
  lemma {:induction false} ExtractTagElement(pre: string, tag: string, x: string, post: string)
    requires NoChar(tag, '<')
    requires !Contains(pre, "<" + tag) && !Contains(x, "</" + tag + ">")
    ensures ExtractTag(pre + "<" + tag + ">" + x + "</" + tag + ">" + post, tag) == Some(Trim(x))
  {
    var open, close := "<" + tag, "</" + tag + ">";
    var s := pre + "<" + tag + ">" + x + "</" + tag + ">" + post;
    assert HeadUnique(open) by {
      forall k | 1 <= k < |open| ensures open[k] != open[0] {
        assert open[k] == tag[k - 1];
      }
    }
    assert HeadUnique(close) by {
      forall k | 1 <= k < |close| ensures close[k] != close[0] {
        if 2 <= k < |close| - 1 {
          assert close[k] == tag[k - 2];
        }
      }
    }
    var i := |pre|;
    var g := i + |open|;
    var j := g + 1 + |x|;
    assert s[i..][..|open|] == open;
    assert s[0..i] == pre;
    assert s[g..][..1] == ">";
    assert s[j..][..|close|] == close;
    assert s[g + 1..j] == x;
    ExtractTagFrom(s, tag, i, j);
  }

  /** `ExtractTag` on a text whose pieces are known by position. */
  lemma {:induction false} ExtractTagFrom(s: string, tag: string, i: nat, j: nat)
    requires HeadUnique("<" + tag) && HeadUnique("</" + tag + ">")
    requires i + |tag| + 2 <= j
    requires OccursAt(s, "<" + tag, i) && !Contains(s[0..i], "<" + tag)
    requires OccursAt(s, ">", i + 1 + |tag|)
    requires OccursAt(s, "</" + tag + ">", j) && !Contains(s[i + |tag| + 2..j], "</" + tag + ">")
    ensures ExtractTag(s, tag) == Some(Trim(s[i + |tag| + 2..j]))
  {
    var g := i + 1 + |tag|;
    FindFirst(s, "<" + tag, 0, i);
    assert s[g..g] == [];
    FindFirst(s, ">", g, g);
    OpenTagEndAt(s, tag, i, g);
    FindFirst(s, "</" + tag + ">", g + 1, j);
    ExtractTagAt(s, tag, g, j);
  }

  // ---------------------------------------------------------------------
  // `extractAuthors`: `<author>[\s\S]*?<name>([^<]+)<\/name>[\s\S]*?<\/author>`
  // ---------------------------------------------------------------------

  /** The end of the run of characters other than `c` that starts at `from`. */
  function RunEnd(s: string, from: nat, c: char): (e: nat)
    requires from <= |s|
    ensures from <= e <= |s| && (e < |s| ==> s[e] == c)
    ensures forall k :: from <= k < e ==> s[k] != c
    decreases |s| - from
  {
    if from == |s| || s[from] == c then from else RunEnd(s, from + 1, c)
  }

  lemma {:induction false} RunEndIs(s: string, from: nat, c: char, e: nat)
    requires from <= e <= |s| && (e < |s| ==> s[e] == c)
    requires forall k :: from <= k < e ==> s[k] != c
    ensures RunEnd(s, from, c) == e
    decreases e - from
  {
    if from < e {
      RunEndIs(s, from + 1, c, e);
    }
  }

  /** `<name>([^<]+)<\/name>` at `p`: the bounds of the name. */
  function NameAt(s: string, p: nat): (r: Option<(nat, nat)>)
    ensures r.Some? ==> p + 6 == r.value.0 < r.value.1 && OccursAt(s, "</name>", r.value.1)
  {
    if OccursAt(s, "<name>", p) then
      var e := RunEnd(s, p + 6, '<');
      if p + 6 < e && OccursAt(s, "</name>", e) then Some((p + 6, e)) else None
    else None
  }

  /** The lazy gap: the first `<name>` at or after `from` that starts a well-formed name. */
  function FirstName(s: string, from: nat): (r: Option<(nat, nat)>)
    ensures r.Some? ==> from + 6 <= r.value.0 < r.value.1 && OccursAt(s, "</name>", r.value.1)
    decreases |s| - from
  {
    match FindFrom(s, "<name>", from)
    case None => None
    case Some(p) => if NameAt(s, p).Some? then NameAt(s, p) else FirstName(s, p + 1)
  }

  /**
   * The match of the author pattern from `from` on, `from` being the regular
   * expression's `lastIndex`: the bounds of the name and where the match
   * ends. From the first `<author>` the lazy gap reaches the first
   * well-formed name and then the first `</author>`; a later `<author>` or a
   * later name could only find an end tag further on, so when this fails
   * there is no match.
   */
  function NextAuthor(s: string, from: nat): (r: Option<(nat, nat, nat)>)
    ensures r.Some? ==> from < r.value.0 < r.value.1 < r.value.2 <= |s|
  {
    match FindFrom(s, "<author>", from)
    case None => None
    case Some(i) => AuthorFrom(s, i + 8)
  }

  /** The rest of the match once `<author>` has been read up to `at`: the name, then the first `</author>` after it. */
  function AuthorFrom(s: string, at: nat): (r: Option<(nat, nat, nat)>)
    ensures r.Some? ==> at + 6 <= r.value.0 < r.value.1 < r.value.2 <= |s|
  {
    match FirstName(s, at)
    case None => None
    case Some(name) =>
      match FindFrom(s, "</author>", name.1 + 7)
      case None => None
      case Some(k) => Some((name.0, name.1, k + 9))
  }

  /** The trimmed author names from `from` on, in order, as the `exec` loop visits them. */
  function Authors(s: string, from: nat): seq<string>
    decreases |s| - from
  {
    var m := NextAuthor(s, from);
    if m.None? then [] else [Trim(s[m.value.0..m.value.1])] + Authors(s, m.value.2)
  }

  /** One step of `Authors`: the name found, then the names after the end of its match. */
  lemma {:induction false} AuthorsCons(s: string, from: nat, q: nat, e: nat, end: nat)
    requires NextAuthor(s, from) == Some((q, e, end))
    ensures q < e < end <= |s| && Authors(s, from) == [Trim(s[q..e])] + Authors(s, end)
  {
  }

  /** An author element whose pieces are known by position is the next one read from `from`. */
  lemma {:induction false} AuthorsAt(s: string, from: nat, i: nat, p: nat, e: nat, k: nat)
    requires from <= i && i + 8 <= p && p + 6 < e && e + 7 <= k && k + 9 <= |s|
    requires OccursAt(s, "<author>", i) && !Contains(s[from..i], "<author>")
    requires OccursAt(s, "<name>", p) && NoChar(s[i + 8..p], '<')
    requires OccursAt(s, "</name>", e) && NoChar(s[p + 6..e], '<')
    requires OccursAt(s, "</author>", k) && NoChar(s[e + 7..k], '<')
    ensures Authors(s, from) == [Trim(s[p + 6..e])] + Authors(s, k + 9)
  {
    var q, end := p + 6, k + 9;
    NextAuthorAt(s, from, i, p, e, k);
    AuthorsCons(s, from, q, e, end);
  }

  /** `NextAuthor` on a text whose pieces are known by position. */
  lemma {:induction false} NextAuthorAt(s: string, from: nat, i: nat, p: nat, e: nat, k: nat)
    requires from <= i && i + 8 <= p && p + 6 < e && e + 7 <= k
    requires OccursAt(s, "<author>", i) && !Contains(s[from..i], "<author>")
    requires OccursAt(s, "<name>", p) && NoChar(s[i + 8..p], '<')
    requires OccursAt(s, "</name>", e) && NoChar(s[p + 6..e], '<')
    requires OccursAt(s, "</author>", k) && NoChar(s[e + 7..k], '<')
    ensures NextAuthor(s, from) == Some((p + 6, e, k + 9))
  {
    AuthorFound(s, from, i);
    NameFound(s, i, p);
    NameAtIs(s, p, e);
    AuthorEndFound(s, e, k);
    AuthorFromIs(s, i + 8, p, e, k);
    NextAuthorIs(s, from, i, Some((p + 6, e, k + 9)));
  }

  lemma {:induction false} NextAuthorIs(s: string, from: nat, i: nat, r: Option<(nat, nat, nat)>)
    requires FindFrom(s, "<author>", from) == Some(i) && AuthorFrom(s, i + 8) == r
    ensures NextAuthor(s, from) == r
  {
  }

  lemma {:induction false} AuthorFound(s: string, from: nat, i: nat)
    requires from <= i && OccursAt(s, "<author>", i) && !Contains(s[from..i], "<author>")
    ensures FindFrom(s, "<author>", from) == Some(i)
  {
    assert HeadUnique("<author>");
    FindFirst(s, "<author>", from, i);
  }

  lemma {:induction false} NameFound(s: string, i: nat, p: nat)
    requires i + 8 <= p && OccursAt(s, "<name>", p) && NoChar(s[i + 8..p], '<')
    ensures FindFrom(s, "<name>", i + 8) == Some(p)
  {
    assert HeadUnique("<name>");
    NoCharNoMatch(s[i + 8..p], '<', "<name>");
    FindFirst(s, "<name>", i + 8, p);
  }

  lemma {:induction false} AuthorEndFound(s: string, e: nat, k: nat)
    requires e + 7 <= k && OccursAt(s, "</author>", k) && NoChar(s[e + 7..k], '<')
    ensures FindFrom(s, "</author>", e + 7) == Some(k)
  {
    assert HeadUnique("</author>");
    NoCharNoMatch(s[e + 7..k], '<', "</author>");
    FindFirst(s, "</author>", e + 7, k);
  }

  lemma {:induction false} NameAtIs(s: string, p: nat, e: nat)
    requires p + 6 < e && OccursAt(s, "<name>", p)
    requires OccursAt(s, "</name>", e) && NoChar(s[p + 6..e], '<')
    ensures NameAt(s, p) == Some((p + 6, e))
  {
    assert s[e] == s[e..][..7][0];
    forall j | p + 6 <= j < e ensures s[j] != '<' {
      assert s[j] == s[p + 6..e][j - p - 6];
    }
    RunEndIs(s, p + 6, '<', e);
  }

  lemma {:induction false} AuthorFromIs(s: string, at: nat, p: nat, e: nat, k: nat)
    requires FindFrom(s, "<name>", at) == Some(p) && NameAt(s, p) == Some((p + 6, e))
    requires FindFrom(s, "</author>", e + 7) == Some(k)
    ensures AuthorFrom(s, at) == Some((p + 6, e, k + 9))
  {
    assert FirstName(s, at) == NameAt(s, p);
  }

  /** `extractAuthors`: the `exec` loop, pushing each trimmed name. */
  method ExtractAuthors(entry: string) returns (authors: seq<string>)
    ensures authors == Authors(entry, 0)
  {
    authors := [];
    var pos := 0;
    while true
      invariant pos <= |entry|
      invariant authors + Authors(entry, pos) == Authors(entry, 0)
      decreases |entry| - pos
    {
      var m := NextAuthor(entry, pos);
      if m.None? {
        break;
      }
      AuthorsCons(entry, pos, m.value.0, m.value.1, m.value.2);
      var name := Trim(entry[m.value.0..m.value.1]);
      AppendStep(authors, name, Authors(entry, m.value.2), Authors(entry, 0));
      authors := authors + [name];
      pos := m.value.2;
    }
  }

  // ---------------------------------------------------------------------
  // `extractCategories`: `<category[^>]*term="([^"]+)"`
  // ---------------------------------------------------------------------

  /** `term="` at `k`, compared character by character. */
  predicate TermStart(s: string, k: nat) {
    && k + 6 <= |s| && s[k] == 't' && s[k + 1] == 'e' && s[k + 2] == 'r'
    && s[k + 3] == 'm' && s[k + 4] == '=' && s[k + 5] == '"'
  }

  lemma {:induction false} TermStartOccurs(s: string, k: nat)
    ensures TermStart(s, k) <==> OccursAt(s, "term=\"", k)
  {
    if OccursAt(s, "term=\"", k) {
      var w := s[k..][..6];
      assert w == "term=\"";
      assert s[k] == w[0] && s[k + 1] == w[1] && s[k + 2] == w[2];
      assert s[k + 3] == w[3] && s[k + 4] == w[4] && s[k + 5] == w[5];
    }
    if TermStart(s, k) {
      assert s[k..][..6] == "term=\"";
    }
  }

  /** `term="([^"]+)"` at `k`: the bounds of the value. */
  function TermAt(s: string, k: nat): (r: Option<(nat, nat)>)
    ensures r.Some? ==> k + 6 == r.value.0 < r.value.1 < |s|
  {
    if TermStart(s, k) then
      var e := RunEnd(s, k + 6, '"');
      if k + 6 < e < |s| then Some((k + 6, e)) else None
    else None
  }

  /** The greedy `[^>]*` gives back from the right: the last `term="…"` that starts between `lo` and `hi`. */
  function LastTerm(s: string, lo: nat, hi: nat): (r: Option<(nat, nat)>)
    ensures r.Some? ==> lo + 6 <= r.value.0 < r.value.1 < |s|
    decreases hi
  {
    if hi < lo then None
    else if TermAt(s, hi).Some? then TermAt(s, hi)
    else if hi == lo then None
    else LastTerm(s, lo, hi - 1)
  }

  lemma {:induction false} LastTermIs(s: string, lo: nat, hi: nat, k: nat)
    requires lo <= k <= hi && TermAt(s, k).Some?
    requires forall j: nat :: k < j <= hi ==> TermAt(s, j).None?
    ensures LastTerm(s, lo, hi) == TermAt(s, k)
    decreases hi
  {
    if k < hi {
      LastTermIs(s, lo, hi - 1, k);
    }
  }

  /**
   * The first match at or after `from`: for each `<category` in turn, the
   * attribute text runs to the first `>`, and the last `term="…"` starting
   * in it is taken; an opening tag without one is passed over.
   */
  function CategoryFrom(s: string, from: nat): (r: Option<(nat, nat)>)
    ensures r.Some? ==> from < r.value.0 < r.value.1 < |s|
    decreases |s| - from
  {
    match FindFrom(s, "<category", from)
    case None => None
    case Some(i) =>
      match LastTerm(s, i + 9, RunEnd(s, i + 9, '>'))
      case Some(t) => Some(t)
      case None => CategoryFrom(s, i + 1)
  }

  /** The category terms from `from` on, in order, untrimmed, as the `exec` loop visits them. */
  function Categories(s: string, from: nat): seq<string>
    decreases |s| - from
  {
    var m := CategoryFrom(s, from);
    if m.None? then [] else [s[m.value.0..m.value.1]] + Categories(s, m.value.1 + 1)
  }

  /** One step of `Categories`: the term found, then the terms after its closing quote. */
  lemma {:induction false} CategoriesCons(s: string, from: nat, v: nat, e: nat)
    requires CategoryFrom(s, from) == Some((v, e))
    ensures v < e < |s| && Categories(s, from) == [s[v..e]] + Categories(s, e + 1)
  {
    var m := CategoryFrom(s, from);
    assert m.Some? && m.value.0 == v && m.value.1 == e;
  }

  /** A `<category>` tag whose pieces are known by position gives, read from `from`, the value at `k + 6 .. e`. */
  lemma {:induction false} CategoryAt(s: string, from: nat, i: nat, k: nat, e: nat, g: nat)
    requires from <= i && i + 9 <= k && k + 6 < e < g < |s|
    requires OccursAt(s, "<category", i) && !Contains(s[from..i], "<category")
    requires NoChar(s[i + 9..k], '>') && OccursAt(s, "term=\"", k)
    requires NoChar(s[k + 6..e], '>') && NoChar(s[k + 6..e], '"') && s[e] == '"'
    requires NoChar(s[e + 1..g], '>') && s[g] == '>'
    requires !Contains(s[k + 6..g], "term=\"")
    ensures CategoryFrom(s, from) == Some((k + 6, e))
  {
    assert HeadUnique("<category");
    FindFirst(s, "<category", from, i);
    CloseRun(s, i, k, e, g);
    RunEndIs(s, i + 9, '>', g);
    forall j | k + 6 <= j < e ensures s[j] != '"' {
      assert s[j] == s[k + 6..e][j - k - 6];
    }
    RunEndIs(s, k + 6, '"', e);
    TermStartOccurs(s, k);
    assert TermAt(s, k) == Some((k + 6, e));
    NoTermAfter(s, k, g);
    LastTermIs(s, i + 9, g, k);
  }

  /** The attribute text of such a tag runs without a `>` up to the one at `g`. */
  lemma {:induction false} CloseRun(s: string, i: nat, k: nat, e: nat, g: nat)
    requires i + 9 <= k && k + 6 < e < g <= |s|
    requires NoChar(s[i + 9..k], '>') && OccursAt(s, "term=\"", k)
    requires NoChar(s[k + 6..e], '>') && s[e] == '"' && NoChar(s[e + 1..g], '>')
    ensures forall j :: i + 9 <= j < g ==> s[j] != '>'
  {
    forall j | i + 9 <= j < g ensures s[j] != '>' {
      if j < k {
        assert s[j] == s[i + 9..k][j - i - 9];
      } else if j < k + 6 {
        assert s[j] == s[k..][..6][j - k] == "term=\""[j - k];
      } else if j < e {
        assert s[j] == s[k + 6..e][j - k - 6];
      } else if j > e {
        assert s[j] == s[e + 1..g][j - e - 1];
      }
    }
  }

  /** No `term="` starts after `k` and up to the `>` at `g` when none lies between. */
  lemma {:induction false} NoTermAfter(s: string, k: nat, g: nat)
    requires k + 6 <= g < |s| && s[g] == '>'
    requires OccursAt(s, "term=\"", k) && !Contains(s[k + 6..g], "term=\"")
    ensures forall j: nat :: k < j <= g ==> TermAt(s, j).None?
  {
    var t := "term=\"";
    forall j: nat | k < j <= g ensures !TermStart(s, j) {
      TermStartOccurs(s, j);
      if j < k + 6 {
        assert s[j] == s[k..][..6][j - k] == t[j - k] && t[j - k] != t[0];
        Mismatch(s, t, j, 0);
      } else if j + 6 <= g {
        assert !OccursAt(s[k + 6..g], t, j - k - 6);
        assert s[k + 6..g][j - k - 6..][..6] == s[j..][..6];
      } else {
        assert t[g - j] != '>';
        Mismatch(s, t, j, g - j);
      }
    }
  }

  /** `extractCategories`: the `exec` loop, pushing each term. */
  method ExtractCategories(entry: string) returns (categories: seq<string>)
    ensures categories == Categories(entry, 0)
  {
    categories := [];
    var pos := 0;
    while true
      invariant pos <= |entry|
      invariant categories + Categories(entry, pos) == Categories(entry, 0)
      decreases |entry| - pos
    {
      var m := CategoryFrom(entry, pos);
      if m.None? {
        break;
      }
      CategoriesCons(entry, pos, m.value.0, m.value.1);
      var term := entry[m.value.0..m.value.1];
      AppendStep(categories, term, Categories(entry, m.value.1 + 1), Categories(entry, 0));
      categories := categories + [term];
      pos := m.value.1 + 1;
    }
  }

  // ---------------------------------------------------------------------
  // `extractKeyInsights`
  // ---------------------------------------------------------------------

  predicate IsStop(c: char) {
    c == '.' || c == '!' || c == '?'
  }

  predicate NoStop(s: string) {
    forall k :: 0 <= k < |s| ==> !IsStop(s[k])
  }

  /** The first index at or after `from` where `IsStop` is `stop`, else `|s|`. */
  function Scan(s: string, from: nat, stop: bool): (e: nat)
    requires from <= |s|
    ensures from <= e <= |s| && (e < |s| ==> IsStop(s[e]) == stop)
    ensures forall k :: from <= k < e ==> IsStop(s[k]) != stop
    decreases |s| - from
  {
    if from == |s| || IsStop(s[from]) == stop then from else Scan(s, from + 1, stop)
  }

  /** `s.split(/[.!?]+/)`: the pieces between the maximal runs of `.`, `!` and `?`. */
  function SplitSentences(s: string): (r: seq<string>)
    ensures |r| >= 1 && forall k :: 0 <= k < |r| ==> NoStop(r[k])
    decreases |s|
  {
    var i := Scan(s, 0, true);
    if i == |s| then [s] else [s[..i]] + SplitSentences(s[Scan(s, i, false)..])
  }

  function KeepStops(c: char): bool {
    !IsStop(c)
  }

  /** The pieces, put back together, are the text with its sentence marks removed. */
  lemma {:induction false} SplitSentencesCover(s: string)
    ensures Concat(SplitSentences(s)) == Filter(s, KeepStops)
    decreases |s|
  {
    var i := Scan(s, 0, true);
    if i == |s| {
      FilterAll(s, KeepStops);
      assert Concat([s]) == s + Concat([]);
    } else {
      var j := Scan(s, i, false);
      SplitSentencesCover(s[j..]);
      ScanRuns(s, i, j);
      CoverStep(s[..i], s[i..j], s[j..], SplitSentences(s[j..]));
    }
  }

  /** Up to the first mark there is none; from there to `j` there are only marks. */
  lemma ScanRuns(s: string, i: nat, j: nat)
    requires i <= j <= |s|
    requires forall k :: 0 <= k < i ==> !IsStop(s[k])
    requires forall k :: i <= k < j ==> IsStop(s[k])
    ensures forall k :: 0 <= k < i ==> KeepStops(s[..i][k])
    ensures forall k :: 0 <= k < j - i ==> !KeepStops(s[i..j][k])
    ensures s == s[..i] + s[i..j] + s[j..]
  {
  }

  /** A piece without marks, then a run of marks, then text whose pieces cover it without marks. */
  lemma {:induction false} CoverStep(a: string, b: string, c: string, r: seq<string>)
    requires forall k :: 0 <= k < |a| ==> KeepStops(a[k])
    requires forall k :: 0 <= k < |b| ==> !KeepStops(b[k])
    requires Concat(r) == Filter(c, KeepStops)
    ensures Concat([a] + r) == Filter(a + b + c, KeepStops)
  {
    FilterAll(a, KeepStops);
    FilterNone(b, KeepStops);
    FilterConcat(a, b, KeepStops);
    assert Filter(a + b, KeepStops) == a;
    FilterConcat(a + b, c, KeepStops);
    ConcatCons(a, r);
  }

  lemma ConcatCons(a: string, r: seq<string>)
    ensures Concat([a] + r) == a + Concat(r)
  {
    assert ([a] + r)[1..] == r;
  }

  lemma {:induction false} FilterNone<T>(s: seq<T>, f: T -> bool)
    requires forall k :: 0 <= k < |s| ==> !f(s[k])
    ensures Filter(s, f) == []
    decreases |s|
  {
    if s != [] {
      FilterNone(s[1..], f);
    }
  }

  /** A piece worth keeping: over 20 characters once trimmed. */
  function LongSentence(p: string): bool {
    |Trim(p)| > 20
  }

  function TrimAll(ps: seq<string>): (r: seq<string>)
    ensures |r| == |ps| && forall k :: 0 <= k < |ps| ==> r[k] == Trim(ps[k])
  {
    seq(|ps|, k requires 0 <= k < |ps| => Trim(ps[k]))
  }

  /** `extractKeyInsights`: the first three long pieces, trimmed. */
  function KeyInsights(summary: string): seq<string> {
    TrimAll(Take(Filter(SplitSentences(summary), LongSentence), 3))
  }

  /**
   * At most three insights, each a trimmed, mark-free piece of the summary of
   * over 20 characters, and as many as there are long pieces up to three.
   */
  lemma {:induction false} KeyInsightsMeaning(summary: string)
    ensures var r := KeyInsights(summary);
      |r| == Min(3, |Filter(SplitSentences(summary), LongSentence)|)
      && forall k :: 0 <= k < |r| ==>
           |r[k]| > 20 && NoStop(r[k]) && Trim(r[k]) == r[k]
           && exists p :: p in SplitSentences(summary) && r[k] == Trim(p)
  {
    var long := Take(Filter(SplitSentences(summary), LongSentence), 3);
    var r := KeyInsights(summary);
    forall k | 0 <= k < |r|
      ensures |r[k]| > 20 && NoStop(r[k]) && Trim(r[k]) == r[k]
      ensures exists p :: p in SplitSentences(summary) && r[k] == Trim(p)
    {
      assert long[k] in Filter(SplitSentences(summary), LongSentence);
      assert LongSentence(long[k]) && long[k] in SplitSentences(summary);
      TrimTrimmed(long[k]);
      TrimInside(long[k]);
    }
  }

  /** Every character `trim` leaves was in the text. */
  lemma {:induction false} TrimInside(s: string)
    ensures forall k :: 0 <= k < |Trim(s)| ==> Trim(s)[k] in s
  {
    var t := TrimStart(s);
    TrimStartMeaning(s);
    TrimEndMeaning(t);
    forall k | 0 <= k < |Trim(s)| ensures Trim(s)[k] in s {
      assert Trim(s)[k] == t[k] == s[|s| - |t| + k];
    }
  }

  /** A summary with no sentence mark and over 20 characters is its own single insight. */
  lemma {:induction false} OneSentenceInsight(summary: string)
    requires NoStop(summary) && |Trim(summary)| > 20
    ensures KeyInsights(summary) == [Trim(summary)]
  {
    assert Scan(summary, 0, true) == |summary|;
  }

  // ---------------------------------------------------------------------
  // Papers
  // ---------------------------------------------------------------------

  const NoAbstract := "No abstract available"

  /** `extractTag(...)?.replace(/\s+/g, ' ').trim()`. */
  function Tidy(o: Option<string>): Option<string> {
    match o
    case None => None
    case Some(t) => Some(Trim(CollapseSpaces(t)))
  }

  /** `id.split('/abs/')[1] || id.split('/').pop() || ''`. */
  function ArxivIdOf(id: string): (r: string)
    ensures !Contains(r, "/abs/")
  {
    var parts := Split(id, "/abs/");
    SplitNoSeparator(id, "/abs/");
    if |parts| > 1 && parts[1] != "" then parts[1]
    else
      var segs := Split(id, "/");
      SplitNoSeparator(id, "/");
      NoSlashNoAbs(segs[|segs| - 1]);
      segs[|segs| - 1]
  }

  lemma {:induction false} NoSlashNoAbs(s: string)
    requires !Contains(s, "/")
    ensures !Contains(s, "/abs/")
  {
    forall k | 0 <= k < |s| ensures s[k] != '/' {
      if s[k] == '/' {
        assert s[k..][..1] == "/";
        assert OccursAt(s, "/", k);
      }
    }
    NoCharNoMatch(s, '/', "/abs/");
  }

  /** The usual arXiv id: everything after the first `/abs/`. */
  lemma {:induction false} ArxivIdAfterAbs(a: string, b: string)
    requires !Contains(a + "/abs", "/abs/") && b != [] && !Contains(b, "/abs/")
    ensures ArxivIdOf(a + "/abs/" + b) == b
  {
    var s := a + "/abs/" + b;
    var head := a + "/abs";
    assert s[..|a| + 4] == head;
    forall j: nat | j < |a| ensures !OccursAt(s, "/abs/", j) {
      assert head[j..][..5] == s[..|a| + 4][j..][..5] == s[j..][..5];
      assert !OccursAt(head, "/abs/", j);
    }
    assert s[|a|..][..5] == "/abs/";
    FindFromIs(s, "/abs/", 0, |a|);
    FindFromContains(b, "/abs/");
    assert s[|a| + 5..] == b;
    assert Split(b, "/abs/") == [b];
    assert Split(s, "/abs/") == [s[..|a|]] + [b];
  }

  /** An id with no `/` at all is its own arXiv id. */
  lemma {:induction false} ArxivIdPlain(id: string)
    requires id != [] && !Contains(id, "/")
    ensures ArxivIdOf(id) == id
  {
    NoSlashNoAbs(id);
    FindFromContains(id, "/abs/");
    FindFromContains(id, "/");
  }

  /** `${Math.ceil(length / 200) + 10} min`. */
  function ReadTime(length: nat): string {
    var m := CeilDiv(length, 200);
    assert m >= 0;
    NatToString(m + 10) + " min"
  }

  /** `authors.slice(0, 3).join(', ') + (authors.length > 3 ? ' et al.' : '')`. */
  function AuthorLine(authors: seq<string>): string {
    Join(Take(authors, 3), ", ") + (if |authors| > 3 then " et al." else "")
  }

  /** The paper for an entry whose authors and categories have been read, or `None` without an id or a title. */
  function MakePaper(entry: string, authors: seq<string>, categories: seq<string>, roll: nat, today: string): Option<ContentItem> {
    var id := ExtractTag(entry, "id");
    var title := Tidy(ExtractTag(entry, "title"));
    var text := Tidy(ExtractTag(entry, "summary")).GetOr("");
    if id.Some? && id.value != "" && title.Some? && title.value != "" then
      var arxivId := ArxivIdOf(id.value);
      Some(ContentItem(
        id := "arxiv-" + arxivId, title := title.value, contentType := Paper,
        summary := if text != "" then Prefix(text, 500) else NoAbstract,
        keyInsights := KeyInsights(text), tags := Take(categories, 5), difficulty := Advanced,
        readTime := ReadTime(|text|), engagement := 70 + roll % 30, source := "arXiv",
        author := AuthorLine(authors),
        publishedAt := PublishedDate(ExtractTag(entry, "published"), today), url := id.value,
        image := None, stars := None, forks := None, language := None, thumbnail := None,
        videoId := None, arxivId := Some(arxivId), toolCategory := None, pricing := None))
    else None
  }

  /** The paper an entry gives, the authors and categories read by their loops. */
  function PaperOf(entry: string, roll: nat, today: string): Option<ContentItem> {
    MakePaper(entry, Authors(entry, 0), Categories(entry, 0), roll, today)
  }

  /** `PaperOf` on a given day, as a function of the entry and its draw. */
  function PaperReader(today: string): (string, nat) -> Option<ContentItem> {
    (entry: string, roll: nat) => PaperOf(entry, roll, today)
  }

  /** The papers `read` makes of `entries`, the `n`-th one pushed drawing `rolls(n)`. */
  function PapersOf(entries: seq<string>, read: (string, nat) -> Option<ContentItem>, rolls: nat -> nat, n: nat): (r: seq<ContentItem>)
    ensures |r| <= |entries|
    decreases |entries|
  {
    if entries == [] then []
    else match read(entries[0], rolls(n))
      case Some(p) => [p] + PapersOf(entries[1..], read, rolls, n + 1)
      case None => PapersOf(entries[1..], read, rolls, n)
  }

  /** What `parseArxivXml` returns. */
  function ParsedPapers(xml: string, rolls: nat -> nat, today: string): seq<ContentItem> {
    PapersOf(Entries(xml, 0), PaperReader(today), rolls, 0)
  }

  /** What every paper looks like. */
  predicate PaperShape(p: ContentItem) {
    PaperHead(p) && PaperBody(p)
  }

  /** Its kind, its ids and its fixed fields. */
  predicate PaperHead(p: ContentItem) {
    && p.contentType == Paper && p.difficulty == Advanced && p.source == "arXiv"
    && StartsWith(p.id, "arxiv-") && p.arxivId == Some(p.id[6..])
    && p.title != "" && p.url != ""
  }

  /** Its texts and its bounds. */
  predicate PaperBody(p: ContentItem) {
    && 70 <= p.engagement <= 99
    && (|p.summary| <= 500 || p.summary == NoAbstract) && p.summary != ""
    && PaperLists(p)
  }

  predicate PaperLists(p: ContentItem) {
    |p.tags| <= 5 && |p.keyInsights| <= 3
  }

  /** The condition `id && title` under which an entry is pushed. */
  function Qualifies(entry: string): bool {
    var id := ExtractTag(entry, "id");
    var title := Tidy(ExtractTag(entry, "title"));
    id.Some? && id.value != "" && title.Some? && title.value != ""
  }

  /** An entry is a paper exactly when its id and its title are non-empty. */
  lemma {:induction false} PaperOfSome(entry: string, roll: nat, today: string)
    ensures PaperOf(entry, roll, today).Some? <==> Qualifies(entry)
  {
  }

  /** Every paper has the paper shape. */
  lemma {:induction false} PaperOfShape(entry: string, roll: nat, today: string)
    requires Qualifies(entry)
    ensures PaperOf(entry, roll, today).Some? && PaperShape(PaperOf(entry, roll, today).value)
  {
    MakePaperHead(entry, Authors(entry, 0), Categories(entry, 0), roll, today);
    MakePaperBody(entry, Authors(entry, 0), Categories(entry, 0), roll, today);
  }

  lemma {:induction false} MakePaperHead(entry: string, authors: seq<string>, categories: seq<string>, roll: nat, today: string)
    requires Qualifies(entry)
    ensures MakePaper(entry, authors, categories, roll, today).Some?
    ensures PaperHead(MakePaper(entry, authors, categories, roll, today).value)
  {
    var id := ArxivIdOf(ExtractTag(entry, "id").value);
    assert ("arxiv-" + id)[6..] == id;
    assert ("arxiv-" + id)[..6] == "arxiv-";
  }

  lemma {:induction false} MakePaperBody(entry: string, authors: seq<string>, categories: seq<string>, roll: nat, today: string)
    requires Qualifies(entry)
    ensures MakePaper(entry, authors, categories, roll, today).Some?
    ensures PaperBody(MakePaper(entry, authors, categories, roll, today).value)
  {
    MakePaperLists(entry, authors, categories, roll, today);
  }

  lemma {:induction false} MakePaperLists(entry: string, authors: seq<string>, categories: seq<string>, roll: nat, today: string)
    requires Qualifies(entry)
    ensures MakePaper(entry, authors, categories, roll, today).Some?
    ensures PaperLists(MakePaper(entry, authors, categories, roll, today).value)
  {
    KeyInsightsMeaning(Tidy(ExtractTag(entry, "summary")).GetOr(""));
  }

  /** Whatever the draw, the reader makes a paper of exactly the qualifying entries, and every paper has the shape. */
  lemma {:induction false} ReaderMeaning(today: string)
    ensures forall entry, roll :: PaperReader(today)(entry, roll).Some? == Qualifies(entry)
    ensures forall entry, roll :: PaperReader(today)(entry, roll).Some? ==> PaperShape(PaperReader(today)(entry, roll).value)
  {
    forall entry, roll
      ensures PaperReader(today)(entry, roll).Some? == Qualifies(entry)
      ensures PaperReader(today)(entry, roll).Some? ==> PaperShape(PaperReader(today)(entry, roll).value)
    {
      PaperOfSome(entry, roll, today);
      if Qualifies(entry) {
        PaperOfShape(entry, roll, today);
      }
    }
  }

  /** When every paper `read` makes has the shape, so has every paper of a list of entries. */
  lemma {:induction false} PapersOfShape(entries: seq<string>, read: (string, nat) -> Option<ContentItem>, rolls: nat -> nat, n: nat)
    requires forall entry, roll :: read(entry, roll).Some? ==> PaperShape(read(entry, roll).value)
    ensures forall k :: 0 <= k < |PapersOf(entries, read, rolls, n)| ==> PaperShape(PapersOf(entries, read, rolls, n)[k])
    decreases |entries|
  {
    if entries != [] {
      PapersOfShape(entries[1..], read, rolls, n + 1);
      PapersOfShape(entries[1..], read, rolls, n);
    }
  }

  /** When `read` makes a paper of exactly the entries `q` holds of, there is one paper per such entry. */
  lemma {:induction false} PapersOfCount(entries: seq<string>, read: (string, nat) -> Option<ContentItem>, rolls: nat -> nat, n: nat, q: string -> bool)
    requires forall entry, roll :: read(entry, roll).Some? == q(entry)
    ensures |PapersOf(entries, read, rolls, n)| == |Filter(entries, q)|
    decreases |entries|
  {
    if entries != [] {
      PapersOfCount(entries[1..], read, rolls, n + 1, q);
      PapersOfCount(entries[1..], read, rolls, n, q);
    }
  }

  /** Every paper `parseArxivXml` returns has the paper shape. */
  lemma {:induction false} ParsedPapersShape(xml: string, rolls: nat -> nat, today: string)
    ensures forall k :: 0 <= k < |ParsedPapers(xml, rolls, today)| ==> PaperShape(ParsedPapers(xml, rolls, today)[k])
  {
    ReaderMeaning(today);
    PapersOfShape(Entries(xml, 0), PaperReader(today), rolls, 0);
  }

  /** `parseArxivXml` returns one paper for each entry with an id and a title, and no other. */
  lemma {:induction false} ParsedPapersCount(xml: string, rolls: nat -> nat, today: string)
    ensures |ParsedPapers(xml, rolls, today)| == |Filter(Entries(xml, 0), Qualifies)|
  {
    ReaderMeaning(today);
    PapersOfCount(Entries(xml, 0), PaperReader(today), rolls, 0, Qualifies);
  }

  /**
   * The entry loop of `parseArxivXml`, for any way `read` of making a paper
   * of an entry and its draw: each entry's paper, if any, is pushed and the
   * next draw is the number of papers pushed so far.
   */
  method ParseEntries(xml: string, read: (string, nat) -> Option<ContentItem>, rolls: nat -> nat) returns (papers: seq<ContentItem>)
    ensures papers == PapersOf(Entries(xml, 0), read, rolls, 0)
  {
    papers := [];
    var pos := 0;
    while true
      invariant papers + PapersOf(Entries(xml, pos), read, rolls, |papers|) == PapersOf(Entries(xml, 0), read, rolls, 0)
      decreases |xml| - pos
    {
      var m := NextEntry(xml, pos);
      if m.None? {
        break;
      }
      EntriesCons(xml, pos, m.value.0, m.value.1);
      var entry := xml[m.value.0..m.value.1];
      var paper := read(entry, rolls(|papers|));
      PapersStep(papers, entry, Entries(xml, m.value.1 + 8), read, rolls, PapersOf(Entries(xml, 0), read, rolls, 0));
      papers := if paper.Some? then papers + [paper.value] else papers;
      pos := m.value.1 + 8;
    }
  }

  /** `parseArxivXml`: the entry loop, each entry read into a paper as `PaperOf` says. */
  method ParseArxivXml(xml: string, rolls: nat -> nat, today: string) returns (papers: seq<ContentItem>)
    ensures papers == ParsedPapers(xml, rolls, today)
  {
    papers := ParseEntries(xml, PaperReader(today), rolls);
  }

  /** One entry: its authors and categories read by their `exec` loops, then its paper, which is the one `PaperOf` gives. */
  method ReadPaper(entry: string, roll: nat, today: string) returns (paper: Option<ContentItem>)
    ensures paper == PaperOf(entry, roll, today)
  {
    var authors := ExtractAuthors(entry);
    var categories := ExtractCategories(entry);
    paper := MakePaper(entry, authors, categories, roll, today);
  }

  /** One turn of the entry loop on the papers: the entry's paper, if any, joins those pushed so far. */
  lemma {:induction false} PapersStep(papers: seq<ContentItem>, entry: string, rest: seq<string>, read: (string, nat) -> Option<ContentItem>, rolls: nat -> nat, all: seq<ContentItem>)
    requires papers + PapersOf([entry] + rest, read, rolls, |papers|) == all
    ensures var p := read(entry, rolls(|papers|));
      var papers' := if p.Some? then papers + [p.value] else papers;
      papers' + PapersOf(rest, read, rolls, |papers'|) == all
  {
    assert ([entry] + rest)[0] == entry && ([entry] + rest)[1..] == rest;
    var p := read(entry, rolls(|papers|));
    if p.Some? {
      var tail := PapersOf(rest, read, rolls, |papers| + 1);
      assert (papers + [p.value]) + tail == papers + ([p.value] + tail);
    }
  }

  /** What the handler answers. */
  datatype Upstream = Unreachable | Response(ok: bool, status: int, text: string)
  datatype Answer = Papers(data: seq<ContentItem>) | Failure(status: int, error: string)

  /**
   * The handler: a failed or non-ok fetch answers `'Failed to fetch papers'`
   * with the upstream status, or 500 when it threw. The category parameter
   * only chooses the query, which is not part of this model.
   */
  function Handle(upstream: Upstream, rolls: nat -> nat, today: string): (r: Answer)
    ensures upstream.Unreachable? ==> r == Failure(500, "Failed to fetch papers")
    ensures upstream.Response? && !upstream.ok ==> r == Failure(upstream.status, "Failed to fetch papers")
    ensures upstream.Response? && upstream.ok ==> r == Papers(ParsedPapers(upstream.text, rolls, today))
  {
    match upstream
    case Unreachable => Failure(500, "Failed to fetch papers")
    case Response(ok, status, text) =>
      if !ok then Failure(status, "Failed to fetch papers")
      else Papers(ParsedPapers(text, rolls, today))
  }

  /** Every paper the handler answers with has the paper shape. */
  lemma {:induction false} HandleShape(upstream: Upstream, rolls: nat -> nat, today: string)
    ensures Handle(upstream, rolls, today).Papers? ==>
      forall k :: 0 <= k < |Handle(upstream, rolls, today).data| ==> PaperShape(Handle(upstream, rolls, today).data[k])
  {
    if upstream.Response? && upstream.ok {
      ParsedPapersShape(upstream.text, rolls, today);
    }
  }
}
