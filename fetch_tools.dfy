/**
 * The `fetch-tools` edge function: GitHub repositories turned into tools,
 * classified by description keywords and by a fixed list of category
 * patterns, merged behind the curated tools with one tool per id, and sorted
 * by engagement.
 *
 * `log20` stands for `Math.floor(Math.log10(n) * 20)`, `grouped` for
 * `toLocaleString()` and `now` for `new Date().toISOString()`.
 */
module FetchTools {
  import opened Wrappers
  import opened Strings
  import opened Seqs
  import opened ContentModel
  import opened GitHub
  import ContentDetail

  // ---------------------------------------------------------------------
  // Difficulty: `getDifficultyFromDescription`
  // ---------------------------------------------------------------------

  const AdvancedWords: seq<string> := ["advanced", "enterprise", "infrastructure", "orchestration", "distributed"]
  const BeginnerWords: seq<string> := ["easy", "simple", "beginner", "no-code", "drag-and-drop", "getting started"]

  /** `k => lower.includes(k)`. */
  function IncludedIn(lower: string): string -> bool {
    k => Contains(lower, k)
  }

  /** The advanced words are looked for first, in the lowercased description. */
  function DifficultyFromDescription(desc: string): Difficulty {
    var lower := ToLower(desc);
    if AnyOf(AdvancedWords, IncludedIn(lower)) then Advanced
    else if AnyOf(BeginnerWords, IncludedIn(lower)) then Beginner
    else Intermediate
  }

  /**
   * Advanced exactly when an advanced word occurs; beginner exactly when a
   * beginner word occurs and no advanced one; intermediate otherwise.
   */
  lemma DifficultyMeaning(desc: string)
    ensures var d, lower := DifficultyFromDescription(desc), ToLower(desc);
      && (d == Advanced <==> exists k :: 0 <= k < |AdvancedWords| && Contains(lower, AdvancedWords[k]))
      && (d == Beginner <==>
            (forall k :: 0 <= k < |AdvancedWords| ==> !Contains(lower, AdvancedWords[k]))
            && exists k :: 0 <= k < |BeginnerWords| && Contains(lower, BeginnerWords[k]))
  {
  }

  // ---------------------------------------------------------------------
  // Category: `categorizeRepo`
  // ---------------------------------------------------------------------

  /** One pattern character against one text character: `.` is any character but a line terminator. */
  predicate CharMatches(p: char, c: char) {
    if p == '.' then !IsLineTerminator(c) else c == p
  }

  /** The pattern `p` matches `s` at index `i`. */
  predicate MatchesAt(s: string, p: string, i: nat) {
    i + |p| <= |s| && forall k :: 0 <= k < |p| ==> CharMatches(p[k], s[i + k])
  }

  /** The pattern `p` matches somewhere in `s`. */
  predicate Matches(s: string, p: string) {
    exists i: nat :: i <= |s| - |p| && MatchesAt(s, p, i)
  }

  /** `s.match(/a|b|…/)` succeeds: one of the alternatives matches. */
  predicate MatchesAny(s: string, alternatives: seq<string>) {
    exists j :: 0 <= j < |alternatives| && Matches(s, alternatives[j])
  }

  /** A pattern matches wherever it occurs literally. */
  lemma OccurrenceMatches(s: string, p: string)
    requires Contains(s, p)
    ensures Matches(s, p)
  {
    var i: nat :| i <= |s| && OccursAt(s, p, i);
    assert forall k :: 0 <= k < |p| ==> s[i + k] == s[i..][k] == p[k];
    assert MatchesAt(s, p, i);
  }

  /** A pattern without `.` matches exactly where it occurs literally. */
  lemma PlainMatches(s: string, p: string)
    requires NoChar(p, '.')
    ensures Matches(s, p) <==> Contains(s, p)
  {
    if Matches(s, p) {
      var i: nat :| i <= |s| - |p| && MatchesAt(s, p, i);
      assert s[i..][..|p|] == p;
      assert OccursAt(s, p, i);
    }
    if Contains(s, p) {
      OccurrenceMatches(s, p);
    }
  }

  /** One `if (text.match(…)) return …` line. */
  datatype Rule = Rule(alternatives: seq<string>, category: string)

  /** The rules, in the order they are tried. */
  const Rules: seq<Rule> := [
    Rule(["llm", "language.model", "gpt", "chat", "completion"], "LLM Framework"),
    Rule(["agent", "autonomous", "tool.use"], "AI Agent"),
    Rule(["vector", "embedding", "search", "rag", "retrieval"], "Vector & RAG"),
    Rule(["image", "vision", "diffusion", "stable"], "Image AI"),
    Rule(["audio", "speech", "voice", "tts", "stt"], "Audio AI"),
    Rule(["code", "copilot", "ide", "developer"], "Dev Tool"),
    Rule(["deploy", "serve", "inference", "mlops"], "MLOps"),
    Rule(["data", "dataset", "label", "annotation"], "Data Tool"),
    Rule(["monitor", "observ", "eval", "benchmark"], "Evaluation"),
    Rule(["fine.tun", "train", "lora"], "Training")]

  const Fallback := "AI Tool"

  /** The category of the first rule that matches, else the fallback. */
  function FirstCategory(rules: seq<Rule>, text: string): (r: string)
    ensures r == Fallback || exists j :: 0 <= j < |rules| && r == rules[j].category
    decreases |rules|
  {
    if rules == [] then Fallback
    else if MatchesAny(text, rules[0].alternatives) then rules[0].category
    else
      var r := FirstCategory(rules[1..], text);
      assert forall j :: 1 <= j < |rules| ==> rules[j] == rules[1..][j - 1];
      r
  }

  /** Rule `j` is the first that matches. */
  predicate FirstMatch(rules: seq<Rule>, text: string, j: nat) {
    && j < |rules| && MatchesAny(text, rules[j].alternatives)
    && forall i :: 0 <= i < j ==> !MatchesAny(text, rules[i].alternatives)
  }

  /** The first rule that matches decides the category. */
  lemma {:induction false} FirstCategoryIs(rules: seq<Rule>, text: string, j: nat)
    requires FirstMatch(rules, text, j)
    ensures FirstCategory(rules, text) == rules[j].category
    decreases j
  {
    if j > 0 {
      assert !MatchesAny(text, rules[0].alternatives);
      assert FirstMatch(rules[1..], text, j - 1) by {
        forall i | 0 <= i < j - 1 ensures !MatchesAny(text, rules[1..][i].alternatives) {
          assert rules[1..][i] == rules[i + 1];
        }
      }
      FirstCategoryIs(rules[1..], text, j - 1);
    }
  }

  /** When no rule matches, the fallback. */
  lemma {:induction false} FirstCategoryNone(rules: seq<Rule>, text: string)
    requires forall j :: 0 <= j < |rules| ==> !MatchesAny(text, rules[j].alternatives)
    ensures FirstCategory(rules, text) == Fallback
    decreases |rules|
  {
    if rules != [] {
      assert forall j :: 0 <= j < |rules| - 1 ==> rules[1..][j] == rules[j + 1];
      FirstCategoryNone(rules[1..], text);
    }
  }

  /** `[...topics, description].join(' ').toLowerCase()`. */
  function CategoryText(topics: seq<string>, description: string): string {
    ToLower(Join(topics + [description], " "))
  }

  /** `categorizeRepo`. */
  function CategorizeRepo(topics: seq<string>, description: string): (r: string)
    ensures r != ""
  {
    FirstCategory(Rules, CategoryText(topics, description))
  }

  /**
   * For any rules whose categories differ from the fallback: the category is
   * the first matching rule's, and the fallback exactly when none matches.
   */
  lemma FirstCategoryMeaning(rules: seq<Rule>, text: string)
    requires forall j :: 0 <= j < |rules| ==> rules[j].category != Fallback
    ensures forall j: nat :: FirstMatch(rules, text, j) ==> FirstCategory(rules, text) == rules[j].category
    ensures FirstCategory(rules, text) == Fallback <==>
      forall j :: 0 <= j < |rules| ==> !MatchesAny(text, rules[j].alternatives)
  {
    forall j: nat | FirstMatch(rules, text, j) ensures FirstCategory(rules, text) == rules[j].category {
      FirstCategoryIs(rules, text, j);
    }
    if forall j :: 0 <= j < |rules| ==> !MatchesAny(text, rules[j].alternatives) {
      FirstCategoryNone(rules, text);
    } else {
      var j := FirstMatching(rules, text);
      FirstCategoryIs(rules, text, j);
    }
  }

  /** `categorizeRepo` picks the first matching rule, and says `'AI Tool'` exactly when none matches. */
  lemma CategorizeMeaning(topics: seq<string>, description: string)
    ensures forall j: nat :: FirstMatch(Rules, CategoryText(topics, description), j) ==>
      CategorizeRepo(topics, description) == Rules[j].category
    ensures CategorizeRepo(topics, description) == Fallback <==>
      forall j :: 0 <= j < |Rules| ==> !MatchesAny(CategoryText(topics, description), Rules[j].alternatives)
  {
    CategoriesDiffer();
    FirstCategoryMeaning(Rules, CategoryText(topics, description));
  }

  /** The index of the first rule that matches, when one does. */
  lemma {:induction false} FirstMatchExists(rules: seq<Rule>, text: string, n: nat)
    requires n <= |rules| && forall i :: 0 <= i < n ==> !MatchesAny(text, rules[i].alternatives)
    requires exists j :: n <= j < |rules| && MatchesAny(text, rules[j].alternatives)
    ensures exists j :: FirstMatch(rules, text, j)
    decreases |rules| - n
  {
    if MatchesAny(text, rules[n].alternatives) {
      assert FirstMatch(rules, text, n);
    } else {
      FirstMatchExists(rules, text, n + 1);
    }
  }

  lemma FirstMatching(rules: seq<Rule>, text: string) returns (j: nat)
    requires exists j :: 0 <= j < |rules| && MatchesAny(text, rules[j].alternatives)
    ensures FirstMatch(rules, text, j)
  {
    FirstMatchExists(rules, text, 0);
    j :| FirstMatch(rules, text, j);
  }

  /** No rule's category is the fallback, so the fallback means that nothing matched. */
  lemma CategoriesDiffer()
    ensures forall j :: 0 <= j < |Rules| ==> Rules[j].category != Fallback
  {
  }

  /** A text that mentions `chat` is an LLM framework, whatever else it mentions. */
  lemma ChatIsLlmFramework(topics: seq<string>, description: string)
    requires Contains(CategoryText(topics, description), "chat")
    ensures CategorizeRepo(topics, description) == "LLM Framework"
  {
    var text := CategoryText(topics, description);
    OccurrenceMatches(text, "chat");
    assert Matches(text, Rules[0].alternatives[3]);
    assert FirstMatch(Rules, text, 0);
    FirstCategoryIs(Rules, text, 0);
  }

  // ---------------------------------------------------------------------
  // One tool per repository
  // ---------------------------------------------------------------------

  const NoDescription := "An AI/developer tool hosted on GitHub."

  /** `[...topics.slice(0, 4), category].filter(Boolean)`. */
  function ToolTags(topics: seq<string>, category: string): (r: seq<string>)
    requires category != ""
    ensures |r| <= 5 && r != [] && r[|r| - 1] == category
    ensures r[..|r| - 1] == Filter(Take(topics, 4), NonEmpty)
  {
    FilterConcat(Take(topics, 4), [category], NonEmpty);
    Filter(Take(topics, 4) + [category], NonEmpty)
  }

  /** `repo.license?.spdx_id ? 'License: …' : 'Open source tool'`. */
  function LicenseInsight(repo: Repo): string {
    if !Falsy(SpdxId(repo)) then "License: " + SpdxId(repo).value else "Open source tool"
  }

  /** `Math.min(100, Math.floor(Math.log10(stars || 1) * 20) + 30)`. */
  function ToolEngagement(stars: nat, log20: nat -> int): (r: int)
    ensures r <= 100
    ensures log20(if stars == 0 then 1 else stars) >= 0 ==> r >= 30
  {
    Min(100, log20(if stars == 0 then 1 else stars) + 30)
  }

  /** The tool for one repository. */
  function ToolOf(repo: Repo, log20: nat -> int, grouped: nat -> string, now: string): ContentItem {
    var topics := repo.topics.GetOr([]);
    var category := CategorizeRepo(topics, OrElse(repo.description, ""));
    ContentItem(
      id := "tool-gh-" + NatToString(repo.id), title := repo.fullName, contentType := Tool,
      summary := OrElse(repo.description, NoDescription),
      keyInsights := [grouped(repo.stars) + " stars on GitHub", "Category: " + category, LicenseInsight(repo)],
      tags := ToolTags(topics, category),
      difficulty := DifficultyFromDescription(OrElse(repo.description, "")),
      readTime := "5 min",
      engagement := ToolEngagement(repo.stars, log20),
      source := "GitHub", author := OrElse(repo.ownerLogin, "Unknown"),
      publishedAt := Before(OrElse(repo.pushedAt, OrElse(repo.createdAt, now)), "T"),
      url := repo.htmlUrl,
      image := None, stars := Some(repo.stars), forks := Some(repo.forks), language := repo.language,
      thumbnail := None, videoId := None, arxivId := None,
      toolCategory := Some(category), pricing := Some("Open Source"))
  }

  /** Every tool is an open-source GitHub tool whose id leads the detail page back to the tools. */
  predicate ToolShape(t: ContentItem) {
    && t.contentType == Tool && ContentDetail.ClassifyId(t.id) == Some(Tool)
    && t.source == "GitHub" && t.pricing == Some("Open Source")
    && t.toolCategory.Some? && t.tags != [] && t.tags[|t.tags| - 1] == t.toolCategory.value
    && |t.tags| <= 5 && |t.keyInsights| == 3 && t.summary != "" && t.engagement <= 100
  }

  lemma ToolOfShape(repo: Repo, log20: nat -> int, grouped: nat -> string, now: string)
    ensures ToolShape(ToolOf(repo, log20, grouped, now))
  {
    var t := ToolOf(repo, log20, grouped, now);
    ToolIdClassifies(repo.id);
    assert t.id == "tool-gh-" + NatToString(repo.id);
  }

  /** A minted tool id classifies as a tool. */
  lemma ToolIdClassifies(id: nat)
    ensures ContentDetail.ClassifyId("tool-gh-" + NatToString(id)) == Some(Tool)
  {
    assert "tool-gh-" + NatToString(id) == "tool-" + ("gh-" + NatToString(id));
    ContentDetail.MintedIdsClassify("gh-" + NatToString(id));
  }

  /** `fetchGitHubAITools`: no tools when the request fails or throws, else one per result, in order. */
  function GitHubTools(reply: SearchReply, log20: nat -> int, grouped: nat -> string, now: string): (r: seq<ContentItem>)
    ensures !reply.SearchOk? ==> r == []
    ensures reply.SearchOk? ==> |r| == |reply.items.GetOr([])|
    ensures reply.SearchOk? ==> forall k :: 0 <= k < |r| ==> r[k] == ToolOf(reply.items.GetOr([])[k], log20, grouped, now)
  {
    if !reply.SearchOk? then []
    else
      var items := reply.items.GetOr([]);
      seq(|items|, k requires 0 <= k < |items| => ToolOf(items[k], log20, grouped, now))
  }

  // ---------------------------------------------------------------------
  // One tool per id, then the sort
  // ---------------------------------------------------------------------

  /** The items of `s` whose id is neither in `seen` nor carried by an earlier item, in order. */
  function FirstById(s: seq<ContentItem>, seen: set<string>): seq<ContentItem>
    decreases |s|
  {
    if s == [] then []
    else if s[0].id in seen then FirstById(s[1..], seen)
    else [s[0]] + FirstById(s[1..], seen + {s[0].id})
  }

  /** The loop over `[...curatedTools, ...githubTools]` with the `seen` set. */
  method Dedupe(tools: seq<ContentItem>) returns (all: seq<ContentItem>)
    ensures all == FirstById(tools, {})
  {
    var seen: set<string> := {};
    all := [];
    for i := 0 to |tools|
      invariant all + FirstById(tools[i..], seen) == FirstById(tools, {})
    {
      assert tools[i..][0] == tools[i] && tools[i..][1..] == tools[i + 1..];
      if tools[i].id !in seen {
        AppendStep(all, tools[i], FirstById(tools[i + 1..], seen + {tools[i].id}), FirstById(tools, {}));
        seen := seen + {tools[i].id};
        all := all + [tools[i]];
      }
    }
    assert tools[|tools|..] == [];
  }

  /** No two items carry the same id. */
  predicate UniqueIds(s: seq<ContentItem>) {
    forall i, j :: 0 <= i < j < |s| ==> s[i].id != s[j].id
  }

  /** The ids carried by `s`. */
  function Ids(s: seq<ContentItem>): set<string> {
    set k | 0 <= k < |s| :: s[k].id
  }

  /** The kept items have distinct ids, none of them in `seen`. */
  lemma {:induction false} FirstByIdUnique(s: seq<ContentItem>, seen: set<string>)
    ensures UniqueIds(FirstById(s, seen))
    ensures forall k :: 0 <= k < |FirstById(s, seen)| ==> FirstById(s, seen)[k].id !in seen
    decreases |s|
  {
    if s != [] {
      if s[0].id in seen {
        FirstByIdUnique(s[1..], seen);
      } else {
        FirstByIdUnique(s[1..], seen + {s[0].id});
      }
    }
  }

  /** An id is kept exactly when some item carries it and it is not in `seen`. */
  lemma {:induction false} FirstByIdIds(s: seq<ContentItem>, seen: set<string>)
    ensures Ids(FirstById(s, seen)) == Ids(s) - seen
    decreases |s|
  {
    if s != [] {
      assert Ids(s) == {s[0].id} + Ids(s[1..]) by {
        forall id | id in Ids(s) ensures id in {s[0].id} + Ids(s[1..]) {
          var k :| 0 <= k < |s| && s[k].id == id;
          if k > 0 { assert s[1..][k - 1] == s[k]; }
        }
        forall id | id in Ids(s[1..]) ensures id in Ids(s) {
          var k :| 0 <= k < |s[1..]| && s[1..][k].id == id;
          assert s[k + 1] == s[1..][k];
        }
      }
      if s[0].id in seen {
        FirstByIdIds(s[1..], seen);
      } else {
        var rest := FirstById(s[1..], seen + {s[0].id});
        FirstByIdIds(s[1..], seen + {s[0].id});
        IdsCons(s[0], rest);
      }
    }
  }

  lemma IdsCons(x: ContentItem, s: seq<ContentItem>)
    ensures Ids([x] + s) == {x.id} + Ids(s)
  {
    var t := [x] + s;
    forall id | id in Ids(t) ensures id in {x.id} + Ids(s) {
      var k :| 0 <= k < |t| && t[k].id == id;
      if k > 0 { assert t[k] == s[k - 1]; }
    }
    forall id | id in Ids(s) ensures id in Ids(t) {
      var k :| 0 <= k < |s| && s[k].id == id;
      assert t[k + 1] == s[k];
    }
    assert t[0] == x;
  }

  /** The kept items are the input with some left out, the rest in their order. */
  lemma {:induction false} FirstByIdSubsequence(s: seq<ContentItem>, seen: set<string>)
    ensures IsSubsequence(FirstById(s, seen), s)
    decreases |s|
  {
    if s != [] {
      if s[0].id in seen {
        FirstByIdSubsequence(s[1..], seen);
        SkipFirst(FirstById(s[1..], seen), s);
      } else {
        FirstByIdSubsequence(s[1..], seen + {s[0].id});
      }
    }
  }

  lemma SkipFirst(a: seq<ContentItem>, s: seq<ContentItem>)
    requires s != [] && IsSubsequence(a, s[1..])
    ensures IsSubsequence(a, s)
  {
  }

  /** The first item with an id that is not in `seen` is kept. */
  lemma {:induction false} FirstByIdKeepsFirst(s: seq<ContentItem>, seen: set<string>, k: nat)
    requires k < |s| && s[k].id !in seen
    requires forall i :: 0 <= i < k ==> s[i].id != s[k].id
    ensures s[k] in FirstById(s, seen)
    decreases k
  {
    if k > 0 {
      var seen' := if s[0].id in seen then seen else seen + {s[0].id};
      forall i | 0 <= i < k - 1 ensures s[1..][i].id != s[1..][k - 1].id {
        assert s[1..][i] == s[i + 1];
      }
      assert s[1..][k - 1] == s[k];
      FirstByIdKeepsFirst(s[1..], seen', k - 1);
    }
  }

  /**
   * With curated tools of distinct ids in front, every curated tool is kept,
   * in order, and a GitHub tool is kept only when no curated tool has its id.
   */
  lemma {:induction false} CuratedFirst(curated: seq<ContentItem>, github: seq<ContentItem>, seen: set<string>)
    requires UniqueIds(curated) && Ids(curated) !! seen
    ensures FirstById(curated + github, seen) == curated + FirstById(github, seen + Ids(curated))
    decreases |curated|
  {
    if curated == [] {
      assert curated + github == github;
      assert Ids(curated) == {};
      assert seen + Ids(curated) == seen;
    } else {
      var c := curated[0];
      var rest := curated[1..];
      assert (curated + github)[0] == c && (curated + github)[1..] == rest + github;
      assert c.id in Ids(curated);
      assert UniqueIds(rest) by {
        forall i, j | 0 <= i < j < |rest| ensures rest[i].id != rest[j].id {
          assert rest[i] == curated[i + 1] && rest[j] == curated[j + 1];
        }
      }
      IdsCons(c, rest);
      assert curated == [c] + rest;
      assert c.id !in Ids(rest);
      CuratedFirst(rest, github, seen + {c.id});
      assert seen + {c.id} + Ids(rest) == seen + Ids(curated);
    }
  }

  /** The merged list: one tool per id, curated first, sorted by engagement. */
  function Merged(curated: seq<ContentItem>, github: seq<ContentItem>): seq<ContentItem> {
    SortDesc(FirstById(curated + github, {}), Engagement)
  }

  /** The handler's body: the dedupe loop, then `allTools.sort` in place. */
  method MergeTools(curated: seq<ContentItem>, github: seq<ContentItem>) returns (r: seq<ContentItem>)
    ensures r == Merged(curated, github)
  {
    var all := Dedupe(curated + github);
    var a := new ContentItem[|all|](k requires 0 <= k < |all| => all[k]);
    assert a[..] == all;
    SortInPlace(a, Engagement);
    r := a[..];
  }

  /** Two indices holding the same item raise its count to two. */
  lemma CountTwo(s: seq<ContentItem>, i: nat, j: nat)
    requires i < j < |s| && s[i] == s[j]
    ensures multiset(s)[s[i]] >= 2
  {
    assert s == s[..j] + [s[j]] + s[j + 1..];
    assert s[i] in s[..j];
    assert multiset(s) == multiset(s[..j]) + multiset{s[j]} + multiset(s[j + 1..]);
  }

  /** Distinct ids make each item occur once, and the items tell their ids apart. */
  predicate UniqueIdsBag(m: multiset<ContentItem>) {
    forall x, y :: x in m && y in m ==> m[x] == 1 && (x.id == y.id ==> x == y)
  }

  lemma {:induction false} UniqueIdsToBag(s: seq<ContentItem>)
    requires UniqueIds(s)
    ensures UniqueIdsBag(multiset(s))
    decreases |s|
  {
    if s != [] {
      var rest := s[1..];
      assert s == [s[0]] + rest;
      assert UniqueIds(rest) by {
        forall i, j | 0 <= i < j < |rest| ensures rest[i].id != rest[j].id {
          assert rest[i] == s[i + 1] && rest[j] == s[j + 1];
        }
      }
      UniqueIdsToBag(rest);
      assert forall x :: x in rest ==> x.id != s[0].id by {
        forall x | x in rest ensures x.id != s[0].id {
          var k :| 0 <= k < |rest| && rest[k] == x;
          assert s[k + 1] == x;
        }
      }
      assert multiset(s) == multiset{s[0]} + multiset(rest);
    }
  }

  lemma UniqueIdsFromBag(s: seq<ContentItem>)
    requires UniqueIdsBag(multiset(s))
    ensures UniqueIds(s)
  {
    forall i, j | 0 <= i < j < |s| ensures s[i].id != s[j].id {
      assert s[i] in multiset(s) && s[j] in multiset(s);
      if s[i] == s[j] {
        CountTwo(s, i, j);
      }
    }
  }

  /**
   * The response data is ordered by engagement from the highest, holds one
   * tool per id — exactly the ids of the curated and GitHub tools — each
   * taken from the first list entry with that id, and keeps the curated
   * tools ahead of the GitHub tools among equal engagement.
   */
  lemma MergedMeaning(curated: seq<ContentItem>, github: seq<ContentItem>, e: int)
    ensures var r, kept := Merged(curated, github), FirstById(curated + github, {});
      && SortedDesc(r, Engagement)
      && multiset(r) == multiset(kept)
      && UniqueIds(r)
      && Ids(kept) == Ids(curated + github)
      && IsSubsequence(kept, curated + github)
      && WithKey(r, Engagement, e) == WithKey(kept, Engagement, e)
  {
    var kept := FirstById(curated + github, {});
    SortDescSorted(kept, Engagement);
    SortDescPermutation(kept, Engagement);
    SortDescStable(kept, Engagement, e);
    FirstByIdUnique(curated + github, {});
    UniqueIdsToBag(kept);
    UniqueIdsFromBag(Merged(curated, github));
    FirstByIdIds(curated + github, {});
    FirstByIdSubsequence(curated + github, {});
  }

  /** Each tool that is the first with its id in the combined list is in the response. */
  lemma MergedKeepsFirst(curated: seq<ContentItem>, github: seq<ContentItem>, k: nat)
    requires k < |curated + github|
    requires forall i :: 0 <= i < k ==> (curated + github)[i].id != (curated + github)[k].id
    ensures (curated + github)[k] in Merged(curated, github)
  {
    var kept := FirstById(curated + github, {});
    FirstByIdKeepsFirst(curated + github, {}, k);
    SortDescPermutation(kept, Engagement);
    assert (curated + github)[k] in multiset(Merged(curated, github));
  }

  /** The response of the handler. */
  datatype Answer = ToolsFound(data: seq<ContentItem>)

  /** The handler: the GitHub tools (none when GitHub fails) merged behind the curated ones. */
  method Handle(reply: SearchReply, curated: seq<ContentItem>, log20: nat -> int, grouped: nat -> string, now: string)
    returns (r: Answer)
    ensures r == ToolsFound(Merged(curated, GitHubTools(reply, log20, grouped, now)))
  {
    var github := GitHubTools(reply, log20, grouped, now);
    var data := MergeTools(curated, github);
    r := ToolsFound(data);
  }

  /** When GitHub fails, only the curated tools are answered, one per id. */
  lemma GitHubFailureCuratedOnly(reply: SearchReply, curated: seq<ContentItem>, log20: nat -> int, grouped: nat -> string, now: string)
    requires !reply.SearchOk?
    ensures Merged(curated, GitHubTools(reply, log20, grouped, now)) == SortDesc(FirstById(curated, {}), Engagement)
  {
    assert curated + [] == curated;
  }
}
