/**
 * The `fetch-articles` edge function: Dev.to articles and Hacker News
 * stories turned into article items, each source contributing nothing when
 * it fails, merged and sorted by engagement in place.
 *
 * `today` stands for today's date and `dateOf` for the date of a Unix time
 * (`new Date(time * 1000).toISOString().split('T')[0]`).
 */
module FetchArticles {
  import opened Wrappers
  import opened Strings
  import opened Seqs
  import opened ContentModel
  import ContentDetail

  // ---------------------------------------------------------------------
  // Difficulty: `getDifficultyFromTags`
  // ---------------------------------------------------------------------

  const AdvancedWords: seq<string> := ["advanced", "deep-learning", "neural-network", "transformer", "research"]
  const BeginnerWords: seq<string> := ["beginner", "tutorial", "introduction", "getting-started", "basics"]

  /** `k => lowerTags.includes(k)`. */
  function AmongTags(lowerTags: seq<string>): string -> bool {
    k => k in lowerTags
  }

  /** Exact membership among the lowercased tags; advanced words first. */
  function DifficultyFromTags(tags: seq<string>): Difficulty {
    var lowerTags := LowerAll(tags);
    if AnyOf(AdvancedWords, AmongTags(lowerTags)) then Advanced
    else if AnyOf(BeginnerWords, AmongTags(lowerTags)) then Beginner
    else Intermediate
  }

  /**
   * Advanced exactly when some tag, lowercased, is an advanced word;
   * beginner exactly when some lowercased tag is a beginner word and none is
   * an advanced word.
   */
  lemma DifficultyMeaning(tags: seq<string>)
    ensures var d := DifficultyFromTags(tags);
      && (d == Advanced <==> exists k :: 0 <= k < |AdvancedWords| && AdvancedWords[k] in LowerAll(tags))
      && (d == Beginner <==>
            (forall k :: 0 <= k < |AdvancedWords| ==> AdvancedWords[k] !in LowerAll(tags))
            && exists k :: 0 <= k < |BeginnerWords| && BeginnerWords[k] in LowerAll(tags))
  {
  }

  lemma LowerCharTwice(c: char)
    ensures LowerChar(LowerChar(c)) == LowerChar(c)
  {
  }

  /** The case of the tags does not matter: lowercasing them first gives the same difficulty. */
  lemma DifficultyIgnoresCase(tags: seq<string>)
    ensures DifficultyFromTags(LowerAll(tags)) == DifficultyFromTags(tags)
  {
    forall k | 0 <= k < |tags| ensures ToLower(ToLower(tags[k])) == ToLower(tags[k]) {
      forall i | 0 <= i < |tags[k]| ensures LowerChar(LowerChar(tags[k][i])) == LowerChar(tags[k][i]) {
        LowerCharTwice(tags[k][i]);
      }
    }
    assert LowerAll(LowerAll(tags)) == LowerAll(tags);
  }

  // ---------------------------------------------------------------------
  // Dev.to
  // ---------------------------------------------------------------------

  /** The fields of one Dev.to article that the fetcher reads. */
  datatype DevToArticle = DevToArticle(
    id: nat,
    title: string,
    description: Option<string>,
    tagList: Option<seq<string>>,
    readingMinutes: Option<nat>,
    reactions: Option<nat>,
    userName: Option<string>,
    userUsername: Option<string>,
    publishedAt: Option<string>,
    url: string,
    coverImage: Option<string>,
    socialImage: Option<string>)

  /** `Math.min(100, Math.floor((reactions || 0) / 10) + 50)`. */
  function DevToEngagement(reactions: Option<nat>): (r: int)
    ensures 50 <= r <= 100
    ensures r < 100 ==> (r - 50) * 10 <= reactions.GetOr(0) < (r - 49) * 10
    ensures r == 100 <==> reactions.GetOr(0) >= 500
  {
    Min(100, reactions.GetOr(0) / 10 + 50)
  }

  /** More reactions never lower the score. */
  lemma DevToEngagementMonotone(a: nat, b: nat)
    requires a <= b
    ensures DevToEngagement(Some(a)) <= DevToEngagement(Some(b))
  {
    assert a / 10 <= b / 10;
  }

  /** `reading_time_minutes || 5`. */
  function ReadMinutes(minutes: Option<nat>): (r: nat)
    ensures r > 0
    ensures minutes.Some? && minutes.value > 0 ==> r == minutes.value
  {
    if minutes.Some? && minutes.value != 0 then minutes.value else 5
  }

  /** `tag_list?.slice(0, 3).map(tag => 'Tagged with ' + tag) || []`. */
  function DevToInsights(tagList: Option<seq<string>>): (r: seq<string>)
    ensures |r| <= 3
    ensures tagList.None? ==> r == []
    ensures tagList.Some? ==> |r| == |Take(tagList.value, 3)|
    ensures tagList.Some? ==> forall k :: 0 <= k < |r| ==> r[k] == "Tagged with " + tagList.value[k]
  {
    if tagList.None? then []
    else
      var tags := Take(tagList.value, 3);
      seq(|tags|, k requires 0 <= k < |tags| => "Tagged with " + tags[k])
  }

  /** `cover_image || social_image`. */
  function Image(cover: Option<string>, social: Option<string>): (r: Option<string>)
    ensures !Falsy(cover) ==> r == cover
    ensures Falsy(cover) ==> r == social
  {
    if !Falsy(cover) then cover else social
  }

  /** The item for one Dev.to article. */
  function DevToOf(a: DevToArticle, today: string): ContentItem {
    ContentItem(
      id := "devto-" + NatToString(a.id), title := a.title, contentType := Article,
      summary := OrElse(a.description, "No description available"),
      keyInsights := DevToInsights(a.tagList),
      tags := a.tagList.GetOr([]),
      difficulty := DifficultyFromTags(a.tagList.GetOr([])),
      readTime := NatToString(ReadMinutes(a.readingMinutes)) + " min",
      engagement := DevToEngagement(a.reactions),
      source := "Dev.to", author := OrElse(a.userName, OrElse(a.userUsername, "Unknown")),
      publishedAt := PublishedDate(a.publishedAt, today),
      url := a.url, image := Image(a.coverImage, a.socialImage),
      stars := None, forks := None, language := None, thumbnail := None, videoId := None,
      arxivId := None, toolCategory := None, pricing := None)
  }

  /** What every article item looks like. */
  predicate ArticleShape(v: ContentItem) {
    && v.contentType == Article && ContentDetail.ClassifyId(v.id) == Some(Article)
    && v.summary != "" && v.author != "" && 50 <= v.engagement <= 100
  }

  /** A Dev.to item has the shape, the article's tags and at most three insights. */
  lemma DevToOfShape(a: DevToArticle, today: string)
    ensures var v := DevToOf(a, today);
      && ArticleShape(v) && v.id == "devto-" + NatToString(a.id) && v.source == "Dev.to"
      && v.tags == a.tagList.GetOr([]) && |v.keyInsights| <= 3
  {
    ContentDetail.MintedIdsClassify(NatToString(a.id));
  }

  /** How the Dev.to request ended: it threw, it was not ok, or its articles. */
  datatype DevToReply = DevToThrew | DevToNotOk | DevToOk(articles: seq<DevToArticle>)

  /** `fetchDevTo`: one item per article, in order, and none when the request fails. */
  function DevTo(reply: DevToReply, today: string): (r: seq<ContentItem>)
    ensures !reply.DevToOk? ==> r == []
    ensures reply.DevToOk? ==> |r| == |reply.articles|
    ensures reply.DevToOk? ==> forall k :: 0 <= k < |r| ==> r[k] == DevToOf(reply.articles[k], today)
  {
    if !reply.DevToOk? then []
    else seq(|reply.articles|, k requires 0 <= k < |reply.articles| => DevToOf(reply.articles[k], today))
  }

  // ---------------------------------------------------------------------
  // Hacker News
  // ---------------------------------------------------------------------

  /** The fields of one Hacker News item that the fetcher reads (`author` is its `by`). */
  datatype Story = Story(
    id: nat,
    title: Option<string>,
    url: Option<string>,
    text: Option<string>,
    score: Option<nat>,
    descendants: Option<nat>,
    author: Option<string>,
    time: int)

  /** `story && story.title && (story.url || story.text)`. */
  function Kept(s: Option<Story>): bool {
    s.Some? && !Falsy(s.value.title) && (!Falsy(s.value.url) || !Falsy(s.value.text))
  }

  /** `Math.min(100, Math.floor((score || 0) / 5) + 50)`. */
  function StoryEngagement(score: Option<nat>): (r: int)
    ensures 50 <= r <= 100
    ensures r < 100 ==> (r - 50) * 5 <= score.GetOr(0) < (r - 49) * 5
    ensures r == 100 <==> score.GetOr(0) >= 250
  {
    Min(100, score.GetOr(0) / 5 + 50)
  }

  /** `text?.slice(0, 200) || 'Discussion on Hacker News with … comments'`. */
  function StorySummary(s: Story): (r: string)
    ensures r != ""
    ensures !Falsy(s.text) ==> r == Prefix(s.text.value, 200)
  {
    if !Falsy(s.text) then Prefix(s.text.value, 200)
    else "Discussion on Hacker News with " + NatToString(s.descendants.GetOr(0)) + " comments"
  }

  /** `url || 'https://news.ycombinator.com/item?id=' + id`. */
  function StoryUrl(s: Story): (r: string)
    ensures r != ""
    ensures !Falsy(s.url) ==> r == s.url.value
  {
    OrElse(s.url, "https://news.ycombinator.com/item?id=" + NatToString(s.id))
  }

  /** The item for one story that passed the filter. */
  function StoryOf(s: Story, dateOf: int -> string): ContentItem {
    ContentItem(
      id := "hn-" + NatToString(s.id), title := s.title.GetOr(""), contentType := Article,
      summary := StorySummary(s),
      keyInsights := [NatToString(s.score.GetOr(0)) + " points", NatToString(s.descendants.GetOr(0)) + " comments",
                      "Posted by " + OrElse(s.author, "anonymous")],
      tags := ["Hacker News", "Tech", "Discussion"],
      difficulty := Intermediate, readTime := "5 min",
      engagement := StoryEngagement(s.score),
      source := "Hacker News", author := OrElse(s.author, "anonymous"),
      publishedAt := dateOf(s.time), url := StoryUrl(s),
      image := None, stars := None, forks := None, language := None, thumbnail := None, videoId := None,
      arxivId := None, toolCategory := None, pricing := None)
  }

  /** A story item has the shape, the story's title and a link. */
  lemma StoryOfShape(s: Story, dateOf: int -> string)
    requires !Falsy(s.title)
    ensures var v := StoryOf(s, dateOf);
      && ArticleShape(v) && v.id == "hn-" + NatToString(s.id) && v.source == "Hacker News"
      && v.title == s.title.value && v.title != "" && v.url != "" && v.difficulty == Intermediate
  {
    ContentDetail.MintedIdsClassify(NatToString(s.id));
  }

  /** How the top-stories request ended. */
  datatype TopReply = TopThrew | TopNotOk | TopOk(ids: seq<nat>)

  /** How one item request ended: it threw, or its JSON (`null` as `None`). */
  datatype StoryReply = StoryThrew | StoryJson(story: Option<Story>)

  /** Some item request among `replies` threw, which rejects the `Promise.all`. */
  predicate AnyThrew(replies: seq<StoryReply>) {
    exists k :: 0 <= k < |replies| && replies[k].StoryThrew?
  }

  /** The items asked for: the first ten top story ids. */
  function Replies(ids: seq<nat>, story: nat -> StoryReply): (r: seq<StoryReply>)
    ensures |r| <= 10
  {
    var asked := Take(ids, 10);
    seq(|asked|, k requires 0 <= k < |asked| => story(asked[k]))
  }

  /** The stories that pass the filter, each turned into an item. */
  function Stories(stories: seq<Option<Story>>, dateOf: int -> string): (r: seq<ContentItem>)
    ensures |r| <= |stories|
  {
    var kept := Filter(stories, Kept);
    seq(|kept|, k requires 0 <= k < |kept| => StoryOf(kept[k].value, dateOf))
  }

  /**
   * `fetchHackerNews`: the stories among the first ten top ids that pass the
   * filter, in order; nothing when a request fails or throws.
   */
  function HackerNews(top: TopReply, story: nat -> StoryReply, dateOf: int -> string): (r: seq<ContentItem>)
    ensures |r| <= 10
  {
    if !top.TopOk? then []
    else
      var replies := Replies(top.ids, story);
      if AnyThrew(replies) then [] else Stories(Bodies(replies), dateOf)
  }

  /** The JSON of every item request, when none threw. */
  function Bodies(replies: seq<StoryReply>): (r: seq<Option<Story>>)
    requires !AnyThrew(replies)
    ensures |r| == |replies| && forall k :: 0 <= k < |r| ==> replies[k] == StoryJson(r[k])
  {
    seq(|replies|, k requires 0 <= k < |replies| => replies[k].story)
  }

  /** Every kept story gives an item with the shape, a title and a link. */
  lemma StoriesShape(stories: seq<Option<Story>>, dateOf: int -> string)
    ensures var r := Stories(stories, dateOf);
      forall k :: 0 <= k < |r| ==> ArticleShape(r[k]) && r[k].source == "Hacker News" && r[k].title != "" && r[k].url != ""
  {
    var kept := Filter(stories, Kept);
    forall k | 0 <= k < |kept| ensures Kept(kept[k]) {
    }
    forall k | 0 <= k < |kept| ensures var v := StoryOf(kept[k].value, dateOf);
      ArticleShape(v) && v.source == "Hacker News" && v.title != "" && v.url != ""
    {
      StoryOfShape(kept[k].value, dateOf);
    }
  }

  /** The Hacker News items are well-shaped stories with a title and a link. */
  lemma HackerNewsShape(top: TopReply, story: nat -> StoryReply, dateOf: int -> string)
    ensures var r := HackerNews(top, story, dateOf);
      forall k :: 0 <= k < |r| ==> ArticleShape(r[k]) && r[k].source == "Hacker News" && r[k].title != "" && r[k].url != ""
  {
    if top.TopOk? {
      var replies := Replies(top.ids, story);
      if !AnyThrew(replies) {
        StoriesShape(Bodies(replies), dateOf);
      }
    }
  }

  /**
   * The items are exactly the stories that pass the filter: every item comes
   * from a kept story, and every kept story gives an item.
   */
  lemma StoriesMeaning(stories: seq<Option<Story>>, dateOf: int -> string)
    ensures forall v :: v in Stories(stories, dateOf) ==>
      exists j :: 0 <= j < |stories| && Kept(stories[j]) && v == StoryOf(stories[j].value, dateOf)
    ensures forall j :: 0 <= j < |stories| && Kept(stories[j]) ==> StoryOf(stories[j].value, dateOf) in Stories(stories, dateOf)
  {
    var kept := Filter(stories, Kept);
    var r := Stories(stories, dateOf);
    forall v | v in r ensures exists j :: 0 <= j < |stories| && Kept(stories[j]) && v == StoryOf(stories[j].value, dateOf) {
      var i :| 0 <= i < |kept| && r[i] == v;
      assert kept[i] in stories;
      var j :| 0 <= j < |stories| && stories[j] == kept[i];
      assert Kept(stories[j]);
    }
    forall j | 0 <= j < |stories| && Kept(stories[j]) ensures StoryOf(stories[j].value, dateOf) in r {
      assert stories[j] in kept;
      var i :| 0 <= i < |kept| && kept[i] == stories[j];
      assert r[i] == StoryOf(stories[j].value, dateOf);
    }
  }

  // ---------------------------------------------------------------------
  // The handler
  // ---------------------------------------------------------------------

  /** The merged list: Dev.to first, then Hacker News, sorted by engagement. */
  function Merged(devTo: seq<ContentItem>, hackerNews: seq<ContentItem>): seq<ContentItem> {
    SortDesc(devTo + hackerNews, Engagement)
  }

  /** `[...devToArticles, ...hackerNewsArticles].sort(…)`: the sort runs in place on the new array. */
  method MergeArticles(devTo: seq<ContentItem>, hackerNews: seq<ContentItem>) returns (r: seq<ContentItem>)
    ensures r == Merged(devTo, hackerNews)
  {
    var all := devTo + hackerNews;
    var a := new ContentItem[|all|](k requires 0 <= k < |all| => all[k]);
    assert a[..] == all;
    SortInPlace(a, Engagement);
    r := a[..];
  }

  /**
   * The merged list is ordered by engagement from the highest, holds exactly
   * the items of both sources, and keeps Dev.to items ahead of Hacker News
   * items of the same engagement.
   */
  lemma MergedMeaning(devTo: seq<ContentItem>, hackerNews: seq<ContentItem>, e: int)
    ensures SortedDesc(Merged(devTo, hackerNews), Engagement)
    ensures multiset(Merged(devTo, hackerNews)) == multiset(devTo) + multiset(hackerNews)
    ensures WithKey(Merged(devTo, hackerNews), Engagement, e) == WithKey(devTo + hackerNews, Engagement, e)
  {
    SortDescSorted(devTo + hackerNews, Engagement);
    SortDescPermutation(devTo + hackerNews, Engagement);
    SortDescStable(devTo + hackerNews, Engagement, e);
  }

  /** A failing source contributes nothing: the answer is the other source, sorted. */
  lemma FailingSourceContributesNothing(dev: DevToReply, top: TopReply, story: nat -> StoryReply,
                                        today: string, dateOf: int -> string)
    ensures !dev.DevToOk? ==>
      Merged(DevTo(dev, today), HackerNews(top, story, dateOf)) == SortDesc(HackerNews(top, story, dateOf), Engagement)
    ensures !top.TopOk? ==>
      Merged(DevTo(dev, today), HackerNews(top, story, dateOf)) == SortDesc(DevTo(dev, today), Engagement)
  {
    assert [] + HackerNews(top, story, dateOf) == HackerNews(top, story, dateOf);
    assert DevTo(dev, today) + [] == DevTo(dev, today);
  }

  datatype Answer = ArticlesFound(data: seq<ContentItem>)

  /** The handler: both sources fetched, merged and sorted. */
  method Handle(dev: DevToReply, top: TopReply, story: nat -> StoryReply, today: string, dateOf: int -> string)
    returns (r: Answer)
    ensures r == ArticlesFound(Merged(DevTo(dev, today), HackerNews(top, story, dateOf)))
  {
    var data := MergeArticles(DevTo(dev, today), HackerNews(top, story, dateOf));
    r := ArticlesFound(data);
  }

  /** Every article answered has the shape, with engagement between 50 and 100. */
  lemma HandleShape(dev: DevToReply, top: TopReply, story: nat -> StoryReply, today: string, dateOf: int -> string)
    ensures forall v :: v in Merged(DevTo(dev, today), HackerNews(top, story, dateOf)) ==> ArticleShape(v)
  {
    var d := DevTo(dev, today);
    var h := HackerNews(top, story, dateOf);
    HackerNewsShape(top, story, dateOf);
    forall k | 0 <= k < |d| ensures ArticleShape(d[k]) {
      DevToOfShape(dev.articles[k], today);
    }
    MergedMeaning(d, h, 0);
    forall v | v in Merged(d, h) ensures ArticleShape(v) {
      assert v in multiset(Merged(d, h));
      assert v in multiset(d) || v in multiset(h);
    }
  }
}
