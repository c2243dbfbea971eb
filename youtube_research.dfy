/**
 * The `youtube-research` edge function: the videos that explain a research
 * query. Apart from a missing query it never fails: without a key, on an
 * upstream error and on an exception it answers success with no video.
 */
module YouTubeResearch {
  import opened Wrappers
  import opened Seqs
  import opened ContentModel

  /** The request body: unreadable (so `req.json()` or the destructuring throws), or its `query`. */
  datatype Request = Unreadable | Body(query: Option<string>)

  /** One search result, each field as possibly missing. */
  datatype Item = Item(
    videoId: Option<string>,
    title: Option<string>,
    channelTitle: Option<string>,
    medium: Option<string>,
    default: Option<string>)

  /** How the search request ended: it threw, it was not ok, or its JSON and the `items` in it (if any). */
  datatype SearchReply = SearchThrew | SearchNotOk(status: int) | SearchOk(items: Option<seq<Item>>)

  /** One video of the answer. */
  datatype YouTubeResult = YouTubeResult(videoId: string, title: string, channel: string, thumbnail: string)

  /** The answer: a 400 for a missing query, else success with the first video (or none), and all of them when the search went through. */
  datatype Answer =
    | BadRequest(error: string)
    | Research(data: Option<YouTubeResult>, all: Option<seq<YouTubeResult>>, message: Option<string>)

  /** `${query} research explanation`: what is searched for. */
  function SearchText(query: string): string {
    query + " research explanation"
  }

  /** `medium?.url || default?.url || ''`. */
  function Thumbnail(item: Item): (r: string)
    ensures !Falsy(item.medium) ==> r == item.medium.value
    ensures Falsy(item.medium) && !Falsy(item.default) ==> r == item.default.value
    ensures Falsy(item.medium) && Falsy(item.default) ==> r == ""
  {
    OrElse(item.medium, OrElse(item.default, ""))
  }

  /** Every field defaults to `''`. */
  function VideoOf(item: Item): YouTubeResult {
    YouTubeResult(OrElse(item.videoId, ""), OrElse(item.title, ""), OrElse(item.channelTitle, ""), Thumbnail(item))
  }

  /** `v => v.videoId`: a video with an empty id is dropped. */
  function HasVideoId(v: YouTubeResult): bool {
    v.videoId != ""
  }

  /** `(items || []).map(…).filter(v => v.videoId)`. */
  function Videos(items: seq<Item>): seq<YouTubeResult> {
    Filter(seq(|items|, k requires 0 <= k < |items| => VideoOf(items[k])), HasVideoId)
  }

  /**
   * Every video has an id and comes from a result, and every result with an
   * id gives a video; the videos keep the order of the results.
   */
  lemma VideosMeaning(items: seq<Item>)
    ensures forall v :: v in Videos(items) ==> v.videoId != "" && exists k :: 0 <= k < |items| && v == VideoOf(items[k])
    ensures forall k :: 0 <= k < |items| && !Falsy(items[k].videoId) ==> VideoOf(items[k]) in Videos(items)
    ensures IsSubsequence(Videos(items), seq(|items|, k requires 0 <= k < |items| => VideoOf(items[k])))
  {
    var all := seq(|items|, k requires 0 <= k < |items| => VideoOf(items[k]));
    forall v | v in Videos(items) ensures v.videoId != "" && exists k :: 0 <= k < |items| && v == VideoOf(items[k]) {
      var k :| 0 <= k < |all| && all[k] == v;
    }
    forall k | 0 <= k < |items| && !Falsy(items[k].videoId) ensures VideoOf(items[k]) in Videos(items) {
      assert all[k] == VideoOf(items[k]) && HasVideoId(all[k]);
    }
    FilterIsSubsequence(all, HasVideoId);
  }

  /** The first video, or none when there are none. */
  function First(videos: seq<YouTubeResult>): (r: Option<YouTubeResult>)
    ensures r.None? <==> videos == []
    ensures r.Some? ==> r.value == videos[0]
  {
    if |videos| > 0 then Some(videos[0]) else None
  }

  /** The handler. */
  function Handle(request: Request, apiKey: Option<string>, reply: SearchReply): Answer {
    match request
    case Unreadable => Research(None, None, Some("YouTube search failed"))
    case Body(query) =>
      if Falsy(query) then BadRequest("Query is required")
      else if Falsy(apiKey) then Research(None, None, Some("YouTube API not configured"))
      else match reply
        case SearchThrew => Research(None, None, Some("YouTube search failed"))
        case SearchNotOk(_) => Research(None, None, Some("YouTube search unavailable"))
        case SearchOk(items) =>
          var videos := Videos(items.GetOr([]));
          Research(First(videos), Some(videos), None)
  }

  /**
   * Only a readable body without a query is refused. Every other request
   * succeeds; without a key, on an upstream error or on an exception there
   * is no video, and the message says which: `YouTube API not configured`,
   * `YouTube search unavailable` or `YouTube search failed`; otherwise `data`
   * is the first of `all`, the filtered list, with no message.
   */
  lemma HandleMeaning(request: Request, apiKey: Option<string>, reply: SearchReply)
    ensures var r := Handle(request, apiKey, reply);
      && (r.BadRequest? <==> request.Body? && Falsy(request.query))
      && (r.BadRequest? ==> r.error == "Query is required")
      && (r.Research? && r.all.None? ==> r.data.None?)
      && (r.Research? && r.all.Some? ==>
            reply.SearchOk? && r.all.value == Videos(reply.items.GetOr([])) && r.data == First(r.all.value))
      && (r.Research? && (Falsy(apiKey) || !reply.SearchOk? || request.Unreadable?) ==> r.data.None? && r.all.None?)
      && (request.Body? && !Falsy(request.query) && Falsy(apiKey) ==> r.message == Some("YouTube API not configured"))
      && (request.Body? && !Falsy(request.query) && !Falsy(apiKey) && reply.SearchNotOk? ==>
            r.message == Some("YouTube search unavailable"))
      && (request.Unreadable? || (request.Body? && !Falsy(request.query) && !Falsy(apiKey) && reply.SearchThrew?) ==>
            r.message == Some("YouTube search failed"))
      && (r.Research? && r.all.Some? ==> r.message.None?)
  {
  }
}
