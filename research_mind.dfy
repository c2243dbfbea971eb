/**
 * The `research-mind` edge function (supabase/functions/research-mind/index.ts):
 * request validation, the related-paper context of the prompt, the mapping of
 * the AI gateway's status, the removal of Markdown code fences from the reply,
 * and the default values of three members of the parsed analysis.
 *
 * The request body, the gateway's reply and `JSON.parse` are parameters;
 * `Thrown` stands for the 500 reply that carries an exception's message.
 */
module ResearchMindServer {
  import opened Wrappers
  import opened Strings
  import opened Seqs
  import opened Json
  import opened ResearchTypes

  /** The members of a related paper that the context uses. */
  datatype PaperInput = PaperInput(title: string, author: string, publishedAt: Option<string>, source: string,
                                   summary: string, tags: seq<string>)

  /** The function's reply. */
  datatype Reply =
    | Failure(status: int, error: string)
    | Success(data: Json)
    | Thrown

  /** `[Paper n] "title" by author (Published: …)` and the lines that follow it. */
  function PaperEntry(n: nat, p: PaperInput): string {
    "[Paper " + NatToString(n) + "] \"" + p.title + "\" by " + p.author
      + " (Published: " + (if p.publishedAt.Some? && p.publishedAt.value != "" then p.publishedAt.value else "unknown")
      + ")\nSource: " + p.source + "\nSummary: " + p.summary + "\nTags: " + Join(p.tags, ", ")
  }

  /** The entries of the first 8 related papers, numbered from 1. */
  function ContextEntries(related: Option<seq<PaperInput>>): (r: seq<string>)
    ensures var ps := related.GetOr([]);
      |r| == (if |ps| < 8 then |ps| else 8) && forall i :: 0 <= i < |r| ==> r[i] == PaperEntry(i + 1, ps[i])
  {
    var ps := Take(related.GetOr([]), 8);
    seq(|ps|, i requires 0 <= i < |ps| => PaperEntry(i + 1, ps[i]))
  }

  /** `relatedContext`: the entries joined by blank lines. */
  function RelatedContext(related: Option<seq<PaperInput>>): string {
    Join(ContextEntries(related), "\n\n")
  }

  /** A missing list counts as empty, and papers after the eighth are not used. */
  lemma RelatedContextLimit(related: seq<PaperInput>)
    ensures RelatedContext(None) == RelatedContext(Some([])) == ""
    ensures RelatedContext(Some(related)) == RelatedContext(Some(Take(related, 8)))
  {
    assert ContextEntries(Some(related)) == ContextEntries(Some(Take(related, 8)));
  }

  /** A paper without a publication date is shown as published `unknown`. */
  lemma UnknownDate(n: nat, p: PaperInput)
    requires p.publishedAt.None?
    ensures PaperEntry(n, p) == "[Paper " + NatToString(n) + "] \"" + p.title + "\" by " + p.author
      + " (Published: unknown)\nSource: " + p.source + "\nSummary: " + p.summary + "\nTags: " + Join(p.tags, ", ")
  {
  }

  /** The reply to a non-ok gateway status. */
  function GatewayFailure(status: int): (r: Reply)
    ensures r.Failure?
    ensures status == 429 ==> r == Failure(429, "Rate limit exceeded. Please try again shortly.")
    ensures status == 402 ==> r == Failure(402, "AI credits exhausted. Please add credits.")
    ensures status != 429 && status != 402 ==> r == Failure(500, "AI analysis failed")
  {
    if status == 429 then Failure(429, "Rate limit exceeded. Please try again shortly.")
    else if status == 402 then Failure(402, "AI credits exhausted. Please add credits.")
    else Failure(500, "AI analysis failed")
  }

  /**
   * `s.replace(/<marker>\s*\/g, '')`: removes every occurrence of `marker`
   * together with the white space that follows it, scanning left to right.
   */
  function RemoveMarker(s: string, marker: string): (r: string)
    requires |marker| > 0
    ensures |r| <= |s|
    decreases |s|
  {
    if s == [] then []
    else if StartsWith(s, marker) then RemoveMarker(TrimStart(s[|marker|..]), marker)
    else [s[0]] + RemoveMarker(s[1..], marker)
  }

  /** The cleaned reply text that is handed to `JSON.parse`. */
  function StripFences(raw: string): string {
    Trim(RemoveMarker(RemoveMarker(raw, "```json"), "```"))
  }

  /** Text without a backtick loses nothing. */
  lemma {:induction false} RemoveMarkerNothing(s: string, marker: string)
    requires |marker| > 0 && marker[0] == '`' && NoChar(s, '`')
    ensures RemoveMarker(s, marker) == s
    decreases |s|
  {
    if s != [] {
      assert !StartsWith(s, marker) by {
        if |marker| <= |s| {
          assert s[..|marker|][0] == s[0];
        }
      }
      RemoveMarkerNothing(s[1..], marker);
    }
  }

  /** Backtick-free text in front of a final run of backticks. */
  lemma {:induction false} RemoveMarkerBeforeTail(x: string, tail: string, marker: string)
    requires |marker| > 0 && marker[0] == '`' && NoChar(x, '`')
    ensures RemoveMarker(x + tail, marker) == x + RemoveMarker(tail, marker)
    decreases |x|
  {
    if x != [] {
      var s := x + tail;
      assert s[0] == x[0] && s[1..] == x[1..] + tail;
      assert !StartsWith(s, marker) by {
        if |marker| <= |s| {
          assert s[..|marker|][0] == x[0];
        }
      }
      RemoveMarkerBeforeTail(x[1..], tail, marker);
    } else {
      assert x + tail == tail;
    }
  }

  /**
   * A fenced reply and the bare JSON text clean to the same string: both
   * give back `x`, when `x` has no backtick and no white space at its ends.
   */
  lemma FenceRoundTrip(x: string)
    requires NoChar(x, '`') && x != [] && !IsSpace(x[0]) && !IsSpace(x[|x| - 1])
    ensures StripFences("```json\n" + x + "\n```") == x
    ensures StripFences(x) == x
  {
    TrimNoSpaceEnds(x);
    RemoveMarkerNothing(x, "```json");
    RemoveMarkerNothing(x, "```");
    OpeningFenceGoes(x);
    ClosingFenceGoes(x);
    TrimDropsTrailingSpace(x, '\n');
  }

  /** The opening fence and the line break after it go. */
  lemma OpeningFenceGoes(x: string)
    requires NoChar(x, '`') && x != [] && !IsSpace(x[0])
    ensures RemoveMarker("```json\n" + x + "\n```", "```json") == x + "\n```"
  {
    var fenced := "```json\n" + x + "\n```";
    assert fenced[..7] == "```json";
    assert fenced[7..] == "\n" + (x + "\n```");
    assert TrimStart("\n" + (x + "\n```")) == x + "\n```" by {
      assert ("\n" + (x + "\n```"))[1..] == x + "\n```";
      assert (x + "\n```")[0] == x[0];
    }
    RemoveMarkerBeforeTail(x, "\n```", "```json");
    assert RemoveMarker("\n```", "```json") == "\n```" by {
      assert "\n```"[1..] == "```";
      assert !StartsWith("\n```", "```json");
    }
  }

  /** The closing fence goes, the line break before it stays. */
  lemma ClosingFenceGoes(x: string)
    requires NoChar(x, '`')
    ensures RemoveMarker(x + "\n```", "```") == x + "\n"
  {
    RemoveMarkerBeforeTail(x, "\n```", "```");
    assert RemoveMarker("\n```", "```") == "\n" by {
      assert "\n```"[1..] == "```";
      assert !StartsWith("\n```", "```");
      assert "```"[3..] == [];
    }
  }

  /** The members of the analysis that receive a default, and their defaults. */
  function DefaultFor(k: string): Json {
    if k == "ranked_papers" then JArr([])
    else if k == "confidence_breakdown" then
      JObj(map["recency" := JNum(0.5), "relevance" := JNum(0.5), "agreement" := JNum(0.5)])
    else JObj(map["positive" := JArr([]), "negative" := JArr([]), "neutral" := JArr([])])
  }

  const Backfilled: set<string> := {"ranked_papers", "confidence_breakdown", "confidence_signals"}

  /** The default objects have exactly the members that `ResearchAnalysis` declares. */
  lemma DefaultsMatchSchema()
    ensures DefaultFor("confidence_breakdown").JObj? && DefaultFor("confidence_breakdown").fields.Keys == BreakdownFields
    ensures DefaultFor("confidence_signals").JObj? && DefaultFor("confidence_signals").fields.Keys == SignalFields
  {
  }

  /** `fields` after the three `x = x || default` assignments. */
  predicate IsBackfillOf(r: map<string, Json>, fields: map<string, Json>) {
    r.Keys == fields.Keys + Backfilled
    && (forall k :: k in Backfilled ==> r[k] == if k in fields && Truthy(fields[k]) then fields[k] else DefaultFor(k))
    && (forall k :: k in fields && k !in Backfilled ==> r[k] == fields[k])
  }

  /** The three default assignments, one after the other. */
  method Backfill(fields: map<string, Json>) returns (r: map<string, Json>)
    ensures IsBackfillOf(r, fields)
  {
    r := fields;
    if !("ranked_papers" in r && Truthy(r["ranked_papers"])) {
      r := r["ranked_papers" := DefaultFor("ranked_papers")];
    }
    if !("confidence_breakdown" in r && Truthy(r["confidence_breakdown"])) {
      r := r["confidence_breakdown" := DefaultFor("confidence_breakdown")];
    }
    if !("confidence_signals" in r && Truthy(r["confidence_signals"])) {
      r := r["confidence_signals" := DefaultFor("confidence_signals")];
    }
  }

  /** Backfilling is idempotent: a second pass changes nothing. */
  lemma BackfillIdempotent(r: map<string, Json>, fields: map<string, Json>, r2: map<string, Json>)
    requires IsBackfillOf(r, fields) && IsBackfillOf(r2, r)
    ensures r2 == r
  {
    forall k | k in Backfilled ensures Truthy(r[k]) {
      if !(k in fields && Truthy(fields[k])) {
        assert r[k] == DefaultFor(k);
      }
    }
    assert r2.Keys == r.Keys;
  }

  /**
   * What the gateway call came to: the `fetch` rejected, or an answer with
   * an ok flag, a status and the body as `response.json()` parsed it
   * (`None` where that throws).
   */
  datatype Gateway = Rejected | Answer(ok: bool, status: int, body: Option<Json>)

  /** The request body's `paper` and `relatedPapers`. */
  datatype Request = Request(paper: Option<Json>, related: Option<seq<PaperInput>>)

  /** `${paper.k}` in a template literal: `undefined` is written as such, any other value must convert to text. */
  predicate WritesAsText(paper: Json, k: string) {
    Field(Some(paper), k).None? || Printable(Field(Some(paper), k).value)
  }

  /**
   * The target paper's part of the user prompt is built without throwing:
   * `paper.tags.join(', ')` needs an array whose elements convert to text,
   * and `title`, `author`, `summary`, `source` and a truthy `published_at`
   * must convert to text too.
   */
  predicate PromptBuilds(paper: Json) {
    var tags := Field(Some(paper), "tags");
    && tags.Some? && tags.value.JArr? && Printable(tags.value)
    && WritesAsText(paper, "title") && WritesAsText(paper, "author")
    && WritesAsText(paper, "summary") && WritesAsText(paper, "source")
    && (TruthyOpt(Field(Some(paper), "published_at")) ==> WritesAsText(paper, "published_at"))
  }

  /**
   * A paper without a `tags` array, such as `{}` or `true`, makes the prompt
   * throw; a paper whose members are strings and whose tags are strings
   * builds it.
   */
  lemma PromptBuildsExamples(title: string, tags: seq<string>)
    ensures !PromptBuilds(JObj(map[])) && !PromptBuilds(JBool(true))
    ensures !PromptBuilds(JObj(map["title" := JStr(title), "tags" := JStr("ai")]))
    ensures PromptBuilds(JObj(map["title" := JStr(title), "tags" := JArr(seq(|tags|, k requires 0 <= k < |tags| => JStr(tags[k])))]))
  {
  }

  /**
   * The whole function, from the request (`None` where `req.json()` throws
   * or gives no object to destructure), the presence of the API key, the
   * gateway (called with the related context) and `JSON.parse`. A paper
   * from which the prompt cannot be built throws before the gateway is
   * called.
   */
  method Respond(request: Option<Request>, hasKey: bool,
                 gateway: string -> Gateway, parse: string -> Option<Json>) returns (reply: Reply)
    ensures request.None? ==> reply == Thrown
    ensures request.Some? && !TruthyOpt(request.value.paper) ==> reply == Failure(400, "Paper data is required")
    ensures request.Some? && TruthyOpt(request.value.paper) && !hasKey ==> reply == Failure(500, "AI service not configured")
    ensures request.Some? && TruthyOpt(request.value.paper) && hasKey && !PromptBuilds(request.value.paper.value) ==>
      reply == Thrown
    ensures request.Some? && TruthyOpt(request.value.paper) && hasKey && PromptBuilds(request.value.paper.value) ==>
      var g := gateway(RelatedContext(request.value.related));
      if g.Rejected? then reply == Thrown
      else if !g.ok then reply == GatewayFailure(g.status)
      else if g.body.None? then reply == Thrown
      else match ReadMessage(g.body.value)
        case NullBody => reply == Thrown
        case NotText(v) => reply == if v.JArr? then Failure(500, "Failed to parse analysis results") else Thrown
        case Text(raw) =>
          match parse(StripFences(raw))
          case None => reply == Failure(500, "Failed to parse analysis results")
          case Some(JObj(fields)) => reply.Success? && reply.data.JObj? && IsBackfillOf(reply.data.fields, fields)
          case Some(JArr(items)) => reply == Success(JArr(items))
          case Some(_) => reply == Thrown
  {
    if request.None? {
      return Thrown;
    }
    var Request(paper, related) := request.value;
    if !TruthyOpt(paper) {
      return Failure(400, "Paper data is required");
    }
    if !hasKey {
      return Failure(500, "AI service not configured");
    }
    if !PromptBuilds(paper.value) {
      return Thrown;
    }
    var context := RelatedContext(related);
    var g := gateway(context);
    if g.Rejected? {
      return Thrown;
    }
    if !g.ok {
      return GatewayFailure(g.status);
    }
    if g.body.None? {
      return Thrown;
    }
    var raw := ReadMessage(g.body.value);
    if raw.NullBody? {
      return Thrown;
    }
    if raw.NotText? {
      // `replace` throws; the `catch` logs `rawContent.slice(0, 500)`,
      // which only an array has, and otherwise throws again.
      if raw.value.JArr? {
        return Failure(500, "Failed to parse analysis results");
      }
      return Thrown;
    }
    var analysis := parse(StripFences(raw.s));
    match analysis {
      case None =>
        reply := Failure(500, "Failed to parse analysis results");
      case Some(JObj(fields)) =>
        var filled := Backfill(fields);
        reply := Success(JObj(filled));
      case Some(JArr(items)) =>
        // Members set on an array are not serialised.
        reply := Success(JArr(items));
      case Some(_) =>
        // Setting a member of `null` or of a primitive throws in strict mode.
        reply := Thrown;
    }
  }
}
