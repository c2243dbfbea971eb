# ai-trend-compass, modelled in Dafny

ai-trend-compass is a content-discovery app for AI material. Supabase edge
functions gather articles (Dev.to and Hacker News), GitHub repositories,
arXiv papers, YouTube videos and AI tools into one `ContentItem` shape. A
React client shows them as a feed, a detail page, a semantic search, a
notification bell, a streaming chat assistant and the ResearchMind panel,
which asks an AI gateway to analyse a paper against related ones.

This project models that core, one Dafny module per source file:

- the edge functions `fetch-articles`, `fetch-repos`, `fetch-papers`,
  `fetch-videos`, `fetch-tools`, `semantic-search`, `research-mind` and
  `youtube-research`;
- the client's content API, content feed, content detail page and
  notification store;
- the ResearchMind hook, panel, pipeline progress view and stage types;
- the chat assistant's server-sent event reader.

Each handler is a function from what its requests returned to its answer.
Stateful client code is a class whose methods change its fields. Loops in
the source are methods with loop invariants, each proved equal to a
specification function. Lemmas then prove what those functions promise:
shapes of the items, one item per upstream result, ordering and
permutation after sorting, first-wins deduplication, round trips of
fence stripping and duration parsing, and the precedence of error cases.

Shared modules: `Wrappers` (Option), `Strings` (search, trim, ASCII
lowercase, decimal digits), `Seqs` (filter, take, stable sort by a key,
subsequences, an in-place insertion sort), `Json` (the parsed values the
code reads), `ContentModel` (`ContentItem` and the keyword match),
`GitHub` (a repository of the search API) and `Numbers` (`formatNumber`).

## Model

| member | source | states |
|---|---|---|
| ChatStream.FirstNewline | src/components/ai/AIAssistant.tsx:103 | the position of the first `\n`, with none before it; none when the buffer holds no line break |
| ChatStream.FirstNewlineIsIndexOf | src/components/ai/AIAssistant.tsx:103 | the line-break search agrees with the general substring search `indexOf('\n')` |
| ChatStream.FirstNewlineAppend | src/components/ai/AIAssistant.tsx:100-103 | appending a chunk keeps an existing first line break; otherwise the first one is the chunk's, shifted |
| ChatStream.StripCR | src/components/ai/AIAssistant.tsx:107 | exactly one trailing `\r` is removed, and a line without one is unchanged |
| ChatStream.ClassifyMeaning | src/components/ai/AIAssistant.tsx:108-115 | comment, blank and non-`data: ` lines are skipped; a `data: ` line is the end marker iff its trimmed rest is `[DONE]`, else a payload carrying that trimmed rest |
| ChatStream.ClassifyStripCR | src/components/ai/AIAssistant.tsx:107-111 | stripping a further `\r` from a payload line does not change its payload |
| ChatStream.DecodeMeaning | src/components/ai/AIAssistant.tsx:117-121 | a payload lands in the `catch` when parsing fails or gives `null`; a content is passed over exactly when it is falsy; a string content is its own token, any other truthy content the text `+=` makes of it (possibly empty), and an object content with its own `toString` member throws into the `catch`; every token comes from a truthy content |
| ChatStream.CoercedTokens | src/components/ai/AIAssistant.tsx:119-121 | `+=` writes `true` as `true`, a number as `num` writes it, an array as its elements joined by commas (`null` as nothing), an object as `[object Object]`, and throws for an object with its own `toString`; `[]`, `[""]` and `[null]` are truthy yet give the empty text |
| ChatStream.LineActionStripCR | src/components/ai/AIAssistant.tsx:107-133 | a pushed-back line, once its `\r` is gone, is pushed back again |
| ChatStream.ScanLines | src/components/ai/AIAssistant.tsx:102-134 | the inner loop only extends the text so far, and when it waits for more text no line break is left in the buffer |
| ChatStream.ScanStep | src/components/ai/AIAssistant.tsx:103-133 | one line either stops reading (rest stays buffered), is pushed back with its `\n` ahead of the rest, or appends its token and the scan goes on with the rest; the scan reports a conversation update exactly when this line or a later one brings a token |
| ChatStream.ScanLinesNoLoss | src/components/ai/AIAssistant.tsx:103-105 | the lines cut off, their separators and the remaining buffer make up the buffer scanned: nothing lost, nothing repeated |
| ChatStream.ScanLinesAppend | src/components/ai/AIAssistant.tsx:97-105 | chunk boundaries do not matter: scanning `b + c` equals scanning `b`, then its leftover followed by `c` |
| ChatStream.RetryStalls | src/components/ai/AIAssistant.tsx:130-133 | a payload that fails to parse is retried on the next chunk, fails again, and nothing behind it is read |
| ChatStream.RetryRepeats | src/components/ai/AIAssistant.tsx:130-133 | the same stall for any line handler that keeps pushing a line back |
| ChatStream.RetryBuffer | src/components/ai/AIAssistant.tsx:131 | after a push-back the buffer is the line (without `\r`), its `\n` and the unread rest |
| ChatStream.ScanPushedBack | src/components/ai/AIAssistant.tsx:131-132 | a buffer that starts with a pushed-back line is left untouched by the next scan |
| ChatStream.Feed | src/components/ai/AIAssistant.tsx:97-100 | once `[DONE]` was seen a chunk changes nothing; the text so far only grows |
| ChatStream.FeedAll | src/components/ai/AIAssistant.tsx:97-135 | over a sequence of chunks the text so far only grows |
| ChatStream.FeedSplit | src/components/ai/AIAssistant.tsx:98-105 | reading a text as two chunks equals reading it as one when the first neither stops nor pushes back |
| ChatStream.DoneStopsReading | src/components/ai/AIAssistant.tsx:97-114 | after `[DONE]` further chunks leave the reader unchanged |
| ChatStream.FlushLine | src/components/ai/AIAssistant.tsx:139-159 | a flushed line changes the text only when it is non-empty and its handler yields a token, which is appended; a line that brings no token changes nothing |
| ChatStream.FlushLines | src/components/ai/AIAssistant.tsx:139-160 | the final flush only extends the text so far, and leaves it as it is when no line brings a token |
| ChatStream.FlushUpdatesMeaning | src/components/ai/AIAssistant.tsx:139-159 | the flush rewrites the conversation exactly when one of its non-empty lines yields a token |
| ChatStream.FlushBuffer | src/components/ai/AIAssistant.tsx:137-161 | the flush of the leftover buffer only extends the text so far, and leaves it as it is when the flush brings no token |
| ChatStream.FlushBlankLines | src/components/ai/AIAssistant.tsx:140-142 | blank lines contribute nothing to the flush |
| ChatStream.FlushGuardRedundant | src/components/ai/AIAssistant.tsx:138-139 | the `textBuffer.trim()` guard changes no result: the flush equals the split-and-fold over the buffer |
| ChatStream.DoneThenFlush | src/components/ai/AIAssistant.tsx:111-115 | a line buffered behind a `[DONE]` of the main loop is still applied by the final flush, which rewrites the conversation, while the main loop did not |
| ChatStream.DataLine | src/components/ai/AIAssistant.tsx:109-112 | `data: v` (v without surrounding space) is the end marker iff v is `[DONE]`, else the payload v |
| ChatStream.ApplyDelta | src/components/ai/AIAssistant.tsx:119-128 | the last message becomes the assistant's whole text so far; a trailing assistant message is replaced, else one is appended; earlier messages are kept |
| ChatStream.ApplyDeltaTwice | src/components/ai/AIAssistant.tsx:121-128 | two updates in a row equal the second alone |
| ChatStream.ShownTwice | src/components/ai/AIAssistant.tsx:117-128 | two stretches of the stream, the second of which adds text only with a token, rewrite the conversation as one stretch does |
| ChatStream.EmptyArrayContent | src/components/ai/AIAssistant.tsx:117-128 | a payload whose content is `[]` (truthy, no text) still runs the update: after a user turn it leaves an empty assistant message, and the text so far stays empty |
| ChatStream.ChatAssistant.constructor | src/components/ai/AIAssistant.tsx:34-37 | no messages, empty input, not loading |
| ChatStream.ChatAssistant.SendMessage | src/components/ai/AIAssistant.tsx:55-63 | sends iff the trimmed text is non-empty and nothing is in flight; then exactly one user message with the trimmed text is appended, input cleared, loading set; otherwise nothing changes |
| ChatStream.ChatAssistant.ResponseNotOk | src/components/ai/AIAssistant.tsx:78-84 | toast with the server `error` (else `Failed to get response`), no assistant message, loading ends |
| ChatStream.ChatAssistant.NoBody | src/components/ai/AIAssistant.tsx:86-90 | toast `No response stream`, no assistant message, loading ends |
| ChatStream.ChatAssistant.StreamOpened | src/components/ai/AIAssistant.tsx:92-95 | reading starts with an empty buffer; messages unchanged |
| ChatStream.ChatAssistant.ConnectFailed | src/components/ai/AIAssistant.tsx:162-167 | toast `Failed to connect to AI assistant`, what was streamed stays, loading ends |
| ChatStream.ChatAssistant.ClearChat | src/components/ai/AIAssistant.tsx:227 | the conversation becomes empty |
| ChatStream.ChatAssistant.AddToken | src/components/ai/AIAssistant.tsx:117-128 | the token is appended to the text so far and the conversation shows the whole text in its trailing assistant message, even when the token is empty |
| ChatStream.ChatAssistant.Finish | src/components/ai/AIAssistant.tsx:137-167 | the text so far becomes the flush of the leftover buffer; the conversation shows it exactly when some flushed line had a truthy content, and is unchanged otherwise; loading ends |
| ChatStream.ChatAssistant.FlushLinesInto | src/components/ai/AIAssistant.tsx:139-160 | the flush loop yields exactly the fold `FlushLines` over the lines, and the conversation is rewritten exactly when one of them brings a token |
| ChatStream.ChatAssistant.ReadLines | src/components/ai/AIAssistant.tsx:102-134 | the inner loop leaves buffer and text exactly as `ScanLines` says, reports `[DONE]` exactly when the scan saw it, and rewrites the conversation exactly when the scan met a truthy content |
| ChatStream.ChatAssistant.ReceiveChunk | src/components/ai/AIAssistant.tsx:97-135 | a chunk is appended and scanned; on `[DONE]` the final flush runs and loading ends, otherwise streaming goes on with the scan's buffer and text; the conversation shows the text so far exactly when the scan or the flush met a truthy content, and is unchanged otherwise |
| ChatStream.ChatAssistant.EndOfStream | src/components/ai/AIAssistant.tsx:98-99 | the end of the stream runs the final flush on the leftover buffer and ends loading; the conversation shows the text exactly when the flush met a truthy content |
| ResearchHook.RelatedPapers | src/hooks/useResearchMind.ts:23-28 | as many items as qualify, but at most 8, each from `allContent`, other than the paper, and either a paper or sharing a tag with it |
| ResearchHook.RelatedPapersMeaning | src/hooks/useResearchMind.ts:23-28 | the related papers keep `allContent`'s order and are exactly the first 8 qualifying items, or all of them when at most 8 qualify |
| ResearchHook.Resolve | src/hooks/useResearchMind.ts:65-85 | a transport error wins (its message, else `Analysis failed`), then a truthy `error` in the body, then `data.data`; reading `data.data` of a null body throws; an exception gives its message or `Unexpected error` |
| ResearchHook.ResolvePrecedence | src/hooks/useResearchMind.ts:67-79 | the analysis is reached only when neither error is present; a transport error always fails with a non-empty message |
| ResearchHook.ResearchMind.constructor | src/hooks/useResearchMind.ts:7-11 | closed, stage `idle`, no analysis, error or paper, no timers |
| ResearchHook.ResearchMind.Analyze | src/hooks/useResearchMind.ts:13-40 | opens on the paper, clears analysis and error, shows the first stage `searching`, starts a new interval at stage 1 and returns the related papers |
| ResearchHook.ResearchMind.Tick | src/hooks/useResearchMind.ts:31-37 | an interval firing shows its next stage and advances its own counter, and does nothing once the five stages are used up; it never sets `done` or `error` |
| ResearchHook.ResearchMind.Settle | src/hooks/useResearchMind.ts:42-85 | the run's interval is cleared; the stage becomes `error` with the resolved message or `done` with the analysis |
| ResearchHook.ResearchMind.Close | src/hooks/useResearchMind.ts:88-97 | hides the panel at once and schedules one reset |
| ResearchHook.ResearchMind.FireReset | src/hooks/useResearchMind.ts:91-96 | a scheduled reset sets stage `idle` and clears analysis, error and paper, whatever happened since |
| ResearchHook.CloseThenReanalyze | src/hooks/useResearchMind.ts:88-97 | closing and reopening on another paper within the delay leaves the new run open with no paper and stage `idle` while its interval keeps running |
| ResearchTypes.StageKeyInjective | src/components/research/types.ts:37-47 | distinct stages have distinct string values |
| ResearchTypes.PipelineKeys | src/components/research/types.ts:49-57 | the keys of the progress list, position by position |
| ResearchTypes.PipelineStagesShape | src/components/research/types.ts:49-57 | seven steps in the listed order, keys pairwise distinct and from the `PipelineStage` union, none of `idle`, `done`, `error`, each with a label |
| PipelineProgress.FindStage | src/components/research/PipelineProgress.tsx:12 | `findIndex`: the first position with the stage's key, or -1 when none has it |
| PipelineProgress.CurrentIndexMeaning | src/components/research/PipelineProgress.tsx:12 | the current index is the first listed position of the stage, and -1 exactly when it is not listed |
| PipelineProgress.CurrentIndexOfListed | src/components/research/PipelineProgress.tsx:12 | a listed stage is found at its own position |
| PipelineProgress.StepsShape | src/components/research/PipelineProgress.tsx:21-23 | at most one step is active; the done steps are the prefix ending right before it |
| PipelineProgress.UnlistedStageLightsNothing | src/components/research/PipelineProgress.tsx:12-23 | an unlisted stage marks no step done or active |
| PipelineProgress.HeaderLabelMeaning | src/components/research/PipelineProgress.tsx:18 | the header shows the current step's label, or `Processing…` when the stage is not listed |
| PipelineProgress.ProgressExamples | src/components/research/PipelineProgress.tsx:12-23 | `report` shows `Creating Report` with every earlier step done; `comparing` and `done` are not listed |
| ResearchPanel.ConfigIndexFrom | src/components/research/ResearchMindPanel.tsx:117 | `indexOf` over the configured stages: a position holding the stage, or -1 when none does |
| ResearchPanel.ProgressIncreases | src/components/research/ResearchMindPanel.tsx:37-44 | the progress values rise strictly in declaration order from 20 to 100, and the keys are distinct |
| ResearchPanel.ConfigIndexOfListed | src/components/research/ResearchMindPanel.tsx:37-44 | each configured stage is found at its own position |
| ResearchPanel.IndicatorKeys | src/components/research/ResearchMindPanel.tsx:112 | one bar per configured stage except `done`, in order |
| ResearchPanel.LitMeaning | src/components/research/ResearchMindPanel.tsx:117-119 | bar i is lit exactly when i is at most the current stage's index; an unconfigured stage lights none |
| ResearchPanel.UnconfiguredStages | src/components/research/ResearchMindPanel.tsx:37-44 | exactly `idle`, `error` and the stages only the progress view knows have no entry |
| ResearchPanel.Toggle | src/components/research/ResearchMindPanel.tsx:61 | toggling closes the section iff it is the open one, and otherwise opens exactly it |
| ResearchPanel.ToggleTwice | src/components/research/ResearchMindPanel.tsx:61 | toggling the same section twice restores a closed or matching state |
| ResearchPanel.ErrorText | src/components/research/ResearchMindPanel.tsx:133 | the banner is never empty: a non-empty error is shown as given, a missing or empty one as `An unexpected error occurred.` |
| ResearchPanel.PanelBodyExclusive | src/components/research/ResearchMindPanel.tsx:63-139 | results, error banner and placeholder never show together, and results never show while loading |
| ResearchMindServer.ContextEntries | supabase/functions/research-mind/index.ts:44-45 | one entry per related paper up to the eighth, numbered from 1; a missing list counts as empty |
| ResearchMindServer.RelatedContextLimit | supabase/functions/research-mind/index.ts:44-46 | no list and an empty list give no context; papers after the eighth are not used |
| ResearchMindServer.UnknownDate | supabase/functions/research-mind/index.ts:45 | a paper without a date is shown as published `unknown` |
| ResearchMindServer.GatewayFailure | supabase/functions/research-mind/index.ts:133-153 | 429 answers 429 `Rate limit exceeded. Please try again shortly.`, 402 answers 402 `AI credits exhausted. Please add credits.`; every other failing status becomes 500 `AI analysis failed` |
| ResearchMindServer.RemoveMarker | supabase/functions/research-mind/index.ts:160 | removing a fence marker and the white space after it never lengthens the text |
| ResearchMindServer.RemoveMarkerNothing | supabase/functions/research-mind/index.ts:160 | text without a backtick is left as it is |
| ResearchMindServer.RemoveMarkerBeforeTail | supabase/functions/research-mind/index.ts:160 | backtick-free text in front of the rest passes through unchanged |
| ResearchMindServer.FenceRoundTrip | supabase/functions/research-mind/index.ts:160 | a reply fenced as ```` ```json ```` … ```` ``` ```` and the bare JSON text clean to the same text |
| ResearchMindServer.OpeningFenceGoes | supabase/functions/research-mind/index.ts:160 | the opening fence and the line break after it are removed |
| ResearchMindServer.ClosingFenceGoes | supabase/functions/research-mind/index.ts:160 | the closing fence is removed, the line break before it stays |
| ResearchMindServer.DefaultsMatchSchema | supabase/functions/research-mind/index.ts:172-173 | the default breakdown and signal objects have exactly the members the analysis schema declares |
| ResearchMindServer.Backfill | supabase/functions/research-mind/index.ts:170-173 | falsy `ranked_papers`, `confidence_breakdown` and `confidence_signals` get their defaults, truthy ones and every other member are kept |
| ResearchMindServer.BackfillIdempotent | supabase/functions/research-mind/index.ts:170-173 | backfilling twice is backfilling once |
| Json.JsTextDefined | supabase/functions/research-mind/index.ts:104-110 | `String(x)` gives a text exactly when no object inside the value has its own `toString` member, whatever the number format |
| ResearchMindServer.PromptBuildsExamples | supabase/functions/research-mind/index.ts:104-110 | `{}`, `true` and a paper whose `tags` is a string make the prompt throw; a paper with string members and string tags builds it |
| Json.ReadMessage | supabase/functions/research-mind/index.ts:155-156 | the gateway reply (the same expression at semantic-search/index.ts:99) reads as `null` exactly for a null body, as non-text exactly for a truthy non-string content, as `''` exactly for a falsy content, and otherwise as the string at `choices[0].message.content` |
| ResearchMindServer.Respond | supabase/functions/research-mind/index.ts:18-186 | an unreadable request, a paper from which the prompt cannot be built (no `tags` array, or a member that does not convert to text), a rejected gateway call and an unreadable gateway body each reach the `catch` (500 with the exception's message); 400 without a paper, 500 without a key, the gateway's status mapping; a truthy non-string content reaches the `catch`, which answers 500 `Failed to parse analysis results` for an array and throws again for anything else; 500 on unparseable output, success with a backfilled object, and an exception where the source would throw |
| SemanticSearch.KeywordResultMeaning | supabase/functions/semantic-search/index.ts:209-236 | with a match: exactly the matching items in their order and `hasExactMatches`; without one: the 15 (or fewer) items of highest engagement, sorted, drawn from the content; no expansion terms |
| SemanticSearch.TopByEngagement | supabase/functions/semantic-search/index.ts:225 | the first 15 by engagement: as many as there are up to 15, sorted, drawn from the content |
| SemanticSearch.KeywordSearch | supabase/functions/semantic-search/index.ts:209-236 | the keyword result of the original content; the array is sorted in place exactly when nothing matched |
| SemanticSearch.StripFenceMarks | supabase/functions/semantic-search/index.ts:105 | removing the fence marks never lengthens the text |
| SemanticSearch.FenceAt | supabase/functions/semantic-search/index.ts:105 | the fence mark matched at the head fits in the text |
| SemanticSearch.StripFenceMarksBefore | supabase/functions/semantic-search/index.ts:105 | backtick-free text in front of the rest passes through unchanged |
| SemanticSearch.PlainHead | supabase/functions/semantic-search/index.ts:105 | a head character that starts no fence mark is kept |
| SemanticSearch.FencedReplyCleansLikeBare | supabase/functions/semantic-search/index.ts:105 | a reply fenced as a JSON code block and the bare text clean to the same trimmed text |
| SemanticSearch.Strs | supabase/functions/semantic-search/index.ts:116-119 | an array yields its strings exactly when every element is a string |
| SemanticSearch.TermList | supabase/functions/semantic-search/index.ts:116-119 | a missing or null list adds nothing; a value that is not an array throws |
| SemanticSearch.ReadAnalysis | supabase/functions/semantic-search/index.ts:112-119 | a null analysis throws; a readable one keeps its `intent` as given |
| SemanticSearch.IntentOf | supabase/functions/semantic-search/index.ts:191 | a truthy intent is kept, otherwise `General search` |
| SemanticSearch.DedupMeaning | supabase/functions/semantic-search/index.ts:113 | the term set holds each term once and exactly the terms added |
| SemanticSearch.DedupHead | supabase/functions/semantic-search/index.ts:113-114 | the first term added stays first |
| Strings.LowerAll | supabase/functions/semantic-search/index.ts:116-119 | each term lowercased, in order; the same map lowercases the tags in `supabase/functions/fetch-articles/index.ts` line 95 |
| SemanticSearch.SearchTermsMeaning | supabase/functions/semantic-search/index.ts:113-119 | the terms start with the lowercased query, hold no term twice, and are exactly the lowercased query and list entries |
| SemanticSearch.AddTerms | supabase/functions/semantic-search/index.ts:116-119 | the loop adds the lowercased entries to the set as the set semantics say |
| SemanticSearch.BuildSearchTerms | supabase/functions/semantic-search/index.ts:113-119 | the terms built by the loops are the set of search terms |
| SemanticSearch.RelevanceScore | supabase/functions/semantic-search/index.ts:122-147 | the score loop gives the sum of the per-term points plus the engagement boost |
| SemanticSearch.SumPointsPermutation | supabase/functions/semantic-search/index.ts:128-141 | the score does not depend on the order the set yields its terms |
| SemanticSearch.SumPointsAtLeast | supabase/functions/semantic-search/index.ts:128-141 | no term takes points away: every term's points bound the sum from below, and it is never negative |
| SemanticSearch.KeywordMatchScores | supabase/functions/semantic-search/index.ts:128-141 | an item the keyword search would find scores at least 40 before the boost |
| SemanticSearch.ScoredAll | supabase/functions/semantic-search/index.ts:122-147 | every item with its score, in content order |
| SemanticSearch.Items | supabase/functions/semantic-search/index.ts:183 | the items without their scores, in order |
| SemanticSearch.TopUp | supabase/functions/semantic-search/index.ts:170-179 | the hits stay first; every trending item whose id is not among the hits follows with score 0, in the trending order, and nothing else does |
| SemanticSearch.HasExactMatchesMeaning | supabase/functions/semantic-search/index.ts:152-157 | `hasExactMatches` iff some title or summary contains the query; tags do not count |
| SemanticSearch.RankedHits | supabase/functions/semantic-search/index.ts:149-169 | without the top-up: exactly the positively scored items, by score from the highest, ties in content order |
| SemanticSearch.TopUpMeaning | supabase/functions/semantic-search/index.ts:168-179 | with the top-up: fewer than 5 hits first, then exactly those of the 10 items with highest engagement whose id is not among the hits, in that order and with score 0, and no exact match |
| SemanticSearch.ScoreContent | supabase/functions/semantic-search/index.ts:122-147 | the loop computes every item's score |
| SemanticSearch.Search | supabase/functions/semantic-search/index.ts:26-207 | 400 for a missing query or content; the keyword fallback without a key, on a non-ok gateway, on a truthy non-string content (its `replace` throws inside the `try`) and on unparseable output; `Search failed` for a null body and where the source throws outside the `try`; otherwise the semantic result; content is only ever sorted by engagement |
| SemanticSearch.Analyse | supabase/functions/semantic-search/index.ts:112-194 | the semantic result of the original content; the array is sorted in place only for the top-up |
| ContentApi.EndpointInjective | src/lib/api/content.ts:150-165 | each content type has its own edge function |
| ContentApi.Fetch | src/lib/api/content.ts:46-130 | the items of `data.data`, and `[]` on an error, an exception or no data |
| ContentApi.FetchByType | src/lib/api/content.ts:150-165 | each type is dispatched to its own fetcher |
| ContentApi.FetchAllContentMeaning | src/lib/api/content.ts:132-148 | the feed is sorted by engagement, holds exactly the items of the five lists, and ties keep the list order |
| ContentApi.FetchedTypeInAll | src/lib/api/content.ts:132-165 | every item a single fetcher returns is in the merged feed |
| ContentApi.BasicSearch | src/lib/api/content.ts:186-213 | the keyword result with intent `Basic search`; the array is sorted in place exactly when nothing matched |
| ContentApi.SemanticSearchCall | src/lib/api/content.ts:167-184 | the server's truthy `data.data` with the array untouched, and otherwise the basic search, so the call never fails; the fallback sorts the array in place exactly when nothing matched |
| ContentFeed.PlanFor | src/components/content/ContentFeed.tsx:26-52 | `analytics` fetches nothing; `all`, `trending` and `saved` fetch all content; a type filter fetches its own type, except `tool`, which loads no data |
| ContentFeed.LoadedMeaning | src/components/content/ContentFeed.tsx:24-41 | the four fetched types load exactly their fetcher's list; any value other than the three feed filters and those types loads nothing |
| ContentFeed.SavedView | src/components/content/ContentFeed.tsx:59-61 | without a query, `saved` shows exactly the saved items, in order |
| ContentFeed.TrendingView | src/components/content/ContentFeed.tsx:64-66 | without a query, `trending` is the content reordered by engagement, ties kept in order |
| ContentFeed.QueryView | src/components/content/ContentFeed.tsx:69-76 | a query keeps exactly the matching items of the filtered list, in its order |
| ContentFeed.Toggled | src/components/content/ContentFeed.tsx:81-91 | the id's membership flips and no other id's changes |
| ContentFeed.ToggleTwice | src/components/content/ContentFeed.tsx:81-91 | toggling an id twice restores the set |
| ContentFeed.Feed.constructor | src/components/content/ContentFeed.tsx:13-15 | nothing saved, no content, loading |
| ContentFeed.Feed.ToggleSave | src/components/content/ContentFeed.tsx:81-91 | the saved set becomes the toggled one |
| ContentFeed.Feed.Load | src/components/content/ContentFeed.tsx:18-53 | `analytics` changes nothing; any other filter loads the plan's content and ends loading |
| ContentDetail.ClassifyId | src/pages/ContentDetail.tsx:66-78 | each prefix, and only it, selects its content type: `devto-`/`hn-` articles, `gh-` repos, `arxiv-` papers, `yt-` videos, `tool-` tools |
| ContentDetail.MintedIdsClassify | src/pages/ContentDetail.tsx:66-78 | every id a fetcher mints leads back to the type of its item |
| ContentDetail.FindById | src/pages/ContentDetail.tsx:80-94 | the first item with the id, and none exactly when no item has it |
| ContentDetail.UnknownPrefixSearchesAll | src/pages/ContentDetail.tsx:89-93 | an id without a known prefix is found exactly when some list holds it |
| ContentDetail.TypedLookupInAll | src/pages/ContentDetail.tsx:80-88 | an item found through its type's fetcher is also in all content and has the id |
| ContentDetail.DetailPage.constructor | src/pages/ContentDetail.tsx:55-58 | no item, loading |
| ContentDetail.DetailPage.FetchItem | src/pages/ContentDetail.tsx:60-100 | an empty id changes nothing; otherwise the item becomes the lookup's result and loading ends |
| ContentModel.OrElse | supabase/functions/fetch-repos/index.ts:59 | `o \|\| d` on a possibly missing string: the default exactly when the value is missing or empty |
| ContentModel.PublishedDate | supabase/functions/fetch-repos/index.ts:71 | a timestamp that is present, non-empty and does not start with `T` gives exactly its text before the first `T` (the whole text when it has no `T`), a non-empty prefix without `T`; a missing or empty timestamp, or one starting with `T`, gives today's date |
| Numbers.FormatNumberMeaning | supabase/functions/fetch-repos/index.ts:91-95 | below 1000 the digits of the number; up to a million a value in [1, 1000) with `K`; from a million on a value of at least 1 with `M` |
| Numbers.NatToStringShort | supabase/functions/fetch-videos/index.ts:130-134 | a count below 1000 has at most three digits |
| Notifications.Stamp | src/hooks/useNotifications.tsx:31-36 | the new notification is unread and carries its id and the draft's type and content id |
| Notifications.StampedConcat | src/hooks/useNotifications.tsx:105-153 | ids given to two batches in turn run on from one to the other |
| Notifications.AddedSnoc | src/hooks/useNotifications.tsx:38 | one more notification goes in front of what the earlier ones left, and only the 50 newest stay |
| Notifications.AddedPrefix | src/hooks/useNotifications.tsx:38 | the same step for each prefix of a batch |
| Notifications.AddedMeaning | src/hooks/useNotifications.tsx:38 | after an addition the list holds at most 50 entries and the newest is first |
| Notifications.AddedConcat | src/hooks/useNotifications.tsx:38 | adding two batches one after the other is adding them as one |
| Notifications.MarkedRead | src/hooks/useNotifications.tsx:54-56 | entries with the id become read; nothing else about any entry changes |
| Notifications.MarkedReadIdempotent | src/hooks/useNotifications.tsx:54-56 | marking the same id again changes nothing |
| Notifications.AllRead | src/hooks/useNotifications.tsx:61 | every entry becomes read and is otherwise unchanged |
| Notifications.ShortTitle | src/hooks/useNotifications.tsx:108 | a title up to 60 characters is kept; a longer one is cut to its first 60 followed by `...` |
| Notifications.PollRecordsIds | src/hooks/useNotifications.tsx:86-90 | after a poll every id of the content is known |
| Notifications.RepollIsQuiet | src/hooks/useNotifications.tsx:86-153 | when every id is known, a poll announces at most one trending item and nothing else |
| Notifications.PersonalRule | src/hooks/useNotifications.tsx:93-113 | no interests, no matches; at most three personal announcements, each of a new item that matches |
| Notifications.BulkRule | src/hooks/useNotifications.tsx:116-136 | five or more other new items give one summary pointing at the first; one to four give up to two single announcements only when nothing matched |
| Notifications.TrendRule | src/hooks/useNotifications.tsx:140-145 | a poll announces at most one trending item, of engagement at least 90, not yet announced, and remembers it |
| Notifications.TrendsOnce | src/hooks/useNotifications.tsx:140-145 | once an item's trending key is known, no later poll announces that id as trending |
| Notifications.NotificationStore.constructor | src/hooks/useNotifications.tsx:25-28 | no notifications, count 0, nothing known, first load pending |
| Notifications.NotificationStore.AddNotification | src/hooks/useNotifications.tsx:30-51 | the new unread notification goes in front, the 50 newest are kept, the count rises by one |
| Notifications.NotificationStore.MarkAsRead | src/hooks/useNotifications.tsx:53-58 | the entries with the id become read; the count drops by one but not below 0, whether or not the entry was unread |
| Notifications.NotificationStore.MarkAllAsRead | src/hooks/useNotifications.tsx:60-63 | every entry read, count 0 |
| Notifications.NotificationStore.ClearAll | src/hooks/useNotifications.tsx:65-68 | no entries, count 0 |
| Notifications.NotificationStore.NotifyAll | src/hooks/useNotifications.tsx:105-135 | adding a batch one by one adds them as one batch, and the count rises by its length |
| Notifications.NotificationStore.RecordIds | src/hooks/useNotifications.tsx:90 | the new ids join the known ones |
| Notifications.NotificationStore.AnnounceNew | src/hooks/useNotifications.tsx:92-136 | the personal announcements, then the summary or the single ones, are added |
| Notifications.NotificationStore.RecordTrendKeys | src/hooks/useNotifications.tsx:144-145 | each trending key joins the known ones |
| Notifications.NotificationStore.AnnounceTrending | src/hooks/useNotifications.tsx:144-153 | every trending item is remembered under its key and announced |
| Notifications.NotificationStore.AnnounceUnseen | src/hooks/useNotifications.tsx:85-137 | the unseen ids are recorded and their announcements added |
| Notifications.NotificationStore.CheckForNewContent | src/hooks/useNotifications.tsx:74-157 | the first poll only records the ids; every later one adds the poll's announcements and records new ids and trending keys |
| Notifications.PollComposes | src/hooks/useNotifications.tsx:85-153 | the new-item and trending halves of a poll make up the whole poll |
| Notifications.AddedInTurn | src/hooks/useNotifications.tsx:105-153 | adding two batches in turn, ids running on, is adding them joined |
| Notifications.CountOutlivesList | src/hooks/useNotifications.tsx:38-39 | the unread count is not tied to the list: after 51 additions the count is 51 while the list holds 50; marking an absent id lowers it to 50 and leaves every entry unread |
| FetchVideos.DigitEnd | supabase/functions/fetch-videos/index.ts:140 | the run of digits starting at a position ends within the text |
| FetchVideos.ValueOfIs | supabase/functions/fetch-videos/index.ts:143-145 | digits read in place have the value they have on their own |
| FetchVideos.Component | supabase/functions/fetch-videos/index.ts:140 | an optional `(\d+)<unit>` group ends within the text, after the position tried |
| FetchVideos.DurationOfParts | supabase/functions/fetch-videos/index.ts:136-149 | `PT<h>H<m>M<s>S` reads back as h·60 + m minutes plus the seconds rounded up to a minute |
| FetchVideos.DurationAt | supabase/functions/fetch-videos/index.ts:140-148 | the same for any text laid out that way |
| FetchVideos.ComponentsAt | supabase/functions/fetch-videos/index.ts:140-144 | in any text laid out that way `PT` is found at 0 and each of the three groups reads its own digits and ends after its unit letter |
| FetchVideos.PTAtStart | supabase/functions/fetch-videos/index.ts:140 | a duration starting with `PT` is matched at its start |
| FetchVideos.ParsedFrom | supabase/functions/fetch-videos/index.ts:140-148 | once `PT` is found, the three components decide the minutes |
| FetchVideos.ComponentAt | supabase/functions/fetch-videos/index.ts:140-145 | digits followed by their unit are read as their value, and the match moves past the unit |
| FetchVideos.DigitEndIs | supabase/functions/fetch-videos/index.ts:140 | the run of digits ends at the first non-digit |
| FetchVideos.NoTimePartIsDefault | supabase/functions/fetch-videos/index.ts:137-141 | a duration without `PT`, such as one counted in days only, gives `10 min` |
| FetchVideos.MinutesOnly | supabase/functions/fetch-videos/index.ts:140-148 | a missing component counts 0: `PT<m>M` is m minutes |
| FetchVideos.ExtractTags | supabase/functions/fetch-videos/index.ts:151-156 | at most five tags |
| FetchVideos.TagsFrom | supabase/functions/fetch-videos/index.ts:155 | at most five of the words |
| FetchVideos.TagsMeaning | supabase/functions/fetch-videos/index.ts:151-156 | the tags are keywords in list order, each found (lowercased) in title and description; with fewer than five every keyword found is a tag |
| FetchVideos.TagsFromMeaning | supabase/functions/fetch-videos/index.ts:155 | the same for any word list |
| FetchVideos.DifficultyMeaning | supabase/functions/fetch-videos/index.ts:158-168 | beginner exactly when a beginner word occurs; advanced exactly when an advanced word occurs and no beginner word |
| FetchVideos.StatsMapHas | supabase/functions/fetch-videos/index.ts:78-85 | an id has statistics exactly when some statistics item carries it |
| FetchVideos.StatsMapLast | supabase/functions/fetch-videos/index.ts:78-85 | a later item overwrites an earlier one: the entry is the last item's |
| FetchVideos.CollectStats | supabase/functions/fetch-videos/index.ts:78-85 | the `reduce` builds exactly the statistics map |
| FetchVideos.Thumbnail | supabase/functions/fetch-videos/index.ts:112 | the high thumbnail, else the medium one, else the default one |
| FetchVideos.Summary | supabase/functions/fetch-videos/index.ts:98 | the first 300 characters of a description, else `No description available` |
| FetchVideos.VideoOfShape | supabase/functions/fetch-videos/index.ts:89-114 | every video is a YouTube video whose id is `yt-` and its video id, with three insights, at most five tags and a summary of at most 300 characters or the placeholder, and keeps its result's id |
| FetchVideos.VideoOfIdentity | supabase/functions/fetch-videos/index.ts:95-113 | type, source, id prefix and video id |
| FetchVideos.VideoOfText | supabase/functions/fetch-videos/index.ts:98-107 | summary, insights and tags |
| FetchVideos.VideoStats | supabase/functions/fetch-videos/index.ts:91-107 | a video's length and engagement come from the last statistics item with its id |
| FetchVideos.SearchQuery | supabase/functions/fetch-videos/index.ts:41 | a non-empty query as given; a missing or empty one becomes `artificial intelligence tutorial` |
| FetchVideos.VideosShape | supabase/functions/fetch-videos/index.ts:89-115 | one video of the shape per search result, from the result at its position |
| FetchVideos.FoundMeaning | supabase/functions/fetch-videos/index.ts:67-120 | a search that went through gives one video of the shape per result, in order, or 500 when the statistics request throws or its reply has no `items` |
| FetchVideos.HandleFailures | supabase/functions/fetch-videos/index.ts:29-65 | no key: 500; the curated list with the quota flag exactly for a 403 mentioning `quotaExceeded`; other failures keep their status; an exception gives 500 |
| FetchVideos.HandleVideos | supabase/functions/fetch-videos/index.ts:67-120 | an answer without the quota flag holds one video per search result, in order |
| FetchPapers.NextEntry | supabase/functions/fetch-papers/index.ts:65-69 | a match lies after the regular expression's last index, between an `<entry>` and an `</entry>` inside the feed |
| FetchPapers.NextEntrySpec | supabase/functions/fetch-papers/index.ts:65-69 | the match is the first `<entry>` from the last index on and its content up to the first `</entry>`, which therefore holds none |
| FetchPapers.EntriesNoEndTag | supabase/functions/fetch-papers/index.ts:65-69 | no entry content holds `</entry>` |
| FetchPapers.FeedEntries | supabase/functions/fetch-papers/index.ts:65-69 | a feed of entries behind a header without `<entry>` parses back to exactly its contents |
| FetchPapers.FeedEntriesFrom | supabase/functions/fetch-papers/index.ts:65-69 | the same from any last index before the feed |
| FetchPapers.EntriesCons | supabase/functions/fetch-papers/index.ts:68-69 | one turn of the `exec` loop: the entry found, then the entries after its end tag |
| FetchPapers.ExtractTag | supabase/functions/fetch-papers/index.ts:103-107 | a match comes back trimmed |
| FetchPapers.OpenTagEnd | supabase/functions/fetch-papers/index.ts:104 | the opening tag ends at a `>` |
| FetchPapers.ExtractTagElement | supabase/functions/fetch-papers/index.ts:103-107 | the first element named `tag` gives its trimmed content |
| FetchPapers.ExtractTagFrom | supabase/functions/fetch-papers/index.ts:103-107 | the same for an element whose pieces are known by position, attributes included |
| FetchPapers.NextAuthor | supabase/functions/fetch-papers/index.ts:111-114 | a match lies after the last index: name bounds, then the end of the match |
| FetchPapers.AuthorsCons | supabase/functions/fetch-papers/index.ts:114-116 | one turn of the loop pushes the trimmed name, then reading goes on after the match |
| FetchPapers.AuthorsAt | supabase/functions/fetch-papers/index.ts:111-116 | an `<author>` element with a `<name>` is read as its trimmed name, then what follows |
| FetchPapers.ExtractAuthors | supabase/functions/fetch-papers/index.ts:109-119 | the `exec` loop collects exactly the names the pattern matches, in order |
| FetchPapers.CategoryFrom | supabase/functions/fetch-papers/index.ts:123 | a match lies after the last index and ends at a closing quote |
| FetchPapers.CategoriesCons | supabase/functions/fetch-papers/index.ts:126-128 | one turn of the loop pushes the term, then reading goes on after its closing quote |
| FetchPapers.CategoryAt | supabase/functions/fetch-papers/index.ts:123 | a `<category … term="v" …>` tag gives v; the greedy gap takes the last `term="` in the tag |
| FetchPapers.ExtractCategories | supabase/functions/fetch-papers/index.ts:121-131 | the `exec` loop collects exactly the terms the pattern matches, in order |
| FetchPapers.SplitSentences | supabase/functions/fetch-papers/index.ts:135 | at least one piece, none holding a sentence mark |
| FetchPapers.SplitSentencesCover | supabase/functions/fetch-papers/index.ts:135 | the pieces put together are the text without its sentence marks: nothing else is lost |
| FetchPapers.KeyInsightsMeaning | supabase/functions/fetch-papers/index.ts:133-137 | at most three insights, each a trimmed piece of the summary over 20 characters; as many as there are long pieces up to three |
| FetchPapers.OneSentenceInsight | supabase/functions/fetch-papers/index.ts:133-137 | a summary without sentence marks and over 20 characters is its own single insight |
| FetchPapers.ArxivIdOf | supabase/functions/fetch-papers/index.ts:79 | the arXiv id never contains `/abs/` |
| FetchPapers.ArxivIdAfterAbs | supabase/functions/fetch-papers/index.ts:79 | the usual id: everything after the first `/abs/` |
| FetchPapers.ArxivIdPlain | supabase/functions/fetch-papers/index.ts:79 | an id without `/` is its own arXiv id |
| FetchPapers.PapersOf | supabase/functions/fetch-papers/index.ts:68-98 | never more papers than entries |
| FetchPapers.PaperOfSome | supabase/functions/fetch-papers/index.ts:78 | an entry gives a paper exactly when its id and title are non-empty |
| FetchPapers.PaperOfShape | supabase/functions/fetch-papers/index.ts:79-96 | every paper is an advanced paper from arXiv with a title and a link, an id `arxiv-` followed by its arXiv id, at most 5 tags and 3 insights, a summary of at most 500 characters or the placeholder, and engagement in 70..99 |
| FetchPapers.ReaderMeaning | supabase/functions/fetch-papers/index.ts:71-97 | whatever the draw, exactly the qualifying entries become papers, all of the shape |
| FetchPapers.PapersOfShape | supabase/functions/fetch-papers/index.ts:68-98 | every paper of a list has the shape when each one read has it |
| FetchPapers.PapersOfCount | supabase/functions/fetch-papers/index.ts:68-98 | one paper per entry the reader accepts |
| FetchPapers.ParsedPapersShape | supabase/functions/fetch-papers/index.ts:61-101 | every paper returned has the shape |
| FetchPapers.ParsedPapersCount | supabase/functions/fetch-papers/index.ts:61-101 | one paper per entry with an id and a title, and no other |
| FetchPapers.ParseEntries | supabase/functions/fetch-papers/index.ts:62-100 | the entry loop pushes each entry's paper in order, the draw counting the papers pushed so far |
| FetchPapers.ParseArxivXml | supabase/functions/fetch-papers/index.ts:61-101 | the loop returns exactly the parsed papers |
| FetchPapers.ReadPaper | supabase/functions/fetch-papers/index.ts:69-97 | one entry read by the `exec` loops gives the paper `PaperOf` specifies |
| FetchPapers.PapersStep | supabase/functions/fetch-papers/index.ts:68-97 | one turn of the loop: the entry's paper, if any, joins those pushed so far |
| FetchPapers.Handle | supabase/functions/fetch-papers/index.ts:23-59 | a non-ok fetch answers its status, an exception 500, both with `Failed to fetch papers`; otherwise the parsed papers |
| FetchPapers.HandleShape | supabase/functions/fetch-papers/index.ts:46-50 | every paper answered has the paper shape |
| FetchTools.DifficultyMeaning | supabase/functions/fetch-tools/index.ts:28-35 | advanced exactly when an advanced word occurs in the lowercased description; beginner exactly when a beginner word occurs and no advanced one |
| FetchTools.OccurrenceMatches | supabase/functions/fetch-tools/index.ts:39-48 | a pattern matches wherever it occurs literally |
| FetchTools.PlainMatches | supabase/functions/fetch-tools/index.ts:39-48 | a pattern without `.` matches exactly where it occurs literally |
| FetchTools.FirstCategory | supabase/functions/fetch-tools/index.ts:39-49 | the category is the fallback or some rule's category |
| FetchTools.FirstCategoryIs | supabase/functions/fetch-tools/index.ts:39-48 | the first rule that matches decides the category |
| FetchTools.FirstCategoryNone | supabase/functions/fetch-tools/index.ts:49 | when no rule matches, the fallback |
| FetchTools.CategorizeRepo | supabase/functions/fetch-tools/index.ts:37-50 | a category is never empty |
| FetchTools.FirstCategoryMeaning | supabase/functions/fetch-tools/index.ts:39-49 | for rules whose categories differ from the fallback: the first matching rule's category, and the fallback exactly when none matches |
| FetchTools.CategorizeMeaning | supabase/functions/fetch-tools/index.ts:37-50 | the ten rules in order over the lowercased joined topics and description: the first match decides, `AI Tool` exactly when none matches |
| FetchTools.FirstMatchExists | supabase/functions/fetch-tools/index.ts:39-48 | when some rule matches there is a first one |
| FetchTools.CategoriesDiffer | supabase/functions/fetch-tools/index.ts:39-49 | no rule's category is `AI Tool` |
| FetchTools.ChatIsLlmFramework | supabase/functions/fetch-tools/index.ts:39 | a text that mentions `chat` is an `LLM Framework`, whatever else it mentions |
| FetchTools.ToolTags | supabase/functions/fetch-tools/index.ts:81 | at most five tags: the non-empty ones of the first four topics, then the category |
| FetchTools.ToolEngagement | supabase/functions/fetch-tools/index.ts:84 | at most 100, and at least 30 whenever the logarithm term is not negative |
| FetchTools.ToolOfShape | supabase/functions/fetch-tools/index.ts:68-95 | every GitHub tool is an open-source tool from GitHub with a `tool-` id, its category as last tag and as tool category, at most five tags, three insights, a summary and engagement at most 100 |
| FetchTools.ToolIdClassifies | supabase/functions/fetch-tools/index.ts:72 | a minted `tool-gh-` id classifies as a tool |
| FetchTools.GitHubTools | supabase/functions/fetch-tools/index.ts:52-100 | no tools when the search fails or throws, else one per result, in order |
| FetchTools.Dedupe | supabase/functions/fetch-tools/index.ts:205-213 | the loop with the `seen` set keeps exactly the first item of each id |
| FetchTools.FirstByIdUnique | supabase/functions/fetch-tools/index.ts:205-213 | the kept items have distinct ids, none already seen |
| FetchTools.FirstByIdIds | supabase/functions/fetch-tools/index.ts:205-213 | an id is kept exactly when some item carries it and it was not seen |
| FetchTools.FirstByIdSubsequence | supabase/functions/fetch-tools/index.ts:205-213 | the kept items keep their order, some left out |
| FetchTools.FirstByIdKeepsFirst | supabase/functions/fetch-tools/index.ts:209-211 | the first item with an unseen id is kept |
| FetchTools.CuratedFirst | supabase/functions/fetch-tools/index.ts:208-212 | with curated tools of distinct ids in front, every curated tool is kept in order and a GitHub tool only when no curated tool has its id |
| FetchTools.MergeTools | supabase/functions/fetch-tools/index.ts:205-215 | the dedupe loop, then the in-place sort, give the merged list |
| FetchTools.CountTwo | supabase/functions/fetch-tools/index.ts:205-213 | an item at two positions is counted twice |
| FetchTools.UniqueIdsToBag | supabase/functions/fetch-tools/index.ts:215 | distinct ids survive as a property of the multiset |
| FetchTools.UniqueIdsFromBag | supabase/functions/fetch-tools/index.ts:215 | and come back from it, so reordering keeps ids distinct |
| FetchTools.MergedMeaning | supabase/functions/fetch-tools/index.ts:205-215 | the answer is sorted by engagement, one tool per id, exactly the ids of both lists, each the first entry with its id, ties keeping curated before GitHub |
| FetchTools.MergedKeepsFirst | supabase/functions/fetch-tools/index.ts:205-215 | each tool that is the first with its id is answered |
| FetchTools.Handle | supabase/functions/fetch-tools/index.ts:194-228 | the GitHub tools merged behind the curated ones |
| FetchTools.GitHubFailureCuratedOnly | supabase/functions/fetch-tools/index.ts:65 | when GitHub fails, only the curated tools are answered, one per id |
| FetchRepos.SearchQuery | supabase/functions/fetch-repos/index.ts:32 | a non-empty query as given; a missing or empty one becomes `artificial intelligence machine learning` |
| FetchRepos.DifficultyMeaning | supabase/functions/fetch-repos/index.ts:97-107 | advanced exactly when an advanced word is a topic or occurs in the lowercased description; beginner exactly when that holds for a beginner word and no advanced one |
| FetchRepos.TopicsAreCaseSensitive | supabase/functions/fetch-repos/index.ts:100-103 | topics are compared as written: `LLM` is not the keyword `llm` |
| FetchRepos.ReadMinutes | supabase/functions/fetch-repos/index.ts:67 | the size in hundreds, rounded up |
| FetchRepos.RepoTags | supabase/functions/fetch-repos/index.ts:65 | the first five topics when there is a topic list, even an empty one; else the language when it is non-empty |
| FetchRepos.RepoEngagement | supabase/functions/fetch-repos/index.ts:68 | at most 100, and not negative whenever the logarithm term is not negative |
| FetchRepos.InsightsKept | supabase/functions/fetch-repos/index.ts:60-64 | no insight is empty, so all three are kept |
| FetchRepos.RepoOfShape | supabase/functions/fetch-repos/index.ts:55-76 | every item is a `gh-` repository from GitHub with a summary, author and language, at most five tags, three insights, engagement at most 100 and the stars and forks of its repository |
| FetchRepos.RepoOfIdentity | supabase/functions/fetch-repos/index.ts:56-69 | type, source and an id that classifies as a repository |
| FetchRepos.RepoOfText | supabase/functions/fetch-repos/index.ts:59-75 | the defaults and the bounds on tags and insights |
| FetchRepos.HandleMeaning | supabase/functions/fetch-repos/index.ts:34-89 | a non-ok search answers its own status, an exception 500; a search that went through answers one item of the shape per result, in order |
| FetchArticles.DifficultyMeaning | supabase/functions/fetch-articles/index.ts:91-100 | advanced exactly when some lowercased tag is an advanced word; beginner exactly when some is a beginner word and none an advanced word |
| FetchArticles.DifficultyIgnoresCase | supabase/functions/fetch-articles/index.ts:95-99 | lowercasing the tags first gives the same difficulty |
| FetchArticles.DevToEngagement | supabase/functions/fetch-articles/index.ts:38 | 50 plus a tenth of the reactions rounded down, capped at 100, which is reached exactly from 500 reactions |
| FetchArticles.DevToEngagementMonotone | supabase/functions/fetch-articles/index.ts:38 | more reactions never lower the score |
| FetchArticles.ReadMinutes | supabase/functions/fetch-articles/index.ts:37 | the article's positive reading time, else 5 |
| FetchArticles.DevToInsights | supabase/functions/fetch-articles/index.ts:34 | `Tagged with` each of the first three tags; none without a tag list |
| FetchArticles.Image | supabase/functions/fetch-articles/index.ts:43 | the cover image, else the social image |
| FetchArticles.DevToOfShape | supabase/functions/fetch-articles/index.ts:29-44 | a Dev.to item is a `devto-` article from Dev.to with the article's tags, at most three insights, a summary and an author, engagement in 50..100 |
| FetchArticles.DevTo | supabase/functions/fetch-articles/index.ts:23-49 | none when the request fails or throws, else one item per article, in order |
| FetchArticles.StoryEngagement | supabase/functions/fetch-articles/index.ts:79 | 50 plus a fifth of the score rounded down, capped at 100, which is reached exactly from 250 points |
| FetchArticles.StorySummary | supabase/functions/fetch-articles/index.ts:70 | the first 200 characters of the text, else the comment-count line |
| FetchArticles.StoryUrl | supabase/functions/fetch-articles/index.ts:83 | the story's link, else its discussion page |
| FetchArticles.StoryOfShape | supabase/functions/fetch-articles/index.ts:66-84 | a story item is an intermediate `hn-` article from Hacker News with the story's title and a link |
| FetchArticles.Replies | supabase/functions/fetch-articles/index.ts:57-60 | at most the first ten top ids are asked for |
| FetchArticles.Stories | supabase/functions/fetch-articles/index.ts:64-84 | never more items than stories |
| FetchArticles.HackerNews | supabase/functions/fetch-articles/index.ts:51-89 | at most ten items |
| FetchArticles.Bodies | supabase/functions/fetch-articles/index.ts:62 | the JSON of every item request, in order, when none threw |
| FetchArticles.StoriesShape | supabase/functions/fetch-articles/index.ts:64-84 | every kept story gives an item of the shape with a title and a link |
| FetchArticles.HackerNewsShape | supabase/functions/fetch-articles/index.ts:51-89 | every Hacker News item has the shape, a title and a link |
| FetchArticles.StoriesMeaning | supabase/functions/fetch-articles/index.ts:65-66 | the items are exactly those of the stories with a title and a link or text |
| FetchArticles.MergeArticles | supabase/functions/fetch-articles/index.ts:113-114 | the in-place sort of the joined lists gives the merged list |
| FetchArticles.MergedMeaning | supabase/functions/fetch-articles/index.ts:113-114 | sorted by engagement, exactly the items of both sources, Dev.to ahead of Hacker News on ties |
| FetchArticles.FailingSourceContributesNothing | supabase/functions/fetch-articles/index.ts:26 | a failing source contributes nothing: the answer is the other source, sorted |
| FetchArticles.Handle | supabase/functions/fetch-articles/index.ts:102-127 | both sources fetched, merged and sorted |
| FetchArticles.HandleShape | supabase/functions/fetch-articles/index.ts:107-118 | every article answered has the article shape |
| YouTubeResearch.Thumbnail | supabase/functions/youtube-research/index.ts:55 | the medium thumbnail, else the default one, else `''` |
| YouTubeResearch.VideosMeaning | supabase/functions/youtube-research/index.ts:51-56 | every video has an id and comes from a result; every result with an id gives a video; order is kept |
| YouTubeResearch.First | supabase/functions/youtube-research/index.ts:59 | the first video, and none exactly when there is none |
| YouTubeResearch.HandleMeaning | supabase/functions/youtube-research/index.ts:13-69 | only a readable body without a query is refused (400); without a key, on an upstream error or an exception the answer succeeds with no video and the message `YouTube API not configured`, `YouTube search unavailable` or `YouTube search failed` respectively; otherwise `data` is the first of `all`, the filtered list, with no message |

## Behaviour kept as the code has it

- `close()` in the ResearchMind hook schedules a reset that carries no
  session token. A reset that fires after the panel was reopened clears the
  new analysis while its stage interval keeps running
  (`ResearchHook.CloseThenReanalyze`).
- The hook walks its own stage list (`searching`, `extracting`, `comparing`,
  `reasoning`, `report`), which is the union in ResearchMindPanel.tsx. It is
  not `PIPELINE_STAGES`, so the progress view lights no step for
  `comparing` or `reasoning`.
- `research-mind` backfills only `ranked_papers`, `confidence_breakdown` and
  `confidence_signals`; other members of the analysis are passed on as the
  gateway's reply had them.
- The chat's final flush still applies payload lines that were buffered
  behind a `[DONE]` (`ChatStream.DoneThenFlush`).
- The chat tests its content's truthiness, not its text: a content such as
  `[]` or `[""]` appends nothing yet still writes the assistant message, so
  an empty assistant message can follow the user's (`ChatStream.EmptyArrayContent`).
- The unread counter of the notification store is not tied to the list: it
  exceeds the 50 kept entries, and marking an absent id still lowers it
  (`Notifications.CountOutlivesList`).
- The content feed loads nothing for the `tool` filter, since its effect has
  no branch for it (`ContentFeed.PlanFor`).

## Left out

- Network, `Deno.serve`, CORS headers and the `OPTIONS` preflight: each request's outcome is an input (a reply datatype or an `invoke` function); URLs and request bodies are not modelled.
- `JSON.parse`, `response.json()` and `TextDecoder`: parsing is a parameter `parse` returning `None` where it throws, or an `Option` value that is `None` where it throws (the research-mind function's request and gateway body); the chat reads already decoded text.
- Timers: `setInterval` and `setTimeout` in the ResearchMind hook are events (`Tick`, `FireReset`); the notification poll interval is not modelled, each poll being one call.
- Floating point: `Math.log10`-based engagement is the parameter `log20` (fetch-tools, fetch-repos) or `engagement` (fetch-videos); `toFixed(1)` is `fixed1`; `toLocaleString()` is `grouped`.
- FetchTools.ToolEngagement: at least 30 only when `log20` is not negative, because the logarithm is a parameter.
- FetchRepos.RepoEngagement: not negative only when `log20` is not negative, for the same reason.
- Semantic-search scores are ten times the source's, so that `engagement_score * 0.1` stays an integer; this keeps every sign and every comparison between scores.
- Randomness: the fetch-tools choice of one of three GitHub queries is left out; the arXiv engagement draw is the parameter `rolls`; notification ids are `idFor`.
- Clocks: today's date, `new Date().toISOString()` and the Hacker News `new Date(time * 1000)` date are the parameters `today`, `now` and `dateOf`; notification timestamps are left out.
- The curated tool list and the curated fallback videos are static data; they are parameters (`curated`).
- The search text sent to the GitHub, YouTube and arXiv APIs, `encodeURIComponent`, and the prompts sent to the AI gateway are left out except for the related-paper context of research-mind.
- `parseInt` is modelled on non-negative decimal digit strings; signs and precision limits are not.
- Lowercasing is ASCII only; JavaScript's `toLowerCase` also maps other letters.
- String lengths and slices count characters (code points), where JavaScript's `length` and `slice` count UTF-16 code units; the two agree on text without characters outside the Basic Multilingual Plane, and differ (a shorter cut, a split surrogate pair) on text with them. The cuts this affects are listed below.
- Strings.Prefix: cuts after `n` code points, not `n` UTF-16 code units.
- Notifications.ShortTitle: the 60-character cut and the `length > 60` test count code points.
- FetchVideos.Summary: the 300-character cut counts code points.
- FetchArticles.StorySummary: the 200-character cut counts code points.
- FetchPapers.MakePaper: the 500-character summary cut and the `ReadTime` length count code points.
- The chat's line splitting cuts at the index `indexOf` found, so the lines are the same under either count.
- The catch blocks of the fetch-tools and fetch-articles handlers are not modelled: both fetchers catch their own errors and the merging code cannot throw.
- A map callback that throws on a malformed upstream item (a Dev.to article or GitHub repository missing a read field) is not modelled; fields the code reads with `?.` or `||` are optional.
- The `supabase/functions/ai-assistant/index.ts` proxy the chat calls is not part of this model; its stream is the chat's input.
- UI rendering (React components, animations, toasts, icons and colours) is left out; the panel and progress view are modelled through what decides their display.
- ResearchMindServer.Respond: the related papers are read as well-formed `PaperInput` records; a truthy `relatedPapers` that is not an array, or a related paper without a `tags` array or with a member that does not convert to text, makes the source throw while building the context (500 from the `catch`), and this is not modelled.
- ChatStream.ChatAssistant.ResponseNotOk: a truthy `error` member that is not a string is toasted by the source as its raw value; the model's toasts are strings.
- ResearchHook.Resolve: a truthy `error` member of the body that is not a string is kept as the empty text, so the panel shows its default message; the source stores the value itself and React renders it (a number as its digits, an array as its elements run together, `true` as nothing, and an object throws while rendering). The hook's error is modelled as a string.
- The `ResearchAnalysis` schema is modelled only as far as the backfilled members go (`BreakdownFields`, `SignalFields`); the panel's result sections are not.
