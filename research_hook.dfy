/**
 * The ResearchMind hook (src/hooks/useResearchMind.ts): `analyze` opens the
 * panel, selects the related papers, starts a stage timer and waits for the
 * analysis; `close` hides the panel and schedules a reset.
 *
 * Timers are events. Every call to `analyze` starts its own interval, which
 * keeps its own stage counter; `Tick(run)` is one firing of run `run`'s
 * interval, `Resolve(run, …)` the settling of its request, and `FireReset`
 * one expiry of a timer scheduled by `close`.
 */
module ResearchHook {
  import opened Wrappers
  import opened Strings
  import opened Seqs
  import opened Json
  import opened ContentModel
  import opened ResearchTypes
  import opened ResearchPanel

  /** The stages the timer walks through (the hook's own list, not `PIPELINE_STAGES`). */
  const HookStages: seq<Stage> := [Searching, Extracting, Comparing, Reasoning, Report]

  /** `item.tags.some(t => paper.tags.includes(t))`. */
  predicate SharesTag(item: ContentItem, paper: ContentItem) {
    exists k :: 0 <= k < |item.tags| && item.tags[k] in paper.tags
  }

  /** The filter that picks the related papers. */
  predicate IsRelated(item: ContentItem, paper: ContentItem) {
    item.id != paper.id && (item.contentType == Paper || SharesTag(item, paper))
  }

  /** `relatedPapers`: the first 8 qualifying items of `allContent`. */
  function RelatedPapers(paper: ContentItem, allContent: seq<ContentItem>): (r: seq<ContentItem>)
    ensures |r| <= 8
    ensures forall k :: 0 <= k < |r| ==> IsRelated(r[k], paper) && r[k] in allContent
    ensures var n := |Filter(allContent, item => IsRelated(item, paper))|;
      |r| == if n < 8 then n else 8
  {
    Take(Filter(allContent, item => IsRelated(item, paper)), 8)
  }

  /**
   * The related papers keep their order in `allContent` (a subsequence of it),
   * never include the target, and are exactly the first 8 qualifying items,
   * or all of them when there are at most 8.
   */
  lemma RelatedPapersMeaning(paper: ContentItem, allContent: seq<ContentItem>)
    ensures IsSubsequence(RelatedPapers(paper, allContent), allContent)
    ensures forall k :: 0 <= k < |RelatedPapers(paper, allContent)| ==> RelatedPapers(paper, allContent)[k].id != paper.id
    ensures var all := Filter(allContent, item => IsRelated(item, paper));
      RelatedPapers(paper, allContent) == all[..|RelatedPapers(paper, allContent)|]
      && (|all| <= 8 ==> RelatedPapers(paper, allContent) == all)
      && (|all| > 8 ==> RelatedPapers(paper, allContent) == all[..8])
  {
    var f := item => IsRelated(item, paper);
    var all := Filter(allContent, f);
    FilterIsSubsequence(allContent, f);
    PrefixIsSubsequence(all, |RelatedPapers(paper, allContent)|);
    SubsequenceTrans(RelatedPapers(paper, allContent), all, allContent);
  }

  /** How the request of a run settled. */
  datatype Outcome =
    | Settled(fnError: Option<string>, data: Option<Json>)  // `invoke` returned `{ data, error }`; `fnError` is the error's message
    | Threw(message: Option<string>)                        // an exception; `None` when it is not an `Error`

  /** The stage and error text a settled request leads to, or the analysis. */
  datatype Resolution = Failed(message: string) | Analysed(analysis: Option<Json>)

  /**
   * The resolution order: a transport error first, then an `error` member of
   * the body, then the analysis in `data.data`. Reading `data.data` when
   * `data` is `null` throws, which `typeError` stands for.
   */
  function Resolve(o: Outcome, typeError: string): (r: Resolution)
    ensures o.Settled? && o.fnError.Some? ==>
      r == Failed(if o.fnError.value != "" then o.fnError.value else "Analysis failed")
    ensures o.Settled? && o.fnError.None? && TruthyOpt(Field(o.data, "error")) ==>
      r == Failed(AsString(Field(o.data, "error")).GetOr(""))
    ensures o.Settled? && o.fnError.None? && !TruthyOpt(Field(o.data, "error")) ==>
      if o.data.Some? && o.data.value != JNull then r == Analysed(Field(o.data, "data")) else r == Failed(typeError)
    ensures o.Threw? ==> r == Failed(o.message.GetOr("Unexpected error"))
  {
    match o
    case Settled(fnError, data) =>
      if fnError.Some? then Failed(if fnError.value != "" then fnError.value else "Analysis failed")
      else if TruthyOpt(Field(data, "error")) then Failed(AsString(Field(data, "error")).GetOr(""))
      else if data.None? || data.value == JNull then Failed(typeError)
      else Analysed(Field(data, "data"))
    case Threw(message) => Failed(message.GetOr("Unexpected error"))
  }

  /** A transport error always wins, and the analysis is reached only when no error is present. */
  lemma ResolvePrecedence(o: Outcome, typeError: string)
    ensures Resolve(o, typeError).Analysed? ==> o.Settled? && o.fnError.None? && !TruthyOpt(Field(o.data, "error"))
    ensures o.Settled? && o.fnError.Some? ==> Resolve(o, typeError).Failed? && Resolve(o, typeError).message != ""
  {
  }

  /** The hook's state, together with its timers. */
  class ResearchMind {
    var isOpen: bool
    var stage: Stage
    var analysis: Option<Json>
    var error: Option<string>
    var activePaper: Option<ContentItem>
    /** The live intervals: run number to the index of the next stage it sets. */
    var intervals: map<nat, nat>
    /** The number of runs started so far. */
    var runs: nat
    /** The reset timers scheduled by `close` that have not fired yet. */
    var pendingResets: nat

    ghost predicate Valid()
      reads this
    {
      IsPanelStage(stage)
      && (forall r :: r in intervals ==> r < runs && 1 <= intervals[r] <= |HookStages|)
    }

    constructor ()
      ensures Valid() && !isOpen && stage == Idle && analysis == None && error == None && activePaper == None
      ensures intervals == map[] && runs == 0 && pendingResets == 0
    {
      isOpen, stage, analysis, error, activePaper := false, Idle, None, None, None;
      intervals, runs, pendingResets := map[], 0, 0;
    }

    /**
     * `analyze(paper, allContent)`: opens the panel on `paper`, clears the
     * previous result, sets the first stage and starts interval `run`.
     * Returns the related papers that are sent with the request.
     */
    method Analyze(paper: ContentItem, allContent: seq<ContentItem>) returns (run: nat, related: seq<ContentItem>)
      requires Valid()
      modifies this
      ensures Valid()
      ensures isOpen && activePaper == Some(paper) && analysis == None && error == None
      ensures stage == HookStages[0] && stage == Searching
      ensures run == old(runs) && runs == old(runs) + 1 && intervals == old(intervals)[run := 1]
      ensures pendingResets == old(pendingResets)
      ensures related == RelatedPapers(paper, allContent)
    {
      activePaper := Some(paper);
      isOpen := true;
      analysis := None;
      error := None;
      related := RelatedPapers(paper, allContent);
      run := runs;
      runs := runs + 1;
      var index := 0;
      if index < |HookStages| {
        stage := HookStages[index];
        index := index + 1;
      }
      intervals := intervals[run := index];
    }

    /** One firing of run `run`'s interval (`advanceStage`). */
    method Tick(run: nat)
      requires Valid() && run in intervals
      modifies this`stage, this`intervals
      ensures Valid()
      ensures var i := old(intervals[run]);
        if i < |HookStages|
        then stage == HookStages[i] && intervals == old(intervals)[run := i + 1]
        else stage == old(stage) && intervals == old(intervals)
      ensures stage == old(stage) || (stage in HookStages && stage != Done && stage != Error)
    {
      var i := intervals[run];
      if i < |HookStages| {
        stage := HookStages[i];
        intervals := intervals[run := i + 1];
      }
    }

    /**
     * The request of run `run` settled: its interval is cleared, then the
     * stage becomes `error` with a message or `done` with the analysis.
     */
    method Settle(run: nat, o: Outcome, typeError: string)
      requires Valid() && run in intervals
      modifies this`stage, this`error, this`analysis, this`intervals
      ensures Valid()
      ensures run !in intervals && intervals == old(intervals) - {run}
      ensures match Resolve(o, typeError)
        case Failed(m) => stage == Error && error == Some(m) && analysis == old(analysis)
        case Analysed(a) => stage == Done && analysis == a && error == old(error)
    {
      intervals := intervals - {run};
      match Resolve(o, typeError)
      case Failed(m) =>
        stage := Error;
        error := Some(m);
      case Analysed(a) =>
        analysis := a;
        stage := Done;
    }

    /** `close()`: hides the panel at once and schedules a reset. */
    method Close()
      requires Valid()
      modifies this`isOpen, this`pendingResets
      ensures Valid() && !isOpen && pendingResets == old(pendingResets) + 1
    {
      isOpen := false;
      pendingResets := pendingResets + 1;
    }

    /**
     * A reset scheduled by `close` fires: it clears the state whatever has
     * happened since, even a newer analysis; the intervals keep running.
     */
    method FireReset()
      requires Valid() && pendingResets > 0
      modifies this`stage, this`analysis, this`error, this`activePaper, this`pendingResets
      ensures Valid()
      ensures stage == Idle && analysis == None && error == None && activePaper == None
      ensures pendingResets == old(pendingResets) - 1
    {
      stage := Idle;
      analysis := None;
      error := None;
      activePaper := None;
      pendingResets := pendingResets - 1;
    }
  }

  /**
   * A reset scheduled by one `close` fires after the panel was reopened on
   * another paper: the new run's panel is open with no paper and stage
   * `idle`, while its interval goes on.
   */
  method CloseThenReanalyze(paper: ContentItem, other: ContentItem, all: seq<ContentItem>) returns (m: ResearchMind)
    ensures m.isOpen && m.stage == Idle && m.activePaper == None && 1 in m.intervals
  {
    m := new ResearchMind();
    var run, related := m.Analyze(paper, all);
    m.Close();
    run, related := m.Analyze(other, all);
    m.FireReset();
  }
}
