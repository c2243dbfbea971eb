/**
 * The ResearchMind stage names and the shared analysis schema
 * (src/components/research/types.ts).
 *
 * Stages are strings at run time, and two declarations of the union exist:
 * the one in types.ts, used by the pipeline progress view, and the one in
 * ResearchMindPanel.tsx, used by the hook and the panel. `Stage` holds every
 * name of either; `IsPipelineStage` and `IsPanelStage` tell the two unions
 * apart.
 */
module ResearchTypes {

  datatype Stage =
    | Idle | Searching | Ranking | Extracting | Contradictions | DevilsAdvocate
    | Confidence | Report | Comparing | Reasoning | Done | Error

  /** The string value of each stage. */
  function StageKey(s: Stage): string {
    match s
    case Idle => "idle"
    case Searching => "searching"
    case Ranking => "ranking"
    case Extracting => "extracting"
    case Contradictions => "contradictions"
    case DevilsAdvocate => "devils_advocate"
    case Confidence => "confidence"
    case Report => "report"
    case Comparing => "comparing"
    case Reasoning => "reasoning"
    case Done => "done"
    case Error => "error"
  }

  /** Distinct stages have distinct strings, so comparing strings compares stages. */
  lemma StageKeyInjective(a: Stage, b: Stage)
    ensures StageKey(a) == StageKey(b) ==> a == b
  {
  }

  /** The `PipelineStage` union of types.ts. */
  predicate IsPipelineStage(s: Stage) {
    s != Comparing && s != Reasoning
  }

  /** The `PipelineStage` union of ResearchMindPanel.tsx. */
  predicate IsPanelStage(s: Stage) {
    s in {Idle, Searching, Extracting, Comparing, Reasoning, Report, Done, Error}
  }

  /** One step of the progress view. */
  datatype StageEntry = StageEntry(key: Stage, caption: string)

  /** `PIPELINE_STAGES`, in order. */
  const PipelineStages: seq<StageEntry> := [
    StageEntry(Searching, "Searching Papers"),
    StageEntry(Ranking, "Ranking Top 5"),
    StageEntry(Extracting, "Extracting Claims"),
    StageEntry(Contradictions, "Detecting Contradictions"),
    StageEntry(DevilsAdvocate, "Devil Advocate Review"),
    StageEntry(Confidence, "Generating Confidence Score"),
    StageEntry(Report, "Creating Report")
  ]

  /** The keys of `PIPELINE_STAGES`, in order. */
  function PipelineKeys(): (r: seq<Stage>)
    ensures |r| == |PipelineStages| && forall i :: 0 <= i < |r| ==> r[i] == PipelineStages[i].key
  {
    seq(|PipelineStages|, i requires 0 <= i < |PipelineStages| => PipelineStages[i].key)
  }

  /**
   * Seven stages in this order; their keys are pairwise distinct, all belong
   * to the union of types.ts, and none is `idle`, `done` or `error`.
   */
  lemma PipelineStagesShape()
    ensures PipelineKeys() == [Searching, Ranking, Extracting, Contradictions, DevilsAdvocate, Confidence, Report]
    ensures forall i, j :: 0 <= i < j < |PipelineStages| ==> PipelineStages[i].key != PipelineStages[j].key
    ensures forall i :: 0 <= i < |PipelineStages| ==>
      IsPipelineStage(PipelineStages[i].key) && PipelineStages[i].key !in {Idle, Done, Error}
    ensures forall i :: 0 <= i < |PipelineStages| ==> PipelineStages[i].caption != ""
  {
  }

  /** The member names of `confidence_breakdown` in `ResearchAnalysis`. */
  const BreakdownFields: set<string> := {"recency", "relevance", "agreement"}

  /** The member names of `confidence_signals` in `ResearchAnalysis`. */
  const SignalFields: set<string> := {"positive", "negative", "neutral"}
}
