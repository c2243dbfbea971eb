/**
 * The step list of the pipeline progress view
 * (src/components/research/PipelineProgress.tsx): the index of the current
 * stage in `PIPELINE_STAGES`, and which steps are drawn as done or active.
 */
module PipelineProgress {
  import opened ResearchTypes

  /** `findIndex(s => s.key === stage)` over `steps` from position `from`. */
  function FindStage(steps: seq<StageEntry>, stage: Stage, from: nat): (r: int)
    requires from <= |steps|
    ensures r == -1 || from <= r < |steps|
    ensures r >= 0 ==> steps[r].key == stage && forall j :: from <= j < r ==> steps[j].key != stage
    ensures r == -1 ==> forall j :: from <= j < |steps| ==> steps[j].key != stage
    decreases |steps| - from
  {
    if from == |steps| then -1
    else if steps[from].key == stage then from
    else FindStage(steps, stage, from + 1)
  }

  /** `currentIndex`: the position of `stage` in `PIPELINE_STAGES`, or -1. */
  function CurrentIndex(stage: Stage): int {
    FindStage(PipelineStages, stage, 0)
  }

  /** The first position whose key is `stage`, or -1 when there is none. */
  lemma CurrentIndexMeaning(stage: Stage)
    ensures var r := CurrentIndex(stage);
      -1 <= r < |PipelineStages|
      && (r >= 0 ==> PipelineStages[r].key == stage && forall j :: 0 <= j < r ==> PipelineStages[j].key != stage)
      && (r == -1 <==> forall j :: 0 <= j < |PipelineStages| ==> PipelineStages[j].key != stage)
  {
  }

  /** A listed stage is found at its own place. */
  lemma CurrentIndexOfListed(i: nat)
    requires i < |PipelineStages|
    ensures CurrentIndex(PipelineStages[i].key) == i
  {
    PipelineStagesShape();
  }

  /** Step `i` is drawn with a check mark. */
  predicate StepDone(i: nat, stage: Stage) {
    i < CurrentIndex(stage)
  }

  /** Step `i` is drawn as the one in progress. */
  predicate StepActive(i: nat, stage: Stage) {
    i == CurrentIndex(stage)
  }

  /** At most one step is active, and the steps done form a prefix ending right before it. */
  lemma StepsShape(stage: Stage, i: nat, j: nat)
    ensures StepActive(i, stage) && StepActive(j, stage) ==> i == j
    ensures StepDone(j, stage) && i <= j ==> StepDone(i, stage)
    ensures StepActive(i, stage) ==> !StepDone(i, stage) && forall k: nat :: k < i ==> StepDone(k, stage)
  {
  }

  /** A stage that is not listed (`comparing`, `done`, …) marks no step done or active. */
  lemma UnlistedStageLightsNothing(stage: Stage, i: nat)
    requires forall j :: 0 <= j < |PipelineStages| ==> PipelineStages[j].key != stage
    ensures !StepDone(i, stage) && !StepActive(i, stage)
  {
  }

  /** `PIPELINE_STAGES[currentIndex]?.label || 'Processing…'`. */
  function HeaderLabel(stage: Stage): (r: string)
  {
    var i := CurrentIndex(stage);
    if 0 <= i && PipelineStages[i].caption != "" then PipelineStages[i].caption else "Processing…"
  }

  /** The header shows the current stage's label, or `Processing…` when the stage is not listed. */
  lemma HeaderLabelMeaning(stage: Stage)
    ensures CurrentIndex(stage) >= 0 ==> HeaderLabel(stage) == PipelineStages[CurrentIndex(stage)].caption
    ensures CurrentIndex(stage) == -1 ==> HeaderLabel(stage) == "Processing…"
  {
    PipelineStagesShape();
  }

  /** Concretely: `report` shows its label and lights every earlier step; `comparing` and `done` light none. */
  lemma ProgressExamples()
    ensures HeaderLabel(Report) == "Creating Report"
    ensures forall i: nat :: i < 6 ==> StepDone(i, Report)
    ensures CurrentIndex(Comparing) == -1 && CurrentIndex(Done) == -1
  {
    CurrentIndexOfListed(6);
  }
}
