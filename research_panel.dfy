/**
 * The derived state of the ResearchMind side panel
 * (src/components/research/ResearchMindPanel.tsx): whether it is loading,
 * the progress entry of each stage, the lit indicator bars, the section
 * toggle, and which of the error banner, results and placeholder show.
 */
module ResearchPanel {
  import opened Wrappers
  import opened ResearchTypes
  import ContentModel

  /** `isLoading`: any stage but `idle`, `done` and `error`. */
  predicate IsLoading(stage: Stage) {
    stage != Idle && stage != Done && stage != Error
  }

  /** One entry of `stageConfig`. */
  datatype StageInfo = StageInfo(key: Stage, caption: string, progress: int)

  /** `stageConfig`, in declaration order (the order of `Object.keys`). */
  const StageConfig: seq<StageInfo> := [
    StageInfo(Searching, "Searching related papers…", 20),
    StageInfo(Extracting, "Extracting claims…", 40),
    StageInfo(Comparing, "Cross-paper comparison…", 60),
    StageInfo(Reasoning, "Autonomous reasoning…", 80),
    StageInfo(Report, "Generating report…", 95),
    StageInfo(Done, "Analysis complete", 100)
  ]

  /** `Object.keys(stageConfig).indexOf(stage)` from position `from`. */
  function ConfigIndexFrom(stage: Stage, from: nat): (r: int)
    requires from <= |StageConfig|
    ensures r == -1 || from <= r < |StageConfig|
    ensures r >= 0 ==> StageConfig[r].key == stage
    ensures r == -1 ==> forall j :: from <= j < |StageConfig| ==> StageConfig[j].key != stage
    decreases |StageConfig| - from
  {
    if from == |StageConfig| then -1
    else if StageConfig[from].key == stage then from
    else ConfigIndexFrom(stage, from + 1)
  }

  function ConfigIndex(stage: Stage): int {
    ConfigIndexFrom(stage, 0)
  }

  /** The progress percentages rise strictly in declaration order, from 20 to 100. */
  lemma ProgressIncreases()
    ensures forall i, j :: 0 <= i < j < |StageConfig| ==> StageConfig[i].progress < StageConfig[j].progress
    ensures StageConfig[0].progress == 20 && StageConfig[|StageConfig| - 1].progress == 100
    ensures forall i, j :: 0 <= i < j < |StageConfig| ==> StageConfig[i].key != StageConfig[j].key
  {
  }

  /** Each configured stage is found at its own position. */
  lemma ConfigIndexOfListed(i: nat)
    requires i < |StageConfig|
    ensures ConfigIndex(StageConfig[i].key) == i
  {
    ProgressIncreases();
    var r := ConfigIndex(StageConfig[i].key);
    if r != i {
      assert StageConfig[r].key == StageConfig[i].key;
    }
  }

  /** The progress block shows while loading and the stage has an entry (`isLoading && currentStage`). */
  predicate ShowsProgress(stage: Stage) {
    IsLoading(stage) && ConfigIndex(stage) >= 0
  }

  /** The indicator bars: every configured stage but `done`. */
  function IndicatorKeys(): (r: seq<Stage>)
    ensures |r| == |StageConfig| - 1
    ensures forall i :: 0 <= i < |r| ==> r[i] == StageConfig[i].key && r[i] != Done
  {
    [Searching, Extracting, Comparing, Reasoning, Report]
  }

  /** Bar `s` is lit when its index is at most the current stage's index. */
  predicate Lit(s: Stage, stage: Stage) {
    ConfigIndex(s) <= ConfigIndex(stage)
  }

  /**
   * Bar `i` is lit exactly when `i` is at most the current stage's index; a
   * stage without an entry (index -1) lights none.
   */
  lemma LitMeaning(i: nat, stage: Stage)
    requires i < |IndicatorKeys()|
    ensures Lit(IndicatorKeys()[i], stage) <==> i <= ConfigIndex(stage)
    ensures ConfigIndex(stage) == -1 ==> !Lit(IndicatorKeys()[i], stage)
  {
    ConfigIndexOfListed(i);
  }

  /** The stages that light no bar: `idle`, `error` and the stages only the pipeline view knows. */
  lemma UnconfiguredStages()
    ensures forall s :: ConfigIndex(s) == -1 <==> s in {Idle, Error, Ranking, Contradictions, DevilsAdvocate, Confidence}
  {
    ConfigIndexOfListed(0);
    ConfigIndexOfListed(1);
    ConfigIndexOfListed(2);
    ConfigIndexOfListed(3);
    ConfigIndexOfListed(4);
    ConfigIndexOfListed(5);
  }

  /** `toggle(section)`: closes the section if it is the open one, opens it otherwise. */
  function Toggle(expanded: Option<string>, section: string): (r: Option<string>)
    ensures r == None <==> expanded == Some(section)
    ensures r != None ==> r == Some(section)
  {
    if expanded == Some(section) then None else Some(section)
  }

  /** Toggling the same section twice restores a closed or matching state. */
  lemma ToggleTwice(expanded: Option<string>, section: string)
    requires expanded == None || expanded == Some(section)
    ensures Toggle(Toggle(expanded, section), section) == expanded
  {
  }

  const DefaultError := "An unexpected error occurred."

  /** The error banner's text: `error || 'An unexpected error occurred.'`. */
  function ErrorText(error: Option<string>): (r: string)
    ensures r != ""
    ensures error.Some? && error.value != "" ==> r == error.value
    ensures error.None? || error.value == "" ==> r == DefaultError
  {
    ContentModel.OrElse(error, DefaultError)
  }

  /** Which parts of the panel body are shown. */
  predicate ShowsError(stage: Stage) {
    stage == Error
  }

  predicate ShowsResults(hasAnalysis: bool, stage: Stage) {
    hasAnalysis && stage == Done
  }

  predicate ShowsPlaceholder(hasAnalysis: bool, stage: Stage) {
    IsLoading(stage) && !hasAnalysis
  }

  /** The results, the error banner and the placeholder never show together. */
  lemma PanelBodyExclusive(hasAnalysis: bool, stage: Stage)
    ensures !(ShowsResults(hasAnalysis, stage) && ShowsPlaceholder(hasAnalysis, stage))
    ensures !(ShowsResults(hasAnalysis, stage) && ShowsError(stage))
    ensures !(ShowsError(stage) && (ShowsPlaceholder(hasAnalysis, stage) || ShowsProgress(stage)))
    ensures ShowsResults(hasAnalysis, stage) ==> !IsLoading(stage)
  {
  }
}
