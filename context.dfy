/**
 * The read-only project view of internal/tools/context.go (`sdd_get_context`): the status
 * symbols, the next-step guidance per stage, the mode threshold it repeats, the guarded
 * read of one stage artifact and the structure of the project overview.
 *
 * The artifact files are the `readFile` parameter (path to content, "" for a missing file);
 * the markdown layout of the overview is left out and its content kept as data.
 */
module ContextTool {
  import opened Wrappers
  import opened Text
  import opened Config
  import opened Pipeline

  const CompletedSymbol: string := "\U{2705}"
  const InProgressSymbol: string := "\U{1F504}"
  const SkippedSymbol: string := "\U{23ED}\U{FE0F}"
  const DefaultSymbol: string := "\U{2B1C}"

  /**
   * `statusIndicator`: one symbol for each of completed, in progress and skipped, and one
   * shared symbol for every other status, pending and unknown values alike.
   */
  function StatusIndicator(status: string): (sym: string)
    ensures sym == CompletedSymbol <==> status == StatusCompleted
    ensures sym == InProgressSymbol <==> status == StatusInProgress
    ensures sym == SkippedSymbol <==> status == StatusSkipped
    ensures sym == DefaultSymbol <==> status != StatusCompleted && status != StatusInProgress && status != StatusSkipped
  {
    if status == "completed" then "\U{2705}"
    else if status == "in_progress" then "\U{1F504}"
    else if status == "skipped" then "\U{23ED}\U{FE0F}"
    else "\U{2B1C}"
  }

  /** `clarityThresholdForMode`: the copy of the threshold rule kept in this file agrees with the pipeline's. */
  function ClarityThresholdForMode(mode: Mode): (t: int)
    ensures t == ClarityThreshold(mode)
  {
    if mode == ModeExpert then 50 else 70
  }

  const InitTool: string := "sdd_init_project"

  /**
   * The tool that works on each stage, as the handlers register it and check it with
   * `RequireStage`; project initialisation for `init` and unknown stages.
   */
  function ToolFor(stage: Stage): string
  {
    if stage == StagePropose then "sdd_create_proposal"
    else if stage == StageSpecify then "sdd_generate_requirements"
    else if stage == StageClarify then "sdd_clarify"
    else if stage == StageDesign then "sdd_create_design"
    else if stage == StageTasks then "sdd_create_tasks"
    else if stage == StageValidate then "sdd_validate"
    else InitTool
  }

  predicate StartsWith(s: string, prefix: string)
  {
    |prefix| <= |s| && s[..|prefix|] == prefix
  }

  /** The opening words of every guidance text: the tool to use, in backquotes. */
  function UseTool(tool: string): string
  {
    "Use `" + tool + "`"
  }

  /** A guidance text: the opening words for `tool`, then the rest of the sentence. */
  function Guidance(tool: string, rest: string): (text: string)
    ensures StartsWith(text, UseTool(tool))
  {
    var text := UseTool(tool) + rest;
    assert text[..|UseTool(tool)|] == UseTool(tool);
    text
  }

  // The words that follow the tool name in each stage's guidance.
  const ProposeGuidance: string := " with your project idea to create a structured proposal."
  const SpecifyGuidance: string := " to extract formal requirements from the proposal."
  const DesignGuidance: string :=
    " to create the technical architecture document. "
    + "Read all previous artifacts first (use `sdd_get_context`), then design the system "
    + "addressing ALL requirements. Include tech stack, components, data model, and key design decisions."
  const TasksGuidance: string :=
    " to break the design into atomic implementation tasks. "
    + "Read the design document first (use `sdd_get_context stage=design`). "
    + "Each task should have a unique ID, clear scope, requirements covered, and acceptance criteria."
  const ValidateGuidance: string :=
    " to run a cross-artifact consistency check. "
    + "Read ALL artifacts and verify: requirement coverage, component coverage, "
    + "consistency between documents, and identify any gaps or risks."
  const InitGuidance: string := " to start a new SDD project."

  /** The clarify guidance: the current score out of the score needed. */
  function ClarifyGuidance(score: int, threshold: int): string
  {
    " to run the Clarity Gate. Current score: " + FormatInt(score) + "/" + FormatInt(threshold) + " needed."
  }

  /**
   * `nextStepGuidance`: the guidance for each stage from propose to validate opens by naming
   * the tool that requires that stage; `init` and any unrecognised stage get the
   * initialisation guidance.
   */
  function NextStepGuidance(cfg: ProjectConfig): (text: string)
    reads cfg
    ensures StartsWith(text, UseTool(ToolFor(cfg.currentStage)))
  {
    var stage := cfg.currentStage;
    if stage == StagePropose then Guidance("sdd_create_proposal", ProposeGuidance)
    else if stage == StageSpecify then Guidance("sdd_generate_requirements", SpecifyGuidance)
    else if stage == StageClarify then
      Guidance("sdd_clarify", ClarifyGuidance(cfg.clarityScore, ClarityThresholdForMode(cfg.mode)))
    else if stage == StageDesign then Guidance("sdd_create_design", DesignGuidance)
    else if stage == StageTasks then Guidance("sdd_create_tasks", TasksGuidance)
    else if stage == StageValidate then Guidance("sdd_validate", ValidateGuidance)
    else Guidance(InitTool, InitGuidance)
  }

  /** Why a context request was refused. */
  datatype ContextError = NoArtifact(stage: Stage)

  /** The text shown for a stage whose artifact is still empty. */
  function NotCompletedText(stage: Stage): string
  {
    "# Stage: " + Metadata(stage).name + "\n\n**Status:** Not yet completed\n\n_" + Metadata(stage).description + "_"
  }

  /**
   * `readStageContent`: a stage without an artifact file (`init` or an unknown name) is
   * refused before any file is read; otherwise the artifact's text, or the not-completed
   * text when the artifact is empty.
   */
  function ReadStageContent(projectRoot: string, stage: Stage, readFile: string -> string): (r: Result<string, ContextError>)
    ensures r.Failure? <==> stage !in StageOrder || stage == StageInit
    ensures r.Failure? ==> r.error == NoArtifact(stage)
    ensures r.Success? && readFile(StagePath(projectRoot, stage)) != "" ==> r.value == readFile(StagePath(projectRoot, stage))
    ensures r.Success? && readFile(StagePath(projectRoot, stage)) == "" ==> r.value == NotCompletedText(stage)
  {
    var path := StagePath(projectRoot, stage);
    if path == "" then Failure(NoArtifact(stage))
    else
      var content := readFile(path);
      if content == "" then Success(NotCompletedText(stage)) else Success(content)
  }

  /**
   * The tool's parameter description offers the artifact names 'proposal', 'requirements'
   * and 'clarifications', but the handler looks stages up by stage name, so those three are
   * refused while 'design' and 'tasks', which are stage names too, are read.
   */
  lemma DescribedArtifactNames(projectRoot: string, readFile: string -> string)
    ensures ReadStageContent(projectRoot, "proposal", readFile).Failure?
    ensures ReadStageContent(projectRoot, "requirements", readFile).Failure?
    ensures ReadStageContent(projectRoot, "clarifications", readFile).Failure?
    ensures ReadStageContent(projectRoot, "design", readFile).Success?
    ensures ReadStageContent(projectRoot, "tasks", readFile).Success?
  {
    assert "proposal" != StagePropose;
  }

  // ---------------------------------------------------------------- overview

  /** One row of the pipeline progress table. */
  datatype OverviewRow = OverviewRow(indicator: string, name: string, status: string, current: bool, iterations: int)

  /** One line of the artifact summary: the stage name, its file and its line count, None when not created. */
  datatype ArtifactLine = ArtifactLine(name: string, filename: string, lines: Option<nat>)

  /**
   * What the overview shows: the clarity score against the threshold (only while at
   * clarify), the progress rows, the artifact lines and the next-step guidance.
   */
  datatype Overview = Overview(clarity: Option<(int, int)>, rows: seq<OverviewRow>, artifacts: seq<ArtifactLine>, nextSteps: string)

  /** The row of `stage`: its symbol, name, status and round count, marked when it is the current stage. */
  function RowFor(cfg: ProjectConfig, stage: Stage): OverviewRow
    reads cfg
  {
    var st := StatusOf(cfg.stageStatus, stage);
    OverviewRow(StatusIndicator(st.status), Metadata(stage).name, st.status, stage == cfg.currentStage, st.iterations)
  }

  /** The stages whose artifacts the overview lists. */
  const ArtifactStages: seq<Stage> := [StagePropose, StageSpecify, StageClarify, StageDesign, StageTasks, StageValidate]

  /** `strings.Count(s, "\n")`. */
  function CountNewlines(s: string): nat
  {
    if s == [] then 0 else CountNewlines(s[..|s| - 1]) + (if s[|s| - 1] == '\n' then 1 else 0)
  }

  /** The summary line of one artifact. */
  function ArtifactFor(projectRoot: string, readFile: string -> string, stage: Stage): ArtifactLine
  {
    var content := readFile(StagePath(projectRoot, stage));
    ArtifactLine(Metadata(stage).name, StageFilename(stage), if content == "" then None else Some(CountNewlines(content)))
  }

  /**
   * `buildOverview`: the clarity line exactly at clarify; one row per stage in the stage
   * order, of which only the current stage's is marked; one line per artifact; the
   * guidance for the current stage.
   */
  method BuildOverview(cfg: ProjectConfig, projectRoot: string, readFile: string -> string) returns (o: Overview)
    ensures o.clarity.Some? <==> cfg.currentStage == StageClarify
    ensures o.clarity.Some? ==> o.clarity.value == (cfg.clarityScore, ClarityThreshold(cfg.mode))
    ensures |o.rows| == |StageOrder| && forall k :: 0 <= k < |StageOrder| ==> o.rows[k] == RowFor(cfg, StageOrder[k])
    ensures forall k :: 0 <= k < |o.rows| ==> (o.rows[k].current <==> StageOrder[k] == cfg.currentStage)
    ensures (exists k :: 0 <= k < |o.rows| && o.rows[k].current) <==> cfg.currentStage in StageOrder
    ensures |o.artifacts| == |ArtifactStages|
    ensures forall k :: 0 <= k < |ArtifactStages| ==> o.artifacts[k] == ArtifactFor(projectRoot, readFile, ArtifactStages[k])
    ensures o.nextSteps == NextStepGuidance(cfg)
  {
    var clarity: Option<(int, int)> := None;
    if cfg.currentStage == StageClarify {
      clarity := Some((cfg.clarityScore, ClarityThresholdForMode(cfg.mode)));
    }
    var rows := ProgressRows(cfg);
    var artifacts := ArtifactLines(projectRoot, readFile);
    o := Overview(clarity, rows, artifacts, NextStepGuidance(cfg));
  }

  /** The progress table of `buildOverview`: one row per stage, in the stage order. */
  method ProgressRows(cfg: ProjectConfig) returns (rows: seq<OverviewRow>)
    ensures |rows| == |StageOrder| && forall k :: 0 <= k < |StageOrder| ==> rows[k] == RowFor(cfg, StageOrder[k])
    ensures forall k :: 0 <= k < |rows| ==> (rows[k].current <==> StageOrder[k] == cfg.currentStage)
    ensures (exists k :: 0 <= k < |rows| && rows[k].current) <==> cfg.currentStage in StageOrder
  {
    rows := [];
    for i := 0 to |StageOrder|
      invariant |rows| == i
      invariant forall k :: 0 <= k < i ==> rows[k] == RowFor(cfg, StageOrder[k])
    {
      var stage := StageOrder[i];
      var status := StatusOf(cfg.stageStatus, stage);
      var current := false;
      if stage == cfg.currentStage {
        current := true;
      }
      rows := rows + [OverviewRow(StatusIndicator(status.status), Metadata(stage).name, status.status, current, status.iterations)];
    }
    if cfg.currentStage in StageOrder {
      var k :| 0 <= k < |StageOrder| && StageOrder[k] == cfg.currentStage;
      assert rows[k].current;
    }
  }

  /** The artifact summary of `buildOverview`: one line per artifact stage; no stage of the list lacks a path. */
  method ArtifactLines(projectRoot: string, readFile: string -> string) returns (artifacts: seq<ArtifactLine>)
    ensures |artifacts| == |ArtifactStages|
    ensures forall k :: 0 <= k < |ArtifactStages| ==> artifacts[k] == ArtifactFor(projectRoot, readFile, ArtifactStages[k])
  {
    artifacts := [];
    for i := 0 to |ArtifactStages|
      invariant |artifacts| == i
      invariant forall k :: 0 <= k < i ==> artifacts[k] == ArtifactFor(projectRoot, readFile, ArtifactStages[k])
    {
      var stage := ArtifactStages[i];
      var path := StagePath(projectRoot, stage);
      if path == "" {
        assert false;
      }
      var content := readFile(path);
      var lines: Option<nat> := None;
      if content != "" {
        lines := Some(CountNewlines(content));
      }
      artifacts := artifacts + [ArtifactLine(Metadata(stage).name, StageFilename(stage), lines)];
    }
  }

  /** What the tool returns: one stage's text, or the overview when no stage is asked for. */
  datatype ContextReply = StageContent(text: string) | ProjectOverview(overview: Overview)

  /** `Handle`: an empty `stage` argument asks for the overview; any other value for that stage's artifact. */
  method Handle(cfg: ProjectConfig, projectRoot: string, stageFilter: string, readFile: string -> string)
    returns (r: Result<ContextReply, ContextError>)
    ensures stageFilter == "" ==> r.Success? && r.value.ProjectOverview?
    ensures stageFilter == "" ==> (r.value.overview.clarity.Some? <==> cfg.currentStage == StageClarify)
    ensures stageFilter == "" && cfg.currentStage == StageClarify ==>
      r.value.overview.clarity.value == (cfg.clarityScore, ClarityThreshold(cfg.mode))
    ensures stageFilter == "" ==>
      && |r.value.overview.rows| == |StageOrder|
      && forall k :: 0 <= k < |StageOrder| ==> r.value.overview.rows[k] == RowFor(cfg, StageOrder[k])
    ensures stageFilter == "" ==>
      && |r.value.overview.artifacts| == |ArtifactStages|
      && forall k :: 0 <= k < |ArtifactStages| ==>
           r.value.overview.artifacts[k] == ArtifactFor(projectRoot, readFile, ArtifactStages[k])
    ensures stageFilter == "" ==> r.value.overview.nextSteps == NextStepGuidance(cfg)
    ensures stageFilter != "" && ReadStageContent(projectRoot, stageFilter, readFile).Failure? ==>
      r == Failure(ReadStageContent(projectRoot, stageFilter, readFile).error)
    ensures stageFilter != "" && ReadStageContent(projectRoot, stageFilter, readFile).Success? ==>
      r == Success(StageContent(ReadStageContent(projectRoot, stageFilter, readFile).value))
  {
    if stageFilter != "" {
      var content := ReadStageContent(projectRoot, stageFilter, readFile);
      if content.Failure? {
        return Failure(content.error);
      }
      return Success(StageContent(content.value));
    }
    var overview := BuildOverview(cfg, projectRoot, readFile);
    return Success(ProjectOverview(overview));
  }
}
