/**
 * The project configuration of internal/config/config.go: the stage registry (the fixed
 * stage order, display metadata and artifact filenames), the per-stage status record and
 * the `ProjectConfig` aggregate with its initial value.
 *
 * Stages and modes are Go `string` types, so a configuration read back from disk may hold
 * values outside the known constants; the model keeps them as strings for that reason.
 */
module Config {
  import opened Sequences

  type Mode = string

  const ModeGuided: Mode := "guided"
  const ModeExpert: Mode := "expert"

  type Stage = string

  const StageInit: Stage := "init"
  const StagePropose: Stage := "propose"
  const StageSpecify: Stage := "specify"
  const StageClarify: Stage := "clarify"
  const StageDesign: Stage := "design"
  const StageTasks: Stage := "tasks"
  const StageValidate: Stage := "validate"

  /** The sequential pipeline. */
  const StageOrder: seq<Stage> :=
    [StageInit, StagePropose, StageSpecify, StageClarify, StageDesign, StageTasks, StageValidate]

  /** The stage order holds seven different stages, `init` first and `validate` last. */
  lemma StageOrderShape()
    ensures |StageOrder| == 7 && Distinct(StageOrder)
    ensures StageOrder[0] == StageInit && StageOrder[|StageOrder| - 1] == StageValidate
  {
  }

  datatype StageMetadata = StageMetadata(name: string, description: string, order: int)

  /** Human-readable information about each stage. */
  const Stages: map<Stage, StageMetadata> := map[
    StageInit := StageMetadata("Initialize", "Set up project context, constraints, and SDD structure", 0),
    StagePropose := StageMetadata("Propose", "Transform a vague idea into a structured proposal", 1),
    StageSpecify := StageMetadata("Specify", "Extract formal requirements from the proposal", 2),
    StageClarify := StageMetadata("Clarify", "Detect and resolve ambiguities through the Clarity Gate", 3),
    StageDesign := StageMetadata("Design", "Create technical architecture and design decisions", 4),
    StageTasks := StageMetadata("Tasks", "Break down design into atomic, actionable tasks", 5),
    StageValidate := StageMetadata("Validate", "Verify consistency across all artifacts", 6)
  ]

  /** `Stages[stage]` in Go: the zero metadata for a stage the table does not list. */
  function Metadata(stage: Stage): StageMetadata
  {
    if stage in Stages then Stages[stage] else StageMetadata("", "", 0)
  }

  /** The metadata table describes exactly the known stages, each with its position in the order. */
  lemma MetadataOrderIsPosition(i: int)
    requires 0 <= i < |StageOrder|
    ensures StageOrder[i] in Stages && Metadata(StageOrder[i]).order == i
    ensures Metadata(StageOrder[i]).name != ""
  {
    if i == 0 {} else if i == 1 {} else if i == 2 {} else if i == 3 {}
    else if i == 4 {} else if i == 5 {} else {}
  }

  const StatusPending: string := "pending"
  const StatusInProgress: string := "in_progress"
  const StatusCompleted: string := "completed"
  const StatusSkipped: string := "skipped"

  /** Progress of one stage; an empty timestamp means "not set". */
  datatype StageStatus = StageStatus(status: string, startedAt: string, completedAt: string, iterations: int)

  /** `cfg.StageStatus[stage]` in Go: the zero record for a stage the map does not hold. */
  function StatusOf(statuses: map<Stage, StageStatus>, stage: Stage): StageStatus
  {
    if stage in statuses then statuses[stage] else StageStatus("", "", "", 0)
  }

  /** The root configuration that the tools load, change and save. */
  class ProjectConfig {
    var name: string
    var description: string
    var version: string
    var mode: Mode
    var currentStage: Stage
    var createdAt: string
    var updatedAt: string
    var stageStatus: map<Stage, StageStatus>
    var clarityScore: int

    /**
     * What the pipeline's own transitions keep: every stage of the order has a status entry,
     * no counter is negative and the current stage is a known one.
     */
    ghost predicate WellFormed()
      reads this
    {
      && (forall s :: s in StageOrder ==> s in stageStatus && stageStatus[s].iterations >= 0)
      && currentStage in StageOrder
    }

    /**
     * `NewProjectConfig`: every stage pending except `init`, which is completed after one
     * round; the project starts at `propose` with a zero clarity score. `now` is the
     * single clock reading taken for the creation.
     */
    constructor (name: string, description: string, mode: Mode, now: string)
      ensures this.name == name && this.description == description && this.version == "0.1.0"
      ensures this.mode == mode && currentStage == StagePropose && clarityScore == 0
      ensures createdAt == now && updatedAt == now
      ensures stageStatus.Keys == set s | s in StageOrder
      ensures stageStatus[StageInit] == StageStatus(StatusCompleted, now, now, 1)
      ensures forall s :: s in StageOrder && s != StageInit ==> stageStatus[s] == StageStatus(StatusPending, "", "", 0)
      ensures WellFormed()
    {
      var status: map<Stage, StageStatus> := map[];
      for i := 0 to |StageOrder|
        invariant status.Keys == set k | 0 <= k < i :: StageOrder[k]
        invariant forall s :: s in status ==> status[s] == StageStatus(StatusPending, "", "", 0)
      {
        status := status[StageOrder[i] := StageStatus(StatusPending, "", "", 0)];
      }
      assert status.Keys == set s | s in StageOrder by {
        assert forall s :: s in StageOrder ==> exists k :: 0 <= k < |StageOrder| && StageOrder[k] == s;
      }
      status := status[StageInit := StageStatus(StatusCompleted, now, now, 1)];
      this.name := name;
      this.description := description;
      this.version := "0.1.0";
      this.mode := mode;
      this.currentStage := StagePropose;
      this.createdAt := now;
      this.updatedAt := now;
      this.stageStatus := status;
      this.clarityScore := 0;
    }
  }

  // ---------------------------------------------------------------- artifact files

  const SDDDir: string := "sdd"

  /** The markdown artifact each stage writes; `init` has none. */
  const StageFilenames: map<Stage, string> := map[
    StagePropose := "proposal.md",
    StageSpecify := "requirements.md",
    StageClarify := "clarifications.md",
    StageDesign := "design.md",
    StageTasks := "tasks.md",
    StageValidate := "validation.md"
  ]

  /** `StageFilename`: the stage's artifact filename, or "" for `init` and unknown stages. */
  function StageFilename(stage: Stage): (f: string)
    ensures f != "" <==> stage in StageOrder && stage != StageInit
  {
    if stage in StageFilenames then StageFilenames[stage] else ""
  }

  /** Different stages write different files. */
  lemma StageFilenamesDistinct(s: Stage, t: Stage)
    requires s != t && StageFilename(s) != ""
    ensures StageFilename(s) != StageFilename(t)
  {
  }

  /**
   * `StagePath`: the artifact's path under the project's `sdd` directory, or "" when the
   * stage has no artifact. Go's `filepath.Join` also cleans the path; only whether the
   * result is empty matters to the callers.
   */
  function StagePath(projectRoot: string, stage: Stage): (p: string)
    ensures p == "" <==> StageFilename(stage) == ""
  {
    var f := StageFilename(stage);
    if f == "" then ""
    else if projectRoot == "" then SDDDir + "/" + f
    else projectRoot + "/" + SDDDir + "/" + f
  }
}
