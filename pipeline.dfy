/**
 * The stage state machine of internal/pipeline/state.go: the clarity threshold per mode,
 * stage lookup, the transition check with its clarity gate, the transition itself, the
 * re-entry of a stage and the stage precondition the tools use.
 *
 * The clock (`Now`, backed by `timeNow`) is an injected value: every operation that stamps
 * a time takes the reading as its `now` parameter.
 */
module Pipeline {
  import opened Wrappers
  import opened Sequences
  import opened Config

  const ClarityThresholdGuided: int := 70
  const ClarityThresholdExpert: int := 50

  /** The clarity score a mode needs: expert projects pass at 50, any other mode needs 70. */
  function ClarityThreshold(mode: Mode): (t: int)
    ensures t == ClarityThresholdExpert <==> mode == ModeExpert
    ensures t == ClarityThresholdGuided <==> mode != ModeExpert
  {
    if mode == ModeExpert then ClarityThresholdExpert else ClarityThresholdGuided
  }

  /** Why a stage operation was refused. */
  datatype PipelineError =
    | ClarityGateNotMet(score: int, threshold: int, mode: Mode)
    | UnknownStage(stage: Stage)
    | AlreadyAtFinalStage(stage: Stage)
    | WrongStage(current: Stage, currentName: string, expected: Stage, expectedName: string)

  /** `StageIndex`: the position of `stage` in the stage order, or -1 for an unknown stage. */
  method StageIndex(stage: Stage) returns (i: int)
    ensures -1 <= i
    ensures i == -1 <==> stage !in StageOrder
    ensures 0 <= i ==> i < |StageOrder| && StageOrder[i] == stage
    ensures i == FirstIndex(StageOrder, stage)
  {
    var k := 0;
    while k < |StageOrder|
      invariant 0 <= k <= |StageOrder|
      invariant stage !in StageOrder[..k]
    {
      if StageOrder[k] == stage {
        return k;
      }
      k := k + 1;
    }
    return -1;
  }

  /**
   * `CanAdvance`: leaving `clarify` needs a score of at least the mode's threshold; an
   * unknown stage and the final stage cannot be left either. The checks run in that order.
   */
  function CanAdvance(cfg: ProjectConfig): (r: Outcome<PipelineError>)
    reads cfg
    ensures r.Pass? <==>
      && cfg.currentStage in StageOrder
      && cfg.currentStage != StageValidate
      && (cfg.currentStage == StageClarify ==> cfg.clarityScore >= ClarityThreshold(cfg.mode))
    ensures r == Fail(ClarityGateNotMet(cfg.clarityScore, ClarityThreshold(cfg.mode), cfg.mode)) <==>
      cfg.currentStage == StageClarify && cfg.clarityScore < ClarityThreshold(cfg.mode)
    ensures r == Fail(UnknownStage(cfg.currentStage)) <==> cfg.currentStage !in StageOrder
    ensures r == Fail(AlreadyAtFinalStage(cfg.currentStage)) <==> cfg.currentStage == StageValidate
  {
    if cfg.currentStage == StageClarify && cfg.clarityScore < ClarityThreshold(cfg.mode) then
      Fail(ClarityGateNotMet(cfg.clarityScore, ClarityThreshold(cfg.mode), cfg.mode))
    else
      var idx := FirstIndex(StageOrder, cfg.currentStage);
      if idx < 0 then Fail(UnknownStage(cfg.currentStage))
      else if idx >= |StageOrder| - 1 then Fail(AlreadyAtFinalStage(cfg.currentStage))
      else Pass
  }

  /** The stage after `stage` in the order. */
  function Successor(stage: Stage): (next: Stage)
    requires stage in StageOrder && stage != StageValidate
    ensures next in StageOrder && next != stage && next != StageInit
    ensures FirstIndex(StageOrder, next) == FirstIndex(StageOrder, stage) + 1
  {
    StageOrderShape();
    var i := FirstIndex(StageOrder, stage);
    FirstIndexOfDistinct(StageOrder, i + 1);
    StageOrder[i + 1]
  }

  /** Every stage but the last is followed by the stage at the next position. */
  lemma SuccessorAt(k: int)
    requires 0 <= k < |StageOrder| - 1
    ensures StageOrder[k] != StageValidate && Successor(StageOrder[k]) == StageOrder[k + 1]
  {
    StageOrderShape();
    FirstIndexOfDistinct(StageOrder, k);
    FirstIndexOfDistinct(StageOrder, k + 1);
  }

  /** At `clarify` with a score that reaches the mode's threshold the gate opens onto `design`. */
  lemma ClarifyGateOpens(cfg: ProjectConfig)
    requires cfg.currentStage == StageClarify && cfg.clarityScore >= ClarityThreshold(cfg.mode)
    ensures CanAdvance(cfg) == Pass && Successor(StageClarify) == StageDesign
  {
    SuccessorAt(3);
  }

  /** `markCompleted` on one record: completed at `now`, start time and round count kept. */
  function MarkedCompleted(st: StageStatus, now: string): (r: StageStatus)
    ensures r.status == StatusCompleted && r.completedAt == now
    ensures r.startedAt == st.startedAt && r.iterations == st.iterations
  {
    st.(status := StatusCompleted, completedAt := now)
  }

  /**
   * `markInProgress` on one record: in progress, one more round, and a start time that is
   * set when missing and never replaced once set.
   */
  function MarkedInProgress(st: StageStatus, now: string): (r: StageStatus)
    ensures r.status == StatusInProgress && r.iterations == st.iterations + 1
    ensures st.startedAt != "" ==> r.startedAt == st.startedAt
    ensures st.startedAt == "" ==> r.startedAt == now
    ensures r.completedAt == st.completedAt
  {
    st.(status := StatusInProgress,
        startedAt := if st.startedAt == "" then now else st.startedAt,
        iterations := st.iterations + 1)
  }

  /** `markCompleted`: read, change and write back one entry of the status map. */
  method MarkStageCompleted(cfg: ProjectConfig, stage: Stage, now: string)
    modifies cfg`stageStatus
    ensures cfg.stageStatus == old(cfg.stageStatus)[stage := MarkedCompleted(StatusOf(old(cfg.stageStatus), stage), now)]
  {
    var st := StatusOf(cfg.stageStatus, stage);
    st := st.(status := StatusCompleted);
    st := st.(completedAt := now);
    cfg.stageStatus := cfg.stageStatus[stage := st];
  }

  /** `markInProgress`: read, change and write back one entry of the status map. */
  method MarkStageInProgress(cfg: ProjectConfig, stage: Stage, now: string)
    modifies cfg`stageStatus
    ensures cfg.stageStatus == old(cfg.stageStatus)[stage := MarkedInProgress(StatusOf(old(cfg.stageStatus), stage), now)]
  {
    var st := StatusOf(cfg.stageStatus, stage);
    st := st.(status := StatusInProgress);
    if st.startedAt == "" {
      st := st.(startedAt := now);
    }
    st := st.(iterations := st.iterations + 1);
    cfg.stageStatus := cfg.stageStatus[stage := st];
  }

  /**
   * `Advance`: refused exactly when `CanAdvance` refuses, and then nothing changes;
   * otherwise the current stage is completed, the next stage becomes current and is
   * marked in progress. The mode, the score and every other stage's entry are untouched.
   */
  method Advance(cfg: ProjectConfig, now: string) returns (r: Outcome<PipelineError>)
    modifies cfg`stageStatus, cfg`currentStage
    ensures r == old(CanAdvance(cfg))
    ensures r.Fail? ==> cfg.currentStage == old(cfg.currentStage) && cfg.stageStatus == old(cfg.stageStatus)
    ensures r.Pass? ==> cfg.currentStage == Successor(old(cfg.currentStage))
    ensures r.Pass? ==>
      cfg.stageStatus ==
        old(cfg.stageStatus)
          [old(cfg.currentStage) := MarkedCompleted(StatusOf(old(cfg.stageStatus), old(cfg.currentStage)), now)]
          [cfg.currentStage := MarkedInProgress(StatusOf(old(cfg.stageStatus), cfg.currentStage), now)]
    ensures r.Pass? ==> IsCompleted(cfg, old(cfg.currentStage)) && !IsCompleted(cfg, cfg.currentStage)
    ensures old(cfg.WellFormed()) ==> cfg.WellFormed()
  {
    r := CanAdvance(cfg);
    if r.Fail? {
      return;
    }
    var idx := StageIndex(cfg.currentStage);
    StageOrderShape();
    FirstIndexOfDistinct(StageOrder, idx);
    var nextStage := StageOrder[idx + 1];
    MarkStageCompleted(cfg, cfg.currentStage, now);
    cfg.currentStage := nextStage;
    MarkStageInProgress(cfg, nextStage, now);
  }

  /**
   * `MarkInProgress`: re-enters the current stage and counts one more work round on it;
   * the current stage and every other entry stay as they were.
   */
  method MarkInProgress(cfg: ProjectConfig, now: string)
    modifies cfg`stageStatus
    ensures cfg.stageStatus ==
      old(cfg.stageStatus)[cfg.currentStage := MarkedInProgress(StatusOf(old(cfg.stageStatus), cfg.currentStage), now)]
    ensures old(cfg.WellFormed()) ==> cfg.WellFormed()
  {
    MarkStageInProgress(cfg, cfg.currentStage, now);
  }

  /** `IsCompleted`: the stage has an entry and that entry says completed. */
  function IsCompleted(cfg: ProjectConfig, stage: Stage): (done: bool)
    reads cfg
    ensures done ==> stage in cfg.stageStatus && StatusOf(cfg.stageStatus, stage).status == StatusCompleted
    ensures stage in cfg.stageStatus && cfg.stageStatus[stage].status == StatusCompleted ==> done
  {
    var present := stage in cfg.stageStatus;
    present && cfg.stageStatus[stage].status == StatusCompleted
  }

  /**
   * `RequireStage`: the precondition of every stage tool. It fails exactly when the project
   * is at another stage, whatever its clarity score, and names both stages.
   */
  function RequireStage(cfg: ProjectConfig, expected: Stage): (r: Outcome<PipelineError>)
    reads cfg
    ensures r.Pass? <==> cfg.currentStage == expected
    ensures r.Fail? ==> r.error.WrongStage? && r.error.current == cfg.currentStage && r.error.expected == expected
    ensures r.Fail? ==> r.error.currentName == Metadata(cfg.currentStage).name && r.error.expectedName == Metadata(expected).name
  {
    if cfg.currentStage != expected then
      Fail(WrongStage(cfg.currentStage, Metadata(cfg.currentStage).name, expected, Metadata(expected).name))
    else
      Pass
  }

  /** One step of the walk: from the stage at position `k` to the stage at `k + 1`. */
  method AdvanceAt(cfg: ProjectConfig, k: int, now: string)
    requires 1 <= k < |StageOrder| - 1 && cfg.currentStage == StageOrder[k]
    requires cfg.clarityScore >= ClarityThreshold(cfg.mode)
    modifies cfg`stageStatus, cfg`currentStage
    ensures cfg.currentStage == StageOrder[k + 1]
  {
    SuccessorAt(k);
    var r := Advance(cfg, now);
    assert r.Pass?;
  }

  /**
   * A new project whose score meets its mode's threshold walks through specify, clarify,
   * design, tasks and validate with five `Advance` calls; a sixth is refused because
   * `validate` is the final stage.
   */
  method WalkFromNewProject(mode: Mode, score: int, now: string) returns (visited: seq<Stage>, last: Outcome<PipelineError>)
    requires score >= ClarityThreshold(mode)
    ensures visited == StageOrder[2..]
    ensures last == Fail(AlreadyAtFinalStage(StageValidate))
  {
    var cfg := new ProjectConfig("", "", mode, now);
    cfg.clarityScore := score;
    StageOrderShape();
    visited := [];
    var k := 1;
    while k < |StageOrder| - 1
      invariant 1 <= k <= |StageOrder| - 1
      invariant cfg.currentStage == StageOrder[k]
      invariant cfg.mode == mode && cfg.clarityScore == score
      invariant visited == StageOrder[2..k + 1]
    {
      AdvanceAt(cfg, k, now);
      SliceSnoc(StageOrder, 2, k + 1);
      k := k + 1;
      visited := visited + [cfg.currentStage];
    }
    last := Advance(cfg, now);
  }
}
