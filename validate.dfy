/**
 * The final-stage tool of internal/tools/validate.go (`sdd_validate`): the required
 * arguments in their fixed order, the verdict normalisation, the stage check, the check
 * that every earlier artifact has content, and the completion of the last stage without
 * a transition.
 *
 * The artifact files are the `readFile` parameter (path to content, "" for a missing
 * file); writing the report and saving the configuration are left out, and the report is
 * kept as data rather than markdown.
 */
module ValidateTool {
  import W = Wrappers
  import opened Sequences
  import opened Text
  import opened Config
  import opened Pipeline

  /** The tool's arguments; an argument the caller leaves out is "". */
  datatype ValidateArgs = ValidateArgs(
    requirementsCoverage: string,
    componentCoverage: string,
    consistencyIssues: string,
    riskAssessment: string,
    verdict: string,
    recommendations: string)

  datatype Verdict = Pass | PassWithWarnings | Fail

  /** The spelling of each verdict. */
  function VerdictText(v: Verdict): string
  {
    match v
    case Pass => "PASS"
    case PassWithWarnings => "PASS_WITH_WARNINGS"
    case Fail => "FAIL"
  }

  /** The verdict a word spells, if it spells one. */
  function VerdictNamed(word: string): (r: W.Option<Verdict>)
    ensures r.Some? ==> word == VerdictText(r.value)
    ensures r.None? ==> forall v :: word != VerdictText(v)
  {
    if word == "PASS" then W.Some(Pass)
    else if word == "PASS_WITH_WARNINGS" then W.Some(PassWithWarnings)
    else if word == "FAIL" then W.Some(Fail)
    else W.None
  }

  /**
   * The verdict check: accepted exactly when the trimmed, upper-cased argument spells one
   * of the three verdicts, and then that verdict.
   */
  function NormalizeVerdict(verdict: string): (r: W.Option<Verdict>)
    ensures r.Some? ==> ToUpper(TrimSpace(verdict)) == VerdictText(r.value)
    ensures r.None? ==> forall v :: ToUpper(TrimSpace(verdict)) != VerdictText(v)
  {
    VerdictNamed(ToUpper(TrimSpace(verdict)))
  }

  /** Every verdict, spelled as the tool spells it, is accepted as itself. */
  lemma NormalizeVerdictText(v: Verdict)
    ensures NormalizeVerdict(VerdictText(v)) == W.Some(v)
  {
    VerdictTextUpper(v);
    UpperWordNormal(VerdictText(v));
    VerdictNamedText(v);
  }

  /** The spellings are upper-case words. */
  lemma VerdictTextUpper(v: Verdict)
    ensures UpperWord(VerdictText(v))
  {
  }

  /** Each spelling names its own verdict. */
  lemma VerdictNamedText(v: Verdict)
    ensures VerdictNamed(VerdictText(v)) == W.Some(v)
  {
    match v
    case Pass =>
    case PassWithWarnings =>
      assert "PASS_WITH_WARNINGS" != "PASS";
    case Fail =>
      assert "FAIL"[0] != "PASS"[0];
  }

  /** Lower case is accepted and normalised. */
  lemma NormalizeVerdictLowerCase()
    ensures NormalizeVerdict("pass") == W.Some(Pass)
  {
    TrimSpaceOfTrimmed("pass");
    assert ToUpper("pass") == "PASS";
  }

  /** A word that is no verdict is refused. */
  lemma NormalizeVerdictRefusesOther()
    ensures NormalizeVerdict("MAYBE") == W.None
  {
    var w := "MAYBE";
    UpperWordNormal(w);
    VerdictNamedInitial(w);
  }

  /** A word that starts with neither `P` nor `F` names no verdict. */
  lemma VerdictNamedInitial(word: string)
    requires word != [] && word[0] != 'P' && word[0] != 'F'
    ensures VerdictNamed(word).None?
  {
    assert forall v :: VerdictText(v)[0] == 'P' || VerdictText(v)[0] == 'F';
  }

  /** Why the tool refused. */
  datatype ValidateError =
    | MissingArgument(name: string)
    | InvalidVerdict(given: string)
    | NotAtValidate(cause: PipelineError)
    | EmptyArtifact(filename: string)

  /** The names of the required arguments, in the order the handler checks them. */
  const RequiredNames: seq<string> := ["requirements_coverage", "component_coverage", "consistency_issues", "verdict"]

  /** The values of the required arguments, in the same order. */
  function RequiredValues(args: ValidateArgs): seq<string>
  {
    [args.requirementsCoverage, args.componentCoverage, args.consistencyIssues, args.verdict]
  }

  /**
   * The argument checks: the first empty required argument in the fixed order is the one
   * reported; with all four present, an unrecognised verdict is refused; otherwise the
   * normalised verdict.
   */
  function CheckArguments(args: ValidateArgs): (r: W.Result<Verdict, ValidateError>)
    ensures r.Failure? && r.error.MissingArgument? <==> "" in RequiredValues(args)
    ensures r.Failure? && r.error.MissingArgument? ==>
      exists i :: 0 <= i < 4 && RequiredValues(args)[i] == "" && r.error.name == RequiredNames[i]
        && forall j :: 0 <= j < i ==> RequiredValues(args)[j] != ""
    ensures r.Failure? && r.error.InvalidVerdict? <==>
      "" !in RequiredValues(args) && NormalizeVerdict(args.verdict).None?
    ensures r.Failure? ==> r.error.MissingArgument? || r.error == InvalidVerdict(args.verdict)
    ensures r.Success? ==> NormalizeVerdict(args.verdict) == W.Some(r.value)
  {
    var missing := FirstIndex(RequiredValues(args), "");
    if 0 <= missing then
      W.Failure(MissingArgument(RequiredNames[missing]))
    else
      match NormalizeVerdict(args.verdict)
      case None => W.Failure(InvalidVerdict(args.verdict))
      case Some(v) => W.Success(v)
  }

  /** The stages whose artifacts must have content before validation, in the order they are read. */
  const PriorStages: seq<Stage> := [StagePropose, StageSpecify, StageClarify, StageDesign, StageTasks]

  /** Every artifact of `stages` has content. */
  predicate ArtifactsPresent(projectRoot: string, readFile: string -> string, stages: seq<Stage>)
  {
    forall k :: 0 <= k < |stages| ==> readFile(StagePath(projectRoot, stages[k])) != ""
  }

  /** The first earlier stage whose artifact is empty, if any. */
  function FirstEmptyArtifact(projectRoot: string, readFile: string -> string, stages: seq<Stage>): (r: W.Option<Stage>)
    ensures r.None? <==> ArtifactsPresent(projectRoot, readFile, stages)
    ensures r.Some? ==> r.value in stages && readFile(StagePath(projectRoot, r.value)) == ""
    ensures r.Some? ==> (exists i :: 0 <= i < |stages| && stages[i] == r.value
                                     && ArtifactsPresent(projectRoot, readFile, stages[..i]))
  {
    if stages == [] then W.None
    else if readFile(StagePath(projectRoot, stages[0])) == "" then
      assert stages[..0] == [];
      W.Some(stages[0])
    else
      var rest := FirstEmptyArtifact(projectRoot, readFile, stages[1..]);
      FirstEmptyStep(projectRoot, readFile, stages, rest);
      rest
  }

  /** An empty artifact found after a present first one is the first empty one of the whole list. */
  lemma FirstEmptyStep(projectRoot: string, readFile: string -> string, stages: seq<Stage>, rest: W.Option<Stage>)
    requires stages != [] && readFile(StagePath(projectRoot, stages[0])) != ""
    requires rest.None? <==> ArtifactsPresent(projectRoot, readFile, stages[1..])
    requires rest.Some? ==> (exists i :: 0 <= i < |stages[1..]| && stages[1..][i] == rest.value
                                         && ArtifactsPresent(projectRoot, readFile, stages[1..][..i]))
    ensures rest.None? <==> ArtifactsPresent(projectRoot, readFile, stages)
    ensures rest.Some? ==> (exists i :: 0 <= i < |stages| && stages[i] == rest.value
                                        && ArtifactsPresent(projectRoot, readFile, stages[..i]))
  {
    PresentCons(projectRoot, readFile, stages);
    if rest.Some? {
      var i :| 0 <= i < |stages[1..]| && stages[1..][i] == rest.value
               && ArtifactsPresent(projectRoot, readFile, stages[1..][..i]);
      PresentShift(projectRoot, readFile, stages, i);
      assert 0 <= i + 1 < |stages| && stages[i + 1] == rest.value
             && ArtifactsPresent(projectRoot, readFile, stages[..i + 1]);
    }
  }

  /** A present first artifact followed by `i` present ones of the tail makes `i + 1` present ones. */
  lemma PresentShift(projectRoot: string, readFile: string -> string, stages: seq<Stage>, i: int)
    requires 0 <= i < |stages| - 1 && readFile(StagePath(projectRoot, stages[0])) != ""
    requires ArtifactsPresent(projectRoot, readFile, stages[1..][..i])
    ensures ArtifactsPresent(projectRoot, readFile, stages[..i + 1]) && stages[i + 1] == stages[1..][i]
  {
    PresentCons(projectRoot, readFile, stages[..i + 1]);
    assert stages[..i + 1][1..] == stages[1..][..i];
  }

  /** A list's artifacts are present exactly when its first one and those of its tail are. */
  lemma PresentCons(projectRoot: string, readFile: string -> string, stages: seq<Stage>)
    requires stages != []
    ensures ArtifactsPresent(projectRoot, readFile, stages)
            <==> readFile(StagePath(projectRoot, stages[0])) != "" && ArtifactsPresent(projectRoot, readFile, stages[1..])
  {
    assert forall k :: 1 <= k < |stages| ==> stages[k] == stages[1..][k - 1];
  }

  /** The report that is written: the normalised verdict, the arguments, and the placeholders for the optional two. */
  datatype ValidationReport = ValidationReport(
    verdict: Verdict,
    requirementsCoverage: string,
    componentCoverage: string,
    consistencyIssues: string,
    riskAssessment: string,
    recommendations: string)

  const NoRisks: string := "_No specific risks identified._"
  const NoRecommendations: string := "_No additional recommendations._"

  /** An empty optional argument becomes its placeholder; a given one is kept. */
  function OrPlaceholder(given: string, placeholder: string): (s: string)
    ensures given != "" ==> s == given
    ensures given == "" ==> s == placeholder
  {
    if given == "" then placeholder else given
  }

  /** One step of the search: the head when its artifact is empty, the search of the tail otherwise. */
  lemma FirstEmptyUnfold(projectRoot: string, readFile: string -> string, stages: seq<Stage>)
    requires stages != []
    ensures readFile(StagePath(projectRoot, stages[0])) == "" ==>
      FirstEmptyArtifact(projectRoot, readFile, stages) == W.Some(stages[0])
    ensures readFile(StagePath(projectRoot, stages[0])) != "" ==>
      FirstEmptyArtifact(projectRoot, readFile, stages) == FirstEmptyArtifact(projectRoot, readFile, stages[1..])
  {
  }

  /** The loop over the earlier artifacts: the first empty one, in the order they are read. */
  method CheckArtifacts(projectRoot: string, readFile: string -> string) returns (empty: W.Option<Stage>)
    ensures empty == FirstEmptyArtifact(projectRoot, readFile, PriorStages)
  {
    var i := 0;
    while i < |PriorStages|
      invariant 0 <= i <= |PriorStages|
      invariant FirstEmptyArtifact(projectRoot, readFile, PriorStages) == FirstEmptyArtifact(projectRoot, readFile, PriorStages[i..])
    {
      var content := readFile(StagePath(projectRoot, PriorStages[i]));
      SuffixTail(PriorStages, i);
      FirstEmptyUnfold(projectRoot, readFile, PriorStages[i..]);
      if content == "" {
        return W.Some(PriorStages[i]);
      }
      i := i + 1;
    }
    return W.None;
  }

  /** The report for accepted arguments: the optional two fall back to their placeholders. */
  function ReportFor(verdict: Verdict, args: ValidateArgs): (report: ValidationReport)
    ensures report.verdict == verdict
    ensures report.requirementsCoverage == args.requirementsCoverage
    ensures report.componentCoverage == args.componentCoverage
    ensures report.consistencyIssues == args.consistencyIssues
    ensures report.riskAssessment == OrPlaceholder(args.riskAssessment, NoRisks)
    ensures report.recommendations == OrPlaceholder(args.recommendations, NoRecommendations)
  {
    ValidationReport(verdict, args.requirementsCoverage, args.componentCoverage, args.consistencyIssues,
                     OrPlaceholder(args.riskAssessment, NoRisks), OrPlaceholder(args.recommendations, NoRecommendations))
  }

  /** The status work on success: one more round on `validate`, then completed at `now`. */
  method CompleteValidate(cfg: ProjectConfig, now: string)
    requires cfg.currentStage == StageValidate
    modifies cfg`stageStatus
    ensures cfg.stageStatus == old(cfg.stageStatus)[StageValidate :=
      MarkedCompleted(MarkedInProgress(StatusOf(old(cfg.stageStatus), StageValidate), now), now)]
    ensures old(cfg.WellFormed()) ==> cfg.WellFormed()
  {
    MarkInProgress(cfg, now);
    MarkStageCompleted(cfg, StageValidate, now);
  }

  /**
   * What `Handle` does once the arguments are accepted: the stage must be `validate`, then
   * every earlier artifact must have content; on success the stage gets one more round and
   * is completed at `now`, with no transition.
   */
  method ValidateProject(cfg: ProjectConfig, verdict: Verdict, args: ValidateArgs, projectRoot: string,
                         readFile: string -> string, now: string)
    returns (r: W.Result<ValidationReport, ValidateError>)
    modifies cfg`stageStatus
    ensures old(cfg.currentStage) != StageValidate ==>
      r == W.Failure(NotAtValidate(old(RequireStage(cfg, StageValidate)).error)) && unchanged(cfg)
    ensures (old(cfg.currentStage) == StageValidate && FirstEmptyArtifact(projectRoot, readFile, PriorStages).Some?) ==>
      r == W.Failure(EmptyArtifact(StageFilename(FirstEmptyArtifact(projectRoot, readFile, PriorStages).value)))
      && unchanged(cfg)
    ensures (old(cfg.currentStage) == StageValidate && FirstEmptyArtifact(projectRoot, readFile, PriorStages).None?) ==>
      && r == W.Success(ReportFor(verdict, args))
      && cfg.stageStatus == old(cfg.stageStatus)[StageValidate :=
           MarkedCompleted(MarkedInProgress(StatusOf(old(cfg.stageStatus), StageValidate), now), now)]
      && cfg.currentStage == StageValidate
    ensures old(cfg.WellFormed()) ==> cfg.WellFormed()
  {
    var stageCheck := RequireStage(cfg, StageValidate);
    if stageCheck.Fail? {
      return W.Failure(NotAtValidate(stageCheck.error));
    }
    var empty := CheckArtifacts(projectRoot, readFile);
    if empty.Some? {
      return W.Failure(EmptyArtifact(StageFilename(empty.value)));
    }
    var risks := args.riskAssessment;
    if risks == "" {
      risks := NoRisks;
    }
    var recommendations := args.recommendations;
    if recommendations == "" {
      recommendations := NoRecommendations;
    }
    var report := ValidationReport(verdict, args.requirementsCoverage, args.componentCoverage,
                                   args.consistencyIssues, risks, recommendations);
    CompleteValidate(cfg, now);
    return W.Success(report);
  }

  /**
   * `Handle`: the argument checks come first and touch nothing; then the project checks and
   * the completion of `validate`, after which the stage is completed and every other entry
   * is unchanged.
   */
  method Handle(cfg: ProjectConfig, args: ValidateArgs, projectRoot: string, readFile: string -> string, now: string)
    returns (r: W.Result<ValidationReport, ValidateError>)
    modifies cfg`stageStatus
    ensures CheckArguments(args).Failure? ==> r == W.Failure(CheckArguments(args).error) && unchanged(cfg)
    ensures CheckArguments(args).Success? && old(cfg.currentStage) != StageValidate ==>
      r == W.Failure(NotAtValidate(old(RequireStage(cfg, StageValidate)).error)) && unchanged(cfg)
    ensures (CheckArguments(args).Success? && old(cfg.currentStage) == StageValidate
             && FirstEmptyArtifact(projectRoot, readFile, PriorStages).Some?) ==>
      r == W.Failure(EmptyArtifact(StageFilename(FirstEmptyArtifact(projectRoot, readFile, PriorStages).value)))
      && unchanged(cfg)
    ensures (CheckArguments(args).Success? && old(cfg.currentStage) == StageValidate
             && FirstEmptyArtifact(projectRoot, readFile, PriorStages).None?) ==>
      && r == W.Success(ReportFor(CheckArguments(args).value, args))
      && cfg.stageStatus == old(cfg.stageStatus)[StageValidate :=
           MarkedCompleted(MarkedInProgress(StatusOf(old(cfg.stageStatus), StageValidate), now), now)]
      && IsCompleted(cfg, StageValidate)
    ensures old(cfg.WellFormed()) ==> cfg.WellFormed()
  {
    var checked := CheckArguments(args);
    if checked.Failure? {
      return W.Failure(checked.error);
    }
    r := ValidateProject(cfg, checked.value, args, projectRoot, readFile, now);
  }
}
