/**
 * The clarity gate tool of internal/tools/clarify.go: the parser of caller-supplied
 * `name:score` pairs, the answer round that stores the computed score and advances past
 * `clarify` exactly when the score reaches the threshold, and the order of checks in the
 * tool's handler.
 *
 * `DefaultDimensions` and `CalculateScore` live in a file that is not part of this model;
 * the round takes the default dimension set and the scoring function as parameters and
 * assumes nothing about either.
 */
module ClarifyTool {
  import opened Wrappers
  import opened Text
  import opened Config
  import opened Pipeline

  /** One weighted quality axis of a clarification round. */
  datatype ClarityDimension = ClarityDimension(name: string, description: string, weight: int, score: int, covered: bool)

  /** A dimension counts as covered when its score is above this. */
  const CoveredAbove: int := 30

  function Clamp(v: int): int
  {
    if v < 0 then 0 else if v > 100 then 100 else v
  }

  /**
   * One comma-separated piece of the input: the trimmed name before the first ':' and the
   * integer after it clamped to [0, 100], or None when the piece holds no ':' or no integer.
   */
  function ParsePair(pair: string): (r: Option<(string, int)>)
    ensures r.Some? ==> 0 <= r.value.1 <= 100
    ensures r.Some? ==> ':' !in r.value.0 && Trimmed(r.value.0)
  {
    match SplitAtColon(TrimSpace(pair))
    case None => None
    case Some((before, after)) =>
      match ScanInt(after)
      case None => None
      case Some(v) =>
        Some((TrimSpace(before), Clamp(v)))
  }

  /** A piece without ':' never parses. */
  lemma ParsePairNeedsColon(pair: string)
    requires ':' !in pair
    ensures ParsePair(pair).None?
  {
    TrimSpaceKeepsOut(pair, ':');
  }

  /**
   * A piece is parsed from the text after the first ':' of its trimmed form: refused when
   * `%d` refuses that text, and otherwise the trimmed name with the clamped value.
   */
  lemma ParsePairOf(pair: string, before: string, after: string)
    requires TrimSpace(pair) == before + ":" + after && ':' !in before
    ensures ScanInt(after).None? ==> ParsePair(pair).None?
    ensures ScanInt(after).Some? ==> ParsePair(pair) == Some((TrimSpace(before), Clamp(ScanInt(after).value)))
  {
    SplitAtColonOf(before, after);
  }

  /** `name: 80`, with a blank after the ':', parses to the name and the clamped value. */
  lemma ParsePairSpacedValue(name: string, digits: string)
    requires name != [] && ':' !in name && Trimmed(name)
    requires digits != [] && AllDigits(digits) && DigitsValue(digits) <= MaxInt64
    ensures ParsePair(name + ": " + digits) == Some((name, Clamp(DigitsValue(digits) as int)))
  {
    var pair := name + ": " + digits;
    assert pair[0] == name[0] && pair[|pair| - 1] == digits[|digits| - 1];
    TrimSpaceOfTrimmed(pair);
    assert pair == name + ":" + (" " + digits + []);
    ScanUnsignedDigits(" ", digits, []);
    ParsePairOf(pair, name, " " + digits + []);
    TrimSpaceOfTrimmed(name);
  }

  /** A value that starts with no digit, sign or blank, such as `name:abc`, is skipped. */
  lemma ParsePairRefusesValue(name: string, rest: string)
    requires name != [] && ':' !in name && Trimmed(name)
    requires rest != [] && !IsSpace(rest[|rest| - 1])
    requires !(IsDigit(rest[0]) || IsSpace(rest[0]) || rest[0] == '+' || rest[0] == '-')
    ensures ParsePair(name + ":" + rest).None?
  {
    var pair := name + ":" + rest;
    assert pair[0] == name[0] && pair[|pair| - 1] == rest[|rest| - 1];
    TrimSpaceOfTrimmed(pair);
    ScanRefusesNoNumber([], rest);
    assert [] + rest == rest;
    ParsePairOf(pair, name, rest);
  }

  /** The pair `name:v` as `%d` writes it parses back to the name and the clamped value. */
  lemma PairRoundTrip(name: string, v: int)
    requires ':' !in name && Trimmed(name)
    requires MinInt64 <= v <= MaxInt64
    ensures ParsePair(name + ":" + FormatInt(v)) == Some((name, Clamp(v)))
  {
    var digits := FormatInt(v);
    var pair := name + ":" + digits;
    assert !IsSpace(digits[|digits| - 1]) by {
      assert FormatNat(if v < 0 then -v else v) == digits[|digits| - |FormatNat(if v < 0 then -v else v)|..];
    }
    assert pair[|pair| - 1] == digits[|digits| - 1];
    assert name != [] ==> pair[0] == name[0];
    TrimSpaceOfTrimmed(pair);
    SplitAtColonOf(name, digits);
    TrimSpaceOfTrimmed(name);
    ScanFormat(v);
  }

  /** A parsed piece that names `name`. */
  predicate Names(parsed: Option<(string, int)>, name: string)
  {
    parsed.Some? && parsed.value.0 == name
  }

  /** The parse of each comma-separated piece, in order. */
  function ParsedPieces(pieces: seq<string>): (r: seq<Option<(string, int)>>)
    ensures |r| == |pieces| && forall k :: 0 <= k < |pieces| ==> r[k] == ParsePair(pieces[k])
    ensures ScoresInRange(r)
  {
    seq(|pieces|, k requires 0 <= k < |pieces| => ParsePair(pieces[k]))
  }

  /** The score table built from the parsed pieces in order: a later pair for a name replaces an earlier one. */
  function ScoreMap(parsed: seq<Option<(string, int)>>): (m: map<string, int>)
  {
    if parsed == [] then map[]
    else
      var m := ScoreMap(parsed[..|parsed| - 1]);
      match parsed[|parsed| - 1]
      case None => m
      case Some((name, score)) => m[name := score]
  }

  /** One more piece updates the table of the pieces before it. */
  lemma ScoreMapStep(parsed: seq<Option<(string, int)>>, i: int)
    requires 0 <= i < |parsed|
    ensures parsed[i].None? ==> ScoreMap(parsed[..i + 1]) == ScoreMap(parsed[..i])
    ensures parsed[i].Some? ==> ScoreMap(parsed[..i + 1]) == ScoreMap(parsed[..i])[parsed[i].value.0 := parsed[i].value.1]
  {
    assert parsed[..i + 1][..i] == parsed[..i];
  }

  /** A name is in the table exactly when some piece names it. */
  lemma {:induction false} ScoreMapKeys(parsed: seq<Option<(string, int)>>, name: string)
    ensures name in ScoreMap(parsed) <==> exists j :: 0 <= j < |parsed| && Names(parsed[j], name)
  {
    if parsed != [] {
      var init := parsed[..|parsed| - 1];
      ScoreMapKeys(init, name);
      if exists j :: 0 <= j < |init| && Names(init[j], name) {
        var j :| 0 <= j < |init| && Names(init[j], name);
        assert parsed[j] == init[j];
      }
      if exists j :: 0 <= j < |parsed| && Names(parsed[j], name) {
        var j :| 0 <= j < |parsed| && Names(parsed[j], name);
        if j < |init| {
          assert init[j] == parsed[j];
        }
      }
    }
  }

  /** The last piece that names a dimension decides its score. */
  lemma {:induction false} ScoreMapLastWins(parsed: seq<Option<(string, int)>>, j: int)
    requires 0 <= j < |parsed| && parsed[j].Some?
    requires forall k :: j < k < |parsed| ==> !Names(parsed[k], parsed[j].value.0)
    ensures parsed[j].value.0 in ScoreMap(parsed)
    ensures ScoreMap(parsed)[parsed[j].value.0] == parsed[j].value.1
  {
    if j < |parsed| - 1 {
      var init := parsed[..|parsed| - 1];
      assert init[j] == parsed[j];
      forall k | j < k < |init| ensures !Names(init[k], init[j].value.0) {
        assert init[k] == parsed[k];
      }
      ScoreMapLastWins(init, j);
      assert !Names(parsed[|parsed| - 1], parsed[j].value.0);
    }
  }

  /** Every parsed score is in [0, 100]. */
  predicate ScoresInRange(parsed: seq<Option<(string, int)>>)
  {
    forall k :: 0 <= k < |parsed| && parsed[k].Some? ==> 0 <= parsed[k].value.1 <= 100
  }

  /** Every score in the table is a clamped one, in [0, 100]. */
  lemma {:induction false} ScoreMapInRange(parsed: seq<Option<(string, int)>>)
    requires ScoresInRange(parsed)
    ensures forall n :: n in ScoreMap(parsed) ==> 0 <= ScoreMap(parsed)[n] <= 100
  {
    if parsed != [] {
      ScoreMapInRange(parsed[..|parsed| - 1]);
    }
  }

  /** Pieces without any ':' (the empty string among them) score nothing. */
  lemma {:induction false} NoColonNoScores(pieces: seq<string>)
    requires forall k :: 0 <= k < |pieces| ==> ':' !in pieces[k]
    ensures ScoreMap(ParsedPieces(pieces)) == map[]
  {
    if pieces != [] {
      var init := pieces[..|pieces| - 1];
      assert ParsedPieces(pieces)[..|pieces| - 1] == ParsedPieces(init);
      NoColonNoScores(init);
      ParsePairNeedsColon(pieces[|pieces| - 1]);
    }
  }

  /** The score table of a whole `dimension_scores` argument. */
  function ScoresOf(input: string): map<string, int>
  {
    ScoreMap(ParsedPieces(Split(input, ',')))
  }

  /** Empty input and input without any ':' give an empty score table. */
  lemma NoColonInputScoresNothing(input: string)
    requires ':' !in input
    ensures ScoresOf(input) == map[]
  {
    SplitKeepsOut(input, ',', ':');
    NoColonNoScores(Split(input, ','));
  }

  /** The first loop of `parseDimensionScores`: the score table of the input. */
  method BuildScoreMap(input: string) returns (scores: map<string, int>)
    ensures scores == ScoresOf(input)
  {
    var pairs := Split(input, ',');
    scores := ScorePieces(pairs);
  }

  /** The loop over the comma-separated pieces: each parsed pair writes its name's entry. */
  method ScorePieces(pairs: seq<string>) returns (scores: map<string, int>)
    ensures scores == ScoreMap(ParsedPieces(pairs))
  {
    ghost var all := ParsedPieces(pairs);
    scores := map[];
    for i := 0 to |pairs|
      invariant scores == ScoreMap(all[..i])
    {
      var parsed := ParsePair(pairs[i]);
      assert parsed == all[i];
      ScoreMapStep(all, i);
      if parsed.Some? {
        scores := scores[parsed.value.0 := parsed.value.1];
      }
    }
    assert all[..|pairs|] == all;
  }

  /** A dimension after the round: only its score and coverage change, and only when the table names it. */
  function Scored(d: ClarityDimension, scores: map<string, int>): (r: ClarityDimension)
    ensures r.name == d.name && r.description == d.description && r.weight == d.weight
    ensures d.name in scores ==> r.score == scores[d.name] && (r.covered <==> r.score > CoveredAbove)
    ensures d.name !in scores ==> r == d
  {
    if d.name in scores then d.(score := scores[d.name], covered := scores[d.name] > CoveredAbove) else d
  }

  function ScoredDimensions(dims: seq<ClarityDimension>, scores: map<string, int>): (r: seq<ClarityDimension>)
    ensures |r| == |dims| && forall k :: 0 <= k < |dims| ==> r[k] == Scored(dims[k], scores)
  {
    seq(|dims|, k requires 0 <= k < |dims| => Scored(dims[k], scores))
  }

  /**
   * `parseDimensionScores`: writes each named dimension's score and coverage in place; the
   * array's length, order, names, descriptions and weights stay as they were.
   */
  method ParseDimensionScores(input: string, dims: array<ClarityDimension>)
    modifies dims
    ensures dims[..] == ScoredDimensions(old(dims[..]), ScoresOf(input))
  {
    var scores := BuildScoreMap(input);
    ApplyScores(scores, dims);
  }

  /** The second loop of `parseDimensionScores`: the table's scores written into the named dimensions. */
  method ApplyScores(scores: map<string, int>, dims: array<ClarityDimension>)
    modifies dims
    ensures dims[..] == ScoredDimensions(old(dims[..]), scores)
  {
    for i := 0 to dims.Length
      invariant forall k :: 0 <= k < i ==> dims[k] == Scored(old(dims[k]), scores)
      invariant forall k :: i <= k < dims.Length ==> dims[k] == old(dims[k])
    {
      if dims[i].name in scores {
        var score := scores[dims[i].name];
        dims[i] := dims[i].(score := score, covered := score > CoveredAbove);
      }
    }
  }

  /** The dimensions a round scores: the defaults with the round's parsed scores written in. */
  function RoundDimensions(defaults: seq<ClarityDimension>, dimensionScores: string): seq<ClarityDimension>
  {
    ScoredDimensions(defaults, ScoresOf(dimensionScores))
  }

  /** What the tool reports back. */
  datatype ClarifyReply =
    | AnalysisFramework(threshold: int)
    | GatePassed(score: int, threshold: int)
    | MoreClarificationNeeded(score: int, threshold: int)

  datatype ClarifyError = NotAtClarify(cause: PipelineError) | RequirementsEmpty

  /**
   * The scoring half of `processAnswers`: a fresh copy of the default dimensions, the
   * caller's scores written in when the argument is not empty, and the weighted score.
   */
  method RoundScore(dimensionScores: string, defaults: seq<ClarityDimension>,
                    calculateScore: seq<ClarityDimension> -> int)
    returns (score: int)
    ensures score == calculateScore(RoundDimensions(defaults, dimensionScores))
  {
    var dims := new ClarityDimension[|defaults|](k requires 0 <= k < |defaults| => defaults[k]);
    assert dims[..] == defaults;
    if dimensionScores != "" {
      ParseDimensionScores(dimensionScores, dims);
    } else {
      NoColonInputScoresNothing(dimensionScores);
      assert ScoredDimensions(defaults, map[]) == defaults;
    }
    score := calculateScore(dims[..]);
  }

  /**
   * The gate half of `processAnswers`: the round's score is stored, and the project
   * advances to `design` exactly when the score reaches the threshold; a failing round
   * leaves the stage and the statuses alone.
   */
  method ApplyGate(cfg: ProjectConfig, newScore: int, threshold: int, now: string) returns (reply: ClarifyReply)
    requires cfg.currentStage == StageClarify && threshold == ClarityThreshold(cfg.mode)
    modifies cfg`clarityScore, cfg`currentStage, cfg`stageStatus
    ensures cfg.clarityScore == newScore
    ensures newScore >= threshold ==>
      && reply == GatePassed(newScore, threshold)
      && cfg.currentStage == StageDesign
      && cfg.stageStatus ==
           old(cfg.stageStatus)
             [StageClarify := MarkedCompleted(StatusOf(old(cfg.stageStatus), StageClarify), now)]
             [StageDesign := MarkedInProgress(StatusOf(old(cfg.stageStatus), StageDesign), now)]
    ensures newScore < threshold ==>
      && reply == MoreClarificationNeeded(newScore, threshold)
      && cfg.currentStage == StageClarify && cfg.stageStatus == old(cfg.stageStatus)
    ensures StatusOf(cfg.stageStatus, StageClarify).iterations == StatusOf(old(cfg.stageStatus), StageClarify).iterations
    ensures old(cfg.WellFormed()) ==> cfg.WellFormed()
  {
    cfg.clarityScore := newScore;
    if newScore >= threshold {
      ClarifyGateOpens(cfg);
      var advanced := Advance(cfg, now);
      assert advanced.Pass?;
      reply := GatePassed(newScore, threshold);
    } else {
      reply := MoreClarificationNeeded(newScore, threshold);
    }
  }

  /**
   * `processAnswers`: the round's score from the parsed dimensions, then the gate.
   */
  method ProcessAnswers(cfg: ProjectConfig, dimensionScores: string, defaults: seq<ClarityDimension>,
                        calculateScore: seq<ClarityDimension> -> int, threshold: int, now: string)
    returns (reply: ClarifyReply)
    requires cfg.currentStage == StageClarify && threshold == ClarityThreshold(cfg.mode)
    modifies cfg`clarityScore, cfg`currentStage, cfg`stageStatus
    ensures cfg.clarityScore == calculateScore(RoundDimensions(defaults, dimensionScores))
    ensures cfg.clarityScore >= threshold ==>
      && reply == GatePassed(cfg.clarityScore, threshold)
      && cfg.currentStage == StageDesign
      && cfg.stageStatus ==
           old(cfg.stageStatus)
             [StageClarify := MarkedCompleted(StatusOf(old(cfg.stageStatus), StageClarify), now)]
             [StageDesign := MarkedInProgress(StatusOf(old(cfg.stageStatus), StageDesign), now)]
    ensures cfg.clarityScore < threshold ==>
      && reply == MoreClarificationNeeded(cfg.clarityScore, threshold)
      && cfg.currentStage == StageClarify && cfg.stageStatus == old(cfg.stageStatus)
    ensures StatusOf(cfg.stageStatus, StageClarify).iterations == StatusOf(old(cfg.stageStatus), StageClarify).iterations
    ensures old(cfg.WellFormed()) ==> cfg.WellFormed()
  {
    var newScore := RoundScore(dimensionScores, defaults, calculateScore);
    reply := ApplyGate(cfg, newScore, threshold, now);
  }

  /**
   * `Handle`: refuses unless the project is at `clarify`, then refuses empty requirements;
   * otherwise it counts one more round on `clarify` before either branch, hands out the
   * analysis framework when there are no answers, and processes the answers otherwise.
   * `requirements` is the content of the requirements artifact the tool reads.
   */
  method Handle(cfg: ProjectConfig, answers: string, dimensionScores: string, requirements: string,
                defaults: seq<ClarityDimension>, calculateScore: seq<ClarityDimension> -> int, now: string)
    returns (r: Result<ClarifyReply, ClarifyError>)
    modifies cfg`clarityScore, cfg`currentStage, cfg`stageStatus
    ensures old(cfg.currentStage) != StageClarify ==>
      r == Failure(NotAtClarify(old(RequireStage(cfg, StageClarify)).error)) && unchanged(cfg)
    ensures old(cfg.currentStage) == StageClarify && requirements == "" ==>
      r == Failure(RequirementsEmpty) && unchanged(cfg)
    ensures old(cfg.currentStage) == StageClarify && requirements != "" ==>
      var entered := old(cfg.stageStatus)[StageClarify := MarkedInProgress(StatusOf(old(cfg.stageStatus), StageClarify), now)];
      var threshold := ClarityThreshold(cfg.mode);
      var score := calculateScore(RoundDimensions(defaults, dimensionScores));
      && StatusOf(cfg.stageStatus, StageClarify).iterations == StatusOf(old(cfg.stageStatus), StageClarify).iterations + 1
      && (answers == "" ==>
            && r == Success(AnalysisFramework(threshold))
            && cfg.currentStage == StageClarify && cfg.stageStatus == entered
            && cfg.clarityScore == old(cfg.clarityScore))
      && (answers != "" && score < threshold ==>
            && r == Success(MoreClarificationNeeded(score, threshold))
            && cfg.currentStage == StageClarify && cfg.stageStatus == entered
            && cfg.clarityScore == score)
      && (answers != "" && score >= threshold ==>
            && r == Success(GatePassed(score, threshold))
            && cfg.currentStage == StageDesign
            && cfg.stageStatus ==
                 entered
                   [StageClarify := MarkedCompleted(StatusOf(entered, StageClarify), now)]
                   [StageDesign := MarkedInProgress(StatusOf(entered, StageDesign), now)]
            && cfg.clarityScore == score)
    ensures old(cfg.WellFormed()) ==> cfg.WellFormed()
  {
    var stageCheck := RequireStage(cfg, StageClarify);
    if stageCheck.Fail? {
      return Failure(NotAtClarify(stageCheck.error));
    }
    if requirements == "" {
      return Failure(RequirementsEmpty);
    }
    MarkInProgress(cfg, now);
    var threshold := ClarityThreshold(cfg.mode);
    if answers == "" {
      return Success(AnalysisFramework(threshold));
    }
    var reply := ProcessAnswers(cfg, dimensionScores, defaults, calculateScore, threshold, now);
    return Success(reply);
  }
}
