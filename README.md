# sdd-hoffy pipeline core in Dafny

sdd-hoffy is an MCP server that walks a project through spec-driven development in seven
fixed stages: init, propose, specify, clarify, design, tasks and validate. Every stage
tool from propose to validate checks that the project is at its own stage and records a
round of work on that stage. Propose, specify, design and tasks then advance the pipeline.
Clarify advances only when a round of answers passes the Clarity Gate: the weighted
clarity score must reach 70 in guided mode and 50 in expert mode. A clarify round without
answers only hands out the questions. Validate completes the last stage and does not
advance. The context tool (`sdd_get_context`) only reads: it checks no stage and changes
nothing.

This project models that core:

- `wrappers.dfy`: `Option`, `Result`, `Outcome`, and a few sequence facts (first index, distinctness).
- `text.dfy`: the parts of Go's `strings` and `fmt` that the tools rely on. These are
  `TrimSpace`, `Split`, `SplitN(…, ":", 2)`, `ToUpper` as far as it can yield ASCII, and
  `Sscanf("%d")` with its 64-bit range, plus a decimal formatter used to state round trips.
- `config.dfy` (`internal/config/config.go`): the stage order, the stage metadata table,
  the artifact file names, the stage paths (emptiness only), and the `ProjectConfig` class.
  Its constructor is `NewProjectConfig`. A configuration is well-formed (`WellFormed`) when
  every stage has a status entry and the current stage is one of the seven; the
  constructor establishes this and every operation that changes the configuration keeps it.
- `pipeline.dfy` (`internal/pipeline/state.go`): the state machine. This covers the
  thresholds, `StageIndex`, `CanAdvance`, `Advance`, `MarkInProgress`, `IsCompleted`,
  `RequireStage`, and the record updates `markCompleted` and `markInProgress`. It also
  contains a walk from a fresh project to the final stage.
- `clarify.dfy` (`internal/tools/clarify.go`): the dimension-score parser, in two forms.
  One is the scoring table as a fold over the parsed pairs; the other is the two loops that
  build it and write it into the dimension array in place. The file also models the gate
  decision in `processAnswers` and the order of checks in `Handle`.
- `context.dfy` (`internal/tools/context.go`): the status symbols, the next-step guidance,
  the duplicated threshold, the guard that reads a stage's artifact, and the content of the
  overview. The overview content is the clarity line, the progress rows and the artifact lines.
- `validate.dfy` (`internal/tools/validate.go`): the required arguments in their fixed
  order, the verdict normalisation, the stage check, the check of the five earlier
  artifacts, and the completion of `validate` without a transition.

`ProjectConfig` is a class because the handlers change a loaded configuration in place.
Each method's `modifies` clause names the fields it may change, and its `ensures` gives
their new values in terms of the old ones.

Stages and modes are strings, as in Go, so unknown values exist and are handled. A map
lookup of a missing stage yields the zero `StageStatus`, as Go does (`Config.StatusOf`).

Several inputs are parameters:

- The clock is a `now` string.
- File contents come from a `readFile` function from path to content, where `""` means missing.
- The weighted score comes from `calculateScore` and the default dimensions from `defaults`.
  Both are defined outside the modelled files.

## Model

| member | source | states |
|---|---|---|
| Config.StageOrderShape | internal/config/config.go:50-58 | the order has exactly seven pairwise distinct stages, starting at init and ending at validate |
| Config.MetadataOrderIsPosition | internal/config/config.go:68-76 | every stage's metadata `Order` is its position in the stage order, and its display name is not empty |
| Config.ProjectConfig.constructor | internal/config/config.go:103-128 | a new project starts at propose with score 0, the given mode, version 0.1.0 and created == updated == now; it has a status entry for exactly the stages of the order; init is completed once (started == completed == now); every other stage is pending with no rounds |
| Config.StageFilename | internal/config/config.go:152-164 | a file name exists exactly for the six stages after init |
| Config.StageFilenamesDistinct | internal/config/config.go:157-164 | two different stages never share an artifact file name |
| Config.StagePath | internal/config/config.go:143-149 | the path is empty exactly when the stage has no file name |
| Pipeline.ClarityThreshold | internal/pipeline/state.go:24-29 | 50 for expert mode, 70 for every other mode string |
| Pipeline.StageIndex | internal/pipeline/state.go:34-41 | the loop returns the position of a known stage and -1 exactly for a string outside the order; this is the same first-occurrence position `CanAdvance` and `Successor` use |
| Pipeline.CanAdvance | internal/pipeline/state.go:46-67 | passes exactly at a known non-final stage whose gate is met; the gate refusal happens exactly at clarify below the mode's threshold (equal passes); unknown-stage and final-stage refusals happen exactly in their cases |
| Pipeline.Successor | internal/pipeline/state.go:76-77 | the next stage is a known stage one position later, never init |
| Pipeline.SuccessorAt | internal/pipeline/state.go:76-77 | the stage after position k is the stage at position k + 1 |
| Pipeline.ClarifyGateOpens | internal/pipeline/state.go:47-66 | at clarify with a score at or above the threshold the pipeline may advance, and the next stage is design |
| Pipeline.MarkedCompleted | internal/pipeline/state.go:116-121 | the record becomes completed at now; start time and round count are kept |
| Pipeline.MarkedInProgress | internal/pipeline/state.go:123-131 | the record becomes in progress with one more round; a non-empty start time is kept and an empty one becomes now |
| Pipeline.MarkStageCompleted | internal/pipeline/state.go:116-121 | only that stage's entry changes, to the completed record |
| Pipeline.MarkStageInProgress | internal/pipeline/state.go:123-131 | only that stage's entry changes, to the in-progress record |
| Pipeline.Advance | internal/pipeline/state.go:71-87 | returns the refusal of `CanAdvance` and then changes nothing; otherwise the old stage is completed, the successor becomes current and in progress, every other entry is unchanged, and the old stage counts as completed while the new one does not |
| Pipeline.MarkInProgress | internal/pipeline/state.go:90-92 | only the current stage's entry changes, to the in-progress record, and the current stage stays |
| Pipeline.IsCompleted | internal/pipeline/state.go:95-98 | true exactly when the stage has an entry whose status is completed |
| Pipeline.RequireStage | internal/pipeline/state.go:102-112 | passes exactly at the expected stage, whatever the score; the refusal names both stages and their display names |
| Pipeline.WalkFromNewProject | internal/pipeline/state.go:71-87 | from a fresh project whose score meets its mode's threshold, five advances visit specify, clarify, design, tasks and validate, and a sixth is refused as already at the final stage |
| Text.TrimSpace | internal/tools/clarify.go:262-266 | the result has no white space at either end, and it is empty exactly when the input is all white space |
| Text.TrimSpaceStrips | internal/tools/clarify.go:262-266 | the trimmed string is a slice of the input, and everything outside that slice is white space |
| Text.TrimSpaceOfTrimmed | internal/tools/clarify.go:266 | trimming leaves a string without surrounding white space as it is |
| Text.TrimSpaceKeepsOut | internal/tools/clarify.go:262 | trimming adds no character |
| Text.Split | internal/tools/clarify.go:258 | at least one part, none of them containing the separator |
| Text.SplitKeepsOut | internal/tools/clarify.go:258 | a character missing from the input is missing from every part |
| Text.JoinSplit | internal/tools/clarify.go:258 | joining the parts with the separator gives back the input |
| Text.SplitJoin | internal/tools/clarify.go:258 | splitting a join of separator-free parts gives back the parts |
| Text.SplitAtColon | internal/tools/clarify.go:262-265 | absent exactly when there is no colon; otherwise the halves around the first colon |
| Text.SplitAtColonOf | internal/tools/clarify.go:262-265 | a colon-free head is split off exactly |
| Text.ToUpper | internal/tools/validate.go:111 | same length, each character upper-cased |
| Text.UpperWordNormal | internal/tools/validate.go:111-112 | a word of upper-case letters and underscores is unchanged by trimming and upper-casing |
| Text.ScanInt | internal/tools/clarify.go:267-268 | a scanned value lies in the 64-bit range |
| Text.ScanFormat | internal/tools/clarify.go:267-268 | scanning the decimal form of any 64-bit value gives that value back |
| Text.ScanRefusesNewline | internal/tools/clarify.go:267 | `%d` refuses input whose leading white space contains a newline |
| Text.ScanRefusesNoNumber | internal/tools/clarify.go:267 | `%d` refuses input where, after the blanks, nothing is left or the next character is not a digit, a sign or white space (`abc`, the empty value of `a:`) |
| Text.ScanRefusesBareSign | internal/tools/clarify.go:267 | `%d` refuses a sign that is not followed by a digit |
| Text.ScanUnsignedDigits | internal/tools/clarify.go:267 | blanks, digits and a tail that does not start with a digit scan to the digits' value when it fits in 64 bits and are refused otherwise; the tail is ignored (` 80`, `80abc`) |
| Text.ScanSignedDigits | internal/tools/clarify.go:267 | the same after a `+` or `-` sign, with the signed value and the 64-bit range on both sides (`+80`, `-5`) |
| ClarifyTool.ParsePair | internal/tools/clarify.go:261-275 | an accepted pair has a score in [0, 100] and a trimmed, colon-free name |
| ClarifyTool.ParsePairNeedsColon | internal/tools/clarify.go:262-265 | a pair without a colon is skipped |
| ClarifyTool.PairRoundTrip | internal/tools/clarify.go:261-275 | `name:value` for a trimmed, colon-free name and a 64-bit value parses back to the name with the value clamped into [0, 100] |
| ClarifyTool.ParsePairOf | internal/tools/clarify.go:261-275 | with a colon in the trimmed piece, the piece is skipped exactly when `%d` refuses the text after the first colon; otherwise it gives the trimmed name and the clamped value |
| ClarifyTool.ParsePairSpacedValue | internal/tools/clarify.go:261-275 | `name: 80`, with a blank after the colon, gives the name and the clamped value |
| ClarifyTool.ParsePairRefusesValue | internal/tools/clarify.go:261-275 | `name:abc`, a value that starts with no digit, sign or white space, is skipped |
| ClarifyTool.ParsedPieces | internal/tools/clarify.go:261 | one parse per piece, in order, every score in [0, 100] |
| ClarifyTool.ScoreMapStep | internal/tools/clarify.go:261-276 | a skipped pair leaves the table alone; an accepted one overwrites its name's entry |
| ClarifyTool.ScoreMapKeys | internal/tools/clarify.go:261-276 | a name is in the table exactly when some accepted pair names it |
| ClarifyTool.ScoreMapLastWins | internal/tools/clarify.go:275 | a name's score is that of the last accepted pair naming it |
| ClarifyTool.ScoreMapInRange | internal/tools/clarify.go:269-275 | every score in the table lies in [0, 100] |
| ClarifyTool.NoColonNoScores | internal/tools/clarify.go:262-265 | pieces without colons give an empty table |
| ClarifyTool.NoColonInputScoresNothing | internal/tools/clarify.go:257-265 | input without any colon, the empty input included, gives an empty table, so no dimension changes |
| ClarifyTool.BuildScoreMap | internal/tools/clarify.go:257-277 | the first loop's table is the fold over the parsed pieces of the comma split |
| ClarifyTool.ScorePieces | internal/tools/clarify.go:261-277 | the loop's table is the fold over the parsed pieces |
| ClarifyTool.Scored | internal/tools/clarify.go:279-284 | a named dimension takes the table's score and is covered exactly above 30; name, description and weight are kept; an unnamed dimension is unchanged |
| ClarifyTool.ScoredDimensions | internal/tools/clarify.go:279-284 | length and order kept, each dimension scored on its own |
| ClarifyTool.ApplyScores | internal/tools/clarify.go:279-284 | the array is rewritten in place to the scored dimensions of its old contents |
| ClarifyTool.ParseDimensionScores | internal/tools/clarify.go:257-285 | the array's new contents are its old contents scored with the parsed table of the input |
| ClarifyTool.RoundScore | internal/tools/clarify.go:165-171 | the round's score is the weighted score of the defaults with the input's scores written in (none for an empty input) |
| ClarifyTool.ApplyGate | internal/tools/clarify.go:172-217 | the score is stored; at or above the threshold the pipeline moves to design with clarify completed and design in progress; below it the stage and every status stay |
| ClarifyTool.ProcessAnswers | internal/tools/clarify.go:158-217 | the round's score is stored and the gate decides as above on that score |
| ClarifyTool.Handle | internal/tools/clarify.go:67-106 | refused off clarify and with empty requirements, changing nothing; otherwise clarify gets one more round before either branch, the question branch changes nothing else, and the answer branch stores the score and advances exactly when it reaches the threshold; a well-formed configuration stays well-formed |
| ContextTool.StatusIndicator | internal/tools/context.go:158-169 | distinct symbols exactly for completed, in progress and skipped; every other status, pending and unknown ones included, gets the shared default |
| ContextTool.ClarityThresholdForMode | internal/tools/context.go:203-208 | agrees with the pipeline's threshold for every mode |
| ContextTool.Guidance | internal/tools/context.go:173-197 | a guidance text opens with the instruction to use its tool |
| ContextTool.NextStepGuidance | internal/tools/context.go:172-198 | the guidance opens with the tool of the current stage (init and unknown stages get the project-initialisation tool) |
| ContextTool.ReadStageContent | internal/tools/context.go:65-85 | refused exactly for a stage without an artifact, before any read; otherwise the artifact's content, or the stage's not-completed text when it is empty |
| ContextTool.DescribedArtifactNames | internal/tools/context.go:32-37 | of the names the tool's description offers, proposal, requirements and clarifications are refused, while design and tasks are accepted |
| ContextTool.ProgressRows | internal/tools/context.go:112-122 | one row per stage in the stage order, and exactly the current stage's row is marked current |
| ContextTool.ArtifactLines | internal/tools/context.go:125-148 | one line per artifact stage in order, with its line count or not created |
| ContextTool.BuildOverview | internal/tools/context.go:88-155 | the clarity line appears exactly at clarify with score and threshold; the rows and artifacts as above; some row is current exactly when the stage is known; the next steps are the stage's guidance |
| ContextTool.Handle | internal/tools/context.go:42-62 | an empty filter gives the overview of `BuildOverview`: the clarity line exactly at clarify with score and threshold, one row per stage in the stage order, one line per artifact, and the stage's guidance; otherwise the reading of the named stage, refused as above |
| ValidateTool.VerdictNamed | internal/tools/validate.go:112 | a word is accepted exactly when it spells one of the three verdicts |
| ValidateTool.NormalizeVerdict | internal/tools/validate.go:111-116 | accepted exactly when the trimmed, upper-cased argument spells a verdict, and then that verdict |
| ValidateTool.NormalizeVerdictText | internal/tools/validate.go:111-116 | each verdict's own spelling is accepted as that verdict |
| ValidateTool.NormalizeVerdictLowerCase | internal/tools/validate.go:111-116 | "pass" is accepted as PASS |
| ValidateTool.NormalizeVerdictRefusesOther | internal/tools/validate.go:111-116 | "MAYBE" is refused |
| ValidateTool.VerdictNamedInitial | internal/tools/validate.go:112 | a word that starts with neither P nor F names no verdict |
| ValidateTool.CheckArguments | internal/tools/validate.go:97-116 | a missing argument is reported exactly when one of the four required ones is empty, and it is the first empty one in the fixed order; with all four present, the verdict is refused exactly when it does not normalise; otherwise it is the normalised verdict |
| ValidateTool.FirstEmptyArtifact | internal/tools/validate.go:134-151 | none exactly when every listed artifact has content; otherwise an empty one from the list, and every artifact listed before it has content |
| ValidateTool.CheckArtifacts | internal/tools/validate.go:134-151 | the loop stops at the first empty artifact of propose, specify, clarify, design, tasks |
| ValidateTool.OrPlaceholder | internal/tools/validate.go:156-161 | a given value is kept and an empty one becomes the placeholder |
| ValidateTool.ReportFor | internal/tools/validate.go:155-178 | the report carries the normalised verdict, the three coverage arguments as given and the optional two or their placeholders |
| ValidateTool.CompleteValidate | internal/tools/validate.go:153-192 | validate gets one more round and is then completed at now; nothing else changes |
| ValidateTool.ValidateProject | internal/tools/validate.go:128-192 | off validate it is refused with the stage error, and with an empty earlier artifact with that file's name, changing nothing; otherwise the report, validate completed after one more round, and the stage stays validate |
| ValidateTool.Handle | internal/tools/validate.go:88-199 | argument failures come first and change nothing; then the refusals and the success as above; on success validate counts as completed; a well-formed configuration stays well-formed |

## Left out

- Loading and saving `sdd.json`: this is file I/O and JSON. `Save` also overwrites
  `UpdatedAt` with the current time, which the model does not show.
- RFC 3339 formatting of timestamps. A timestamp is an opaque `now` string, and one
  operation uses a single `now`, where Go may read the clock twice.
- `CalculateScore`, `DefaultDimensions` and `UncoveredDimensions` are not part of this
  model. The score and the default dimensions are parameters, and the list of weak
  dimensions in the reply is omitted.
- `findProjectRoot`, `readStageFile` and `writeStageFile` are not part of this model.
  Their I/O errors (the handlers' `nil, err` returns) are not modelled, and neither are the
  writes of the clarifications and validation files.
- Markdown texts: tool replies, the rendered clarifications document, the validation report
  layout and the overview's header lines. Reports and overviews are kept as data; the
  verdict-specific next-step text of the validate reply is not modelled.
- The propose, specify, design and tasks tools, the templates, the server wiring and `main`.
  Their use of the core is the `RequireStage`, `MarkInProgress`, `Advance` sequence
  modelled in `pipeline.dfy`. Specify also reads `ClarityThreshold` for the text of its
  reply (`internal/tools/specify.go:187`).
- Config.StagePath: the path cleaning of `filepath.Join` is not modelled. A stage with a
  file name gets the root, the `sdd` directory and the file name joined by `/`; only
  whether the path is empty matters.
- Text.ToUpper: Go's full Unicode case mapping is not modelled. Only mappings that produce
  ASCII letters are (a–z, dotless i, long s), which decides every comparison with an ASCII
  verdict.
- Text.ScanInt: invalid UTF-8 in the input is not modelled, because strings here are
  sequences of characters. `int` is taken as 64 bits, and a value outside that range is a
  scan error, as `Sscanf` reports it.
- Pipeline.MarkedInProgress: `Iterations` is an unbounded integer. Go's `int` would wrap
  after 2^63 - 1 rounds.
- ContextTool.NextStepGuidance: the contract names the stage's tool at the head of the text
  but does not prove the six tools pairwise distinct. The clarify text's score and threshold
  are shown as decimals through `Text.FormatInt`.

## Notes

The description of `sdd_get_context`'s `stage` parameter (internal/tools/context.go:32-37)
offers artifact names (proposal, requirements, clarifications, design, tasks). The code
looks the value up as a stage name, so proposal, requirements and clarifications are
refused as unknown stages, while design and tasks work because the stage and artifact
names coincide. The model follows the code; `ContextTool.DescribedArtifactNames` states the
consequence.
