# EEsizer core in Dafny

EEsizer sizes analog circuits with a language model in the loop.

An **optimizer** iterates a staged pipeline:
1. It measures the current SPICE netlist.
2. It asks the model for an analysis, then an optimisation plan, then a sized netlist. Each answer passes a validator, and a failed validation ends the iteration with a tagged error.
3. It syntax-checks the sized netlist and may write it over a file on disk, keeping a backup.
4. It ranks the original netlist against the patched one, and reverts the file when the original wins.

The run loop carries the winning netlist into the next iteration. It keeps a history and returns a report.

Underneath the optimizer sit:
- **Tool-chain evaluator**: builds simulation netlists from named tool calls, runs the simulator once and extracts metrics.
- **Netlist text operations**: syntax check, backup/apply/revert, and control-block strip and insert.
- **Simulator-output parsers**: the device operating-point log and the AC/transient data tables.
- **AC and transient metrics**.
- **LLM-output normalisers**: planner and helper functions, plus a deterministic rule-based mock LLM.
- **Output-path helper**.

This project models those components and proves properties of the model.

## How the model is built

Files and modules:
- One file and module per source file:
  - patch.dfy is `NetlistPatch`;
  - builders.dfy is `NetlistBuilders`;
  - oplog.dfy is `Oplog`;
  - parsers.dfy is `Parsers`;
  - metrics.dfy is `Metrics`;
  - paths.dfy is `Paths`;
  - orchestrator.dfy is `Orchestrator`;
  - optimizer.dfy is `Optimizer`;
  - mock.dfy is `MockLlm`;
  - planner.dfy is `Planner`;
  - llm_helpers.dfy is `LlmHelpers`.
- Three shared modules:
  - `Wrappers` holds `Option`/`Result`. A `Failure` carries the message of the exception the source raises.
  - `Text` holds Python's string operations on `seq<char>`: `isspace`, `lower`, `strip`, `split`, `splitlines`, `count`, `rfind` and slicing with clamped bounds.
  - `Json` holds Python's JSON-shaped values: a dict keeps its entries in insertion order. It also holds truthiness, `.get` and `isinstance(x, int)`, under which `bool` is an `int`.

How each kind of source code is modelled:
- Pure source code becomes functions and lemmas.
- Loops become methods with invariants, each proved equal to a specification function:
  - the op-log parser;
  - the orchestrator's build and metric passes;
  - the mock LLM's response builders;
  - the `llm.py` set and list accumulators;
  - the optimizer's run loop.
- Objects that change become classes:
  - `NetlistPatch.FileSystem` is the file system as a `map` from path to content, with a clock feeding a timestamp oracle.
  - `Orchestrator.Simulator` records every netlist it is asked to simulate.
  - `Orchestrator.Orchestrator` holds the run directory, the signals and the simulator.
  - `Optimizer.Optimizer` holds a ghost log of the prompts sent to the model.

Collaborators the source calls but does not define are function-valued parameters or fields:
- the simulator's response;
- `float()` parsing, `str()`/`repr`/`json.dumps`, `json.loads`;
- `numpy` magnitude, `log10` and phase;
- the response validators;
- the LLM provider;
- the `Orchestrator.optimize` ranking;
- the timestamp.

`Optimizer.Optimizer.Run` is proved against `Optimizer.Replay`, which folds `Optimizer.Step` over the iterations. The iteration-level lemmas are stated about `Optimizer.IterationSpec`, the specification of `_run_iteration`.

## Model

| member | source | states |
|---|---|---|
| Paths.MakeRunDir | eesizer/io/paths.py:7-10 | definition: `join(BASE_DIR, run_name)`, without creating the directory; its last component is `run_name` for a slash-free name by `Paths.BasenameOfJoin` |
| Paths.OutBase | eesizer/io/paths.py:19 | definition: `run_dir or OUTPUT_DIR`; its properties are lemmas `Paths.OutPathPlacement` and `Paths.OutPathDefaultsToOutputDir` |
| Paths.OutPath | eesizer/io/paths.py:17-22 | definition of `out_path`; its properties are lemmas `Paths.OutPathPlacement` and `Paths.OutPathDefaultsToOutputDir` |
| Paths.OutputDir | eesizer/io/paths.py:13 | `OUTPUT_DIR` is absolute when the base directory is, and its last component is `output` |
| Paths.OutPathPlacement | eesizer/io/paths.py:17-22 | an absolute name is returned unchanged; a relative name keeps only its basename, and its dirname is the non-empty `run_dir` (without trailing slashes) or else `OUTPUT_DIR` |
| Paths.OutPathDefaultsToOutputDir | eesizer/io/paths.py:19 | with no run directory or an empty one, the base is `OUTPUT_DIR`, so the path is absolute |
| Paths.BasenameIdempotent | eesizer/io/paths.py:22 | taking the basename twice changes nothing, and a basename is never absolute |
| Paths.BasenameOfJoin | eesizer/io/paths.py:22 | the basename of `join(dir, name)` is `name` for a slash-free name |
| Paths.DirnameOfJoin | eesizer/io/paths.py:22 | the dirname of `join(dir, name)` is `dir` without its trailing slashes (or `dir` itself when it is only slashes), for a non-empty `dir` and a slash-free name |
| NetlistPatch.ValidateNetlistSyntax | eesizer/netlist/patch.py:67-90 | definition of `validate_netlist_syntax`; its properties are lemma `NetlistPatch.ValidateVerdict` and the examples below |
| NetlistPatch.ValidateVerdict | eesizer/netlist/patch.py:67-90 | a netlist passes iff it has at least 10 characters, its lower-cased `.control` and `.endc` counts agree, and it contains `.end`; the message is "ok" exactly when it passes, "netlist too short" below 10 characters, and "missing .end or .endc" when only the terminator is missing |
| NetlistPatch.EndcHoldsEnd | eesizer/netlist/patch.py:87-88 | a text containing `.endc` contains `.end`, so the `.endc` disjunct adds nothing |
| NetlistPatch.ValidateRejectsShort | eesizer/netlist/patch.py:77-79 | `None` and "bad" are rejected as too short |
| NetlistPatch.ValidateRejectsUnclosed | eesizer/netlist/patch.py:81-85 | a text with a `.control` but no `.endc` is rejected |
| NetlistPatch.ValidateRejectsUnclosedControl | eesizer/netlist/patch.py:81-85 | the netlist ".control\nrun\n.end\n" is rejected |
| NetlistPatch.ValidateAcceptsMinimalNetlist | eesizer/netlist/patch.py:90 | ".title x\n.end\n" is accepted with "ok" |
| NetlistPatch.Utf8LengthBounds | eesizer/netlist/patch.py:57 | the returned UTF-8 byte count lies between the length and four times the length, and equals the length for ASCII text |
| NetlistPatch.MakeBackupSpec | eesizer/netlist/patch.py:22-33 | definition of `make_backup` on the disk; its properties are the method `NetlistPatch.FileSystem.MakeBackup` and lemmas `NetlistPatch.FreshNames` and `NetlistPatch.ApplyOverExisting` |
| NetlistPatch.ApplySpec | eesizer/netlist/patch.py:36-57 | definition of `apply_netlist_replacement` on the disk; its properties are lemmas `NetlistPatch.ApplyOverExisting`, `NetlistPatch.ApplyOverMissing` and `NetlistPatch.ApplyThenRevertRestores` |
| NetlistPatch.RevertSpec | eesizer/netlist/patch.py:60-64 | definition of `revert_backup` on the file map; its properties are lemmas `NetlistPatch.RevertMeaning` and `NetlistPatch.ApplyThenRevertRestores` |
| NetlistPatch.RevertMeaning | eesizer/netlist/patch.py:60-64 | a revert succeeds iff the backup exists, is not the target itself and the target path is non-empty; reverting a file onto itself raises `SameFileError`; on success the target gets the backup's content and every other file is unchanged |
| NetlistPatch.FreshNames | eesizer/netlist/patch.py:29-52 | the backup name and the temporary name differ from the target and from each other |
| NetlistPatch.ApplyOverExisting | eesizer/netlist/patch.py:36-57 | over an existing target, apply returns the backup path and the byte count; the backup holds the old content, the target holds the new text, the temporary file is gone, and nothing else changes |
| NetlistPatch.ApplyOverMissing | eesizer/netlist/patch.py:46-57 | over a missing target, no backup is made, "" is returned as the backup, the target holds the new text, and nothing else changes |
| NetlistPatch.ApplyThenRevertRestores | eesizer/netlist/patch.py:36-64 | reverting with the backup that apply returned gives the target back its original content; the rest of the disk is as before, plus the backup |
| NetlistPatch.RevertWithoutBackupFails | eesizer/netlist/patch.py:60-64 | after applying over a missing file, reverting with the returned "" raises the missing-backup error |
| NetlistPatch.FileSystem.constructor | eesizer/netlist/patch.py:17-22 | the file system starts with the given files and a zero clock |
| NetlistPatch.FileSystem.Timestamp | eesizer/netlist/patch.py:17-19 | each timestamp is the oracle's value at the current tick, and the clock advances by one |
| NetlistPatch.FileSystem.MakeBackup | eesizer/netlist/patch.py:22-33 | a missing file raises `FileNotFoundError(path)`; otherwise a copy is made under `<dir or ".">/<base>.bak.<ts>` and its path is returned |
| NetlistPatch.FileSystem.ApplyNetlistReplacement | eesizer/netlist/patch.py:36-57 | backs up an existing target, writes a temporary sibling and renames it over the target, as the specification of apply |
| NetlistPatch.FileSystem.RevertBackup | eesizer/netlist/patch.py:60-64 | a missing backup, a backup that is the target itself (`shutil.SameFileError`) or an empty target raise and leave the files unchanged; otherwise the backup's content is copied over the target |
| NetlistBuilders.StripControlBlocks | eesizer/sim/netlist_builders.py:5-10 | definition: the substitution of the control-block pattern by "", as a scanner; its properties are lemmas `NetlistBuilders.StripBounds`, `NetlistBuilders.StripIdempotent`, `NetlistBuilders.StrippedHasNoBlock` and `NetlistBuilders.CleanIsFixed` |
| NetlistBuilders.StripBounds | eesizer/sim/netlist_builders.py:5-10 | stripping never lengthens the text, and a text without `.control` is returned unchanged |
| NetlistBuilders.StripFromShorter | eesizer/sim/netlist_builders.py:8-10 | the strip scan from any position yields at most the rest of the text |
| NetlistBuilders.StripFromWithoutControl | eesizer/sim/netlist_builders.py:8-10 | with no `.control` in the text, the strip scan copies it verbatim |
| NetlistBuilders.StripIdempotent | eesizer/sim/netlist_builders.py:5-10 | stripping a stripped netlist changes nothing, as the docstring of `strip_control_blocks` promises |
| NetlistBuilders.StrippedHasNoBlock | eesizer/sim/netlist_builders.py:5-10 | no match of the control-block pattern starts anywhere in a stripped netlist |
| NetlistBuilders.CleanIsFixed | eesizer/sim/netlist_builders.py:8-10 | a text in which the pattern matches nowhere is returned unchanged by the substitution |
| NetlistBuilders.BlockBack | eesizer/sim/netlist_builders.py:5-10 | a control block in the text made of the kept characters leads back to a match at a kept position of the original |
| NetlistBuilders.KeptFacts | eesizer/sim/netlist_builders.py:8-10 | the substitution keeps the characters at increasing positions, and each removed stretch is bounded by line ends |
| NetlistBuilders.AppendControlBlockAsWritten | eesizer/sim/netlist_builders.py:13-21 | definition of `append_control_block` as written; its properties are lemmas `NetlistBuilders.AppendAsWrittenAgrees`, `NetlistBuilders.AppendAsWrittenSplitsEnd` and `NetlistBuilders.UpperCaseEndRejected` |
| NetlistBuilders.AppendControlBlock | eesizer/sim/netlist_builders.py:13-21 | definition of the corrected insert; its properties are lemmas `NetlistBuilders.AppendControlBlockPlacement` and `NetlistBuilders.AppendAsWrittenAgrees` |
| NetlistBuilders.AppendControlBlockPlacement | eesizer/sim/netlist_builders.py:13-21 | the corrected insert fails iff `.end` (case-sensitive) is absent; otherwise the block goes in front of the last case-insensitive `.end`, so removing it gives back the input |
| NetlistBuilders.UpperCaseEndRejected | eesizer/sim/netlist_builders.py:18-20 | a netlist whose only terminator is ".END" is refused with the missing-terminator error, both as written and as corrected, because the presence check is case-sensitive |
| NetlistBuilders.AppendAsWrittenAgrees | eesizer/sim/netlist_builders.py:13-21 | without U+0130 in the netlist, the insert as written equals the corrected one |
| NetlistBuilders.AppendAsWrittenSplitsEnd | eesizer/sim/netlist_builders.py:20-21 | for "İ\n.end" the insert as written splits `.end`, while the corrected one inserts before it |
| NetlistBuilders.SignalsToStr | eesizer/sim/netlist_builders.py:24-25 | definition of `_signals_to_str`; its properties are lemmas `NetlistBuilders.SignalsRoundTrip` and `NetlistBuilders.NonEmptyKeeps` |
| NetlistBuilders.SignalsRoundTrip | eesizer/sim/netlist_builders.py:24-25 | splitting the joined signal string gives back the non-empty signal names, in order |
| NetlistBuilders.NonEmptyKeeps | eesizer/sim/netlist_builders.py:24-25 | every name kept is one of the inputs |
| NetlistBuilders.SplitJoin | eesizer/sim/netlist_builders.py:24-25 | `" ".join` of non-empty space-free words splits back into the same words |
| NetlistBuilders.BuildNetlist | eesizer/sim/netlist_builders.py:28-83 | definition of the strip-then-insert shared by the three builders, on the corrected insert; its properties are lemmas `NetlistBuilders.BuildNetlistShape` and `NetlistBuilders.BuildTwiceDiffers` |
| NetlistBuilders.BuildNetlistAsWritten | eesizer/sim/netlist_builders.py:28-83 | definition of the same build on the insert as written; its properties are lemmas `NetlistBuilders.BuildNetlistShape` and `NetlistBuilders.BuildAsWrittenSplitsEnd` |
| NetlistBuilders.BuildAcNetlist | eesizer/sim/netlist_builders.py:28-48 | definition of `build_ac_netlist` through the shared build; its properties are lemma `NetlistBuilders.BuildNetlistShape` |
| NetlistBuilders.BuildTranNetlist | eesizer/sim/netlist_builders.py:51-65 | definition of `build_tran_netlist` through the shared build; its properties are lemma `NetlistBuilders.BuildNetlistShape` |
| NetlistBuilders.BuildDcNetlist | eesizer/sim/netlist_builders.py:68-83 | definition of `build_dc_netlist`: `signals or []`, then the shared build; its properties are lemma `NetlistBuilders.BuildNetlistShape` |
| NetlistBuilders.BuildNetlistShape | eesizer/sim/netlist_builders.py:28-83 | each builder strips control blocks first, fails iff the stripped text has no `.end`, and otherwise inserts one block with its analysis command and `wrdata <outfile> <signals>` before the last `.end`; the build on the insert as written fails under the same condition, and equals the corrected build when the stripped text holds no U+0130 |
| NetlistBuilders.BuildAsWrittenSplitsEnd | eesizer/sim/netlist_builders.py:28-48 | building on "İ\n.end" as written puts the block between "." and "end", while the corrected build puts it before ".end" |
| NetlistBuilders.BuildTwiceDiffers | eesizer/sim/netlist_builders.py:28-48 | for any command, output file and signals without ".", building "\n.end" gives "\n" + block + ".end", and building that again gives "\n    " + block + ".end", so a build is not idempotent |
| Oplog.OplogSpec | eesizer/analysis/oplog.py:16-59 | definition of the parser's result; its properties are lemmas `Oplog.OplogPairing`, `Oplog.BlankLineIgnored` and `Oplog.KeyTokensOfLine` |
| Oplog.ParseVgsVthFromOplog | eesizer/analysis/oplog.py:16-59 | the line loop and the zip loop compute the specification of the parser |
| Oplog.OplogPairing | eesizer/analysis/oplog.py:25-58 | empty text gives no entries; otherwise entry i pairs the i-th device, vgs and vth, and the length is that of the shortest list |
| Oplog.ReadLine | eesizer/analysis/oplog.py:32-50 | one line appends its device tokens verbatim and its parsable vth/vgs tokens |
| Oplog.LineContribution | eesizer/analysis/oplog.py:33-35 | a blank line contributes nothing, and a non-blank line has a first token |
| Oplog.BlankLineIgnored | eesizer/analysis/oplog.py:33-35 | inserting a blank line anywhere changes no collected list |
| Oplog.KeyTokensOfLine | eesizer/analysis/oplog.py:36-50 | a line contributes iff its first token lower-cases to the key and another token follows; it then contributes the remaining tokens, and a vth/vgs line never adds devices |
| Oplog.ParsedKeepsAccepted | eesizer/analysis/oplog.py:39-50 | unparsable tokens are skipped: all parsable gives all values in order, none parsable gives nothing |
| Oplog.ParsedAppend | eesizer/analysis/oplog.py:39-50 | parsing the tokens of two lines is parsing each in turn |
| Oplog.CollectedAppend | eesizer/analysis/oplog.py:32-50 | the tokens collected from two blocks of lines are the two collections concatenated |
| Oplog.ZipBiases | eesizer/analysis/oplog.py:52-58 | the counted loop builds the pairing of the three lists |
| Parsers.SafeGenfromtxt | eesizer/analysis/parsers.py:5-10 | definition of `safe_genfromtxt`; its properties are lemmas `Parsers.UnreadableFileGivesTwoZeros` and `Parsers.SingleRowIsOneSample` |
| Parsers.ParseAcDat | eesizer/analysis/parsers.py:13-21 | definition of `parse_ac_dat`; its properties are lemma `Parsers.ParseAcShape` |
| Parsers.ParseTranDat | eesizer/analysis/parsers.py:24-30 | definition of `parse_tran_dat`; its properties are lemma `Parsers.ParseTranShape` |
| Parsers.ParseAcShape | eesizer/analysis/parsers.py:13-21 | parsing succeeds iff the table has at least two columns; the frequencies are column 0 and the real parts column 1, with imaginary parts from column 2 or zero |
| Parsers.ParseTranShape | eesizer/analysis/parsers.py:24-30 | parsing succeeds iff there is a column; time is column 0, and the output is column 1 or zeros |
| Parsers.UnreadableFileGivesTwoZeros | eesizer/analysis/parsers.py:5-10 | an unreadable file parses as two zero samples |
| Parsers.SingleRowIsOneSample | eesizer/analysis/parsers.py:15-17 | one-dimensional data is one row, so it yields one sample |
| Parsers.Column | eesizer/analysis/parsers.py:18-30 | a column exists iff the table is two-dimensional and wide enough; it holds the column's entries, and otherwise numpy's `IndexError` is returned |
| Metrics.AcGainDbFromDat | eesizer/analysis/metrics.py:20-24 | definition of `ac_gain_db_from_dat`; its properties are lemmas `Metrics.AcGainFirstSampleOnly`, `Metrics.EmptyResponseGivesZero` and `Metrics.MetricsPropagateParseErrors` |
| Metrics.BandwidthHzFromDat | eesizer/analysis/metrics.py:27-37 | definition of `bandwidth_hz_from_dat`; its properties are lemma `Metrics.BandwidthStartsAtFirstSample` |
| Metrics.UnityBandwidthHzFromDat | eesizer/analysis/metrics.py:40-48 | definition of `unity_bandwidth_hz_from_dat`; its properties are lemma `Metrics.UnityBandwidthSpan` |
| Metrics.PhaseMarginDegFromDat | eesizer/analysis/metrics.py:51-66 | definition of `phase_margin_deg_from_dat`; its properties are lemma `Metrics.PhaseMarginCases` |
| Metrics.TranGainDbFromDat | eesizer/analysis/metrics.py:69-76 | definition of `tran_gain_db_from_dat`; its properties are lemmas `Metrics.TranGainShiftInvariant` and `Metrics.TranGainOfFlatOutput` |
| Metrics.EmptyResponseGivesZero | eesizer/analysis/metrics.py:20-72 | every metric is 0.0 on empty samples |
| Metrics.AcGainFirstSampleOnly | eesizer/analysis/metrics.py:20-24 | the AC gain depends only on the first sample and is `20·log10(max(1e-30, |v[0]|))` |
| Metrics.BandwidthStartsAtFirstSample | eesizer/analysis/metrics.py:27-37 | on non-empty data, sample 0 always qualifies, and the bandwidth is `f[last] − f[0]` for the last sample within 3 dB of the first |
| Metrics.UnityBandwidthSpan | eesizer/analysis/metrics.py:40-48 | with no sample at or above 0 dB the unity bandwidth is 0; otherwise it is `f[last] − f[first]` over those samples |
| Metrics.PhaseMarginCases | eesizer/analysis/metrics.py:51-66 | the phase is read at the first index minimising `|mag_db|`; it is returned as is near 180°, as `180 − |phase|` near 0°, and 0 otherwise, with the 180° test first |
| Metrics.TranGainShiftInvariant | eesizer/analysis/metrics.py:69-76 | the transient gain does not change when the output is shifted by a constant |
| Metrics.TranGainOfFlatOutput | eesizer/analysis/metrics.py:74-76 | a flat output has the 1e-30 floor as its swing |
| Metrics.MetricsPropagateParseErrors | eesizer/analysis/metrics.py:20-76 | a table-shape error from the parser propagates out of every metric; an unreadable file gives the gain of a zero sample |
| Metrics.Where | eesizer/analysis/metrics.py:31-46 | `np.where(x >= t)` lists exactly the qualifying indices in increasing order |
| Metrics.ArgMinAbsFrom | eesizer/analysis/metrics.py:56-57 | `argmin(|x|)` is the first index of least absolute value |
| Metrics.SwingOfShift | eesizer/analysis/metrics.py:73 | shifting the output shifts its max and min alike |
| Orchestrator.Simulator.Run | eesizer/agents/orchestrator.py:47-58 | each simulation logs its netlist and returns the simulator's response |
| Orchestrator.Orchestrator.constructor | eesizer/agents/orchestrator.py:26-29 | the run directory is the given one when non-empty, else `OUTPUT_DIR`; the signals default to `["out"]` |
| Orchestrator.Orchestrator.RunOnce | eesizer/agents/orchestrator.py:31-92 | one call computes the specification of `run_once` and logs exactly the netlists it simulates |
| Orchestrator.BuildStep | eesizer/agents/orchestrator.py:37-44 | definition of one build dispatch on the tool name; its properties are lemmas `Orchestrator.AcCallBuildsAcNetlist`, `Orchestrator.BuildPassKeepsUnbuiltNetlist` and `Orchestrator.BuildPassFailureSticks` |
| Orchestrator.RunOnceSpec | eesizer/agents/orchestrator.py:31-92 | definition of `run_once`'s result; its properties are lemmas `Orchestrator.OneRunOnBuiltNetlist`, `Orchestrator.ResultsKeepBaseEntries`, `Orchestrator.EveryMetricRecorded` and `Orchestrator.MissingToolCalls` |
| Orchestrator.BuildAll | eesizer/agents/orchestrator.py:37-44 | the build loop computes the build pass over all tool calls |
| Orchestrator.RecordMetrics | eesizer/agents/orchestrator.py:69-83 | the metric loop computes the metric pass over all tool calls |
| Orchestrator.OneRunOnBuiltNetlist | eesizer/agents/orchestrator.py:37-58 | a call simulates exactly once when it succeeds and never otherwise; the netlist simulated is the fully built one |
| Orchestrator.AcCallBuildsAcNetlist | eesizer/agents/orchestrator.py:37-40 | a tool call whose name lower-cases to "ac_simulation" applies the AC builder with `output_ac.dat` |
| Orchestrator.BuildPassKeepsUnbuiltNetlist | eesizer/agents/orchestrator.py:37-44 | tool calls whose names are no builder leave the netlist unchanged |
| Orchestrator.BuildPassFailureSticks | eesizer/agents/orchestrator.py:37-44 | a builder error ends the pass and propagates out of `run_once` |
| Orchestrator.ResultsKeepBaseEntries | eesizer/agents/orchestrator.py:60-66 | the result always carries success, `stdout_len = len(stdout or "")` and one bias summary per parsed device |
| Orchestrator.MetricsPassKeepsOtherKeys | eesizer/agents/orchestrator.py:69-83 | the metric pass writes only metric and `err_` keys |
| Orchestrator.EveryMetricRecorded | eesizer/agents/orchestrator.py:69-83 | every requested metric leaves either its value key or `err_<name>`, so a failure does not stop later metrics |
| Orchestrator.MetricErrorText | eesizer/agents/orchestrator.py:82-83 | a failing metric records `err_<name>` as the exception text and changes nothing else |
| Orchestrator.MissingToolCalls | eesizer/agents/orchestrator.py:37-69 | without "tool_calls" nothing is built, the netlist is simulated once, and only the base entries are reported |
| Orchestrator.CallName | eesizer/agents/orchestrator.py:38-39 | reading a tool call's name succeeds only on a dict |
| MockLlm.CallSpec | eesizer/llm/mock.py:28-37 | definition of `call`'s dispatch; its properties are the method `MockLlm.Call` and lemma `MockLlm.UnknownPromptEchoes` |
| MockLlm.AnalysisSpec | eesizer/llm/mock.py:43-67 | definition of `_analysis_response`; its properties are lemmas `MockLlm.AnalysisPassIff` and `MockLlm.ShortfallsMeaning` |
| MockLlm.OptimizeSpec | eesizer/llm/mock.py:69-81 | definition of `_optimize_response`; its properties are lemmas `MockLlm.OneChangePerSuggestion` and `MockLlm.AnalysisThenOptimize` |
| MockLlm.SizingSpec | eesizer/llm/mock.py:83-94 | definition of `_sizing_response`; its properties are lemmas `MockLlm.SizingNeedsBase` and `MockLlm.SizingAppendsComments` |
| MockLlm.Call | eesizer/llm/mock.py:28-37 | dispatch computes the canned response of `call` |
| MockLlm.Ask | eesizer/llm/mock.py:39-41 | `ask` fails iff `call` does, and returns the serialised response |
| MockLlm.UnknownPromptEchoes | eesizer/llm/mock.py:30-37 | any other prompt type returns `{"text": json(payload)}` |
| MockLlm.AnalysisResponse | eesizer/llm/mock.py:43-67 | the analysis loop computes its specification |
| MockLlm.Judge | eesizer/llm/mock.py:49-66 | a metric is a shortfall iff it has a numeric target and its value is strictly below it; a non-dict target raises |
| MockLlm.ShortfallsMeaning | eesizer/llm/mock.py:49-66 | with dict targets, the shortfalls are exactly the metrics below target, each with its value and target |
| MockLlm.ShortfallsNeedDictTargets | eesizer/llm/mock.py:49-55 | with non-dict targets, the analysis fails iff there is a metric |
| MockLlm.ShortfallsFailSticks | eesizer/llm/mock.py:49-66 | an error in the loop ends it |
| MockLlm.AnalysisPassIff | eesizer/llm/mock.py:43-67 | "pass" is true iff no metric is below its target, and the reasons and suggestions have equal length |
| MockLlm.Reasons | eesizer/llm/mock.py:60-66 | one reason per shortfall, in order |
| MockLlm.Suggestions | eesizer/llm/mock.py:60-66 | one suggestion per shortfall, in order |
| MockLlm.OptimizeResponse | eesizer/llm/mock.py:69-81 | the optimize loop computes its specification |
| MockLlm.OneChangePerSuggestion | eesizer/llm/mock.py:71-81 | optimize succeeds iff every suggestion is a dict, and then it makes exactly one change per suggestion, in order |
| MockLlm.ChangeOf | eesizer/llm/mock.py:72-80 | a change is made only from a dict |
| MockLlm.ChangeDefaults | eesizer/llm/mock.py:72-80 | an empty suggestion gets the stated defaults |
| MockLlm.ChangesFailSticks | eesizer/llm/mock.py:71-81 | a non-dict suggestion stops the loop with its error |
| MockLlm.AnalysisThenOptimize | eesizer/llm/mock.py:43-81 | optimizing the mock's own analysis turns each shortfall into its automatic change |
| MockLlm.SuggestionsBecomeChanges | eesizer/llm/mock.py:60-81 | the suggestions of an analysis become changes one for one |
| MockLlm.SuggestionBecomesChange | eesizer/llm/mock.py:64-80 | a suggestion's metric name and magnitude carry into its change |
| MockLlm.AutoChanges | eesizer/llm/mock.py:72-80 | one automatic change per shortfall, in order |
| MockLlm.SizingResponse | eesizer/llm/mock.py:83-94 | the sizing loop computes its specification |
| MockLlm.SizingNeedsBase | eesizer/llm/mock.py:85-88 | a falsy base netlist gives the error dict without `netlist_text` |
| MockLlm.SizingAppendsComments | eesizer/llm/mock.py:90-94 | the sized text is the base, a newline, the patch header and one `* change:` line per change, so it starts with the base |
| MockLlm.OneLinePerChange | eesizer/llm/mock.py:90-93 | the lines succeed iff every change is a dict; there is then one line per change, each starting with `* change: ` |
| MockLlm.ChangeLine | eesizer/llm/mock.py:91-92 | a change line is made only from a dict and starts with `* change: ` |
| MockLlm.ChangeLinesFailSticks | eesizer/llm/mock.py:90-93 | a non-dict change stops the loop with its error |
| MockLlm.JoinLines | eesizer/llm/mock.py:94 | joining with newlines puts a newline before every line after the first |
| Planner.FindJsonBlob | eesizer/llm/planner.py:8-13 | definition of `_find_json_blob`; its properties are lemma `Planner.FindJsonBlobMeaning` |
| Planner.ExtractToolData | eesizer/llm/planner.py:16-34 | definition of the planner's `extract_tool_data`; its properties are lemma `Planner.ReadersNeedABlob` |
| Planner.GetTasks | eesizer/llm/planner.py:57-66 | definition of `get_tasks`; its properties are lemma `Planner.ReadersNeedABlob` |
| Planner.FindJsonBlobMeaning | eesizer/llm/planner.py:8-13 | there is no blob iff no opener has a matching closer later; otherwise the blob runs from the leftmost such opener to the last matching closer |
| Planner.BlobSpanMeaning | eesizer/llm/planner.py:8-13 | the scan from a position finds the leftmost bracket pair and extends it greedily |
| Planner.LastIndex | eesizer/llm/planner.py:8-13 | the last occurrence of a character, or none |
| Planner.ReadersNeedABlob | eesizer/llm/planner.py:16-66 | without a blob both readers raise `ValueError` with their messages; with one, `get_tasks` loads it and a top-level list becomes the chain's "tool_calls" |
| Planner.FormatField | eesizer/llm/planner.py:37-46 | formatting succeeds iff every item is a dict and keeps only truthy values |
| Planner.FormatFieldAppend | eesizer/llm/planner.py:37-46 | the values kept from two lists are those of each, in input order |
| Planner.FormatFieldOne | eesizer/llm/planner.py:37-46 | one dict contributes its value exactly when that value is truthy |
| Planner.CombineResults | eesizer/llm/planner.py:49-54 | the result has exactly the keys simulation_types, simulation_tools and analysis_types, each holding its list |
| Planner.NodesRoundTrip | eesizer/llm/planner.py:69-77 | node names joined by spaces are extracted back exactly |
| Planner.NodesExtract | eesizer/llm/planner.py:69-77 | every extracted token is a non-empty run of `[A-Za-z0-9_]` |
| Planner.SplitJoin | eesizer/llm/planner.py:72-74 | splitting on separator runs inverts a space join of names |
| Planner.KeepAllNames | eesizer/llm/planner.py:75-77 | the name filter keeps every valid name |
| LlmHelpers.Sorted | eesizer/llm.py:208-221 | `sorted(set)` yields each element once, in strictly increasing code-point order |
| LlmHelpers.StrLessTransitive | eesizer/llm.py:208-221 | the string order used by `sorted` is transitive |
| LlmHelpers.StrLessTotal | eesizer/llm.py:208-221 | any two distinct strings are ordered |
| LlmHelpers.StrLessIrreflexive | eesizer/llm.py:208-221 | no string precedes itself |
| LlmHelpers.Least | eesizer/llm.py:208-221 | every non-empty set of strings has a least element |
| LlmHelpers.CollectNames | eesizer/llm.py:195-220 | the accumulation loop computes the set of picked names |
| LlmHelpers.PickedMeaning | eesizer/llm.py:195-220 | the loop succeeds iff every item is a dict, and a name is in the set iff some item picks it |
| LlmHelpers.PickedFailSticks | eesizer/llm.py:195-220 | the first non-dict item ends the loop with its error |
| LlmHelpers.FormatSimulationTypes | eesizer/llm.py:191-208 | the result succeeds iff every item is a dict; it is one `{"name": …}` entry per picked type, sorted and without duplicates, so the three names come out in the order ac, dc, tran (lemma `LlmHelpers.CanonicalOrder`) |
| LlmHelpers.SimulationTypesMeaning | eesizer/llm.py:191-208 | the types are only ac_simulation, dc_simulation and tran_simulation, each present iff some item names it |
| LlmHelpers.TypeOf | eesizer/llm.py:198-206 | definition of the type an item picks; its properties are lemmas `LlmHelpers.PickedMeaning` and `LlmHelpers.SimulationTypesMeaning` |
| LlmHelpers.ToolOf | eesizer/llm.py:217-219 | definition of the tool an item picks; its properties are lemma `LlmHelpers.PickedMeaning` |
| LlmHelpers.CanonicalType | eesizer/llm.py:198-206 | the canonical type is one of the three simulation names |
| LlmHelpers.FormatSimulationTools | eesizer/llm.py:211-221 | the result succeeds iff every item is a dict; it is one entry per stripped tool name, sorted and without duplicates |
| LlmHelpers.AnalysisEntries | eesizer/llm.py:224-253 | definition of `format_analysis_types`' result; its properties are lemmas `LlmHelpers.AnalysisEntriesAppend` and `LlmHelpers.AnalysisEntriesCount` |
| LlmHelpers.FormatAnalysisTypes | eesizer/llm.py:224-253 | the loop computes the analysis entries of the items |
| LlmHelpers.AnalysisEntriesAppend | eesizer/llm.py:243-253 | each dict with a truthy name adds its lower-cased, stripped name, allowed or not; a falsy name adds nothing |
| LlmHelpers.AnalysisEntriesCount | eesizer/llm.py:243-253 | there is exactly one entry per item with a truthy name |
| LlmHelpers.AnalysisEntriesFailSticks | eesizer/llm.py:243-253 | an error ends the loop |
| LlmHelpers.CombineResults | eesizer/llm.py:256-270 | definition of `combine_results`; its properties are lemma `LlmHelpers.CombinedChainIsIterated` |
| LlmHelpers.CombinedChainIsIterated | eesizer/llm.py:256-270 | the combined chain lists the tools, then the types, then the analyses |
| LlmHelpers.FallbackOnlyWhenScanEmpty | eesizer/llm.py:174-188 | the text fallback is used only when the tool-call scan found nothing, and every dict found is kept |
| LlmHelpers.ExtractToolData | eesizer/llm.py:188 | only dicts are returned |
| LlmHelpers.DictsOfDicts | eesizer/llm.py:188 | a list of dicts passes the filter unchanged |
| LlmHelpers.DictsKeepsEveryDict | eesizer/llm.py:188 | the filter keeps every dict |
| Optimizer.Optimizer.constructor | eesizer/agents/optimizer.py:69-90 | the LLM is the given provider, else the mock, else none |
| Optimizer.Optimizer.Consult | eesizer/agents/optimizer.py:178-239 | the three model stages compute the consultation specification and log the prompts sent |
| Optimizer.Optimizer.ApplyAndCompare | eesizer/agents/optimizer.py:247-336 | applying and comparing follow the apply-stage and compare-stage specifications on the file system |
| Optimizer.Optimizer.RunIteration | eesizer/agents/optimizer.py:159-336 | one iteration returns the specified outcome, leaves the specified disk, and logs exactly the specified prompts and simulations |
| Optimizer.Optimizer.Turn | eesizer/agents/optimizer.py:103-142 | one turn of the loop runs an iteration and advances the loop state by its outcome |
| Optimizer.Optimizer.Run | eesizer/agents/optimizer.py:92-157 | the run loop returns the report of the replayed iterations; its disk, prompts and simulations are those of the replay |
| Optimizer.IterationSpec | eesizer/agents/optimizer.py:159-336 | definition of `_run_iteration`; its properties are the lemmas below from `Optimizer.NoLlmRaises` to `Optimizer.IterationResultsAreConsistent` |
| Optimizer.Advance | eesizer/agents/optimizer.py:103-142 | definition of one pass of `run`'s loop body; its properties are lemmas `Optimizer.BestUpdate`, `Optimizer.TimeoutEndsRun` and `Optimizer.ExceptionEndsRun` |
| Optimizer.NoLlmRaises | eesizer/agents/optimizer.py:167-168 | with no LLM the iteration raises "No LLM provider configured" and changes nothing |
| Optimizer.FailedBaselineReachesAnalysis | eesizer/agents/optimizer.py:170-186 | with an LLM, a failing `run_once` does not end the iteration: its first prompt is the analysis prompt with `{"error": msg}` as the metrics |
| Optimizer.PromptsInOrder | eesizer/agents/optimizer.py:178-239 | one to three prompts go out in the order analysis, optimize, sizing; each goes only after the previous answer was returned and validated, the optimize prompt carries the validated analysis, and the sizing prompt carries the input netlist and the validated optimize answer's changes |
| Optimizer.AnalysisRejectedStops | eesizer/agents/optimizer.py:184-198 | a failed analysis validation returns analysis None and a tagged error, with no further prompt |
| Optimizer.OptimizeRejectedStops | eesizer/agents/optimizer.py:205-217 | a failed optimize validation returns a tagged error after exactly two prompts |
| Optimizer.SizingRejectedStops | eesizer/agents/optimizer.py:224-239 | a failed sizing validation returns a tagged error after exactly three prompts |
| Optimizer.ReturnedHasNoBest | eesizer/agents/optimizer.py:184-239 | an early return from the model stages has no "orchestrator_best" |
| Optimizer.NoApplyPathKeepsFiles | eesizer/agents/optimizer.py:265-320 | without an apply path the iteration writes nothing |
| Optimizer.MalformedPatchNotApplied | eesizer/agents/optimizer.py:265-272 | a sized netlist that fails the syntax check is not written, and the result carries apply_error and orchestrator_best None |
| Optimizer.EarlyResultsHaveNoBest | eesizer/agents/optimizer.py:247-272 | the no-patch and apply-error results set orchestrator_best to None |
| Optimizer.BestNetlistChoice | eesizer/agents/optimizer.py:284-297 | the compared variants are the input netlist and the patch; index 0 picks the first, 1 the second, and anything else gives None |
| Optimizer.RevertOnlyWhenOriginalWins | eesizer/agents/optimizer.py:265-320 | after a valid patch over an existing file, the file holds the original text iff the ranking picks index 0, and otherwise the patch |
| Optimizer.SummarySizing | eesizer/agents/optimizer.py:328-336 | the iteration summary carries the sizing answer |
| Optimizer.IterationResultsAreConsistent | eesizer/agents/optimizer.py:159-336 | every iteration result is a dict whose best entries are consistent with its sizing |
| Optimizer.HistoryBounded | eesizer/agents/optimizer.py:98-116 | the history has at most one entry per iteration, and exactly one per iteration when the run did not stop |
| Optimizer.TimeoutEndsRun | eesizer/agents/optimizer.py:107-110 | a timeout at iteration k appends `{"error": "timeout", "iteration": k+1}` as the last history entry and stops the run |
| Optimizer.ExceptionEndsRun | eesizer/agents/optimizer.py:111-114 | an iteration k that raises appends `{"error": str(e), "iteration": k+1}` as the last history entry and stops the run |
| Optimizer.BestUpdate | eesizer/agents/optimizer.py:116-142 | the best netlist changes only when orchestrator_best is set and its index is an int: it becomes the sizing text when the index is 1 and the text is non-empty, else the current netlist; the current netlist follows the best |
| Optimizer.ReportCarriesBest | eesizer/agents/optimizer.py:144-157 | the report always carries best_netlist, and the current netlist equals it |
| Optimizer.ReplayStops | eesizer/agents/optimizer.py:107-114 | once the loop has stopped, later iterations change nothing |

## Code and design

- Stripping is idempotent (`NetlistBuilders.StripIdempotent`), but the builders are not. The pattern's leading `\s*` takes the whitespace in front of `.control` back to a line start, and the match stops at the line end after `.endc`. The indentation that the inserted block ends with therefore stays in front of `.end`. For "\n.end" and any command, output file and signals without a ".", the first build gives "\n" + block + ".end" and building that again gives "\n    " + block + ".end" (`NetlistBuilders.BuildTwiceDiffers`). These texts hold no U+0130, so the build as written gives the same results.
- The syntax check also accepts a netlist whose only terminator is `.endc`, but that disjunct adds nothing, because `.endc` contains `.end` (`NetlistPatch.EndcHoldsEnd`).

## Left out

- File contents on disk other than the netlist: iteration artifacts, JSON dumps, CSV and PDF reports, and the `run_dir`/`iteration_*` directories (`os.makedirs`) are outside the model. The final report is modelled as the returned dict; the fall-back minimal report file is not modelled.
- The simulator subprocess, its timeouts and the log and data files it writes: the simulator is a function from netlist to result, and the data tables it leaves are given as `Option<Table>` (absent when unreadable).
- The iteration timeout (a `ThreadPoolExecutor` with `iter_timeout`): modelled as an oracle `timedOut(k)`. The worker still finishes the iteration, whose disk changes stand, because the executor's `with` waits for it. A `TimeoutError` raised inside the iteration itself is not told apart from the executor's.
- Floating point: reals stand for floats. `numpy` magnitude, `log10`, angle and degrees are uninterpreted functions, and rounding is not modelled. `np.isclose` is written out with its default tolerances as exact real bounds.
- `json.loads`/`json.dumps`, `repr` and the float text format are uninterpreted functions. The regex engine is replaced by explicit scanners for the three patterns used (control blocks, the planner's greedy blob, node separators).
- `_try_load_json_candidates` and the SDK duck-typing of tool responses in `extract_tool_data` (eesizer/llm.py:104-173): the scan's result and the candidate loader are parameters. Only the filtering and fallback logic at eesizer/llm.py:174-188 is modelled.
- The chat-completion network wrappers (eesizer/llm.py:24-98), the command-line entry points and the scripts are not part of this model.
- `Orchestrator.optimize` (the ranking) is not defined in the source shown; it is a parameter returning a result dict or an error. The response validators are parameters returning a result.
- `_to_serializable` is treated as the identity on JSON values. A sizing answer is a dict, so the attribute-access branch for model objects (eesizer/agents/optimizer.py:126-131) is not modelled.
- Optimizer.ApplyPath: a non-string or empty `apply_path` is treated as absent.
- Optimizer.ChangesOf: the changes are taken only when they form a list.
- Optimizer.Optimizer.constructor: the default `Orchestrator()` and the mock's config are supplied by the caller, and the mock config is unused. `int(config.get("iter_timeout", 30))` is not modelled, because the timeout is an oracle: a non-integral `iter_timeout` (such as "fast" or null), for which the source's constructor raises, is not captured.
- NetlistBuilders.BuildNetlist: the builders, and so `Orchestrator.BuildStep` and `run_once`, use the corrected insert `AppendControlBlock`, while the source calls `append_control_block` as written. The two differ only when the stripped netlist holds U+0130 before its last `.end` (see Findings); `BuildNetlistAsWritten` models the source's build.
- BuildNetlistShape: the placement is stated for the corrected build; for the build as written it states the failure condition and the agreement on text without U+0130, and `BuildAsWrittenSplitsEnd` shows the difference.
- Planner.ReadersNeedABlob: the `ToolChain(**data)` validation is a parameter, and its message for a non-mapping is approximated.
- Text.Lower: lower-cases ASCII capitals, U+0130 and U+212A (the capitals whose lower case holds an ASCII letter). Every other character is kept, so the Unicode lower-casing of other non-ASCII letters is not modelled.
- `DeviceBias.margin` is `Oplog.DeviceBias.Margin` (vgs − vth). It is used in the bias summary and has no lemma of its own.
- `_timestamp` is an oracle read at a clock that advances on every call. Nothing is assumed about its values being distinct: `FreshNames` holds for any two timestamps.
- The validators' pydantic models are JSON dicts whose keys stand for the models' attributes, so `getattr(resp, "changes", [])`, `.dict()` and `.model_dump()` read and return the dict.

## Findings

| source | as written | input that shows it | evidently intended | confidence | as-written member | corrected member |
|---|---|---|---|---|---|---|
| eesizer/sim/netlist_builders.py:20-21 | the last `.end` is found in `netlist_text.lower()`, but that index is used to slice the original text; U+0130 lower-cases to two characters, so every later index shifts by one | the netlist "İ\n.end" with any control block: the block lands between "." and "end" | insert the block before the last case-insensitive `.end` of the original text | not executed | NetlistBuilders.AppendControlBlockAsWritten (shown by NetlistBuilders.AppendAsWrittenSplitsEnd) | NetlistBuilders.AppendControlBlock (proved by NetlistBuilders.AppendControlBlockPlacement) |
