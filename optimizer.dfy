/** `eesizer/agents/optimizer.py`: the LLM-in-the-loop sizing loop.

    One iteration (`_run_iteration`) measures the current netlist with the
    orchestrator, asks the LLM for an analysis, then for changes, then for a
    resized netlist, validating each answer; it optionally writes the new
    netlist over a target file, lets the orchestrator rank the old and the new
    netlist, and puts the old file back when the old netlist wins. The run
    (`run`) repeats iterations, carrying the accepted netlist forward.

    The LLM, the three response validators and `Orchestrator.optimize` (the
    ranking) are function-valued collaborators; the worker thread's timeout is
    an oracle saying which iterations overran. Artifacts written under the run
    directory, the CSV and the PDF report are left out. */
module Optimizer {
  import opened Wrappers
  import opened Json
  import NetlistPatch
  import Orchestrator
  import MockLlm

  /** `llm.call(prompt_type, payload)`; a failure is the exception it raises. */
  type Llm = (string, Json) -> Result<Json, string>

  /** `validate_analysis`, `validate_optimize` and `validate_sizing`: the
      validated (serialised) response, or the validation error's message. */
  datatype Validators = Validators(
    analysis: Json -> Result<Json, string>,
    optimize: Json -> Result<Json, string>,
    sizing: Json -> Result<Json, string>)

  /** `Orchestrator.optimize(variants, tool_chain)`, whose scoring is not part
      of this model. */
  type Rank = (seq<string>, Json) -> Result<Json, string>

  /** What the default `MockLLM()` needs. */
  datatype MockSetup = MockSetup(rd: MockLlm.Render, parseFloat: string -> Option<real>)

  /** The default provider: the rule-based mock. */
  function MockCall(m: MockSetup): Llm {
    (promptType: string, payload: Json) => MockLlm.CallSpec(m.rd, m.parseFloat, promptType, payload)
  }

  /** The outcome of a stage: an exception, an early `return`, or the values
      the next stage works on. */
  datatype Stage<T> = Raised(error: string) | Returned(value: Json) | Continue(next: T)

  /** The three validated LLM answers. */
  datatype Advice = Advice(analysis: Json, optimize: Json, sizing: Json)

  // ------------------------------------------------------------- config

  function ToolChain(config: seq<(string, Json)>): Json {
    GetOr(config, "tool_chain", Obj([]))
  }

  function Targets(config: seq<(string, Json)>): Json {
    GetOr(config, "targets", Obj([]))
  }

  /** `config.get("apply_path")` when it is a non-empty string. */
  function ApplyPath(config: seq<(string, Json)>): Option<string> {
    var p := Get(config, "apply_path");
    if p.Str? && p.s != [] then Some(p.s) else None
  }

  // ------------------------------------------------------------ consult

  /** The baseline metrics, or `{"error": msg}` when `run_once` raised. */
  function MetricsOf(baseline: Result<Json, string>): Json {
    if baseline.Success? then baseline.value else Obj([("error", Str(baseline.error))])
  }

  function AnalysisPrompt(metrics: Json, targets: Json): (string, Json) {
    ("analysis", Obj([("metrics", metrics), ("targets", targets)]))
  }

  function OptimizePrompt(analysis: Json): (string, Json) {
    ("optimize", Obj([("analysis", analysis)]))
  }

  /** `getattr(optimize_resp, "changes", [])` */
  function ChangesOf(optimize: Json): seq<Json> {
    if optimize.Obj? && Get(optimize.fields, "changes").Arr? then Get(optimize.fields, "changes").items else []
  }

  function SizingPrompt(netlist: string, optimize: Json): (string, Json) {
    ("sizing", Obj([("base_netlist", Str(netlist)), ("changes", Arr(ChangesOf(optimize)))]))
  }

  /** The message an early return records for a rejected answer. */
  function Rejected(kind: string, error: string): Json {
    Str(kind + "_validation_failed: " + error)
  }

  /** The analysis, optimize and sizing stages: each prompt, then the
      validation of its answer, with the prompts issued. */
  function ConsultSpec(llm: Llm, v: Validators, metrics: Json, targets: Json, netlist: string): (Stage<Advice>, seq<(string, Json)>) {
    var p1 := AnalysisPrompt(metrics, targets);
    var analysisRaw := llm(p1.0, p1.1);
    if analysisRaw.Failure? then (Raised(analysisRaw.error), [p1])
    else
      var analysis := v.analysis(analysisRaw.value);
      if analysis.Failure? then
        (Returned(Obj([("analysis", Null), ("error", Rejected("analysis", analysis.error))])), [p1])
      else
        var p2 := OptimizePrompt(analysis.value);
        var optimizeRaw := llm(p2.0, p2.1);
        if optimizeRaw.Failure? then (Raised(optimizeRaw.error), [p1, p2])
        else
          var optimize := v.optimize(optimizeRaw.value);
          if optimize.Failure? then
            (Returned(Obj([("analysis", analysis.value), ("error", Rejected("optimize", optimize.error))])), [p1, p2])
          else
            var p3 := SizingPrompt(netlist, optimize.value);
            var sizingRaw := llm(p3.0, p3.1);
            if sizingRaw.Failure? then (Raised(sizingRaw.error), [p1, p2, p3])
            else
              var sizing := v.sizing(sizingRaw.value);
              if sizing.Failure? then
                (Returned(Obj([("analysis", analysis.value), ("optimize", optimize.value),
                               ("error", Rejected("sizing", sizing.error))])), [p1, p2, p3])
              else (Continue(Advice(analysis.value, optimize.value, sizing.value)), [p1, p2, p3])
  }

  // ----------------------------------------------------- apply and compare

  /** The resized netlist: the sizing answer's non-empty `netlist_text`. */
  function Patched(sizing: Json): Option<string> {
    if sizing.Obj? && Get(sizing.fields, "netlist_text").Str? && Get(sizing.fields, "netlist_text").s != [] then
      Some(Get(sizing.fields, "netlist_text").s)
    else None
  }

  function NoPatchResult(a: Advice): Json {
    Obj([("analysis", a.analysis), ("optimize", a.optimize), ("sizing", a.sizing), ("orchestrator_best", Null)])
  }

  function ApplyErrorResult(a: Advice, msg: string): Json {
    Obj([("analysis", a.analysis), ("optimize", a.optimize), ("sizing", a.sizing), ("orchestrator_best", Null),
         ("apply_error", Str(msg))])
  }

  /** The optional apply stage: with an apply path, a netlist that fails the
      syntax check is not written; otherwise it replaces the target, and the
      backup path is kept for a later revert. */
  function ApplyStageSpec(d: NetlistPatch.Disk, stampAt: nat -> NetlistPatch.Stamp, applyPath: Option<string>,
                          patched: string, a: Advice): (Stage<Option<string>>, NetlistPatch.Disk)
  {
    if applyPath.None? then (Continue(None), d)
    else
      var (ok, msg) := NetlistPatch.ValidateNetlistSyntax(Some(patched));
      if !ok then (Returned(ApplyErrorResult(a, msg)), d)
      else
        var (r, d1) := NetlistPatch.ApplySpec(d, stampAt, applyPath.value, patched);
        if r.Failure? then (Returned(ApplyErrorResult(a, r.error)), d1)
        else (Continue(Some(r.value.0)), d1)
  }

  /** Python's `x == 0`. */
  predicate EqualsZero(j: Json) {
    j == Int(0) || j == Bool(false) || j == Float(0.0)
  }

  /** `variants[best_idx]` when the index is an `int` in range, else `None`. */
  function BestOf(index: Json, variants: seq<string>): Json {
    var i := AsInt(index);
    if i.Some? && 0 <= i.value < |variants| then Str(variants[i.value]) else Null
  }

  function Summary(a: Advice, orch: seq<(string, Json)>, variants: seq<string>): Json {
    Obj([("analysis", a.analysis), ("optimize", a.optimize), ("sizing", a.sizing),
         ("orchestrator_best", Get(orch, "best_result")), ("orchestrator_best_index", Get(orch, "best_index")),
         ("best_netlist", BestOf(Get(orch, "best_index"), variants)), ("all", Get(orch, "all_results"))])
  }

  /** The files after the optional revert: only when a backup was made and
      the original netlist ranked first; a failing revert changes nothing. */
  function RevertedFiles(files: map<string, string>, applyPath: Option<string>, backup: Option<string>, index: Json): map<string, string> {
    if applyPath.Some? && backup.Some? && EqualsZero(index) then
      var back := NetlistPatch.RevertSpec(files, applyPath.value, backup.value);
      if back.Success? then back.value else files
    else files
  }

  /** Ranking of `[netlist, patched]`, the optional revert and the result. */
  function CompareSpec(d: NetlistPatch.Disk, applyPath: Option<string>, backup: Option<string>, rank: Rank,
                       toolChain: Json, netlist: string, patched: string, a: Advice): (Result<Json, string>, NetlistPatch.Disk)
  {
    var orch := rank([netlist, patched], toolChain);
    if orch.Failure? then (Failure(orch.error), d)
    else if !orch.value.Obj? then (Failure(NoAttribute(orch.value, "get")), d)
    else
      var index := Get(orch.value.fields, "best_index");
      (Success(Summary(a, orch.value.fields, [netlist, patched])),
       NetlistPatch.Disk(RevertedFiles(d.files, applyPath, backup, index), d.clock))
  }

  // ---------------------------------------------------------- iteration

  /** The collaborators one iteration depends on. `baseline` is `run_once`
      on the configured tool chain, with the netlist it simulated. */
  datatype Env = Env(
    config: seq<(string, Json)>,
    llm: Option<Llm>,
    v: Validators,
    rank: Rank,
    stampAt: nat -> NetlistPatch.Stamp,
    baseline: string -> (Result<Json, string>, Option<string>))

  /** What an iteration returns or raises, the disk after it, the prompts it
      issued and the netlists it simulated. */
  datatype Iteration = Iteration(outcome: Result<Json, string>, disk: NetlistPatch.Disk,
                                 asked: seq<(string, Json)>, simulated: seq<string>)

  /** `_run_iteration(netlist_text)` */
  function IterationSpec(e: Env, d: NetlistPatch.Disk, netlist: string): Iteration {
    if e.llm.None? then Iteration(Failure("No LLM provider configured"), d, [], [])
    else
      var (baseline, ran) := e.baseline(netlist);
      var simulated := if ran.Some? then [ran.value] else [];
      var (c, asked) := ConsultSpec(e.llm.value, e.v, MetricsOf(baseline), Targets(e.config), netlist);
      match c
      case Raised(err) => Iteration(Failure(err), d, asked, simulated)
      case Returned(j) => Iteration(Success(j), d, asked, simulated)
      case Continue(a) =>
        var patched := Patched(a.sizing);
        if patched.None? then Iteration(Success(NoPatchResult(a)), d, asked, simulated)
        else
          var (s, d1) := ApplyStageSpec(d, e.stampAt, ApplyPath(e.config), patched.value, a);
          match s
          case Raised(err) => Iteration(Failure(err), d1, asked, simulated)
          case Returned(j) => Iteration(Success(j), d1, asked, simulated)
          case Continue(backup) =>
            var (r, d2) := CompareSpec(d1, ApplyPath(e.config), backup, e.rank, ToolChain(e.config), netlist, patched.value, a);
            Iteration(r, d2, asked, simulated)
  }

  // --------------------------------------------------------------- run

  /** The variables of `run`'s loop; `stopped` is the `break`. */
  datatype Loop = Loop(history: seq<Json>, current: string, best: string, bestResult: Json, stopped: bool)

  function ErrorEntry(msg: string, it: nat): Json {
    Obj([("error", Str(msg)), ("iteration", Int(it + 1))])
  }

  /** `result.get("sizing")`'s `netlist_text` when the sizing is a dict. */
  function SizedNetlist(res: seq<(string, Json)>): Json {
    var sizing := Get(res, "sizing");
    if sizing.Obj? then Get(sizing.fields, "netlist_text") else Null
  }

  /** An iteration result that can carry a netlist forward carries it as a
      string. */
  predicate Consistent(res: Json) {
    res.Obj? && (Get(res.fields, "orchestrator_best") != Null && Truthy(SizedNetlist(res.fields)) ==> SizedNetlist(res.fields).Str?)
  }

  /** The body of `run`'s loop after the iteration for index `it`. */
  function Advance(s: Loop, it: nat, outcome: Result<Json, string>, timedOut: bool): Loop
    requires outcome.Success? ==> Consistent(outcome.value)
  {
    if timedOut then Loop(s.history + [ErrorEntry("timeout", it)], s.current, s.best, s.bestResult, true)
    else if outcome.Failure? then Loop(s.history + [ErrorEntry(outcome.error, it)], s.current, s.best, s.bestResult, true)
    else
      var res := outcome.value.fields;
      var orchesBest := Get(res, "orchestrator_best");
      var index := AsInt(Get(res, "orchestrator_best_index"));
      var best :=
        if orchesBest == Null || index.None? then s.best
        else if index.value == 1 && Truthy(SizedNetlist(res)) then SizedNetlist(res).s
        else s.current;
      var bestResult := if orchesBest == Null then s.bestResult else orchesBest;
      Loop(s.history + [outcome.value], best, best, bestResult, false)
  }

  /** The state of a whole run after `n` turns of the loop. */
  datatype Trace = Trace(loop: Loop, disk: NetlistPatch.Disk, asked: seq<(string, Json)>, simulated: seq<string>)

  /** One turn of `run`'s loop, after the turns before it left `prev`. */
  function Step(e: Env, timedOut: nat -> bool, prev: Trace, i: nat): Trace {
    if prev.loop.stopped then prev
    else
      var it := IterationSpec(e, prev.disk, prev.loop.current);
      IterationResultsAreConsistent(e, prev.disk, prev.loop.current);
      Trace(Advance(prev.loop, i, it.outcome, timedOut(i)), it.disk, prev.asked + it.asked, prev.simulated + it.simulated)
  }

  function Replay(e: Env, timedOut: nat -> bool, base: string, d0: NetlistPatch.Disk, n: nat): Trace {
    if n == 0 then Trace(Loop([], base, base, Null, false), d0, [], [])
    else Step(e, timedOut, Replay(e, timedOut, base, d0, n - 1), n - 1)
  }

  /** The dict `run` returns. */
  function Report(s: Loop): Json {
    Obj([("best_netlist", Str(s.best)), ("best_result", s.bestResult), ("history", Arr(s.history))])
  }

  // ---------------------------------------------------------- the class

  class Optimizer {
    const baseNetlist: string
    const orch: Orchestrator.Orchestrator
    const fs: NetlistPatch.FileSystem
    const llm: Option<Llm>
    const config: seq<(string, Json)>
    const validators: Validators
    const rank: Rank
    /** The prompts sent to the LLM so far. */
    ghost var asked: seq<(string, Json)>

    /** `Optimizer(base_netlist, orchestrator, llm_provider, config)`: a given
        provider, else the mock when it is available. */
    constructor (baseNetlist: string, orch: Orchestrator.Orchestrator, fs: NetlistPatch.FileSystem,
                 provider: Option<Llm>, mock: Option<MockSetup>, config: seq<(string, Json)>,
                 validators: Validators, rank: Rank)
      ensures this.llm == if provider.Some? then provider else if mock.Some? then Some(MockCall(mock.value)) else None
      ensures this.baseNetlist == baseNetlist && this.orch == orch && this.fs == fs && this.config == config
      ensures this.validators == validators && this.rank == rank && asked == []
    {
      this.baseNetlist := baseNetlist;
      this.orch := orch;
      this.fs := fs;
      this.llm := if provider.Some? then provider else if mock.Some? then Some(MockCall(mock.value)) else None;
      this.config := config;
      this.validators := validators;
      this.rank := rank;
      asked := [];
    }

    function Environment(): Env {
      Env(config, llm, validators, rank, fs.stampAt,
          (n: string) => Orchestrator.RunOnceSpec(orch.signals, orch.sim.respond, orch.num, orch.parseFloat, n, ToolChain(config)))
    }

    /** The three LLM stages of `_run_iteration`. */
    method Consult(model: Llm, metrics: Json, netlist: string) returns (r: Stage<Advice>)
      modifies this`asked
      ensures var (c, prompts) := ConsultSpec(model, validators, metrics, Targets(config), netlist);
        r == c && asked == old(asked) + prompts
    {
      var p := AnalysisPrompt(metrics, Targets(config));
      asked := asked + [p];
      var analysisRaw := model(p.0, p.1);
      if analysisRaw.Failure? {
        return Raised(analysisRaw.error);
      }
      var analysis := validators.analysis(analysisRaw.value);
      if analysis.Failure? {
        return Returned(Obj([("analysis", Null), ("error", Rejected("analysis", analysis.error))]));
      }

      p := OptimizePrompt(analysis.value);
      asked := asked + [p];
      var optimizeRaw := model(p.0, p.1);
      if optimizeRaw.Failure? {
        return Raised(optimizeRaw.error);
      }
      var optimize := validators.optimize(optimizeRaw.value);
      if optimize.Failure? {
        return Returned(Obj([("analysis", analysis.value), ("error", Rejected("optimize", optimize.error))]));
      }

      p := SizingPrompt(netlist, optimize.value);
      asked := asked + [p];
      var sizingRaw := model(p.0, p.1);
      if sizingRaw.Failure? {
        return Raised(sizingRaw.error);
      }
      var sizing := validators.sizing(sizingRaw.value);
      if sizing.Failure? {
        return Returned(Obj([("analysis", analysis.value), ("optimize", optimize.value),
                             ("error", Rejected("sizing", sizing.error))]));
      }
      return Continue(Advice(analysis.value, optimize.value, sizing.value));
    }

    /** The apply and compare stages of `_run_iteration`. */
    method ApplyAndCompare(netlist: string, patched: string, a: Advice) returns (r: Result<Json, string>)
      modifies fs
      ensures var (s, d1) := ApplyStageSpec(old(fs.State()), fs.stampAt, ApplyPath(config), patched, a);
        match s
        case Raised(err) => r == Failure(err) && fs.State() == d1
        case Returned(j) => r == Success(j) && fs.State() == d1
        case Continue(backup) =>
          (r, fs.State()) == CompareSpec(d1, ApplyPath(config), backup, rank, ToolChain(config), netlist, patched, a)
    {
      var backup: Option<string> := None;
      var applyPath := ApplyPath(config);
      if applyPath.Some? {
        var (ok, msg) := NetlistPatch.ValidateNetlistSyntax(Some(patched));
        if !ok {
          return Success(ApplyErrorResult(a, msg));
        }
        var applied := fs.ApplyNetlistReplacement(applyPath.value, patched);
        if applied.Failure? {
          return Success(ApplyErrorResult(a, applied.error));
        }
        backup := Some(applied.value.0);
      }

      var orchRes := rank([netlist, patched], ToolChain(config));
      if orchRes.Failure? {
        return Failure(orchRes.error);
      }
      if !orchRes.value.Obj? {
        return Failure(NoAttribute(orchRes.value, "get"));
      }
      var index := Get(orchRes.value.fields, "best_index");
      if applyPath.Some? && backup.Some? && EqualsZero(index) {
        var _ := fs.RevertBackup(applyPath.value, backup.value);
      }
      return Success(Summary(a, orchRes.value.fields, [netlist, patched]));
    }

    /** `_run_iteration(netlist_text)` */
    method RunIteration(netlist: string) returns (r: Result<Json, string>)
      modifies orch.sim`runs, fs, this`asked
      ensures var it := IterationSpec(Environment(), old(fs.State()), netlist);
        r == it.outcome && fs.State() == it.disk && asked == old(asked) + it.asked
        && orch.sim.runs == old(orch.sim.runs) + it.simulated
    {
      if llm.None? {
        return Failure("No LLM provider configured");
      }
      var baseline := orch.RunOnce(netlist, ToolChain(config));
      var metrics := if baseline.Success? then baseline.value else Obj([("error", Str(baseline.error))]);
      var c := Consult(llm.value, metrics, netlist);
      if c.Raised? {
        return Failure(c.error);
      }
      if c.Returned? {
        return Success(c.value);
      }
      var patched := Patched(c.next.sizing);
      if patched.None? {
        return Success(NoPatchResult(c.next));
      }
      r := ApplyAndCompare(netlist, patched.value, c.next);
    }

    /** One turn of `run`'s loop: the iteration, then the bookkeeping. */
    method Turn(s: Loop, it: nat, timedOut: nat -> bool) returns (next: Loop)
      modifies orch.sim`runs, fs, this`asked
      ensures var r := IterationSpec(Environment(), old(fs.State()), s.current);
        r.outcome.Success? ==> Consistent(r.outcome.value)
      ensures var r := IterationSpec(Environment(), old(fs.State()), s.current);
        next == Advance(s, it, r.outcome, timedOut(it)) && fs.State() == r.disk
        && asked == old(asked) + r.asked && orch.sim.runs == old(orch.sim.runs) + r.simulated
    {
      IterationResultsAreConsistent(Environment(), fs.State(), s.current);
      var result := RunIteration(s.current);
      next := Advance(s, it, result, timedOut(it));
    }

    /** `run(max_iters)`; `timedOut(k)` says whether the iteration with index
        `k` overran `iter_timeout`. */
    method Run(maxIters: int, timedOut: nat -> bool) returns (report: Json)
      modifies orch.sim`runs, fs, this`asked
      ensures var tr := Replay(Environment(), timedOut, baseNetlist, old(fs.State()), if maxIters < 0 then 0 else maxIters);
        report == Report(tr.loop) && fs.State() == tr.disk && asked == old(asked) + tr.asked
        && orch.sim.runs == old(orch.sim.runs) + tr.simulated
    {
      var n: nat := if maxIters < 0 then 0 else maxIters;
      ghost var e := Environment();
      ghost var d0 := fs.State();
      ghost var asked0 := asked;
      ghost var runs0 := orch.sim.runs;
      ghost var tr := Replay(e, timedOut, baseNetlist, d0, 0);
      var s := Loop([], baseNetlist, baseNetlist, Null, false);
      var it := 0;
      while it < n && !s.stopped
        invariant 0 <= it <= n
        invariant tr == Replay(e, timedOut, baseNetlist, d0, it)
        invariant tr.loop == s && tr.disk == fs.State() && asked == asked0 + tr.asked && orch.sim.runs == runs0 + tr.simulated
      {
        StepUnfold(e, timedOut, tr, it);
        ghost var r := IterationSpec(e, fs.State(), s.current);
        s := Turn(s, it, timedOut);
        Associative(asked0, tr.asked, r.asked);
        Associative(runs0, tr.simulated, r.simulated);
        tr := Step(e, timedOut, tr, it);
        it := it + 1;
      }
      ReplayStops(Environment(), timedOut, baseNetlist, d0, it, n);
      return Report(s);
    }
  }

  // ------------------------------------------------------------ lemmas

  /** Without an LLM the iteration raises before it simulates or prompts. */
  lemma NoLlmRaises(e: Env, d: NetlistPatch.Disk, netlist: string)
    requires e.llm.None?
    ensures IterationSpec(e, d, netlist) == Iteration(Failure("No LLM provider configured"), d, [], [])
  {
  }

  /** The prompts go out in the order analysis, optimize, sizing, and each
      goes out only after the previous answer was accepted; a failing
      `run_once` is reported to the first prompt as `{"error": msg}`. */
  lemma {:induction false} PromptsInOrder(llm: Llm, v: Validators, metrics: Json, targets: Json, netlist: string)
    ensures var (c, prompts) := ConsultSpec(llm, v, metrics, targets, netlist);
      1 <= |prompts| <= 3
      && prompts[0] == AnalysisPrompt(metrics, targets)
      && (|prompts| >= 2 ==>
            (llm(prompts[0].0, prompts[0].1).Success?
             && v.analysis(llm(prompts[0].0, prompts[0].1).value).Success?
             && prompts[1] == OptimizePrompt(v.analysis(llm(prompts[0].0, prompts[0].1).value).value)))
      && (|prompts| == 3 ==>
            (prompts[2].0 == "sizing" && prompts[2].1.Obj?
             && Lookup(prompts[2].1.fields, "base_netlist") == Some(Str(netlist))))
      && (|prompts| == 3 ==>
            (llm(prompts[1].0, prompts[1].1).Success?
             && v.optimize(llm(prompts[1].0, prompts[1].1).value).Success?
             && prompts[2] == SizingPrompt(netlist, v.optimize(llm(prompts[1].0, prompts[1].1).value).value)))
      && (c.Continue? ==> |prompts| == 3)
  {
  }

  /** A failing `run_once` does not end the iteration: the analysis prompt
      still goes out first, carrying `{"error": msg}` as its metrics. */
  lemma FailedBaselineReachesAnalysis(e: Env, d: NetlistPatch.Disk, netlist: string)
    requires e.llm.Some? && e.baseline(netlist).0.Failure?
    ensures var it := IterationSpec(e, d, netlist);
      |it.asked| >= 1
      && it.asked[0] == AnalysisPrompt(Obj([("error", Str(e.baseline(netlist).0.error))]), Targets(e.config))
  {
    var (baseline, ran) := e.baseline(netlist);
    PromptsInOrder(e.llm.value, e.v, MetricsOf(baseline), Targets(e.config), netlist);
    IterationAsksConsult(e, d, netlist);
  }

  /** The prompts of an iteration with an LLM are those of its consult stage. */
  lemma IterationAsksConsult(e: Env, d: NetlistPatch.Disk, netlist: string)
    requires e.llm.Some?
    ensures IterationSpec(e, d, netlist).asked
      == ConsultSpec(e.llm.value, e.v, MetricsOf(e.baseline(netlist).0), Targets(e.config), netlist).1
  {
  }

  /** A rejected analysis ends the iteration after one prompt, with no
      analysis recorded. */
  lemma AnalysisRejectedStops(llm: Llm, v: Validators, metrics: Json, targets: Json, netlist: string)
    requires llm("analysis", AnalysisPrompt(metrics, targets).1).Success?
    requires v.analysis(llm("analysis", AnalysisPrompt(metrics, targets).1).value).Failure?
    ensures var e := v.analysis(llm("analysis", AnalysisPrompt(metrics, targets).1).value).error;
      ConsultSpec(llm, v, metrics, targets, netlist)
        == (Returned(Obj([("analysis", Null), ("error", Rejected("analysis", e))])), [AnalysisPrompt(metrics, targets)])
  {
  }

  /** A rejected optimize answer ends the iteration after two prompts. */
  lemma OptimizeRejectedStops(llm: Llm, v: Validators, metrics: Json, targets: Json, netlist: string, analysis: Json)
    requires llm("analysis", AnalysisPrompt(metrics, targets).1).Success?
    requires v.analysis(llm("analysis", AnalysisPrompt(metrics, targets).1).value) == Success(analysis)
    requires llm("optimize", OptimizePrompt(analysis).1).Success?
    requires v.optimize(llm("optimize", OptimizePrompt(analysis).1).value).Failure?
    ensures var e := v.optimize(llm("optimize", OptimizePrompt(analysis).1).value).error;
      ConsultSpec(llm, v, metrics, targets, netlist)
        == (Returned(Obj([("analysis", analysis), ("error", Rejected("optimize", e))])),
            [AnalysisPrompt(metrics, targets), OptimizePrompt(analysis)])
  {
  }

  /** A rejected sizing answer ends the iteration after three prompts. */
  lemma SizingRejectedStops(llm: Llm, v: Validators, metrics: Json, targets: Json, netlist: string,
                            analysis: Json, optimize: Json)
    requires llm("analysis", AnalysisPrompt(metrics, targets).1).Success?
    requires v.analysis(llm("analysis", AnalysisPrompt(metrics, targets).1).value) == Success(analysis)
    requires llm("optimize", OptimizePrompt(analysis).1).Success?
    requires v.optimize(llm("optimize", OptimizePrompt(analysis).1).value) == Success(optimize)
    requires llm("sizing", SizingPrompt(netlist, optimize).1).Success?
    requires v.sizing(llm("sizing", SizingPrompt(netlist, optimize).1).value).Failure?
    ensures var e := v.sizing(llm("sizing", SizingPrompt(netlist, optimize).1).value).error;
      ConsultSpec(llm, v, metrics, targets, netlist)
        == (Returned(Obj([("analysis", analysis), ("optimize", optimize), ("error", Rejected("sizing", e))])),
            [AnalysisPrompt(metrics, targets), OptimizePrompt(analysis), SizingPrompt(netlist, optimize)])
  {
  }

  /** Without an apply path the iteration never changes the files. */
  lemma NoApplyPathKeepsFiles(e: Env, d: NetlistPatch.Disk, netlist: string)
    requires ApplyPath(e.config).None?
    ensures IterationSpec(e, d, netlist).disk == d
  {
  }

  /** A netlist that fails the syntax check is not written: the disk is
      unchanged and the result carries the check's message and no best. */
  lemma MalformedPatchNotApplied(d: NetlistPatch.Disk, stampAt: nat -> NetlistPatch.Stamp, path: string,
                                 patched: string, a: Advice)
    requires !NetlistPatch.ValidateNetlistSyntax(Some(patched)).0
    ensures ApplyStageSpec(d, stampAt, Some(path), patched, a)
      == (Returned(ApplyErrorResult(a, NetlistPatch.ValidateNetlistSyntax(Some(patched)).1)), d)
    ensures Lookup(ApplyErrorResult(a, NetlistPatch.ValidateNetlistSyntax(Some(patched)).1).fields, "orchestrator_best") == Some(Null)
  {
    var fields := ApplyErrorResult(a, NetlistPatch.ValidateNetlistSyntax(Some(patched)).1).fields;
    DistinctKeys();
    LookupPast(fields, 3, "orchestrator_best");
  }

  /** `best_netlist` is the input netlist for index 0 (or `False`), the
      patched one for index 1 (or `True`), and `None` for anything else. */
  lemma BestNetlistChoice(index: Json, netlist: string, patched: string)
    ensures AsInt(index) == Some(0) ==> BestOf(index, [netlist, patched]) == Str(netlist)
    ensures AsInt(index) == Some(1) ==> BestOf(index, [netlist, patched]) == Str(patched)
    ensures AsInt(index) != Some(0) && AsInt(index) != Some(1) ==> BestOf(index, [netlist, patched]) == Null
  {
  }

  /** Over an existing target that passes the syntax check: once ranked, the
      target keeps the patched netlist unless the original ranked first, in
      which case it gets its original text back. */
  lemma {:induction false} RevertOnlyWhenOriginalWins(d: NetlistPatch.Disk, stampAt: nat -> NetlistPatch.Stamp, path: string,
                                                      patched: string, a: Advice, rank: Rank, toolChain: Json, netlist: string)
    requires NetlistPatch.Exists(d.files, path)
    requires NetlistPatch.ValidateNetlistSyntax(Some(patched)).0
    requires rank([netlist, patched], toolChain).Success? && rank([netlist, patched], toolChain).value.Obj?
    ensures var (s, d1) := ApplyStageSpec(d, stampAt, Some(path), patched, a);
      var index := Get(rank([netlist, patched], toolChain).value.fields, "best_index");
      && s.Continue? && s.next.Some?
      && var (r, d2) := CompareSpec(d1, Some(path), s.next, rank, toolChain, netlist, patched, a);
      && r.Success?
      && path in d2.files
      && d2.files[path] == (if EqualsZero(index) then d.files[path] else patched)
  {
    NetlistPatch.ApplyThenRevertRestores(d, stampAt, path, patched);
    NetlistPatch.ApplyOverExisting(d, stampAt, path, patched);
  }

  /** Iteration results are dicts, and one whose best is set carries the
      patched netlist as a non-empty string. */
  lemma IterationResultsAreConsistent(e: Env, d: NetlistPatch.Disk, netlist: string)
    ensures var it := IterationSpec(e, d, netlist);
      it.outcome.Success? ==> Consistent(it.outcome.value)
  {
    var it := IterationSpec(e, d, netlist);
    if e.llm.Some? && it.outcome.Success? {
      var (baseline, ran) := e.baseline(netlist);
      var (c, asked) := ConsultSpec(e.llm.value, e.v, MetricsOf(baseline), Targets(e.config), netlist);
      if c.Returned? {
        ReturnedHasNoBest(e.llm.value, e.v, MetricsOf(baseline), Targets(e.config), netlist);
      } else if c.Continue? {
        var a := c.next;
        if Patched(a.sizing).Some? {
          var (s, d1) := ApplyStageSpec(d, e.stampAt, ApplyPath(e.config), Patched(a.sizing).value, a);
          if s.Continue? {
            var res := it.outcome.value.fields;
            assert res == Summary(a, e.rank([netlist, Patched(a.sizing).value], ToolChain(e.config)).value.fields,
                                  [netlist, Patched(a.sizing).value]).fields;
            SummarySizing(a, e.rank([netlist, Patched(a.sizing).value], ToolChain(e.config)).value.fields,
                          [netlist, Patched(a.sizing).value]);
          } else {
            EarlyResultsHaveNoBest();
          }
        } else {
          EarlyResultsHaveNoBest();
        }
      }
    }
  }

  lemma ReturnedHasNoBest(llm: Llm, v: Validators, metrics: Json, targets: Json, netlist: string)
    ensures var c := ConsultSpec(llm, v, metrics, targets, netlist).0;
      c.Returned? ==> c.value.Obj? && Lookup(c.value.fields, "orchestrator_best") == None
  {
    var c := ConsultSpec(llm, v, metrics, targets, netlist).0;
    if c.Returned? {
      DistinctKeys();
      LookupPast(c.value.fields, |c.value.fields|, "orchestrator_best");
    }
  }

  lemma SummarySizing(a: Advice, orch: seq<(string, Json)>, variants: seq<string>)
    ensures Lookup(Summary(a, orch, variants).fields, "sizing") == Some(a.sizing)
  {
    DistinctKeys();
    LookupPast(Summary(a, orch, variants).fields, 2, "sizing");
  }

  lemma EarlyResultsHaveNoBest()
    ensures forall a, msg :: Lookup(ApplyErrorResult(a, msg).fields, "orchestrator_best") == Some(Null)
    ensures forall a :: Lookup(NoPatchResult(a).fields, "orchestrator_best") == Some(Null)
  {
    DistinctKeys();
    forall a, msg ensures Lookup(ApplyErrorResult(a, msg).fields, "orchestrator_best") == Some(Null) {
      LookupPast(ApplyErrorResult(a, msg).fields, 3, "orchestrator_best");
    }
    forall a ensures Lookup(NoPatchResult(a).fields, "orchestrator_best") == Some(Null) {
      LookupPast(NoPatchResult(a).fields, 3, "orchestrator_best");
    }
  }

  /** The keys of the result dicts differ from one another. */
  lemma DistinctKeys()
    ensures "analysis" != "orchestrator_best" && "optimize" != "orchestrator_best" && "sizing" != "orchestrator_best"
    ensures "error" != "orchestrator_best" && "analysis" != "sizing" && "optimize" != "sizing"
  {
    assert "analysis"[0] != "orchestrator_best"[0] && "optimize"[1] != "orchestrator_best"[1];
    assert "sizing"[0] != "orchestrator_best"[0] && "error"[0] != "orchestrator_best"[0];
    assert "analysis"[0] != "sizing"[0] && "optimize"[0] != "sizing"[0];
  }

  lemma StepUnfold(e: Env, timedOut: nat -> bool, prev: Trace, i: nat)
    requires !prev.loop.stopped
    ensures var r := IterationSpec(e, prev.disk, prev.loop.current);
      (r.outcome.Success? ==> Consistent(r.outcome.value))
      && Step(e, timedOut, prev, i)
         == Trace(Advance(prev.loop, i, r.outcome, timedOut(i)), r.disk, prev.asked + r.asked, prev.simulated + r.simulated)
  {
    IterationResultsAreConsistent(e, prev.disk, prev.loop.current);
  }

  lemma Associative<T>(a: seq<T>, b: seq<T>, c: seq<T>)
    ensures (a + b) + c == a + (b + c)
  {
  }

  /** Once the loop breaks, later turns change nothing. */
  lemma {:induction false} ReplayStops(e: Env, timedOut: nat -> bool, base: string, d0: NetlistPatch.Disk, k: nat, n: nat)
    requires k <= n
    requires k == n || Replay(e, timedOut, base, d0, k).loop.stopped
    ensures Replay(e, timedOut, base, d0, n) == Replay(e, timedOut, base, d0, k)
    decreases n - k
  {
    if k < n {
      ReplayStops(e, timedOut, base, d0, k, n - 1);
    }
  }

  /** Each turn adds exactly one history entry until the loop breaks, so the
      history is never longer than `max_iters`. */
  lemma {:induction false} HistoryBounded(e: Env, timedOut: nat -> bool, base: string, d0: NetlistPatch.Disk, n: nat)
    ensures |Replay(e, timedOut, base, d0, n).loop.history| <= n
    ensures !Replay(e, timedOut, base, d0, n).loop.stopped ==> |Replay(e, timedOut, base, d0, n).loop.history| == n
  {
    if n > 0 {
      HistoryBounded(e, timedOut, base, d0, n - 1);
      StepLength(e, timedOut, Replay(e, timedOut, base, d0, n - 1), n - 1);
    }
  }

  /** After `i` turns the history has at most `i` entries, exactly `i` while
      the run goes on; one more turn keeps that with `i + 1`. */
  lemma StepLength(e: Env, timedOut: nat -> bool, prev: Trace, i: nat)
    requires |prev.loop.history| <= i && (!prev.loop.stopped ==> |prev.loop.history| == i)
    ensures var t := Step(e, timedOut, prev, i);
      |t.loop.history| <= i + 1 && (!t.loop.stopped ==> |t.loop.history| == i + 1)
  {
    StepHistory(e, timedOut, prev, i);
  }

  /** A turn leaves a stopped run alone and otherwise adds one entry to the
      history. */
  lemma StepHistory(e: Env, timedOut: nat -> bool, prev: Trace, i: nat)
    ensures prev.loop.stopped ==> Step(e, timedOut, prev, i) == prev
    ensures !prev.loop.stopped ==> |Step(e, timedOut, prev, i).loop.history| == |prev.loop.history| + 1
  {
    if !prev.loop.stopped {
      var it := IterationSpec(e, prev.disk, prev.loop.current);
      IterationResultsAreConsistent(e, prev.disk, prev.loop.current);
      assert Step(e, timedOut, prev, i).loop == Advance(prev.loop, i, it.outcome, timedOut(i));
    }
  }

  /** An iteration that overruns ends the run with a timeout entry. */
  lemma {:induction false} TimeoutEndsRun(e: Env, timedOut: nat -> bool, base: string, d0: NetlistPatch.Disk, k: nat, n: nat)
    requires k < n && timedOut(k) && !Replay(e, timedOut, base, d0, k).loop.stopped
    ensures var h := Replay(e, timedOut, base, d0, n).loop.history;
      Replay(e, timedOut, base, d0, n).loop.stopped && |h| == k + 1 && h[k] == ErrorEntry("timeout", k)
  {
    HistoryBounded(e, timedOut, base, d0, k);
    ReplayStops(e, timedOut, base, d0, k + 1, n);
  }

  /** An iteration that raises (and does not overrun) ends the run with an
      entry holding the exception's message and the 1-based iteration. */
  lemma {:induction false} ExceptionEndsRun(e: Env, timedOut: nat -> bool, base: string, d0: NetlistPatch.Disk, k: nat, n: nat)
    requires k < n && !timedOut(k) && !Replay(e, timedOut, base, d0, k).loop.stopped
    requires IterationSpec(e, Replay(e, timedOut, base, d0, k).disk, Replay(e, timedOut, base, d0, k).loop.current).outcome.Failure?
    ensures var prev := Replay(e, timedOut, base, d0, k);
      var err := IterationSpec(e, prev.disk, prev.loop.current).outcome.error;
      var h := Replay(e, timedOut, base, d0, n).loop.history;
      Replay(e, timedOut, base, d0, n).loop.stopped && |h| == k + 1 && h[k] == ErrorEntry(err, k)
  {
    HistoryBounded(e, timedOut, base, d0, k);
    ReplayStops(e, timedOut, base, d0, k + 1, n);
  }

  /** The next netlist is the accepted one: the best changes only when the
      iteration reports an orchestrator best together with an integer index,
      and then it is the sizing netlist for index 1 and the current netlist
      otherwise; the best result follows the orchestrator best. */
  lemma BestUpdate(s: Loop, it: nat, res: Json)
    requires Consistent(res)
    ensures var s' := Advance(s, it, Success(res), false);
      var orchesBest := Get(res.fields, "orchestrator_best");
      var index := AsInt(Get(res.fields, "orchestrator_best_index"));
      && s'.history == s.history + [res] && !s'.stopped
      && s'.current == s'.best
      && (orchesBest == Null ==> s'.best == s.best && s'.bestResult == s.bestResult)
      && (orchesBest != Null ==> s'.bestResult == orchesBest)
      && (orchesBest != Null && index.None? ==> s'.best == s.best)
      && (orchesBest != Null && index == Some(1) && Truthy(SizedNetlist(res.fields)) ==> Str(s'.best) == SizedNetlist(res.fields))
      && (orchesBest != Null && index.Some? && !(index == Some(1) && Truthy(SizedNetlist(res.fields))) ==> s'.best == s.current)
  {
  }

  /** The report of every run names a best netlist, which is the netlist the
      loop would carry into its next iteration. */
  lemma {:induction false} ReportCarriesBest(e: Env, timedOut: nat -> bool, base: string, d0: NetlistPatch.Disk, n: nat)
    ensures var s := Replay(e, timedOut, base, d0, n).loop;
      Lookup(Report(s).fields, "best_netlist") == Some(Str(s.best)) && s.current == s.best
  {
    ReplayKeepsBest(e, timedOut, base, d0, n);
    ReportNamesBest(Replay(e, timedOut, base, d0, n).loop);
  }

  /** Every turn keeps the current netlist equal to the best one. */
  lemma {:induction false} ReplayKeepsBest(e: Env, timedOut: nat -> bool, base: string, d0: NetlistPatch.Disk, n: nat)
    ensures var s := Replay(e, timedOut, base, d0, n).loop; s.current == s.best
  {
    if n > 0 {
      ReplayKeepsBest(e, timedOut, base, d0, n - 1);
      StepKeepsBest(e, timedOut, Replay(e, timedOut, base, d0, n - 1), n - 1);
    }
  }

  /** The report's `best_netlist` is the loop's best netlist. */
  lemma ReportNamesBest(s: Loop)
    ensures Lookup(Report(s).fields, "best_netlist") == Some(Str(s.best))
  {
  }

  /** A turn keeps the current netlist equal to the best one. */
  lemma StepKeepsBest(e: Env, timedOut: nat -> bool, prev: Trace, i: nat)
    requires prev.loop.current == prev.loop.best
    ensures var t := Step(e, timedOut, prev, i); t.loop.current == t.loop.best
  {
    if !prev.loop.stopped {
      var it := IterationSpec(e, prev.disk, prev.loop.current);
      IterationResultsAreConsistent(e, prev.disk, prev.loop.current);
      assert Step(e, timedOut, prev, i).loop == Advance(prev.loop, i, it.outcome, timedOut(i));
    }
  }
}
