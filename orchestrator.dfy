/** `eesizer/agents/orchestrator.py`: one evaluation of a netlist against a
    tool chain. The builders rewrite the netlist for each requested analysis,
    the simulator runs once on the result, and the bias summary and the
    requested metrics are read back from the run directory.

    The simulator is a collaborator: `respond` says what a run on a netlist
    leaves behind (its success flag and standard output, the operating-point
    log, and what `genfromtxt` makes of the AC and transient tables), and the
    simulator object keeps the list of netlists it was run on. Creating the run
    directory and writing `run_summary.json` are left out. */
module Orchestrator {
  import opened Wrappers
  import opened Text
  import opened Json
  import NetlistBuilders
  import Oplog
  import Parsers
  import Metrics
  import Paths

  /** What one simulator run leaves for the orchestrator to read. */
  datatype SimResult = SimResult(
    success: bool,
    stdout: Option<string>,
    opText: string,
    acTable: Option<Parsers.Table>,
    tranTable: Option<Parsers.Table>)

  /** The simulator, reduced to the runs it was asked for. */
  class Simulator {
    var runs: seq<string>
    const respond: string -> SimResult

    constructor (respond: string -> SimResult)
      ensures runs == [] && this.respond == respond
    {
      runs := [];
      this.respond := respond;
    }

    /** `sim.run(netlist_text, request)` */
    method Run(netlist: string) returns (res: SimResult)
      modifies this`runs
      ensures runs == old(runs) + [netlist] && res == respond(netlist)
    {
      runs := runs + [netlist];
      res := respond(netlist);
    }
  }

  /** `tool_chain.get("tool_calls", [])`, as iterated by the three passes. */
  function ToolCalls(toolChain: Json): Result<seq<Json>, string> {
    if toolChain.Obj? then Iterate(GetOr(toolChain.fields, "tool_calls", Arr([])))
    else Failure(NoAttribute(toolChain, "get"))
  }

  /** `call.get("name", "").lower()` */
  function CallName(call: Json): (r: Result<string, string>)
    ensures r.Success? ==> call.Obj?
  {
    if !call.Obj? then Failure(NoAttribute(call, "get"))
    else
      var v := GetOr(call.fields, "name", Str(""));
      if v.Str? then Success(Lower(v.s)) else Failure(NoAttribute(v, "lower"))
  }

  /** The names that select the transient builder. */
  predicate IsTranName(name: string) {
    name == "transient_simulation" || name == "tran_simulation" || name == "transient"
  }

  predicate IsBuilderName(name: string) {
    name == "ac_simulation" || IsTranName(name) || name == "dc_simulation"
  }

  /** The body of the build pass for one lower-cased name. */
  function BuildStep(netlist: string, name: string, signals: seq<string>): Result<string, string> {
    if name == "ac_simulation" then
      NetlistBuilders.BuildAcNetlist(netlist, signals, NetlistBuilders.AcOutfile, NetlistBuilders.AcCmd)
    else if IsTranName(name) then
      NetlistBuilders.BuildTranNetlist(netlist, signals, NetlistBuilders.TranOutfile, NetlistBuilders.TranCmd)
    else if name == "dc_simulation" then
      NetlistBuilders.BuildDcNetlist(netlist, NetlistBuilders.DcSweep, Some(signals), NetlistBuilders.DcOutfile)
    else Success(netlist)
  }

  /** The build pass's body for one call. */
  function BuildCall(netlist: string, call: Json, signals: seq<string>): (r: Result<string, string>)
    ensures r.Success? ==> CallName(call).Success?
  {
    var name :- CallName(call);
    BuildStep(netlist, name, signals)
  }

  /** The build pass over the first `n` calls: the netlist after them, or
      the first error (a call without a name string, or a missing ".end"). */
  function BuildPass(netlist: string, calls: seq<Json>, signals: seq<string>, n: nat): (r: Result<string, string>)
    requires n <= |calls|
    ensures r.Success? ==> forall i :: 0 <= i < n ==> CallName(calls[i]).Success?
  {
    if n == 0 then Success(netlist)
    else
      var prev :- BuildPass(netlist, calls, signals, n - 1);
      BuildCall(prev, calls[n - 1], signals)
  }

  /** The result key a metric name fills. */
  function MetricKey(name: string): Option<string> {
    if name == "ac_gain" then Some("ac_gain_db")
    else if name == "bandwidth" then Some("bandwidth_hz")
    else if name == "unity_bandwidth" then Some("unity_bandwidth_hz")
    else if name == "phase_margin" then Some("phase_margin_deg")
    else if name == "tran_gain" then Some("tran_gain_db")
    else None
  }

  /** The metric a name asks for, computed on what the run left behind. */
  function MetricValue(name: string, sr: SimResult, num: Metrics.Numerics): Result<real, Parsers.IndexError>
    requires MetricKey(name).Some?
  {
    if name == "ac_gain" then Metrics.AcGainDbFromDat(num, sr.acTable)
    else if name == "bandwidth" then Metrics.BandwidthHzFromDat(num, sr.acTable)
    else if name == "unity_bandwidth" then Metrics.UnityBandwidthHzFromDat(num, sr.acTable)
    else if name == "phase_margin" then Metrics.PhaseMarginDegFromDat(num, sr.acTable)
    else Metrics.TranGainDbFromDat(num, sr.tranTable, Metrics.DefaultInputPp)
  }

  /** The body of the metric pass for one name: the value under its key, or
      the error's text under `err_<name>`; other names change nothing. */
  function MetricStep(results: seq<(string, Json)>, name: string, sr: SimResult, num: Metrics.Numerics): seq<(string, Json)> {
    if MetricKey(name).None? then results
    else
      var v := MetricValue(name, sr, num);
      if v.Success? then Put(results, MetricKey(name).value, Float(v.value))
      else Put(results, "err_" + name, Str(v.error.Message()))
  }

  /** The metric pass over the first `n` calls, whose names are known to be
      readable. */
  function MetricsPass(results: seq<(string, Json)>, calls: seq<Json>, n: nat, sr: SimResult, num: Metrics.Numerics): seq<(string, Json)>
    requires n <= |calls|
    requires forall i :: 0 <= i < n ==> CallName(calls[i]).Success?
  {
    if n == 0 then results
    else MetricStep(MetricsPass(results, calls, n - 1, sr, num), CallName(calls[n - 1]).value, sr, num)
  }

  /** One entry of `vgs_summary`. */
  function BiasEntry(d: Oplog.DeviceBias): Json {
    Obj([("name", Str(d.name)), ("vgs", Float(d.vgs)), ("vth", Float(d.vth)), ("margin", Float(d.Margin()))])
  }

  function BiasSummary(devices: seq<Oplog.DeviceBias>): (r: seq<Json>)
    ensures |r| == |devices| && forall i :: 0 <= i < |r| ==> r[i] == BiasEntry(devices[i])
  {
    seq(|devices|, i requires 0 <= i < |devices| => BiasEntry(devices[i]))
  }

  /** `len(res.stdout or "")` */
  function StdoutLen(stdout: Option<string>): nat {
    if stdout.Some? then |stdout.value| else 0
  }

  /** The entries `run_once` sets before the metric pass. */
  function BaseResults(sr: SimResult, devices: seq<Oplog.DeviceBias>): seq<(string, Json)> {
    [("success", Bool(sr.success)),
     ("stdout_len", Int(StdoutLen(sr.stdout))),
     ("vgs_summary", Arr(BiasSummary(devices)))]
  }

  /** `run_once(netlist_text, tool_chain)`: the result dict, or the error that
      escapes, together with the netlist the simulator ran on (none when the
      build pass raised first). */
  function RunOnceSpec(signals: seq<string>, respond: string -> SimResult, num: Metrics.Numerics,
                       parseFloat: string -> Option<real>, netlist: string, toolChain: Json): (Result<Json, string>, Option<string>)
  {
    var calls := ToolCalls(toolChain);
    if calls.Failure? then (Failure(calls.error), None)
    else
      var built := BuildPass(netlist, calls.value, signals, |calls.value|);
      if built.Failure? then (Failure(built.error), None)
      else
        var sr := respond(built.value);
        (Success(Obj(MetricsPass(BaseResults(sr, Oplog.OplogSpec(sr.opText, parseFloat)), calls.value, |calls.value|, sr, num))), Some(built.value))
  }

  /** The first pass of `run_once`: each call's name is lowered and the
      matching builder rewrites the netlist. */
  method BuildAll(netlist: string, calls: seq<Json>, signals: seq<string>) returns (r: Result<string, string>)
    ensures r == BuildPass(netlist, calls, signals, |calls|)
  {
    var current := netlist;
    var k := 0;
    while k < |calls|
      invariant 0 <= k <= |calls|
      invariant BuildPass(netlist, calls, signals, k) == Success(current)
    {
      var next := BuildCall(current, calls[k], signals);
      BuildPassAfterSuccess(netlist, calls, signals, k + 1, current);
      if next.Failure? {
        BuildPassFailureSticks(netlist, calls, signals, k + 1, |calls|);
        return next;
      }
      current := next.value;
      k := k + 1;
    }
    return Success(current);
  }

  /** The third pass of `run_once`: each metric the calls name is computed
      and recorded. */
  method RecordMetrics(base: seq<(string, Json)>, calls: seq<Json>, sr: SimResult, num: Metrics.Numerics)
      returns (results: seq<(string, Json)>)
    requires forall i :: 0 <= i < |calls| ==> CallName(calls[i]).Success?
    ensures results == MetricsPass(base, calls, |calls|, sr, num)
  {
    results := base;
    var j := 0;
    while j < |calls|
      invariant 0 <= j <= |calls|
      invariant results == MetricsPass(base, calls, j, sr, num)
    {
      results := MetricStep(results, CallName(calls[j]).value, sr, num);
      j := j + 1;
    }
  }

  class Orchestrator {
    const runDir: string
    const signals: seq<string>
    const sim: Simulator
    const num: Metrics.Numerics
    const parseFloat: string -> Option<real>

    /** `Orchestrator(run_dir, signals)`: an empty or missing run directory
        means `OUTPUT_DIR`, and an empty or missing signal list means
        `["out"]`. */
    constructor (baseDir: string, runDir: Option<string>, signals: Option<seq<string>>,
                 respond: string -> SimResult, num: Metrics.Numerics, parseFloat: string -> Option<real>)
      ensures this.runDir == if runDir.Some? && runDir.value != [] then runDir.value else Paths.OutputDir(baseDir)
      ensures this.signals == if signals.Some? && signals.value != [] then signals.value else ["out"]
      ensures fresh(sim) && sim.runs == [] && sim.respond == respond
      ensures this.num == num && this.parseFloat == parseFloat
    {
      this.runDir := if runDir.Some? && runDir.value != [] then runDir.value else Paths.OutputDir(baseDir);
      this.signals := if signals.Some? && signals.value != [] then signals.value else ["out"];
      this.num := num;
      this.parseFloat := parseFloat;
      sim := new Simulator(respond);
    }

    /** `run_once(netlist_text, tool_chain)` */
    method RunOnce(netlistText: string, toolChain: Json) returns (r: Result<Json, string>)
      modifies sim`runs
      ensures var (res, simulated) := RunOnceSpec(signals, sim.respond, num, parseFloat, netlistText, toolChain);
        r == res && sim.runs == old(sim.runs) + (if simulated.Some? then [simulated.value] else [])
    {
      var calls := ToolCalls(toolChain);
      if calls.Failure? {
        return Failure(calls.error);
      }
      var built := BuildAll(netlistText, calls.value, signals);
      if built.Failure? {
        return Failure(built.error);
      }
      var simNetlist := built.value;

      // The second pass looks for "run_ngspice"; either way the simulator
      // runs exactly once, on the built netlist.
      var ran := false;
      var res: SimResult := SimResult(false, None, "", None, None);
      var i := 0;
      while i < |calls.value| && !ran
        invariant 0 <= i <= |calls.value|
        invariant sim.runs == old(sim.runs) + (if ran then [simNetlist] else [])
        invariant ran ==> res == sim.respond(simNetlist)
      {
        if CallName(calls.value[i]).value == "run_ngspice" {
          res := sim.Run(simNetlist);
          ran := true;
        }
        i := i + 1;
      }
      if !ran {
        res := sim.Run(simNetlist);
      }

      var devices := Oplog.ParseVgsVthFromOplog(res.opText, parseFloat);
      var results := RecordMetrics(BaseResults(res, devices), calls.value, res, num);
      return Success(Obj(results));
    }
  }

  /** A failing build pass raises before any simulation; otherwise the
      simulator runs exactly once, on the netlist the builders produced. */
  lemma OneRunOnBuiltNetlist(signals: seq<string>, respond: string -> SimResult, num: Metrics.Numerics,
                             parseFloat: string -> Option<real>, netlist: string, toolChain: Json)
    ensures var (res, simulated) := RunOnceSpec(signals, respond, num, parseFloat, netlist, toolChain);
      && (simulated.Some? <==> res.Success?)
      && (res.Success? ==>
        var calls := ToolCalls(toolChain).value;
        BuildPass(netlist, calls, signals, |calls|) == Success(simulated.value))
  {
  }

  /** Calls whose names select no builder leave the netlist as it is. */
  lemma {:induction false} BuildPassKeepsUnbuiltNetlist(netlist: string, calls: seq<Json>, signals: seq<string>, n: nat)
    requires n <= |calls|
    requires forall i :: 0 <= i < n ==> CallName(calls[i]).Success? && !IsBuilderName(CallName(calls[i]).value)
    ensures BuildPass(netlist, calls, signals, n) == Success(netlist)
  {
    if n > 0 {
      BuildPassKeepsUnbuiltNetlist(netlist, calls, signals, n - 1);
    }
  }

  /** Once the build pass has raised, the later calls are never reached. */
  lemma {:induction false} BuildPassFailureSticks(netlist: string, calls: seq<Json>, signals: seq<string>, k: nat, n: nat)
    requires k <= n <= |calls|
    requires BuildPass(netlist, calls, signals, k).Failure?
    ensures BuildPass(netlist, calls, signals, n) == BuildPass(netlist, calls, signals, k)
    decreases n - k
  {
    if k < n {
      BuildPassFailureSticks(netlist, calls, signals, k, n - 1);
      var before := BuildPass(netlist, calls, signals, n - 1);
      assert before == BuildPass(netlist, calls, signals, k);
      BuildPassAfterFailure(netlist, calls, signals, n);
      assert BuildPass(netlist, calls, signals, n) == before;
    }
  }

  /** After a pass that succeeded, one more call is that call's build. */
  lemma BuildPassAfterSuccess(netlist: string, calls: seq<Json>, signals: seq<string>, n: nat, prev: string)
    requires 0 < n <= |calls|
    requires BuildPass(netlist, calls, signals, n - 1) == Success(prev)
    ensures BuildPass(netlist, calls, signals, n) == BuildCall(prev, calls[n - 1], signals)
  {
  }

  /** The pass over `n` calls fails as the pass over `n - 1` did. */
  lemma BuildPassAfterFailure(netlist: string, calls: seq<Json>, signals: seq<string>, n: nat)
    requires 0 < n <= |calls|
    requires BuildPass(netlist, calls, signals, n - 1).Failure?
    ensures BuildPass(netlist, calls, signals, n) == BuildPass(netlist, calls, signals, n - 1)
  {
  }

  /** A single call whose name lowers to "ac_simulation" is the AC builder
      on the netlist: its block runs "ac dec 10 1 1e9" and writes
      "output_ac.dat". */
  lemma AcCallBuildsAcNetlist(netlist: string, name: string, signals: seq<string>)
    requires Lower(name) == "ac_simulation"
    ensures BuildPass(netlist, [Obj([("name", Str(name))])], signals, 1)
      == NetlistBuilders.BuildNetlist(netlist, signals, "output_ac.dat", "ac dec 10 1 1e9")
  {
    assert CallName(Obj([("name", Str(name))])) == Success("ac_simulation");
  }

  /** The keys the metric pass may write. */
  predicate MetricPassKey(k: string) {
    k in {"ac_gain_db", "bandwidth_hz", "unity_bandwidth_hz", "phase_margin_deg", "tran_gain_db"}
    || (|k| >= 4 && k[..4] == "err_")
  }

  /** The metric pass leaves every other key as it found it. */
  lemma {:induction false} MetricsPassKeepsOtherKeys(results: seq<(string, Json)>, calls: seq<Json>, n: nat, sr: SimResult, num: Metrics.Numerics, k: string)
    requires n <= |calls|
    requires forall i :: 0 <= i < n ==> CallName(calls[i]).Success?
    requires !MetricPassKey(k)
    ensures Lookup(MetricsPass(results, calls, n, sr, num), k) == Lookup(results, k)
  {
    if n > 0 {
      MetricsPassKeepsOtherKeys(results, calls, n - 1, sr, num, k);
      var prev := MetricsPass(results, calls, n - 1, sr, num);
      assert Lookup(prev, k) == Lookup(results, k);
      var name := CallName(calls[n - 1]).value;
      assert MetricsPass(results, calls, n, sr, num) == MetricStep(prev, name, sr, num);
      MetricStepKeepsOtherKeys(prev, name, sr, num, k);
    }
  }

  /** One metric step leaves every other key as it found it. */
  lemma MetricStepKeepsOtherKeys(results: seq<(string, Json)>, name: string, sr: SimResult, num: Metrics.Numerics, k: string)
    requires !MetricPassKey(k)
    ensures Lookup(MetricStep(results, name, sr, num), k) == Lookup(results, k)
  {
    if MetricKey(name).Some? {
      var v := MetricValue(name, sr, num);
      assert ("err_" + name)[..4] == "err_";
      if v.Success? {
        LookupPut(results, MetricKey(name).value, Float(v.value), k);
      } else {
        LookupPut(results, "err_" + name, Str(v.error.Message()), k);
      }
    }
  }

  /** Every result holds the success flag, the length of the standard output
      (0 when there is none) and one bias entry per device of the log, whose
      margin is its vgs minus its vth. */
  lemma ResultsKeepBaseEntries(sr: SimResult, devices: seq<Oplog.DeviceBias>, calls: seq<Json>, n: nat, num: Metrics.Numerics)
    requires n <= |calls|
    requires forall i :: 0 <= i < n ==> CallName(calls[i]).Success?
    ensures var r := MetricsPass(BaseResults(sr, devices), calls, n, sr, num);
      && Lookup(r, "success") == Some(Bool(sr.success))
      && Lookup(r, "stdout_len") == Some(Int(StdoutLen(sr.stdout)))
      && Lookup(r, "vgs_summary") == Some(Arr(BiasSummary(devices)))
  {
    var base := BaseResults(sr, devices);
    assert !MetricPassKey("success") && !MetricPassKey("stdout_len") && !MetricPassKey("vgs_summary") by {
      assert "success"[..4][0] != "err_"[0];
      assert "stdout_len"[..4][0] != "err_"[0];
      assert "vgs_summary"[..4][0] != "err_"[0];
    }
    assert Lookup(base, "success") == Some(Bool(sr.success));
    assert Lookup(base, "stdout_len") == Some(Int(StdoutLen(sr.stdout))) by {
      assert base[0].0 != "stdout_len" && base[1..][0].0 == "stdout_len";
    }
    assert Lookup(base, "vgs_summary") == Some(Arr(BiasSummary(devices))) by {
      var tail := [("vgs_summary", Arr(BiasSummary(devices)))];
      assert base[1..][1..] == tail;
      assert Lookup(tail, "vgs_summary") == Some(Arr(BiasSummary(devices)));
      assert "stdout_len"[0] != "vgs_summary"[0];
      assert Lookup(base[1..], "vgs_summary") == Lookup(tail, "vgs_summary");
    }
    MetricsPassKeepsOtherKeys(base, calls, n, sr, num, "success");
    MetricsPassKeepsOtherKeys(base, calls, n, sr, num, "stdout_len");
    MetricsPassKeepsOtherKeys(base, calls, n, sr, num, "vgs_summary");
  }

  /** Each metric the calls ask for ends up in the result: its value under
      its key, or the error's text under `err_<name>`. A failing metric does
      not stop the later ones. */
  lemma {:induction false} EveryMetricRecorded(results: seq<(string, Json)>, calls: seq<Json>, n: nat, sr: SimResult, num: Metrics.Numerics, i: nat)
    requires n <= |calls|
    requires forall j :: 0 <= j < n ==> CallName(calls[j]).Success?
    requires i < n && MetricKey(CallName(calls[i]).value).Some?
    ensures var name := CallName(calls[i]).value;
      var r := MetricsPass(results, calls, n, sr, num);
      HasKey(r, MetricKey(name).value) || HasKey(r, "err_" + name)
  {
    var name := CallName(calls[i]).value;
    var prev := MetricsPass(results, calls, n - 1, sr, num);
    var last := CallName(calls[n - 1]).value;
    assert MetricsPass(results, calls, n, sr, num) == MetricStep(prev, last, sr, num);
    if i < n - 1 {
      EveryMetricRecorded(results, calls, n - 1, sr, num, i);
      MetricStepKeepsKeys(prev, last, sr, num, MetricKey(name).value);
      MetricStepKeepsKeys(prev, last, sr, num, "err_" + name);
    } else {
      MetricStepRecords(prev, name, sr, num);
    }
  }

  /** One metric step never removes a key. */
  lemma MetricStepKeepsKeys(results: seq<(string, Json)>, name: string, sr: SimResult, num: Metrics.Numerics, k: string)
    ensures HasKey(results, k) ==> HasKey(MetricStep(results, name, sr, num), k)
  {
    if MetricKey(name).Some? {
      var v := MetricValue(name, sr, num);
      if v.Success? {
        LookupPut(results, MetricKey(name).value, Float(v.value), k);
      } else {
        LookupPut(results, "err_" + name, Str(v.error.Message()), k);
      }
    }
  }

  /** The step for a metric name fills its key or its error key. */
  lemma MetricStepRecords(results: seq<(string, Json)>, name: string, sr: SimResult, num: Metrics.Numerics)
    requires MetricKey(name).Some?
    ensures HasKey(MetricStep(results, name, sr, num), MetricKey(name).value)
      || HasKey(MetricStep(results, name, sr, num), "err_" + name)
  {
    var v := MetricValue(name, sr, num);
    if v.Success? {
      LookupPut(results, MetricKey(name).value, Float(v.value), MetricKey(name).value);
    } else {
      LookupPut(results, "err_" + name, Str(v.error.Message()), "err_" + name);
    }
  }

  /** A metric whose table cannot be read as enough columns is recorded as
      its error, with numpy's text. */
  lemma MetricErrorText(results: seq<(string, Json)>, name: string, sr: SimResult, num: Metrics.Numerics)
    requires MetricKey(name).Some? && MetricValue(name, sr, num).Failure?
    ensures Lookup(MetricStep(results, name, sr, num), "err_" + name) == Some(Str(MetricValue(name, sr, num).error.Message()))
    ensures forall k :: k != "err_" + name ==> Lookup(MetricStep(results, name, sr, num), k) == Lookup(results, k)
  {
    var v := MetricValue(name, sr, num);
    forall k {
      LookupPut(results, "err_" + name, Str(v.error.Message()), k);
    }
  }

  /** A tool chain without "tool_calls" builds nothing, runs the simulator
      once on the netlist as given and reports no metric. */
  lemma MissingToolCalls(signals: seq<string>, respond: string -> SimResult, num: Metrics.Numerics,
                         parseFloat: string -> Option<real>, netlist: string)
    ensures RunOnceSpec(signals, respond, num, parseFloat, netlist, Obj([])) ==
      (Success(Obj(BaseResults(respond(netlist), Oplog.OplogSpec(respond(netlist).opText, parseFloat)))), Some(netlist))
  {
  }
}
