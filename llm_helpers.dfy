/** The self-contained helpers of `eesizer/llm.py`: the filter over the
    extracted tool-call arguments and the three formatters that turn them
    into `{"name": ...}` entries, then into a tool chain.

    What the SDK scan finds inside a function-calling response, the text a
    response renders as, and the JSON candidates `_try_load_json_candidates`
    decodes from a text are collaborators. */
module LlmHelpers {
  import opened Wrappers
  import opened Text
  import opened Json
  import Orchestrator

  // ------------------------------------------------------- string order

  /** `a < b` on Python strings: code point by code point, a proper prefix
      first. */
  predicate StrLess(a: string, b: string)
    decreases |a|
  {
    if a == [] then b != []
    else if b == [] then false
    else if a[0] != b[0] then a[0] < b[0]
    else StrLess(a[1..], b[1..])
  }

  lemma {:induction false} StrLessIrreflexive(a: string)
    ensures !StrLess(a, a)
    decreases |a|
  {
    if a != [] {
      StrLessIrreflexive(a[1..]);
    }
  }

  lemma {:induction false} StrLessTransitive(a: string, b: string, c: string)
    requires StrLess(a, b) && StrLess(b, c)
    ensures StrLess(a, c)
    decreases |a|
  {
    if a != [] && a[0] == b[0] && b[0] == c[0] {
      StrLessTransitive(a[1..], b[1..], c[1..]);
    }
  }

  lemma {:induction false} StrLessTotal(a: string, b: string)
    requires a != b
    ensures StrLess(a, b) || StrLess(b, a)
    decreases |a|
  {
    if a != [] && b != [] && a[0] == b[0] {
      assert a == [a[0]] + a[1..] && b == [b[0]] + b[1..];
      StrLessTotal(a[1..], b[1..]);
    }
  }

  predicate StrictlySorted(xs: seq<string>) {
    forall i, j :: 0 <= i < j < |xs| ==> StrLess(xs[i], xs[j])
  }

  /** `m` comes before every other element of `s`. */
  predicate IsLeast(m: string, s: set<string>) {
    m in s && forall y :: y in s && y != m ==> StrLess(m, y)
  }

  /** Every non-empty set of strings has a least element. */
  lemma {:induction false} Least(s: set<string>) returns (m: string)
    requires s != {}
    ensures IsLeast(m, s)
    decreases |s|
  {
    var x :| x in s;
    var rest := s - {x};
    if rest == {} {
      assert s == {x};
      m := x;
    } else {
      var n := Least(rest);
      if StrLess(x, n) {
        m := x;
        forall y | y in s && y != x
          ensures StrLess(x, y)
        {
          if y != n {
            assert y in rest;
            StrLessTransitive(x, n, y);
          }
        }
      } else {
        m := n;
        forall y | y in s && y != n
          ensures StrLess(n, y)
        {
          if y == x {
            StrLessTotal(x, n);
          } else {
            assert y in rest;
          }
        }
      }
    }
  }

  /** `sorted(s)` for a set of strings. */
  method Sorted(s: set<string>) returns (r: seq<string>)
    ensures StrictlySorted(r)
    ensures forall x :: x in r <==> x in s
    ensures |r| == |s|
  {
    r := [];
    var rest := s;
    while rest != {}
      invariant rest <= s
      invariant forall x :: x in s <==> x in r || x in rest
      invariant forall x :: x in r ==> x !in rest
      invariant StrictlySorted(r)
      invariant forall i, y :: 0 <= i < |r| && y in rest ==> StrLess(r[i], y)
      invariant |r| + |rest| == |s|
      decreases rest
    {
      ghost var least := Least(rest);
      var m :| IsLeast(m, rest);
      assert IsLeast(m, rest);
      assert forall y :: y in rest - {m} ==> StrLess(m, y);
      r := r + [m];
      rest := rest - {m};
    }
  }

  /** `[{"name": x} for x in xs]` */
  function NameEntries(xs: seq<string>): (r: seq<Json>)
    ensures |r| == |xs| && forall i :: 0 <= i < |xs| ==> r[i] == Obj([("name", Str(xs[i]))])
  {
    seq(|xs|, i requires 0 <= i < |xs| => Obj([("name", Str(xs[i]))]))
  }

  // ------------------------------------------------- simulation types

  /** `a or b`: the first operand when it is truthy, else the second. */
  function Or(a: Json, b: Json): (r: Json)
    ensures Truthy(a) ==> r == a
    ensures !Truthy(a) ==> r == b
  {
    if Truthy(a) then a else b
  }

  /** The simulation type a lower-cased name stands for. */
  function CanonicalType(t: string): (r: Option<string>)
    ensures r.Some? ==> r.value in {"ac_simulation", "dc_simulation", "tran_simulation"}
  {
    if t == "ac" || t == "ac_simulation" then Some("ac_simulation")
    else if t == "dc" || t == "dc_simulation" then Some("dc_simulation")
    else if t == "transient" || t == "tran" || t == "transient_simulation" then Some("tran_simulation")
    else None
  }

  /** The simulation type one argument dict names, if it names a known one
      by a string; a non-dict raises. */
  function TypeOf(d: Json): Result<Option<string>, string> {
    if !d.Obj? then Failure(NoAttribute(d, "get"))
    else
      var t := Or(Get(d.fields, "simulation_type"), Get(d.fields, "sim_type"));
      if t.Str? then Success(CanonicalType(Lower(t.s))) else Success(None)
  }

  /** The simulation tool one argument dict names by a string, stripped. */
  function ToolOf(d: Json): Result<Option<string>, string> {
    if !d.Obj? then Failure(NoAttribute(d, "get"))
    else
      var st := Or(Or(Get(d.fields, "simulation_tool"), Get(d.fields, "sim_tool")), Get(d.fields, "tool"));
      if st.Str? then Success(Some(Strip(st.s))) else Success(None)
  }

  /** The set a loop that adds `pick(d)` for each dict builds. */
  function Picked(items: seq<Json>, pick: Json -> Result<Option<string>, string>): Result<set<string>, string> {
    if items == [] then Success({})
    else
      var prev :- Picked(items[..|items| - 1], pick);
      var x :- pick(items[|items| - 1]);
      Success(if x.Some? then prev + {x.value} else prev)
  }

  /** The set-building loop shared by the two formatters. */
  method CollectNames(items: seq<Json>, pick: Json -> Result<Option<string>, string>) returns (r: Result<set<string>, string>)
    ensures r == Picked(items, pick)
  {
    var names: set<string> := {};
    var k := 0;
    while k < |items|
      invariant 0 <= k <= |items|
      invariant Picked(items[..k], pick) == Success(names)
    {
      assert items[..k + 1][..k] == items[..k] && items[..k + 1][k] == items[k];
      var x := pick(items[k]);
      if x.Failure? {
        PickedFailSticks(items, pick, k + 1);
        return Failure(x.error);
      }
      if x.value.Some? {
        names := names + {x.value.value};
      }
      k := k + 1;
    }
    assert items[..k] == items;
    return Success(names);
  }

  lemma {:induction false} PickedFailSticks(items: seq<Json>, pick: Json -> Result<Option<string>, string>, k: nat)
    requires k <= |items|
    requires Picked(items[..k], pick).Failure?
    ensures Picked(items, pick) == Picked(items[..k], pick)
    decreases |items| - k
  {
    if k < |items| {
      assert items[..k + 1][..k] == items[..k];
      PickedFailSticks(items, pick, k + 1);
    } else {
      assert items[..k] == items;
    }
  }

  /** A name is collected exactly when some dict yields it, and the loop
      raises exactly when some item is not a dict. */
  lemma {:induction false} PickedMeaning(items: seq<Json>, pick: Json -> Result<Option<string>, string>)
    requires forall d :: pick(d).Success? <==> d.Obj?
    ensures Picked(items, pick).Success? <==> forall i :: 0 <= i < |items| ==> items[i].Obj?
    ensures Picked(items, pick).Success? ==>
      forall x :: x in Picked(items, pick).value <==> exists i :: 0 <= i < |items| && pick(items[i]) == Success(Some(x))
  {
    if items != [] {
      var init := items[..|items| - 1];
      PickedMeaning(init, pick);
      assert forall i :: 0 <= i < |init| ==> init[i] == items[i];
      if Picked(items, pick).Success? {
        var last := |items| - 1;
        forall x
          ensures x in Picked(items, pick).value <==> exists i :: 0 <= i < |items| && pick(items[i]) == Success(Some(x))
        {
          if exists i :: 0 <= i < |items| && pick(items[i]) == Success(Some(x)) {
            var i :| 0 <= i < |items| && pick(items[i]) == Success(Some(x));
            if i < last {
              assert pick(init[i]) == Success(Some(x));
            }
          }
        }
      } else if Picked(init, pick).Success? {
        assert !items[|items| - 1].Obj?;
      } else {
        var i :| 0 <= i < |init| && !init[i].Obj?;
      }
    }
  }

  /** `format_simulation_types(tool_data_list)`: the known simulation types
      the dicts name, each once, in sorted order. */
  method FormatSimulationTypes(items: seq<Json>) returns (r: Result<seq<Json>, string>, ghost names: seq<string>)
    ensures r.Success? <==> Picked(items, TypeOf).Success?
    ensures r.Success? ==> (r.value == NameEntries(names) && StrictlySorted(names)
                            && forall x :: x in names <==> x in Picked(items, TypeOf).value)
  {
    names := [];
    var types :- CollectNames(items, TypeOf);
    var sorted := Sorted(types);
    names := sorted;
    r := Success(NameEntries(sorted));
  }

  /** `format_simulation_tools(tool_data_list)`: the stripped tool names the
      dicts give, each once, in sorted order. */
  method FormatSimulationTools(items: seq<Json>) returns (r: Result<seq<Json>, string>, ghost names: seq<string>)
    ensures r.Success? <==> Picked(items, ToolOf).Success?
    ensures r.Success? ==> (r.value == NameEntries(names) && StrictlySorted(names)
                            && forall x :: x in names <==> x in Picked(items, ToolOf).value)
  {
    names := [];
    var tools :- CollectNames(items, ToolOf);
    var sorted := Sorted(tools);
    names := sorted;
    r := Success(NameEntries(sorted));
  }

  /** Only the three canonical types can come out, and a type comes out
      exactly when some dict names it under "simulation_type" (or under
      "sim_type" when that one is empty), in any letter case and by any of
      its aliases. */
  lemma SimulationTypesMeaning(items: seq<Json>)
    requires forall i :: 0 <= i < |items| ==> items[i].Obj?
    ensures Picked(items, TypeOf).Success?
    ensures forall x :: x in Picked(items, TypeOf).value ==> x in {"ac_simulation", "dc_simulation", "tran_simulation"}
    ensures forall x :: x in Picked(items, TypeOf).value <==>
      exists i :: 0 <= i < |items| && TypeOf(items[i]) == Success(Some(x))
  {
    PickedMeaning(items, TypeOf);
  }

  /** The three canonical names in the order `sorted` puts them. */
  lemma CanonicalOrder()
    ensures StrLess("ac_simulation", "dc_simulation") && StrLess("dc_simulation", "tran_simulation")
  {
    assert "ac_simulation"[0] < "dc_simulation"[0] < "tran_simulation"[0];
  }

  // ------------------------------------------------------ analysis types

  /** The names `format_analysis_types` lists as known. Its two branches do
      the same, so the list changes nothing. */
  const AllowedAnalyses: set<string> := {"ac_gain", "output_swing", "offset", "icmr", "tran_gain", "bandwidth",
    "unity_bandwidth", "phase_margin", "power", "thd_input_range", "cmrr_tran"}

  /** The analysis one dict names, as given: under "analysis_type", else
      "analysis", else "analysis_type_name". */
  function AnalysisOf(d: Json): Result<Json, string> {
    if !d.Obj? then Failure(NoAttribute(d, "get"))
    else Success(Or(Or(Get(d.fields, "analysis_type"), Get(d.fields, "analysis")), Get(d.fields, "analysis_type_name")))
  }

  /** The entries for the dicts, in order; an empty name is skipped and a
      name that is not a string has no `strip`. */
  function AnalysisEntries(items: seq<Json>): Result<seq<Json>, string> {
    if items == [] then Success([])
    else
      var prev :- AnalysisEntries(items[..|items| - 1]);
      var a :- AnalysisOf(items[|items| - 1]);
      if !Truthy(a) then Success(prev)
      else if !a.Str? then Failure(NoAttribute(a, "strip"))
      else Success(prev + [Obj([("name", Str(Lower(Strip(a.s))))])])
  }

  /** `format_analysis_types(tool_data_list)` */
  method FormatAnalysisTypes(items: seq<Json>) returns (r: Result<seq<Json>, string>)
    ensures r == AnalysisEntries(items)
  {
    var out: seq<Json> := [];
    var k := 0;
    while k < |items|
      invariant 0 <= k <= |items|
      invariant AnalysisEntries(items[..k]) == Success(out)
    {
      assert items[..k + 1][..k] == items[..k] && items[..k + 1][k] == items[k];
      var a := AnalysisOf(items[k]);
      if a.Failure? {
        AnalysisEntriesFailSticks(items, k + 1);
        return Failure(a.error);
      }
      if Truthy(a.value) {
        if !a.value.Str? {
          AnalysisEntriesFailSticks(items, k + 1);
          return Failure(NoAttribute(a.value, "strip"));
        }
        var name := Lower(Strip(a.value.s));
        if name in AllowedAnalyses {
          out := out + [Obj([("name", Str(name))])];
        } else {
          out := out + [Obj([("name", Str(name))])];
        }
      }
      k := k + 1;
    }
    assert items[..k] == items;
    return Success(out);
  }

  lemma {:induction false} AnalysisEntriesFailSticks(items: seq<Json>, k: nat)
    requires k <= |items|
    requires AnalysisEntries(items[..k]).Failure?
    ensures AnalysisEntries(items) == AnalysisEntries(items[..k])
    decreases |items| - k
  {
    if k < |items| {
      assert items[..k + 1][..k] == items[..k];
      AnalysisEntriesFailSticks(items, k + 1);
    } else {
      assert items[..k] == items;
    }
  }

  /** A dict with a truthy string name gives one entry, the name stripped and
      lower-cased, whether or not it is a known analysis; a dict with no
      truthy name gives none. */
  lemma {:induction false} AnalysisEntriesAppend(items: seq<Json>, d: Json)
    requires AnalysisEntries(items).Success? && AnalysisOf(d).Success?
    ensures var a := AnalysisOf(d).value;
      AnalysisEntries(items + [d]) ==
        if !Truthy(a) then AnalysisEntries(items)
        else if !a.Str? then Failure(NoAttribute(a, "strip"))
        else Success(AnalysisEntries(items).value + [Obj([("name", Str(Lower(Strip(a.s))))])])
  {
    assert (items + [d])[..|items|] == items && (items + [d])[|items|] == d;
  }

  /** One entry per dict with a truthy string name, in order: the entries
      are as many as such dicts. */
  lemma {:induction false} AnalysisEntriesCount(items: seq<Json>)
    requires forall i :: 0 <= i < |items| ==>
               (AnalysisOf(items[i]).Success? && (Truthy(AnalysisOf(items[i]).value) ==> AnalysisOf(items[i]).value.Str?))
    ensures AnalysisEntries(items).Success?
    ensures |AnalysisEntries(items).value| == NamedCount(items)
  {
    if items != [] {
      var init := items[..|items| - 1];
      assert forall i :: 0 <= i < |init| ==> init[i] == items[i];
      AnalysisEntriesCount(init);
    }
  }

  /** The number of dicts with a truthy name. */
  function NamedCount(items: seq<Json>): nat
    requires forall i :: 0 <= i < |items| ==> AnalysisOf(items[i]).Success?
  {
    if items == [] then 0
    else
      assert forall i :: 0 <= i < |items| - 1 ==> items[..|items| - 1][i] == items[i];
      NamedCount(items[..|items| - 1]) + if Truthy(AnalysisOf(items[|items| - 1]).value) then 1 else 0
  }

  // ------------------------------------------------------------ combine

  /** `combine_results(sim_types, sim_tools, analysis_types)`: the tools
      first, then the simulation types, then the analyses. */
  function CombineResults(types: seq<Json>, tools: seq<Json>, analyses: seq<Json>): Json {
    var calls := tools;
    var calls := calls + types;
    var calls := calls + analyses;
    Obj([("tool_calls", Arr(calls))])
  }

  /** The combined chain is what the orchestrator iterates: its calls are
      the tools, the simulation types and the analyses, in that order. */
  lemma CombinedChainIsIterated(types: seq<Json>, tools: seq<Json>, analyses: seq<Json>)
    ensures Orchestrator.ToolCalls(CombineResults(types, tools, analyses)) == Success(tools + types + analyses)
  {
  }

  // --------------------------------------------------- extract_tool_data

  /** `[x for x in xs if isinstance(x, dict)]` */
  function Dicts(xs: seq<Json>): (r: seq<Json>)
    ensures |r| <= |xs| && forall i :: 0 <= i < |r| ==> r[i].Obj?
  {
    if xs == [] then [] else (if xs[0].Obj? then [xs[0]] else []) + Dicts(xs[1..])
  }

  /** `extract_tool_data(tool_response)` after the scan of the response's
      tool calls has found `scanned`: only when it found nothing is the
      response's text searched for JSON candidates; either way only dicts
      are returned. */
  function ExtractToolData(scanned: seq<Json>, text: string, candidates: string -> seq<Json>): (r: seq<Json>)
    ensures forall i :: 0 <= i < |r| ==> r[i].Obj?
  {
    var parsed := if scanned == [] && text != [] then Dicts(candidates(text)) else scanned;
    Dicts(parsed)
  }

  lemma {:induction false} DictsOfDicts(xs: seq<Json>)
    requires forall i :: 0 <= i < |xs| ==> xs[i].Obj?
    ensures Dicts(xs) == xs
  {
    if xs != [] {
      DictsOfDicts(xs[1..]);
    }
  }

  lemma {:induction false} DictsKeepsEveryDict(xs: seq<Json>, i: nat)
    requires i < |xs| && xs[i].Obj?
    ensures xs[i] in Dicts(xs)
  {
    if i > 0 {
      DictsKeepsEveryDict(xs[1..], i - 1);
    }
  }

  /** The text fallback runs only when the scan found nothing. When it
      found anything, the result is the dicts among it, and when that was
      only non-dicts the result is empty without looking at the text. */
  lemma FallbackOnlyWhenScanEmpty(scanned: seq<Json>, text: string, candidates: string -> seq<Json>)
    ensures scanned != [] ==> ExtractToolData(scanned, text, candidates) == Dicts(scanned)
    ensures scanned == [] && text != [] ==> ExtractToolData(scanned, text, candidates) == Dicts(candidates(text))
    ensures scanned == [] && text == [] ==> ExtractToolData(scanned, text, candidates) == []
    ensures forall i :: 0 <= i < |scanned| && scanned[i].Obj? ==> scanned[i] in ExtractToolData(scanned, text, candidates)
  {
    DictsOfDicts(Dicts(candidates(text)));
    forall i | 0 <= i < |scanned| && scanned[i].Obj?
      ensures scanned[i] in ExtractToolData(scanned, text, candidates)
    {
      DictsKeepsEveryDict(scanned, i);
    }
  }
}
