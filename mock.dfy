/** `eesizer/llm/mock.py`: the rule-based stand-in for the LLM. It answers
    the three prompts of the optimizer loop (analysis, optimize, sizing) from
    the payload alone and echoes any other payload as text.

    How values become text is a collaborator: `dumps` is `json.dumps` and
    `floatStr`/`repr` are `str` of a float and of a list or dict. `float()` of
    a string is `parseFloat`. The `config` the mock is built with is never
    read, so the mock is a set of functions and methods here. */
module MockLlm {
  import opened Wrappers
  import opened Text
  import opened Json

  /** How the mock renders values as text. */
  datatype Render = Render(dumps: Json -> string, floatStr: real -> string, repr: Json -> string)

  // ---------------------------------------------------------------- analysis

  /** A metric strictly below its target: its name, its value as a float and
      the target as it was given. */
  datatype Shortfall = Shortfall(name: string, value: real, target: Json)

  /** The metric `item` has a target in `targets`, both read as floats, and
      the value is strictly below the target. */
  predicate Below(item: (string, Json), targets: Json, parseFloat: string -> Option<real>)
    requires targets.Obj?
  {
    var tgt := Get(targets.fields, item.0);
    var v := ToFloat(item.1, parseFloat);
    var t := ToFloat(tgt, parseFloat);
    tgt != Null && v.Some? && t.Some? && v.value < t.value
  }

  /** What one metric contributes: a shortfall, or nothing when it has no
      target, when `float` refuses its value or its target, or when it is at
      or above target. A `targets` that is not a dict raises at the first
      metric. */
  function Judge(item: (string, Json), targets: Json, parseFloat: string -> Option<real>): (r: Result<Option<Shortfall>, string>)
    ensures r.Success? <==> targets.Obj?
    ensures targets.Obj? ==> (r.value.Some? <==> Below(item, targets, parseFloat))
  {
    var tgt :- DictGet(targets, item.0, Null);
    if tgt == Null then Success(None)
    else
      var v := ToFloat(item.1, parseFloat);
      var t := ToFloat(tgt, parseFloat);
      if v.Some? && t.Some? && v.value < t.value then Success(Some(Shortfall(item.0, v.value, tgt)))
      else Success(None)
  }

  /** The shortfalls among the metrics, in the order of the metrics dict. */
  function Shortfalls(items: seq<(string, Json)>, targets: Json, parseFloat: string -> Option<real>): Result<seq<Shortfall>, string> {
    if items == [] then Success([])
    else
      var prev :- Shortfalls(items[..|items| - 1], targets, parseFloat);
      var j :- Judge(items[|items| - 1], targets, parseFloat);
      Success(prev + if j.Some? then [j.value] else [])
  }

  /** `f"{k} below target: {v} < {tgt}"` */
  function Reason(rd: Render, s: Shortfall): string {
    s.name + " below target: " + rd.floatStr(s.value) + " < " + Display(s.target, rd.floatStr, rd.repr)
  }

  /** The generic suggestion made for a metric below target. */
  function Suggestion(name: string): Json {
    Obj([("component", Str("transistor_m1")), ("param", Str("width")), ("action", Str("increase")),
         ("magnitude", Str("10%")), ("rationale", Str(name + " below target"))])
  }

  function Reasons(rd: Render, xs: seq<Shortfall>): (r: seq<Json>)
    ensures |r| == |xs| && forall i :: 0 <= i < |xs| ==> r[i] == Str(Reason(rd, xs[i]))
  {
    if xs == [] then [] else Reasons(rd, xs[..|xs| - 1]) + [Str(Reason(rd, xs[|xs| - 1]))]
  }

  function Suggestions(xs: seq<Shortfall>): (r: seq<Json>)
    ensures |r| == |xs| && forall i :: 0 <= i < |xs| ==> r[i] == Suggestion(xs[i].name)
  {
    if xs == [] then [] else Suggestions(xs[..|xs| - 1]) + [Suggestion(xs[|xs| - 1].name)]
  }

  /** `{"pass": ..., "reasons": ..., "suggestions": ...}` for the shortfalls
      found. */
  function AnalysisReply(rd: Render, xs: seq<Shortfall>): Json {
    Obj([("pass", Bool(|xs| == 0)), ("reasons", Arr(Reasons(rd, xs))), ("suggestions", Arr(Suggestions(xs)))])
  }

  /** `_analysis_response(payload)` */
  function AnalysisSpec(rd: Render, parseFloat: string -> Option<real>, payload: Json): Result<Json, string> {
    if !payload.Obj? then Failure(NoAttribute(payload, "get"))
    else
      var metrics := GetOr(payload.fields, "metrics", Obj([]));
      var targets := GetOr(payload.fields, "targets", Obj([]));
      if !metrics.Obj? then Failure(NoAttribute(metrics, "items"))
      else
        var xs :- Shortfalls(metrics.fields, targets, parseFloat);
        Success(AnalysisReply(rd, xs))
  }

  /** `_analysis_response(payload)`: one reason and one suggestion per metric
      below its target. */
  method AnalysisResponse(rd: Render, parseFloat: string -> Option<real>, payload: Json) returns (r: Result<Json, string>)
    ensures r == AnalysisSpec(rd, parseFloat, payload)
  {
    if !payload.Obj? {
      return Failure(NoAttribute(payload, "get"));
    }
    var metrics := GetOr(payload.fields, "metrics", Obj([]));
    var targets := GetOr(payload.fields, "targets", Obj([]));
    if !metrics.Obj? {
      return Failure(NoAttribute(metrics, "items"));
    }
    var items := metrics.fields;
    ghost var found: seq<Shortfall> := [];
    var reasons: seq<Json> := [];
    var suggestions: seq<Json> := [];
    var k := 0;
    while k < |items|
      invariant 0 <= k <= |items|
      invariant Shortfalls(items[..k], targets, parseFloat) == Success(found)
      invariant reasons == Reasons(rd, found) && suggestions == Suggestions(found)
    {
      var verdict := Judge(items[k], targets, parseFloat);
      ShortfallsStep(items, targets, parseFloat, k, found);
      if verdict.Failure? {
        ShortfallsFailSticks(items, targets, parseFloat, k + 1);
        return Failure(verdict.error);
      }
      if verdict.value.Some? {
        var s := verdict.value.value;
        ReplyListsGrow(rd, found, s);
        reasons := reasons + [Str(Reason(rd, s))];
        suggestions := suggestions + [Suggestion(s.name)];
        found := found + [s];
      } else {
        assert found + [] == found;
      }
      k := k + 1;
    }
    assert items[..k] == items;
    r := Success(Obj([("pass", Bool(|reasons| == 0)), ("reasons", Arr(reasons)), ("suggestions", Arr(suggestions))]));
  }

  /** The pass over one more metric: its verdict's error, or the shortfalls
      so far followed by its own. */
  lemma ShortfallsStep(items: seq<(string, Json)>, targets: Json, parseFloat: string -> Option<real>, k: nat, found: seq<Shortfall>)
    requires k < |items|
    requires Shortfalls(items[..k], targets, parseFloat) == Success(found)
    ensures var j := Judge(items[k], targets, parseFloat);
      Shortfalls(items[..k + 1], targets, parseFloat)
        == if j.Failure? then Failure(j.error) else Success(found + if j.value.Some? then [j.value.value] else [])
  {
    assert items[..k + 1][..k] == items[..k] && items[..k + 1][k] == items[k];
  }

  lemma ReplyListsGrow(rd: Render, found: seq<Shortfall>, s: Shortfall)
    ensures Reasons(rd, found + [s]) == Reasons(rd, found) + [Str(Reason(rd, s))]
    ensures Suggestions(found + [s]) == Suggestions(found) + [Suggestion(s.name)]
  {
    assert (found + [s])[..|found|] == found;
  }

  /** Once a metric has raised, the later metrics are never reached. */
  lemma {:induction false} ShortfallsFailSticks(items: seq<(string, Json)>, targets: Json, parseFloat: string -> Option<real>, k: nat)
    requires k <= |items|
    requires Shortfalls(items[..k], targets, parseFloat).Failure?
    ensures Shortfalls(items, targets, parseFloat) == Shortfalls(items[..k], targets, parseFloat)
    decreases |items| - k
  {
    if k < |items| {
      assert items[..k + 1][..k] == items[..k];
      ShortfallsFailSticks(items, targets, parseFloat, k + 1);
    } else {
      assert items[..k] == items;
    }
  }

  /** A `targets` that is not a dict makes the analysis raise exactly when
      there is a metric to judge. */
  lemma {:induction false} ShortfallsNeedDictTargets(items: seq<(string, Json)>, targets: Json, parseFloat: string -> Option<real>)
    requires !targets.Obj?
    ensures Shortfalls(items, targets, parseFloat).Failure? <==> items != []
  {
    if |items| > 1 {
      ShortfallsNeedDictTargets(items[..|items| - 1], targets, parseFloat);
    }
  }

  /** The shortfalls are the metrics below target, in order: none exactly when
      no metric is below its target, and each one is such a metric with its
      value read as a float. */
  lemma {:induction false} ShortfallsMeaning(items: seq<(string, Json)>, targets: Json, parseFloat: string -> Option<real>)
    requires targets.Obj?
    ensures Shortfalls(items, targets, parseFloat).Success?
    ensures var xs := Shortfalls(items, targets, parseFloat).value;
      && (xs == [] <==> forall i :: 0 <= i < |items| ==> !Below(items[i], targets, parseFloat))
      && forall j :: 0 <= j < |xs| ==>
        (exists i :: 0 <= i < |items| && Below(items[i], targets, parseFloat) &&
          xs[j] == Shortfall(items[i].0, ToFloat(items[i].1, parseFloat).value, Get(targets.fields, items[i].0)))
  {
    if items != [] {
      var init := items[..|items| - 1];
      var last := items[|items| - 1];
      ShortfallsMeaning(init, targets, parseFloat);
      var prev := Shortfalls(init, targets, parseFloat).value;
      var xs := Shortfalls(items, targets, parseFloat).value;
      forall j | 0 <= j < |xs|
        ensures exists i :: 0 <= i < |items| && Below(items[i], targets, parseFloat) &&
                            xs[j] == Shortfall(items[i].0, ToFloat(items[i].1, parseFloat).value, Get(targets.fields, items[i].0))
      {
        if j < |prev| {
          var i :| 0 <= i < |init| && Below(init[i], targets, parseFloat)
            && prev[j] == Shortfall(init[i].0, ToFloat(init[i].1, parseFloat).value, Get(targets.fields, init[i].0));
          assert init[i] == items[i];
        } else {
          assert Below(items[|items| - 1], targets, parseFloat);
        }
      }
      if xs == [] {
        forall i | 0 <= i < |items|
          ensures !Below(items[i], targets, parseFloat)
        {
          if i < |init| {
            assert init[i] == items[i];
          }
        }
      } else if prev == [] {
        assert Below(last, targets, parseFloat);
      } else {
        var i :| 0 <= i < |init| && Below(init[i], targets, parseFloat)
          && prev[0] == Shortfall(init[i].0, ToFloat(init[i].1, parseFloat).value, Get(targets.fields, init[i].0));
        assert init[i] == items[i];
      }
    }
  }

  /** The analysis passes exactly when no metric is below its target, and it
      makes as many suggestions as it gives reasons. */
  lemma AnalysisPassIff(rd: Render, parseFloat: string -> Option<real>, metrics: seq<(string, Json)>, targets: seq<(string, Json)>)
    ensures var r := AnalysisSpec(rd, parseFloat, Obj([("metrics", Obj(metrics)), ("targets", Obj(targets))]));
      && r.Success? && r.value.Obj?
      && (Lookup(r.value.fields, "pass") == Some(Bool(true)) <==> forall i :: 0 <= i < |metrics| ==> !Below(metrics[i], Obj(targets), parseFloat))
      && Lookup(r.value.fields, "reasons").Some? && Lookup(r.value.fields, "reasons").value.Arr?
      && Lookup(r.value.fields, "suggestions").Some? && Lookup(r.value.fields, "suggestions").value.Arr?
      && |Lookup(r.value.fields, "reasons").value.items| == |Lookup(r.value.fields, "suggestions").value.items|
  {
    ShortfallsMeaning(metrics, Obj(targets), parseFloat);
    var xs := Shortfalls(metrics, Obj(targets), parseFloat).value;
    var payload := Obj([("metrics", Obj(metrics)), ("targets", Obj(targets))]);
    assert GetOr(payload.fields, "metrics", Obj([])) == Obj(metrics);
    assert GetOr(payload.fields, "targets", Obj([])) == Obj(targets) by {
      assert "metrics" != "targets";
      assert Lookup(payload.fields, "targets") == Lookup(payload.fields[1..], "targets");
      assert payload.fields[1..] == [("targets", Obj(targets))];
    }
    var reply := AnalysisReply(rd, xs);
    var tail := reply.fields[1..];
    assert "pass" != "reasons" && "pass" != "suggestions" && "reasons" != "suggestions";
    assert Lookup(reply.fields, "reasons") == Lookup(tail, "reasons") == Some(Arr(Reasons(rd, xs)));
    assert Lookup(reply.fields, "suggestions") == Some(Arr(Suggestions(xs))) by {
      assert Lookup(reply.fields, "suggestions") == Lookup(tail, "suggestions") == Lookup(tail[1..], "suggestions");
      assert tail[1..] == [("suggestions", Arr(Suggestions(xs)))];
    }
  }

  // ---------------------------------------------------------------- optimize

  /** The change the optimize stage makes of one suggestion; every key has a
      default, and the magnitude becomes the value. */
  function ChangeOf(s: Json): (r: Result<Json, string>)
    ensures r.Success? <==> s.Obj?
  {
    if !s.Obj? then Failure(NoAttribute(s, "get"))
    else
      var f := s.fields;
      Success(Obj([("component", GetOr(f, "component", Str("transistor_m1"))),
                   ("param", GetOr(f, "param", Str("width"))),
                   ("action", GetOr(f, "action", Str("increase"))),
                   ("value", GetOr(f, "magnitude", Str("10%"))),
                   ("rationale", GetOr(f, "rationale", Str("auto-suggestion")))]))
  }

  /** The changes for the suggestions, in order, or the first error. */
  function Changes(xs: seq<Json>): Result<seq<Json>, string> {
    if xs == [] then Success([])
    else
      var prev :- Changes(xs[..|xs| - 1]);
      var c :- ChangeOf(xs[|xs| - 1]);
      Success(prev + [c])
  }

  /** `_optimize_response(payload)` */
  function OptimizeSpec(payload: Json): Result<Json, string> {
    var analysis :- DictGet(payload, "analysis", Obj([]));
    var suggestions :- DictGet(analysis, "suggestions", Arr([]));
    var xs :- Iterate(suggestions);
    var changes :- Changes(xs);
    Success(Obj([("changes", Arr(changes))]))
  }

  /** `_optimize_response(payload)`: one change per suggestion. */
  method OptimizeResponse(payload: Json) returns (r: Result<Json, string>)
    ensures r == OptimizeSpec(payload)
  {
    var analysis :- DictGet(payload, "analysis", Obj([]));
    var suggestions :- DictGet(analysis, "suggestions", Arr([]));
    var xs :- Iterate(suggestions);
    var changes: seq<Json> := [];
    var k := 0;
    while k < |xs|
      invariant 0 <= k <= |xs|
      invariant Changes(xs[..k]) == Success(changes)
    {
      assert xs[..k + 1][..k] == xs[..k];
      var c := ChangeOf(xs[k]);
      if c.Failure? {
        ChangesFailSticks(xs, k + 1);
        return Failure(c.error);
      }
      changes := changes + [c.value];
      k := k + 1;
    }
    assert xs[..k] == xs;
    r := Success(Obj([("changes", Arr(changes))]));
  }

  lemma {:induction false} ChangesFailSticks(xs: seq<Json>, k: nat)
    requires k <= |xs|
    requires Changes(xs[..k]).Failure?
    ensures Changes(xs) == Changes(xs[..k])
    decreases |xs| - k
  {
    if k < |xs| {
      assert xs[..k + 1][..k] == xs[..k];
      ChangesFailSticks(xs, k + 1);
    } else {
      assert xs[..k] == xs;
    }
  }

  /** The changes succeed exactly when every suggestion is a dict, and then
      there is one change per suggestion, in order. */
  lemma {:induction false} OneChangePerSuggestion(xs: seq<Json>)
    ensures Changes(xs).Success? <==> forall i :: 0 <= i < |xs| ==> xs[i].Obj?
    ensures Changes(xs).Success? ==>
      |Changes(xs).value| == |xs| && forall i :: 0 <= i < |xs| ==> Changes(xs).value[i] == ChangeOf(xs[i]).value
  {
    if xs != [] {
      var init := xs[..|xs| - 1];
      OneChangePerSuggestion(init);
      if Changes(xs).Success? {
        forall i | 0 <= i < |xs|
          ensures xs[i].Obj? && Changes(xs).value[i] == ChangeOf(xs[i]).value
        {
          if i < |init| {
            assert init[i] == xs[i];
          }
        }
      } else if Changes(init).Success? {
        assert !xs[|xs| - 1].Obj?;
      } else {
        var i :| 0 <= i < |init| && !init[i].Obj?;
        assert xs[i] == init[i];
      }
    }
  }

  /** A suggestion with no keys becomes the all-defaults change. */
  lemma ChangeDefaults()
    ensures ChangeOf(Obj([])) == Success(Obj([("component", Str("transistor_m1")), ("param", Str("width")),
      ("action", Str("increase")), ("value", Str("10%")), ("rationale", Str("auto-suggestion"))]))
  {
  }

  /** The change the optimize stage makes of the analysis stage's
      suggestion for a metric. */
  function AutoChange(name: string): Json {
    Obj([("component", Str("transistor_m1")), ("param", Str("width")), ("action", Str("increase")),
         ("value", Str("10%")), ("rationale", Str(name + " below target"))])
  }

  function AutoChanges(xs: seq<Shortfall>): (r: seq<Json>)
    ensures |r| == |xs| && forall i :: 0 <= i < |xs| ==> r[i] == AutoChange(xs[i].name)
  {
    if xs == [] then [] else AutoChanges(xs[..|xs| - 1]) + [AutoChange(xs[|xs| - 1].name)]
  }

  /** Fed its own analysis, the optimize stage turns each metric below target
      into a 10% width increase of `transistor_m1` that names the metric. */
  lemma AnalysisThenOptimize(rd: Render, xs: seq<Shortfall>)
    ensures OptimizeSpec(Obj([("analysis", AnalysisReply(rd, xs))])) == Success(Obj([("changes", Arr(AutoChanges(xs)))]))
  {
    var reply := AnalysisReply(rd, xs);
    var sugg := Suggestions(xs);
    var tail := reply.fields[1..];
    assert "pass" != "suggestions" && "reasons" != "suggestions";
    assert Lookup(reply.fields, "suggestions") == Lookup(tail, "suggestions") == Lookup(tail[1..], "suggestions");
    assert tail[1..] == [("suggestions", Arr(sugg))];
    SuggestionsBecomeChanges(xs);
  }

  lemma {:induction false} SuggestionsBecomeChanges(xs: seq<Shortfall>)
    ensures Changes(Suggestions(xs)) == Success(AutoChanges(xs))
  {
    if xs != [] {
      var init := xs[..|xs| - 1];
      SuggestionsBecomeChanges(init);
      SuggestionBecomesChange(xs[|xs| - 1].name);
      var sugg := Suggestions(xs);
      assert sugg[..|sugg| - 1] == Suggestions(init);
    }
  }

  /** The optimize stage keeps every field of a suggestion the analysis
      stage made, with the magnitude as the value. */
  lemma SuggestionBecomesChange(name: string)
    ensures ChangeOf(Suggestion(name)) == Success(AutoChange(name))
  {
    var f := Suggestion(name).fields;
    var f1, f2, f3, f4 := f[1..], f[2..], f[3..], f[4..];
    assert f1[1..] == f2 && f2[1..] == f3 && f3[1..] == f4;
    assert "component" != "param" && "component" != "action" && "component" != "magnitude" && "component" != "rationale";
    assert "param" != "action" && "param" != "magnitude" && "param" != "rationale";
    assert "action" != "magnitude" && "action" != "rationale" && "magnitude" != "rationale";
    assert Lookup(f, "param") == Lookup(f1, "param") == Some(Str("width"));
    assert Lookup(f, "action") == Lookup(f1, "action") == Lookup(f2, "action") == Some(Str("increase"));
    assert Lookup(f, "magnitude") == Lookup(f1, "magnitude") == Lookup(f2, "magnitude") == Lookup(f3, "magnitude") == Some(Str("10%"));
    assert Lookup(f, "rationale") == Lookup(f1, "rationale") == Lookup(f2, "rationale") == Lookup(f3, "rationale")
      == Lookup(f4, "rationale") == Some(Str(name + " below target"));
  }

  // ------------------------------------------------------------------ sizing

  /** The first line the sizing stage appends. */
  const Header := "* patched netlist by MockLLM"

  /** `f"* change: {c.get('component')} {c.get('param')} {c.get('action')} {c.get('value')}"` */
  function ChangeLine(rd: Render, c: Json): (r: Result<string, string>)
    ensures r.Success? <==> c.Obj?
    ensures r.Success? ==> |r.value| >= 10 && r.value[..10] == "* change: "
  {
    if !c.Obj? then Failure(NoAttribute(c, "get"))
    else
      Success("* change: " + Shown(rd, c.fields, "component") + " " + Shown(rd, c.fields, "param") + " "
        + Shown(rd, c.fields, "action") + " " + Shown(rd, c.fields, "value"))
  }

  /** `str(c.get(key))` inside the f-string. */
  function Shown(rd: Render, fields: seq<(string, Json)>, key: string): string {
    Display(Get(fields, key), rd.floatStr, rd.repr)
  }

  function ChangeLines(rd: Render, cs: seq<Json>): Result<seq<string>, string> {
    if cs == [] then Success([])
    else
      var prev :- ChangeLines(rd, cs[..|cs| - 1]);
      var line :- ChangeLine(rd, cs[|cs| - 1]);
      Success(prev + [line])
  }

  /** The `TypeError` of `base + "\n"` when `base` is not a string. */
  function ConcatError(base: Json): string {
    if base.Arr? then "can only concatenate list (not \"str\") to list"
    else "unsupported operand type(s) for +: '" + TypeName(base) + "' and 'str'"
  }

  /** `_sizing_response(payload)` */
  function SizingSpec(rd: Render, payload: Json): Result<Json, string> {
    if !payload.Obj? then Failure(NoAttribute(payload, "get"))
    else
      var base := GetOr(payload.fields, "base_netlist", Str(""));
      var changes := GetOr(payload.fields, "changes", Arr([]));
      if !Truthy(base) then Success(Obj([("error", Str("no base netlist provided"))]))
      else
        var cs :- Iterate(changes);
        var lines :- ChangeLines(rd, cs);
        if !base.Str? then Failure(ConcatError(base))
        else Success(Obj([("netlist_text", Str(base.s + "\n" + Join("\n", [Header] + lines)))]))
  }

  /** `_sizing_response(payload)`: the base netlist with a comment block that
      lists the changes. */
  method SizingResponse(rd: Render, payload: Json) returns (r: Result<Json, string>)
    ensures r == SizingSpec(rd, payload)
  {
    if !payload.Obj? {
      return Failure(NoAttribute(payload, "get"));
    }
    var base := GetOr(payload.fields, "base_netlist", Str(""));
    var changes := GetOr(payload.fields, "changes", Arr([]));
    if !Truthy(base) {
      return Success(Obj([("error", Str("no base netlist provided"))]));
    }
    var cs :- Iterate(changes);
    var lines := [Header];
    var k := 0;
    while k < |cs|
      invariant 0 <= k <= |cs|
      invariant ChangeLines(rd, cs[..k]).Success? && lines == [Header] + ChangeLines(rd, cs[..k]).value
    {
      assert cs[..k + 1][..k] == cs[..k];
      var line := ChangeLine(rd, cs[k]);
      if line.Failure? {
        ChangeLinesFailSticks(rd, cs, k + 1);
        return Failure(line.error);
      }
      lines := lines + [line.value];
      k := k + 1;
    }
    assert cs[..k] == cs;
    if !base.Str? {
      return Failure(ConcatError(base));
    }
    r := Success(Obj([("netlist_text", Str(base.s + "\n" + Join("\n", lines)))]));
  }

  lemma {:induction false} ChangeLinesFailSticks(rd: Render, cs: seq<Json>, k: nat)
    requires k <= |cs|
    requires ChangeLines(rd, cs[..k]).Failure?
    ensures ChangeLines(rd, cs) == ChangeLines(rd, cs[..k])
    decreases |cs| - k
  {
    if k < |cs| {
      assert cs[..k + 1][..k] == cs[..k];
      ChangeLinesFailSticks(rd, cs, k + 1);
    } else {
      assert cs[..k] == cs;
    }
  }

  /** One line per change, in order, each a SPICE comment. */
  lemma {:induction false} OneLinePerChange(rd: Render, cs: seq<Json>)
    ensures ChangeLines(rd, cs).Success? <==> forall i :: 0 <= i < |cs| ==> cs[i].Obj?
    ensures ChangeLines(rd, cs).Success? ==>
      && |ChangeLines(rd, cs).value| == |cs|
      && (forall i :: 0 <= i < |cs| ==> ChangeLines(rd, cs).value[i] == ChangeLine(rd, cs[i]).value)
      && (forall i :: 0 <= i < |cs| ==> |ChangeLines(rd, cs).value[i]| >= 10 && ChangeLines(rd, cs).value[i][..10] == "* change: ")
  {
    ChangeLinesSucceedIff(rd, cs);
    if ChangeLines(rd, cs).Success? {
      ChangeLinesElementwise(rd, cs);
      var lines := ChangeLines(rd, cs).value;
      forall i | 0 <= i < |cs|
        ensures |lines[i]| >= 10 && lines[i][..10] == "* change: "
      {
        assert lines[i] == ChangeLine(rd, cs[i]).value;
      }
    }
  }

  lemma {:induction false} ChangeLinesSucceedIff(rd: Render, cs: seq<Json>)
    ensures ChangeLines(rd, cs).Success? <==> forall i :: 0 <= i < |cs| ==> cs[i].Obj?
  {
    if cs != [] {
      var init := cs[..|cs| - 1];
      ChangeLinesSucceedIff(rd, init);
      ChangeLinesUnfold(rd, cs);
      if ChangeLines(rd, init).Failure? {
        var i :| 0 <= i < |init| && !init[i].Obj?;
        assert cs[i] == init[i];
      } else if ChangeLine(rd, cs[|cs| - 1]).Success? {
        forall i | 0 <= i < |cs| ensures cs[i].Obj? {
          if i < |init| {
            assert init[i] == cs[i];
          }
        }
      }
    }
  }

  lemma {:induction false} ChangeLinesElementwise(rd: Render, cs: seq<Json>)
    requires ChangeLines(rd, cs).Success?
    ensures |ChangeLines(rd, cs).value| == |cs|
    ensures forall i :: 0 <= i < |cs| ==> cs[i].Obj? && ChangeLines(rd, cs).value[i] == ChangeLine(rd, cs[i]).value
  {
    if cs != [] {
      var init := cs[..|cs| - 1];
      ChangeLinesUnfold(rd, cs);
      var prev := ChangeLines(rd, init);
      var line := ChangeLine(rd, cs[|cs| - 1]);
      ChangeLinesElementwise(rd, init);
      var lines := prev.value + [line.value];
      assert ChangeLines(rd, cs).value == lines;
      forall i | 0 <= i < |cs|
        ensures cs[i].Obj? && lines[i] == ChangeLine(rd, cs[i]).value
      {
        if i < |init| {
          assert lines[i] == prev.value[i];
          assert init[i] == cs[i];
        }
      }
    }
  }

  /** The last change is formatted after all the earlier ones. */
  lemma ChangeLinesUnfold(rd: Render, cs: seq<Json>)
    requires cs != []
    ensures var prev := ChangeLines(rd, cs[..|cs| - 1]);
      var line := ChangeLine(rd, cs[|cs| - 1]);
      ChangeLines(rd, cs)
      == if prev.Failure? then Failure(prev.error)
         else if line.Failure? then Failure(line.error)
         else Success(prev.value + [line.value])
  {
  }

  /** `"\n".join([first] + rest)` is `first` followed by each of `rest` on a
      line of its own. */
  lemma {:induction false} JoinLines(first: string, rest: seq<string>)
    ensures Join("\n", [first] + rest) == first + AfterNewlines(rest)
    decreases |rest|
  {
    if rest != [] {
      assert ([first] + rest)[1..] == [rest[0]] + rest[1..];
      JoinLines(rest[0], rest[1..]);
      assert AfterNewlines(rest) == "\n" + rest[0] + AfterNewlines(rest[1..]);
    }
  }

  /** Each line of `lines` preceded by a line break. */
  function AfterNewlines(lines: seq<string>): string {
    if lines == [] then "" else "\n" + lines[0] + AfterNewlines(lines[1..])
  }

  /** Without a base netlist the sizing stage reports an error and no
      netlist. */
  lemma SizingNeedsBase(rd: Render, base: Json, changes: Json)
    requires !Truthy(base)
    ensures var r := SizingSpec(rd, Obj([("base_netlist", base), ("changes", changes)]));
      && r == Success(Obj([("error", Str("no base netlist provided"))]))
      && !HasKey(r.value.fields, "netlist_text")
  {
  }

  /** With a base netlist and a list of change dicts, the patched netlist is
      the base, a line break, the header comment, and one comment line per
      change. */
  lemma SizingAppendsComments(rd: Render, base: string, cs: seq<Json>)
    requires base != []
    requires forall i :: 0 <= i < |cs| ==> cs[i].Obj?
    ensures var r := SizingSpec(rd, Obj([("base_netlist", Str(base)), ("changes", Arr(cs))]));
      && ChangeLines(rd, cs).Success?
      && r == Success(Obj([("netlist_text", Str(base + "\n" + Header + AfterNewlines(ChangeLines(rd, cs).value)))]))
  {
    var payload := Obj([("base_netlist", Str(base)), ("changes", Arr(cs))]);
    assert GetOr(payload.fields, "base_netlist", Str("")) == Str(base);
    assert GetOr(payload.fields, "changes", Arr([])) == Arr(cs) by {
      assert "base_netlist" != "changes";
      assert Lookup(payload.fields, "changes") == Lookup(payload.fields[1..], "changes");
      assert payload.fields[1..] == [("changes", Arr(cs))];
    }
    OneLinePerChange(rd, cs);
    var lines := ChangeLines(rd, cs).value;
    JoinLines(Header, lines);
    assert Iterate(Arr(cs)) == Success(cs);
    assert base + "\n" + Join("\n", [Header] + lines) == base + "\n" + Header + AfterNewlines(lines);
  }

  // -------------------------------------------------------------- dispatch

  /** `call(prompt_type, payload)` */
  function CallSpec(rd: Render, parseFloat: string -> Option<real>, promptType: string, payload: Json): Result<Json, string> {
    if promptType == "analysis" then AnalysisSpec(rd, parseFloat, payload)
    else if promptType == "optimize" then OptimizeSpec(payload)
    else if promptType == "sizing" then SizingSpec(rd, payload)
    else Success(Obj([("text", Str(rd.dumps(payload)))]))
  }

  /** `call(prompt_type, payload)`: the three stages, or an echo of the
      payload. */
  method Call(rd: Render, parseFloat: string -> Option<real>, promptType: string, payload: Json) returns (r: Result<Json, string>)
    ensures r == CallSpec(rd, parseFloat, promptType, payload)
  {
    if promptType == "analysis" {
      r := AnalysisResponse(rd, parseFloat, payload);
    } else if promptType == "optimize" {
      r := OptimizeResponse(payload);
    } else if promptType == "sizing" {
      r := SizingResponse(rd, payload);
    } else {
      r := Success(Obj([("text", Str(rd.dumps(payload)))]));
    }
  }

  /** `ask(prompt_type, payload)`: the reply as JSON text. */
  method Ask(rd: Render, parseFloat: string -> Option<real>, promptType: string, payload: Json) returns (r: Result<string, string>)
    ensures r.Success? <==> CallSpec(rd, parseFloat, promptType, payload).Success?
    ensures r.Success? ==> r.value == rd.dumps(CallSpec(rd, parseFloat, promptType, payload).value)
  {
    var reply :- Call(rd, parseFloat, promptType, payload);
    r := Success(rd.dumps(reply));
  }

  /** Any other prompt type is answered with the payload as JSON text under
      "text", whatever the payload is. */
  lemma UnknownPromptEchoes(rd: Render, parseFloat: string -> Option<real>, promptType: string, payload: Json)
    requires promptType != "analysis" && promptType != "optimize" && promptType != "sizing"
    ensures CallSpec(rd, parseFloat, promptType, payload) == Success(Obj([("text", Str(rd.dumps(payload)))]))
  {
  }
}
