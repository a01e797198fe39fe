/** `eesizer/llm/planner.py`: locating the JSON blob in an LLM reply,
    turning it into a tool chain or a task dict, the field-picking
    formatters, and the node-name heuristic.

    `json.loads` is the collaborator `loads`, and building a `ToolChain` from
    a dict is the collaborator `construct`; the regular expressions are
    written out as the scans they perform. */
module Planner {
  import opened Wrappers
  import opened Text
  import opened Json

  // ------------------------------------------------------------ JSON blob

  predicate IsOpener(c: char) {
    c == '{' || c == '['
  }

  /** The bracket that closes `o`. */
  function Closer(o: char): char {
    if o == '{' then '}' else ']'
  }

  /** Position `i` opens a bracket that position `j` closes. */
  predicate Brackets(s: string, i: int, j: int) {
    0 <= i < j < |s| && IsOpener(s[i]) && s[j] == Closer(s[i])
  }

  /** The last position of `c` in `s`, if any. */
  function LastIndex(s: string, c: char): (r: Option<nat>)
    ensures r.Some? ==> r.value < |s| && s[r.value] == c && forall j :: r.value < j < |s| ==> s[j] != c
    ensures r.None? ==> forall j :: 0 <= j < |s| ==> s[j] != c
  {
    if s == [] then None
    else if s[|s| - 1] == c then Some(|s| - 1)
    else LastIndex(s[..|s| - 1], c)
  }

  /** Where `_JSON_RE.search` matches when it starts looking at `p`: the
      first opener that has its closer somewhere after it, up to and
      including the last such closer (the `[\s\S]*` is greedy). The span is
      returned as start and end (exclusive). */
  function BlobSpan(s: string, p: nat): (r: Option<(nat, nat)>)
    ensures r.Some? ==> p <= r.value.0 < r.value.1 <= |s|
    decreases |s| - p
  {
    if p >= |s| then None
    else
      var last := LastIndex(s, Closer(s[p]));
      if IsOpener(s[p]) && last.Some? && last.value > p then Some((p, last.value + 1))
      else BlobSpan(s, p + 1)
  }

  /** `_find_json_blob(text)` */
  function FindJsonBlob(s: string): Option<string> {
    var span := BlobSpan(s, 0);
    if span.Some? then Some(s[span.value.0..span.value.1]) else None
  }

  /** From `p` on, a blob is found exactly when some opener has a later
      closer; the blob starts at the first such opener, ends at the last
      closer of its kind, and nothing before it could start a match. */
  lemma {:induction false} BlobSpanMeaning(s: string, p: nat)
    ensures BlobSpan(s, p).None? <==> forall i, j :: p <= i && Brackets(s, i, j) ==> false
    ensures BlobSpan(s, p).Some? ==>
      var (a, b) := BlobSpan(s, p).value;
      && p <= a && Brackets(s, a, b - 1)
      && (forall j :: b <= j < |s| ==> s[j] != Closer(s[a]))
      && (forall i, j :: p <= i < a && Brackets(s, i, j) ==> false)
    decreases |s| - p
  {
    if p < |s| {
      var last := LastIndex(s, Closer(s[p]));
      if !(IsOpener(s[p]) && last.Some? && last.value > p) {
        BlobSpanMeaning(s, p + 1);
      } else {
        assert Brackets(s, p, last.value);
      }
    }
  }

  /** `_find_json_blob` gives no blob exactly when no '{' has a later '}' and
      no '[' has a later ']'. A blob it gives is never empty: it starts with
      the bracket it ends with the closer of. */
  lemma FindJsonBlobMeaning(s: string)
    ensures FindJsonBlob(s).None? <==> forall i, j :: Brackets(s, i, j) ==> false
    ensures FindJsonBlob(s).Some? ==>
      var b := FindJsonBlob(s).value;
      var (a, e) := BlobSpan(s, 0).value;
      && b == s[a..e] && |b| >= 2 && IsOpener(b[0]) && b[|b| - 1] == Closer(b[0])
      && (forall i, j :: 0 <= i < a && Brackets(s, i, j) ==> false)
      && (forall j :: e <= j < |s| ==> s[j] != Closer(b[0]))
  {
    BlobSpanMeaning(s, 0);
  }

  /** `extract_tool_data(tool_text)`: `ValueError` without a blob; a list is
      taken as the tool calls; anything but a dict cannot be spread into
      `ToolChain(**data)`. */
  function ExtractToolData(text: string, loads: string -> Result<Json, string>,
                           construct: seq<(string, Json)> -> Result<Json, string>): Result<Json, string> {
    var blob := FindJsonBlob(text);
    if blob.None? || blob.value == [] then Failure("No JSON tool-chain found in LLM response")
    else
      var data :- loads(blob.value);
      var wrapped := if data.Arr? then Obj([("tool_calls", data)]) else data;
      if wrapped.Obj? then construct(wrapped.fields)
      else Failure("ToolChain() argument after ** must be a mapping, not " + TypeName(wrapped))
  }

  /** `get_tasks(tasks_text)` */
  function GetTasks(text: string, loads: string -> Result<Json, string>): Result<Json, string> {
    var blob := FindJsonBlob(text);
    if blob.None? || blob.value == [] then Failure("No JSON found in tasks_text")
    else loads(blob.value)
  }

  /** Without a bracket pair both readers raise `ValueError`; with one, the
      blob goes to `json.loads`, and a top-level list becomes the
      "tool_calls" of the chain. */
  lemma ReadersNeedABlob(text: string, loads: string -> Result<Json, string>,
                         construct: seq<(string, Json)> -> Result<Json, string>)
    ensures (forall i, j :: Brackets(text, i, j) ==> false) ==>
      && ExtractToolData(text, loads, construct) == Failure("No JSON tool-chain found in LLM response")
      && GetTasks(text, loads) == Failure("No JSON found in tasks_text")
    ensures FindJsonBlob(text).Some? ==>
      && GetTasks(text, loads) == loads(FindJsonBlob(text).value)
      && (loads(FindJsonBlob(text).value).Success? && loads(FindJsonBlob(text).value).value.Arr? ==>
        ExtractToolData(text, loads, construct) == construct([("tool_calls", loads(FindJsonBlob(text).value).value)]))
  {
    FindJsonBlobMeaning(text);
  }

  // ----------------------------------------------------------- formatters

  /** `[t.get(key) for t in items if t.get(key)]` */
  function FormatField(items: seq<Json>, key: string): (r: Result<seq<Json>, string>)
    ensures r.Success? <==> forall i :: 0 <= i < |items| ==> items[i].Obj?
    ensures r.Success? ==> |r.value| <= |items| && forall k :: 0 <= k < |r.value| ==> Truthy(r.value[k])
  {
    if items == [] then Success([])
    else
      var prev :- FormatField(items[..|items| - 1], key);
      var t := items[|items| - 1];
      if !t.Obj? then Failure(NoAttribute(t, "get"))
      else
        assert forall i :: 0 <= i < |items| - 1 ==> items[..|items| - 1][i] == items[i];
        var v := Get(t.fields, key);
        Success(prev + if Truthy(v) then [v] else [])
  }

  /** The formatter works list piece by list piece. */
  lemma {:induction false} FormatFieldAppend(a: seq<Json>, b: seq<Json>, key: string)
    requires forall i :: 0 <= i < |a| ==> a[i].Obj?
    requires forall i :: 0 <= i < |b| ==> b[i].Obj?
    ensures FormatField(a + b, key) == Success(FormatField(a, key).value + FormatField(b, key).value)
    decreases |b|
  {
    if b == [] {
      assert a + b == a;
      assert FormatField(a, key).value + [] == FormatField(a, key).value;
    } else {
      var b' := b[..|b| - 1];
      assert (a + b)[..|a + b| - 1] == a + b';
      assert (a + b)[|a + b| - 1] == b[|b| - 1];
      FormatFieldAppend(a, b', key);
      var v := Get(b[|b| - 1].fields, key);
      var tail := if Truthy(v) then [v] else [];
      assert FormatField(b, key).value == FormatField(b', key).value + tail;
      assert FormatField(a + b, key).value == FormatField(a + b', key).value + tail;
      assert FormatField(a, key).value + FormatField(b', key).value + tail
        == FormatField(a, key).value + (FormatField(b', key).value + tail);
    }
  }

  /** A single dict contributes its value under the key exactly when that
      value is truthy. */
  lemma FormatFieldOne(d: Json, key: string)
    requires d.Obj?
    ensures FormatField([d], key) == Success(if Truthy(Get(d.fields, key)) then [Get(d.fields, key)] else [])
  {
    assert [d][..0] == [] && [d][0] == d;
    var v := Get(d.fields, key);
    var tail := if Truthy(v) then [v] else [];
    assert FormatField([], key) == Success([]);
    assert FormatField([d], key) == Success([] + tail);
    assert [] + tail == tail;
  }

  /** `format_simulation_types(tool_data_list)` */
  function FormatSimulationTypes(items: seq<Json>): Result<seq<Json>, string> {
    FormatField(items, "simulation_type")
  }

  /** `format_simulation_tools(tool_data_list)` */
  function FormatSimulationTools(items: seq<Json>): Result<seq<Json>, string> {
    FormatField(items, "simulation_tool")
  }

  /** `format_analysis_types(tool_data_list)` */
  function FormatAnalysisTypes(items: seq<Json>): Result<seq<Json>, string> {
    FormatField(items, "analysis_type")
  }

  /** `combine_results(sim_types, sim_tools, analysis_types)` */
  function CombineResults(types: seq<Json>, tools: seq<Json>, analyses: seq<Json>): (r: Json)
    ensures r.Obj? && Keys(r.fields) == ["simulation_types", "simulation_tools", "analysis_types"]
    ensures Lookup(r.fields, "simulation_types") == Some(Arr(types))
    ensures Lookup(r.fields, "simulation_tools") == Some(Arr(tools))
    ensures Lookup(r.fields, "analysis_types") == Some(Arr(analyses))
  {
    var f := [("simulation_types", Arr(types)), ("simulation_tools", Arr(tools)), ("analysis_types", Arr(analyses))];
    assert "simulation_types" != "simulation_tools" by {
      assert "simulation_types"[12] != "simulation_tools"[12];
    }
    assert "simulation_types" != "analysis_types" && "simulation_tools" != "analysis_types";
    assert Lookup(f, "simulation_tools") == Lookup(f[1..], "simulation_tools");
    assert Lookup(f, "analysis_types") == Lookup(f[1..], "analysis_types") == Lookup(f[2..], "analysis_types");
    Obj(f)
  }

  // ------------------------------------------------------------ node names

  /** The separators of `[\s,;:\n]+`. */
  predicate IsNodeSep(c: char) {
    IsSpace(c) || c == ',' || c == ';' || c == ':'
  }

  /** `[A-Za-z0-9_]` */
  predicate IsNameChar(c: char) {
    ('A' <= c <= 'Z') || ('a' <= c <= 'z') || ('0' <= c <= '9') || c == '_'
  }

  predicate IsNodeName(p: string) {
    p != [] && forall i :: 0 <= i < |p| ==> IsNameChar(p[i])
  }

  /** Number of leading characters that are not separators. */
  function FieldLen(s: string): (n: nat)
    ensures n <= |s|
    ensures forall i :: 0 <= i < n ==> !IsNodeSep(s[i])
    ensures n < |s| ==> IsNodeSep(s[n])
  {
    if s == [] || IsNodeSep(s[0]) then 0 else 1 + FieldLen(s[1..])
  }

  /** Number of leading separators. */
  function SepRun(s: string): (n: nat)
    ensures n <= |s|
    ensures n < |s| ==> !IsNodeSep(s[n])
  {
    if s == [] || !IsNodeSep(s[0]) then 0 else 1 + SepRun(s[1..])
  }

  /** `re.split(r"[\s,;:\n]+", s)`: the text between runs of separators,
      with an empty piece before a leading run and after a trailing one. */
  function SplitOnSeps(s: string): (r: seq<string>)
    ensures forall k :: 0 <= k < |r| ==> forall i :: 0 <= i < |r[k]| ==> !IsNodeSep(r[k][i])
    decreases |s|
  {
    var n := FieldLen(s);
    if n == |s| then [s]
    else
      var rest := s[n..];
      assert IsNodeSep(rest[0]);
      [s[..n]] + SplitOnSeps(rest[SepRun(rest)..])
  }

  /** The pieces that are node names, in order. */
  function KeepNames(parts: seq<string>): (r: seq<string>)
    ensures forall k :: 0 <= k < |r| ==> IsNodeName(r[k])
  {
    if parts == [] then []
    else (if IsNodeName(parts[0]) then [parts[0]] else []) + KeepNames(parts[1..])
  }

  /** `nodes_extract(node_text)` */
  function NodesExtract(text: string): (r: seq<string>)
    ensures forall k :: 0 <= k < |r| ==> IsNodeName(r[k])
  {
    KeepNames(SplitOnSeps(text))
  }

  lemma NameCharIsNotSep(c: char)
    requires IsNameChar(c)
    ensures !IsNodeSep(c)
  {
  }

  lemma {:induction false} FieldLenOfName(a: string, t: string)
    requires forall i :: 0 <= i < |a| ==> IsNameChar(a[i])
    requires t == [] || IsNodeSep(t[0])
    ensures FieldLen(a + t) == |a|
    decreases |a|
  {
    if a != [] {
      NameCharIsNotSep(a[0]);
      assert (a + t)[1..] == a[1..] + t;
      FieldLenOfName(a[1..], t);
    } else {
      assert a + t == t;
    }
  }

  lemma JoinStartsWithFirst(names: seq<string>)
    requires names != [] && names[0] != []
    ensures Join(" ", names) != [] && Join(" ", names)[0] == names[0][0]
  {
  }

  /** Names separated by single spaces are read back as they were. */
  lemma {:induction false} NodesRoundTrip(names: seq<string>)
    requires forall k :: 0 <= k < |names| ==> IsNodeName(names[k])
    ensures NodesExtract(Join(" ", names)) == names
    decreases |names|
  {
    if names == [] {
      assert FieldLen("") == 0;
    } else {
      SplitJoin(names);
      KeepAllNames(names);
    }
  }

  lemma {:induction false} SplitJoin(names: seq<string>)
    requires names != []
    requires forall k :: 0 <= k < |names| ==> IsNodeName(names[k])
    ensures SplitOnSeps(Join(" ", names)) == names
    decreases |names|
  {
    var a := names[0];
    if |names| == 1 {
      FieldLenOfName(a, "");
      assert a + "" == a;
    } else {
      var rest := Join(" ", names[1..]);
      var s := a + " " + rest;
      assert Join(" ", names) == s;
      assert s == a + (" " + rest);
      FieldLenOfName(a, " " + rest);
      JoinStartsWithFirst(names[1..]);
      NameCharIsNotSep(rest[0]);
      assert s[|a|..] == " " + rest;
      assert SepRun(" " + rest) == 1 by {
        assert (" " + rest)[1..] == rest;
      }
      assert (" " + rest)[1..] == rest;
      assert s[..|a|] == a;
      SplitJoin(names[1..]);
    }
  }

  lemma {:induction false} KeepAllNames(names: seq<string>)
    requires forall k :: 0 <= k < |names| ==> IsNodeName(names[k])
    ensures KeepNames(names) == names
    decreases |names|
  {
    if names != [] {
      KeepAllNames(names[1..]);
    }
  }
}
