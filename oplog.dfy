/** `eesizer/analysis/oplog.py`: reading device names and their gate-source
    and threshold voltages out of the operating-point log ngspice prints.
    `float(token)` is a parameter returning `None` where Python raises. */
module Oplog {
  import opened Wrappers
  import opened Text

  datatype DeviceBias = DeviceBias(name: string, vgs: real, vth: real) {
    /** The `margin` property: how far the gate-source voltage is above the
        threshold. */
    function Margin(): real {
      vgs - vth
    }
  }

  /** The tokens a stripped log line contributes under `key` ("device", "vth"
      or "vgs"): every token after the first, when the first token lowers to
      `key` and there is at least one more. */
  function KeyTokens(line: string, key: string): seq<string> {
    var parts := Split(line);
    if |parts| > 1 && Lower(parts[0]) == key then parts[1..] else []
  }

  /** The tokens among the first `n` of `tokens` that `float` accepts,
      converted, in order. */
  function Parsed(tokens: seq<string>, n: nat, parseFloat: string -> Option<real>): seq<real>
    requires n <= |tokens|
  {
    if n == 0 then []
    else
      var v := parseFloat(tokens[n - 1]);
      Parsed(tokens, n - 1, parseFloat) + (if v.Some? then [v.value] else [])
  }

  /** The tokens of a raw log line under `key`. */
  function LineTokens(raw: string, key: string): seq<string> {
    KeyTokens(Strip(raw), key)
  }

  /** `tokensOf` applied to every line of `lines`, concatenated in order. */
  function Gather(lines: seq<string>, tokensOf: string -> seq<string>): seq<string> {
    if lines == [] then [] else Gather(lines[..|lines| - 1], tokensOf) + tokensOf(lines[|lines| - 1])
  }

  /** `LineTokens` under a fixed key, as a function of the line. */
  function TokensUnder(key: string): string -> seq<string> {
    raw => LineTokens(raw, key)
  }

  /** All tokens of the log lines `lines` under `key`, line after line. */
  function Collected(lines: seq<string>, key: string): seq<string> {
    Gather(lines, TokensUnder(key))
  }

  function Min3(a: nat, b: nat, c: nat): (r: nat)
    ensures r <= a && r <= b && r <= c
    ensures r == a || r == b || r == c
  {
    if a <= b && a <= c then a else if b <= c then b else c
  }

  /** `DeviceBias(devices[i], vgs[i], vth[i]) for i in range(n)`, with `n` the
      length of the shortest list. */
  function Zip3(devices: seq<string>, vgs: seq<real>, vth: seq<real>): (r: seq<DeviceBias>)
    ensures |r| == Min3(|devices|, |vgs|, |vth|)
    ensures forall i :: 0 <= i < |r| ==> r[i] == DeviceBias(devices[i], vgs[i], vth[i])
  {
    seq(Min3(|devices|, |vgs|, |vth|), i requires 0 <= i < Min3(|devices|, |vgs|, |vth|) =>
      DeviceBias(devices[i], vgs[i], vth[i]))
  }

  /** The device list of a log: the i-th device paired with the i-th accepted
      vgs and the i-th accepted vth, as far as all three lists reach. */
  function OplogSpec(text: string, parseFloat: string -> Option<real>): seq<DeviceBias> {
    if text == [] then []
    else
      var lines := SplitLines(text);
      Zip3(Collected(lines, "device"), AllParsed(Collected(lines, "vgs"), parseFloat), AllParsed(Collected(lines, "vth"), parseFloat))
  }

  lemma StripSplitNonEmpty(raw: string)
    requires Strip(raw) != []
    ensures Split(Strip(raw)) != []
  {
    var line := Strip(raw);
    assert LStrip(line) == line;
  }

  /** `parse_vgs_vth_from_oplog(text)` */
  method ParseVgsVthFromOplog(text: string, parseFloat: string -> Option<real>) returns (biases: seq<DeviceBias>)
    ensures biases == OplogSpec(text, parseFloat)
  {
    if text == [] {
      return [];
    }
    var devices: seq<string> := [];
    var vthVals: seq<real> := [];
    var vgsVals: seq<real> := [];
    var lines := SplitLines(text);
    var k := 0;
    while k < |lines|
      invariant 0 <= k <= |lines|
      invariant devices == Collected(lines[..k], "device")
      invariant vthVals == AllParsed(Collected(lines[..k], "vth"), parseFloat)
      invariant vgsVals == AllParsed(Collected(lines[..k], "vgs"), parseFloat)
    {
      assert lines[..k + 1][..k] == lines[..k];
      assert lines[..k + 1][k] == lines[k];
      ParsedAppend(Collected(lines[..k], "vth"), LineTokens(lines[k], "vth"), parseFloat);
      ParsedAppend(Collected(lines[..k], "vgs"), LineTokens(lines[k], "vgs"), parseFloat);
      devices, vthVals, vgsVals := ReadLine(lines[k], devices, vthVals, vgsVals, parseFloat);
      k := k + 1;
    }
    assert lines[..k] == lines;
    biases := ZipBiases(devices, vgsVals, vthVals);
  }

  /** The closing `for i in range(n)` loop, `n` being the length of the
      shortest list. */
  method ZipBiases(devices: seq<string>, vgsVals: seq<real>, vthVals: seq<real>) returns (biases: seq<DeviceBias>)
    ensures biases == Zip3(devices, vgsVals, vthVals)
  {
    var n := Min3(|devices|, |vgsVals|, |vthVals|);
    biases := [];
    var i := 0;
    while i < n
      invariant 0 <= i <= n
      invariant |biases| == i
      invariant forall j :: 0 <= j < i ==> biases[j] == DeviceBias(devices[j], vgsVals[j], vthVals[j])
    {
      biases := biases + [DeviceBias(devices[i], vgsVals[i], vthVals[i])];
      i := i + 1;
    }
  }

  /** One pass of the loop over the log's lines. */
  method ReadLine(raw: string, devices: seq<string>, vthVals: seq<real>, vgsVals: seq<real>, parseFloat: string -> Option<real>)
    returns (devices': seq<string>, vthVals': seq<real>, vgsVals': seq<real>)
    ensures devices' == devices + LineTokens(raw, "device")
    ensures vthVals' == vthVals + AllParsed(LineTokens(raw, "vth"), parseFloat)
    ensures vgsVals' == vgsVals + AllParsed(LineTokens(raw, "vgs"), parseFloat)
  {
    devices', vthVals', vgsVals' := devices, vthVals, vgsVals;
    LineContribution(raw);
    var line := Strip(raw);
    if line == [] {
      return;
    }
    var parts := Split(line);
    if Lower(parts[0]) == "device" && |parts| > 1 {
      devices' := devices + parts[1..];
    } else if Lower(parts[0]) == "vth" && |parts| > 1 {
      vthVals' := AppendParsed(vthVals, parts[1..], parseFloat);
    } else if Lower(parts[0]) == "vgs" && |parts| > 1 {
      vgsVals' := AppendParsed(vgsVals, parts[1..], parseFloat);
    }
  }

  function AllParsed(tokens: seq<string>, parseFloat: string -> Option<real>): seq<real> {
    Parsed(tokens, |tokens|, parseFloat)
  }

  /** The inner `for val in parts[1:]` loop: append every token `float`
      accepts, skipping the others. */
  method AppendParsed(vals: seq<real>, tokens: seq<string>, parseFloat: string -> Option<real>) returns (r: seq<real>)
    ensures r == vals + AllParsed(tokens, parseFloat)
  {
    r := vals;
    var j := 0;
    while j < |tokens|
      invariant 0 <= j <= |tokens|
      invariant r == vals + Parsed(tokens, j, parseFloat)
    {
      var v := parseFloat(tokens[j]);
      if v.Some? {
        r := r + [v.value];
      }
      j := j + 1;
    }
  }

  lemma {:induction false} ParsedPrefix(a: seq<string>, b: seq<string>, n: nat, parseFloat: string -> Option<real>)
    requires n <= |a|
    ensures Parsed(a + b, n, parseFloat) == Parsed(a, n, parseFloat)
  {
    if n > 0 {
      ParsedPrefix(a, b, n - 1, parseFloat);
    }
  }

  lemma {:induction false} ParsedSplit(a: seq<string>, b: seq<string>, j: nat, parseFloat: string -> Option<real>)
    requires j <= |b|
    ensures Parsed(a + b, |a| + j, parseFloat) == Parsed(a, |a|, parseFloat) + Parsed(b, j, parseFloat)
  {
    if j == 0 {
      ParsedPrefix(a, b, |a|, parseFloat);
    } else {
      ParsedSplit(a, b, j - 1, parseFloat);
      assert (a + b)[|a| + j - 1] == b[j - 1];
      var v := parseFloat(b[j - 1]);
      var x, y, z := Parsed(a, |a|, parseFloat), Parsed(b, j - 1, parseFloat), (if v.Some? then [v.value] else []);
      assert Parsed(a + b, |a| + j, parseFloat) == (x + y) + z;
      assert Parsed(b, j, parseFloat) == y + z;
      assert (x + y) + z == x + (y + z);
    }
  }

  /** Converting a concatenation converts each part. */
  lemma ParsedAppend(a: seq<string>, b: seq<string>, parseFloat: string -> Option<real>)
    ensures AllParsed(a + b, parseFloat) == AllParsed(a, parseFloat) + AllParsed(b, parseFloat)
  {
    ParsedSplit(a, b, |b|, parseFloat);
  }

  lemma BlankLineAddsNothing(raw: string, key: string)
    requires Strip(raw) == []
    ensures LineTokens(raw, key) == []
  {
    assert Split([]) == [];
  }

  /** What one log line adds under each key, following the source's branches:
      nothing for a blank line, else by the lowered first token. */
  lemma LineContribution(raw: string)
    ensures Strip(raw) == [] ==> LineTokens(raw, "device") == [] && LineTokens(raw, "vth") == [] && LineTokens(raw, "vgs") == []
    ensures Strip(raw) != [] ==> Split(Strip(raw)) != []
  {
    if Strip(raw) == [] {
      assert Split([]) == [];
    } else {
      StripSplitNonEmpty(raw);
    }
  }

  /** The log yields as many devices as the shortest of its three lists, and
      the i-th pairs the i-th device name with the i-th accepted vgs and vth;
      an empty log yields none. */
  lemma OplogPairing(text: string, parseFloat: string -> Option<real>)
    ensures text == [] ==> OplogSpec(text, parseFloat) == []
    ensures text != [] ==>
      var lines := SplitLines(text);
      var devices := Collected(lines, "device");
      var vgs := AllParsed(Collected(lines, "vgs"), parseFloat);
      var vth := AllParsed(Collected(lines, "vth"), parseFloat);
      var r := OplogSpec(text, parseFloat);
      && |r| <= |devices| && |r| <= |vgs| && |r| <= |vth|
      && (|r| == |devices| || |r| == |vgs| || |r| == |vth|)
      && forall i :: 0 <= i < |r| ==> r[i].name == devices[i] && r[i].vgs == vgs[i] && r[i].vth == vth[i]
  {
  }

  lemma {:induction false} GatherAppend(a: seq<string>, b: seq<string>, tokensOf: string -> seq<string>)
    ensures Gather(a + b, tokensOf) == Gather(a, tokensOf) + Gather(b, tokensOf)
    decreases |b|
  {
    if b == [] {
      assert a + b == a;
    } else {
      var b', last := b[..|b| - 1], b[|b| - 1];
      assert (a + b)[..|a + b| - 1] == a + b';
      assert (a + b)[|a + b| - 1] == last;
      GatherAppend(a, b', tokensOf);
      var x, y, z := Gather(a, tokensOf), Gather(b', tokensOf), tokensOf(last);
      assert (x + y) + z == x + (y + z);
    }
  }

  /** Lines are read independently: the tokens of two stretches of log are
      those of the first followed by those of the second. */
  lemma CollectedAppend(a: seq<string>, b: seq<string>, key: string)
    ensures Collected(a + b, key) == Collected(a, key) + Collected(b, key)
  {
    GatherAppend(a, b, TokensUnder(key));
  }

  /** A line holding nothing but whitespace contributes nothing, wherever it
      stands. */
  lemma BlankLineIgnored(a: seq<string>, raw: string, b: seq<string>, key: string)
    requires Strip(raw) == []
    ensures Collected(a + [raw] + b, key) == Collected(a + b, key)
  {
    var f := TokensUnder(key);
    GatherAppend(a + [raw], b, f);
    GatherAppend(a, [raw], f);
    GatherAppend(a, b, f);
    BlankLineGathersNothing(raw, key);
  }

  lemma BlankLineGathersNothing(raw: string, key: string)
    requires Strip(raw) == []
    ensures Gather([raw], TokensUnder(key)) == []
  {
    BlankLineAddsNothing(raw, key);
    assert [raw][..0] == [];
    assert TokensUnder(key)(raw) == LineTokens(raw, key);
  }

  /** Only a line whose first token lowers to the key and that has another
      token contributes, and then with all its other tokens, verbatim and in
      order; in particular a line is never counted under two keys. */
  lemma KeyTokensOfLine(line: string, key: string)
    ensures KeyTokens(line, key) != [] ==> |Split(line)| > 1 && Lower(Split(line)[0]) == key
    ensures |Split(line)| > 1 && Lower(Split(line)[0]) == key ==> KeyTokens(line, key) == Split(line)[1..]
    ensures key != "device" && KeyTokens(line, key) != [] ==> KeyTokens(line, "device") == []
  {
  }

  /** Tokens `float` rejects are dropped without disturbing the others: the
      accepted values are exactly the converted accepted tokens, in order. */
  lemma {:induction false} ParsedKeepsAccepted(tokens: seq<string>, n: nat, parseFloat: string -> Option<real>)
    requires n <= |tokens|
    ensures |Parsed(tokens, n, parseFloat)| <= n
    ensures (forall i :: 0 <= i < n ==> parseFloat(tokens[i]).Some?) ==>
      Parsed(tokens, n, parseFloat) == seq(n, i requires 0 <= i < n => parseFloat(tokens[i]).value)
    ensures (forall i :: 0 <= i < n ==> parseFloat(tokens[i]).None?) ==> Parsed(tokens, n, parseFloat) == []
  {
    if n > 0 {
      ParsedKeepsAccepted(tokens, n - 1, parseFloat);
    }
  }
}
