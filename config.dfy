/** The run catalog and the command materializer of config/config.go:
    a catalog is an ordered list of named runs, and each run's parameters
    are turned into one `llama-server` command line. */
module Configuration {
  import opened Base

  /** The structured parameters of one run; every field but `flashAttn` is
      a string, and an empty string means "not set". */
  datatype RunParams = RunParams(
    modelPath: string,
    ngLayers: string,
    contextSize: string,
    flashAttn: bool,
    tensorSplit: string,
    priority: string,
    temperature: string,
    minP: string,
    topP: string,
    topK: string,
    host: string)

  datatype Run = Run(name: string, description: string, params: RunParams)

  /** The catalog, as decoded from the configuration file. */
  datatype Config = Config(runs: seq<Run>)

  /** The fixed first token: change directory, then name the server binary. */
  const Launcher: string := "cd /home/aleksandr/repo/gguf/ && ../llama.cpp/build/bin/llama-server"

  /** The tensor split is the one value emitted inside double quotes. */
  function Quote(s: string): string
  {
    "\"" + s + "\""
  }

  /** Starts and ends with a double quote. */
  predicate IsQuoted(s: string)
  {
    |s| >= 2 && s[0] == '"' && s[|s| - 1] == '"'
  }

  /** Inverse of `Quote` (used only to state what a token list encodes). */
  function Unquote(s: string): string
  {
    if |s| >= 2 then s[1..|s| - 1] else s
  }

  /** The seven tokens that every command line starts with. */
  function Required(p: RunParams): seq<string>
  {
    [Launcher, "-m", p.modelPath, "-ngl", p.ngLayers, "-c", p.contextSize]
  }

  /** A flag followed by its value, or nothing when the value is unset. */
  function Valued(flag: string, value: string): (r: seq<string>)
    ensures |r| == 2 * Present(value)
  {
    if value == "" then [] else [flag, value]
  }

  /** A flag without a value, present only when switched on. */
  function Switch(flag: string, on: bool): (r: seq<string>)
    ensures |r| == if on then 1 else 0
  {
    if on then [flag] else []
  }

  /** The tensor-split value as emitted: quoted when set, unset otherwise. */
  function QuotedValue(s: string): (r: string)
    ensures Present(r) == Present(s)
  {
    if s == "" then "" else Quote(s)
  }

  /** The eight optional segments, in their fixed order. */
  function Optional(p: RunParams): (r: seq<string>)
    ensures |r| == (if p.flashAttn then 1 else 0) + 2 * SetOptions(p)
  {
    Switch("--flash-attn", p.flashAttn) + ValueSegments(p)
  }

  /** The seven flag-and-value segments after the flash-attention switch. */
  function ValueSegments(p: RunParams): (r: seq<string>)
    ensures |r| == 2 * SetOptions(p)
  {
    Valued("--tensor-split", QuotedValue(p.tensorSplit))
    + (Valued("--prio", p.priority)
    + (Valued("--temp", p.temperature)
    + (Valued("--min-p", p.minP)
    + (Valued("--top-p", p.topP)
    + (Valued("--top-k", p.topK)
    + Valued("--host", p.host))))))
  }

  function Present(s: string): nat
  {
    if s == "" then 0 else 1
  }

  /** How many of the seven optional string fields are set. */
  function SetOptions(p: RunParams): nat
  {
    Present(p.tensorSplit) + Present(p.priority) + Present(p.temperature)
    + Present(p.minP) + Present(p.topP) + Present(p.topK) + Present(p.host)
  }

  /** The token list that `BuildCommand` assembles. */
  function Parts(p: RunParams): (parts: seq<string>)
    ensures |parts| == 7 + (if p.flashAttn then 1 else 0) + 2 * SetOptions(p)
    ensures parts[0] == Launcher && parts[1] == "-m" && parts[2] == p.modelPath
    ensures parts[3] == "-ngl" && parts[4] == p.ngLayers
    ensures parts[5] == "-c" && parts[6] == p.contextSize
  {
    Required(p) + Optional(p)
  }

  /** Sum of the lengths of the strings in `parts`. */
  function TotalLength(parts: seq<string>): nat
  {
    if parts == [] then 0 else |parts[0]| + TotalLength(parts[1..])
  }

  /** `strings.Join(parts, " ")`. */
  function Join(parts: seq<string>): (s: string)
    ensures parts == [] ==> s == ""
    ensures parts != [] ==> |s| == TotalLength(parts) + |parts| - 1
  {
    if |parts| == 0 then ""
    else if |parts| == 1 then parts[0]
    else parts[0] + " " + Join(parts[1..])
  }

  /** The command line for one run. */
  function BuildCommand(p: RunParams): (s: string)
    ensures s == CommandLine(p)
  {
    BuildCommandText(p);
    Join(Parts(p))
  }

  /** Each token preceded by one space: what a non-empty token list
      contributes when it is appended to a joined one. */
  function Spaced(parts: seq<string>): string
  {
    if parts == [] then "" else " " + parts[0] + Spaced(parts[1..])
  }

  lemma {:induction false} SpacedAppend(a: seq<string>, b: seq<string>)
    ensures Spaced(a + b) == Spaced(a) + Spaced(b)
  {
    if a == [] {
      assert a + b == b;
    } else {
      assert (a + b)[1..] == a[1..] + b;
      SpacedAppend(a[1..], b);
    }
  }

  /** Joining a longer list extends the joined shorter list. */
  lemma {:induction false} JoinAppend(a: seq<string>, b: seq<string>)
    requires a != []
    ensures Join(a + b) == Join(a) + Spaced(b)
    decreases |a| + |b|
  {
    if |a| == 1 {
      if b != [] {
        assert (a + b)[1..] == b;
        JoinAppend([b[0]], b[1..]);
        assert [b[0]] + b[1..] == b;
      }
    } else {
      assert (a + b)[1..] == a[1..] + b;
      JoinAppend(a[1..], b);
    }
  }

  /** A set option as command-line text: a space, the flag, a space and
      the value; nothing when the value is unset. */
  function OptionText(flag: string, value: string): string
  {
    if value == "" then "" else " " + flag + " " + value
  }

  /** The optional part of the command line as text, in the fixed order. */
  function OptionalText(p: RunParams): string
  {
    (if p.flashAttn then " --flash-attn" else "") + ValueText(p)
  }

  /** The seven flag-and-value options as text, in the fixed order. */
  function ValueText(p: RunParams): string
  {
    OptionText("--tensor-split", QuotedValue(p.tensorSplit))
    + (OptionText("--prio", p.priority)
    + (OptionText("--temp", p.temperature)
    + (OptionText("--min-p", p.minP)
    + (OptionText("--top-p", p.topP)
    + (OptionText("--top-k", p.topK)
    + OptionText("--host", p.host))))))
  }

  /** The command line written as one string: the required flags, then
      each optional flag that is set. */
  function CommandLine(p: RunParams): string
  {
    Launcher + " -m " + p.modelPath + " -ngl " + p.ngLayers + " -c " + p.contextSize
    + OptionalText(p)
  }

  lemma JoinSeven(a: string, b: string, c: string, d: string, e: string, f: string, g: string)
    ensures Join([a, b, c, d, e, f, g]) == a + " " + b + " " + c + " " + d + " " + e + " " + f + " " + g
  {
    var r := [a, b, c, d, e, f, g];
    assert Join(r[6..]) == g;
    assert Join(r[5..]) == f + " " + g;
    assert Join(r[4..]) == e + " " + (f + " " + g);
    assert Join(r[3..]) == d + " " + (e + " " + (f + " " + g));
    assert Join(r[2..]) == c + " " + (d + " " + (e + " " + (f + " " + g)));
    assert Join(r[1..]) == b + " " + (c + " " + (d + " " + (e + " " + (f + " " + g))));
  }

  lemma SpacedValued(flag: string, value: string)
    ensures Spaced(Valued(flag, value)) == OptionText(flag, value)
  {
    if value != "" {
      var v := Valued(flag, value);
      assert v[1..] == [value];
      assert v[1..][1..] == [];
      assert Spaced(v[1..]) == " " + value;
    }
  }

  /** Appending a flag-and-value segment appends its text. */
  lemma SpacedSegment(flag: string, value: string, rest: seq<string>)
    ensures Spaced(Valued(flag, value) + rest) == OptionText(flag, value) + Spaced(rest)
  {
    SpacedAppend(Valued(flag, value), rest);
    SpacedValued(flag, value);
  }

  lemma SpacedValueSegments(p: RunParams)
    ensures Spaced(ValueSegments(p)) == ValueText(p)
  {
    var t7 := Valued("--host", p.host);
    var t6 := Valued("--top-k", p.topK) + t7;
    var t5 := Valued("--top-p", p.topP) + t6;
    var t4 := Valued("--min-p", p.minP) + t5;
    var t3 := Valued("--temp", p.temperature) + t4;
    var t2 := Valued("--prio", p.priority) + t3;
    var t1 := Valued("--tensor-split", QuotedValue(p.tensorSplit)) + t2;
    assert ValueSegments(p) == t1;
    SpacedValued("--host", p.host);
    SpacedSegment("--top-k", p.topK, t7);
    SpacedSegment("--top-p", p.topP, t6);
    SpacedSegment("--min-p", p.minP, t5);
    SpacedSegment("--temp", p.temperature, t4);
    SpacedSegment("--prio", p.priority, t3);
    SpacedSegment("--tensor-split", QuotedValue(p.tensorSplit), t2);
  }

  lemma SpacedOptional(p: RunParams)
    ensures Spaced(Optional(p)) == OptionalText(p)
  {
    var fa := Switch("--flash-attn", p.flashAttn);
    var vs := ValueSegments(p);
    assert Optional(p) == fa + vs;
    SpacedAppend(fa, vs);
    SpacedValueSegments(p);
    if p.flashAttn {
      assert fa[1..] == [];
      assert Spaced(fa) == " --flash-attn";
    } else {
      assert Spaced(fa) == "";
    }
  }

  lemma JoinRequired(p: RunParams)
    ensures Join(Required(p))
         == Launcher + " -m " + p.modelPath + " -ngl " + p.ngLayers + " -c " + p.contextSize
  {
    var m, n, c := p.modelPath, p.ngLayers, p.contextSize;
    JoinSeven(Launcher, "-m", m, "-ngl", n, "-c", c);
    assert " " + "-m" + " " == " -m ";
    assert " " + "-ngl" + " " == " -ngl ";
    assert " " + "-c" + " " == " -c ";
  }

  /** The joined token list is exactly the concatenated command line. */
  lemma BuildCommandText(p: RunParams)
    ensures Join(Parts(p)) == CommandLine(p)
  {
    JoinAppend(Required(p), Optional(p));
    JoinRequired(p);
    SpacedOptional(p);
  }

  /** Reads one optional flag-and-value segment (a flag and a non-empty
      value) off the front of `ts`:
      its value and what follows, or the unset value and `ts` itself. */
  function TakeValue(flag: string, ts: seq<string>): (string, seq<string>)
  {
    if |ts| >= 2 && ts[0] == flag && ts[1] != "" then (ts[1], ts[2..]) else ("", ts)
  }

  /** Reads the seven flag-and-value segments, in their fixed order, and
      yields the seven values (the tensor split unquoted); None when tokens
      are left over. */
  function ParseValues(ts: seq<string>): Option<seq<string>>
  {
    var (split, r1) := TakeValue("--tensor-split", ts);
    var (prio, r2) := TakeValue("--prio", r1);
    var (temp, r3) := TakeValue("--temp", r2);
    var (minP, r4) := TakeValue("--min-p", r3);
    var (topP, r5) := TakeValue("--top-p", r4);
    var (topK, r6) := TakeValue("--top-k", r5);
    var (host, r7) := TakeValue("--host", r6);
    if r7 != [] || !(split == "" || (IsQuoted(split) && |split| > 2)) then None
    else Some([Unquote(split), prio, temp, minP, topP, topK, host])
  }

  /** A tensor split that is set cannot be empty, so a quoted empty
      value is not read back as an unset one. */
  lemma QuotedEmptySplitRejected()
    ensures ParseValues(["--tensor-split", "\"\""]) == None
  {
    var ts := ["--tensor-split", "\"\""];
    assert TakeValue("--tensor-split", ts) == ("\"\"", []);
  }

  /** Recovers the parameters from a token list laid out as `Parts` lays
      them out; None when the required part or the order is not respected. */
  function ParseParts(ts: seq<string>): Option<RunParams>
  {
    if |ts| < 7 || ts[0] != Launcher || ts[1] != "-m" || ts[3] != "-ngl" || ts[5] != "-c" then None
    else
      var flash := |ts| > 7 && ts[7] == "--flash-attn";
      match ParseValues(if flash then ts[8..] else ts[7..])
      case None => None
      case Some(v) => Some(RunParams(ts[2], ts[4], ts[6], flash, v[0], v[1], v[2], v[3], v[4], v[5], v[6]))
  }

  lemma TakeSegment(flag: string, value: string, rest: seq<string>)
    requires rest == [] || rest[0] != flag
    ensures TakeValue(flag, Valued(flag, value) + rest) == (value, rest)
  {
    if value != "" {
      assert (Valued(flag, value) + rest)[2..] == rest;
    } else {
      assert Valued(flag, value) + rest == rest;
    }
  }

  lemma ValueSegmentsRoundTrip(p: RunParams)
    ensures ParseValues(ValueSegments(p))
         == Some([p.tensorSplit, p.priority, p.temperature, p.minP, p.topP, p.topK, p.host])
  {
    var t7 := Valued("--host", p.host);
    var t6 := Valued("--top-k", p.topK) + t7;
    var t5 := Valued("--top-p", p.topP) + t6;
    var t4 := Valued("--min-p", p.minP) + t5;
    var t3 := Valued("--temp", p.temperature) + t4;
    var t2 := Valued("--prio", p.priority) + t3;
    TakeSegment("--host", p.host, []);
    assert t7 + [] == t7;
    TakeSegment("--top-k", p.topK, t7);
    TakeSegment("--top-p", p.topP, t6);
    TakeSegment("--min-p", p.minP, t5);
    TakeSegment("--temp", p.temperature, t4);
    TakeSegment("--prio", p.priority, t3);
    var q := QuotedValue(p.tensorSplit);
    TakeSegment("--tensor-split", q, t2);
    QuotedValueShape(p.tensorSplit);
    assert ValueSegments(p) == Valued("--tensor-split", q) + t2;
    assert TakeValue("--tensor-split", ValueSegments(p)) == (q, t2);
    assert TakeValue("--host", t7) == (p.host, []);
  }

  /** A set tensor split is emitted as a quoted token of more than two
      characters that unquotes to it; an unset one as nothing. */
  lemma QuotedValueShape(s: string)
    ensures s == "" ==> QuotedValue(s) == ""
    ensures s != "" ==> IsQuoted(QuotedValue(s)) && |QuotedValue(s)| > 2
    ensures Unquote(QuotedValue(s)) == s
  {
    if s != "" {
      assert QuotedValue(s)[1..|QuotedValue(s)| - 1] == s;
    }
  }

  /** Every field of the parameters can be read back from the token list:
      each optional segment sits in its own fixed place and is present
      exactly when its field is set, and only the tensor split is quoted. */
  lemma PartsRoundTrip(p: RunParams)
    ensures ParseParts(Parts(p)) == Some(p)
  {
    var ts := Parts(p);
    var rest := ValueSegments(p);
    assert ts == Required(p) + Switch("--flash-attn", p.flashAttn) + rest;
    assert (if p.flashAttn then ts[8..] else ts[7..]) == rest;
    assert rest == [] || rest[0] != "--flash-attn";
    ValueSegmentsRoundTrip(p);
  }

  /** Different parameters never produce the same token list. */
  lemma PartsInjective(p: RunParams, q: RunParams)
    requires Parts(p) == Parts(q)
    ensures p == q
  {
    PartsRoundTrip(p);
    PartsRoundTrip(q);
  }

  /** `--flash-attn` is the eighth token exactly when the switch is on;
      no other token can stand there. */
  lemma FlashAttnPosition(p: RunParams)
    ensures p.flashAttn <==> |Parts(p)| > 7 && Parts(p)[7] == "--flash-attn"
  {
  }

  /** Position `i` holds the first run carrying `name`. */
  ghost predicate IsFirstMatch(runs: seq<Run>, name: string, i: int)
  {
    0 <= i < |runs| && runs[i].name == name && forall j :: 0 <= j < i ==> runs[j].name != name
  }

  ghost predicate NoMatch(runs: seq<Run>, name: string)
  {
    forall j :: 0 <= j < |runs| ==> runs[j].name != name
  }

  /** `Config.GetRun`: scan the runs in order and return the position of
      the first one whose name is exactly `name` (the Go code returns a
      pointer to that element), or nothing. */
  method GetRun(c: Config, name: string) returns (r: Option<nat>)
    ensures r.None? <==> NoMatch(c.runs, name)
    ensures r.Some? ==> IsFirstMatch(c.runs, name, r.value)
  {
    var i := 0;
    while i < |c.runs|
      invariant 0 <= i <= |c.runs|
      invariant forall j :: 0 <= j < i ==> c.runs[j].name != name
    {
      if c.runs[i].name == name {
        return Some(i);
      }
      i := i + 1;
    }
    return None;
  }

  /** A worked case: model path, layers and context size, flash attention
      and a temperature give exactly the required flags, then
      `--flash-attn`, then `--temp`, and no other optional flag. */
  lemma ExampleParts()
    ensures Parts(RunParams("m.gguf", "65", "13824", true, "", "", "0.6", "", "", "", ""))
         == [Launcher, "-m", "m.gguf", "-ngl", "65", "-c", "13824", "--flash-attn", "--temp", "0.6"]
  {
  }

  /** With only the required fields set, no optional token appears. */
  lemma RequiredOnly(m: string, n: string, c: string)
    ensures Parts(RunParams(m, n, c, false, "", "", "", "", "", "", ""))
         == [Launcher, "-m", m, "-ngl", n, "-c", c]
  {
  }
}
