/** The command-line test harness (salt-api-mcp/src/cli-test.ts): token masking, argument
    parsing into a tool name and parameters, the checks `main` makes before running a tool, and
    the classification of a tool's answer. Console output is modelled by the `Report` each run
    ends with. */
module Cli {
  import opened Wrappers
  import opened Text
  import opened Values
  import opened Client
  import opened Tools

  // ---------------------------------------------------------------------------
  // Token masking

  /** `maskToken(token)`: the first and last three characters around "...", or "***" for a
      token of at most six characters. */
  function MaskToken(token: string): (m: string)
    ensures |token| <= 6 ==> m == "***"
    ensures |token| > 6 ==>
      && |m| == 9
      && m[..3] == token[..3]
      && m[3..6] == "..."
      && m[6..] == token[|token| - 3..]
  {
    if |token| <= 6 then "***" else token[..3] + "..." + token[|token| - 3..]
  }

  /** The mask shows at most six characters of the token and nothing of its middle: tokens
      that agree on their first and last three characters are masked alike. */
  lemma MaskHidesMiddle(t1: string, t2: string)
    requires |t1| > 6 && |t2| > 6
    requires t1[..3] == t2[..3] && t1[|t1| - 3..] == t2[|t2| - 3..]
    ensures MaskToken(t1) == MaskToken(t2)
  {
  }

  // ---------------------------------------------------------------------------
  // Argument parsing

  /** The tool to run and its parameters. */
  datatype Parsed = Parsed(tool: string, params: Record)

  /** Whether a parameter's value is converted with `parseInt`. */
  predicate IsNumericKey(key: string) {
    key == "limit" || key == "offset"
  }

  /** The parameter assigned by one `--key value` pair, or `None` when a numeric value does not
      parse. */
  function ArgEntry(flag: string, value: string): (e: Option<(string, Value)>)
    requires StartsWith(flag, "--")
    ensures e.Some? ==> e.value.0 == flag[2..]
    ensures e.None? <==> IsNumericKey(flag[2..]) && ParseInt(value).None?
    ensures e.Some? && IsNumericKey(flag[2..]) ==> e.value.1 == Num(ParseInt(value).value)
    ensures e.Some? && !IsNumericKey(flag[2..]) ==> e.value.1 == Str(value)
  {
    var key := flag[2..];
    if IsNumericKey(key) then
      match ParseInt(value)
      case None => None
      case Some(n) => Some((key, Num(n)))
    else Some((key, Str(value)))
  }

  /** The pair starting at `args[i]` is malformed: no leading "--", no (or an empty) value, or a
      numeric value that does not parse. */
  predicate BadPair(args: seq<string>, i: nat)
    requires i < |args|
  {
    || !StartsWith(args[i], "--")
    || i + 1 >= |args|
    || args[i + 1] == ""
    || ArgEntry(args[i], args[i + 1]).None?
  }

  /** The entries assigned by the pairs from `args[i]` on, in order, or `None` when a pair is
      malformed. */
  function PairsFrom(args: seq<string>, i: nat): Option<Record>
    decreases |args| - i
  {
    if i >= |args| then Some([])
    else if BadPair(args, i) then None
    else
      match PairsFrom(args, i + 2)
      case None => None
      case Some(rest) => Some([ArgEntry(args[i], args[i + 1]).value] + rest)
  }

  /** `entries` preceded by `done`, when there are entries at all. */
  function Prepend(done: Record, entries: Option<Record>): Option<Record> {
    if entries.Some? then Some(done + entries.value) else None
  }

  /** `parseArgs(args)` as a definition: the first word names the tool, the pairs after it are
      assigned to the parameters one after another. */
  function ParseArgsSpec(args: seq<string>): (r: Option<Parsed>)
    ensures r.Some? ==> |args| > 0 && r.value.tool == args[0] && |args| % 2 == 1 && DistinctKeys(r.value.params)
  {
    if |args| < 1 then None
    else
      match PairsFrom(args, 1)
      case None => None
      case Some(entries) =>
        PairsFromEven(args, 1);
        AssignedKeysDistinct(entries);
        Some(Parsed(args[0], PutAll([], entries)))
  }

  /** Assigning entries one by one to an empty object never repeats a key. */
  lemma AssignedKeysDistinct(entries: Record)
    ensures DistinctKeys(PutAll([], entries))
  {
    assert DistinctKeys([]);
    PutAllDistinct([], entries);
  }

  /** Every flag is followed by its value, so the pairs that parse cover an even number of words. */
  lemma {:induction false} PairsFromEven(args: seq<string>, i: nat)
    requires i <= |args|
    ensures PairsFrom(args, i).Some? ==> (|args| - i) % 2 == 0
    decreases |args| - i
  {
    if i < |args| && !BadPair(args, i) {
      PairsFromEven(args, i + 2);
    }
  }

  /** One well-formed pair moves from the pairs still to parse to the entries already assigned. */
  lemma PairsStep(args: seq<string>, i: nat, done: Record)
    requires i < |args| && !BadPair(args, i)
    ensures Prepend(done, PairsFrom(args, i)) == Prepend(done + [ArgEntry(args[i], args[i + 1]).value], PairsFrom(args, i + 2))
  {
    var e := ArgEntry(args[i], args[i + 1]).value;
    if PairsFrom(args, i + 2).Some? {
      assert done + ([e] + PairsFrom(args, i + 2).value) == (done + [e]) + PairsFrom(args, i + 2).value;
    }
  }

  /** `parseArgs(args)`: the loop over `--key value` pairs. */
  method ParseArgs(args: seq<string>) returns (r: Option<Parsed>)
    ensures r == ParseArgsSpec(args)
  {
    if |args| < 1 {
      return None;
    }
    var params: Record := [];
    ghost var done: Record := [];
    var i := 1;
    assert Prepend(done, PairsFrom(args, i)) == PairsFrom(args, 1) by {
      if PairsFrom(args, 1).Some? {
        assert done + PairsFrom(args, 1).value == PairsFrom(args, 1).value;
      }
    }
    while i < |args|
      invariant 1 <= i
      invariant params == PutAll([], done)
      invariant PairsFrom(args, 1) == Prepend(done, PairsFrom(args, i))
      decreases |args| - i
    {
      if !StartsWith(args[i], "--") {
        return None;
      }
      if i + 1 >= |args| || args[i + 1] == "" {
        return None;
      }
      var key := args[i][2..];
      var value := args[i + 1];
      var entry: (string, Value);
      if IsNumericKey(key) {
        var n := ParseInt(value);
        if n.None? {
          return None;
        }
        entry := (key, Num(n.value));
      } else {
        entry := (key, Str(value));
      }
      assert ArgEntry(args[i], value) == Some(entry);
      PairsStep(args, i, done);
      PutAllSnoc([], done, entry.0, entry.1);
      params := Put(params, entry.0, entry.1);
      done := done + [entry];
      i := i + 2;
    }
    assert PairsFrom(args, i) == Some([]) && done + [] == done;
    return Some(Parsed(args[0], params));
  }

  /** `j` is where a `--key value` pair starts when the pairs start at `i`. */
  predicate PairStart(i: nat, j: nat) {
    i <= j && (j - i) % 2 == 0
  }

  /** The pair positions from `i` on are `i` itself and the pair positions from `i + 2` on. */
  lemma PairStartStep(i: nat, j: nat)
    ensures PairStart(i, j) <==> j == i || PairStart(i + 2, j)
  {
    if i + 2 <= j {
      assert (j - i) % 2 == (j - (i + 2)) % 2;
    }
  }

  /** Every pair from `args[i]` on is well formed. */
  predicate AllPairsGood(args: seq<string>, i: nat) {
    forall j: nat :: PairStart(i, j) && j < |args| ==> !BadPair(args, j)
  }

  /** The pairs from `args[i]` on are good exactly when the first one is and the rest are. */
  lemma AllPairsGoodStep(args: seq<string>, i: nat)
    requires i < |args|
    ensures AllPairsGood(args, i) <==> !BadPair(args, i) && AllPairsGood(args, i + 2)
  {
    if !BadPair(args, i) && AllPairsGood(args, i + 2) {
      forall j: nat | PairStart(i, j) && j < |args|
        ensures !BadPair(args, j)
      {
        PairStartStep(i, j);
      }
    }
    if AllPairsGood(args, i) {
      assert PairStart(i, i);
      forall j: nat | PairStart(i + 2, j) && j < |args|
        ensures !BadPair(args, j)
      {
        PairStartStep(i, j);
      }
    }
  }

  /** The pairs from `args[i]` on are all well formed exactly when their parse succeeds. */
  lemma {:induction false} PairsFromSomeIff(args: seq<string>, i: nat)
    ensures PairsFrom(args, i).Some? <==> forall j: nat :: PairStart(i, j) && j < |args| ==> !BadPair(args, j)
    decreases |args| - i
  {
    assert AllPairsGood(args, i) <==> forall j: nat :: PairStart(i, j) && j < |args| ==> !BadPair(args, j);
    if i < |args| {
      AllPairsGoodStep(args, i);
      if !BadPair(args, i) {
        PairsFromSomeIff(args, i + 2);
      }
    }
  }

  /** Parsing fails exactly when there is no tool name or some pair is malformed. */
  lemma ParseArgsNoneIff(args: seq<string>)
    ensures ParseArgsSpec(args).None? <==>
      |args| == 0 || exists j: nat :: PairStart(1, j) && j < |args| && BadPair(args, j)
  {
    PairsFromSomeIff(args, 1);
  }

  /** Every value the pairs assign is a non-empty string, or a number for a numeric key. */
  lemma {:induction false} PairsFromValues(args: seq<string>, i: nat)
    ensures PairsFrom(args, i).Some? ==>
      forall e :: e in PairsFrom(args, i).value ==>
        if IsNumericKey(e.0) then e.1.Num? else e.1.Str? && e.1.s != ""
    decreases |args| - i
  {
    if i < |args| && !BadPair(args, i) {
      PairsFromValues(args, i + 2);
    }
  }

  /** A repeated flag keeps the value given last; the parameters never hold a key twice. */
  lemma ParsedParamsLastWins(args: seq<string>, key: string)
    requires ParseArgsSpec(args).Some?
    ensures DistinctKeys(ParseArgsSpec(args).value.params)
    ensures Lookup(ParseArgsSpec(args).value.params, key) == LastValue(PairsFrom(args, 1).value, key)
  {
    PutAllLookup([], PairsFrom(args, 1).value, key);
    PutAllDistinct([], PairsFrom(args, 1).value);
  }

  /** A number written in decimal reaches the parameters unchanged. */
  lemma NumericFlagRoundTrip(tool: string, n: int)
    ensures ParseArgsSpec([tool, "--limit", IntToString(n)]) == Some(Parsed(tool, [("limit", Num(n))]))
  {
    var args := [tool, "--limit", IntToString(n)];
    var e: (string, Value) := ("limit", Num(n));
    LimitEntry(n);
    assert args[1] == "--limit" && args[2] == IntToString(n);
    assert !BadPair(args, 1);
    assert PairsFrom(args, 3) == Some([]);
    assert PairsFrom(args, 1) == Some([e]) by {
      assert [e] + [] == [e];
    }
    assert PutAll([], [e]) == [e] by {
      assert [e][1..] == [];
      assert Put([], e.0, e.1) == [e];
    }
  }

  /** `--limit` followed by a decimal integer is a well-formed pair holding that integer. */
  lemma LimitEntry(n: int)
    ensures IntToString(n) != "" && StartsWith("--limit", "--")
    ensures ArgEntry("--limit", IntToString(n)) == Some(("limit", Num(n)))
  {
    LimitFlag();
    ParseIntOfDecimal(n);
    NumericArgEntry("--limit", IntToString(n), n);
  }

  lemma LimitFlag()
    ensures StartsWith("--limit", "--") && "--limit"[2..] == "limit"
  {
    assert "--limit"[..2] == "--";
  }

  /** A numeric flag whose value `parseInt` reads as `n` stores `n`. */
  lemma NumericArgEntry(flag: string, value: string, n: int)
    requires StartsWith(flag, "--") && IsNumericKey(flag[2..])
    requires ParseInt(value) == Some(n)
    ensures ArgEntry(flag, value) == Some((flag[2..], Num(n)))
  {
  }


  // ---------------------------------------------------------------------------
  // Running a tool

  const ListToolsName: string := "list_tools"

  /** The tool names `main` accepts. */
  predicate IsValidTool(tool: string) {
    tool == ListToolsName || tool == ListToolName || tool == GetToolName
  }

  /** How the harness reads a tool's error text, in the order it checks. */
  datatype FailureKind = TokenMissingFailure | AuthenticationFailure | EndpointNotFound | ExecutionFailure

  function ClassifyFailure(text: string): (k: FailureKind)
    ensures k == TokenMissingFailure <==> Includes(text, "Salt Security Bearer token not configured")
    ensures k == AuthenticationFailure <==>
      !Includes(text, "Salt Security Bearer token not configured") && Includes(text, "Authentication failed")
    ensures k == EndpointNotFound <==>
      !Includes(text, "Salt Security Bearer token not configured") && !Includes(text, "Authentication failed")
      && Includes(text, "Resource not found")
    ensures k == ExecutionFailure <==>
      !Includes(text, "Salt Security Bearer token not configured") && !Includes(text, "Authentication failed")
      && !Includes(text, "Resource not found")
  {
    if Includes(text, "Salt Security Bearer token not configured") then TokenMissingFailure
    else if Includes(text, "Authentication failed") then AuthenticationFailure
    else if Includes(text, "Resource not found") then EndpointNotFound
    else ExecutionFailure
  }

  /** What a run of the harness reports before it exits. */
  datatype Report =
    | Usage
    | InvalidArguments
    | UnknownTool(tool: string)
    | MissingId
    | TokenNotConfigured
    | ToolsListed(tools: seq<ToolDescriptor>)
    | ToolFailed(kind: FailureKind, text: string)
    | ToolSucceeded(preview: string)

  /** A run: its exit code, its report, and the requests the client attempted. */
  datatype Run = Run(exitCode: int, report: Report, requests: seq<Request>)

  /** The first 200 characters of a successful answer, which the harness shows followed by "...". */
  function Preview(text: string): (p: string)
    ensures |p| <= 200 && |p| <= |text| && p == text[..|p|]
    ensures |text| >= 200 ==> |p| == 200
    ensures |text| < 200 ==> p == text
  {
    if |text| <= 200 then text else text[..200]
  }

  /** `runTest(tool, params)`: the token check, then the tool; `env` is SALT_BEARER_TOKEN. */
  function RunTest(env: Option<string>, up: Upstream, rd: Renderers, tool: string, params: Record): (run: Run)
    ensures !Truthy(env) <==> run.exitCode == 1
    ensures run.exitCode == 0 || run.exitCode == 1
    ensures !Truthy(env) ==> run == Run(1, TokenNotConfigured, [])
    ensures run.requests != [] ==> Truthy(env) && (tool == ListToolName || tool == GetToolName)
    ensures Truthy(env) && tool == ListToolsName ==> run == Run(0, ToolsListed(ListTools()), [])
    ensures Truthy(env) && tool != ListToolsName ==>
      var d := CallTool(NewConfig(env), up, rd, tool, Obj(params));
      var text := d.result.content[0].text;
      && run.requests == d.requests
      && (run.report.ToolFailed? <==> StartsWith(text, "Error:"))
      && (StartsWith(text, "Error:") ==> run == Run(0, ToolFailed(ClassifyFailure(text), text), d.requests))
      && (!StartsWith(text, "Error:") ==> run == Run(0, ToolSucceeded(Preview(text)), d.requests))
  {
    if !Truthy(env) then Run(1, TokenNotConfigured, [])
    else if tool == ListToolsName then Run(0, ToolsListed(ListTools()), [])
    else
      var d := CallTool(NewConfig(env), up, rd, tool, Obj(params));
      var text := d.result.content[0].text;
      if StartsWith(text, "Error:") then Run(0, ToolFailed(ClassifyFailure(text), text), d.requests)
      else Run(0, ToolSucceeded(Preview(text)), d.requests)
  }

  /** `main()` on the words after the script name. */
  function CliMain(argv: seq<string>, env: Option<string>, up: Upstream, rd: Renderers): (run: Run)
    ensures run.exitCode == 0 || run.exitCode == 1
    ensures |argv| == 0 || "--help" in argv || "-h" in argv ==> run == Run(0, Usage, [])
    ensures run.report == InvalidArguments <==>
      |argv| > 0 && "--help" !in argv && "-h" !in argv && ParseArgsSpec(argv).None?
    ensures run.report.UnknownTool? ==> run.report.tool == argv[0] && !IsValidTool(argv[0])
    ensures run.report == MissingId ==>
      argv[0] == GetToolName && !TruthyValue(Property(ParseArgsSpec(argv).value.params, "id"))
    ensures run.requests != [] ==> Truthy(env) && (argv[0] == ListToolName || argv[0] == GetToolName)
    ensures run.exitCode == 1 <==>
      run.report.InvalidArguments? || run.report.UnknownTool? || run.report.MissingId? || run.report.TokenNotConfigured?
    ensures run.exitCode == 1 ==> run.requests == []
    ensures |argv| > 0 && "--help" !in argv && "-h" !in argv && ParseArgsSpec(argv).Some? ==>
      var params := ParseArgsSpec(argv).value.params;
      if !IsValidTool(argv[0]) then run == Run(1, UnknownTool(argv[0]), [])
      else if argv[0] == GetToolName && !TruthyValue(Property(params, "id")) then run == Run(1, MissingId, [])
      else run == RunTest(env, up, rd, argv[0], params)
  {
    if |argv| == 0 || "--help" in argv || "-h" in argv then Run(0, Usage, [])
    else
      match ParseArgsSpec(argv)
      case None => Run(1, InvalidArguments, [])
      case Some(parsed) =>
        if !IsValidTool(parsed.tool) then Run(1, UnknownTool(parsed.tool), [])
        else if parsed.tool == GetToolName && !TruthyValue(Property(parsed.params, "id")) then
          Run(1, MissingId, [])
        else RunTest(env, up, rd, parsed.tool, parsed.params)
  }

  /** When the harness runs `get_cloud_asset`, the id it passes always satisfies the argument
      schema: its own check already demands a non-empty `--id`, so the tool never reports a
      validation error and the client is always invoked. */
  lemma CliGetAlwaysInvokesClient(argv: seq<string>, env: Option<string>, up: Upstream, rd: Renderers)
    requires |argv| > 0 && "--help" !in argv && "-h" !in argv
    requires ParseArgsSpec(argv).Some? && argv[0] == GetToolName
    requires TruthyValue(Property(ParseArgsSpec(argv).value.params, "id"))
    ensures ParseGetArgs(Obj(ParseArgsSpec(argv).value.params)).Success?
    ensures Truthy(env) ==>
      CallTool(NewConfig(env), up, rd, GetToolName, Obj(ParseArgsSpec(argv).value.params)).invoked.Some?
  {
    var entries := PairsFrom(argv, 1).value;
    var params := ParseArgsSpec(argv).value.params;
    PutAllLookup([], entries, "id");
    LastValueIn(entries, "id");
    PairsFromValues(argv, 1);
    assert Lookup(params, "id") == LastValue(entries, "id");
    assert ("id", LastValue(entries, "id").value) in entries;
  }
}
