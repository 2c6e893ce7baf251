/**
 * The decisions of the three command-line entry points, as functions from
 * the arguments and a file-existence test to an outcome: usage, a failure
 * with its message, or a run with the chosen input, output and format.
 * Printing, reading, writing and exiting are left to the caller; the exit
 * status is a function of the outcome.
 */
module Cli {
  import opened Wrappers
  import opened Text
  import opened Values
  import opened OpenApi
  import Parser
  import GraphQL

  datatype Outcome<C> = Usage | Failure(message: string) | Run(config: C)

  /** An output path (`undefined` when `--output` is the last argument) and a format. */
  datatype Options = Options(output: Option<string>, format: string)

  /** A run of the Postman or GraphQL tool. */
  datatype Job = Job(input: string, output: Option<string>, format: string)

  /**
   * A tool taking `--output` and `--format`: its default output, its two
   * formats (the first is the default) and the default output of the
   * second format.
   */
  datatype Tool = Tool(defaultOutput: string, defaultFormat: string, otherFormat: string, otherOutput: string)

  const PostmanTool := Tool("collection.json", "postman", "curl", "curls.txt")
  const GraphQLTool := Tool("schema.graphql", "schema", "json", "schema.json")

  const Extensions := [".json", ".yaml", ".yml"]
  const UnsupportedMessage := "Error: Unsupported file format. Please use .json, .yaml, or .yml files."
  const DefaultOutputDir := "./generated"

  function MissingMessage(input: string): string {
    "Error: Input file '" + input + "' does not exist."
  }

  function InvalidFormatMessage(tool: Tool, value: Option<string>): string {
    "Error: Invalid format '" + Interp(value) + "'. Use '" + tool.defaultFormat + "' or '" + tool.otherFormat + "'."
  }

  // ---------------------------------------------------------------------
  // Shared pieces.

  /** `args[k]`, `undefined` past the end. */
  function At(args: seq<string>, k: nat): (r: Option<string>)
    ensures r.Some? <==> k < |args|
  {
    if k < |args| then Some(args[k]) else None
  }

  /** No arguments, or `--help` or `-h` anywhere. */
  predicate WantsHelp(args: seq<string>) {
    |args| == 0 || "--help" in args || "-h" in args
  }

  /** The last index of `c` in `s`. */
  function LastIndexOf(s: string, c: char): (r: Option<nat>)
    ensures r.Some? ==> r.value < |s| && s[r.value] == c && forall j :: r.value < j < |s| ==> s[j] != c
    ensures r.None? ==> c !in s
  {
    if |s| == 0 then None
    else if s[|s| - 1] == c then Some(|s| - 1)
    else LastIndexOf(s[..|s| - 1], c)
  }

  /**
   * `path.extname`: from the last `.` of the last segment to its end, or
   * empty when that segment has no `.` other than a leading one, or is `..`.
   */
  function ExtName(p: string): (r: string)
    ensures r == "" || (r[0] == '.' && '/' !in r && EndsWith(p, r) && '.' !in r[1..])
    ensures var base := LastSegment(p);
            r == "" <==> base == ".." || forall i :: 0 < i < |base| ==> base[i] != '.'
    ensures EndsWith(LastSegment(p), r)
  {
    var base := LastSegment(p);
    LastSegmentIsSuffix(p);
    match LastIndexOf(base, '.')
    case None => ""
    case Some(i) =>
      if i == 0 || base == ".." then ""
      else
        ExtensionSuffix(p, base, i);
        base[i..]
  }

  /** The tail of the last segment from its last `.` is a `.`-led suffix of the path. */
  lemma ExtensionSuffix(p: string, base: string, i: nat)
    requires EndsWith(p, base) && '/' !in base
    requires i < |base| && base[i] == '.' && forall j :: i < j < |base| ==> base[j] != '.'
    ensures var r := base[i..];
            r[0] == '.' && '/' !in r && EndsWith(p, r) && '.' !in r[1..] && EndsWith(base, r)
  {
    var r := base[i..];
    assert forall c :: c in r ==> c in base;
    assert forall k :: 0 <= k < |r| - 1 ==> r[1..][k] == base[i + 1 + k];
    assert p[|p| - |r|..] == base[|base| - |r|..];
    assert EndsWith(base, r);
  }

  /** The input checks, in order: existence, then the lower-cased extension. */
  function Validate(input: string, fileExists: string -> bool): (r: Option<string>)
    ensures r.None? <==> fileExists(input) && Lower(ExtName(input)) in Extensions
  {
    if !fileExists(input) then Some(MissingMessage(input))
    else if Lower(ExtName(input)) !in Extensions then Some(UnsupportedMessage)
    else None
  }

  /**
   * The option loop from index `i`: `--output`/`-o` takes the next
   * argument, `--format`/`-f` takes it only when it names one of the two
   * formats and otherwise stops with the offending value; both skip the
   * value; anything else is ignored.
   */
  function Scan(tool: Tool, args: seq<string>, i: nat, opts: Options): (r: Result<Options, Option<string>>)
    ensures r.Ok? ==> r.value.format == opts.format || r.value.format == tool.defaultFormat || r.value.format == tool.otherFormat
    decreases |args| - i
  {
    if i >= |args| then Ok(opts)
    else if args[i] == "--output" || args[i] == "-o" then Scan(tool, args, i + 2, opts.(output := At(args, i + 1)))
    else if args[i] == "--format" || args[i] == "-f" then
      var value := At(args, i + 1);
      if value == Some(tool.defaultFormat) || value == Some(tool.otherFormat) then
        Scan(tool, args, i + 2, opts.(format := value.value))
      else Err(value)
    else Scan(tool, args, i + 1, opts)
  }

  /** One of the four option flags. */
  predicate IsFlag(a: string) {
    a == "--output" || a == "-o" || a == "--format" || a == "-f"
  }

  /**
   * Scanning a list followed by more arguments: when the list does not end
   * with a flag, the loop reaches exactly its end, with the options the
   * list alone gives, and then goes on into the rest; an error in the list
   * stays the error.
   */
  lemma {:induction false} ScanPrefix(tool: Tool, args: seq<string>, rest: seq<string>, i: nat, opts: Options)
    requires i <= |args|
    requires i == |args| || !IsFlag(args[|args| - 1])
    ensures Scan(tool, args, i, opts).Err? ==> Scan(tool, args + rest, i, opts) == Scan(tool, args, i, opts)
    ensures Scan(tool, args, i, opts).Ok? ==>
              Scan(tool, args + rest, i, opts) == Scan(tool, args + rest, |args|, Scan(tool, args, i, opts).value)
    decreases |args| - i
  {
    if i < |args| {
      var all := args + rest;
      assert all[i] == args[i];
      if IsFlag(args[i]) {
        assert i + 1 < |args|;
        assert all[i + 1] == args[i + 1];
        assert At(all, i + 1) == At(args, i + 1);
        ScanPrefix(tool, args, rest, i + 2, opts.(output := At(args, i + 1)));
        ScanPrefix(tool, args, rest, i + 2, opts.(format := args[i + 1]));
      } else {
        ScanPrefix(tool, args, rest, i + 1, opts);
      }
    }
  }

  /**
   * For every argument list that does not end with a flag: a further
   * `--output x` or `-o x` sets the output to `x` and keeps the format, a
   * further `--format v` or `-f v` sets the format when `v` is one of the
   * tool's two and otherwise fails with `v`, and any further argument that
   * is not a flag changes nothing.
   */
  lemma ScanLastWins(tool: Tool, args: seq<string>, flag: string, x: string, opts: Options)
    requires 1 <= |args| && (|args| == 1 || !IsFlag(args[|args| - 1]))
    requires Scan(tool, args, 1, opts).Ok?
    ensures var o := Scan(tool, args, 1, opts).value;
            (flag == "--output" || flag == "-o" ==> Scan(tool, args + [flag, x], 1, opts) == Ok(o.(output := Some(x))))
            && (flag == "--format" || flag == "-f" ==>
                  Scan(tool, args + [flag, x], 1, opts)
                  == if x == tool.defaultFormat || x == tool.otherFormat then Ok(o.(format := x)) else Err(Some(x)))
            && (!IsFlag(flag) ==> Scan(tool, args + [flag], 1, opts) == Ok(o))
  {
    ScanPrefix(tool, args, [flag, x], 1, opts);
    ScanPrefix(tool, args, [flag], 1, opts);
    var o := Scan(tool, args, 1, opts).value;
    assert (args + [flag, x])[|args|] == flag && (args + [flag, x])[|args| + 1] == x;
    assert (args + [flag])[|args|] == flag;
  }

  /** The option loop of `main`, whose index skips each option's value. */
  method ScanOptions(tool: Tool, args: seq<string>) returns (r: Result<Options, Option<string>>)
    ensures r == Scan(tool, args, 1, Options(Some(tool.defaultOutput), tool.defaultFormat))
  {
    var output := Some(tool.defaultOutput);
    var format := tool.defaultFormat;
    var i := 1;
    while i < |args|
      invariant 1 <= i
      invariant Scan(tool, args, i, Options(output, format)) == Scan(tool, args, 1, Options(Some(tool.defaultOutput), tool.defaultFormat))
      decreases |args| - i
    {
      var arg := args[i];
      if arg == "--output" || arg == "-o" {
        output := At(args, i + 1);
        i := i + 1;
      } else if arg == "--format" || arg == "-f" {
        var value := At(args, i + 1);
        if value == Some(tool.defaultFormat) || value == Some(tool.otherFormat) {
          format := value.value;
        } else {
          return Err(value);
        }
        i := i + 1;
      }
      i := i + 1;
    }
    return Ok(Options(output, format));
  }

  // ---------------------------------------------------------------------
  // The Postman and GraphQL tools.

  /** `main` of `openapi-postman` and `openapi-graphql` up to the generation step. */
  function Decide(tool: Tool, args: seq<string>, fileExists: string -> bool): Outcome<Job> {
    if WantsHelp(args) then Usage
    else
      match Scan(tool, args, 1, Options(Some(tool.defaultOutput), tool.defaultFormat))
      case Err(value) => Failure(InvalidFormatMessage(tool, value))
      case Ok(opts) =>
        match Validate(args[0], fileExists)
        case Some(message) => Failure(message)
        case None =>
          var output := if opts.output == Some(tool.defaultOutput) && opts.format == tool.otherFormat
                        then Some(tool.otherOutput) else opts.output;
          Run(Job(args[0], output, opts.format))
  }

  /** The same decision, with the option loop run as a loop. */
  method ChooseJob(tool: Tool, args: seq<string>, fileExists: string -> bool) returns (o: Outcome<Job>)
    ensures o == Decide(tool, args, fileExists)
  {
    if |args| == 0 || "--help" in args || "-h" in args {
      return Usage;
    }
    var input := args[0];
    var opts := ScanOptions(tool, args);
    if opts.Err? {
      return Failure(InvalidFormatMessage(tool, opts.error));
    }
    var output := opts.value.output;
    var format := opts.value.format;
    if !fileExists(input) {
      return Failure(MissingMessage(input));
    }
    if Lower(ExtName(input)) !in Extensions {
      return Failure(UnsupportedMessage);
    }
    if output == Some(tool.defaultOutput) && format == tool.otherFormat {
      output := Some(tool.otherOutput);
    }
    return Run(Job(input, output, format));
  }

  /** Usage is shown exactly when there are no arguments or one of them asks for help. */
  lemma UsageIffHelp(tool: Tool, args: seq<string>, fileExists: string -> bool)
    ensures Decide(tool, args, fileExists).Usage? <==> WantsHelp(args)
  {
  }

  /**
   * An invalid format is reported during option parsing: the outcome does
   * not depend on the file system.
   */
  lemma FormatCheckedBeforeFile(tool: Tool, args: seq<string>, fileExists1: string -> bool, fileExists2: string -> bool)
    requires !WantsHelp(args)
    requires Scan(tool, args, 1, Options(Some(tool.defaultOutput), tool.defaultFormat)).Err?
    ensures Decide(tool, args, fileExists1) == Decide(tool, args, fileExists2)
    ensures Decide(tool, args, fileExists1)
            == Failure(InvalidFormatMessage(tool, Scan(tool, args, 1, Options(Some(tool.defaultOutput), tool.defaultFormat)).error))
  {
  }

  /** A missing input file is reported before its extension is looked at. */
  lemma MissingFileFirst(tool: Tool, args: seq<string>, fileExists: string -> bool)
    requires !WantsHelp(args) && !fileExists(args[0])
    requires Scan(tool, args, 1, Options(Some(tool.defaultOutput), tool.defaultFormat)).Ok?
    ensures Decide(tool, args, fileExists) == Failure(MissingMessage(args[0]))
  {
  }

  /**
   * A run takes the first argument as its input, which exists and has an
   * accepted extension, and one of the tool's two formats; the second
   * format never writes to the default output.
   */
  lemma RunIsValid(tool: Tool, args: seq<string>, fileExists: string -> bool)
    requires Decide(tool, args, fileExists).Run?
    requires tool.otherOutput != tool.defaultOutput
    ensures var j := Decide(tool, args, fileExists).config;
            !WantsHelp(args) && j.input == args[0] && fileExists(j.input) && Lower(ExtName(j.input)) in Extensions
            && (j.format == tool.defaultFormat || j.format == tool.otherFormat)
            && (j.format == tool.otherFormat ==> j.output != Some(tool.defaultOutput))
  {
  }

  /** An explicit `--output collection.json` with `--format curl` still writes `curls.txt`. */
  lemma CurlRenamesExplicitCollection(fileExists: string -> bool)
    requires fileExists("api.yaml")
    ensures Decide(PostmanTool, ["api.yaml", "--output", "collection.json", "--format", "curl"], fileExists)
            == Run(Job("api.yaml", Some("curls.txt"), "curl"))
  {
    var args := ["api.yaml", "--output", "collection.json", "--format", "curl"];
    CurlScan();
    NoHelpFlag(args);
    ApiYamlValid(fileExists);
  }

  lemma CurlScan()
    ensures Scan(PostmanTool, ["api.yaml", "--output", "collection.json", "--format", "curl"], 1,
                 Options(Some("collection.json"), "postman"))
            == Ok(Options(Some("collection.json"), "curl"))
  {
    var args := ["api.yaml", "--output", "collection.json", "--format", "curl"];
    var start := Options(Some("collection.json"), "postman");
    assert args[1] == "--output" && args[3] == "--format" && args[4] == "curl";
    assert Scan(PostmanTool, args, 5, Options(Some("collection.json"), "curl")) == Ok(Options(Some("collection.json"), "curl"));
    assert Scan(PostmanTool, args, 3, start) == Scan(PostmanTool, args, 5, Options(Some("collection.json"), "curl"));
  }

  /**
   * For every argument list the tool accepts and that does not end with a
   * flag, a further `-o x` makes `x` the output, renamed only when it is
   * the default output and the second format was chosen.
   */
  lemma AppendedOutputWins(tool: Tool, args: seq<string>, x: string, fileExists: string -> bool)
    requires |args| >= 1 && (|args| == 1 || !IsFlag(args[|args| - 1]))
    requires Decide(tool, args, fileExists).Run?
    requires x != "--help" && x != "-h"
    ensures var j := Decide(tool, args, fileExists).config;
            Decide(tool, args + ["-o", x], fileExists)
            == Run(Job(args[0], if x == tool.defaultOutput && j.format == tool.otherFormat then Some(tool.otherOutput) else Some(x),
                       j.format))
  {
    var start := Options(Some(tool.defaultOutput), tool.defaultFormat);
    ScanLastWins(tool, args, "-o", x, start);
    AppendedNoHelp(args, ["-o", x]);
    assert (args + ["-o", x])[0] == args[0];
  }

  /** Arguments without a help flag, extended by more of them, still ask for no help. */
  lemma AppendedNoHelp(args: seq<string>, more: seq<string>)
    requires |args| > 0 && !WantsHelp(args) && "--help" !in more && "-h" !in more
    ensures !WantsHelp(args + more)
  {
    assert forall a :: a in args + more ==> a in args || a in more;
  }

  /** The last `--output` wins. */
  lemma LastOutputWins(fileExists: string -> bool)
    requires fileExists("api.yaml")
    ensures Decide(GraphQLTool, ["api.yaml", "-o", "a.graphql", "-o", "b.graphql"], fileExists)
            == Run(Job("api.yaml", Some("b.graphql"), "schema"))
  {
    var args := ["api.yaml", "-o", "a.graphql", "-o", "b.graphql"];
    TwoOutputsScan();
    NoHelpFlag(args);
    ApiYamlValid(fileExists);
  }

  lemma TwoOutputsScan()
    ensures Scan(GraphQLTool, ["api.yaml", "-o", "a.graphql", "-o", "b.graphql"], 1, Options(Some("schema.graphql"), "schema"))
            == Ok(Options(Some("b.graphql"), "schema"))
  {
    var args := ["api.yaml", "-o", "a.graphql", "-o", "b.graphql"];
    var start := Options(Some("schema.graphql"), "schema");
    assert args[1] == "-o" && args[3] == "-o";
    assert Scan(GraphQLTool, args, 5, Options(Some("b.graphql"), "schema")) == Ok(Options(Some("b.graphql"), "schema"));
    assert Scan(GraphQLTool, args, 3, start.(output := Some("a.graphql")))
           == Scan(GraphQLTool, args, 5, Options(Some("b.graphql"), "schema"));
  }

  /** Five arguments none of which is a help flag. */
  lemma NoHelpFlag(args: seq<string>)
    requires |args| == 5
    requires forall i :: 0 <= i < 5 ==> (|args[i]| != 2 || args[i][1] != 'h') && (|args[i]| != 6 || args[i][2] != 'h')
    ensures !WantsHelp(args)
  {
    forall i | 0 <= i < 5
      ensures args[i] != "--help" && args[i] != "-h"
    {
    }
  }

  lemma ApiYamlValid(fileExists: string -> bool)
    requires fileExists("api.yaml")
    ensures Validate("api.yaml", fileExists).None?
  {
    YamlExtension();
    LowerYaml();
  }

  lemma YamlExtension()
    ensures ExtName("api.yaml") == ".yaml"
  {
    ExtNameOf("api", ".yaml");
    assert "api" + ".yaml" == "api.yaml";
  }

  lemma LowerYaml()
    ensures Lower(".yaml") == ".yaml"
  {
    var l := Lower(".yaml");
    assert |l| == 5;
    forall i | 0 <= i < 5
      ensures l[i] == ".yaml"[i]
    {
      assert !IsUpper(".yaml"[i]);
    }
  }

  /** The last index of a character that does not occur after it. */
  lemma {:induction false} LastIndexOfAt(s: string, c: char, i: nat)
    requires i < |s| && s[i] == c && c !in s[i + 1..]
    ensures LastIndexOf(s, c) == Some(i)
    decreases |s|
  {
    if i < |s| - 1 {
      assert s[|s| - 1] in s[i + 1..];
      assert s[..|s| - 1][i + 1..] == s[i + 1..|s| - 1];
      LastIndexOfAt(s[..|s| - 1], c, i);
    }
  }

  /** The extension of a bare file name `stem + ext`. */
  lemma ExtNameOf(stem: string, ext: string)
    requires |stem| > 0 && |ext| > 0 && ext[0] == '.' && '.' !in ext[1..]
    requires '/' !in stem + ext && stem + ext != ".."
    ensures ExtName(stem + ext) == ext
  {
    var p := stem + ext;
    NoSeparatorSplit(p, '/');
    assert p[|stem| + 1..] == ext[1..];
    LastIndexOfAt(p, '.', |stem|);
    assert p[|stem|..] == ext;
  }

  /** A string without the separator splits into itself. */
  lemma {:induction false} NoSeparatorSplit(s: string, sep: char)
    requires sep !in s
    ensures Split(s, sep) == [s]
  {
    if |s| > 0 {
      assert sep !in s[1..] by { assert forall j :: 0 <= j < |s[1..]| ==> s[1..][j] == s[j + 1]; }
      NoSeparatorSplit(s[1..], sep);
      assert [s[0]] + s[1..] == s;
    }
  }

  /**
   * The command line accepts an upper-case `.JSON` file, which `parse`
   * then rejects, so such a run ends in the generation failure.
   */
  lemma UpperCaseExtensionAcceptedByCli(fileExists: string -> bool)
    requires fileExists("API.JSON")
    ensures Validate("API.JSON", fileExists).None?
    ensures Parser.ParseFormat("API.JSON").Err?
  {
    UpperJsonValid(fileExists);
    UpperJsonRejected();
  }

  lemma UpperJsonRejected()
    ensures Parser.ParseFormat("API.JSON").Err?
  {
    Parser.UpperCaseJsonRejected("API");
    assert "API" + ".JSON" == "API.JSON";
  }

  lemma UpperJsonValid(fileExists: string -> bool)
    requires fileExists("API.JSON")
    ensures Validate("API.JSON", fileExists).None?
  {
    UpperJsonExtension();
    LowerJson();
  }

  lemma LowerJson()
    ensures Lower(".JSON") == ".json"
  {
    var l := Lower(".JSON");
    assert |l| == 5;
    forall i | 0 <= i < 5
      ensures l[i] == ".json"[i]
    {
      assert LowerChar(".JSON"[i]) == ".json"[i];
    }
  }

  lemma UpperJsonExtension()
    ensures ExtName("API.JSON") == ".JSON"
  {
    ExtNameOf("API", ".JSON");
    assert "API" + ".JSON" == "API.JSON";
  }

  // ---------------------------------------------------------------------
  // The SDK tool.

  datatype SdkJob = SdkJob(input: string, outputDir: string)

  /** `main` of `openapi-sdk-gen` up to the generation step. */
  function DecideSdk(args: seq<string>, fileExists: string -> bool): Outcome<SdkJob> {
    if WantsHelp(args) then Usage
    else
      var outputDir := if |args| > 1 && args[1] != "" then args[1] else DefaultOutputDir;
      match Validate(args[0], fileExists)
      case Some(message) => Failure(message)
      case None => Run(SdkJob(args[0], outputDir))
  }

  /**
   * Usage exactly on a help request; otherwise a missing file, then a bad
   * extension, are reported; a run writes to the second argument, or to
   * `./generated` when that is absent or empty.
   */
  lemma SdkDecisions(args: seq<string>, fileExists: string -> bool)
    ensures DecideSdk(args, fileExists).Usage? <==> WantsHelp(args)
    ensures !WantsHelp(args) && !fileExists(args[0]) ==> DecideSdk(args, fileExists) == Failure(MissingMessage(args[0]))
    ensures !WantsHelp(args) && fileExists(args[0]) && Lower(ExtName(args[0])) !in Extensions ==>
              DecideSdk(args, fileExists) == Failure(UnsupportedMessage)
    ensures DecideSdk(args, fileExists).Run? ==>
              DecideSdk(args, fileExists).config.input == args[0]
              && (|args| > 1 && args[1] != "" ==> DecideSdk(args, fileExists).config.outputDir == args[1])
              && (|args| == 1 || args[1] == "" ==> DecideSdk(args, fileExists).config.outputDir == DefaultOutputDir)
  {
  }

  // ---------------------------------------------------------------------
  // Exit status and output.

  /**
   * The exit status: 0 for usage and for a run whose generation did not
   * raise, 1 otherwise. `raised` covers parsing, generating and writing.
   */
  function ExitCode<C>(o: Outcome<C>, raised: bool): (code: nat)
    ensures code == 0 || code == 1
    ensures code == 0 <==> o.Usage? || (o.Run? && !raised)
  {
    match o
    case Usage => 0
    case Failure(_) => 1
    case Run(_) => if raised then 1 else 0
  }

  /** Writing to an undefined path raises, so a run without an output path ends with status 1. */
  function JobExitCode(o: Outcome<Job>, raised: bool): (code: nat)
    ensures o.Run? && o.config.output.None? ==> code == 1
    ensures o.Run? && o.config.output.Some? ==> code == ExitCode(o, raised)
  {
    ExitCode(o, raised || (o.Run? && o.config.output.None?))
  }

  /** `--output` as the last argument leaves the output undefined. */
  lemma TrailingOutputIsUndefined(tool: Tool, input: string, fileExists: string -> bool)
    requires input != "--help" && input != "-h"
    requires Validate(input, fileExists).None?
    ensures Decide(tool, [input, "--output"], fileExists) == Run(Job(input, None, tool.defaultFormat))
    ensures JobExitCode(Decide(tool, [input, "--output"], fileExists), false) == 1
  {
    var args := [input, "--output"];
    assert args[1] == "--output";
    assert At(args, 2) == None;
    assert Scan(tool, args, 3, Options(None, tool.defaultFormat)) == Ok(Options(None, tool.defaultFormat));
    assert Scan(tool, args, 1, Options(Some(tool.defaultOutput), tool.defaultFormat))
           == Scan(tool, args, 3, Options(None, tool.defaultFormat));
    assert "--help" !in args && "-h" !in args;
  }

  /**
   * What `openapi-graphql` writes: the SDL text for format `schema`, and
   * `toJson` of the schema structure for format `json`.
   */
  function GraphQLOutput(spec: Spec, format: string, toJson: GraphQL.GraphQLSchema -> string): (r: string)
    ensures format == GraphQLTool.defaultFormat ==> StartsWith(r, GraphQL.Header) && r == GraphQL.RenderSchema(GraphQL.SchemaOf(spec))
    ensures format != GraphQLTool.defaultFormat ==> r == toJson(GraphQL.SchemaOf(spec))
  {
    if format == "schema" then
      GraphQL.RenderStartsWithHeader(GraphQL.SchemaOf(spec));
      GraphQL.RenderSchema(GraphQL.SchemaOf(spec))
    else toJson(GraphQL.SchemaOf(spec))
  }
}
