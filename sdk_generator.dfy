/**
 * The SDK assembly of `SDKGenerator.generate`: the type names imported by
 * the client file, the import line, and the three file contents. Reading
 * the input, creating the directory and writing the files are left to the
 * caller.
 */
module Sdk {
  import opened Wrappers
  import opened Text
  import opened Values
  import opened OpenApi
  import Parser
  import TypeGen
  import Client

  /** The contents of `types.ts`, `client.ts` and `index.ts`. */
  datatype SdkFiles = SdkFiles(types: string, client: string, index: string)

  /** Which generator raised. */
  datatype SdkError = TypesFailed(refError: Parser.RefError) | ClientFailed(exception: JsException)

  const IndexContent := "export * from './types';\nexport * from './client';\n"

  /** `extractTypeNames`: every key of `components.schemas`, in insertion order. */
  method ExtractTypeNames(spec: Spec) returns (names: seq<string>)
    ensures names == Keys(NamedSchemas(spec))
  {
    names := [];
    if spec.components.Some? && spec.components.value.schemas.Some? {
      var named := spec.components.value.schemas.value;
      var i := 0;
      while i < |named|
        invariant 0 <= i <= |named|
        invariant names == Keys(named[..i])
      {
        assert Keys(named[..i + 1]) == Keys(named[..i]) + [named[i].0];
        names := names + [named[i].0];
        i := i + 1;
      }
      assert named[..i] == named;
    }
  }

  /** The type names are empty exactly when there is no registry or it is empty. */
  lemma TypeNamesEmpty(spec: Spec)
    ensures |Keys(NamedSchemas(spec))| == 0 <==> (spec.components.None? || spec.components.value.schemas.None?
                                                    || spec.components.value.schemas.value == [])
  {
  }

  /** The import line of `client.ts`: nothing without type names. */
  function ImportStatement(names: seq<string>): (r: string)
    ensures r == "" <==> |names| == 0
  {
    if |names| > 0 then
      var r := "import { " + Join(names, ", ") + " } from './types';\n\n";
      assert r[0] == 'i';
      r
    else ""
  }

  /** A non-empty import line names every type in order and ends with a blank line. */
  lemma ImportStatementShape(names: seq<string>)
    requires |names| > 0
    ensures var r := ImportStatement(names);
            StartsWith(r, "import { " + names[0])
            && EndsWith(r, names[|names| - 1] + " } from './types';\n\n")
  {
    JoinEnds(names, ", ");
    var j := Join(names, ", ");
    var r := ImportStatement(names);
    assert r == "import { " + j + " } from './types';\n\n";
    assert r[..|"import { " + names[0]|] == "import { " + j[..|names[0]|];
    var tail := names[|names| - 1] + " } from './types';\n\n";
    assert r[|r| - |tail|..] == j[|j| - |names[|names| - 1]|..] + " } from './types';\n\n";
  }

  /** `generate`: the types first, then the client, each raising stopping the run. */
  function Generate(spec: Spec, helper: string): Result<SdkFiles, SdkError> {
    match TypeGen.Run({}, spec, NamedSchemas(spec)).0
    case Err(e) => Err(TypesFailed(e))
    case Ok(types) =>
      match Client.ClientText(spec, helper)
      case Err(e) => Err(ClientFailed(e))
      case Ok(client) => Ok(SdkFiles(types, ImportStatement(Keys(NamedSchemas(spec))) + client, IndexContent))
  }

  /** The client file is the import line followed by the client; the index file is fixed. */
  lemma GenerateShape(spec: Spec, helper: string)
    requires Generate(spec, helper).Ok?
    ensures var files := Generate(spec, helper).value;
            files.types == TypeGen.Run({}, spec, NamedSchemas(spec)).0.value
            && files.client == ImportStatement(Keys(NamedSchemas(spec))) + Client.ClientText(spec, helper).value
            && files.index == IndexContent
            && (|NamedSchemas(spec)| == 0 ==> files.client == Client.ClientText(spec, helper).value)
  {
  }

  /** `generate` with a fresh `TypeGenerator` and the client generator. */
  method GenerateSdk(spec: Spec, helper: string) returns (r: Result<SdkFiles, SdkError>)
    ensures r.Ok? <==> Generate(spec, helper).Ok?
    ensures r.Ok? ==> r.value == Generate(spec, helper).value
  {
    var typeGenerator := new TypeGen.TypeGenerator(spec);
    var types := typeGenerator.GenerateTypes();
    if types.Err? {
      return Err(TypesFailed(types.error));
    }
    var client := Client.GenerateClient(spec, helper);
    if client.Err? {
      return Err(ClientFailed(client.error));
    }
    var typeNames := ExtractTypeNames(spec);
    var importStatement := ImportStatement(typeNames);
    return Ok(SdkFiles(types.value, importStatement + client.value, IndexContent));
  }
}
