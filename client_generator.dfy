/**
 * The API client emitter (`ClientGenerator`): the class and method names,
 * the TypeScript type mapping of the client, the return and body types,
 * the parameter list of a method and the substitution of path
 * placeholders, and the assembled client class.
 */
module Client {
  import opened Wrappers
  import opened Text
  import opened Values
  import opened OpenApi

  const ClientHeader := "// Generated API Client from OpenAPI schema\n\n"

  /** `getClassName`: the alphanumerics of the title, a leading lower-case letter upper-cased, then `Client`. */
  function ClassName(title: string): (r: string)
    ensures AllAlnum(r) && EndsWith(r, "Client")
    ensures var k := KeepAlnum(title);
            |r| == |k| + 6 && r[..|k|] == Capitalize(k)
  {
    var k := KeepAlnum(title);
    ClassNameParts(Capitalize(k));
    Capitalize(k) + "Client"
  }

  lemma ClassNameParts(c: string)
    requires AllAlnum(c)
    ensures var r := c + "Client";
            AllAlnum(r) && EndsWith(r, "Client") && r[..|c|] == c
  {
    var r := c + "Client";
    assert AllAlnum("Client");
    assert forall i :: 0 <= i < |r| ==> r[i] == if i < |c| then c[i] else "Client"[i - |c|];
    assert r[|r| - 6..] == "Client";
    assert r[..|c|] == c;
  }

  /** `schemaToType`; reading `$ref` of an absent `items` raises a `TypeError`. */
  function ClientType(s: Schema): (r: Result<string, JsException>)
    ensures r.Ok? ==> r.value != ""
    decreases s
  {
    if IsRef(s) then Ok(RefTypeName(s.ref.value))
    else if HasType(s, "string") then Ok("string")
    else if HasType(s, "number") || HasType(s, "integer") then Ok("number")
    else if HasType(s, "boolean") then Ok("boolean")
    else if HasType(s, "array") then
      match s.items
      case None => Err(TypeError)
      case Some(item) =>
        var t :- ClientType(item);
        Ok(t + "[]")
    else Ok("any")
  }

  /**
   * An array maps to its item type with `[]`, and fails without `items`;
   * everything not recognised, `object` included, maps to `any`.
   */
  lemma ClientTypeMapping(s: Schema)
    requires !IsRef(s)
    ensures HasType(s, "array") ==>
              (ClientType(s).Err? <==> s.items.None? || ClientType(s.items.value).Err?)
              && (ClientType(s).Ok? ==> ClientType(s).value == ClientType(s.items.value).value + "[]")
    ensures (forall t :: t in ["string", "number", "integer", "boolean", "array"] ==> !HasType(s, t))
            ==> ClientType(s) == Ok("any")
    ensures HasType(s, "object") ==> ClientType(s) == Ok("any")
    ensures HasType(s, "string") ==> ClientType(s) == Ok("string")
    ensures HasType(s, "number") || HasType(s, "integer") ==> ClientType(s) == Ok("number")
    ensures HasType(s, "boolean") ==> ClientType(s) == Ok("boolean")
  {
  }

  /** A reference maps to its last segment, or `unknown`, whatever else the schema says. */
  lemma ClientRefMapping(s: Schema)
    requires IsRef(s)
    ensures ClientType(s).Ok? && '/' !in ClientType(s).value
    ensures ClientType(s) == ClientType(s.(typ := Some("array"), items := None))
  {
  }

  /** `operation.responses['200'] || operation.responses['201']`; 204 is not looked at. */
  function ClientSuccess(op: Operation): Option<Response> {
    var r200 := Get(op.responses, "200");
    if r200.Some? then r200 else Get(op.responses, "201")
  }

  /** The JSON schema of a response, when it has content with one. */
  function ResponseSchema(resp: Response): Option<Schema> {
    match resp.content
    case None => None
    case Some(content) => JsonSchema(content)
  }

  /**
   * `getReturnType`: the 200 response when there is one, else the 201
   * response; the chosen response's JSON schema mapped by `ClientType`, or
   * `any` when there is none.
   */
  function ClientReturnType(op: Operation): (r: Result<string, JsException>)
    ensures ClientSuccess(op).None? ==> r == Ok("any")
    ensures Get(op.responses, "200").Some? ==>
              var s := ResponseSchema(Get(op.responses, "200").value);
              (s.Some? ==> r == ClientType(s.value)) && (s.None? ==> r == Ok("any"))
    ensures Get(op.responses, "200").None? && Get(op.responses, "201").Some? ==>
              var s := ResponseSchema(Get(op.responses, "201").value);
              (s.Some? ==> r == ClientType(s.value)) && (s.None? ==> r == Ok("any"))
  {
    match ClientSuccess(op)
    case None => Ok("any")
    case Some(resp) =>
      match ResponseSchema(resp)
      case None => Ok("any")
      case Some(s) => ClientType(s)
  }

  /** A response that only has 204 gives `any`, as does one without a JSON schema. */
  lemma ReturnTypeWithout200Or201(op: Operation)
    requires Get(op.responses, "200").None? && Get(op.responses, "201").None?
    ensures ClientReturnType(op) == Ok("any")
  {
  }

  /** `extractBodyParameter`: no body type without a request body, else the JSON schema's type or `any`. */
  function BodyType(op: Operation): (r: Result<Option<string>, JsException>)
    ensures r.Ok? ==> (r.value.None? <==> op.requestBody.None?)
    ensures r.Ok? && r.value.Some? ==> r.value.value != ""
    ensures op.requestBody.Some? && JsonSchema(op.requestBody.value.content).None? ==> r == Ok(Some("any"))
    ensures op.requestBody.Some? && JsonSchema(op.requestBody.value.content).Some? ==>
              var t := ClientType(JsonSchema(op.requestBody.value.content).value);
              (t.Ok? ==> r == Ok(Some(t.value))) && (t.Err? ==> r == Err(t.error))
  {
    match op.requestBody
    case None => Ok(None)
    case Some(body) =>
      match JsonSchema(body.content)
      case None => Ok(Some("any"))
      case Some(s) =>
        var t :- ClientType(s);
        Ok(Some(t))
  }

  /** The types of the parameters, in order, or the error of the first one that fails. */
  function ParamTypes(ps: seq<Parameter>): (r: Result<seq<string>, JsException>)
    ensures r.Ok? ==> |r.value| == |ps| && forall i :: 0 <= i < |ps| ==> ClientType(ps[i].schema) == Ok(r.value[i])
    ensures r.Err? <==> exists i :: 0 <= i < |ps| && ClientType(ps[i].schema).Err?
  {
    if |ps| == 0 then Ok([])
    else
      var t :- ClientType(ps[0].schema);
      var rest :- ParamTypes(ps[1..]);
      assert forall i :: 1 <= i < |ps| ==> ps[i] == ps[1..][i - 1];
      Ok([t] + rest)
  }

  /** `name?: type` of a query parameter, `?` when it is not required. */
  function QueryField(p: Parameter, t: string): string {
    p.name + (if ParamRequired(p) then "" else "?") + ": " + t
  }

  /** In a query field, the character after the name is `?` exactly when the parameter is optional. */
  lemma QueryFieldOptional(p: Parameter, t: string)
    ensures var f := QueryField(p, t);
            |f| > |p.name| && f[..|p.name|] == p.name && (f[|p.name|] == '?' <==> !ParamRequired(p))
  {
    var rest := (if ParamRequired(p) then "" else "?") + ": " + t;
    assert QueryField(p, t) == p.name + rest;
    assert QueryField(p, t)[|p.name|] == rest[0];
  }

  /** The `params?: {…}` type of the query parameters. */
  function QueryType(qs: seq<Parameter>, types: seq<string>): string
    requires |types| == |qs|
  {
    "{" + Join(seq(|qs|, i requires 0 <= i < |qs| => QueryField(qs[i], types[i])), "; ") + "}"
  }

  /** The declarations of the path parameters, `name: type`. */
  function PathDeclarations(ps: seq<Parameter>, types: seq<string>): (r: seq<string>)
    requires |types| == |ps|
    ensures |r| == |ps|
  {
    seq(|ps|, i requires 0 <= i < |ps| => ps[i].name + ": " + types[i])
  }

  /**
   * The parameter list of a client method: the path parameters in order,
   * then `data` when there is a body, then one `params?` object when there
   * are query parameters.
   */
  function ParamList(op: Operation): Result<seq<string>, JsException> {
    var body :- BodyType(op);
    var path := ParamsIn(op, "path");
    var query := ParamsIn(op, "query");
    var pts :- ParamTypes(path);
    var qts :- ParamTypes(query);
    Ok(PathDeclarations(path, pts)
       + (if body.Some? then ["data: " + body.value] else [])
       + (if |query| > 0 then ["params?: " + QueryType(query, qts)] else []))
  }

  lemma ParamListOf(op: Operation)
    requires BodyType(op).Ok? && ParamTypes(ParamsIn(op, "path")).Ok? && ParamTypes(ParamsIn(op, "query")).Ok?
    ensures var body := BodyType(op).value;
            var query := ParamsIn(op, "query");
            ParamList(op) == Ok(PathDeclarations(ParamsIn(op, "path"), ParamTypes(ParamsIn(op, "path")).value)
                                + (if body.Some? then ["data: " + body.value] else [])
                                + (if |query| > 0 then ["params?: " + QueryType(query, ParamTypes(query).value)] else []))
  {
  }

  /** The order and count of the parameter list. */
  lemma ParamListShape(op: Operation)
    requires ParamList(op).Ok?
    ensures var ps := ParamList(op).value;
            var path := ParamsIn(op, "path");
            var query := ParamsIn(op, "query");
            var hasBody := op.requestBody.Some?;
            |ps| == |path| + (if hasBody then 1 else 0) + (if |query| > 0 then 1 else 0)
            && (forall i :: 0 <= i < |path| ==> StartsWith(ps[i], path[i].name + ": "))
            && (hasBody ==> StartsWith(ps[|path|], "data: "))
            && (|query| > 0 ==> StartsWith(ps[|ps| - 1], "params?: {"))
  {
    var ps := ParamList(op).value;
    var path := ParamsIn(op, "path");
    var query := ParamsIn(op, "query");
    ParamListParts(op);
    var pts := ParamTypes(path).value;
    var decls := PathDeclarations(path, pts);
    var mid := if op.requestBody.Some? then ["data: " + BodyType(op).value.value] else [];
    var last := if |query| > 0 then ["params?: " + QueryType(query, ParamTypes(query).value)] else [];
    ListPieces(decls, mid, last);
    forall i | 0 <= i < |path| ensures StartsWith(ps[i], path[i].name + ": ") {
      assert decls[i] == (path[i].name + ": ") + pts[i];
    }
    if |query| > 0 {
      var q := QueryType(query, ParamTypes(query).value);
      assert "params?: " + q == "params?: {" + q[1..];
    }
  }

  /** A successful parameter list is made of its three parts. */
  lemma ParamListParts(op: Operation)
    requires ParamList(op).Ok?
    ensures BodyType(op).Ok? && ParamTypes(ParamsIn(op, "path")).Ok? && ParamTypes(ParamsIn(op, "query")).Ok?
    ensures op.requestBody.Some? <==> BodyType(op).value.Some?
    ensures var query := ParamsIn(op, "query");
            ParamList(op).value
            == PathDeclarations(ParamsIn(op, "path"), ParamTypes(ParamsIn(op, "path")).value)
               + (if op.requestBody.Some? then ["data: " + BodyType(op).value.value] else [])
               + (if |query| > 0 then ["params?: " + QueryType(query, ParamTypes(query).value)] else [])
  {
  }

  /** Where the pieces of a three-part list land. */
  lemma ListPieces(a: seq<string>, b: seq<string>, c: seq<string>)
    ensures var l := a + b + c;
            |l| == |a| + |b| + |c|
            && (forall i :: 0 <= i < |a| ==> l[i] == a[i])
            && (|b| > 0 ==> l[|a|] == b[0])
            && (|c| > 0 ==> l[|l| - 1] == c[|c| - 1])
  {
  }

  /** `processedPath`: the first `{name}` replaced by `${name}`, for each path parameter in turn. */
  function SubstitutePath(path: string, ps: seq<Parameter>): string {
    if |ps| == 0 then path
    else
      var name := ps[|ps| - 1].name;
      ReplaceFirst(SubstitutePath(path, ps[..|ps| - 1]), "{" + name + "}", "${" + name + "}")
  }

  /** The `forEach` that reassigns `processedPath`. */
  method SubstitutePlaceholders(path: string, ps: seq<Parameter>) returns (processed: string)
    ensures processed == SubstitutePath(path, ps)
  {
    processed := path;
    var i := 0;
    while i < |ps|
      invariant 0 <= i <= |ps|
      invariant processed == SubstitutePath(path, ps[..i])
    {
      processed := ReplaceFirst(processed, "{" + ps[i].name + "}", "${" + ps[i].name + "}");
      assert ps[..i + 1][..i] == ps[..i];
      i := i + 1;
    }
    assert ps[..i] == ps;
  }

  /**
   * One path parameter turns the first occurrence of its placeholder into
   * an interpolation of the same name, and leaves a path without the
   * placeholder unchanged.
   */
  lemma SubstituteOne(path: string, p: Parameter)
    ensures var pat := "{" + p.name + "}";
            var r := SubstitutePath(path, [p]);
            (IndexOf(path, pat, 0).None? ==> r == path)
            && (IndexOf(path, pat, 0).Some? ==>
                  var i := IndexOf(path, pat, 0).value;
                  OccursAt(path, pat, i)
                  && (forall j: nat :: j < i ==> !OccursAt(path, pat, j))
                  && r == path[..i] + "${" + p.name + "}" + path[i + |pat|..])
  {
    var pat := "{" + p.name + "}";
    var rep := "${" + p.name + "}";
    assert [p][..0] == [];
    assert SubstitutePath(path, [p]) == ReplaceFirst(path, pat, rep);
    match IndexOf(path, pat, 0)
    case None =>
    case Some(i) =>
      assert ReplaceFirst(path, pat, rep) == path[..i] + rep + path[i + |pat|..];
  }

  /** The letters and digits of a path with `{` and `}` removed, everything else made `_`. */
  function CleanPath(path: string): (r: string)
    ensures forall i :: 0 <= i < |r| ==> IsAlnum(r[i]) || r[i] == '_'
  {
    var stripped := RemoveBraces(path);
    seq(|stripped|, i requires 0 <= i < |stripped| => if IsAlnum(stripped[i]) then stripped[i] else '_')
  }

  /** `path.replace(/[{}]/g, '')`. */
  function RemoveBraces(s: string): (r: string)
    ensures '{' !in r && '}' !in r
  {
    if |s| == 0 then ""
    else (if s[0] == '{' || s[0] == '}' then "" else [s[0]]) + RemoveBraces(s[1..])
  }

  lemma {:induction false} RemoveBracesAppend(a: string, b: string)
    ensures RemoveBraces(a + b) == RemoveBraces(a) + RemoveBraces(b)
  {
    if |a| > 0 {
      assert (a + b)[1..] == a[1..] + b;
      RemoveBracesAppend(a[1..], b);
    } else {
      assert a + b == b;
    }
  }

  lemma {:induction false} RemoveBracesNone(s: string)
    requires AllAlnum(s)
    ensures RemoveBraces(s) == s
  {
    if |s| > 0 {
      RemoveBracesNone(s[1..]);
    }
  }

  /** Each part with its first letter upper-cased. */
  function CapitalizeEach(parts: seq<string>): (r: seq<string>)
    ensures |r| == |parts| && forall i :: 0 <= i < |parts| ==> r[i] == Capitalize(parts[i])
  {
    seq(|parts|, i requires 0 <= i < |parts| => Capitalize(parts[i]))
  }

  /**
   * `getMethodName`: the operation id verbatim, else the verb followed by
   * the `_`-separated parts of the clean path, each capitalised.
   */
  function MethodName(verb: string, path: string, op: Operation): (r: string)
    ensures Present(op.operationId) ==> r == op.operationId.value
    ensures !Present(op.operationId) ==> StartsWith(r, verb) && AllAlnum(r[|verb|..])
    ensures !Present(op.operationId) ==> r == verb + Concat(CapitalizeEach(Split(CleanPath(path), '_')))
  {
    if Present(op.operationId) then op.operationId.value
    else
      var parts := Split(CleanPath(path), '_');
      var caps := CapitalizeEach(parts);
      assert forall i :: 0 <= i < |parts| ==> AllAlnum(parts[i]) by {
        forall i | 0 <= i < |parts| ensures AllAlnum(parts[i]) {
          SplitPartsAlnum(CleanPath(path), i);
        }
      }
      ConcatAlnum(caps);
      assert (verb + Concat(caps))[|verb|..] == Concat(caps);
      verb + Concat(caps)
  }

  lemma SplitPartsAlnum(s: string, i: nat)
    requires forall j :: 0 <= j < |s| ==> IsAlnum(s[j]) || s[j] == '_'
    requires i < |Split(s, '_')|
    ensures AllAlnum(Split(s, '_')[i])
  {
    var part := Split(s, '_')[i];
    SplitPartsIn(s, '_', i);
    forall j | 0 <= j < |part| ensures IsAlnum(part[j]) {
      assert part[j] in s;
      assert part[j] != '_';
    }
  }

  /** Every character of a part of `Split(s, sep)` is a character of `s`. */
  lemma {:induction false} SplitPartsIn(s: string, sep: char, i: nat)
    requires i < |Split(s, sep)|
    ensures forall c :: c in Split(s, sep)[i] ==> c in s
  {
    var parts := Split(s, sep);
    JoinSplit(s, sep);
    JoinContains(parts, [sep], i);
  }

  lemma {:induction false} JoinContains(parts: seq<string>, sep: string, i: nat)
    requires i < |parts|
    ensures forall c :: c in parts[i] ==> c in Join(parts, sep)
  {
    if |parts| > 1 {
      if i > 0 {
        JoinContains(parts[1..], sep, i - 1);
        assert parts[1..][i - 1] == parts[i];
      }
    }
  }

  lemma {:induction false} ConcatAlnum(parts: seq<string>)
    requires forall i :: 0 <= i < |parts| ==> AllAlnum(Capitalize(parts[i])) || AllAlnum(parts[i])
    ensures AllAlnum(Concat(parts))
  {
    if |parts| > 0 {
      ConcatAlnum(parts[..|parts| - 1]);
    }
  }

  /**
   * Without an operation id, `<verb> /<resource>/{<param>}` is named
   * `<verb><Resource><Param>` (`get /pets/{id}` gives `getPetsId`).
   */
  lemma ItemMethodName(verb: string, resource: string, param: string, op: Operation)
    requires !Present(op.operationId) && AllAlnum(resource) && AllAlnum(param)
    ensures MethodName(verb, "/" + resource + "/{" + param + "}", op) == verb + Capitalize(resource) + Capitalize(param)
  {
    var path := "/" + resource + "/{" + param + "}";
    ItemPathClean(resource, param);
    ItemPathParts(resource, param);
    var parts := ["", resource, param];
    var caps := seq(|parts|, i requires 0 <= i < |parts| => Capitalize(parts[i]));
    assert caps == ["", Capitalize(resource), Capitalize(param)];
    assert caps[..2] == ["", Capitalize(resource)] && caps[..2][..1] == [""] && caps[..2][..1][..0] == [];
    assert Concat(caps[..2][..1]) == "";
    assert Concat(caps[..2]) == Capitalize(resource);
    assert Concat(caps) == Capitalize(resource) + Capitalize(param);
  }

  lemma ItemPathBraces(resource: string, param: string)
    requires AllAlnum(resource) && AllAlnum(param)
    ensures RemoveBraces("/" + resource + "/{" + param + "}") == "/" + resource + "/" + param
  {
    var head := "/" + resource + "/{";
    var tail := param + "}";
    assert "/" + resource + "/{" + param + "}" == head + tail;
    RemoveBracesAppend(head, tail);
    RemoveBracesAppend(param, "}");
    RemoveBracesNone(param);
    BraceLiterals();
    assert RemoveBraces(tail) == param;
    RemoveBracesAppend("/" + resource, "/{");
    RemoveBracesAppend("/", resource);
    RemoveBracesNone(resource);
    assert RemoveBraces(head) == "/" + resource + "/";
  }

  lemma BraceLiterals()
    ensures RemoveBraces("/{") == "/" && RemoveBraces("}") == "" && RemoveBraces("/") == "/"
  {
    assert "/{"[1..] == "{" && "{"[1..] == "" && "}"[1..] == "" && "/"[1..] == "";
  }

  lemma ItemPathClean(resource: string, param: string)
    requires AllAlnum(resource) && AllAlnum(param)
    ensures CleanPath("/" + resource + "/{" + param + "}") == "_" + resource + "_" + param
  {
    ItemPathBraces(resource, param);
    var stripped := "/" + resource + "/" + param;
    var clean := "_" + resource + "_" + param;
    assert |CleanPath("/" + resource + "/{" + param + "}")| == |clean|;
    forall i | 0 <= i < |clean| ensures CleanPath("/" + resource + "/{" + param + "}")[i] == clean[i] {
      if i == 0 || i == |resource| + 1 {
        assert stripped[i] == '/';
      } else if i <= |resource| {
        assert stripped[i] == resource[i - 1] && clean[i] == resource[i - 1];
      } else {
        assert stripped[i] == param[i - |resource| - 2] && clean[i] == param[i - |resource| - 2];
      }
    }
  }

  lemma ItemPathParts(resource: string, param: string)
    requires AllAlnum(resource) && AllAlnum(param)
    ensures Split("_" + resource + "_" + param, '_') == ["", resource, param]
  {
    var parts := ["", resource, param];
    assert parts[1..] == [resource, param] && parts[1..][1..] == [param];
    assert Join(parts[1..], "_") == resource + "_" + param;
    assert Join(parts, "_") == "_" + resource + "_" + param;
    assert '_' !in resource by { assert forall i :: 0 <= i < |resource| ==> IsAlnum(resource[i]); }
    assert '_' !in param by { assert forall i :: 0 <= i < |param| ==> IsAlnum(param[i]); }
    SplitJoin(parts, '_');
  }

  /** The comment line, ` // ` and `summary || description` (`undefined` when both are absent). */
  function CommentLine(op: Operation): string {
    " // " + Interp(OrElse(op.summary, op.description)) + "\n\n"
  }

  function Signature(name: string, params: seq<string>, ret: string): string {
    "  async " + name + "(" + Join(params, ", ") + "): Promise<" + ret + "> {\n"
  }

  /** The body of a client method: the request call with `data` and `params` or `undefined`. */
  function RequestCall(verb: string, processed: string, hasBody: bool, hasQuery: bool, ret: string): string {
    "    return this.request<" + ret + ">(\n"
    + "      '" + Upper(verb) + "',\n"
    + "      `" + processed + "`,\n"
    + (if hasBody then "      data,\n" else "      undefined,\n")
    + (if hasQuery then "      params\n" else "      undefined\n")
    + "    );\n"
    + "  }\n\n"
  }

  /** The text of one client method, or the error its types raise. */
  function MethodText(verb: string, path: string, op: Operation): Result<string, JsException> {
    var body :- BodyType(op);
    var params :- ParamList(op);
    var ret :- ClientReturnType(op);
    Ok(CommentLine(op)
       + Signature(MethodName(verb, path, op), params, ret)
       + RequestCall(verb, SubstitutePath(path, ParamsIn(op, "path")), body.Some?, |ParamsIn(op, "query")| > 0, ret))
  }

  /** The `pathParams.forEach` that pushes one declaration per path parameter. */
  method BuildPathDeclarations(ps: seq<Parameter>) returns (r: Result<seq<string>, JsException>)
    ensures r.Ok? <==> ParamTypes(ps).Ok?
    ensures r.Ok? ==> r.value == PathDeclarations(ps, ParamTypes(ps).value)
  {
    var decls: seq<string> := [];
    var i := 0;
    while i < |ps|
      invariant 0 <= i <= |ps|
      invariant |decls| == i
      invariant forall k :: 0 <= k < i ==>
                  ClientType(ps[k].schema).Ok? && decls[k] == ps[k].name + ": " + ClientType(ps[k].schema).value
    {
      var t := ClientType(ps[i].schema);
      if t.Err? {
        return Err(t.error);
      }
      decls := decls + [ps[i].name + ": " + t.value];
      i := i + 1;
    }
    return Ok(decls);
  }

  /** `generateMethodForOperation`. */
  method GenerateMethodForOperation(verb: string, path: string, op: Operation) returns (r: Result<string, JsException>)
    ensures r.Ok? <==> MethodText(verb, path, op).Ok?
    ensures r.Ok? ==> r.value == MethodText(verb, path, op).value
  {
    var pathParams := ParamsIn(op, "path");
    var queryParams := ParamsIn(op, "query");
    var body := BodyType(op);
    if body.Err? {
      return Err(body.error);
    }
    var params := BuildPathDeclarations(pathParams);
    if params.Err? {
      assert ParamList(op).Err?;
      return Err(params.error);
    }
    var list := params.value;
    if body.value.Some? {
      list := list + ["data: " + body.value.value];
    }
    if |queryParams| > 0 {
      var qts := ParamTypes(queryParams);
      if qts.Err? {
        assert ParamList(op).Err?;
        return Err(qts.error);
      }
      list := list + ["params?: " + QueryType(queryParams, qts.value)];
    } else {
      assert queryParams == [];
      assert ParamTypes(queryParams) == Ok([]);
    }
    var ret := ClientReturnType(op);
    if ret.Err? {
      return Err(ret.error);
    }
    ParamListOf(op);
    ghost var decls := PathDeclarations(pathParams, ParamTypes(pathParams).value);
    assert params.value == decls;
    ghost var withBody := decls + (if body.value.Some? then ["data: " + body.value.value] else []);
    assert list == withBody + (if |queryParams| > 0 then ["params?: " + QueryType(queryParams, ParamTypes(queryParams).value)] else []);
    assert ParamList(op) == Ok(list);
    var output := CommentLine(op);
    output := output + Signature(MethodName(verb, path, op), list, ret.value);
    var processed := SubstitutePlaceholders(path, pathParams);
    var call := "    return this.request<" + ret.value + ">(\n";
    call := call + "      '" + Upper(verb) + "',\n";
    call := call + "      `" + processed + "`,\n";
    call := call + (if body.value.Some? then "      data,\n" else "      undefined,\n");
    call := call + (if |queryParams| > 0 then "      params\n" else "      undefined\n");
    call := call + "    );\n";
    call := call + "  }\n\n";
    output := output + call;
    return Ok(output);
  }

  /** The methods of all operations, in walk order, or the first error. */
  function MethodsText(endpoints: seq<Endpoint>): Result<string, JsException> {
    if |endpoints| == 0 then Ok("")
    else
      var prev :- MethodsText(endpoints[..|endpoints| - 1]);
      var e := endpoints[|endpoints| - 1];
      var m :- MethodText(e.verb, e.path, e.op);
      Ok(prev + m)
  }

  /** The opening of the client class up to its request helper. */
  function ClassOpening(spec: Spec): string {
    "export class " + ClassName(spec.info.title) + " {\n"
    + "  private baseUrl: string;\n\n"
    + "  constructor(baseUrl?: string) {\n"
    + "    this.baseUrl = baseUrl || '" + BaseUrl(spec, "") + "';\n"
    + "  }\n\n"
  }

  /**
   * `generateClient`: the header and the class, whose body is the opening,
   * the request helper `helper` and one method per operation.
   */
  function ClientText(spec: Spec, helper: string): Result<string, JsException> {
    var methods :- MethodsText(Endpoints(spec));
    Ok(ClientHeader + ClassOpening(spec) + helper + methods + "}\n")
  }

  /** `generateClient` with the nested loop of `generateClientClass`. */
  method GenerateClient(spec: Spec, helper: string) returns (r: Result<string, JsException>)
    ensures r.Ok? <==> ClientText(spec, helper).Ok?
    ensures r.Ok? ==> r.value == ClientText(spec, helper).value
  {
    var endpoints := CollectEndpoints(spec);
    var methods := "";
    var i := 0;
    while i < |endpoints|
      invariant 0 <= i <= |endpoints|
      invariant MethodsText(endpoints[..i]) == Ok(methods)
    {
      var m := GenerateMethodForOperation(endpoints[i].verb, endpoints[i].path, endpoints[i].op);
      MethodsStep(endpoints, i, methods, m);
      if m.Err? {
        MethodsStopAtError(endpoints, i + 1);
        assert ClientText(spec, helper).Err?;
        return Err(m.error);
      }
      methods := methods + m.value;
      i := i + 1;
    }
    assert endpoints[..i] == endpoints;
    assert MethodsText(Endpoints(spec)) == Ok(methods);
    return Ok(ClientHeader + ClassOpening(spec) + helper + methods + "}\n");
  }

  lemma MethodsStep(endpoints: seq<Endpoint>, i: nat, methods: string, m: Result<string, JsException>)
    requires i < |endpoints| && MethodsText(endpoints[..i]) == Ok(methods)
    requires m.Ok? <==> MethodText(endpoints[i].verb, endpoints[i].path, endpoints[i].op).Ok?
    requires m.Ok? ==> m.value == MethodText(endpoints[i].verb, endpoints[i].path, endpoints[i].op).value
    ensures m.Err? ==> MethodsText(endpoints[..i + 1]).Err?
    ensures m.Ok? ==> MethodsText(endpoints[..i + 1]) == Ok(methods + m.value)
  {
    assert endpoints[..i + 1][..i] == endpoints[..i];
  }

  lemma {:induction false} MethodsStopAtError(endpoints: seq<Endpoint>, k: nat)
    requires k <= |endpoints| && MethodsText(endpoints[..k]).Err?
    ensures MethodsText(endpoints).Err?
    decreases |endpoints| - k
  {
    if k < |endpoints| {
      assert endpoints[..k + 1][..k] == endpoints[..k];
      MethodsStopAtError(endpoints, k + 1);
    } else {
      assert endpoints[..k] == endpoints;
    }
  }
}
