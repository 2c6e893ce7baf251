/**
 * The Postman collection emitter (`PostmanGenerator`): the deterministic
 * example generator, and the URL, header, body, item and collection
 * assembly around it. The declared Postman shapes are datatypes here.
 */
module Postman {
  import opened Wrappers
  import opened Text
  import opened Values
  import opened OpenApi

  datatype UrlVariable = UrlVariable(key: string, value: string, description: Option<string>)

  datatype Query = Query(key: string, value: string, description: Option<string>, disabled: bool)

  datatype Header = Header(key: string, value: string, description: Option<string>)

  datatype Url = Url(
    raw: string,
    host: seq<string>,
    path: seq<string>,
    query: Option<seq<Query>>,
    variable: Option<seq<UrlVariable>>)

  /** A `raw` body in mode `raw` with language `json`. */
  datatype Body = RawJson(raw: string)

  datatype Request = Request(verb: string, header: seq<Header>, body: Option<Body>, url: Url, description: Option<string>)

  datatype Item = Item(name: string, request: Request)

  datatype Variable = Variable(key: string, value: string, typ: string, description: string)

  datatype CollectionInfo = CollectionInfo(name: string, description: Option<string>, version: string, schema: string)

  datatype Collection = Collection(info: CollectionInfo, item: seq<Item>, variable: seq<Variable>)

  const CollectionSchema := "https://schema.getpostman.com/json/collection/v2.1.0/collection.json"
  const DefaultBaseUrl := "https://api.example.com"

  // ---------------------------------------------------------------------
  // Example values.

  /**
   * `generateExampleFromSchema`, with `named` the registry
   * `components.schemas`. Every call spends one unit of `fuel`; running out
   * stands for the stack overflow of a cyclic reference.
   */
  function Example(named: seq<(string, Schema)>, s: Schema, fuel: nat): (r: Result<Value, JsException>)
    ensures r.Err? ==> r.error == RangeError
    decreases fuel, 0
  {
    if fuel == 0 then Err(RangeError)
    else if IsRef(s) then
      match Get(named, LastSegment(s.ref.value))
      case Some(target) => Example(named, target, fuel - 1)
      case None => Ok(Obj([]))
    else if HasType(s, "string") then
      Ok(if s.enumValues.Some? then FirstEnum(s.enumValues.value)
         else if s.format == Some("email") then Str("example@email.com")
         else if s.format == Some("date") then Str("2023-01-01")
         else if s.format == Some("date-time") then Str("2023-01-01T00:00:00Z")
         else Str("string"))
    else if HasType(s, "number") || HasType(s, "integer") then Ok(Num(0))
    else if HasType(s, "boolean") then Ok(Bool(true))
    else if HasType(s, "array") then
      match s.items
      case None => Ok(Arr([]))
      case Some(item) =>
        var v :- Example(named, item, fuel - 1);
        Ok(Arr([v]))
    else if HasType(s, "object") then
      match s.properties
      case NoProps => Ok(Obj([]))
      case Props(entries) =>
        var fields :- PropsExample(named, entries, fuel - 1);
        Ok(Obj(fields))
    else Ok(Null)
  }

  /** The object case: one field per property, in declaration order. */
  function PropsExample(named: seq<(string, Schema)>, entries: seq<(string, Schema)>, fuel: nat)
    : (r: Result<seq<(string, Value)>, JsException>)
    ensures r.Ok? ==> Keys(r.value) == Keys(entries)
    ensures r.Err? ==> r.error == RangeError
    decreases fuel, 1, |entries|
  {
    if |entries| == 0 then Ok([])
    else
      var init :- PropsExample(named, entries[..|entries| - 1], fuel);
      var v :- Example(named, entries[|entries| - 1].1, fuel);
      assert Keys(entries) == Keys(entries[..|entries| - 1]) + [entries[|entries| - 1].0];
      Ok(init + [(entries[|entries| - 1].0, v)])
  }

  /**
   * The fuel is only a bound: once an example is produced, more fuel
   * produces the same example.
   */
  lemma {:induction false} ExampleFuelMonotone(named: seq<(string, Schema)>, s: Schema, fuel: nat)
    requires Example(named, s, fuel).Ok?
    ensures Example(named, s, fuel + 1) == Example(named, s, fuel)
    decreases fuel, 0
  {
    if IsRef(s) {
      match Get(named, LastSegment(s.ref.value))
      case Some(target) => ExampleFuelMonotone(named, target, fuel - 1);
      case None =>
    } else if HasType(s, "string") || HasType(s, "number") || HasType(s, "integer") || HasType(s, "boolean") {
    } else if HasType(s, "array") {
      if s.items.Some? {
        ExampleFuelMonotone(named, s.items.value, fuel - 1);
      }
    } else if HasType(s, "object") {
      if s.properties.Props? {
        PropsFuelMonotone(named, s.properties.entries, fuel - 1);
      }
    }
  }

  lemma {:induction false} PropsFuelMonotone(named: seq<(string, Schema)>, entries: seq<(string, Schema)>, fuel: nat)
    requires PropsExample(named, entries, fuel).Ok?
    ensures PropsExample(named, entries, fuel + 1) == PropsExample(named, entries, fuel)
    decreases fuel, 1, |entries|
  {
    if |entries| > 0 {
      PropsFuelMonotone(named, entries[..|entries| - 1], fuel);
      ExampleFuelMonotone(named, entries[|entries| - 1].1, fuel);
    }
  }

  /**
   * A reference is looked up by its last segment in the registry, and gives
   * `{}` when the registry has no such entry.
   */
  lemma RefExample(named: seq<(string, Schema)>, s: Schema, fuel: nat)
    requires IsRef(s) && fuel > 0
    ensures var key := LastSegment(s.ref.value);
            (key !in Keys(named) ==> Example(named, s, fuel) == Ok(Obj([])))
            && (key in Keys(named) ==> Example(named, s, fuel) == Example(named, Get(named, key).value, fuel - 1))
  {
  }

  /**
   * A string example is the first enum value, or the literal of the
   * format, or `string`; the schema's own `example` is never used.
   */
  lemma StringExample(named: seq<(string, Schema)>, s: Schema, fuel: nat, e: Option<Value>)
    requires !IsRef(s) && HasType(s, "string") && fuel > 0
    ensures Example(named, s.(example := e), fuel) == Example(named, s, fuel)
    ensures s.enumValues.Some? ==> Example(named, s, fuel) == Ok(FirstEnum(s.enumValues.value))
    ensures s.enumValues.None? && s.format == Some("email") ==> Example(named, s, fuel) == Ok(Str("example@email.com"))
    ensures s.enumValues.None? && s.format == Some("date") ==> Example(named, s, fuel) == Ok(Str("2023-01-01"))
    ensures s.enumValues.None? && s.format == Some("date-time") ==> Example(named, s, fuel) == Ok(Str("2023-01-01T00:00:00Z"))
    ensures s.enumValues.None? && s.format !in {Some("email"), Some("date"), Some("date-time")} ==>
              Example(named, s, fuel) == Ok(Str("string"))
  {
  }

  /**
   * Numbers and integers give `0`, booleans `true`, and a schema whose
   * `type` is missing or none of the seven known ones gives `null`.
   */
  lemma ScalarExample(named: seq<(string, Schema)>, s: Schema, fuel: nat)
    requires !IsRef(s) && fuel > 0
    ensures HasType(s, "number") || HasType(s, "integer") ==> Example(named, s, fuel) == Ok(Num(0))
    ensures HasType(s, "boolean") ==> Example(named, s, fuel) == Ok(Bool(true))
    ensures s.typ !in {Some("string"), Some("number"), Some("integer"), Some("boolean"), Some("array"), Some("object")} ==>
              Example(named, s, fuel) == Ok(Null)
  {
  }

  /** An array example has one element, the item's example, or none without `items`. */
  lemma ArrayExample(named: seq<(string, Schema)>, s: Schema, fuel: nat)
    requires !IsRef(s) && HasType(s, "array") && fuel > 0
    ensures s.items.None? ==> Example(named, s, fuel) == Ok(Arr([]))
    ensures s.items.Some? && Example(named, s, fuel).Ok? ==>
              Example(named, s, fuel).value.Arr?
              && Example(named, s, fuel).value.elems == [Example(named, s.items.value, fuel - 1).value]
  {
  }

  /** An object example has exactly the properties as its keys, in declaration order. */
  lemma ObjectExampleKeys(named: seq<(string, Schema)>, s: Schema, fuel: nat)
    requires !IsRef(s) && HasType(s, "object") && Example(named, s, fuel).Ok?
    ensures Example(named, s, fuel).value.Obj?
    ensures Keys(Example(named, s, fuel).value.fields) == Keys(PropEntries(s))
  {
  }

  /** `generateExampleFromSchema`, whose object case assigns one property at a time. */
  method ExampleFromSchema(named: seq<(string, Schema)>, s: Schema, fuel: nat) returns (r: Result<Value, JsException>)
    ensures r == Example(named, s, fuel)
    decreases fuel, 0
  {
    if fuel == 0 {
      return Err(RangeError);
    }
    if IsRef(s) {
      var target := Get(named, LastSegment(s.ref.value));
      if target.Some? {
        r := ExampleFromSchema(named, target.value, fuel - 1);
      } else {
        r := Ok(Obj([]));
      }
    } else if HasType(s, "string") {
      r := Example(named, s, fuel);
    } else if HasType(s, "number") || HasType(s, "integer") {
      r := Ok(Num(0));
    } else if HasType(s, "boolean") {
      r := Ok(Bool(true));
    } else if HasType(s, "array") {
      if s.items.Some? {
        var v := ExampleFromSchema(named, s.items.value, fuel - 1);
        if v.Err? {
          return Err(v.error);
        }
        r := Ok(Arr([v.value]));
      } else {
        r := Ok(Arr([]));
      }
    } else if HasType(s, "object") {
      if s.properties.Props? {
        var fields := ObjectFields(named, s.properties.entries, fuel - 1);
        if fields.Err? {
          return Err(fields.error);
        }
        r := Ok(Obj(fields.value));
      } else {
        r := Ok(Obj([]));
      }
    } else {
      r := Ok(Null);
    }
  }

  /** The object case's loop, assigning one property at a time. */
  method ObjectFields(named: seq<(string, Schema)>, entries: seq<(string, Schema)>, fuel: nat)
    returns (r: Result<seq<(string, Value)>, JsException>)
    ensures r == PropsExample(named, entries, fuel)
    decreases fuel, 1
  {
    var obj: seq<(string, Value)> := [];
    var i := 0;
    while i < |entries|
      invariant 0 <= i <= |entries|
      invariant PropsExample(named, entries[..i], fuel) == Ok(obj)
    {
      var v := ExampleFromSchema(named, entries[i].1, fuel);
      PropsStep(named, entries, fuel, i);
      if v.Err? {
        PropsStopAtError(named, entries, fuel, i + 1);
        return Err(v.error);
      }
      obj := obj + [(entries[i].0, v.value)];
      i := i + 1;
    }
    assert entries[..i] == entries;
    return Ok(obj);
  }

  /** One more property: its example is appended, or its error ends the walk. */
  lemma PropsStep(named: seq<(string, Schema)>, entries: seq<(string, Schema)>, fuel: nat, i: nat)
    requires i < |entries|
    ensures var v := Example(named, entries[i].1, fuel);
            var init := PropsExample(named, entries[..i], fuel);
            init.Ok? ==> PropsExample(named, entries[..i + 1], fuel)
                         == (if v.Ok? then Ok(init.value + [(entries[i].0, v.value)]) else Err(v.error))
  {
    assert entries[..i + 1][..i] == entries[..i];
  }

  lemma {:induction false} PropsStopAtError(named: seq<(string, Schema)>, entries: seq<(string, Schema)>, fuel: nat, k: nat)
    requires k <= |entries| && PropsExample(named, entries[..k], fuel).Err?
    ensures PropsExample(named, entries, fuel) == PropsExample(named, entries[..k], fuel)
    decreases |entries| - k
  {
    if k < |entries| {
      assert entries[..k + 1][..k] == entries[..k];
      PropsStopAtError(named, entries, fuel, k + 1);
    } else {
      assert entries[..k] == entries;
    }
  }

  /** `getExampleValue`: a string example as it is, anything else through `String`. */
  function ExampleText(named: seq<(string, Schema)>, s: Schema, fuel: nat): (r: Result<string, JsException>)
    ensures r.Ok? <==> Example(named, s, fuel).Ok?
    ensures Example(named, s, fuel).Ok? && Example(named, s, fuel).value.Str? ==> r == Ok(Example(named, s, fuel).value.s)
    ensures Example(named, s, fuel).Ok? && !Example(named, s, fuel).value.Str? ==> r == Ok(ToJsString(Example(named, s, fuel).value))
  {
    var v :- Example(named, s, fuel);
    Ok(if v.Str? then v.s else ToJsString(v))
  }

  /** The texts of the scalar examples: `0`, `true`, `null`, and an object prints as `[object Object]`. */
  lemma ScalarExampleText(named: seq<(string, Schema)>, s: Schema, fuel: nat)
    requires !IsRef(s) && fuel > 0
    ensures HasType(s, "number") || HasType(s, "integer") ==> ExampleText(named, s, fuel) == Ok("0")
    ensures HasType(s, "boolean") ==> ExampleText(named, s, fuel) == Ok("true")
    ensures s.typ !in {Some("string"), Some("number"), Some("integer"), Some("boolean"), Some("array"), Some("object")} ==>
              ExampleText(named, s, fuel) == Ok("null")
    ensures HasType(s, "object") && Example(named, s, fuel).Ok? ==> ExampleText(named, s, fuel) == Ok("[object Object]")
  {
    ScalarExample(named, s, fuel);
    assert NatToString(0) == "0";
  }

  // ---------------------------------------------------------------------
  // URL, headers and body.

  /** The `key=value` text of each query entry (`${q.key}=${q.value || ''}`; the value is always a string). */
  function PairTexts(qs: seq<Query>): (r: seq<string>)
    ensures |r| == |qs| && forall i :: 0 <= i < |qs| ==> r[i] == qs[i].key + "=" + qs[i].value
  {
    seq(|qs|, i requires 0 <= i < |qs| => qs[i].key + "=" + qs[i].value)
  }

  /** The `key=value` pairs of the query string joined by `&`, after a `?`; nothing without queries. */
  function QueryString(qs: seq<Query>): string {
    if |qs| > 0 then "?" + Join(PairTexts(qs), "&") else ""
  }

  /** The path with the first `{name}` made `:name`, for each path parameter in turn. */
  function ColonPath(path: string, ps: seq<Parameter>): string {
    if |ps| == 0 then path
    else
      var name := ps[|ps| - 1].name;
      ReplaceFirst(ColonPath(path, ps[..|ps| - 1]), "{" + name + "}", ":" + name)
  }

  /** The variables of the path parameters in order, or the first error of their examples. */
  function Variables(named: seq<(string, Schema)>, ps: seq<Parameter>, fuel: nat): (r: Result<seq<UrlVariable>, JsException>)
    ensures r.Ok? <==> forall i :: 0 <= i < |ps| ==> ExampleText(named, ps[i].schema, fuel).Ok?
    ensures r.Ok? ==> |r.value| == |ps|
                      && forall i :: 0 <= i < |ps| ==>
                           r.value[i] == UrlVariable(ps[i].name, ExampleText(named, ps[i].schema, fuel).value, ps[i].description)
  {
    if |ps| == 0 then Ok([])
    else
      var init :- Variables(named, ps[..|ps| - 1], fuel);
      var p := ps[|ps| - 1];
      var value :- ExampleText(named, p.schema, fuel);
      Ok(init + [UrlVariable(p.name, value, p.description)])
  }

  /** The query entries in order, `disabled` exactly when the parameter is not required. */
  function Queries(named: seq<(string, Schema)>, ps: seq<Parameter>, fuel: nat): (r: Result<seq<Query>, JsException>)
    ensures r.Ok? <==> forall i :: 0 <= i < |ps| ==> ExampleText(named, ps[i].schema, fuel).Ok?
    ensures r.Ok? ==> |r.value| == |ps|
                      && forall i :: 0 <= i < |ps| ==>
                           r.value[i] == Query(ps[i].name, ExampleText(named, ps[i].schema, fuel).value, ps[i].description,
                                               !ParamRequired(ps[i]))
  {
    if |ps| == 0 then Ok([])
    else
      var init :- Queries(named, ps[..|ps| - 1], fuel);
      var p := ps[|ps| - 1];
      var value :- ExampleText(named, p.schema, fuel);
      Ok(init + [Query(p.name, value, p.description, !ParamRequired(p))])
  }

  /** `generatePostmanUrl`. */
  function PostmanUrl(named: seq<(string, Schema)>, path: string, pathParams: seq<Parameter>, queryParams: seq<Parameter>, fuel: nat)
    : Result<Url, JsException>
  {
    var variables :- Variables(named, pathParams, fuel);
    var queries :- Queries(named, queryParams, fuel);
    var processed := ColonPath(path, pathParams);
    Ok(Url("{{baseUrl}}" + processed + QueryString(queries),
           ["{{baseUrl}}"],
           NonEmpty(Split(processed, '/')),
           if |queries| > 0 then Some(queries) else None,
           if |variables| > 0 then Some(variables) else None))
  }

  /**
   * The URL: `raw` is the base-URL variable, the processed path and, exactly
   * when there are query parameters, `?` and their `key=value` pairs joined
   * by `&`; the query entries and the variables are those of the parameters,
   * absent when there are none; the path segments are the non-empty pieces
   * of the processed path, in order.
   */
  lemma UrlShape(named: seq<(string, Schema)>, path: string, pathParams: seq<Parameter>, queryParams: seq<Parameter>, fuel: nat)
    requires PostmanUrl(named, path, pathParams, queryParams, fuel).Ok?
    ensures var u := PostmanUrl(named, path, pathParams, queryParams, fuel).value;
            var processed := ColonPath(path, pathParams);
            StartsWith(u.raw, "{{baseUrl}}" + processed)
            && (|queryParams| == 0 ==> u.raw == "{{baseUrl}}" + processed && u.query.None?)
            && (|queryParams| > 0 ==> u.raw[|"{{baseUrl}}" + processed|] == '?'
                                      && u.query == Some(Queries(named, queryParams, fuel).value)
                                      && u.raw == "{{baseUrl}}" + processed + "?" + Join(PairTexts(u.query.value), "&"))
            && (u.variable.Some? <==> |pathParams| > 0)
            && (u.variable.Some? ==> u.variable.value == Variables(named, pathParams, fuel).value)
            && u.host == ["{{baseUrl}}"]
            && u.path == NonEmpty(Split(processed, '/'))
            && (forall i :: 0 <= i < |u.path| ==> u.path[i] != "" && '/' !in u.path[i])
  {
    var u := PostmanUrl(named, path, pathParams, queryParams, fuel).value;
    var processed := ColonPath(path, pathParams);
    var qs := Queries(named, queryParams, fuel).value;
    assert u.raw == ("{{baseUrl}}" + processed) + QueryString(qs);
    forall i | 0 <= i < |u.path| ensures u.path[i] != "" && '/' !in u.path[i] {
      assert u.path[i] in Split(processed, '/');
    }
  }

  /** The `forEach` of `generatePostmanUrl` that reassigns `processedPath` and pushes the variables. */
  method BuildUrl(named: seq<(string, Schema)>, path: string, pathParams: seq<Parameter>, queryParams: seq<Parameter>, fuel: nat)
    returns (r: Result<Url, JsException>)
    ensures r == PostmanUrl(named, path, pathParams, queryParams, fuel)
  {
    var processed := path;
    var variables: seq<UrlVariable> := [];
    var i := 0;
    while i < |pathParams|
      invariant 0 <= i <= |pathParams|
      invariant processed == ColonPath(path, pathParams[..i])
      invariant Variables(named, pathParams[..i], fuel) == Ok(variables)
    {
      var p := pathParams[i];
      assert pathParams[..i + 1][..i] == pathParams[..i];
      processed := ReplaceFirst(processed, "{" + p.name + "}", ":" + p.name);
      var value := ExampleText(named, p.schema, fuel);
      if value.Err? {
        VariablesStopAtError(named, pathParams, fuel, i + 1);
        return Err(value.error);
      }
      variables := variables + [UrlVariable(p.name, value.value, p.description)];
      i := i + 1;
    }
    assert pathParams[..i] == pathParams;
    var queries := Queries(named, queryParams, fuel);
    if queries.Err? {
      return Err(queries.error);
    }
    var qs := queries.value;
    return Ok(Url("{{baseUrl}}" + processed + QueryString(qs),
                  ["{{baseUrl}}"],
                  NonEmpty(Split(processed, '/')),
                  if |qs| > 0 then Some(qs) else None,
                  if |variables| > 0 then Some(variables) else None));
  }

  lemma {:induction false} VariablesStopAtError(named: seq<(string, Schema)>, ps: seq<Parameter>, fuel: nat, k: nat)
    requires k <= |ps| && Variables(named, ps[..k], fuel).Err?
    ensures Variables(named, ps, fuel) == Variables(named, ps[..k], fuel)
    decreases |ps| - k
  {
    if k < |ps| {
      assert ps[..k + 1][..k] == ps[..k];
      VariablesStopAtError(named, ps, fuel, k + 1);
    } else {
      assert ps[..k] == ps;
    }
  }

  const JsonHeader := Header("Content-Type", "application/json", None)

  /** Whether the request body declares an `application/json` content type. */
  predicate HasJsonBody(op: Operation) {
    op.requestBody.Some? && "application/json" in Keys(op.requestBody.value.content)
  }

  /** `generatePostmanHeaders`: the header parameters in order, then `Content-Type` for a JSON body. */
  function PostmanHeaders(named: seq<(string, Schema)>, headerParams: seq<Parameter>, op: Operation, fuel: nat)
    : (r: Result<seq<Header>, JsException>)
  {
    var hs :- HeaderEntries(named, headerParams, fuel);
    Ok(hs + if HasJsonBody(op) then [JsonHeader] else [])
  }

  function HeaderEntries(named: seq<(string, Schema)>, ps: seq<Parameter>, fuel: nat): (r: Result<seq<Header>, JsException>)
    ensures r.Ok? <==> forall i :: 0 <= i < |ps| ==> ExampleText(named, ps[i].schema, fuel).Ok?
    ensures r.Ok? ==> |r.value| == |ps|
                      && forall i :: 0 <= i < |ps| ==>
                           r.value[i] == Header(ps[i].name, ExampleText(named, ps[i].schema, fuel).value, ps[i].description)
  {
    if |ps| == 0 then Ok([])
    else
      var init :- HeaderEntries(named, ps[..|ps| - 1], fuel);
      var p := ps[|ps| - 1];
      var value :- ExampleText(named, p.schema, fuel);
      Ok(init + [Header(p.name, value, p.description)])
  }

  /** One header per header parameter, then exactly one `Content-Type` exactly when the body is JSON. */
  lemma HeadersShape(named: seq<(string, Schema)>, headerParams: seq<Parameter>, op: Operation, fuel: nat)
    requires PostmanHeaders(named, headerParams, op, fuel).Ok?
    ensures var hs := PostmanHeaders(named, headerParams, op, fuel).value;
            |hs| == |headerParams| + (if HasJsonBody(op) then 1 else 0)
            && (forall i :: 0 <= i < |headerParams| ==> hs[i].key == headerParams[i].name)
            && (HasJsonBody(op) ==> hs[|hs| - 1] == JsonHeader)
  {
  }

  /** The `forEach` and the final push of `generatePostmanHeaders`. */
  method BuildHeaders(named: seq<(string, Schema)>, headerParams: seq<Parameter>, op: Operation, fuel: nat)
    returns (r: Result<seq<Header>, JsException>)
    ensures r == PostmanHeaders(named, headerParams, op, fuel)
  {
    var headers: seq<Header> := [];
    var i := 0;
    while i < |headerParams|
      invariant 0 <= i <= |headerParams|
      invariant HeaderEntries(named, headerParams[..i], fuel) == Ok(headers)
    {
      var p := headerParams[i];
      assert headerParams[..i + 1][..i] == headerParams[..i];
      var value := ExampleText(named, p.schema, fuel);
      if value.Err? {
        HeadersStopAtError(named, headerParams, fuel, i + 1);
        return Err(value.error);
      }
      headers := headers + [Header(p.name, value.value, p.description)];
      i := i + 1;
    }
    assert headerParams[..i] == headerParams;
    ghost var entries := headers;
    if op.requestBody.Some? {
      if "application/json" in Keys(op.requestBody.value.content) {
        headers := headers + [JsonHeader];
      }
    }
    assert headers == entries + if HasJsonBody(op) then [JsonHeader] else [];
    return Ok(headers);
  }

  lemma {:induction false} HeadersStopAtError(named: seq<(string, Schema)>, ps: seq<Parameter>, fuel: nat, k: nat)
    requires k <= |ps| && HeaderEntries(named, ps[..k], fuel).Err?
    ensures HeaderEntries(named, ps, fuel) == HeaderEntries(named, ps[..k], fuel)
    decreases |ps| - k
  {
    if k < |ps| {
      assert ps[..k + 1][..k] == ps[..k];
      HeadersStopAtError(named, ps, fuel, k + 1);
    } else {
      assert ps[..k] == ps;
    }
  }

  /**
   * `generatePostmanBody`, with `stringify` the pretty-printing
   * `JSON.stringify(value, null, 2)`. A JSON content entry without a schema
   * raises a `TypeError`.
   */
  function PostmanBody(named: seq<(string, Schema)>, op: Operation, stringify: Value -> string, fuel: nat)
    : (r: Result<Option<Body>, JsException>)
    ensures r.Ok? ==> (r.value.None? <==> op.requestBody.None? || JsonMedia(op.requestBody.value.content).None?)
    ensures op.requestBody.Some? && JsonMedia(op.requestBody.value.content) == Some(MediaType(None)) ==> r == Err(TypeError)
  {
    match op.requestBody
    case None => Ok(None)
    case Some(body) =>
      match JsonMedia(body.content)
      case None => Ok(None)
      case Some(media) =>
        match media.schema
        case None => Err(TypeError)
        case Some(s) =>
          var v :- Example(named, s, fuel);
          Ok(Some(RawJson(stringify(v))))
  }

  // ---------------------------------------------------------------------
  // Items and the collection.

  /**
   * `generatePostmanItem` and `generatePostmanRequest`: the item is named by
   * `ItemName`, its method is the upper-cased verb and its description is
   * the summary, or the description when the summary is empty or missing.
   * `ItemRequest` states the URL, headers and body.
   */
  function PostmanItem(named: seq<(string, Schema)>, verb: string, path: string, op: Operation,
                       stringify: Value -> string, fuel: nat): (r: Result<Item, JsException>)
    ensures r.Ok? ==> r.value.name == ItemName(verb, path, op) && r.value.request.verb == Upper(verb)
    ensures r.Ok? && Present(op.summary) ==> r.value.request.description == op.summary
    ensures r.Ok? && !Present(op.summary) ==> r.value.request.description == op.description
  {
    var url :- PostmanUrl(named, path, ParamsIn(op, "path"), ParamsIn(op, "query"), fuel);
    var headers :- PostmanHeaders(named, ParamsIn(op, "header"), op, fuel);
    var body :- PostmanBody(named, op, stringify, fuel);
    Ok(Item(ItemName(verb, path, op),
            Request(Upper(verb), headers, body, url, OrElse(op.summary, op.description))))
  }

  /**
   * The request's URL, headers and body are built in that order from the
   * path, query and header parameters; the item fails with the first of
   * their failures.
   */
  lemma ItemRequest(named: seq<(string, Schema)>, verb: string, path: string, op: Operation,
                    stringify: Value -> string, fuel: nat)
    ensures var r := PostmanItem(named, verb, path, op, stringify, fuel);
            var url := PostmanUrl(named, path, ParamsIn(op, "path"), ParamsIn(op, "query"), fuel);
            var headers := PostmanHeaders(named, ParamsIn(op, "header"), op, fuel);
            var body := PostmanBody(named, op, stringify, fuel);
            (r.Ok? <==> url.Ok? && headers.Ok? && body.Ok?)
            && (url.Err? ==> r == Err(url.error))
            && (url.Ok? && headers.Err? ==> r == Err(headers.error))
            && (url.Ok? && headers.Ok? && body.Err? ==> r == Err(body.error))
            && (r.Ok? ==> r.value.request.url == url.value && r.value.request.header == headers.value
                          && r.value.request.body == body.value)
  {
  }

  /** `operation.operationId || METHOD path`. */
  function ItemName(verb: string, path: string, op: Operation): (r: string)
    ensures Present(op.operationId) ==> r == op.operationId.value
    ensures !Present(op.operationId) ==> r == Upper(verb) + " " + path
  {
    if Present(op.operationId) then op.operationId.value else Upper(verb) + " " + path
  }

  /** The items of the operations, in walk order, or the first error. */
  function Items(named: seq<(string, Schema)>, endpoints: seq<Endpoint>, stringify: Value -> string, fuel: nat)
    : (r: Result<seq<Item>, JsException>)
    ensures r.Ok? ==> |r.value| == |endpoints|
  {
    MapEndpoints((e: Endpoint) => PostmanItem(named, e.verb, e.path, e.op, stringify, fuel), endpoints)
  }

  /** `f` applied to each endpoint in order, stopping at the first error (a `for` loop that pushes). */
  function MapEndpoints(f: Endpoint -> Result<Item, JsException>, endpoints: seq<Endpoint>): (r: Result<seq<Item>, JsException>)
    ensures r.Ok? ==> |r.value| == |endpoints|
  {
    if |endpoints| == 0 then Ok([])
    else
      var init :- MapEndpoints(f, endpoints[..|endpoints| - 1]);
      var item :- f(endpoints[|endpoints| - 1]);
      Ok(init + [item])
  }

  /** The mapping succeeds iff `f` does on every endpoint, and then its i-th entry is `f` of the i-th endpoint. */
  lemma {:induction false} MapEndpointsElements(f: Endpoint -> Result<Item, JsException>, endpoints: seq<Endpoint>)
    ensures var r := MapEndpoints(f, endpoints);
            (r.Ok? <==> forall i :: 0 <= i < |endpoints| ==> f(endpoints[i]).Ok?)
            && (r.Ok? ==> forall i :: 0 <= i < |endpoints| ==> r.value[i] == f(endpoints[i]).value)
  {
    if |endpoints| > 0 {
      var n := |endpoints| - 1;
      var prefix := endpoints[..n];
      MapEndpointsElements(f, prefix);
      assert forall i :: 0 <= i < n ==> prefix[i] == endpoints[i];
    }
  }

  /** The items exist iff every operation's item does, and the i-th item is the i-th operation's. */
  lemma ItemsElements(named: seq<(string, Schema)>, endpoints: seq<Endpoint>, stringify: Value -> string, fuel: nat)
    ensures var r := Items(named, endpoints, stringify, fuel);
            (r.Ok? <==> forall i :: 0 <= i < |endpoints| ==>
                          PostmanItem(named, endpoints[i].verb, endpoints[i].path, endpoints[i].op, stringify, fuel).Ok?)
            && (r.Ok? ==> forall i :: 0 <= i < |endpoints| ==>
                          r.value[i] == PostmanItem(named, endpoints[i].verb, endpoints[i].path, endpoints[i].op, stringify, fuel).value)
  {
    MapEndpointsElements((e: Endpoint) => PostmanItem(named, e.verb, e.path, e.op, stringify, fuel), endpoints);
  }

  /** The single collection variable `baseUrl`. */
  function BaseUrlVariable(spec: Spec): Variable {
    Variable("baseUrl", BaseUrl(spec, DefaultBaseUrl), "string", "Base URL for the API")
  }

  /** `generateCollection`. */
  function CollectionOf(spec: Spec, stringify: Value -> string, fuel: nat): Result<Collection, JsException> {
    var items :- Items(NamedSchemas(spec), Endpoints(spec), stringify, fuel);
    Ok(Collection(CollectionInfo(spec.info.title, spec.info.description, spec.info.version, CollectionSchema),
                  items, [BaseUrlVariable(spec)]))
  }

  /**
   * A collection has one item per operation and exactly one variable,
   * `baseUrl`, whose value is the first server's URL or the default.
   */
  lemma CollectionShape(spec: Spec, stringify: Value -> string, fuel: nat)
    requires CollectionOf(spec, stringify, fuel).Ok?
    ensures var c := CollectionOf(spec, stringify, fuel).value;
            |c.item| == |Endpoints(spec)|
            && |c.variable| == 1 && c.variable[0].key == "baseUrl"
            && (HasServerUrl(spec) ==> c.variable[0].value == spec.servers.value[0].url)
            && (!HasServerUrl(spec) ==> c.variable[0].value == DefaultBaseUrl)
            && c.info.schema == CollectionSchema
  {
  }

  /** The nested `for` of `generateCollection` pushing one item per operation. */
  method GenerateCollection(spec: Spec, stringify: Value -> string, fuel: nat) returns (r: Result<Collection, JsException>)
    ensures r == CollectionOf(spec, stringify, fuel)
  {
    var named := NamedSchemas(spec);
    var endpoints := CollectEndpoints(spec);
    var items: seq<Item> := [];
    var i := 0;
    while i < |endpoints|
      invariant 0 <= i <= |endpoints|
      invariant Items(named, endpoints[..i], stringify, fuel) == Ok(items)
    {
      var e := endpoints[i];
      var item := PostmanItem(named, e.verb, e.path, e.op, stringify, fuel);
      ItemsStep(named, endpoints, stringify, fuel, i);
      if item.Err? {
        ItemsStopAtError(named, endpoints, stringify, fuel, i + 1);
        return Err(item.error);
      }
      items := items + [item.value];
      i := i + 1;
    }
    assert endpoints[..i] == endpoints;
    return Ok(Collection(CollectionInfo(spec.info.title, spec.info.description, spec.info.version, CollectionSchema),
                         items, [BaseUrlVariable(spec)]));
  }

  /** One more operation: its item is appended, or its error ends the walk. */
  lemma ItemsStep(named: seq<(string, Schema)>, endpoints: seq<Endpoint>, stringify: Value -> string, fuel: nat, i: nat)
    requires i < |endpoints|
    ensures var e := endpoints[i];
            var item := PostmanItem(named, e.verb, e.path, e.op, stringify, fuel);
            var init := Items(named, endpoints[..i], stringify, fuel);
            init.Ok? ==> Items(named, endpoints[..i + 1], stringify, fuel)
                         == (if item.Ok? then Ok(init.value + [item.value]) else Err(item.error))
  {
    MapEndpointsStep((e: Endpoint) => PostmanItem(named, e.verb, e.path, e.op, stringify, fuel), endpoints, i);
  }

  lemma ItemsStopAtError(named: seq<(string, Schema)>, endpoints: seq<Endpoint>, stringify: Value -> string,
                            fuel: nat, k: nat)
    requires k <= |endpoints| && Items(named, endpoints[..k], stringify, fuel).Err?
    ensures Items(named, endpoints, stringify, fuel) == Items(named, endpoints[..k], stringify, fuel)
  {
    MapEndpointsStopAtError((e: Endpoint) => PostmanItem(named, e.verb, e.path, e.op, stringify, fuel), endpoints, k);
  }

  lemma MapEndpointsStep(f: Endpoint -> Result<Item, JsException>, endpoints: seq<Endpoint>, i: nat)
    requires i < |endpoints|
    ensures var init := MapEndpoints(f, endpoints[..i]);
            init.Ok? ==> MapEndpoints(f, endpoints[..i + 1])
                         == (if f(endpoints[i]).Ok? then Ok(init.value + [f(endpoints[i]).value]) else Err(f(endpoints[i]).error))
  {
    assert endpoints[..i + 1][..i] == endpoints[..i];
  }

  lemma {:induction false} MapEndpointsStopAtError(f: Endpoint -> Result<Item, JsException>, endpoints: seq<Endpoint>, k: nat)
    requires k <= |endpoints| && MapEndpoints(f, endpoints[..k]).Err?
    ensures MapEndpoints(f, endpoints) == MapEndpoints(f, endpoints[..k])
    decreases |endpoints| - k
  {
    if k < |endpoints| {
      assert endpoints[..k + 1][..k] == endpoints[..k];
      MapEndpointsStopAtError(f, endpoints, k + 1);
    } else {
      assert endpoints[..k] == endpoints;
    }
  }
}
