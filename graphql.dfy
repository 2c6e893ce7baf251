/**
 * The GraphQL generator (`GraphQLGenerator`): the output and input type
 * mappings, the naming helpers, the structured schema built from the named
 * schemas and the operations, and its rendering as SDL text.
 */
module GraphQL {
  import opened Wrappers
  import opened Text
  import opened Values
  import opened OpenApi

  // ---------------------------------------------------------------------
  // The structured schema (the declared GraphQL shapes).

  /** A field of an object type or of an input type. */
  datatype Field = Field(name: string, typ: string, description: Option<string>, nullable: bool, list: bool)

  datatype ObjectType = ObjectType(name: string, description: Option<string>, fields: seq<Field>)

  datatype InputObject = InputObject(name: string, description: Option<string>, fields: seq<Field>)

  datatype EnumValue = EnumValue(name: string, value: string, description: Option<string>)

  datatype EnumType = EnumType(name: string, description: Option<string>, values: seq<EnumValue>)

  datatype Argument = Argument(name: string, typ: string, description: Option<string>, nullable: bool)

  datatype Resolver = Resolver(verb: string, path: string, operation: string)

  /** A field of the `Query` or of the `Mutation` type; both have this shape. */
  datatype RootField = RootField(
    name: string,
    description: Option<string>,
    returnType: string,
    args: seq<Argument>,
    resolver: Resolver)

  datatype GraphQLSchema = GraphQLSchema(
    types: seq<ObjectType>,
    queries: seq<RootField>,
    mutations: seq<RootField>,
    inputs: seq<InputObject>,
    enums: seq<EnumType>)

  // ---------------------------------------------------------------------
  // Naming helpers.

  /** The characters `[-_\s]` that `toCamelCase` removes. */
  predicate IsSeparator(c: char) { c == '-' || c == '_' || IsJsSpace(c) }

  predicate NoSeparator(s: string) { forall i :: 0 <= i < |s| ==> !IsSeparator(s[i]) }

  /** `s` without its leading run of separators. */
  function DropSeparators(s: string): (r: string)
    ensures |r| <= |s|
    ensures |r| > 0 ==> !IsSeparator(r[0])
    ensures r == s[|s| - |r|..]
  {
    if |s| > 0 && IsSeparator(s[0]) then DropSeparators(s[1..]) else s
  }

  /**
   * `toCamelCase`: `str.replace(/[-_\s]+(.)?/g, ...)`. Every maximal run of
   * separators is removed and the character after it, if any, is upper-cased.
   */
  function CamelCase(s: string): (r: string)
    ensures NoSeparator(r)
    ensures |r| <= |s|
    decreases |s|
  {
    if |s| == 0 then ""
    else if IsSeparator(s[0]) then
      var rest := DropSeparators(s);
      if |rest| == 0 then "" else [UpperChar(rest[0])] + CamelCase(rest[1..])
    else [s[0]] + CamelCase(s[1..])
  }

  /** `toPascalCase`: the first character upper-cased, the rest camel-cased. */
  function PascalCase(s: string): (r: string)
    ensures NoSeparator(s) ==> r == Capitalize(s)
  {
    if |s| == 0 then ""
    else
      CamelCaseUnchanged(s[1..]);
      [UpperChar(s[0])] + CamelCase(s[1..])
  }

  predicate AllSeparators(s: string) { forall i :: 0 <= i < |s| ==> IsSeparator(s[i]) }

  /** A character that is not a separator is kept as it is. */
  lemma CamelCasePlainStep(s: string)
    requires |s| > 0 && !IsSeparator(s[0])
    ensures CamelCase(s) == [s[0]] + CamelCase(s[1..])
  {
  }

  /** Camel-casing passes a separator-free prefix through unchanged. */
  lemma {:induction false} CamelCaseKeepsPlain(x: string, z: string)
    requires NoSeparator(x)
    ensures CamelCase(x + z) == x + CamelCase(z)
  {
    if |x| > 0 {
      var s := x + z;
      assert CamelCase(s) == [x[0]] + CamelCase(x[1..] + z) by {
        assert s[0] == x[0];
        CamelCasePlainStep(s);
        assert s[1..] == x[1..] + z;
      }
      assert CamelCase(x[1..] + z) == x[1..] + CamelCase(z) by {
        CamelCaseKeepsPlain(x[1..], z);
      }
      assert x == [x[0]] + x[1..];
    } else {
      assert x + z == z;
    }
  }

  /** A string without separators is left unchanged. */
  lemma CamelCaseUnchanged(s: string)
    ensures NoSeparator(s) ==> CamelCase(s) == s
  {
    if NoSeparator(s) {
      CamelCaseKeepsPlain(s, "");
      assert s + "" == s;
    }
  }

  /** Dropping the leading separators of `seps + z` leaves `z` when `z` does not start with one. */
  lemma {:induction false} DropSeparatorsRun(seps: string, z: string)
    requires AllSeparators(seps) && (|z| == 0 || !IsSeparator(z[0]))
    ensures DropSeparators(seps + z) == z
  {
    if |seps| > 0 {
      assert (seps + z)[0] == seps[0];
      assert (seps + z)[1..] == seps[1..] + z;
      DropSeparatorsRun(seps[1..], z);
    } else {
      assert seps + z == z;
    }
  }

  /**
   * The replacement of `toCamelCase`: a run of separators followed by a
   * character `c` becomes `c` upper-cased (`user-profiles` gives
   * `userProfiles`).
   */
  lemma CamelCaseRun(x: string, seps: string, c: char, y: string)
    requires NoSeparator(x) && |seps| > 0 && AllSeparators(seps) && !IsSeparator(c)
    ensures CamelCase(x + seps + [c] + y) == x + [UpperChar(c)] + CamelCase(y)
  {
    var z := seps + ([c] + y);
    assert x + seps + [c] + y == x + z;
    CamelCaseKeepsPlain(x, z);
    DropSeparatorsRun(seps, [c] + y);
    assert z[0] == seps[0];
    assert ([c] + y)[1..] == y;
  }

  /** A run of separators at the end is removed with nothing in its place. */
  lemma CamelCaseTrailingRun(x: string, seps: string)
    requires NoSeparator(x) && AllSeparators(seps)
    ensures CamelCase(x + seps) == x
  {
    CamelCaseKeepsPlain(x, seps);
    if |seps| > 0 {
      DropSeparatorsRun(seps, "");
      assert seps + "" == seps;
    }
  }

  /** PascalCase of a word, a separator run and the rest: both words are capitalised. */
  lemma PascalCaseRun(x: string, seps: string, c: char, y: string)
    requires |x| > 0 && NoSeparator(x) && |seps| > 0 && AllSeparators(seps) && !IsSeparator(c)
    ensures PascalCase(x + seps + [c] + y) == Capitalize(x) + [UpperChar(c)] + CamelCase(y)
  {
    var s := x + seps + [c] + y;
    assert s[0] == x[0];
    assert s[1..] == x[1..] + seps + [c] + y;
    CamelCaseRun(x[1..], seps, c, y);
  }

  /** PascalCase drops a trailing run of separators. */
  lemma PascalCaseTrailingRun(x: string, seps: string)
    requires |x| > 0 && NoSeparator(x) && AllSeparators(seps)
    ensures PascalCase(x + seps) == Capitalize(x)
  {
    assert (x + seps)[0] == x[0];
    assert (x + seps)[1..] == x[1..] + seps;
    CamelCaseTrailingRun(x[1..], seps);
  }

  lemma AlnumHasNoSeparator(s: string)
    requires AllAlnum(s)
    ensures NoSeparator(s)
  {
  }

  /**
   * `toGraphQLTypeName`: the non-alphanumerics are removed first, so the
   * camel-casing has nothing left to act on and the name is the
   * alphanumeric characters with the first one upper-cased.
   */
  function TypeName(name: string): (r: string)
    ensures r == Capitalize(KeepAlnum(name))
    ensures AllAlnum(r)
  {
    AlnumHasNoSeparator(KeepAlnum(name));
    PascalCase(KeepAlnum(name))
  }

  /**
   * `toGraphQLFieldName`: for the same reason the camel-casing is the
   * identity, so a field name is just the alphanumeric characters of the
   * name, with their case unchanged (`pet_id` gives `petid`).
   */
  function FieldName(name: string): (r: string)
    ensures r == KeepAlnum(name)
    ensures AllAlnum(r)
  {
    AlnumHasNoSeparator(KeepAlnum(name));
    CamelCaseUnchanged(KeepAlnum(name));
    CamelCase(KeepAlnum(name))
  }

  lemma {:induction false} KeepAlnumAppend(a: string, b: string)
    ensures KeepAlnum(a + b) == KeepAlnum(a) + KeepAlnum(b)
  {
    if |a| > 0 {
      assert (a + b)[1..] == a[1..] + b;
      KeepAlnumAppend(a[1..], b);
    } else {
      assert a + b == b;
    }
  }

  /** Appending `Input` before or after taking the type name gives the same name. */
  lemma TypeNameWithInput(name: string)
    ensures TypeName(name + "Input") == TypeName(name) + "Input"
  {
    KeepAlnumAppend(name, "Input");
    InputLiteral();
    var k := KeepAlnum(name);
    assert KeepAlnum(name + "Input") == k + "Input";
    if |k| > 0 {
      CapitalizeAppend(k, "Input");
    } else {
      assert k + "Input" == "Input";
    }
  }

  lemma InputLiteral()
    ensures KeepAlnum("Input") == "Input" && Capitalize("Input") == "Input"
  {
    assert AllAlnum("Input");
    assert UpperChar('I') == 'I';
    assert Capitalize("Input") == ['I'] + "Input"[1..];
  }

  // ---------------------------------------------------------------------
  // Type mappings.

  /** A type expression the mappings produce: alphanumerics and list brackets. */
  predicate TypeExpr(t: string) {
    forall i :: 0 <= i < |t| ==> IsAlnum(t[i]) || t[i] == '[' || t[i] == ']'
  }

  /** `schemaToGraphQLType`. */
  function OutputType(s: Schema): (r: string)
    ensures TypeExpr(r)
    ensures !IsRef(s) ==> |r| > 0
    decreases s
  {
    if IsRef(s) then
      AlnumTypeExpr(TypeName(LastSegment(s.ref.value)));
      TypeName(LastSegment(s.ref.value))
    else if HasType(s, "array") then
      var item := if s.items.Some? then OutputType(s.items.value) else "String";
      LiteralTypeExprs("String");
      BracketTypeExpr(item);
      "[" + item + "]"
    else ScalarType(s)
  }

  /**
   * The non-list branches of `schemaToGraphQLType`, in their order. A
   * string with `enum` goes through the type-name conversion of `String`,
   * which gives `String` again (`StringIsTypeName`), so every string maps
   * to `String`.
   */
  function ScalarType(s: Schema): (r: string)
    ensures r in ["String", "Int", "Float", "Boolean", "JSON"]
    ensures TypeExpr(r) && |r| > 0
  {
    var r := if HasType(s, "string") then "String"
             else if HasType(s, "integer") then "Int"
             else if HasType(s, "number") then "Float"
             else if HasType(s, "boolean") then "Boolean"
             else if HasType(s, "object") then "JSON"
             else "String";
    assert r in ["String", "Int", "Float", "Boolean", "JSON"];
    LiteralTypeExprs(r);
    r
  }

  lemma LiteralTypeExprs(r: string)
    requires r in ["String", "Int", "Float", "Boolean", "JSON"]
    ensures TypeExpr(r) && |r| > 0 && r[0] != '['
  {
    assert AllAlnum("String") && AllAlnum("Int") && AllAlnum("Float") && AllAlnum("Boolean") && AllAlnum("JSON");
    AlnumTypeExpr(r);
  }

  lemma AlnumTypeExpr(t: string)
    requires AllAlnum(t)
    ensures TypeExpr(t)
  {
  }

  lemma BracketTypeExpr(t: string)
    requires TypeExpr(t)
    ensures TypeExpr("[" + t + "]")
  {
    var b := "[" + t + "]";
    assert forall i :: 1 <= i < |b| - 1 ==> b[i] == t[i - 1];
  }

  /** `schemaToGraphQLInputType`. */
  function InputType(s: Schema): (r: string)
    ensures |r| > 0
  {
    if IsRef(s) then
      TypeNameWithInput(LastSegment(s.ref.value));
      TypeName(LastSegment(s.ref.value) + "Input")
    else
      var base := OutputType(s);
      if StartsWith(base, "[") && EndsWith(base, "]") then
        BracketedLength(base);
        var inner := base[1..|base| - 1];
        "[" + (if inner == "JSON" then "JSONInput" else inner) + "Input]"
      else if base == "JSON" then "JSONInput"
      else base
  }

  lemma BracketedLength(t: string)
    requires StartsWith(t, "[") && EndsWith(t, "]")
    ensures |t| >= 2
  {
    assert t[0] == t[..1][0] == '[';
    assert t[|t| - 1] == t[|t| - 1..][0] == ']';
  }

  lemma StringIsTypeName()
    ensures TypeName("String") == "String"
  {
    assert AllAlnum("String");
  }

  /**
   * The scalar mapping ignores `format` and `enum`: integer, number,
   * boolean, string and object map to fixed names, and anything else to
   * `String`.
   */
  lemma ScalarOutputTypes(s: Schema, format: Option<string>, values: Option<seq<Value>>)
    requires !IsRef(s) && !HasType(s, "array")
    ensures var t := s.(format := format, enumValues := values);
            OutputType(t) == OutputType(s)
            && OutputType(s) == (if HasType(s, "integer") then "Int"
                                 else if HasType(s, "number") then "Float"
                                 else if HasType(s, "boolean") then "Boolean"
                                 else if HasType(s, "object") then "JSON"
                                 else "String")
  {
    StringIsTypeName();
  }

  /** An array maps to its item type in brackets, `[String]` without items. */
  lemma ArrayOutputType(s: Schema)
    requires !IsRef(s) && HasType(s, "array")
    ensures OutputType(s) == "[" + (if s.items.Some? then OutputType(s.items.value) else "String") + "]"
  {
  }

  /** A reference maps, in both directions, to the name of its last segment; the input appends `Input`. */
  lemma RefTypes(s: Schema)
    requires IsRef(s)
    ensures OutputType(s) == TypeName(LastSegment(s.ref.value))
    ensures InputType(s) == OutputType(s) + "Input"
  {
    TypeNameWithInput(LastSegment(s.ref.value));
  }

  /**
   * Away from references the input mapping is the output mapping, except
   * that a list `[X]` becomes `[X'Input]`, with `X'` being `X` where a
   * `JSON` item is `JSONInput`, and that `JSON` becomes `JSONInput`.
   */
  lemma InputFromOutput(s: Schema)
    requires !IsRef(s)
    ensures HasType(s, "array") ==>
              var item := if s.items.Some? then OutputType(s.items.value) else "String";
              InputType(s) == "[" + (if item == "JSON" then "JSONInput" else item) + "Input]"
    ensures HasType(s, "object") ==> InputType(s) == "JSONInput"
    ensures !HasType(s, "array") && !HasType(s, "object") ==> InputType(s) == OutputType(s)
  {
    var base := OutputType(s);
    if HasType(s, "array") {
      var item := if s.items.Some? then OutputType(s.items.value) else "String";
      assert base == "[" + item + "]";
      BracketSlices(item);
    } else {
      assert base == ScalarType(s);
      LiteralTypeExprs(base);
    }
  }

  lemma BracketSlices(item: string)
    ensures var b := "[" + item + "]";
            StartsWith(b, "[") && EndsWith(b, "]") && b[1..|b| - 1] == item
  {
    var b := "[" + item + "]";
    assert b[..1] == "[";
    assert b[|b| - 1..] == "]";
    assert b[1..|b| - 1] == item;
  }

  // ---------------------------------------------------------------------
  // Operation names, return types and request-body input types.

  /** A path piece a name is not built from: empty, or a `{…}` placeholder. */
  predicate Unnamed(p: string) {
    p == "" || p[0] == '{'
  }

  /** The pieces of a path that are non-empty and do not start with `{`. */
  function NamedSegments(parts: seq<string>): (r: seq<string>)
    ensures forall i :: 0 <= i < |r| ==> !Unnamed(r[i]) && r[i] in parts
  {
    if |parts| == 0 then []
    else NamedSegments(parts[..|parts| - 1])
         + (var p := parts[|parts| - 1]; if !Unnamed(p) then [p] else [])
  }

  /**
   * There are no named pieces exactly when every piece is unnamed; the last
   * named piece sits at some index after which every piece is unnamed.
   */
  lemma NamedSegmentsLast(parts: seq<string>)
    ensures |NamedSegments(parts)| == 0 <==> forall j :: 0 <= j < |parts| ==> Unnamed(parts[j])
    ensures |NamedSegments(parts)| > 0 ==>
              var last := NamedSegments(parts)[|NamedSegments(parts)| - 1];
              exists k :: 0 <= k < |parts| && parts[k] == last && IsLastNamed(parts, k)
  {
    NamedSegmentsNone(parts);
    if |NamedSegments(parts)| > 0 {
      var k := LastNamedIndex(parts);
    }
  }

  lemma {:induction false} NamedSegmentsNone(parts: seq<string>)
    ensures |NamedSegments(parts)| == 0 <==> forall j :: 0 <= j < |parts| ==> Unnamed(parts[j])
  {
    if |parts| > 0 {
      var n := |parts| - 1;
      NamedSegmentsNone(parts[..n]);
      assert forall j :: 0 <= j < n ==> parts[..n][j] == parts[j];
    }
  }

  /** The index of the last named piece. */
  function LastNamedIndex(parts: seq<string>): (k: nat)
    requires |NamedSegments(parts)| > 0
    ensures k < |parts| && parts[k] == NamedSegments(parts)[|NamedSegments(parts)| - 1] && IsLastNamed(parts, k)
  {
    var n := |parts| - 1;
    var init := parts[..n];
    if !Unnamed(parts[n]) then n
    else
      assert NamedSegments(parts) == NamedSegments(init);
      var k := LastNamedIndex(init);
      assert init[k] == parts[k];
      assert forall j :: k < j < n ==> init[j] == parts[j];
      k
  }

  /** The k-th piece is named and every piece after it is unnamed. */
  predicate IsLastNamed(parts: seq<string>, k: nat)
    requires k < |parts|
  {
    !Unnamed(parts[k]) && forall j :: k < j < |parts| ==> Unnamed(parts[j])
  }

  /**
   * `pathSegments[pathSegments.length - 1] || 'resource'`: the last piece of
   * the path that is neither empty nor a placeholder, else `resource`.
   */
  function LastNamedSegment(path: string): (r: string)
    ensures r != "" && '/' !in r
    ensures (forall j :: 0 <= j < |Split(path, '/')| ==> Unnamed(Split(path, '/')[j])) ==> r == "resource"
    ensures var parts := Split(path, '/');
            (exists j :: 0 <= j < |parts| && !Unnamed(parts[j])) ==>
              exists k :: 0 <= k < |parts| && parts[k] == r && IsLastNamed(parts, k)
  {
    var parts := Split(path, '/');
    var segs := NamedSegments(parts);
    NamedSegmentsNone(parts);
    if |segs| > 0 then
      var k := LastNamedIndex(parts);
      assert !Unnamed(parts[k]) && '/' !in parts[k];
      parts[k]
    else "resource"
  }

  /** The verb prefix of a synthesized operation name. */
  function VerbPrefix(verb: string, path: string): string {
    if verb == "get" then (if '{' in path then "get" else "list")
    else if verb == "post" then "create"
    else if verb == "put" then "update"
    else if verb == "patch" then "update"
    else if verb == "delete" then "delete"
    else verb
  }

  /** `generateOperationName`. */
  function OperationName(verb: string, path: string, op: Operation): (r: string)
    ensures Present(op.operationId) ==> r == KeepAlnum(op.operationId.value)
    ensures !Present(op.operationId) ==> StartsWith(r, VerbPrefix(verb, path))
    ensures !Present(op.operationId) ==> r == VerbPrefix(verb, path) + PascalCase(LastNamedSegment(path))
  {
    if Present(op.operationId) then FieldName(op.operationId.value)
    else
      var prefix := VerbPrefix(verb, path);
      assert (prefix + PascalCase(LastNamedSegment(path)))[..|prefix|] == prefix;
      prefix + PascalCase(LastNamedSegment(path))
  }

  /**
   * The segment a synthesized name is built from is `resource` when no piece
   * of the path is named, and otherwise a named piece of the path after
   * which every piece is empty or a placeholder.
   */
  lemma LastNamedSegmentIsLast(path: string)
    ensures var parts := Split(path, '/');
            ((forall j :: 0 <= j < |parts| ==> Unnamed(parts[j])) <==> |NamedSegments(parts)| == 0)
            && (|NamedSegments(parts)| == 0 ==> LastNamedSegment(path) == "resource")
            && (|NamedSegments(parts)| > 0 ==>
                  exists k :: 0 <= k < |parts| && parts[k] == LastNamedSegment(path) && IsLastNamed(parts, k))
  {
    NamedSegmentsLast(Split(path, '/'));
  }

  /** A resource segment a synthesized name can be built from. */
  predicate ResourceSegment(r: string) {
    r != "" && r[0] != '{' && '/' !in r && NoSeparator(r)
  }

  /**
   * Without an operation id, `GET /<resource>/{<param>}` is named
   * `get<Resource>`: the parameter segment is skipped (`/pets/{id}` gives
   * `getPets`).
   */
  lemma GetItemName(resource: string, param: string, op: Operation)
    requires !Present(op.operationId) && ResourceSegment(resource) && '/' !in param
    ensures OperationName("get", "/" + resource + "/{" + param + "}", op) == "get" + Capitalize(resource)
  {
    var path := "/" + resource + "/{" + param + "}";
    ItemSegments(resource, param);
    ItemNamedSegments(resource, "{" + param + "}");
    assert LastNamedSegment(path) == resource;
    assert path[|resource| + 2] == '{';
    assert VerbPrefix("get", path) == "get";
  }

  lemma ItemSegments(resource: string, param: string)
    requires '/' !in resource && '/' !in param
    ensures Split("/" + resource + "/{" + param + "}", '/') == ["", resource, "{" + param + "}"]
  {
    var tail := "{" + param + "}";
    var parts := ["", resource, tail];
    JoinThree("", resource, tail, "/");
    assert "" + "/" + resource + "/" + tail == "/" + resource + "/{" + param + "}";
    forall i | 0 <= i < |tail|
      ensures tail[i] != '/'
    {
      if 0 < i < |tail| - 1 { assert tail[i] == param[i - 1]; }
    }
    SplitJoin(parts, '/');
  }

  lemma ItemNamedSegments(resource: string, tail: string)
    requires resource != "" && resource[0] != '{' && tail != "" && tail[0] == '{'
    ensures NamedSegments(["", resource, tail]) == [resource]
  {
    var parts := ["", resource, tail];
    assert parts[..2] == ["", resource] && parts[..2][..1] == [""] && parts[..2][..1][..0] == [];
    assert NamedSegments(parts[..1]) == [];
    assert NamedSegments(parts[..2]) == [resource];
  }

  /**
   * Without an operation id, `GET /<resource>` is named `list` followed by
   * the PascalCase of the resource, separators included.
   */
  lemma ListPathName(resource: string, op: Operation)
    requires !Present(op.operationId) && resource != "" && resource[0] != '{' && '/' !in resource && '{' !in resource
    ensures OperationName("get", "/" + resource, op) == "list" + PascalCase(resource)
  {
    var path := "/" + resource;
    var parts := ["", resource];
    assert parts[1..] == [resource];
    assert Join(parts, "/") == "" + "/" + resource;
    assert Join(parts, "/") == path;
    SplitJoin(parts, '/');
    assert parts[..1] == [""] && parts[..1][..0] == [];
    assert NamedSegments(parts[..1]) == [];
    assert NamedSegments(parts) == [resource];
    assert '{' !in path by {
      forall i | 0 <= i < |path| ensures path[i] != '{' {
        if i > 0 { assert path[i] == resource[i - 1]; }
      }
    }
  }

  /** Without an operation id and separators, `GET /<resource>` is named `list<Resource>`. */
  lemma ListName(resource: string, op: Operation)
    requires !Present(op.operationId) && ResourceSegment(resource) && '{' !in resource
    ensures OperationName("get", "/" + resource, op) == "list" + Capitalize(resource)
  {
    ListPathName(resource, op);
  }

  /** `toPascalCase('user-profiles')` is `UserProfiles`. */
  lemma PascalCaseUserProfiles(s: string)
    requires s == "user-profiles"
    ensures PascalCase(s) == "UserProfiles"
  {
    UserProfilesRun(s);
    RofilesUnchanged();
    UserProfilesJoined();
  }

  lemma UserProfilesRun(s: string)
    requires s == "user-profiles"
    ensures PascalCase(s) == Capitalize("user") + [UpperChar('p')] + CamelCase("rofiles")
  {
    assert s == "user" + "-" + ['p'] + "rofiles";
    PascalCaseRun("user", "-", 'p', "rofiles");
  }

  lemma RofilesUnchanged()
    ensures CamelCase("rofiles") == "rofiles"
  {
    assert AllAlnum("rofiles");
    AlnumHasNoSeparator("rofiles");
    CamelCaseUnchanged("rofiles");
  }

  lemma UserProfilesJoined()
    ensures Capitalize("user") + [UpperChar('p')] + "rofiles" == "UserProfiles"
  {
  }

  /** A separator inside the resource upper-cases the next word: `GET /user-profiles` is `listUserProfiles`. */
  lemma ListUserProfiles(resource: string, op: Operation)
    requires !Present(op.operationId) && resource == "user-profiles"
    ensures OperationName("get", "/" + resource, op) == "listUserProfiles"
  {
    UserProfilesSegment(resource);
    ListPathName(resource, op);
    PascalCaseUserProfiles(resource);
    ListUserProfilesJoined();
  }

  lemma UserProfilesSegment(resource: string)
    requires resource == "user-profiles"
    ensures resource != "" && resource[0] != '{' && '/' !in resource && '{' !in resource
  {
  }

  lemma ListUserProfilesJoined()
    ensures "list" + "UserProfiles" == "listUserProfiles"
  {
  }

  /** The first present response among 200, 201 and 204. */
  function SuccessResponse(op: Operation): Option<Response> {
    var r200 := Get(op.responses, "200");
    var r201 := Get(op.responses, "201");
    if r200.Some? then r200 else if r201.Some? then r201 else Get(op.responses, "204")
  }

  /** `getReturnType`. */
  function ReturnType(op: Operation): (r: string)
    ensures SuccessResponse(op).None? || SuccessResponse(op).value.content.None? ==> r == "Boolean"
    ensures SuccessResponse(op).Some? && SuccessResponse(op).value.content.Some? ==>
              r == match JsonSchema(SuccessResponse(op).value.content.value)
                   case None => "String"
                   case Some(s) => OutputType(s)
  {
    match SuccessResponse(op)
    case None => "Boolean"
    case Some(resp) =>
      match resp.content
      case None => "Boolean"
      case Some(content) =>
        match JsonSchema(content)
        case None => "String"
        case Some(s) => OutputType(s)
  }

  /** `getInputTypeFromRequestBody`. */
  function RequestInputType(op: Operation): (r: Option<string>)
    ensures r.Some? <==> op.requestBody.Some? && JsonSchema(op.requestBody.value.content).Some?
    ensures r.Some? ==> r.value == InputType(JsonSchema(op.requestBody.value.content).value)
  {
    match op.requestBody
    case None => None
    case Some(body) =>
      match JsonSchema(body.content)
      case None => None
      case Some(s) => Some(InputType(s))
  }

  // ---------------------------------------------------------------------
  // Declarations built from named schemas.

  /** An enum value name: `String(v).toUpperCase()` with every character outside `[A-Z0-9_]` made `_`. */
  function EnumValueName(v: Value): (r: string)
    ensures |r| == |ToJsString(v)|
    ensures forall i :: 0 <= i < |r| ==> IsUpper(r[i]) || IsDigit(r[i]) || r[i] == '_'
    ensures var t := ToJsString(v);
            forall i :: 0 <= i < |t| ==>
              (IsAlnum(t[i]) || t[i] == '_' ==> r[i] == UpperChar(t[i]))
              && (!(IsAlnum(t[i]) || t[i] == '_') ==> r[i] == '_')
  {
    var up := Upper(ToJsString(v));
    seq(|up|, i requires 0 <= i < |up| => if IsUpper(up[i]) || IsDigit(up[i]) || up[i] == '_' then up[i] else '_')
  }

  /** `in-stock` is named `IN_STOCK`: letters upper-cased, the `-` made `_`. */
  lemma EnumValueNameExample()
    ensures EnumValueName(Str("in-stock")) == "IN_STOCK"
  {
    var r := EnumValueName(Str("in-stock"));
    assert ToJsString(Str("in-stock")) == "in-stock";
    assert |r| == 8;
    assert r[0] == 'I' && r[1] == 'N' && r[2] == '_' && r[3] == 'S';
    assert r[4] == 'T' && r[5] == 'O' && r[6] == 'C' && r[7] == 'K';
  }

  /** `generateEnum`: one value per `enum` entry, in order. */
  function GenerateEnum(name: string, s: Schema): (e: EnumType)
    ensures e.name == TypeName(name)
    ensures var vs := s.enumValues.GetOr([]);
            |e.values| == |vs|
            && forall i :: 0 <= i < |vs| ==> e.values[i].value == ToJsString(vs[i])
                                             && e.values[i].name == EnumValueName(vs[i])
  {
    var vs := s.enumValues.GetOr([]);
    EnumType(
      TypeName(name),
      OrElse(s.description, Some("Enum for " + name)),
      seq(|vs|, i requires 0 <= i < |vs| =>
        EnumValue(EnumValueName(vs[i]), ToJsString(vs[i]), Some("Enum value: " + ToJsString(vs[i])))))
  }

  /** `generateField` (output) or `generateInputField` (input) for one property. */
  function PropField(s: Schema, prop: (string, Schema), forInput: bool): Field {
    Field(FieldName(prop.0),
          if forInput then InputType(prop.1) else OutputType(prop.1),
          prop.1.description,
          !IsRequired(s, prop.0),
          HasType(prop.1, "array"))
  }

  /** The fields of `s`'s properties, in declaration order. */
  function PropFields(s: Schema, entries: seq<(string, Schema)>, forInput: bool): (fs: seq<Field>)
    ensures |fs| == |entries|
    ensures forall i :: 0 <= i < |entries| ==> fs[i] == PropField(s, entries[i], forInput)
  {
    seq(|entries|, i requires 0 <= i < |entries| => PropField(s, entries[i], forInput))
  }

  /** The property loop of `generateType` and `generateInput`, pushing one field per property. */
  method BuildFields(s: Schema, forInput: bool) returns (fields: seq<Field>)
    ensures fields == PropFields(s, PropEntries(s), forInput)
  {
    var entries := PropEntries(s);
    fields := [];
    var i := 0;
    while i < |entries|
      invariant 0 <= i <= |entries|
      invariant fields == PropFields(s, entries[..i], forInput)
    {
      PropFieldsSnoc(s, entries, forInput, i);
      fields := fields + [PropField(s, entries[i], forInput)];
      i := i + 1;
    }
    assert entries[..i] == entries;
  }

  lemma PropFieldsSnoc(s: Schema, entries: seq<(string, Schema)>, forInput: bool, i: nat)
    requires i < |entries|
    ensures PropFields(s, entries[..i + 1], forInput) == PropFields(s, entries[..i], forInput) + [PropField(s, entries[i], forInput)]
  {
    var long := PropFields(s, entries[..i + 1], forInput);
    var l := PropFields(s, entries[..i], forInput) + [PropField(s, entries[i], forInput)];
    forall k | 0 <= k < i + 1
      ensures long[k] == l[k]
    {
      assert entries[..i + 1][k] == entries[k];
      if k < i { assert entries[..i][k] == entries[k]; }
    }
  }

  /** `generateType`. */
  function GenerateType(name: string, s: Schema): ObjectType {
    ObjectType(TypeName(name), OrElse(s.description, Some("Type representing " + name)),
               PropFields(s, PropEntries(s), false))
  }

  /** `generateInput`, called with the name `${name}Input`. */
  function GenerateInput(name: string, s: Schema): InputObject {
    InputObject(TypeName(name), OrElse(s.description, Some("Input type for " + name)),
                PropFields(s, PropEntries(s), true))
  }

  /** A named schema is an object declaration when `type === 'object' || schema.properties`. */
  predicate IsObjectSchema(s: Schema) {
    HasType(s, "object") || s.properties.Props?
  }

  /** The declarations of the named schemas, in registry order: `(types, inputs, enums)`. */
  function Declarations(named: seq<(string, Schema)>): (r: (seq<ObjectType>, seq<InputObject>, seq<EnumType>))
  {
    if |named| == 0 then ([], [], [])
    else
      var d := Declarations(named[..|named| - 1]);
      var (name, s) := named[|named| - 1];
      if s.enumValues.Some? then (d.0, d.1, d.2 + [GenerateEnum(name, s)])
      else if IsObjectSchema(s) then (d.0 + [GenerateType(name, s)], d.1 + [GenerateInput(name + "Input", s)], d.2)
      else d
  }

  /** The root fields of the operations, in walk order: `(queries, mutations)`. */
  function RootFields(endpoints: seq<Endpoint>): (r: (seq<RootField>, seq<RootField>))
  {
    if |endpoints| == 0 then ([], [])
    else
      var d := RootFields(endpoints[..|endpoints| - 1]);
      var e := endpoints[|endpoints| - 1];
      if e.verb == "get" then (d.0 + [GenerateQuery(e.verb, e.path, e.op)], d.1)
      else if e.verb in ["post", "put", "patch", "delete"] then (d.0, d.1 + [GenerateMutation(e.verb, e.path, e.op)])
      else d
  }

  /** The structured schema `generateSchema` returns. */
  function SchemaOf(spec: Spec): GraphQLSchema {
    var d := Declarations(NamedSchemas(spec));
    var f := RootFields(Endpoints(spec));
    GraphQLSchema(d.0, f.0, f.1, d.1, d.2)
  }

  /** `generateArguments`: one argument per declared parameter, in order. */
  function Arguments(op: Operation): (args: seq<Argument>)
    ensures var ps := op.parameters.GetOr([]);
            |args| == |ps|
            && forall i :: 0 <= i < |ps| ==> args[i].name == KeepAlnum(ps[i].name)
                                             && args[i].nullable == !ParamRequired(ps[i])
  {
    ParamArguments(op.parameters.GetOr([]))
  }

  /** The arguments of a parameter list. */
  function ParamArguments(ps: seq<Parameter>): (args: seq<Argument>)
    ensures |args| == |ps|
    ensures forall i :: 0 <= i < |ps| ==> args[i] == ParamArgument(ps[i])
  {
    seq(|ps|, i requires 0 <= i < |ps| => ParamArgument(ps[i]))
  }

  /** The argument of one parameter. */
  function ParamArgument(p: Parameter): Argument {
    Argument(FieldName(p.name), OutputType(p.schema), p.description, !ParamRequired(p))
  }

  /** The parameter loop of `generateArguments`. */
  method BuildArguments(op: Operation) returns (args: seq<Argument>)
    ensures args == Arguments(op)
  {
    var ps := op.parameters.GetOr([]);
    args := [];
    var i := 0;
    while i < |ps|
      invariant 0 <= i <= |ps|
      invariant args == ParamArguments(ps[..i])
    {
      ParamArgumentsSnoc(ps, i);
      args := args + [ParamArgument(ps[i])];
      i := i + 1;
    }
    assert ps[..i] == ps;
  }

  lemma ParamArgumentsSnoc(ps: seq<Parameter>, i: nat)
    requires i < |ps|
    ensures ParamArguments(ps[..i + 1]) == ParamArguments(ps[..i]) + [ParamArgument(ps[i])]
  {
    var long := ParamArguments(ps[..i + 1]);
    var l := ParamArguments(ps[..i]) + [ParamArgument(ps[i])];
    forall k | 0 <= k < i + 1
      ensures long[k] == l[k]
    {
      assert ps[..i + 1][k] == ps[k];
      if k < i { assert ps[..i][k] == ps[k]; }
    }
  }

  /** `generateQuery`. */
  function GenerateQuery(verb: string, path: string, op: Operation): RootField {
    var name := OperationName(verb, path, op);
    RootField(name, OrElse(op.summary, op.description), ReturnType(op), Arguments(op),
              Resolver(Upper(verb), path, if Present(op.operationId) then op.operationId.value else name))
  }

  /** The trailing `input` argument of a mutation, when the body has a JSON schema. */
  function InputArgument(op: Operation): Option<Argument> {
    match RequestInputType(op)
    case None => None
    case Some(t) =>
      Some(Argument("input", t, Some("Input data for the mutation"), !(op.requestBody.value.required == Some(true))))
  }

  /** `generateMutation`: the arguments, then `input` when the request body has a JSON schema. */
  function GenerateMutation(verb: string, path: string, op: Operation): (m: RootField)
    ensures m.args == Arguments(op) + match InputArgument(op) case Some(a) => [a] case None => []
  {
    var name := OperationName(verb, path, op);
    RootField(name, OrElse(op.summary, op.description), ReturnType(op),
              Arguments(op) + (match InputArgument(op) case Some(a) => [a] case None => []),
              Resolver(Upper(verb), path, if Present(op.operationId) then op.operationId.value else name))
  }

  /** A mutation has one argument per parameter, plus `input` exactly when the body has a JSON schema. */
  lemma MutationArguments(verb: string, path: string, op: Operation)
    ensures var m := GenerateMutation(verb, path, op);
            var n := |op.parameters.GetOr([])|;
            (|m.args| == n + 1 <==> op.requestBody.Some? && JsonSchema(op.requestBody.value.content).Some?)
            && (|m.args| == n + 1 ==>
                  m.args[n].name == "input"
                  && m.args[n].typ == InputType(JsonSchema(op.requestBody.value.content).value))
            && (|m.args| != n + 1 ==> |m.args| == n)
  {
  }

  /** The two loops of `generateSchema`. */
  method GenerateSchema(spec: Spec) returns (schema: GraphQLSchema)
    ensures schema == SchemaOf(spec)
  {
    var types, inputs, enums := BuildDeclarations(NamedSchemas(spec));
    var endpoints := CollectEndpoints(spec);
    var queries, mutations := BuildRootFields(endpoints);
    schema := GraphQLSchema(types, queries, mutations, inputs, enums);
  }

  /** The first loop of `generateSchema`, over the named schemas. */
  method BuildDeclarations(named: seq<(string, Schema)>)
    returns (types: seq<ObjectType>, inputs: seq<InputObject>, enums: seq<EnumType>)
    ensures (types, inputs, enums) == Declarations(named)
  {
    types, inputs, enums := [], [], [];
    var i := 0;
    while i < |named|
      invariant 0 <= i <= |named|
      invariant (types, inputs, enums) == Declarations(named[..i])
    {
      var (name, s) := named[i];
      DeclarationsStep(named, i);
      if s.enumValues.Some? {
        enums := enums + [GenerateEnum(name, s)];
      } else if HasType(s, "object") || s.properties.Props? {
        types := types + [GenerateType(name, s)];
        inputs := inputs + [GenerateInput(name + "Input", s)];
      }
      i := i + 1;
    }
    assert named[..i] == named;
  }

  lemma DeclarationsStep(named: seq<(string, Schema)>, i: nat)
    requires i < |named|
    ensures var d := Declarations(named[..i]);
            var (name, s) := named[i];
            Declarations(named[..i + 1])
            == if s.enumValues.Some? then (d.0, d.1, d.2 + [GenerateEnum(name, s)])
               else if IsObjectSchema(s) then (d.0 + [GenerateType(name, s)], d.1 + [GenerateInput(name + "Input", s)], d.2)
               else d
  {
    assert named[..i + 1][..i] == named[..i];
  }

  /** The second loop of `generateSchema`, over the operations. */
  method BuildRootFields(endpoints: seq<Endpoint>) returns (queries: seq<RootField>, mutations: seq<RootField>)
    ensures (queries, mutations) == RootFields(endpoints)
  {
    queries, mutations := [], [];
    var j := 0;
    while j < |endpoints|
      invariant 0 <= j <= |endpoints|
      invariant (queries, mutations) == RootFields(endpoints[..j])
    {
      var e := endpoints[j];
      RootFieldsStep(endpoints, j);
      if e.verb == "get" {
        queries := queries + [GenerateQuery(e.verb, e.path, e.op)];
      } else if e.verb in ["post", "put", "patch", "delete"] {
        mutations := mutations + [GenerateMutation(e.verb, e.path, e.op)];
      }
      j := j + 1;
    }
    assert endpoints[..j] == endpoints;
  }

  lemma RootFieldsStep(endpoints: seq<Endpoint>, j: nat)
    requires j < |endpoints|
    ensures var d := RootFields(endpoints[..j]);
            var e := endpoints[j];
            RootFields(endpoints[..j + 1])
            == if e.verb == "get" then (d.0 + [GenerateQuery(e.verb, e.path, e.op)], d.1)
               else if e.verb in ["post", "put", "patch", "delete"] then (d.0, d.1 + [GenerateMutation(e.verb, e.path, e.op)])
               else d
  {
    assert endpoints[..j + 1][..j] == endpoints[..j];
  }

  /**
   * Every object declaration comes as a pair: as many inputs as types, the
   * k-th input named like the k-th type with `Input` appended, with the same
   * field names and nullability.
   */
  lemma {:induction false} TypesAndInputsPair(named: seq<(string, Schema)>)
    ensures var d := Declarations(named);
            |d.0| == |d.1| && forall k :: 0 <= k < |d.0| ==> InputMatches(d.0[k], d.1[k])
  {
    if |named| > 0 {
      var d := Declarations(named[..|named| - 1]);
      var (name, s) := named[|named| - 1];
      TypesAndInputsPair(named[..|named| - 1]);
      if s.enumValues.None? && IsObjectSchema(s) {
        var ty, input := GenerateType(name, s), GenerateInput(name + "Input", s);
        GeneratedInputMatches(name, s);
        assert Declarations(named).0 == d.0 + [ty] && Declarations(named).1 == d.1 + [input];
        MatchesSnoc(d.0, d.1, ty, input);
      }
    }
  }

  /** An input is named like its type with `Input` appended and has the same field names and nullability. */
  predicate InputMatches(ty: ObjectType, input: InputObject) {
    input.name == ty.name + "Input"
    && |input.fields| == |ty.fields|
    && forall j :: 0 <= j < |ty.fields| ==>
         input.fields[j].name == ty.fields[j].name && input.fields[j].nullable == ty.fields[j].nullable
  }

  /** The type and the input of one object schema match. */
  lemma GeneratedInputMatches(name: string, s: Schema)
    ensures InputMatches(GenerateType(name, s), GenerateInput(name + "Input", s))
  {
    TypeNameWithInput(name);
  }

  lemma MatchesSnoc(types: seq<ObjectType>, inputs: seq<InputObject>, ty: ObjectType, input: InputObject)
    requires |types| == |inputs| && forall k :: 0 <= k < |types| ==> InputMatches(types[k], inputs[k])
    requires InputMatches(ty, input)
    ensures var ts, ins := types + [ty], inputs + [input];
            |ts| == |ins| && forall k :: 0 <= k < |ts| ==> InputMatches(ts[k], ins[k])
  {
  }

  /** A named schema with `enum` yields exactly one enum and no type or input. */
  lemma {:induction false} EnumSchemasOnlyEnums(named: seq<(string, Schema)>, name: string, s: Schema)
    requires s.enumValues.Some?
    ensures var d := Declarations(named);
            var e := Declarations(named + [(name, s)]);
            e.0 == d.0 && e.1 == d.1 && e.2 == d.2 + [GenerateEnum(name, s)]
  {
    assert (named + [(name, s)])[..|named|] == named;
  }

  /** Queries come from GET operations; mutations from POST, PUT, PATCH and DELETE. */
  lemma {:induction false} RootFieldVerbs(endpoints: seq<Endpoint>)
    ensures var f := RootFields(endpoints);
            |f.0| + |f.1| <= |endpoints| && AllVerb(f.0, ["GET"]) && AllVerb(f.1, ["POST", "PUT", "PATCH", "DELETE"])
  {
    if |endpoints| > 0 {
      var init := endpoints[..|endpoints| - 1];
      var e := endpoints[|endpoints| - 1];
      var d := RootFields(init);
      RootFieldVerbs(init);
      if e.verb == "get" {
        var q := GenerateQuery(e.verb, e.path, e.op);
        QueryVerb(e.verb, e.path, e.op);
        UpperVerb(e.verb);
        AllVerbSnoc(d.0, q, ["GET"]);
        assert RootFields(endpoints) == (d.0 + [q], d.1);
      } else if e.verb in ["post", "put", "patch", "delete"] {
        var m := GenerateMutation(e.verb, e.path, e.op);
        MutationVerb(e.verb, e.path, e.op);
        UpperVerb(e.verb);
        AllVerbSnoc(d.1, m, ["POST", "PUT", "PATCH", "DELETE"]);
        assert RootFields(endpoints) == (d.0, d.1 + [m]);
      } else {
        assert RootFields(endpoints) == d;
      }
    }
  }

  /** Every root field resolves through one of `verbs`. */
  predicate AllVerb(fields: seq<RootField>, verbs: seq<string>) {
    forall k :: 0 <= k < |fields| ==> fields[k].resolver.verb in verbs
  }

  lemma AllVerbSnoc(fields: seq<RootField>, f: RootField, verbs: seq<string>)
    requires AllVerb(fields, verbs) && f.resolver.verb in verbs
    ensures AllVerb(fields + [f], verbs)
  {
  }

  lemma QueryVerb(verb: string, path: string, op: Operation)
    ensures GenerateQuery(verb, path, op).resolver.verb == Upper(verb)
  {
  }

  lemma MutationVerb(verb: string, path: string, op: Operation)
    ensures GenerateMutation(verb, path, op).resolver.verb == Upper(verb)
  {
  }

  /** The upper-cased names of the five verbs that become root fields. */
  lemma UpperVerb(v: string)
    requires v in ["get", "post", "put", "patch", "delete"]
    ensures v == "get" ==> Upper(v) == "GET"
    ensures v == "post" ==> Upper(v) == "POST"
    ensures v == "put" ==> Upper(v) == "PUT"
    ensures v == "patch" ==> Upper(v) == "PATCH"
    ensures v == "delete" ==> Upper(v) == "DELETE"
  {
  }

  // ---------------------------------------------------------------------
  // SDL rendering.

  const Header := "# Generated GraphQL Schema from OpenAPI specification\n\n"
                  + "# Scalar types\nscalar JSON\nscalar JSONInput\nscalar DateTime\n\n"

  /** A description line `"…"`, emitted only for a truthy description. */
  function DocLine(indent: string, d: Option<string>): string {
    if Present(d) then indent + "\"" + d.value + "\"\n" else ""
  }

  function Bang(nullable: bool): string {
    if nullable then "" else "!"
  }

  function FieldLine(f: Field): string {
    DocLine("  ", f.description) + "  " + f.name + ": " + f.typ + Bang(f.nullable) + "\n"
  }

  function FieldLines(fs: seq<Field>): (r: seq<string>)
    ensures |r| == |fs| && forall i :: 0 <= i < |fs| ==> r[i] == FieldLine(fs[i])
  {
    seq(|fs|, i requires 0 <= i < |fs| => FieldLine(fs[i]))
  }

  function ValueLine(v: EnumValue): string {
    DocLine("  ", v.description) + "  " + v.name + "\n"
  }

  function ValueLines(vs: seq<EnumValue>): (r: seq<string>)
    ensures |r| == |vs| && forall i :: 0 <= i < |vs| ==> r[i] == ValueLine(vs[i])
  {
    seq(|vs|, i requires 0 <= i < |vs| => ValueLine(vs[i]))
  }

  /** A block `<keyword> <name> {` … `}` with its description line and its body lines. */
  function Block(keyword: string, name: string, description: Option<string>, lines: seq<string>): string {
    DocLine("", description) + keyword + " " + name + " {\n" + Concat(lines) + "}\n"
  }

  /** `renderEnum`, `renderInput` and `renderType`: the `+=` loop over the values or fields. */
  method RenderBlock(keyword: string, name: string, description: Option<string>, lines: seq<string>)
    returns (output: string)
    ensures output == Block(keyword, name, description, lines)
  {
    output := "";
    if Present(description) {
      output := output + "\"" + description.value + "\"\n";
    }
    output := output + keyword + " " + name + " {\n";
    var head := output;
    var i := 0;
    while i < |lines|
      invariant 0 <= i <= |lines|
      invariant output == head + Concat(lines[..i])
    {
      output := output + lines[i];
      assert lines[..i + 1][..i] == lines[..i];
      i := i + 1;
    }
    assert lines[..i] == lines;
    output := output + "}\n";
  }

  function RenderEnum(e: EnumType): string { Block("enum", e.name, e.description, ValueLines(e.values)) }
  function RenderInput(t: InputObject): string { Block("input", t.name, t.description, FieldLines(t.fields)) }
  function RenderType(t: ObjectType): string { Block("type", t.name, t.description, FieldLines(t.fields)) }

  function ArgText(a: Argument): string {
    a.name + ": " + a.typ + Bang(a.nullable)
  }

  /** `renderOperation`: the argument list is parenthesised only when there are arguments. */
  function RenderOperation(o: RootField): string {
    var args := if |o.args| > 0
                then "(" + Join(seq(|o.args|, i requires 0 <= i < |o.args| => ArgText(o.args[i])), ", ") + ")"
                else "";
    DocLine("  ", o.description) + "  " + o.name + args + ": " + o.returnType + "\n"
  }

  /** A section: its heading and its items, or nothing at all when there are no items. */
  function Section(heading: string, items: seq<string>): string {
    if |items| == 0 then "" else heading + Concat(items)
  }

  function EnumItems(es: seq<EnumType>): seq<string> { seq(|es|, i requires 0 <= i < |es| => RenderEnum(es[i]) + "\n") }
  function InputItems(ts: seq<InputObject>): seq<string> { seq(|ts|, i requires 0 <= i < |ts| => RenderInput(ts[i]) + "\n") }
  function TypeItems(ts: seq<ObjectType>): seq<string> { seq(|ts|, i requires 0 <= i < |ts| => RenderType(ts[i]) + "\n") }
  function OperationItems(os: seq<RootField>): seq<string> { seq(|os|, i requires 0 <= i < |os| => RenderOperation(os[i])) }

  /** A root type block, `type Query { … }` or `type Mutation { … }`, omitted when empty. */
  function RootSection(heading: string, os: seq<RootField>): string {
    if |os| == 0 then "" else heading + Concat(OperationItems(os)) + "}\n\n"
  }

  /** The SDL text of a structured schema. */
  function RenderSchema(s: GraphQLSchema): string {
    Header
    + Section("# Enums\n", EnumItems(s.enums))
    + Section("# Input Types\n", InputItems(s.inputs))
    + Section("# Object Types\n", TypeItems(s.types))
    + RootSection("# Query Type\ntype Query {\n", s.queries)
    + RootSection("# Mutation Type\ntype Mutation {\n", s.mutations)
  }

  /** The `+=` loop over the items of one list. */
  method AppendItems(output: string, items: seq<string>) returns (r: string)
    ensures r == output + Concat(items)
  {
    r := output;
    var i := 0;
    while i < |items|
      invariant 0 <= i <= |items|
      invariant r == output + Concat(items[..i])
    {
      r := r + items[i];
      assert items[..i + 1][..i] == items[..i];
      i := i + 1;
    }
    assert items[..i] == items;
  }

  /** One section of `generateGraphQLSchema`, skipped when its list is empty. */
  method AppendSection(output: string, heading: string, items: seq<string>) returns (r: string)
    ensures r == output + Section(heading, items)
  {
    r := output;
    if |items| > 0 {
      r := AppendItems(output + heading, items);
    }
  }

  /** The `type Query` or `type Mutation` block, skipped when it has no fields. */
  method AppendRoot(output: string, heading: string, os: seq<RootField>) returns (r: string)
    ensures r == output + RootSection(heading, os)
  {
    r := output;
    if |os| > 0 {
      r := AppendItems(output + heading, OperationItems(os));
      r := r + "}\n\n";
    }
  }

  /** `generateGraphQLSchema`: the structured schema rendered section by section. */
  method GenerateGraphQLSchema(spec: Spec) returns (output: string)
    ensures output == RenderSchema(SchemaOf(spec))
  {
    var schema := GenerateSchema(spec);
    output := AppendSection(Header, "# Enums\n", EnumItems(schema.enums));
    output := AppendSection(output, "# Input Types\n", InputItems(schema.inputs));
    output := AppendSection(output, "# Object Types\n", TypeItems(schema.types));
    output := AppendRoot(output, "# Query Type\ntype Query {\n", schema.queries);
    output := AppendRoot(output, "# Mutation Type\ntype Mutation {\n", schema.mutations);
  }

  /** The header and the three scalars open every SDL text. */
  lemma RenderStartsWithHeader(s: GraphQLSchema)
    ensures StartsWith(RenderSchema(s), Header)
  {
    var a := Header;
    assert a[..|Header|] == Header;
    var b := a + Section("# Enums\n", EnumItems(s.enums));
    StartsWithAppend(a, Header, Section("# Enums\n", EnumItems(s.enums)));
    var c := b + Section("# Input Types\n", InputItems(s.inputs));
    StartsWithAppend(b, Header, Section("# Input Types\n", InputItems(s.inputs)));
    var d := c + Section("# Object Types\n", TypeItems(s.types));
    StartsWithAppend(c, Header, Section("# Object Types\n", TypeItems(s.types)));
    var e := d + RootSection("# Query Type\ntype Query {\n", s.queries);
    StartsWithAppend(d, Header, RootSection("# Query Type\ntype Query {\n", s.queries));
    StartsWithAppend(e, Header, RootSection("# Mutation Type\ntype Mutation {\n", s.mutations));
  }

  /** The SDL text is the header alone exactly when all five lists are empty. */
  lemma RenderIsHeaderIffEmpty(s: GraphQLSchema)
    ensures RenderSchema(s) == Header <==>
            s.enums == [] && s.inputs == [] && s.types == [] && s.queries == [] && s.mutations == []
  {
    var items := [Section("# Enums\n", EnumItems(s.enums)), Section("# Input Types\n", InputItems(s.inputs)),
                  Section("# Object Types\n", TypeItems(s.types)),
                  RootSection("# Query Type\ntype Query {\n", s.queries),
                  RootSection("# Mutation Type\ntype Mutation {\n", s.mutations)];
    assert |RenderSchema(s)| == |Header| + |items[0]| + |items[1]| + |items[2]| + |items[3]| + |items[4]|;
  }

  /** A section is empty exactly when it has no items, and otherwise opens with its heading. */
  lemma SectionShape(heading: string, items: seq<string>)
    requires heading != ""
    ensures Section(heading, items) == "" <==> items == []
    ensures items != [] ==> StartsWith(Section(heading, items), heading)
  {
    if items != [] {
      var r := Section(heading, items);
      assert r[..|heading|] == heading;
    }
  }

  /** A line ends in `!` exactly when its field or argument is not nullable, for a type without `!`. */
  lemma FieldLineBang(f: Field)
    requires !EndsWith(f.typ, "!")
    ensures EndsWith(FieldLine(f), "!\n") <==> !f.nullable
  {
    var core := "  " + f.name + ": " + f.typ;
    LastNotBang("  " + f.name + ": ", f.typ);
    EndsBang(DocLine("  ", f.description), core, f.nullable);
    assert FieldLine(f) == DocLine("  ", f.description) + core + Bang(f.nullable) + "\n";
  }

  lemma LastNotBang(head: string, typ: string)
    requires |head| > 0 && head[|head| - 1] != '!' && !EndsWith(typ, "!")
    ensures var core := head + typ; |core| > 0 && core[|core| - 1] != '!'
  {
    if |typ| > 0 {
      assert typ[|typ| - 1..] == [typ[|typ| - 1]];
    }
  }

  /** A line whose text does not end in `!` ends in `!` after the marker exactly when it is not nullable. */
  lemma EndsBang(pre: string, core: string, nullable: bool)
    requires |core| > 0 && core[|core| - 1] != '!'
    ensures EndsWith(pre + core + Bang(nullable) + "\n", "!\n") <==> !nullable
  {
    var line := pre + core + Bang(nullable) + "\n";
    if nullable {
      assert line[|line| - 2] == core[|core| - 1];
      assert line[|line| - 2..][0] == line[|line| - 2];
    } else {
      assert line[|line| - 2..] == "!\n";
    }
  }

  /**
   * In the SDL of a generated object type, the line of the i-th property
   * ends in `!` exactly when the schema lists that property as required.
   */
  lemma TypeFieldBangIffRequired(name: string, s: Schema, i: nat)
    requires i < |PropEntries(s)|
    ensures EndsWith(FieldLine(GenerateType(name, s).fields[i]), "!\n") <==> IsRequired(s, PropEntries(s)[i].0)
  {
    var f := GenerateType(name, s).fields[i];
    var t := f.typ;
    assert TypeExpr(t);
    if |t| > 0 {
      assert t[|t| - 1..][0] == t[|t| - 1];
      assert t[|t| - 1..] != "!";
    }
    FieldLineBang(f);
  }

  /** The argument list of a root field is parenthesised exactly when it is not empty. */
  lemma ArgumentsParenthesisedIffAny(o: RootField)
    ensures var line := RenderOperation(o)[|DocLine("  ", o.description)|..];
            StartsWith(line, "  " + o.name + "(") <==> |o.args| > 0
  {
    var prefix := DocLine("  ", o.description);
    var line := RenderOperation(o)[|prefix|..];
    var want := "  " + o.name + "(";
    if |o.args| == 0 {
      assert line == "  " + o.name + ": " + o.returnType + "\n";
      assert line[|want| - 1] == ':';
    } else {
      var args := "(" + Join(seq(|o.args|, i requires 0 <= i < |o.args| => ArgText(o.args[i])), ", ") + ")";
      assert line == "  " + o.name + args + ": " + o.returnType + "\n";
      assert line[..|want|] == want;
    }
  }
}
