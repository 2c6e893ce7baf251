/**
 * The parsed OpenAPI document as the generators read it (the declared
 * shapes `OpenAPISpec`, `PathItem`, `Operation`, `Parameter`,
 * `RequestBody`, `Response`, `MediaType` and `Schema`), the JavaScript
 * truthiness tests the generators apply to its fields, the walk over its
 * operations that every generator shares, and its view as a plain
 * JavaScript value.
 */
module OpenApi {
  import opened Wrappers
  import opened Text
  import opened Values

  datatype Schema = Schema(
    typ: Option<string>,
    format: Option<string>,
    properties: Props,
    items: Option<Schema>,
    required: Option<seq<string>>,
    enumValues: Option<seq<Value>>,
    ref: Option<string>,
    allOf: SchemaList,
    oneOf: SchemaList,
    anyOf: SchemaList,
    description: Option<string>,
    example: Option<Value>)

  /** `properties?: Record<string, Schema>`; present even when it has no entries. */
  datatype Props = NoProps | Props(entries: seq<(string, Schema)>)

  /** `allOf?`, `oneOf?`, `anyOf?: Schema[]`. */
  datatype SchemaList = NoList | List(elems: seq<Schema>)

  datatype Parameter = Parameter(
    name: string,
    location: string,
    required: Option<bool>,
    schema: Schema,
    description: Option<string>)

  /** A media type entry; its `schema` may be missing in a document, and the generators test for it. */
  datatype MediaType = MediaType(schema: Option<Schema>)

  datatype RequestBody = RequestBody(
    content: seq<(string, MediaType)>,
    required: Option<bool>,
    description: Option<string>)

  datatype Response = Response(description: string, content: Option<seq<(string, MediaType)>>)

  datatype Operation = Operation(
    operationId: Option<string>,
    summary: Option<string>,
    description: Option<string>,
    parameters: Option<seq<Parameter>>,
    requestBody: Option<RequestBody>,
    responses: seq<(string, Response)>,
    tags: Option<seq<string>>)

  /**
   * A member of a path item. The generators treat a member as an operation
   * exactly when it is an object with a `responses` key; anything else (a
   * path-level `parameters` list, a `summary`, an extension) is kept as its
   * raw value and skipped.
   */
  datatype PathMember = OperationMember(op: Operation) | OtherMember(raw: Value)

  type PathItem = seq<(string, PathMember)>

  datatype Server = Server(url: string, description: Option<string>)

  datatype Info = Info(title: string, version: string, description: Option<string>)

  datatype Components = Components(schemas: Option<seq<(string, Schema)>>)

  datatype Spec = Spec(
    openapi: string,
    info: Info,
    servers: Option<seq<Server>>,
    paths: seq<(string, PathItem)>,
    components: Option<Components>)

  /** One operation reached by the generators' walk `for (path) for (method)`. */
  datatype Endpoint = Endpoint(path: string, verb: string, op: Operation)

  // ---------------------------------------------------------------------
  // Truthiness tests on schema fields, as the generators write them.

  /** `if (schema.$ref)`: an empty reference string is falsy. */
  predicate IsRef(s: Schema) { Present(s.ref) }

  predicate HasType(s: Schema, t: string) { s.typ == Some(t) }

  /** `schema.required?.includes(name)`. */
  predicate IsRequired(s: Schema, name: string) {
    s.required.Some? && name in s.required.value
  }

  /** `schema.example`, `undefined` when absent. */
  function ExampleOf(s: Schema): Value {
    match s.example
    case Some(v) => v
    case None => Undefined
  }

  /** `schema.enum[0]`, `undefined` for an empty list. */
  function FirstEnum(values: seq<Value>): Value {
    if |values| > 0 then values[0] else Undefined
  }

  /** `param.required` is truthy. */
  predicate ParamRequired(p: Parameter) { p.required == Some(true) }

  /** `operation.parameters?.filter(p => p.in === location) || []`. */
  function ParamsIn(op: Operation, location: string): (r: seq<Parameter>)
    ensures forall i :: 0 <= i < |r| ==> r[i].location == location
    ensures op.parameters.Some? ==> forall p :: p in op.parameters.value && p.location == location ==> p in r
  {
    match op.parameters
    case None => []
    case Some(ps) => Filter(ps, location)
  }

  function Filter(ps: seq<Parameter>, location: string): (r: seq<Parameter>)
    ensures forall i :: 0 <= i < |r| ==> r[i].location == location && r[i] in ps
    ensures forall p :: p in ps && p.location == location ==> p in r
  {
    if |ps| == 0 then []
    else (if ps[0].location == location then [ps[0]] else []) + Filter(ps[1..], location)
  }

  /**
   * The TypeScript name of a reference, `ref.split('/').pop() || 'unknown'`:
   * its last `/` segment, or `unknown` when that segment is empty.
   */
  function RefTypeName(ref: string): (r: string)
    ensures r != "" && '/' !in r
    ensures LastSegment(ref) != "" ==> r == LastSegment(ref) && EndsWith(ref, r)
  {
    LastSegmentIsSuffix(ref);
    var last := LastSegment(ref);
    if last == "" then "unknown" else last
  }

  /** The entries of `properties`, none when it is absent. */
  function PropEntries(s: Schema): seq<(string, Schema)> {
    match s.properties
    case NoProps => []
    case Props(entries) => entries
  }

  /** `content['application/json']` of a content record. */
  function JsonMedia(content: seq<(string, MediaType)>): Option<MediaType> {
    Get(content, "application/json")
  }

  /** `jsonContent?.schema` of a content record. */
  function JsonSchema(content: seq<(string, MediaType)>): Option<Schema> {
    match JsonMedia(content)
    case Some(MediaType(Some(s))) => Some(s)
    case _ => None
  }

  /** `this.spec.servers?.[0]?.url || fallback`. */
  function BaseUrl(spec: Spec, fallback: string): (r: string)
    ensures HasServerUrl(spec) ==> r == spec.servers.value[0].url
    ensures !HasServerUrl(spec) ==> r == fallback
  {
    if spec.servers.Some? && |spec.servers.value| > 0 && spec.servers.value[0].url != ""
    then spec.servers.value[0].url
    else fallback
  }

  /** The document lists a first server with a non-empty URL. */
  predicate HasServerUrl(spec: Spec) {
    spec.servers.Some? && |spec.servers.value| > 0 && spec.servers.value[0].url != ""
  }

  /** `this.spec.components?.schemas` as a list of entries, empty when absent. */
  function NamedSchemas(spec: Spec): seq<(string, Schema)> {
    match spec.components
    case Some(Components(Some(named))) => named
    case _ => []
  }

  // ---------------------------------------------------------------------
  // The operations of a document, in the order of the generators' loops.

  /** The operations of one path item, in member order. */
  function ItemEndpoints(path: string, item: PathItem): (r: seq<Endpoint>)
    ensures |r| <= |item|
    ensures forall e :: e in r ==> e.path == path && (e.verb, OperationMember(e.op)) in item
  {
    if |item| == 0 then []
    else
      ItemEndpoints(path, item[..|item| - 1]) + MemberEndpoint(path, item[|item| - 1])
  }

  /** The endpoint of one path-item member, when it is an operation. */
  function MemberEndpoint(path: string, member: (string, PathMember)): seq<Endpoint> {
    match member.1
    case OperationMember(op) => [Endpoint(path, member.0, op)]
    case OtherMember(_) => []
  }

  /** The operations of all path items, path by path. */
  function PathsEndpoints(paths: seq<(string, PathItem)>): (r: seq<Endpoint>)
    ensures forall e :: e in r ==>
              (exists k :: 0 <= k < |paths| && paths[k].0 == e.path && (e.verb, OperationMember(e.op)) in paths[k].1)
  {
    if |paths| == 0 then []
    else
      var r0 := PathsEndpoints(paths[..|paths| - 1]);
      var last := ItemEndpoints(paths[|paths| - 1].0, paths[|paths| - 1].1);
      assert forall e :: e in r0 ==>
               (exists k :: 0 <= k < |paths| - 1 && paths[k].0 == e.path && (e.verb, OperationMember(e.op)) in paths[k].1);
      r0 + last
  }

  function Endpoints(spec: Spec): seq<Endpoint> {
    PathsEndpoints(spec.paths)
  }

  /**
   * The nested loop over `Object.entries(spec.paths)` and each item's
   * entries that every generator runs, keeping the members that are
   * objects with `responses`.
   */
  method CollectEndpoints(spec: Spec) returns (r: seq<Endpoint>)
    ensures r == Endpoints(spec)
  {
    r := [];
    var i := 0;
    while i < |spec.paths|
      invariant 0 <= i <= |spec.paths|
      invariant r == PathsEndpoints(spec.paths[..i])
    {
      var found := CollectItem(spec.paths[i].0, spec.paths[i].1);
      r := r + found;
      PathsStep(spec.paths, i);
      i := i + 1;
    }
    assert spec.paths[..i] == spec.paths;
  }

  /** The inner loop: the operations of one path item, in member order. */
  method CollectItem(path: string, item: PathItem) returns (r: seq<Endpoint>)
    ensures r == ItemEndpoints(path, item)
  {
    r := [];
    var j := 0;
    while j < |item|
      invariant 0 <= j <= |item|
      invariant r == ItemEndpoints(path, item[..j])
    {
      ItemStep(path, item, j);
      match item[j].1 {
        case OperationMember(op) => r := r + [Endpoint(path, item[j].0, op)];
        case OtherMember(_) =>
      }
      j := j + 1;
    }
    assert item[..j] == item;
  }

  lemma ItemStep(path: string, item: PathItem, j: nat)
    requires j < |item|
    ensures ItemEndpoints(path, item[..j + 1]) == ItemEndpoints(path, item[..j]) + MemberEndpoint(path, item[j])
  {
    assert item[..j + 1][..j] == item[..j];
  }

  lemma PathsStep(paths: seq<(string, PathItem)>, i: nat)
    requires i < |paths|
    ensures PathsEndpoints(paths[..i + 1]) == PathsEndpoints(paths[..i]) + ItemEndpoints(paths[i].0, paths[i].1)
  {
    assert paths[..i + 1][..i] == paths[..i];
  }

  // ---------------------------------------------------------------------
  // The document as a plain JavaScript value, which `resolveRef` walks.

  function OptField(key: string, v: Option<string>): seq<(string, Value)> {
    match v
    case Some(s) => [(key, Str(s))]
    case None => []
  }

  function StringsValue(ss: seq<string>): Value {
    Arr(seq(|ss|, i requires 0 <= i < |ss| => Str(ss[i])))
  }

  function SchemaValue(s: Schema): (v: Value)
    ensures v.Obj?
    decreases s, 1
  {
    Obj(
      OptField("type", s.typ)
      + OptField("format", s.format)
      + (match s.properties
         case NoProps => []
         case Props(entries) => [("properties", Obj(PropsValue(s, entries)))])
      + (match s.items
         case None => []
         case Some(it) => [("items", SchemaValue(it))])
      + (match s.required
         case None => []
         case Some(names) => [("required", StringsValue(names))])
      + (match s.enumValues
         case None => []
         case Some(vs) => [("enum", Arr(vs))])
      + OptField("$ref", s.ref)
      + ListField("allOf", s, s.allOf)
      + ListField("oneOf", s, s.oneOf)
      + ListField("anyOf", s, s.anyOf)
      + OptField("description", s.description)
      + (match s.example
         case None => []
         case Some(v) => [("example", v)]))
  }

  function PropsValue(ghost parent: Schema, entries: seq<(string, Schema)>): (r: seq<(string, Value)>)
    requires parent.properties == Props(entries)
    ensures Keys(r) == Keys(entries)
    decreases parent, 0
  {
    seq(|entries|, i requires 0 <= i < |entries| => (entries[i].0, SchemaValue(entries[i].1)))
  }

  function ListField(key: string, ghost parent: Schema, l: SchemaList): seq<(string, Value)>
    requires l == parent.allOf || l == parent.oneOf || l == parent.anyOf
    decreases parent, 0
  {
    match l
    case NoList => []
    case List(elems) => [(key, Arr(seq(|elems|, i requires 0 <= i < |elems| => SchemaValue(elems[i]))))]
  }

  function NamedSchemasValue(named: seq<(string, Schema)>): (r: seq<(string, Value)>)
    ensures Keys(r) == Keys(named)
  {
    seq(|named|, i requires 0 <= i < |named| => (named[i].0, SchemaValue(named[i].1)))
  }

  function MediaValue(content: seq<(string, MediaType)>): Value {
    Obj(seq(|content|, i requires 0 <= i < |content| =>
      (content[i].0,
       match content[i].1.schema
       case Some(s) => Obj([("schema", SchemaValue(s))])
       case None => Obj([]))))
  }

  function ParameterValue(p: Parameter): Value {
    Obj([("name", Str(p.name)), ("in", Str(p.location))]
        + (match p.required case Some(b) => [("required", Bool(b))] case None => [])
        + [("schema", SchemaValue(p.schema))]
        + OptField("description", p.description))
  }

  function OperationValue(op: Operation): Value {
    Obj(OptField("operationId", op.operationId)
        + OptField("summary", op.summary)
        + OptField("description", op.description)
        + (match op.parameters
           case None => []
           case Some(ps) => [("parameters", Arr(seq(|ps|, i requires 0 <= i < |ps| => ParameterValue(ps[i]))))])
        + (match op.requestBody
           case None => []
           case Some(b) =>
             [("requestBody", Obj([("content", MediaValue(b.content))]
                                  + (match b.required case Some(r) => [("required", Bool(r))] case None => [])
                                  + OptField("description", b.description)))])
        + [("responses", Obj(seq(|op.responses|, i requires 0 <= i < |op.responses| =>
             (op.responses[i].0,
              Obj([("description", Str(op.responses[i].1.description))]
                  + match op.responses[i].1.content
                    case Some(c) => [("content", MediaValue(c))]
                    case None => [])))))]
        + (match op.tags case Some(ts) => [("tags", StringsValue(ts))] case None => []))
  }

  function PathItemValue(item: PathItem): Value {
    Obj(seq(|item|, i requires 0 <= i < |item| =>
      (item[i].0,
       match item[i].1
       case OperationMember(op) => OperationValue(op)
       case OtherMember(raw) => raw)))
  }

  /** The document with the keys of `OpenAPISpec`, in declaration order. */
  function SpecValue(spec: Spec): (v: Value)
    ensures v.Obj?
  {
    Obj([("openapi", Str(spec.openapi)),
         ("info", Obj([("title", Str(spec.info.title)), ("version", Str(spec.info.version))]
                      + OptField("description", spec.info.description)))]
        + (match spec.servers
           case None => []
           case Some(ss) =>
             [("servers", Arr(seq(|ss|, i requires 0 <= i < |ss| =>
                Obj([("url", Str(ss[i].url))] + OptField("description", ss[i].description)))))])
        + [("paths", Obj(seq(|spec.paths|, i requires 0 <= i < |spec.paths| =>
             (spec.paths[i].0, PathItemValue(spec.paths[i].1)))))]
        + (match spec.components
           case None => []
           case Some(c) =>
             [("components", Obj(match c.schemas
                                 case None => []
                                 case Some(named) => [("schemas", Obj(NamedSchemasValue(named)))]))]))
  }
}
