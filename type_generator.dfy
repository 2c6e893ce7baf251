/**
 * The TypeScript type emitter (`TypeGenerator`): the type-expression
 * mapping `schemaToTypeScript`, the four declaration shapes, and the
 * instance whose `generatedTypes` set suppresses every name it has already
 * seen.
 */
module TypeGen {
  import opened Wrappers
  import opened Text
  import opened Values
  import opened OpenApi
  import opened Parser

  const TypesHeader := "// Generated TypeScript types from OpenAPI schema\n\n"

  /** The `?` of an optional property. */
  function Optional(s: Schema, prop: string): string {
    if IsRequired(s, prop) then "" else "?"
  }

  /** One property line, `<indent><name><?>: <type>;`. */
  function PropertyLine(indent: string, s: Schema, prop: string, typ: string): string {
    indent + prop + Optional(s, prop) + ": " + typ + ";\n"
  }

  /** The alternatives of a string enum in a type expression: `'${v}'` for every value. */
  function QuotedValues(vs: seq<Value>): (r: seq<string>)
    ensures |r| == |vs|
    ensures forall i :: 0 <= i < |vs| ==> r[i] == "'" + ToJsString(vs[i]) + "'"
  {
    seq(|vs|, i requires 0 <= i < |vs| => "'" + ToJsString(vs[i]) + "'")
  }

  /** `schemaToTypeScript`. */
  function TsType(s: Schema): (r: string)
    decreases s, 1
  {
    if IsRef(s) then RefTypeName(s.ref.value)
    else if HasType(s, "string") then
      if s.enumValues.Some? then Join(QuotedValues(s.enumValues.value), " | ") else "string"
    else if HasType(s, "number") || HasType(s, "integer") then "number"
    else if HasType(s, "boolean") then "boolean"
    else if HasType(s, "array") then
      if s.items.Some? then TsType(s.items.value) + "[]" else "unknown[]"
    else if HasType(s, "object") then
      match s.properties
      case Props(entries) => "{\n" + Concat(MemberLines(s, entries)) + "  }"
      case NoProps => "Record<string, unknown>"
    else "unknown"
  }

  /** The member lines of an inline object type, indented by four spaces. */
  function MemberLines(parent: Schema, entries: seq<(string, Schema)>): (r: seq<string>)
    requires parent.properties == Props(entries)
    ensures |r| == |entries|
    decreases parent, 0
  {
    seq(|entries|, i requires 0 <= i < |entries| => PropertyLine("    ", parent, entries[i].0, TsType(entries[i].1)))
  }

  /**
   * In the i-th member line of an inline object type, the name follows four
   * spaces and the character after it is `?` exactly when the property is
   * optional.
   */
  lemma MemberOptionalMark(parent: Schema, entries: seq<(string, Schema)>, i: nat)
    requires parent.properties == Props(entries) && i < |entries|
    ensures var prop := entries[i].0;
            var line := MemberLines(parent, entries)[i];
            |line| > 4 + |prop| && line[..4 + |prop|] == "    " + prop
            && (line[4 + |prop|] == '?' <==> !IsRequired(parent, prop))
  {
    var prop := entries[i].0;
    var line := MemberLines(parent, entries)[i];
    var rest := Optional(parent, prop) + ": " + TsType(entries[i].1) + ";\n";
    assert line == ("    " + prop) + rest;
    assert line[4 + |prop|] == rest[0];
  }

  /** `schemaToTypeScript`, whose object case appends one member line per property. */
  method SchemaToTypeScript(s: Schema) returns (r: string)
    ensures r == TsType(s)
    decreases s
  {
    if IsRef(s) {
      var last := LastSegment(s.ref.value);
      r := if last == "" then "unknown" else last;
    } else if HasType(s, "string") {
      r := if s.enumValues.Some? then Join(QuotedValues(s.enumValues.value), " | ") else "string";
    } else if HasType(s, "number") || HasType(s, "integer") {
      r := "number";
    } else if HasType(s, "boolean") {
      r := "boolean";
    } else if HasType(s, "array") {
      if s.items.Some? {
        var item := SchemaToTypeScript(s.items.value);
        r := item + "[]";
      } else {
        r := "unknown[]";
      }
    } else if HasType(s, "object") {
      if s.properties.Props? {
        var entries := s.properties.entries;
        var obj := "{\n";
        var i := 0;
        while i < |entries|
          invariant 0 <= i <= |entries|
          invariant obj == "{\n" + Concat(MemberLines(s, entries)[..i])
        {
          var t := SchemaToTypeScript(entries[i].1);
          obj := obj + PropertyLine("    ", s, entries[i].0, t);
          assert MemberLines(s, entries)[..i + 1][..i] == MemberLines(s, entries)[..i];
          i := i + 1;
        }
        assert MemberLines(s, entries)[..i] == MemberLines(s, entries);
        r := obj + "  }";
      } else {
        r := "Record<string, unknown>";
      }
    } else {
      r := "unknown";
    }
  }

  /** A reference maps to a non-empty name with no `/`, the tail of the reference or `unknown`. */
  lemma RefMapping(s: Schema)
    requires IsRef(s)
    ensures TsType(s) != "" && '/' !in TsType(s)
    ensures TsType(s) == "unknown" || EndsWith(s.ref.value, TsType(s))
  {
  }

  /**
   * Away from references: `string` gives `string`, or the quoted enum
   * values joined by ` | `; `number` and `integer` give `number`;
   * `boolean` gives `boolean`; an array
   * gives its item type with `[]` (or `unknown[]`), an object without
   * properties gives `Record<string, unknown>`, and a missing or unknown
   * type gives `unknown`.
   */
  lemma PrimitiveMapping(s: Schema)
    requires !IsRef(s)
    ensures HasType(s, "string") && s.enumValues.None? ==> TsType(s) == "string"
    ensures HasType(s, "string") && s.enumValues.Some? ==> TsType(s) == Join(QuotedValues(s.enumValues.value), " | ")
    ensures HasType(s, "number") || HasType(s, "integer") ==> TsType(s) == "number"
    ensures HasType(s, "boolean") ==> TsType(s) == "boolean"
    ensures HasType(s, "object") && s.properties.Props? ==>
              TsType(s) == "{\n" + Concat(MemberLines(s, s.properties.entries)) + "  }"
    ensures HasType(s, "array") ==>
              EndsWith(TsType(s), "[]")
              && (s.items.None? ==> TsType(s) == "unknown[]")
              && (s.items.Some? ==> TsType(s)[..|TsType(s)| - 2] == TsType(s.items.value))
    ensures HasType(s, "object") && s.properties.NoProps? ==> TsType(s) == "Record<string, unknown>"
    ensures (forall t :: t in ["string", "number", "integer", "boolean", "array", "object"] ==> !HasType(s, t))
            ==> TsType(s) == "unknown"
  {
    if HasType(s, "array") && s.items.Some? {
      var t := TsType(s.items.value);
      assert TsType(s) == t + "[]";
      assert (t + "[]")[..|t|] == t;
    }
  }

  // ---------------------------------------------------------------------
  // Declarations.

  /** The property lines of an interface, indented by two spaces. */
  function InterfaceLines(s: Schema): (r: seq<string>)
    ensures |r| == |PropEntries(s)|
  {
    var entries := PropEntries(s);
    seq(|entries|, i requires 0 <= i < |entries| => PropertyLine("  ", s, entries[i].0, TsType(entries[i].1)))
  }

  /** `generateObjectInterface`. */
  function ObjectInterface(name: string, s: Schema): string {
    "export interface " + name + " {\n" + Concat(InterfaceLines(s)) + "}\n"
  }

  /** `generateObjectInterface`: one line per property, appended in declaration order. */
  method GenerateObjectInterface(name: string, s: Schema) returns (output: string)
    ensures output == ObjectInterface(name, s)
  {
    output := "export interface " + name + " {\n";
    var head := output;
    if s.properties.Props? {
      var entries := s.properties.entries;
      var i := 0;
      while i < |entries|
        invariant 0 <= i <= |entries|
        invariant output == head + Concat(InterfaceLines(s)[..i])
      {
        var t := SchemaToTypeScript(entries[i].1);
        output := output + PropertyLine("  ", s, entries[i].0, t);
        assert InterfaceLines(s)[..i + 1][..i] == InterfaceLines(s)[..i];
        i := i + 1;
      }
      assert InterfaceLines(s)[..i] == InterfaceLines(s);
    } else {
      assert InterfaceLines(s) == [];
    }
    output := output + "}\n";
  }

  /** In the line of the i-th property, the character after the name is `?` exactly when it is optional. */
  lemma InterfaceOptionalMark(s: Schema, i: nat)
    requires i < |PropEntries(s)|
    ensures var prop := PropEntries(s)[i].0;
            var line := InterfaceLines(s)[i];
            |line| > 2 + |prop| && line[..2 + |prop|] == "  " + prop
            && (line[2 + |prop|] == '?' <==> !IsRequired(s, prop))
  {
    var prop := PropEntries(s)[i].0;
    var line := InterfaceLines(s)[i];
    var rest := Optional(s, prop) + ": " + TsType(PropEntries(s)[i].1) + ";\n";
    assert line == ("  " + prop) + rest;
    assert line[2 + |prop|] == rest[0];
  }

  /** One alternative of `generateEnumType`: a string is quoted, anything else printed with `String`. */
  function EnumAlternative(v: Value): string {
    if v.Str? then "'" + v.s + "'" else ToJsString(v)
  }

  /** The alternatives of `generateEnumType`, one per value and in order. */
  function EnumAlternatives(vs: seq<Value>): (r: seq<string>)
    ensures |r| == |vs|
  {
    seq(|vs|, i requires 0 <= i < |vs| => EnumAlternative(vs[i]))
  }

  /** `generateEnumType`. */
  function EnumDeclaration(name: string, vs: seq<Value>): string {
    "export type " + name + " = " + Join(EnumAlternatives(vs), " | ") + ";\n"
  }

  /** `schema.oneOf || schema.anyOf || []`. */
  function UnionMembers(s: Schema): seq<Schema> {
    match s.oneOf
    case List(elems) => elems
    case NoList => match s.anyOf case List(elems) => elems case NoList => []
  }

  /** `generateUnionType`. */
  function UnionDeclaration(name: string, s: Schema): string {
    var ms := UnionMembers(s);
    "export type " + name + " = " + Join(seq(|ms|, i requires 0 <= i < |ms| => TsType(ms[i])), " | ") + ";\n"
  }

  /** The final alias case of `generateInterface`. */
  function AliasDeclaration(name: string, s: Schema): string {
    "export type " + name + " = " + TsType(s) + ";\n"
  }

  /** A named schema is declared as an interface when `type === 'object' || schema.properties`. */
  predicate IsInterfaceSchema(s: Schema) {
    HasType(s, "object") || s.properties.Props?
  }

  /**
   * What `generateInterface` returns for a name not yet generated. A
   * reference is resolved (which may throw), and then the recursive call on
   * the resolved schema finds the name already marked and returns nothing.
   */
  function Declaration(spec: Spec, name: string, s: Schema): Result<string, RefError> {
    if IsRef(s) then
      match Resolve(SpecValue(spec), s.ref.value)
      case Ok(_) => Ok("")
      case Err(e) => Err(e)
    else if IsInterfaceSchema(s) then Ok(ObjectInterface(name, s))
    else if s.enumValues.Some? then Ok(EnumDeclaration(name, s.enumValues.value))
    else if s.oneOf.List? || s.anyOf.List? then Ok(UnionDeclaration(name, s))
    else Ok(AliasDeclaration(name, s))
  }

  /** `generateInterface` against the names generated so far. */
  function Interface(generated: set<string>, spec: Spec, name: string, s: Schema): Result<string, RefError> {
    if name in generated then Ok("") else Declaration(spec, name, s)
  }

  /** A named reference declares nothing; it fails exactly when its target cannot be resolved. */
  lemma RefDeclaresNothing(spec: Spec, name: string, s: Schema)
    requires IsRef(s)
    ensures Declaration(spec, name, s) == Ok("") <==> Resolve(SpecValue(spec), s.ref.value).Ok?
    ensures Declaration(spec, name, s).Err? ==> Declaration(spec, name, s).error == Resolve(SpecValue(spec), s.ref.value).error
  {
  }

  /** In particular a reference to another named schema declares nothing. */
  lemma NamedRefDeclaresNothing(spec: Spec, named: seq<(string, Schema)>, name: string, target: string, s: Schema)
    requires spec.components == Some(Components(Some(named)))
    requires '/' !in target && Get(named, target).Some?
    requires s.ref == Some("#/components/schemas/" + target)
    ensures Declaration(spec, name, s) == Ok("")
  {
    ResolveNamedSchema(spec, named, target);
  }

  /**
   * The declaration shape follows the priority object, enum, union, alias:
   * an interface exactly for an object schema, a `type` alias otherwise.
   */
  lemma DeclarationShape(spec: Spec, name: string, s: Schema)
    requires !IsRef(s)
    ensures Declaration(spec, name, s).Ok?
    ensures var d := Declaration(spec, name, s).value;
            (StartsWith(d, "export interface " + name + " {\n") <==> IsInterfaceSchema(s))
            && (!IsInterfaceSchema(s) ==> StartsWith(d, "export type " + name + " = "))
  {
    var d := Declaration(spec, name, s).value;
    var ip := "export interface " + name + " {\n";
    var tp := "export type " + name + " = ";
    if IsInterfaceSchema(s) {
      assert d == ip + (Concat(InterfaceLines(s)) + "}\n");
    } else {
      var rest := d[|tp|..];
      assert d == tp + rest;
      assert d[7] == 't' && ip[7] == 'i';
    }
  }

  /** The string values of a `generateEnumType` declaration are quoted, one alternative per value. */
  lemma EnumAlternativesQuoted(vs: seq<Value>, i: nat)
    requires i < |vs|
    ensures vs[i].Str? ==> EnumAlternatives(vs)[i] == "'" + vs[i].s + "'"
    ensures !vs[i].Str? ==> EnumAlternatives(vs)[i] == ToJsString(vs[i])
  {
  }

  // ---------------------------------------------------------------------
  // A whole run over the named schemas.

  /**
   * The outcome of `generateTypes` starting from the names generated so
   * far: the text or the first error, and the names generated afterwards.
   * Every name is marked before its schema is looked at, so a failing
   * reference is marked too; the loop stops at the first error.
   */
  function Run(generated: set<string>, spec: Spec, named: seq<(string, Schema)>): (Result<string, RefError>, set<string>) {
    if |named| == 0 then (Ok(TypesHeader), generated)
    else
      var prev := Run(generated, spec, named[..|named| - 1]);
      if prev.0.Err? then prev
      else
        var (name, s) := named[|named| - 1];
        match Interface(prev.1, spec, name, s)
        case Err(e) => (Err(e), prev.1 + {name})
        case Ok(d) => (Ok(prev.0.value + d + "\n"), prev.1 + {name})
  }

  /** Once the run has failed, the rest of the schemas change nothing. */
  lemma {:induction false} RunStopsAtError(generated: set<string>, spec: Spec, named: seq<(string, Schema)>, k: nat)
    requires k <= |named|
    requires Run(generated, spec, named[..k]).0.Err?
    ensures Run(generated, spec, named) == Run(generated, spec, named[..k])
    decreases |named| - k
  {
    if k < |named| {
      var next := named[..k + 1];
      assert next[..k] == named[..k];
      RunStopsAtError(generated, spec, named, k + 1);
    } else {
      assert named[..k] == named;
    }
  }

  /** One step of the run: the next schema's declaration is appended, or its error ends the run. */
  lemma RunStep(generated: set<string>, spec: Spec, named: seq<(string, Schema)>, i: nat, output: string, seen: set<string>)
    requires i < |named|
    requires Run(generated, spec, named[..i]) == (Ok(output), seen)
    ensures var d := Interface(seen, spec, named[i].0, named[i].1);
            Run(generated, spec, named[..i + 1])
            == (match d case Ok(t) => Ok(output + t + "\n") case Err(e) => Err(e), seen + {named[i].0})
  {
    assert named[..i + 1][..i] == named[..i];
  }

  function NamesOf(named: seq<(string, Schema)>): set<string> {
    set i | 0 <= i < |named| :: named[i].0
  }

  /** A successful run marks every name it went through. */
  lemma {:induction false} RunMarksAll(generated: set<string>, spec: Spec, named: seq<(string, Schema)>)
    requires Run(generated, spec, named).0.Ok?
    ensures Run(generated, spec, named).1 == generated + NamesOf(named)
  {
    if |named| > 0 {
      var init := named[..|named| - 1];
      RunMarksAll(generated, spec, init);
      assert NamesOf(named) == NamesOf(init) + {named[|named| - 1].0} by {
        forall x | x in NamesOf(named) ensures x in NamesOf(init) + {named[|named| - 1].0} {
          var i :| 0 <= i < |named| && named[i].0 == x;
          if i < |named| - 1 { assert init[i] == named[i]; }
        }
      }
    }
  }

  function Newlines(n: nat): (r: string)
    ensures |r| == n
  {
    seq(n, _ => '\n')
  }

  /** When every name has already been generated, the run emits the header and one newline per schema. */
  lemma {:induction false} RunAllSeen(generated: set<string>, spec: Spec, named: seq<(string, Schema)>)
    requires NamesOf(named) <= generated
    ensures Run(generated, spec, named) == (Ok(TypesHeader + Newlines(|named|)), generated)
  {
    if |named| > 0 {
      var init := named[..|named| - 1];
      assert NamesOf(init) <= NamesOf(named) by {
        forall x | x in NamesOf(init) ensures x in NamesOf(named) {
          var i :| 0 <= i < |init| && init[i].0 == x;
          assert named[i] == init[i];
        }
      }
      RunAllSeen(generated, spec, init);
      var (name, sch) := named[|named| - 1];
      assert name in NamesOf(named);
      assert Interface(generated, spec, name, sch) == Ok("");
      assert generated + {name} == generated;
      assert Newlines(|named|) == Newlines(|init|) + "\n";
      assert TypesHeader + Newlines(|init|) + "" + "\n" == TypesHeader + Newlines(|named|);
    } else {
      assert TypesHeader + Newlines(0) == TypesHeader;
    }
  }

  /** A second successful-or-not run after a successful one is the header and newlines only. */
  lemma SecondRunIsEmpty(generated: set<string>, spec: Spec)
    requires Run(generated, spec, NamedSchemas(spec)).0.Ok?
    ensures var after := Run(generated, spec, NamedSchemas(spec)).1;
            Run(after, spec, NamedSchemas(spec)) == (Ok(TypesHeader + Newlines(|NamedSchemas(spec)|)), after)
  {
    RunMarksAll(generated, spec, NamedSchemas(spec));
    RunAllSeen(Run(generated, spec, NamedSchemas(spec)).1, spec, NamedSchemas(spec));
  }

  // ---------------------------------------------------------------------
  // The generator instance.

  class TypeGenerator {
    const spec: Spec
    /** The names `generateInterface` has already seen; never reset. */
    var generatedTypes: set<string>

    constructor(spec: Spec)
      ensures this.spec == spec && generatedTypes == {}
    {
      this.spec := spec;
      generatedTypes := {};
    }

    /**
     * `generateInterface`: nothing for a name already seen; otherwise the
     * name is marked before the schema is dispatched on.
     */
    method GenerateInterface(name: string, schema: Schema) returns (r: Result<string, RefError>)
      modifies this
      ensures generatedTypes == old(generatedTypes) + {name}
      ensures r == Interface(old(generatedTypes), spec, name, schema)
    {
      if name in generatedTypes {
        return Ok("");
      }
      generatedTypes := generatedTypes + {name};
      if IsRef(schema) {
        var resolved := ResolveRef(SpecValue(spec), schema.ref.value);
        if resolved.Err? {
          return Err(resolved.error);
        }
        // The recursive call on the resolved schema finds `name` marked.
        assert name in generatedTypes;
        return Ok("");
      }
      if HasType(schema, "object") || schema.properties.Props? {
        var text := GenerateObjectInterface(name, schema);
        return Ok(text);
      }
      if schema.enumValues.Some? {
        return Ok(EnumDeclaration(name, schema.enumValues.value));
      }
      if schema.oneOf.List? || schema.anyOf.List? {
        return Ok(UnionDeclaration(name, schema));
      }
      var t := SchemaToTypeScript(schema);
      return Ok("export type " + name + " = " + t + ";\n");
    }

    /** `generateTypes`: the header, then one declaration and a newline per named schema. */
    method GenerateTypes() returns (r: Result<string, RefError>)
      modifies this
      ensures (r, generatedTypes) == Run(old(generatedTypes), spec, NamedSchemas(spec))
    {
      ghost var start := generatedTypes;
      var output := TypesHeader;
      var named := NamedSchemas(spec);
      var i := 0;
      while i < |named|
        invariant 0 <= i <= |named|
        invariant Run(start, spec, named[..i]) == (Ok(output), generatedTypes)
      {
        RunStep(start, spec, named, i, output, generatedTypes);
        var d := GenerateInterface(named[i].0, named[i].1);
        if d.Err? {
          RunStopsAtError(start, spec, named, i + 1);
          return Err(d.error);
        }
        output := output + d.value + "\n";
        i := i + 1;
      }
      assert named[..i] == named;
      return Ok(output);
    }
  }

  /**
   * Calling `generateTypes` twice on one instance: when the first call
   * succeeds, the second emits only the header and one newline per schema.
   */
  method GenerateTypesTwice(spec: Spec) returns (first: Result<string, RefError>, second: Result<string, RefError>)
    ensures first == Run({}, spec, NamedSchemas(spec)).0
    ensures first.Ok? ==> second == Ok(TypesHeader + Newlines(|NamedSchemas(spec)|))
  {
    var g := new TypeGenerator(spec);
    first := g.GenerateTypes();
    second := g.GenerateTypes();
    if first.Ok? {
      SecondRunIsEmpty({}, spec);
    }
  }
}
