/**
 * The document loader's format dispatch and the `$ref` resolver
 * (`OpenAPIParser.parse` and `OpenAPIParser.resolveRef`).
 */
module Parser {
  import opened Wrappers
  import opened Text
  import opened Values
  import opened OpenApi

  // ---------------------------------------------------------------------
  // Format dispatch of `parse`.

  datatype Format = Yaml | Json

  const UnsupportedFormat := "Unsupported file format. Please use .json, .yaml, or .yml files."

  /**
   * The deserializer `parse` chooses for a file path. The test is on the
   * path's own suffix, case-sensitively, YAML first.
   */
  function ParseFormat(filePath: string): (r: Result<Format, string>)
    ensures r == Ok(Yaml) <==> EndsWith(filePath, ".yaml") || EndsWith(filePath, ".yml")
    ensures r == Ok(Json) <==> !EndsWith(filePath, ".yaml") && !EndsWith(filePath, ".yml")
                               && EndsWith(filePath, ".json")
    ensures r.Err? ==> r.error == UnsupportedFormat
  {
    if EndsWith(filePath, ".yaml") || EndsWith(filePath, ".yml") then Ok(Yaml)
    else if EndsWith(filePath, ".json") then Ok(Json)
    else Err(UnsupportedFormat)
  }

  /** An upper-case extension is not recognised by `parse`. */
  lemma UpperCaseJsonRejected(stem: string)
    ensures ParseFormat(stem + ".JSON").Err?
  {
    var p := stem + ".JSON";
    assert p[|p| - 5..] == ".JSON";
    assert p[|p| - 4..] == "JSON";
    assert !EndsWith(p, ".json") by { assert p[|p| - 5..] != ".json"; }
    assert !EndsWith(p, ".yaml") by { assert p[|p| - 5..] != ".yaml"; }
    assert !EndsWith(p, ".yml") by { assert p[|p| - 4..] != ".yml"; }
  }

  // ---------------------------------------------------------------------
  // `resolveRef`.

  /** The two exceptions `resolveRef` can raise. */
  datatype RefError =
    | NotFound(ref: string)    // `Reference ${ref} not found`
    | NullAccess(ref: string, part: string, ofUndefined: bool)  // a TypeError: `part` was read from `null` or `undefined`

  function RefErrorMessage(e: RefError): string {
    match e
    case NotFound(ref) => "Reference " + ref + " not found"
    case NullAccess(_, part, ofUndefined) =>
      "Cannot read properties of " + (if ofUndefined then "undefined" else "null") + " (reading '" + part + "')"
  }

  /** A canonical array index: decimal digits without a leading zero. */
  function ArrayIndex(part: string): (r: Option<nat>)
    ensures r.Some? ==> NatToString(r.value) == part
  {
    if |part| > 0 && (forall i :: 0 <= i < |part| ==> IsDigit(part[i])) && (part[0] != '0' || |part| == 1)
    then
      var k := DigitsValue(part);
      assert NatToString(k) == part by { CanonicalDigits(part); }
      Some(k)
    else None
  }

  /** A canonical digit string is the decimal string of its value. */
  lemma {:induction false} CanonicalDigits(part: string)
    requires |part| > 0 && forall i :: 0 <= i < |part| ==> IsDigit(part[i])
    requires part[0] != '0' || |part| == 1
    ensures NatToString(DigitsValue(part)) == part
    decreases |part|
  {
    var init := part[..|part| - 1];
    var d := part[|part| - 1] as int - '0' as int;
    assert IsDigit(part[|part| - 1]);
    if |part| == 1 {
      assert DigitsValue(part) == d;
      assert DigitsValue(part[..0]) == 0;
    } else {
      CanonicalDigits(init);
      var k := DigitsValue(init);
      assert init[0] == part[0];
      assert k > 0;
      assert DigitsValue(part) == k * 10 + d;
      assert (k * 10 + d) / 10 == k && (k * 10 + d) % 10 == d;
      assert part == init + [part[|part| - 1]];
    }
  }

  /**
   * `current[part]` in JavaScript: `None` when the read itself throws
   * (reading from `null` or `undefined`), otherwise the value read, which
   * is `Undefined` when the property does not exist. Inherited properties
   * (`constructor`, `toString`, `map`, ...) are not modelled.
   */
  function Index(current: Value, part: string): (r: Option<Value>)
    ensures r.None? <==> current.Null? || current.Undefined?
    ensures current.Obj? && Get(current.fields, part).Some? ==> r == Get(current.fields, part)
    ensures current.Obj? && part !in Keys(current.fields) ==> r == Some(Undefined)
  {
    match current
    case Undefined => None
    case Null => None
    case Bool(_) => Some(Undefined)
    case Num(_) => Some(Undefined)
    case Str(s) =>
      if part == "length" then Some(Num(|s|))
      else (match ArrayIndex(part)
            case Some(k) => if k < |s| then Some(Str([s[k]])) else Some(Undefined)
            case None => Some(Undefined))
    case Arr(es) =>
      if part == "length" then Some(Num(|es|))
      else (match ArrayIndex(part)
            case Some(k) => if k < |es| then Some(es[k]) else Some(Undefined)
            case None => Some(Undefined))
    case Obj(fields) =>
      match Get(fields, part)
      case Some(v) => Some(v)
      case None => Some(Undefined)
  }

  /** The segments `resolveRef` walks: the first `#/` removed, then split on `/`. */
  function Segments(ref: string): (parts: seq<string>)
    ensures |parts| >= 1
  {
    Split(ReplaceFirst(ref, "#/", ""), '/')
  }

  /** The walk from `current` along `parts`; `ref` is only carried into the error. */
  function Walk(current: Value, parts: seq<string>, ref: string): Result<Value, RefError>
    decreases |parts|
  {
    if |parts| == 0 then Ok(current)
    else
      match Index(current, parts[0])
      case None => Err(NullAccess(ref, parts[0], current.Undefined?))
      case Some(next) => if next == Undefined then Err(NotFound(ref)) else Walk(next, parts[1..], ref)
  }

  /** What `resolveRef(root, ref)` returns or throws. */
  function Resolve(root: Value, ref: string): Result<Value, RefError> {
    Walk(root, Segments(ref), ref)
  }

  /** The loop of `resolveRef`, reassigning `current` segment by segment. */
  method ResolveRef(root: Value, ref: string) returns (r: Result<Value, RefError>)
    ensures r == Resolve(root, ref)
  {
    var parts := Segments(ref);
    var current := root;
    var i := 0;
    while i < |parts|
      invariant 0 <= i <= |parts|
      invariant Walk(root, parts, ref) == Walk(current, parts[i..], ref)
    {
      var next := Index(current, parts[i]);
      if next.None? {
        return Err(NullAccess(ref, parts[i], current.Undefined?));
      }
      if next.value == Undefined {
        return Err(NotFound(ref));
      }
      assert parts[i..][1..] == parts[i + 1..];
      current := next.value;
      i := i + 1;
    }
    r := Ok(current);
  }

  /** Walking a concatenation is walking the first part, then the second from where it ended. */
  lemma {:induction false} WalkCompose(root: Value, a: seq<string>, b: seq<string>, ref: string)
    ensures Walk(root, a + b, ref) ==
            match Walk(root, a, ref)
            case Ok(v) => Walk(v, b, ref)
            case Err(e) => Err(e)
    decreases |a|
  {
    if |a| > 0 {
      assert (a + b)[0] == a[0];
      assert (a + b)[1..] == a[1..] + b;
      match Index(root, a[0])
      case None =>
      case Some(next) =>
        if next != Undefined {
          WalkCompose(next, a[1..], b, ref);
        }
    } else {
      assert a + b == b;
    }
  }

  /**
   * The walk reports `not found` exactly when some segment reads
   * `undefined` from the value reached by the segments before it.
   */
  lemma {:induction false} NotFoundAtFirstMissing(root: Value, parts: seq<string>, ref: string)
    ensures Walk(root, parts, ref) == Err(NotFound(ref)) <==>
            exists k, v :: 0 <= k < |parts| && Walk(root, parts[..k], ref) == Ok(v)
                           && Index(v, parts[k]) == Some(Undefined)
    decreases |parts|
  {
    if |parts| > 0 {
        match Index(root, parts[0])
        case None =>
          assert Walk(root, parts, ref) == Err(NullAccess(ref, parts[0], root.Undefined?));
          forall k | 0 < k < |parts|
            ensures Walk(root, parts[..k], ref) == Err(NullAccess(ref, parts[0], root.Undefined?))
          {
            assert parts[..k][0] == parts[0];
          }
          assert parts[..0] == [];
        case Some(next) =>
          if next == Undefined {
            assert parts[..0] == [];
            assert Walk(root, parts[..0], ref) == Ok(root);
          } else {
            NotFoundAtFirstMissing(next, parts[1..], ref);
            if Walk(root, parts, ref) == Err(NotFound(ref)) {
              var k, v :| 0 <= k < |parts[1..]| && Walk(next, parts[1..][..k], ref) == Ok(v)
                          && Index(v, parts[1..][k]) == Some(Undefined);
              WalkPrefixStep(root, next, parts, ref, k + 1);
              assert parts[1..][k] == parts[k + 1];
            }
            forall k, v | 0 <= k < |parts| && Walk(root, parts[..k], ref) == Ok(v)
                          && Index(v, parts[k]) == Some(Undefined)
              ensures Walk(root, parts, ref) == Err(NotFound(ref))
            {
              if k == 0 {
                assert parts[..k] == [];
              } else {
                WalkPrefixStep(root, next, parts, ref, k);
                assert parts[1..][k - 1] == parts[k];
              }
            }
          }
    }
  }

  /** A prefix of the walk whose first step succeeds continues from that step's value. */
  lemma WalkPrefixStep(root: Value, next: Value, parts: seq<string>, ref: string, k: nat)
    requires 0 < k <= |parts| && Index(root, parts[0]) == Some(next) && next != Undefined
    ensures Walk(root, parts[..k], ref) == Walk(next, parts[1..][..k - 1], ref)
  {
    assert parts[..k][0] == parts[0];
    assert parts[..k][1..] == parts[1..][..k - 1];
  }

  /** `#/` alone names the empty key, which a document never has. */
  lemma HashSlashAloneFails(spec: Spec)
    ensures Resolve(SpecValue(spec), "#/") == Err(NotFound("#/"))
  {
    assert OccursAt("#/", "#/", 0);
    assert ReplaceFirst("#/", "#/", "") == "";
    var fields := SpecValue(spec).fields;
    assert "" !in Keys(fields);
  }

  /** Looking a key up in a record whose values were all mapped. */
  lemma {:induction false} GetMapped(named: seq<(string, Schema)>, name: string)
    ensures Get(NamedSchemasValue(named), name) ==
            match Get(named, name)
            case Some(s) => Some(SchemaValue(s))
            case None => None
  {
    if |named| > 0 {
      var m := NamedSchemasValue(named);
      assert m[0] == (named[0].0, SchemaValue(named[0].1));
      if named[0].0 != name {
        MappedTail(named);
        GetMapped(named[1..], name);
      }
    }
  }

  lemma MappedTail(named: seq<(string, Schema)>)
    requires |named| > 0
    ensures NamedSchemasValue(named[1..]) == NamedSchemasValue(named)[1..]
  {
    var m := NamedSchemasValue(named);
    forall i | 0 <= i < |named| - 1
      ensures NamedSchemasValue(named[1..])[i] == m[1..][i]
    {
      assert named[1..][i] == named[i + 1];
    }
  }

  /** Looking up a key that the first part of a record does not have. */
  lemma {:induction false} GetAppend<V>(a: seq<(string, V)>, b: seq<(string, V)>, key: string)
    requires key !in Keys(a)
    ensures Get(a + b, key) == Get(b, key)
  {
    if |a| > 0 {
      assert (a + b)[1..] == a[1..] + b;
      assert Keys(a)[0] == a[0].0;
      assert forall i :: 0 <= i < |a| - 1 ==> Keys(a[1..])[i] == Keys(a)[i + 1];
      GetAppend(a[1..], b, key);
    } else {
      assert a + b == b;
    }
  }

  /** The `components` member of the document's value. */
  lemma ComponentsOfSpecValue(spec: Spec, named: seq<(string, Schema)>)
    requires spec.components == Some(Components(Some(named)))
    ensures Get(SpecValue(spec).fields, "components") == Some(Obj([("schemas", Obj(NamedSchemasValue(named)))]))
  {
    var fields := SpecValue(spec).fields;
    var comps := [("components", Obj([("schemas", Obj(NamedSchemasValue(named)))]))];
    var before := fields[..|fields| - 1];
    assert fields == before + comps;
    assert forall i :: 0 <= i < |before| ==> before[i].0 in {"openapi", "info", "servers", "paths"};
    assert "components" !in Keys(before);
    GetAppend(before, comps, "components");
  }

  /** Removing the leading `#/` of a reference. */
  lemma StripHash(rest: string)
    ensures ReplaceFirst("#/" + rest, "#/", "") == rest
  {
    var ref := "#/" + rest;
    assert ref[..2] == "#/";
    assert OccursAt(ref, "#/", 0);
    assert ref[..0] + "" + ref[2..] == rest;
  }

  /** The path `components/schemas/<name>` as a join of its three segments. */
  lemma NamedSchemaPath(name: string)
    ensures Join(["components", "schemas", name], "/") == "components/schemas/" + name
  {
    var parts := ["components", "schemas", name];
    assert parts[1..][1..] == [name];
    assert Join(parts[1..], "/") == "schemas" + "/" + name;
    assert Join(parts, "/") == "components" + "/" + ("schemas" + "/" + name);
  }

  lemma SegmentsAfterHash(rest: string)
    ensures Segments("#/" + rest) == Split(rest, '/')
  {
    StripHash(rest);
  }

  lemma NamedSchemaRef(name: string)
    ensures "#/components/schemas/" + name == "#/" + ("components/schemas/" + name)
  {
  }

  lemma NamedSchemaSplit(name: string)
    requires '/' !in name
    ensures Split("components/schemas/" + name, '/') == ["components", "schemas", name]
  {
    var parts := ["components", "schemas", name];
    NamedSchemaPath(name);
    assert forall i :: 0 <= i < |parts| ==> '/' !in parts[i];
    SplitJoin(parts, '/');
  }

  /** The segments of `#/components/schemas/<name>`. */
  lemma NamedSchemaSegments(name: string)
    requires '/' !in name
    ensures Segments("#/components/schemas/" + name) == ["components", "schemas", name]
  {
    NamedSchemaRef(name);
    SegmentsAfterHash("components/schemas/" + name);
    NamedSchemaSplit(name);
  }

  /** Three successful steps of the walk. */
  lemma WalkThree(root: Value, a: string, b: string, c: string, ref: string, v1: Value, v2: Value, v3: Value)
    requires Index(root, a) == Some(v1) && v1 != Undefined
    requires Index(v1, b) == Some(v2) && v2 != Undefined
    requires Index(v2, c) == Some(v3) && v3 != Undefined
    ensures Walk(root, [a, b, c], ref) == Ok(v3)
  {
    assert [a, b, c][0] == a && [a, b, c][1..] == [b, c];
    assert Walk(root, [a, b, c], ref) == Walk(v1, [b, c], ref);
    assert [b, c][0] == b && [b, c][1..] == [c];
    assert Walk(v1, [b, c], ref) == Walk(v2, [c], ref);
    assert [c][1..] == [];
    assert Walk(v2, [c], ref) == Walk(v3, [], ref);
  }

  /**
   * Resolving `#/components/schemas/<name>` gives the named schema of the
   * registry, as indexing `spec.components.schemas[name]` does.
   */
  lemma ResolveNamedSchema(spec: Spec, named: seq<(string, Schema)>, name: string)
    requires spec.components == Some(Components(Some(named)))
    requires '/' !in name
    requires Get(named, name).Some?
    ensures Resolve(SpecValue(spec), "#/components/schemas/" + name) == Ok(SchemaValue(Get(named, name).value))
  {
    var root := SpecValue(spec);
    var ref := "#/components/schemas/" + name;
    var v2 := Obj(NamedSchemasValue(named));
    var v1 := Obj([("schemas", v2)]);
    var v3 := SchemaValue(Get(named, name).value);
    ComponentsOfSpecValue(spec, named);
    ObjIndex(root.fields, "components", v1);
    assert Get([("schemas", v2)], "schemas") == Some(v2);
    ObjIndex(v1.fields, "schemas", v2);
    GetMapped(named, name);
    ObjIndex(v2.fields, name, v3);
    WalkThree(root, "components", "schemas", name, ref, v1, v2, v3);
    NamedSchemaSegments(name);
  }

  /** Indexing a record at one of its keys. */
  lemma ObjIndex(fields: seq<(string, Value)>, key: string, v: Value)
    requires Get(fields, key) == Some(v)
    ensures Index(Obj(fields), key) == Some(v)
  {
  }
}
