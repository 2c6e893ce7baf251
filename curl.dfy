/**
 * The cURL emitter (`CurlGenerator`): randomised example values, command
 * assembly and the plain-text listing. `Math.random()` is the stream
 * `coin`: `coin(k)` says whether the k-th draw passes its threshold
 * (`> 0.3` for an optional property, `> 0.5` for an optional query
 * parameter). Every function threads the position of the next draw.
 */
module Curl {
  import opened Wrappers
  import opened Text
  import opened Values
  import opened OpenApi

  datatype CurlCommand = CurlCommand(endpoint: string, verb: string, curl: string, description: Option<string>)

  /** A result together with the position of the next random draw. */
  datatype Drawn<T> = Drawn(value: T, next: nat)

  const DefaultBaseUrl := "https://api.example.com"
  const Continuation := " \\\n  "
  const JsonContentType := "Content-Type: application/json"

  // ---------------------------------------------------------------------
  // Example values.

  /** The string case of `generateExampleFromSchema`. */
  function StringExample(s: Schema): (r: Value)
    ensures s.enumValues.Some? ==> r == FirstEnum(s.enumValues.value)
    ensures s.enumValues.None? && s.format == Some("email") ==> r == Str("user@example.com")
    ensures s.enumValues.None? && s.format == Some("date") ==> r == Str("2023-12-01")
    ensures s.enumValues.None? && s.format == Some("date-time") ==> r == Str("2023-12-01T10:00:00Z")
    ensures s.enumValues.None? && s.format == Some("uuid") ==> r == Str("123e4567-e89b-12d3-a456-426614174000")
    ensures s.enumValues.None? && s.format !in {Some("email"), Some("date"), Some("date-time"), Some("uuid")} ==>
              r == (if Truthy(ExampleOf(s)) then ExampleOf(s) else Str("example"))
  {
    if s.enumValues.Some? then FirstEnum(s.enumValues.value)
    else if s.format == Some("email") then Str("user@example.com")
    else if s.format == Some("date") then Str("2023-12-01")
    else if s.format == Some("date-time") then Str("2023-12-01T10:00:00Z")
    else if s.format == Some("uuid") then Str("123e4567-e89b-12d3-a456-426614174000")
    else Or(ExampleOf(s), Str("example"))
  }

  /**
   * `generateExampleFromSchema`. `named` is `components.schemas`; every call
   * spends one unit of `fuel`, whose exhaustion stands for the stack
   * overflow of a cyclic reference.
   */
  function Example(named: seq<(string, Schema)>, s: Schema, coin: nat -> bool, pos: nat, fuel: nat)
    : (r: Result<Drawn<Value>, JsException>)
    ensures r.Ok? ==> r.value.next >= pos
    ensures r.Err? ==> r.error == RangeError
    decreases fuel, 0
  {
    if fuel == 0 then Err(RangeError)
    else if IsRef(s) then
      match Get(named, LastSegment(s.ref.value))
      case Some(target) => Example(named, target, coin, pos, fuel - 1)
      case None => Ok(Drawn(Obj([]), pos))
    else if HasType(s, "string") then Ok(Drawn(StringExample(s), pos))
    else if HasType(s, "number") then Ok(Drawn(Or(ExampleOf(s), Num(42)), pos))
    else if HasType(s, "integer") then Ok(Drawn(Or(ExampleOf(s), Num(1)), pos))
    else if HasType(s, "boolean") then Ok(Drawn(if ExampleOf(s) != Undefined then ExampleOf(s) else Bool(true), pos))
    else if HasType(s, "array") then
      match s.items
      case None => Ok(Drawn(Arr([]), pos))
      case Some(item) =>
        var v :- Example(named, item, coin, pos, fuel - 1);
        Ok(Drawn(Arr([v.value]), v.next))
    else if HasType(s, "object") then
      match s.properties
      case NoProps => Ok(Drawn(Obj([]), pos))
      case Props(entries) =>
        var fields :- PropsExample(named, s, entries, coin, pos, fuel - 1);
        Ok(Drawn(Obj(fields.value), fields.next))
    else Ok(Drawn(Null, pos))
  }

  /**
   * The object case: a required property always gets a field; an optional
   * one draws, and gets a field only when the draw passes.
   */
  function PropsExample(named: seq<(string, Schema)>, parent: Schema, entries: seq<(string, Schema)>,
                        coin: nat -> bool, pos: nat, fuel: nat)
    : (r: Result<Drawn<seq<(string, Value)>>, JsException>)
    ensures r.Ok? ==> r.value.next >= pos
    ensures r.Ok? ==> forall k :: k in Keys(r.value.value) ==> k in Keys(entries)
    ensures r.Ok? ==> forall k :: k in Keys(entries) && IsRequired(parent, k) ==> k in Keys(r.value.value)
    ensures r.Err? ==> r.error == RangeError
    decreases fuel, 1, |entries|
  {
    if |entries| == 0 then Ok(Drawn([], pos))
    else
      var init :- PropsExample(named, parent, entries[..|entries| - 1], coin, pos, fuel);
      var (name, prop) := entries[|entries| - 1];
      assert Keys(entries) == Keys(entries[..|entries| - 1]) + [name];
      if IsRequired(parent, name) then
        var v :- Example(named, prop, coin, init.next, fuel);
        assert Keys(init.value + [(name, v.value)]) == Keys(init.value) + [name];
        Ok(Drawn(init.value + [(name, v.value)], v.next))
      else if coin(init.next) then
        var v :- Example(named, prop, coin, init.next + 1, fuel);
        assert Keys(init.value + [(name, v.value)]) == Keys(init.value) + [name];
        Ok(Drawn(init.value + [(name, v.value)], v.next))
      else Ok(Drawn(init.value, init.next + 1))
  }

  /** The property keys that are required, in declaration order. */
  function RequiredKeys(parent: Schema, entries: seq<(string, Schema)>): seq<string> {
    if |entries| == 0 then []
    else RequiredKeys(parent, entries[..|entries| - 1])
         + if IsRequired(parent, entries[|entries| - 1].0) then [entries[|entries| - 1].0] else []
  }

  /** When every draw passes, the object example has every property, in order. */
  lemma {:induction false} AllDrawsPassKeepsEveryProperty(named: seq<(string, Schema)>, parent: Schema, entries: seq<(string, Schema)>,
                                                          coin: nat -> bool, pos: nat, fuel: nat)
    requires forall k :: coin(k)
    requires PropsExample(named, parent, entries, coin, pos, fuel).Ok?
    ensures Keys(PropsExample(named, parent, entries, coin, pos, fuel).value.value) == Keys(entries)
    decreases |entries|
  {
    if |entries| > 0 {
      AllDrawsPassKeepsEveryProperty(named, parent, entries[..|entries| - 1], coin, pos, fuel);
      assert Keys(entries) == Keys(entries[..|entries| - 1]) + [entries[|entries| - 1].0];
    }
  }

  /** When every draw fails, the object example has exactly the required properties, in order. */
  lemma {:induction false} NoDrawPassesKeepsRequired(named: seq<(string, Schema)>, parent: Schema, entries: seq<(string, Schema)>,
                                                     coin: nat -> bool, pos: nat, fuel: nat)
    requires forall k :: !coin(k)
    requires PropsExample(named, parent, entries, coin, pos, fuel).Ok?
    ensures Keys(PropsExample(named, parent, entries, coin, pos, fuel).value.value) == RequiredKeys(parent, entries)
    decreases |entries|
  {
    if |entries| > 0 {
      NoDrawPassesKeepsRequired(named, parent, entries[..|entries| - 1], coin, pos, fuel);
    }
  }

  /** The fields built for a prefix of the properties come first in the whole example. */
  lemma {:induction false} PropsPrefix(named: seq<(string, Schema)>, parent: Schema, entries: seq<(string, Schema)>,
                                       coin: nat -> bool, pos: nat, fuel: nat, j: nat)
    requires j <= |entries|
    requires PropsExample(named, parent, entries, coin, pos, fuel).Ok?
    ensures PropsExample(named, parent, entries[..j], coin, pos, fuel).Ok?
    ensures PropsExample(named, parent, entries[..j], coin, pos, fuel).value.value
            <= PropsExample(named, parent, entries, coin, pos, fuel).value.value
    decreases |entries|
  {
    if j < |entries| {
      var n := |entries| - 1;
      assert entries[..n][..j] == entries[..j];
      PropsPrefix(named, parent, entries[..n], coin, pos, fuel, j);
    } else {
      assert entries[..j] == entries;
    }
  }

  /**
   * The i-th property gets a field exactly when it is required or the draw
   * made when it is reached passes; the fields of the properties before it
   * stay in front.
   */
  lemma PropKeptIffDraw(named: seq<(string, Schema)>, parent: Schema, entries: seq<(string, Schema)>,
                        coin: nat -> bool, pos: nat, fuel: nat, i: nat)
    requires i < |entries|
    requires PropsExample(named, parent, entries, coin, pos, fuel).Ok?
    ensures var before := PropsExample(named, parent, entries[..i], coin, pos, fuel);
            var upTo := PropsExample(named, parent, entries[..i + 1], coin, pos, fuel);
            before.Ok? && upTo.Ok?
            && Keys(upTo.value.value)
               == Keys(before.value.value)
                  + (if IsRequired(parent, entries[i].0) || coin(before.value.next) then [entries[i].0] else [])
            && upTo.value.value <= PropsExample(named, parent, entries, coin, pos, fuel).value.value
  {
    PropsPrefix(named, parent, entries, coin, pos, fuel, i + 1);
    PropsPrefix(named, parent, entries, coin, pos, fuel, i);
    assert entries[..i + 1][..i] == entries[..i];
  }

  /**
   * Example values of the scalar types: a truthy example wins over `42` and
   * `1`, so an example of `0` still gives the default; a boolean keeps any
   * example it has, `false` included. None of them draws.
   */
  lemma ScalarExamples(named: seq<(string, Schema)>, s: Schema, coin: nat -> bool, pos: nat, fuel: nat)
    requires !IsRef(s) && fuel > 0
    ensures HasType(s, "number") ==>
              Example(named, s, coin, pos, fuel) == Ok(Drawn(if Truthy(ExampleOf(s)) then ExampleOf(s) else Num(42), pos))
    ensures HasType(s, "number") && (s.example.None? || s.example == Some(Num(0))) ==> Example(named, s, coin, pos, fuel) == Ok(Drawn(Num(42), pos))
    ensures HasType(s, "integer") ==>
              Example(named, s, coin, pos, fuel) == Ok(Drawn(if Truthy(ExampleOf(s)) then ExampleOf(s) else Num(1), pos))
    ensures HasType(s, "integer") && (s.example.None? || s.example == Some(Num(0))) ==> Example(named, s, coin, pos, fuel) == Ok(Drawn(Num(1), pos))
    ensures HasType(s, "boolean") && s.example.Some? && s.example.value != Undefined ==>
              Example(named, s, coin, pos, fuel) == Ok(Drawn(s.example.value, pos))
    ensures HasType(s, "boolean") && s.example.None? ==> Example(named, s, coin, pos, fuel) == Ok(Drawn(Bool(true), pos))
    ensures HasType(s, "string") ==> Example(named, s, coin, pos, fuel) == Ok(Drawn(StringExample(s), pos))
  {
  }

  /**
   * An array example holds the item's example, or nothing without `items`;
   * a schema of no known type is `null`.
   */
  lemma StructuredExamples(named: seq<(string, Schema)>, s: Schema, coin: nat -> bool, pos: nat, fuel: nat)
    requires !IsRef(s) && fuel > 0
    ensures HasType(s, "array") && s.items.None? ==> Example(named, s, coin, pos, fuel) == Ok(Drawn(Arr([]), pos))
    ensures HasType(s, "array") && s.items.Some? ==>
              var item := Example(named, s.items.value, coin, pos, fuel - 1);
              (item.Ok? ==> Example(named, s, coin, pos, fuel) == Ok(Drawn(Arr([item.value.value]), item.value.next)))
              && (item.Err? ==> Example(named, s, coin, pos, fuel) == Err(item.error))
    ensures s.typ !in {Some("string"), Some("number"), Some("integer"), Some("boolean"), Some("array"), Some("object")} ==>
              Example(named, s, coin, pos, fuel) == Ok(Drawn(Null, pos))
  {
  }

  /** `getExampleValue`: strings as they are, numbers and booleans printed, anything else `example`. */
  function ExampleText(named: seq<(string, Schema)>, s: Schema, coin: nat -> bool, pos: nat, fuel: nat)
    : (r: Result<Drawn<string>, JsException>)
    ensures r.Ok? <==> Example(named, s, coin, pos, fuel).Ok?
    ensures r.Ok? ==> r.value.next == Example(named, s, coin, pos, fuel).value.next
    ensures r.Ok? ==> var v := Example(named, s, coin, pos, fuel).value.value;
                      (v.Str? ==> r.value.value == v.s)
                      && (v.Num? || v.Bool? ==> r.value.value == ToJsString(v))
                      && (!(v.Str? || v.Num? || v.Bool?) ==> r.value.value == "example")
  {
    var v :- Example(named, s, coin, pos, fuel);
    Ok(Drawn(match v.value
             case Str(t) => t
             case Num(_) => ToJsString(v.value)
             case Bool(_) => ToJsString(v.value)
             case _ => "example",
             v.next))
  }

  // ---------------------------------------------------------------------
  // The parts of a command.

  /** The path with the first `{name}` of each path parameter replaced by its example. */
  function SubstitutePath(named: seq<(string, Schema)>, path: string, ps: seq<Parameter>, coin: nat -> bool, pos: nat, fuel: nat)
    : (r: Result<Drawn<string>, JsException>)
    ensures r.Ok? ==> r.value.next >= pos
    ensures |ps| == 0 ==> r == Ok(Drawn(path, pos))
  {
    if |ps| == 0 then Ok(Drawn(path, pos))
    else
      var init :- SubstitutePath(named, path, ps[..|ps| - 1], coin, pos, fuel);
      var p := ps[|ps| - 1];
      var value :- ExampleText(named, p.schema, coin, init.next, fuel);
      Ok(Drawn(ReplaceFirst(init.value, Placeholder(p), value.value), value.next))
  }

  /** The placeholder of a path parameter. */
  function Placeholder(p: Parameter): string {
    "{" + p.name + "}"
  }

  /** One path parameter: its first placeholder gives way to its example text. */
  lemma SubstituteOne(named: seq<(string, Schema)>, path: string, p: Parameter, coin: nat -> bool, pos: nat, fuel: nat,
                      i: nat)
    requires OccursAt(path, Placeholder(p), i) && forall j: nat :: j < i ==> !OccursAt(path, Placeholder(p), j)
    requires ExampleText(named, p.schema, coin, pos, fuel).Ok?
    ensures var t := ExampleText(named, p.schema, coin, pos, fuel).value;
            SubstitutePath(named, path, [p], coin, pos, fuel)
            == Ok(Drawn(path[..i] + t.value + path[i + |p.name| + 2..], t.next))
  {
    assert [p][..0] == [];
  }

  /** A path holding none of the parameters' placeholders comes back unchanged. */
  lemma {:induction false} SubstituteWithoutPlaceholders(named: seq<(string, Schema)>, path: string, ps: seq<Parameter>,
                                                         coin: nat -> bool, pos: nat, fuel: nat)
    requires forall p, j: nat :: p in ps ==> !OccursAt(path, Placeholder(p), j)
    requires SubstitutePath(named, path, ps, coin, pos, fuel).Ok?
    ensures SubstitutePath(named, path, ps, coin, pos, fuel).value.value == path
  {
    if |ps| > 0 {
      var n := |ps| - 1;
      assert forall p :: p in ps[..n] ==> p in ps;
      SubstituteWithoutPlaceholders(named, path, ps[..n], coin, pos, fuel);
      assert ps[n] in ps;
    }
  }

  /** An example of one parameter that raises makes the whole substitution raise the same error. */
  lemma {:induction false} SubstitutePathErr(named: seq<(string, Schema)>, path: string, ps: seq<Parameter>,
                                             coin: nat -> bool, pos: nat, fuel: nat, j: nat)
    requires j <= |ps|
    requires SubstitutePath(named, path, ps[..j], coin, pos, fuel).Err?
    ensures SubstitutePath(named, path, ps, coin, pos, fuel)
            == Err(SubstitutePath(named, path, ps[..j], coin, pos, fuel).error)
    decreases |ps| - j
  {
    if j < |ps| {
      var upTo := ps[..j + 1];
      assert upTo[..|upTo| - 1] == ps[..j];
      SubstitutePathErrStep(named, path, upTo, coin, pos, fuel);
      SubstitutePathErr(named, path, ps, coin, pos, fuel, j + 1);
    } else {
      assert ps[..j] == ps;
    }
  }

  /** An error before the last path parameter is the error of the whole substitution. */
  lemma SubstitutePathErrStep(named: seq<(string, Schema)>, path: string, ps: seq<Parameter>,
                              coin: nat -> bool, pos: nat, fuel: nat)
    requires |ps| > 0 && SubstitutePath(named, path, ps[..|ps| - 1], coin, pos, fuel).Err?
    ensures SubstitutePath(named, path, ps, coin, pos, fuel)
            == Err(SubstitutePath(named, path, ps[..|ps| - 1], coin, pos, fuel).error)
  {
  }

  /** The `forEach` that rewrites `processedPath` once per path parameter. */
  method SubstituteParams(named: seq<(string, Schema)>, path: string, ps: seq<Parameter>, coin: nat -> bool,
                          pos: nat, fuel: nat)
    returns (r: Result<Drawn<string>, JsException>)
    ensures r == SubstitutePath(named, path, ps, coin, pos, fuel)
  {
    var processed := Drawn(path, pos);
    var i := 0;
    while i < |ps|
      invariant 0 <= i <= |ps|
      invariant SubstitutePath(named, path, ps[..i], coin, pos, fuel) == Ok(processed)
    {
      assert ps[..i + 1][..i] == ps[..i];
      var value := ExampleText(named, ps[i].schema, coin, processed.next, fuel);
      if value.Err? {
        SubstitutePathErr(named, path, ps, coin, pos, fuel, i + 1);
        return Err(value.error);
      }
      processed := Drawn(ReplaceFirst(processed.value, Placeholder(ps[i]), value.value.value), value.value.next);
      i := i + 1;
    }
    assert ps[..i] == ps;
    r := Ok(processed);
  }

  /** The `filter(p => p.required || Math.random() > 0.5)` over the query parameters. */
  function KeptQueries(ps: seq<Parameter>, coin: nat -> bool, pos: nat): (r: Drawn<seq<Parameter>>)
    ensures r.next >= pos
    ensures forall p :: p in r.value ==> p in ps
    ensures forall p :: p in ps && ParamRequired(p) ==> p in r.value
  {
    if |ps| == 0 then Drawn([], pos)
    else
      var init := KeptQueries(ps[..|ps| - 1], coin, pos);
      var p := ps[|ps| - 1];
      assert ps == ps[..|ps| - 1] + [p];
      if ParamRequired(p) then Drawn(init.value + [p], init.next)
      else if coin(init.next) then Drawn(init.value + [p], init.next + 1)
      else Drawn(init.value, init.next + 1)
  }

  function RequiredParams(ps: seq<Parameter>): (r: seq<Parameter>)
    ensures |r| <= |ps|
  {
    if |ps| == 0 then []
    else RequiredParams(ps[..|ps| - 1]) + if ParamRequired(ps[|ps| - 1]) then [ps[|ps| - 1]] else []
  }

  /**
   * The filter keeps every query parameter when every draw passes, and only
   * the required ones when every draw fails; it draws once per optional
   * parameter.
   */
  lemma KeptQueriesBounds(ps: seq<Parameter>, coin: nat -> bool, pos: nat)
    ensures (forall k :: coin(k)) ==> KeptQueries(ps, coin, pos).value == ps
    ensures (forall k :: !coin(k)) ==> KeptQueries(ps, coin, pos).value == RequiredParams(ps)
    ensures KeptQueries(ps, coin, pos).next == pos + |ps| - |RequiredParams(ps)|
  {
    if forall k :: coin(k) {
      KeptAllPass(ps, coin, pos);
    }
    if forall k :: !coin(k) {
      KeptNonePass(ps, coin, pos);
    }
    KeptDraws(ps, coin, pos);
  }

  lemma {:induction false} KeptAllPass(ps: seq<Parameter>, coin: nat -> bool, pos: nat)
    requires forall k :: coin(k)
    ensures KeptQueries(ps, coin, pos).value == ps
  {
    if |ps| > 0 {
      KeptAllPass(ps[..|ps| - 1], coin, pos);
      KeptStep(ps, coin, pos);
      assert ps == ps[..|ps| - 1] + [ps[|ps| - 1]];
    }
  }

  lemma {:induction false} KeptNonePass(ps: seq<Parameter>, coin: nat -> bool, pos: nat)
    requires forall k :: !coin(k)
    ensures KeptQueries(ps, coin, pos).value == RequiredParams(ps)
  {
    if |ps| > 0 {
      KeptNonePass(ps[..|ps| - 1], coin, pos);
      KeptStep(ps, coin, pos);
    }
  }

  lemma {:induction false} KeptDraws(ps: seq<Parameter>, coin: nat -> bool, pos: nat)
    ensures KeptQueries(ps, coin, pos).next == pos + |ps| - |RequiredParams(ps)|
  {
    if |ps| > 0 {
      KeptDraws(ps[..|ps| - 1], coin, pos);
      KeptStep(ps, coin, pos);
    }
  }

  /** One unfolding of the filter: the parameters before the last, then the last one if it stays. */
  lemma KeptStep(ps: seq<Parameter>, coin: nat -> bool, pos: nat)
    requires |ps| > 0
    ensures var k := KeptQueries(ps[..|ps| - 1], coin, pos);
            var p := ps[|ps| - 1];
            KeptQueries(ps, coin, pos)
            == (if ParamRequired(p) then Drawn(k.value + [p], k.next)
                else if coin(k.next) then Drawn(k.value + [p], k.next + 1)
                else Drawn(k.value, k.next + 1))
            && RequiredParams(ps) == RequiredParams(ps[..|ps| - 1]) + (if ParamRequired(p) then [p] else [])
  {
  }

  /** The parameters kept from a prefix come first among those kept from the whole list. */
  lemma {:induction false} KeptPrefix(ps: seq<Parameter>, coin: nat -> bool, pos: nat, j: nat)
    requires j <= |ps|
    ensures KeptQueries(ps[..j], coin, pos).value <= KeptQueries(ps, coin, pos).value
    decreases |ps|
  {
    if j < |ps| {
      var n := |ps| - 1;
      assert ps[..n][..j] == ps[..j];
      KeptPrefix(ps[..n], coin, pos, j);
    } else {
      assert ps[..j] == ps;
    }
  }

  /**
   * The i-th query parameter is kept exactly when it is required or its own
   * draw passes; that draw comes right after one draw for each optional
   * parameter before it. `KeptPrefix` puts what is kept up to it in front of
   * the rest.
   */
  lemma KeptQueryIffDraw(ps: seq<Parameter>, coin: nat -> bool, pos: nat, i: nat)
    requires i < |ps|
    ensures var before := KeptQueries(ps[..i], coin, pos).value;
            var draw := pos + (i - |RequiredParams(ps[..i])|);
            KeptQueries(ps[..i + 1], coin, pos).value
            == before + (if ParamRequired(ps[i]) || coin(draw) then [ps[i]] else [])
  {
    var before := ps[..i];
    var upTo := ps[..i + 1];
    assert upTo[..|upTo| - 1] == before && upTo[|upTo| - 1] == ps[i];
    KeptDraws(before, coin, pos);
    KeptStep(upTo, coin, pos);
  }

  /** `name=encodeURIComponent(example)` for each kept query parameter. */
  function QueryPairs(named: seq<(string, Schema)>, ps: seq<Parameter>, encode: string -> string,
                      coin: nat -> bool, pos: nat, fuel: nat)
    : (r: Result<Drawn<seq<string>>, JsException>)
    ensures r.Ok? ==> r.value.next >= pos && |r.value.value| == |ps|
    ensures r.Ok? ==> forall i :: 0 <= i < |ps| ==> StartsWith(r.value.value[i], ps[i].name + "=")
  {
    if |ps| == 0 then Ok(Drawn([], pos))
    else
      var init :- QueryPairs(named, ps[..|ps| - 1], encode, coin, pos, fuel);
      var p := ps[|ps| - 1];
      var value :- ExampleText(named, p.schema, coin, init.next, fuel);
      assert StartsWith(p.name + "=" + encode(value.value), p.name + "=");
      Ok(Drawn(init.value + [p.name + "=" + encode(value.value)], value.next))
  }

  /** The i-th pair of `out` is the i-th parameter's name, `=`, and its encoded example text. */
  predicate QueryPairIs(named: seq<(string, Schema)>, ps: seq<Parameter>, encode: string -> string, coin: nat -> bool,
                        pos: nat, fuel: nat, out: seq<string>, i: nat)
    requires i < |ps| && i < |out|
  {
    var before := QueryPairs(named, ps[..i], encode, coin, pos, fuel);
    before.Ok?
    && var t := ExampleText(named, ps[i].schema, coin, before.value.next, fuel);
       t.Ok? && out[i] == ps[i].name + "=" + encode(t.value.value)
  }

  /** One unfolding of `QueryPairs`: the pairs before the last, then the last one. */
  lemma QueryPairsStep(named: seq<(string, Schema)>, ps: seq<Parameter>, encode: string -> string,
                       coin: nat -> bool, pos: nat, fuel: nat)
    requires |ps| > 0 && QueryPairs(named, ps, encode, coin, pos, fuel).Ok?
    ensures var n := |ps| - 1;
            var init := QueryPairs(named, ps[..n], encode, coin, pos, fuel);
            init.Ok?
            && var t := ExampleText(named, ps[n].schema, coin, init.value.next, fuel);
               t.Ok?
               && QueryPairs(named, ps, encode, coin, pos, fuel).value.value
                  == init.value.value + [ps[n].name + "=" + encode(t.value.value)]
  {
  }

  /**
   * The i-th pair is the i-th parameter's name, `=`, and its encoded example
   * text, drawn after the pairs before it.
   */
  lemma {:induction false} QueryPairsElements(named: seq<(string, Schema)>, ps: seq<Parameter>, encode: string -> string,
                                              coin: nat -> bool, pos: nat, fuel: nat)
    requires QueryPairs(named, ps, encode, coin, pos, fuel).Ok?
    ensures forall i :: 0 <= i < |ps| ==> QueryPairIs(named, ps, encode, coin, pos, fuel, QueryPairs(named, ps, encode, coin, pos, fuel).value.value, i)
  {
    if |ps| > 0 {
      var n := |ps| - 1;
      var all := QueryPairs(named, ps, encode, coin, pos, fuel).value.value;
      var init := QueryPairs(named, ps[..n], encode, coin, pos, fuel).value.value;
      QueryPairsElements(named, ps[..n], encode, coin, pos, fuel);
      QueryPairsStep(named, ps, encode, coin, pos, fuel);
      assert all[..n] == init;
      forall i | 0 <= i < |ps|
        ensures QueryPairIs(named, ps, encode, coin, pos, fuel, all, i)
      {
        if i < n {
          assert QueryPairIs(named, ps[..n], encode, coin, pos, fuel, init, i);
          assert ps[..n][..i] == ps[..i] && ps[..n][i] == ps[i] && all[i] == init[i];
        } else {
          assert i == n;
        }
      }
    }
  }

  /** `name: example` for each header parameter. */
  function HeaderLines(named: seq<(string, Schema)>, ps: seq<Parameter>, coin: nat -> bool, pos: nat, fuel: nat)
    : (r: Result<Drawn<seq<string>>, JsException>)
    ensures r.Ok? ==> r.value.next >= pos && |r.value.value| == |ps|
  {
    if |ps| == 0 then Ok(Drawn([], pos))
    else
      var init :- HeaderLines(named, ps[..|ps| - 1], coin, pos, fuel);
      var p := ps[|ps| - 1];
      var value :- ExampleText(named, p.schema, coin, init.next, fuel);
      Ok(Drawn(init.value + [p.name + ": " + value.value], value.next))
  }

  /** The i-th line of `out` is the i-th parameter's name, `: `, and its example text. */
  predicate HeaderLineIs(named: seq<(string, Schema)>, ps: seq<Parameter>, coin: nat -> bool, pos: nat, fuel: nat,
                         out: seq<string>, i: nat)
    requires i < |ps| && i < |out|
  {
    var before := HeaderLines(named, ps[..i], coin, pos, fuel);
    before.Ok?
    && var t := ExampleText(named, ps[i].schema, coin, before.value.next, fuel);
       t.Ok? && out[i] == ps[i].name + ": " + t.value.value
  }

  /** The i-th header line is the i-th parameter's name, `: `, and its example text. */
  lemma {:induction false} HeaderLinesElements(named: seq<(string, Schema)>, ps: seq<Parameter>, coin: nat -> bool,
                                               pos: nat, fuel: nat)
    requires HeaderLines(named, ps, coin, pos, fuel).Ok?
    ensures forall i :: 0 <= i < |ps| ==> HeaderLineIs(named, ps, coin, pos, fuel, HeaderLines(named, ps, coin, pos, fuel).value.value, i)
  {
    if |ps| > 0 {
      var n := |ps| - 1;
      var all := HeaderLines(named, ps, coin, pos, fuel).value.value;
      var init := HeaderLines(named, ps[..n], coin, pos, fuel).value.value;
      HeaderLinesElements(named, ps[..n], coin, pos, fuel);
      assert all[..n] == init;
      forall i | 0 <= i < |ps|
        ensures HeaderLineIs(named, ps, coin, pos, fuel, all, i)
      {
        if i < n {
          assert HeaderLineIs(named, ps[..n], coin, pos, fuel, init, i);
          assert ps[..n][..i] == ps[..i] && ps[..n][i] == ps[i] && all[i] == init[i];
        } else {
          assert i == n;
        }
      }
    }
  }

  /** An example of one header parameter that raises makes the whole list raise the same error. */
  lemma {:induction false} HeaderLinesErr(named: seq<(string, Schema)>, ps: seq<Parameter>, coin: nat -> bool,
                                          pos: nat, fuel: nat, j: nat)
    requires j <= |ps|
    requires HeaderLines(named, ps[..j], coin, pos, fuel).Err?
    ensures HeaderLines(named, ps, coin, pos, fuel) == Err(HeaderLines(named, ps[..j], coin, pos, fuel).error)
    decreases |ps|
  {
    if j < |ps| {
      var n := |ps| - 1;
      assert ps[..n][..j] == ps[..j];
      HeaderLinesErr(named, ps[..n], coin, pos, fuel, j);
    } else {
      assert ps[..j] == ps;
    }
  }

  /** The `forEach` that pushes one `name: example` line per header parameter. */
  method CollectHeaders(named: seq<(string, Schema)>, ps: seq<Parameter>, coin: nat -> bool, pos: nat, fuel: nat)
    returns (r: Result<Drawn<seq<string>>, JsException>)
    ensures r == HeaderLines(named, ps, coin, pos, fuel)
  {
    var headers := Drawn([], pos);
    var i := 0;
    while i < |ps|
      invariant 0 <= i <= |ps|
      invariant HeaderLines(named, ps[..i], coin, pos, fuel) == Ok(headers)
    {
      assert ps[..i + 1][..i] == ps[..i];
      var value := ExampleText(named, ps[i].schema, coin, headers.next, fuel);
      if value.Err? {
        HeaderLinesErr(named, ps, coin, pos, fuel, i + 1);
        return Err(value.error);
      }
      headers := Drawn(headers.value + [ps[i].name + ": " + value.value.value], value.value.next);
      i := i + 1;
    }
    assert ps[..i] == ps;
    r := Ok(headers);
  }

  /**
   * The JSON body: `None` unless `application/json` is among the content
   * types; `stringify` is `JSON.stringify`. A JSON entry without a schema
   * raises a `TypeError`.
   */
  function BodyJson(named: seq<(string, Schema)>, op: Operation, stringify: Value -> string,
                    coin: nat -> bool, pos: nat, fuel: nat)
    : (r: Result<Drawn<Option<string>>, JsException>)
    ensures r.Ok? ==> r.value.next >= pos
    ensures r.Ok? ==> (r.value.value.Some? <==> op.requestBody.Some? && "application/json" in Keys(op.requestBody.value.content))
  {
    if op.requestBody.Some? && "application/json" in Keys(op.requestBody.value.content) then
      match Get(op.requestBody.value.content, "application/json").value.schema
      case None => Err(TypeError)
      case Some(s) =>
        var v :- Example(named, s, coin, pos, fuel);
        Ok(Drawn(Some(stringify(v.value)), v.next))
    else Ok(Drawn(None, pos))
  }

  /** The URL: base, substituted path, and `?` with the query string when that is non-empty. */
  function CommandUrl(baseUrl: string, path: string, queryString: string): string {
    baseUrl + path + if queryString != "" then "?" + queryString else ""
  }

  /** `-H "header"` for each header. */
  function HeaderFlags(headers: seq<string>): (r: seq<string>)
    ensures |r| == |headers|
    ensures forall i :: 0 <= i < |headers| ==> r[i] == "-H \"" + headers[i] + "\""
  {
    seq(|headers|, i requires 0 <= i < |headers| => "-H \"" + headers[i] + "\"")
  }

  /** The `forEach` that pushes one `-H` flag per header onto the command's parts. */
  method PushHeaderFlags(parts: seq<string>, headers: seq<string>) returns (r: seq<string>)
    ensures r == parts + HeaderFlags(headers)
  {
    r := parts;
    var i := 0;
    while i < |headers|
      invariant 0 <= i <= |headers|
      invariant r == parts + HeaderFlags(headers[..i])
    {
      assert HeaderFlags(headers[..i + 1]) == HeaderFlags(headers[..i]) + ["-H \"" + headers[i] + "\""];
      r := r + ["-H \"" + headers[i] + "\""];
      i := i + 1;
    }
    assert headers[..i] == headers;
  }

  /** The command's parts; `--data` is pushed before the headers. */
  function CommandParts(verb: string, body: Option<string>, headers: seq<string>, url: string): seq<string> {
    ["curl -X " + Upper(verb)]
    + (if body.Some? then ["--data '" + body.value + "'"] else [])
    + HeaderFlags(headers)
    + ["\"" + url + "\""]
  }

  /** The name a command is listed under: the upper-cased method, a space, then the path. */
  function EndpointName(e: Endpoint): string {
    Upper(e.verb) + " " + e.path
  }

  /** `generateCurlCommand`, in its order of evaluation and of draws. */
  function Command(named: seq<(string, Schema)>, baseUrl: string, e: Endpoint, encode: string -> string,
                   stringify: Value -> string, coin: nat -> bool, pos: nat, fuel: nat)
    : (r: Result<Drawn<CurlCommand>, JsException>)
    ensures r.Ok? ==> r.value.next >= pos
    ensures r.Ok? ==> r.value.value.endpoint == EndpointName(e) && r.value.value.verb == Upper(e.verb)
  {
    var path :- SubstitutePath(named, e.path, ParamsIn(e.op, "path"), coin, pos, fuel);
    var kept := KeptQueries(ParamsIn(e.op, "query"), coin, path.next);
    var pairs :- QueryPairs(named, kept.value, encode, coin, kept.next, fuel);
    var url := CommandUrl(baseUrl, path.value, Join(pairs.value, "&"));
    var headers :- HeaderLines(named, ParamsIn(e.op, "header"), coin, pairs.next, fuel);
    var body :- BodyJson(named, e.op, stringify, coin, headers.next, fuel);
    var allHeaders := headers.value + if body.value.Some? then [JsonContentType] else [];
    Ok(Drawn(CurlCommand(EndpointName(e), Upper(e.verb),
                         Join(CommandParts(e.verb, body.value, allHeaders, url), Continuation),
                         OrElse(e.op.summary, e.op.description)),
             body.next))
  }

  /**
   * The pushes onto `curlParts`: the `--data` part and the `Content-Type`
   * header when there is a JSON body, one `-H` per header, then the URL.
   */
  method PushParts(verb: string, body: Option<string>, headers: seq<string>, url: string) returns (parts: seq<string>)
    ensures parts == CommandParts(verb, body, headers + if body.Some? then [JsonContentType] else [], url)
  {
    parts := ["curl -X " + Upper(verb)];
    var allHeaders := headers;
    if body.Some? {
      allHeaders := allHeaders + [JsonContentType];
      parts := parts + ["--data '" + body.value + "'"];
    }
    parts := PushHeaderFlags(parts, allHeaders);
    parts := parts + ["\"" + url + "\""];
  }

  /**
   * `generateCurlCommand` step by step: the path loop, the query string, the
   * header loop, the body, then the parts pushed in order.
   */
  method GenerateCommand(named: seq<(string, Schema)>, baseUrl: string, e: Endpoint, encode: string -> string,
                         stringify: Value -> string, coin: nat -> bool, pos: nat, fuel: nat)
    returns (r: Result<Drawn<CurlCommand>, JsException>)
    ensures r == Command(named, baseUrl, e, encode, stringify, coin, pos, fuel)
  {
    var path :- SubstituteParams(named, e.path, ParamsIn(e.op, "path"), coin, pos, fuel);
    var kept := KeptQueries(ParamsIn(e.op, "query"), coin, path.next);
    var pairs :- QueryPairs(named, kept.value, encode, coin, kept.next, fuel);
    var url := CommandUrl(baseUrl, path.value, Join(pairs.value, "&"));
    var headers :- CollectHeaders(named, ParamsIn(e.op, "header"), coin, pairs.next, fuel);
    var body :- BodyJson(named, e.op, stringify, coin, headers.next, fuel);
    var parts := PushParts(e.verb, body.value, headers.value, url);
    r := Ok(Drawn(CurlCommand(EndpointName(e), Upper(e.verb), Join(parts, Continuation),
                              OrElse(e.op.summary, e.op.description)),
                  body.next));
  }

  /** The URL carries a `?` exactly when some query parameter was kept. */
  lemma QueryMarkIffKept(baseUrl: string, path: string, pairs: seq<string>, ps: seq<Parameter>)
    requires |pairs| == |ps|
    requires forall i :: 0 <= i < |ps| ==> StartsWith(pairs[i], ps[i].name + "=")
    ensures |ps| == 0 ==> CommandUrl(baseUrl, path, Join(pairs, "&")) == baseUrl + path
    ensures |ps| > 0 ==> CommandUrl(baseUrl, path, Join(pairs, "&")) == baseUrl + path + "?" + Join(pairs, "&")
  {
    if |ps| > 0 {
      JoinEnds(pairs, "&");
      assert |pairs[0]| > 0;
    }
  }

  /**
   * A command starts with `curl -X VERB`, ends with the quoted URL, and
   * joins its parts with a backslash-newline continuation.
   */
  lemma CommandEnds(verb: string, body: Option<string>, headers: seq<string>, url: string)
    ensures StartsWith(Join(CommandParts(verb, body, headers, url), Continuation), "curl -X " + Upper(verb))
    ensures EndsWith(Join(CommandParts(verb, body, headers, url), Continuation), "\"" + url + "\"")
  {
    var parts := CommandParts(verb, body, headers, url);
    JoinEnds(parts, Continuation);
  }

  /** A JSON body adds the `Content-Type` header as the last `-H`, right before the URL. */
  lemma JsonBodyHasContentType(verb: string, json: string, headers: seq<string>, url: string)
    ensures var parts := CommandParts(verb, Some(json), headers + [JsonContentType], url);
            parts[1] == "--data '" + json + "'" && parts[|parts| - 2] == "-H \"" + JsonContentType + "\""
  {
  }

  /** `generateCurls`: every operation, drawing from one shared stream. */
  function Curls(named: seq<(string, Schema)>, baseUrl: string, endpoints: seq<Endpoint>, encode: string -> string,
                 stringify: Value -> string, coin: nat -> bool, pos: nat, fuel: nat)
    : (r: Result<Drawn<seq<CurlCommand>>, JsException>)
    ensures r.Ok? ==> |r.value.value| == |endpoints|
  {
    if |endpoints| == 0 then Ok(Drawn([], pos))
    else
      var init :- Curls(named, baseUrl, endpoints[..|endpoints| - 1], encode, stringify, coin, pos, fuel);
      var c :- Command(named, baseUrl, endpoints[|endpoints| - 1], encode, stringify, coin, init.next, fuel);
      Ok(Drawn(init.value + [c.value], c.next))
  }

  /** The k-th command is named after the k-th operation, `METHOD path`. */
  lemma {:induction false} CurlsEndpoints(named: seq<(string, Schema)>, baseUrl: string, endpoints: seq<Endpoint>,
                                          encode: string -> string, stringify: Value -> string, coin: nat -> bool,
                                          pos: nat, fuel: nat)
    requires Curls(named, baseUrl, endpoints, encode, stringify, coin, pos, fuel).Ok?
    ensures var cs := Curls(named, baseUrl, endpoints, encode, stringify, coin, pos, fuel).value.value;
            forall i :: 0 <= i < |endpoints| ==> cs[i].endpoint == EndpointName(endpoints[i])
  {
    if |endpoints| > 0 {
      var n := |endpoints| - 1;
      var prefix := endpoints[..n];
      CurlsSnoc(named, baseUrl, endpoints, encode, stringify, coin, pos, fuel);
      CurlsEndpoints(named, baseUrl, prefix, encode, stringify, coin, pos, fuel);
      var init := Curls(named, baseUrl, prefix, encode, stringify, coin, pos, fuel).value;
      var c := Command(named, baseUrl, endpoints[n], encode, stringify, coin, init.next, fuel).value.value;
      var cs := Curls(named, baseUrl, endpoints, encode, stringify, coin, pos, fuel).value.value;
      assert cs == init.value + [c];
      forall i | 0 <= i < |endpoints|
        ensures cs[i].endpoint == EndpointName(endpoints[i])
      {
        if i < n {
          assert cs[i] == init.value[i] && prefix[i] == endpoints[i];
        } else {
          assert cs[i] == c;
        }
      }
    }
  }

  /** One unfolding of `Curls`: the commands before the last, then the last one. */
  lemma CurlsSnoc(named: seq<(string, Schema)>, baseUrl: string, endpoints: seq<Endpoint>,
                  encode: string -> string, stringify: Value -> string, coin: nat -> bool, pos: nat, fuel: nat)
    requires |endpoints| > 0
    requires Curls(named, baseUrl, endpoints, encode, stringify, coin, pos, fuel).Ok?
    ensures var init := Curls(named, baseUrl, endpoints[..|endpoints| - 1], encode, stringify, coin, pos, fuel);
            init.Ok?
            && var c := Command(named, baseUrl, endpoints[|endpoints| - 1], encode, stringify, coin, init.value.next, fuel);
               c.Ok?
               && Curls(named, baseUrl, endpoints, encode, stringify, coin, pos, fuel).value.value
                  == init.value.value + [c.value.value]
  {
  }

  /** `generateCurls` of a specification. */
  function SpecCurls(spec: Spec, encode: string -> string, stringify: Value -> string, coin: nat -> bool, fuel: nat)
    : Result<Drawn<seq<CurlCommand>>, JsException>
  {
    Curls(NamedSchemas(spec), BaseUrl(spec, DefaultBaseUrl), Endpoints(spec), encode, stringify, coin, 0, fuel)
  }

  /** The loop of `generateCurls`. */
  method GenerateCurls(spec: Spec, encode: string -> string, stringify: Value -> string, coin: nat -> bool, fuel: nat)
    returns (r: Result<Drawn<seq<CurlCommand>>, JsException>)
    ensures r == SpecCurls(spec, encode, stringify, coin, fuel)
  {
    var named := NamedSchemas(spec);
    var baseUrl := BaseUrl(spec, DefaultBaseUrl);
    var endpoints := CollectEndpoints(spec);
    var curls: seq<CurlCommand> := [];
    var pos := 0;
    var i := 0;
    while i < |endpoints|
      invariant 0 <= i <= |endpoints|
      invariant Curls(named, baseUrl, endpoints[..i], encode, stringify, coin, 0, fuel) == Ok(Drawn(curls, pos))
    {
      var c := Command(named, baseUrl, endpoints[i], encode, stringify, coin, pos, fuel);
      CurlsStep(named, baseUrl, endpoints, encode, stringify, coin, fuel, i, curls, pos);
      if c.Err? {
        CurlsStopAtError(named, baseUrl, endpoints, encode, stringify, coin, fuel, i + 1);
        return Err(c.error);
      }
      curls := curls + [c.value.value];
      pos := c.value.next;
      i := i + 1;
    }
    assert endpoints[..i] == endpoints;
    return Ok(Drawn(curls, pos));
  }

  lemma CurlsStep(named: seq<(string, Schema)>, baseUrl: string, endpoints: seq<Endpoint>,
                  encode: string -> string, stringify: Value -> string, coin: nat -> bool,
                  fuel: nat, i: nat, curls: seq<CurlCommand>, pos: nat)
    requires i < |endpoints|
    requires Curls(named, baseUrl, endpoints[..i], encode, stringify, coin, 0, fuel) == Ok(Drawn(curls, pos))
    ensures var c := Command(named, baseUrl, endpoints[i], encode, stringify, coin, pos, fuel);
            var after := Curls(named, baseUrl, endpoints[..i + 1], encode, stringify, coin, 0, fuel);
            (c.Err? ==> after == Err(c.error)) && (c.Ok? ==> after == Ok(Drawn(curls + [c.value.value], c.value.next)))
  {
    assert endpoints[..i + 1][..i] == endpoints[..i];
  }

  lemma {:induction false} CurlsStopAtError(named: seq<(string, Schema)>, baseUrl: string, endpoints: seq<Endpoint>,
                                            encode: string -> string, stringify: Value -> string, coin: nat -> bool,
                                            fuel: nat, k: nat)
    requires k <= |endpoints| && Curls(named, baseUrl, endpoints[..k], encode, stringify, coin, 0, fuel).Err?
    ensures Curls(named, baseUrl, endpoints, encode, stringify, coin, 0, fuel)
            == Curls(named, baseUrl, endpoints[..k], encode, stringify, coin, 0, fuel)
    decreases |endpoints| - k
  {
    if k < |endpoints| {
      assert endpoints[..k + 1][..k] == endpoints[..k];
      CurlsStopAtError(named, baseUrl, endpoints, encode, stringify, coin, fuel, k + 1);
    } else {
      assert endpoints[..k] == endpoints;
    }
  }

  // ---------------------------------------------------------------------
  // The text listing.

  function TextHeader(spec: Spec): string {
    "# Generated cURL commands for " + spec.info.title + "\n"
    + "# Generated from OpenAPI " + spec.openapi + " specification\n\n"
  }

  /** One command's block: `# ENDPOINT`, ` - description` when truthy, the command, a blank line. */
  function CommandBlock(c: CurlCommand): string {
    "# " + c.endpoint + (if Present(c.description) then " - " + c.description.value else "") + "\n" + c.curl + "\n\n"
  }

  function Blocks(curls: seq<CurlCommand>): string {
    if |curls| == 0 then "" else Blocks(curls[..|curls| - 1]) + CommandBlock(curls[|curls| - 1])
  }

  /** `generateCurlsAsText` on the commands of one run. */
  function CurlsText(spec: Spec, curls: seq<CurlCommand>): string {
    TextHeader(spec) + Blocks(curls)
  }

  /** The listing is the header followed by one block per command, in order. */
  lemma {:induction false} CurlsTextAppend(spec: Spec, curls: seq<CurlCommand>, c: CurlCommand)
    ensures CurlsText(spec, curls + [c]) == CurlsText(spec, curls) + CommandBlock(c)
    ensures StartsWith(CurlsText(spec, curls), TextHeader(spec))
    ensures curls == [] ==> CurlsText(spec, curls) == TextHeader(spec)
  {
    assert (curls + [c])[..|curls + [c]| - 1] == curls;
  }

  /** A block names its description exactly when the description is truthy. */
  lemma BlockDescription(c: CurlCommand)
    requires '\n' !in c.endpoint
    ensures var firstLine := "# " + c.endpoint + (if Present(c.description) then " - " + c.description.value else "");
            StartsWith(CommandBlock(c), firstLine + "\n")
            && (Present(c.description) ==> EndsWith(firstLine, " - " + c.description.value))
            && (!Present(c.description) ==> firstLine == "# " + c.endpoint)
  {
  }

  /** The five appends of one block amount to appending the block. */
  lemma BlockPieces(output: string, heading: string, description: string, curl: string)
    ensures (if description == "" then output + heading else output + heading + description) + "\n" + curl + "\n\n"
            == output + (heading + description + "\n" + curl + "\n\n")
  {
  }

  /** The body of the `forEach`: five appends that add one block. */
  method AppendBlock(output: string, c: CurlCommand) returns (r: string)
    ensures r == output + CommandBlock(c)
  {
    r := output + "# " + c.endpoint;
    var description := "";
    if Present(c.description) {
      description := " - " + c.description.value;
      r := r + description;
    }
    r := r + "\n";
    r := r + c.curl;
    r := r + "\n\n";
    BlockPieces(output, "# " + c.endpoint, description, c.curl);
  }

  /**
   * `generateCurlsAsText`: the commands of `generateCurls`, or its error,
   * rendered as the listing. Without operations it is only the header.
   */
  function SpecCurlsText(spec: Spec, encode: string -> string, stringify: Value -> string, coin: nat -> bool, fuel: nat)
    : (r: Result<string, JsException>)
    ensures r.Ok? <==> SpecCurls(spec, encode, stringify, coin, fuel).Ok?
    ensures r.Err? ==> r.error == SpecCurls(spec, encode, stringify, coin, fuel).error
    ensures r.Ok? ==> r.value == CurlsText(spec, SpecCurls(spec, encode, stringify, coin, fuel).value.value)
                      && StartsWith(r.value, TextHeader(spec))
    ensures |Endpoints(spec)| == 0 ==> r == Ok(TextHeader(spec))
  {
    var curls :- SpecCurls(spec, encode, stringify, coin, fuel);
    CurlsTextAppend(spec, curls.value, CurlCommand("", "", "", None));
    Ok(CurlsText(spec, curls.value))
  }

  /** `generateCurlsAsText`: generate the commands, then append their blocks. */
  method GenerateCurlsAsText(spec: Spec, encode: string -> string, stringify: Value -> string, coin: nat -> bool, fuel: nat)
    returns (r: Result<string, JsException>)
    ensures r == SpecCurlsText(spec, encode, stringify, coin, fuel)
  {
    var curls := GenerateCurls(spec, encode, stringify, coin, fuel);
    if curls.Err? {
      return Err(curls.error);
    }
    var output := RenderCurls(spec, curls.value.value);
    r := Ok(output);
  }

  /** The statements of `generateCurlsAsText` after `generateCurls`: the header, then the `forEach` appending to `output`. */
  method RenderCurls(spec: Spec, curls: seq<CurlCommand>) returns (output: string)
    ensures output == CurlsText(spec, curls)
  {
    output := "# Generated cURL commands for " + spec.info.title + "\n";
    output := output + "# Generated from OpenAPI " + spec.openapi + " specification\n\n";
    var i := 0;
    while i < |curls|
      invariant 0 <= i <= |curls|
      invariant output == CurlsText(spec, curls[..i])
    {
      CurlsTextAppend(spec, curls[..i], curls[i]);
      assert curls[..i + 1] == curls[..i] + [curls[i]];
      output := AppendBlock(output, curls[i]);
      i := i + 1;
    }
    assert curls[..i] == curls;
  }
}
