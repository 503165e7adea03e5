/** The live dispatcher and object composer: optional and nullable wrappers
    are unwrapped, objects are assembled field by field, and every other kind
    is handed to the generator the registry holds under its constructor name.
    The specification functions take the registry's map as a value; the
    methods of `TestCaseGenerator` read it from the registry object. */
module Generator {
  import opened Wrappers
  import opened Schemas
  import opened Values
  import opened Oracle
  import opened Draws
  import opened TestCaseUtils
  import Registry
  import StringGenerator
  import NumberGenerator
  import BooleanGenerator
  import EnumGenerator
  import OptionalGenerator
  import NullableGenerator

  type Generators = map<string, Registry.ZGenerator>

  // ---------------------------------------------------------------------
  // Leaf generators

  /** The name of a generator class, for the error a mismatched registration
      raises. */
  function GeneratorName(g: Registry.ZGenerator): string {
    if g.StringGenerator? then "StringGenerator"
    else if g.NumberGenerator? then "NumberGenerator"
    else if g.BooleanGenerator? then "BooleanGenerator"
    else if g.EnumGenerator? then "EnumGenerator"
    else if g.OptionalGenerator? then "OptionalGenerator"
    else "NullableGenerator"
  }

  /** The schema kinds a generator can read: the string, number and enum
      generators read their own kind's definition; the others ignore it. */
  predicate Applicable(g: Registry.ZGenerator, s: Schema) {
    (g.StringGenerator? ==> s.ZodString?)
    && (g.NumberGenerator? ==> s.ZodNumber?)
    && (g.EnumGenerator? ==> s.ZodEnum?)
  }

  /** The premise of a leaf's `valid`: its rejection loops end. */
  ghost predicate LeafValidTerminates(g: Registry.ZGenerator, e: Env, s: Schema) {
    g.NumberGenerator? && s.ZodNumber? ==> NumberGenerator.ValidTerminates(e, s)
  }

  /** The premise of a leaf's `invalid`: its rejection loops end. */
  ghost predicate LeafInvalidTerminates(g: Registry.ZGenerator, v: Validator, e: Env, s: Schema) {
    (g.StringGenerator? && s.ZodString? ==> StringGenerator.InvalidTerminates(v, e, s))
    && (g.NumberGenerator? && s.ZodNumber? ==> NumberGenerator.InvalidTerminates(e, s))
    && (g.EnumGenerator? && s.ZodEnum? ==> EnumGenerator.InvalidTerminates(e, s))
  }

  /** `generator.valid(schema)`. */
  ghost function LeafValid(g: Registry.ZGenerator, v: Validator, e: Env, s: Schema): Result<seq<TestCase>, Failure>
    requires LeafValidTerminates(g, e, s)
  {
    if !Applicable(g, s) then Err(NotApplicable(GeneratorName(g), KindName(s)))
    else if g.StringGenerator? then StringGenerator.ValidCases(v, e, s)
    else if g.NumberGenerator? then Ok(NumberGenerator.ValidCases(v, e, s))
    else if g.BooleanGenerator? then Ok(BooleanGenerator.ValidCases())
    else if g.EnumGenerator? then Ok(EnumGenerator.ValidCases(v, s))
    else if g.OptionalGenerator? then Ok(OptionalGenerator.ValidCases())
    else Ok(NullableGenerator.ValidCases())
  }

  /** `generator.invalid(schema)`. */
  ghost function LeafInvalid(g: Registry.ZGenerator, v: Validator, e: Env, s: Schema): Result<seq<TestCase>, Failure>
    requires LeafInvalidTerminates(g, v, e, s)
  {
    if !Applicable(g, s) then Err(NotApplicable(GeneratorName(g), KindName(s)))
    else if g.StringGenerator? then StringGenerator.InvalidCases(v, e, s)
    else if g.NumberGenerator? then Ok(NumberGenerator.InvalidCases(v, e, s))
    else if g.BooleanGenerator? then Ok(BooleanGenerator.InvalidCases())
    else if g.EnumGenerator? then Ok(EnumGenerator.InvalidCases(v, e, s))
    else if g.OptionalGenerator? then Ok(OptionalGenerator.InvalidCases())
    else Ok(NullableGenerator.InvalidCases())
  }

  /** The kinds the dispatcher handles itself rather than through the
      registry. */
  predicate Structural(s: Schema) {
    s.ZodOptional? || s.ZodNullable? || s.ZodObject?
  }

  // ---------------------------------------------------------------------
  // Premises: every rejection loop reached ends

  ghost predicate ValidDrawsSuffice(gens: Generators, e: Env, s: Schema)
    decreases s
  {
    match s
    case ZodOptional(inner) => ValidDrawsSuffice(gens, e, inner)
    case ZodNullable(inner) => ValidDrawsSuffice(gens, e, inner)
    case ZodObject(shape) => forall i :: 0 <= i < |shape| ==> ValidDrawsSuffice(gens, e, shape[i].1)
    case _ => KindName(s) in gens ==> LeafValidTerminates(gens[KindName(s)], e, s)
  }

  ghost predicate InvalidDrawsSuffice(gens: Generators, v: Validator, e: Env, s: Schema)
    decreases s
  {
    match s
    case ZodOptional(inner) => InvalidDrawsSuffice(gens, v, e, inner)
    case ZodNullable(inner) => InvalidDrawsSuffice(gens, v, e, inner)
    case ZodObject(shape) =>
      ValidDrawsSuffice(gens, e, s)
      && forall i :: 0 <= i < |shape| ==> InvalidDrawsSuffice(gens, v, e, shape[i].1)
    case _ => KindName(s) in gens ==> LeafInvalidTerminates(gens[KindName(s)], v, e, s)
  }

  // ---------------------------------------------------------------------
  // Object fixtures

  /** `getRandomElement(cases)` followed by `.value`: the element at
      `Math.floor(r * length)`; reading past the end yields `undefined`, whose
      `.value` throws. */
  function Pick(e: Env, key: string, cases: seq<TestCase>): (r: Result<TestCase, Failure>)
    ensures r.Ok? ==> r.value in cases
  {
    var i := (e.pickDraw(key) * |cases| as real).Floor;
    if 0 <= i < |cases| then Ok(cases[i]) else Err(ReadOfUndefined)
  }

  /** For a fair draw the picked index lies within a non-empty list, so
      nothing is read past its end. */
  lemma PickSucceeds(e: Env, key: string, cases: seq<TestCase>)
    requires Fair(e) && |cases| > 0
    ensures Pick(e, key, cases).Ok?
  {
    var n := |cases| - 1;
    NumberGenerator.PickIndexInRange(e.pickDraw(key), n);
    assert n as real + 1.0 == |cases| as real;
  }

  /** Every case's `isValid` is the library's verdict on its value, as `tc`
      records it. */
  predicate OracleLabelled(v: Validator, s: Schema, cases: seq<TestCase>) {
    forall t :: t in cases ==> t.isValid == v.accepts(s, t.value)
  }

  /** The fixtures for one field: each of the field's cases put into the
      base object under the field's key. */
  function FieldFixtures(v: Validator, s: Schema, key: string, cases: seq<TestCase>, base: map<string, Value>): (r: seq<TestCase>)
    ensures |r| == |cases| && OracleLabelled(v, s, r)
    ensures forall j :: 0 <= j < |r| ==>
      r[j] == Tc(v, s, "testing " + key + ": " + cases[j].description, Obj(base[key := cases[j].value]))
  {
    seq(|cases|, j requires 0 <= j < |cases| =>
      Tc(v, s, "testing " + key + ": " + cases[j].description, Obj(base[key := cases[j].value])))
  }

  /** One more case adds its fixture at the end. */
  lemma FieldFixturesNext(v: Validator, s: Schema, key: string, cases: seq<TestCase>, base: map<string, Value>, j: nat)
    requires j < |cases|
    ensures FieldFixtures(v, s, key, cases[..j + 1], base)
      == FieldFixtures(v, s, key, cases[..j], base)
         + [Tc(v, s, "testing " + key + ": " + cases[j].description, Obj(base[key := cases[j].value]))]
  {
  }

  /** `testCases.filter(tc => tc.isValid === keep)`. */
  function Filter(cases: seq<TestCase>, keep: bool): (r: seq<TestCase>)
    ensures |r| <= |cases|
    ensures forall t :: t in r ==> t in cases && t.isValid == keep
    ensures forall t :: t in cases && t.isValid == keep ==> t in r
  {
    if cases == [] then []
    else
      var rest := Filter(cases[..|cases| - 1], keep);
      var last := cases[|cases| - 1];
      assert cases == cases[..|cases| - 1] + [last];
      if last.isValid == keep then rest + [last] else rest
  }

  function SecurityDescription(): string {
    "testing security: unexpected isAdmin field"
  }

  function MissingDescription(key: string): string {
    "testing " + key + ": missing required field"
  }

  // ---------------------------------------------------------------------
  // The dispatcher

  /** `valid(schema)`. */
  ghost function ValidSpec(gens: Generators, v: Validator, e: Env, s: Schema): (r: Result<seq<TestCase>, Failure>)
    requires ValidDrawsSuffice(gens, e, s)
    ensures s.ZodOptional? && r.Ok? ==> r.value != [] && r.value[0].value == Undefined
    ensures s.ZodNullable? && r.Ok? ==> r.value != [] && r.value[0].value == Null
    ensures s.ZodObject? && r.Ok? ==> forall t :: t in r.value ==> t.isValid && v.accepts(s, t.value)
    ensures !s.ZodOptional? && !s.ZodNullable? && !s.ZodObject? && KindName(s) !in gens ==> r == Err(NoGenerator(KindName(s)))
    decreases s, 3, 0
  {
    match s
    case ZodOptional(inner) =>
      var rest :- ValidSpec(gens, v, e, inner);
      Ok([Tc(v, s, "valid undefined for optional", Undefined)] + rest)
    case ZodNullable(inner) =>
      var rest :- ValidSpec(gens, v, e, inner);
      Ok([Tc(v, s, "valid null for nullable", Null)] + rest)
    case ZodObject(shape) => ValidObjectSpec(gens, v, e, s)
    case _ =>
      if KindName(s) !in gens then Err(NoGenerator(KindName(s)))
      else LeafValid(gens[KindName(s)], v, e, s)
  }

  /** `validObject(schema)`: the per-field fixtures, then one object of valid
      values, keeping the accepted ones. */
  ghost function ValidObjectSpec(gens: Generators, v: Validator, e: Env, s: Schema): (r: Result<seq<TestCase>, Failure>)
    requires s.ZodObject? && ValidDrawsSuffice(gens, e, s)
    ensures r.Ok? ==> forall t :: t in r.value ==> t.isValid && v.accepts(s, t.value)
    decreases s, 2, 0
  {
    var fields :- ValidFieldsSpec(gens, v, e, s, |s.shape|);
    var all :- CreateSpec(gens, v, e, s, None, |s.shape|);
    Ok(Filter(fields + [Tc(v, s, "all fields with valid values", Obj(all))], true))
  }

  /** The valid fixtures of field `i`: its valid cases, each put into an
      object of valid values for the other fields. */
  ghost function ValidFieldSpec(gens: Generators, v: Validator, e: Env, s: Schema, i: nat): (r: Result<seq<TestCase>, Failure>)
    requires s.ZodObject? && ValidDrawsSuffice(gens, e, s) && i < |s.shape|
    ensures r.Ok? ==> OracleLabelled(v, s, r.value)
    decreases s, 1, 0
  {
    var cases :- ValidSpec(gens, v, e, s.shape[i].1);
    FixturesSpec(gens, v, e, s, s.shape[i].0, cases)
  }

  /** The fixtures putting each of `cases` under `key` into an object of
      valid values for the other fields; the object is built only when there
      is a case to put. */
  ghost function FixturesSpec(gens: Generators, v: Validator, e: Env, s: Schema, key: string, cases: seq<TestCase>): (r: Result<seq<TestCase>, Failure>)
    requires s.ZodObject? && ValidDrawsSuffice(gens, e, s)
    ensures r.Ok? ==> OracleLabelled(v, s, r.value)
    decreases s, 0, 2
  {
    if |cases| == 0 then Ok([])
    else
      var base :- CreateSpec(gens, v, e, s, Some(key), |s.shape|);
      Ok(FieldFixtures(v, s, key, cases, base))
  }

  /** The valid fixtures of each field, in declaration order. */
  ghost function ValidFieldList(gens: Generators, v: Validator, e: Env, s: Schema): seq<Result<seq<TestCase>, Failure>>
    requires s.ZodObject? && ValidDrawsSuffice(gens, e, s)
    decreases s, 1, 1
  {
    seq(|s.shape|, i requires 0 <= i < |s.shape| => ValidFieldSpec(gens, v, e, s, i))
  }

  /** The per-field valid fixtures of the first `n` fields. */
  ghost function ValidFieldsSpec(gens: Generators, v: Validator, e: Env, s: Schema, n: nat): (r: Result<seq<TestCase>, Failure>)
    requires s.ZodObject? && ValidDrawsSuffice(gens, e, s) && n <= |s.shape|
    ensures r.Ok? ==> OracleLabelled(v, s, r.value)
    decreases s, 1, 2
  {
    var parts := ValidFieldList(gens, v, e, s);
    JoinLabelled(v, s, parts, n);
    JoinFold(parts, n)
  }

  /** The valid lists of an object's fields, in declaration order. */
  ghost function FieldValids(gens: Generators, v: Validator, e: Env, s: Schema): seq<Result<seq<TestCase>, Failure>>
    requires s.ZodObject? && ValidDrawsSuffice(gens, e, s)
    decreases s, 0, 0
  {
    seq(|s.shape|, i requires 0 <= i < |s.shape| => ValidSpec(gens, v, e, s.shape[i].1))
  }

  /** The loop of `createValidObject(shape, excludeKey)` over the first `n`
      fields, given each field's valid list: each field but the excluded one,
      with a non-empty valid list, set to a randomly picked valid value. A
      field's failing list stops the loop with its error. */
  function CreateFold(e: Env, shape: seq<(string, Schema)>, valids: seq<Result<seq<TestCase>, Failure>>,
                      exclude: Option<string>, n: nat): (r: Result<map<string, Value>, Failure>)
    requires |valids| == |shape| && n <= |shape|
    ensures r.Ok? && exclude.Some? ==> exclude.value !in r.value
  {
    if n == 0 then Ok(map[])
    else
      var obj :- CreateFold(e, shape, valids, exclude, n - 1);
      var key := shape[n - 1].0;
      if exclude == Some(key) then Ok(obj)
      else
        var cases :- valids[n - 1];
        if |cases| == 0 then Ok(obj)
        else
          var picked :- Pick(e, key, cases);
          Ok(obj[key := picked.value])
  }

  /** `createValidObject(shape, excludeKey)` over the first `n` fields. */
  ghost function CreateSpec(gens: Generators, v: Validator, e: Env, s: Schema, exclude: Option<string>, n: nat): (r: Result<map<string, Value>, Failure>)
    requires s.ZodObject? && ValidDrawsSuffice(gens, e, s) && n <= |s.shape|
    ensures r.Ok? && exclude.Some? ==> exclude.value !in r.value
    decreases s, 0, 1
  {
    CreateFold(e, s.shape, FieldValids(gens, v, e, s), exclude, n)
  }

  /** `invalid(schema)`. */
  ghost function InvalidSpec(gens: Generators, v: Validator, e: Env, s: Schema): (r: Result<seq<TestCase>, Failure>)
    requires InvalidDrawsSuffice(gens, v, e, s)
    ensures s.ZodObject? && r.Ok? ==> forall t :: t in r.value ==> !t.isValid && !v.accepts(s, t.value)
    ensures !s.ZodOptional? && !s.ZodNullable? && !s.ZodObject? && KindName(s) !in gens ==> r == Err(NoGenerator(KindName(s)))
    decreases s, 3, 0
  {
    match s
    case ZodOptional(inner) => InvalidSpec(gens, v, e, inner)
    case ZodNullable(inner) => InvalidSpec(gens, v, e, inner)
    case ZodObject(shape) => InvalidObjectSpec(gens, v, e, s)
    case _ =>
      if KindName(s) !in gens then Err(NoGenerator(KindName(s)))
      else LeafInvalid(gens[KindName(s)], v, e, s)
  }

  /** The object of valid values with `isAdmin` set to true. */
  function WithAdmin(obj: map<string, Value>): map<string, Value> {
    obj["isAdmin" := Bool(true)]
  }

  /** `invalidObject(schema)`: the per-field fixtures, then the security
      fixture, keeping the rejected ones. */
  ghost function InvalidObjectSpec(gens: Generators, v: Validator, e: Env, s: Schema): (r: Result<seq<TestCase>, Failure>)
    requires s.ZodObject? && InvalidDrawsSuffice(gens, v, e, s)
    ensures r.Ok? ==> forall t :: t in r.value ==> !t.isValid && !v.accepts(s, t.value)
    decreases s, 2, 0
  {
    var fields :- InvalidFieldsSpec(gens, v, e, s, |s.shape|);
    var all :- CreateSpec(gens, v, e, s, None, |s.shape|);
    Ok(Filter(fields + [Tc(v, s, SecurityDescription(), Obj(WithAdmin(all)))], false))
  }

  /** The missing-field fixture of one field, for fields not wrapped in
      `ZodOptional`. */
  ghost function MissingSpec(gens: Generators, v: Validator, e: Env, s: Schema, i: nat): (r: Result<seq<TestCase>, Failure>)
    requires s.ZodObject? && ValidDrawsSuffice(gens, e, s) && i < |s.shape|
    ensures r.Ok? ==> OracleLabelled(v, s, r.value) && |r.value| <= 1
    decreases s, 0, |s.shape| + 1
  {
    if s.shape[i].1.ZodOptional? then Ok([])
    else
      var missing :- CreateSpec(gens, v, e, s, Some(s.shape[i].0), |s.shape|);
      Ok([Tc(v, s, MissingDescription(s.shape[i].0), Obj(missing))])
  }

  /** The invalid fixtures of field `i`: the missing-field fixture, then its
      invalid cases, each put into an object of valid values for the other
      fields. */
  ghost function InvalidFieldSpec(gens: Generators, v: Validator, e: Env, s: Schema, i: nat): (r: Result<seq<TestCase>, Failure>)
    requires s.ZodObject? && InvalidDrawsSuffice(gens, v, e, s) && i < |s.shape|
    ensures r.Ok? ==> OracleLabelled(v, s, r.value)
    decreases s, 1, 0
  {
    var missing :- MissingSpec(gens, v, e, s, i);
    var cases :- InvalidSpec(gens, v, e, s.shape[i].1);
    var fixtures :- FixturesSpec(gens, v, e, s, s.shape[i].0, cases);
    Ok(missing + fixtures)
  }

  /** The invalid fixtures of each field, in declaration order. */
  ghost function InvalidFieldList(gens: Generators, v: Validator, e: Env, s: Schema): seq<Result<seq<TestCase>, Failure>>
    requires s.ZodObject? && InvalidDrawsSuffice(gens, v, e, s)
    decreases s, 1, 1
  {
    seq(|s.shape|, i requires 0 <= i < |s.shape| => InvalidFieldSpec(gens, v, e, s, i))
  }

  /** The per-field invalid fixtures of the first `n` fields. */
  ghost function InvalidFieldsSpec(gens: Generators, v: Validator, e: Env, s: Schema, n: nat): (r: Result<seq<TestCase>, Failure>)
    requires s.ZodObject? && InvalidDrawsSuffice(gens, v, e, s) && n <= |s.shape|
    ensures r.Ok? ==> OracleLabelled(v, s, r.value)
    decreases s, 1, 2
  {
    var parts := InvalidFieldList(gens, v, e, s);
    JoinLabelled(v, s, parts, n);
    JoinFold(parts, n)
  }

  /** The loop of `validObject` or `invalidObject` over the first `n`
      fields, given each field's fixtures: the fixtures joined in order. A
      field's failure stops the loop with its error. */
  function JoinFold(parts: seq<Result<seq<TestCase>, Failure>>, n: nat): Result<seq<TestCase>, Failure>
    requires n <= |parts|
  {
    if n == 0 then Ok([])
    else
      var prev :- JoinFold(parts, n - 1);
      var mine :- parts[n - 1];
      Ok(prev + mine)
  }

  /** Joining fixtures that each carry the library's verdict gives fixtures
      that carry it. */
  lemma {:induction false} JoinLabelled(v: Validator, s: Schema, parts: seq<Result<seq<TestCase>, Failure>>, n: nat)
    requires n <= |parts|
    requires forall i :: 0 <= i < n && parts[i].Ok? ==> OracleLabelled(v, s, parts[i].value)
    ensures JoinFold(parts, n).Ok? ==> OracleLabelled(v, s, JoinFold(parts, n).value)
    decreases n
  {
    if n > 0 {
      JoinLabelled(v, s, parts, n - 1);
    }
  }

  // ---------------------------------------------------------------------
  // A failure is final

  /** One more field extends the joined fixtures by its own, or fails with
      its error. */
  lemma JoinNext(parts: seq<Result<seq<TestCase>, Failure>>, n: nat, prev: seq<TestCase>)
    requires n < |parts| && JoinFold(parts, n) == Ok(prev)
    ensures parts[n].Ok? ==> JoinFold(parts, n + 1) == Ok(prev + parts[n].value)
    ensures parts[n].Err? ==> JoinFold(parts, n + 1) == Err(parts[n].error)
  {
  }

  lemma JoinErrNext(parts: seq<Result<seq<TestCase>, Failure>>, n: nat)
    requires n < |parts| && JoinFold(parts, n).Err?
    ensures JoinFold(parts, n + 1) == JoinFold(parts, n)
  {
  }

  lemma CreateErrNext(e: Env, shape: seq<(string, Schema)>, valids: seq<Result<seq<TestCase>, Failure>>, exclude: Option<string>, n: nat)
    requires |valids| == |shape| && n < |shape|
    requires CreateFold(e, shape, valids, exclude, n).Err?
    ensures CreateFold(e, shape, valids, exclude, n + 1) == CreateFold(e, shape, valids, exclude, n)
  {
  }

  /** Once a field fails, the loop over the fields fails with the same
      error, whatever fields follow. */
  lemma JoinErrSticks(parts: seq<Result<seq<TestCase>, Failure>>, n: nat, m: nat)
    requires n <= m <= |parts| && JoinFold(parts, n).Err?
    ensures JoinFold(parts, m) == JoinFold(parts, n)
  {
    var k := n;
    while k < m
      invariant n <= k <= m
      invariant JoinFold(parts, k) == JoinFold(parts, n)
    {
      JoinErrNext(parts, k);
      k := k + 1;
    }
  }

  /** Once a field fails, building the object fails with the same error. */
  lemma CreateErrSticks(e: Env, shape: seq<(string, Schema)>, valids: seq<Result<seq<TestCase>, Failure>>, exclude: Option<string>, n: nat, m: nat)
    requires |valids| == |shape| && n <= m <= |shape|
    requires CreateFold(e, shape, valids, exclude, n).Err?
    ensures CreateFold(e, shape, valids, exclude, m) == CreateFold(e, shape, valids, exclude, n)
  {
    var k := n;
    while k < m
      invariant n <= k <= m
      invariant CreateFold(e, shape, valids, exclude, k) == CreateFold(e, shape, valids, exclude, n)
    {
      CreateErrNext(e, shape, valids, exclude, k);
      k := k + 1;
    }
  }

  // ---------------------------------------------------------------------
  // The generator object

  /** `generator.valid(schema)` on the generator object the registry holds. */
  method ApplyValid(g: Registry.ZGenerator, v: Validator, e: Env, s: Schema) returns (r: Result<seq<TestCase>, Failure>)
    requires LeafValidTerminates(g, e, s)
    ensures r == LeafValid(g, v, e, s)
  {
    if !Applicable(g, s) {
      return Err(NotApplicable(GeneratorName(g), KindName(s)));
    }
    if g.StringGenerator? {
      r := StringGenerator.Valid(v, e, s);
    } else if g.NumberGenerator? {
      var cases := NumberGenerator.Valid(v, e, s);
      r := Ok(cases);
    } else if g.BooleanGenerator? {
      r := Ok(BooleanGenerator.ValidCases());
    } else if g.EnumGenerator? {
      var cases := EnumGenerator.Valid(v, s);
      r := Ok(cases);
    } else if g.OptionalGenerator? {
      r := Ok(OptionalGenerator.ValidCases());
    } else {
      r := Ok(NullableGenerator.ValidCases());
    }
  }

  /** `generator.invalid(schema)` on the generator object the registry holds. */
  method ApplyInvalid(g: Registry.ZGenerator, v: Validator, e: Env, s: Schema) returns (r: Result<seq<TestCase>, Failure>)
    requires LeafInvalidTerminates(g, v, e, s)
    ensures r == LeafInvalid(g, v, e, s)
  {
    if !Applicable(g, s) {
      return Err(NotApplicable(GeneratorName(g), KindName(s)));
    }
    if g.StringGenerator? {
      r := StringGenerator.Invalid(v, e, s);
    } else if g.NumberGenerator? {
      var cases := NumberGenerator.Invalid(v, e, s);
      r := Ok(cases);
    } else if g.BooleanGenerator? {
      r := Ok(BooleanGenerator.InvalidCases());
    } else if g.EnumGenerator? {
      var cases := EnumGenerator.Invalid(v, e, s);
      r := Ok(cases);
    } else if g.OptionalGenerator? {
      r := Ok(OptionalGenerator.InvalidCases());
    } else {
      r := Ok(NullableGenerator.InvalidCases());
    }
  }

  /** `TestCaseGenerator`: the dispatcher over a registry it holds. */
  class TestCaseGenerator {
    const registry: Registry.GeneratorRegistry

    constructor (registry: Registry.GeneratorRegistry)
      ensures this.registry == registry
    {
      this.registry := registry;
    }

    /** `valid(schema)`. */
    method Valid(v: Validator, e: Env, s: Schema) returns (r: Result<seq<TestCase>, Failure>)
      requires ValidDrawsSuffice(registry.generators, e, s)
      ensures r == ValidSpec(registry.generators, v, e, s)
      decreases s, 3, 0
    {
      match s
      case ZodOptional(inner) =>
        var rest :- Valid(v, e, inner);
        r := Ok([Tc(v, s, "valid undefined for optional", Undefined)] + rest);
      case ZodNullable(inner) =>
        var rest :- Valid(v, e, inner);
        r := Ok([Tc(v, s, "valid null for nullable", Null)] + rest);
      case ZodObject(_) =>
        r := ValidObject(v, e, s);
      case _ =>
        var g := registry.GetGeneratorForSchema(s);
        if g.None? {
          return Err(NoGenerator(KindName(s)));
        }
        r := ApplyValid(g.value, v, e, s);
    }

    /** `invalid(schema)`. */
    method Invalid(v: Validator, e: Env, s: Schema) returns (r: Result<seq<TestCase>, Failure>)
      requires InvalidDrawsSuffice(registry.generators, v, e, s)
      ensures r == InvalidSpec(registry.generators, v, e, s)
      decreases s, 3, 0
    {
      match s
      case ZodOptional(inner) =>
        r := Invalid(v, e, inner);
      case ZodNullable(inner) =>
        r := Invalid(v, e, inner);
      case ZodObject(_) =>
        r := InvalidObject(v, e, s);
      case _ =>
        var g := registry.GetGeneratorForSchema(s);
        if g.None? {
          return Err(NoGenerator(KindName(s)));
        }
        r := ApplyInvalid(g.value, v, e, s);
    }

    /** `validObject(schema)`. */
    method ValidObject(v: Validator, e: Env, s: Schema) returns (r: Result<seq<TestCase>, Failure>)
      requires s.ZodObject? && ValidDrawsSuffice(registry.generators, e, s)
      ensures r == ValidObjectSpec(registry.generators, v, e, s)
      decreases s, 2, 0
    {
      var testCases :- ValidFields(v, e, s);
      var all :- CreateValidObject(v, e, s, None);
      testCases := testCases + [Tc(v, s, "all fields with valid values", Obj(all))];
      return Ok(Filter(testCases, true));
    }

    /** The loop of `validObject` over the fields. */
    method ValidFields(v: Validator, e: Env, s: Schema) returns (r: Result<seq<TestCase>, Failure>)
      requires s.ZodObject? && ValidDrawsSuffice(registry.generators, e, s)
      ensures r == ValidFieldsSpec(registry.generators, v, e, s, |s.shape|)
      decreases s, 1, 1
    {
      ghost var gens := registry.generators;
      ghost var parts := ValidFieldList(gens, v, e, s);
      var testCases: seq<TestCase> := [];
      for i := 0 to |s.shape|
        invariant JoinFold(parts, i) == Ok(testCases)
      {
        var fixtures := ValidField(v, e, s, i);
        assert fixtures == parts[i];
        JoinNext(parts, i, testCases);
        if fixtures.Err? {
          JoinErrSticks(parts, i + 1, |s.shape|);
          return Err(fixtures.error);
        }
        testCases := testCases + fixtures.value;
      }
      return Ok(testCases);
    }

    /** One iteration of `validObject`'s loop over the fields. */
    method ValidField(v: Validator, e: Env, s: Schema, i: nat) returns (r: Result<seq<TestCase>, Failure>)
      requires s.ZodObject? && ValidDrawsSuffice(registry.generators, e, s) && i < |s.shape|
      ensures r == ValidFieldSpec(registry.generators, v, e, s, i)
      decreases s, 1, 0
    {
      assert ValidDrawsSuffice(registry.generators, e, s.shape[i].1);
      var validCases :- Valid(v, e, s.shape[i].1);
      r := Fixtures(v, e, s, s.shape[i].0, validCases);
    }

    /** The inner loop of both object methods: each case put under `key` into
        a fresh object of valid values for the other fields. */
    method Fixtures(v: Validator, e: Env, s: Schema, key: string, cases: seq<TestCase>) returns (r: Result<seq<TestCase>, Failure>)
      requires s.ZodObject? && ValidDrawsSuffice(registry.generators, e, s)
      ensures r == FixturesSpec(registry.generators, v, e, s, key, cases)
      decreases s, 0, |s.shape| + 2
    {
      ghost var base := CreateSpec(registry.generators, v, e, s, Some(key), |s.shape|);
      var testCases: seq<TestCase> := [];
      for j := 0 to |cases|
        invariant j > 0 ==> base.Ok? && testCases == FieldFixtures(v, s, key, cases[..j], base.value)
        invariant j == 0 ==> testCases == []
      {
        var baseObject :- CreateValidObject(v, e, s, Some(key));
        FieldFixturesNext(v, s, key, cases, baseObject, j);
        testCases := testCases
          + [Tc(v, s, "testing " + key + ": " + cases[j].description, Obj(baseObject[key := cases[j].value]))];
      }
      assert cases[..|cases|] == cases;
      return Ok(testCases);
    }

    /** `invalidObject(schema)`. */
    method InvalidObject(v: Validator, e: Env, s: Schema) returns (r: Result<seq<TestCase>, Failure>)
      requires s.ZodObject? && InvalidDrawsSuffice(registry.generators, v, e, s)
      ensures r == InvalidObjectSpec(registry.generators, v, e, s)
      decreases s, 2, 0
    {
      var testCases :- InvalidFields(v, e, s);
      var objectWithExtra :- CreateValidObject(v, e, s, None);
      testCases := testCases + [Tc(v, s, SecurityDescription(), Obj(WithAdmin(objectWithExtra)))];
      return Ok(Filter(testCases, false));
    }

    /** The loop of `invalidObject` over the fields. */
    method InvalidFields(v: Validator, e: Env, s: Schema) returns (r: Result<seq<TestCase>, Failure>)
      requires s.ZodObject? && InvalidDrawsSuffice(registry.generators, v, e, s)
      ensures r == InvalidFieldsSpec(registry.generators, v, e, s, |s.shape|)
      decreases s, 1, 1
    {
      ghost var gens := registry.generators;
      ghost var parts := InvalidFieldList(gens, v, e, s);
      var testCases: seq<TestCase> := [];
      for i := 0 to |s.shape|
        invariant JoinFold(parts, i) == Ok(testCases)
      {
        var fixtures := InvalidField(v, e, s, i);
        assert fixtures == parts[i];
        JoinNext(parts, i, testCases);
        if fixtures.Err? {
          JoinErrSticks(parts, i + 1, |s.shape|);
          return Err(fixtures.error);
        }
        testCases := testCases + fixtures.value;
      }
      return Ok(testCases);
    }

    /** One iteration of `invalidObject`'s loop over the fields. */
    method InvalidField(v: Validator, e: Env, s: Schema, i: nat) returns (r: Result<seq<TestCase>, Failure>)
      requires s.ZodObject? && InvalidDrawsSuffice(registry.generators, v, e, s) && i < |s.shape|
      ensures r == InvalidFieldSpec(registry.generators, v, e, s, i)
      decreases s, 1, 0
    {
      var missing :- MissingFixture(v, e, s, i);
      assert InvalidDrawsSuffice(registry.generators, v, e, s.shape[i].1);
      var invalidCases :- Invalid(v, e, s.shape[i].1);
      var fixtures :- Fixtures(v, e, s, s.shape[i].0, invalidCases);
      return Ok(missing + fixtures);
    }

    /** The missing-field fixture of `invalidObject`, for a field that is not
        `ZodOptional`. */
    method MissingFixture(v: Validator, e: Env, s: Schema, i: nat) returns (r: Result<seq<TestCase>, Failure>)
      requires s.ZodObject? && ValidDrawsSuffice(registry.generators, e, s) && i < |s.shape|
      ensures r == MissingSpec(registry.generators, v, e, s, i)
      decreases s, 0, |s.shape| + 2
    {
      if s.shape[i].1.ZodOptional? {
        return Ok([]);
      }
      var missingObject :- CreateValidObject(v, e, s, Some(s.shape[i].0));
      return Ok([Tc(v, s, MissingDescription(s.shape[i].0), Obj(missingObject))]);
    }

    /** `createValidObject(shape, excludeKey)`. */
    method CreateValidObject(v: Validator, e: Env, s: Schema, exclude: Option<string>) returns (r: Result<map<string, Value>, Failure>)
      requires s.ZodObject? && ValidDrawsSuffice(registry.generators, e, s)
      ensures r == CreateSpec(registry.generators, v, e, s, exclude, |s.shape|)
      decreases s, 0, 1
    {
      ghost var gens := registry.generators;
      var obj: map<string, Value> := map[];
      for i := 0 to |s.shape|
        invariant CreateSpec(gens, v, e, s, exclude, i) == Ok(obj)
      {
        var next := CreateField(v, e, s, exclude, i, obj);
        if next.Err? {
          CreateErrSticks(e, s.shape, FieldValids(gens, v, e, s), exclude, i + 1, |s.shape|);
          return next;
        }
        obj := next.value;
      }
      return Ok(obj);
    }

    /** One iteration of `createValidObject`'s loop: field `i` added to the
        object built from the fields before it. */
    method CreateField(v: Validator, e: Env, s: Schema, exclude: Option<string>, i: nat, obj: map<string, Value>)
      returns (r: Result<map<string, Value>, Failure>)
      requires s.ZodObject? && ValidDrawsSuffice(registry.generators, e, s) && i < |s.shape|
      requires CreateSpec(registry.generators, v, e, s, exclude, i) == Ok(obj)
      ensures r == CreateSpec(registry.generators, v, e, s, exclude, i + 1)
      decreases s, 0, 0
    {
      var key, field := s.shape[i].0, s.shape[i].1;
      if exclude == Some(key) {
        return Ok(obj);
      }
      assert ValidDrawsSuffice(registry.generators, e, field);
      var validCases := Valid(v, e, field);
      if validCases.Err? {
        return Err(validCases.error);
      }
      if |validCases.value| == 0 {
        return Ok(obj);
      }
      var picked := Pick(e, key, validCases.value);
      if picked.Err? {
        return Err(picked.error);
      }
      return Ok(obj[key := picked.value.value]);
    }
  }
}
