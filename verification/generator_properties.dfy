/** What the live dispatcher promises about whole lists: how optional and
    nullable wrappers add to the valid list and leave the invalid list alone,
    that an unregistered kind fails under any wrappers, and the shape of the
    object fixtures. */
module GeneratorProperties {
  import opened Wrappers
  import opened Schemas
  import opened Values
  import opened Oracle
  import opened Draws
  import opened TestCaseUtils
  import opened Generator

  // ---------------------------------------------------------------------
  // Optional and nullable wrappers

  datatype Modifier = Optional | Nullable

  function WrapOne(m: Modifier, s: Schema): Schema {
    if m.Optional? then ZodOptional(s) else ZodNullable(s)
  }

  /** `s` wrapped in `mods`, the first modifier outermost. */
  function Wrap(mods: seq<Modifier>, s: Schema): Schema {
    if mods == [] then s else WrapOne(mods[0], Wrap(mods[1..], s))
  }

  /** The case a wrapper adds in front of its inner valid list. */
  function ModifierCase(v: Validator, m: Modifier, wrapped: Schema): TestCase {
    if m.Optional? then Tc(v, wrapped, "valid undefined for optional", Undefined)
    else Tc(v, wrapped, "valid null for nullable", Null)
  }

  /** The cases the wrappers add, outermost first: `undefined` for each
      optional and `null` for each nullable, each judged against the schema
      as wrapped from that modifier inwards. */
  function ModifierCases(v: Validator, mods: seq<Modifier>, s: Schema): (r: seq<TestCase>)
    ensures |r| == |mods|
    ensures forall i :: 0 <= i < |mods| ==>
      r[i].value == (if mods[i].Optional? then Undefined else Null)
      && r[i].isValid == v.accepts(Wrap(mods[i..], s), r[i].value)
  {
    if mods == [] then []
    else
      var rest := ModifierCases(v, mods[1..], s);
      assert forall i :: 1 <= i < |mods| ==> mods[1..][i - 1..] == mods[i..];
      [ModifierCase(v, mods[0], Wrap(mods, s))] + rest
  }

  /** `pre` put in front of a list, an error passed on unchanged. */
  function Prepend(pre: seq<TestCase>, r: Result<seq<TestCase>, Failure>): Result<seq<TestCase>, Failure> {
    if r.Ok? then Ok(pre + r.value) else r
  }

  /** Wrappers add no rejection loop of their own. */
  lemma {:induction false} WrapSuffices(gens: Generators, v: Validator, e: Env, mods: seq<Modifier>, s: Schema)
    ensures ValidDrawsSuffice(gens, e, Wrap(mods, s)) == ValidDrawsSuffice(gens, e, s)
    ensures InvalidDrawsSuffice(gens, v, e, Wrap(mods, s)) == InvalidDrawsSuffice(gens, v, e, s)
  {
    if mods != [] {
      WrapSuffices(gens, v, e, mods[1..], s);
    }
  }

  /** One wrapper puts its case in front of the inner valid list. */
  lemma ValidUnderModifier(gens: Generators, v: Validator, e: Env, m: Modifier, s: Schema)
    requires ValidDrawsSuffice(gens, e, s)
    ensures ValidDrawsSuffice(gens, e, WrapOne(m, s))
    ensures ValidSpec(gens, v, e, WrapOne(m, s)) == Prepend([ModifierCase(v, m, WrapOne(m, s))], ValidSpec(gens, v, e, s))
  {
  }

  lemma PrependTwice(a: seq<TestCase>, b: seq<TestCase>, r: Result<seq<TestCase>, Failure>)
    ensures Prepend(a, Prepend(b, r)) == Prepend(a + b, r)
  {
    if r.Ok? {
      assert a + (b + r.value) == (a + b) + r.value;
    }
  }

  /** `valid` of a schema under any chain of optional and nullable wrappers
      is one case per wrapper, outermost first, followed by `valid` of the
      inner schema; an error of the inner schema is the error of the whole. */
  lemma {:induction false} ValidThroughModifiers(gens: Generators, v: Validator, e: Env, mods: seq<Modifier>, s: Schema)
    requires ValidDrawsSuffice(gens, e, s)
    ensures ValidDrawsSuffice(gens, e, Wrap(mods, s))
    ensures ValidSpec(gens, v, e, Wrap(mods, s)) == Prepend(ModifierCases(v, mods, s), ValidSpec(gens, v, e, s))
  {
    if mods == [] {
      var inner := ValidSpec(gens, v, e, s);
      if inner.Ok? {
        assert [] + inner.value == inner.value;
      }
    } else {
      ValidThroughModifiers(gens, v, e, mods[1..], s);
      var below := Wrap(mods[1..], s);
      ValidUnderModifier(gens, v, e, mods[0], below);
      assert Wrap(mods, s) == WrapOne(mods[0], below);
      var head := ModifierCase(v, mods[0], Wrap(mods, s));
      assert ModifierCases(v, mods, s) == [head] + ModifierCases(v, mods[1..], s);
      PrependTwice([head], ModifierCases(v, mods[1..], s), ValidSpec(gens, v, e, s));
    }
  }

  /** `invalid` passes through any chain of wrappers unchanged. */
  lemma {:induction false} InvalidThroughModifiers(gens: Generators, v: Validator, e: Env, mods: seq<Modifier>, s: Schema)
    requires InvalidDrawsSuffice(gens, v, e, s)
    ensures InvalidDrawsSuffice(gens, v, e, Wrap(mods, s))
    ensures InvalidSpec(gens, v, e, Wrap(mods, s)) == InvalidSpec(gens, v, e, s)
  {
    WrapSuffices(gens, v, e, mods, s);
    if mods != [] {
      InvalidThroughModifiers(gens, v, e, mods[1..], s);
    }
  }

  /** A leaf kind nobody registered makes both `valid` and `invalid` throw
      "No generator found", however it is wrapped. */
  lemma UnregisteredKindFails(gens: Generators, v: Validator, e: Env, mods: seq<Modifier>, s: Schema)
    requires !Structural(s) && KindName(s) !in gens
    ensures ValidDrawsSuffice(gens, e, Wrap(mods, s)) && InvalidDrawsSuffice(gens, v, e, Wrap(mods, s))
    ensures ValidSpec(gens, v, e, Wrap(mods, s)) == Err(NoGenerator(KindName(s)))
    ensures InvalidSpec(gens, v, e, Wrap(mods, s)) == Err(NoGenerator(KindName(s)))
  {
    ValidThroughModifiers(gens, v, e, mods, s);
    InvalidThroughModifiers(gens, v, e, mods, s);
  }

  // ---------------------------------------------------------------------
  // createValidObject

  /** Some case of `cases` carries the value `x`. */
  predicate Offers(cases: seq<TestCase>, x: Value) {
    exists t :: t in cases && t.value == x
  }

  /** One step of `createValidObject` adds at most the key of field `n - 1`,
      never the excluded one, and only after that field's valid list was
      built. */
  lemma CreateStepKeys(e: Env, shape: seq<(string, Schema)>, valids: seq<Result<seq<TestCase>, Failure>>,
                       exclude: Option<string>, n: nat)
    requires |valids| == |shape| && 0 < n <= |shape|
    requires CreateFold(e, shape, valids, exclude, n).Ok?
    ensures CreateFold(e, shape, valids, exclude, n - 1).Ok?
    ensures CreateFold(e, shape, valids, exclude, n).value.Keys
      <= CreateFold(e, shape, valids, exclude, n - 1).value.Keys
         + (if exclude == Some(shape[n - 1].0) then {} else {shape[n - 1].0})
    ensures exclude != Some(shape[n - 1].0) ==> valids[n - 1].Ok?
  {
  }

  /** The object built from the first `n` fields holds only their keys and
      never the excluded one, and building it needed every non-excluded
      field's valid list. */
  lemma {:induction false} CreateKeys(e: Env, shape: seq<(string, Schema)>, valids: seq<Result<seq<TestCase>, Failure>>,
                                      exclude: Option<string>, n: nat)
    requires |valids| == |shape| && n <= |shape|
    requires CreateFold(e, shape, valids, exclude, n).Ok?
    ensures forall k :: k in CreateFold(e, shape, valids, exclude, n).value ==>
      exists i :: 0 <= i < n && shape[i].0 == k && exclude != Some(k)
    ensures exclude.Some? ==> exclude.value !in CreateFold(e, shape, valids, exclude, n).value
    ensures forall i :: 0 <= i < n && exclude != Some(shape[i].0) ==> valids[i].Ok?
    decreases n
  {
    if n > 0 {
      CreateStepKeys(e, shape, valids, exclude, n);
      CreateKeys(e, shape, valids, exclude, n - 1);
      var prev := CreateFold(e, shape, valids, exclude, n - 1).value;
      var obj := CreateFold(e, shape, valids, exclude, n).value;
      forall k | k in obj
        ensures exists i :: 0 <= i < n && shape[i].0 == k && exclude != Some(k)
      {
        if k !in prev {
          assert shape[n - 1].0 == k && exclude != Some(k);
        }
      }
    }
  }

  /** Field `key` of `obj` is present exactly when the field's valid list
      `valid` is non-empty, and then holds one of that list's values. */
  predicate FieldCovered(valid: Result<seq<TestCase>, Failure>, key: string, obj: map<string, Value>) {
    valid.Ok?
    && (key in obj <==> |valid.value| > 0)
    && (key in obj ==> Offers(valid.value, obj[key]))
  }

  /** One step of `createValidObject` covers field `n - 1`, unless it is
      excluded. */
  lemma CreateStepCovers(e: Env, shape: seq<(string, Schema)>, valids: seq<Result<seq<TestCase>, Failure>>,
                         exclude: Option<string>, n: nat)
    requires |valids| == |shape| && 0 < n <= |shape| && DistinctKeys(shape)
    requires CreateFold(e, shape, valids, exclude, n).Ok?
    requires exclude != Some(shape[n - 1].0)
    ensures FieldCovered(valids[n - 1], shape[n - 1].0, CreateFold(e, shape, valids, exclude, n).value)
  {
    CreateKeys(e, shape, valids, exclude, n - 1);
    var prev := CreateFold(e, shape, valids, exclude, n - 1).value;
    var obj := CreateFold(e, shape, valids, exclude, n).value;
    var key := shape[n - 1].0;
    assert key !in prev;
    var cases := valids[n - 1].value;
    if |cases| == 0 {
      assert obj == prev;
    } else {
      var picked := Pick(e, key, cases).value;
      assert obj == prev[key := picked.value];
      assert Offers(cases, obj[key]);
    }
  }

  /** One step of `createValidObject` leaves every key but that of field
      `n - 1` as the object built from the fields before it has it. */
  lemma CreateStepKeeps(e: Env, shape: seq<(string, Schema)>, valids: seq<Result<seq<TestCase>, Failure>>,
                        exclude: Option<string>, n: nat, k: string)
    requires |valids| == |shape| && 0 < n <= |shape|
    requires CreateFold(e, shape, valids, exclude, n).Ok? && k != shape[n - 1].0
    ensures CreateFold(e, shape, valids, exclude, n - 1).Ok?
    ensures k in CreateFold(e, shape, valids, exclude, n).value <==> k in CreateFold(e, shape, valids, exclude, n - 1).value
    ensures k in CreateFold(e, shape, valids, exclude, n).value ==>
      CreateFold(e, shape, valids, exclude, n).value[k] == CreateFold(e, shape, valids, exclude, n - 1).value[k]
  {
  }

  /** Coverage of a field depends only on its own key. */
  lemma CoveredKept(valid: Result<seq<TestCase>, Failure>, key: string, prev: map<string, Value>, obj: map<string, Value>)
    requires FieldCovered(valid, key, prev)
    requires key in obj <==> key in prev
    requires key in obj ==> obj[key] == prev[key]
    ensures FieldCovered(valid, key, obj)
  {
  }

  /** Field `i`, unless excluded, stays covered by the object built from
      any longer prefix of the fields. */
  lemma {:induction false} CreateCoversAt(e: Env, shape: seq<(string, Schema)>, valids: seq<Result<seq<TestCase>, Failure>>,
                                          exclude: Option<string>, i: nat, n: nat)
    requires |valids| == |shape| && i < n <= |shape| && DistinctKeys(shape)
    requires CreateFold(e, shape, valids, exclude, n).Ok? && exclude != Some(shape[i].0)
    ensures FieldCovered(valids[i], shape[i].0, CreateFold(e, shape, valids, exclude, n).value)
    decreases n
  {
    if n == i + 1 {
      CreateStepCovers(e, shape, valids, exclude, n);
    } else {
      var k := shape[i].0;
      CreateStepKeeps(e, shape, valids, exclude, n, k);
      CreateCoversAt(e, shape, valids, exclude, i, n - 1);
      CoveredKept(valids[i], k, CreateFold(e, shape, valids, exclude, n - 1).value, CreateFold(e, shape, valids, exclude, n).value);
    }
  }

  /** With distinct keys, every field but the excluded one is present in the
      object `createValidObject` builds exactly when its valid list is
      non-empty, and then holds one of that list's values. */
  lemma CreateCovers(gens: Generators, v: Validator, e: Env, s: Schema, exclude: Option<string>)
    requires s.ZodObject? && ValidDrawsSuffice(gens, e, s) && DistinctKeys(s.shape)
    requires CreateSpec(gens, v, e, s, exclude, |s.shape|).Ok?
    ensures forall i :: 0 <= i < |s.shape| && exclude != Some(s.shape[i].0) ==>
      ValidDrawsSuffice(gens, e, s.shape[i].1)
      && FieldCovered(ValidSpec(gens, v, e, s.shape[i].1), s.shape[i].0, CreateSpec(gens, v, e, s, exclude, |s.shape|).value)
  {
    var valids := FieldValids(gens, v, e, s);
    forall i | 0 <= i < |s.shape| && exclude != Some(s.shape[i].0)
      ensures ValidDrawsSuffice(gens, e, s.shape[i].1)
        && FieldCovered(ValidSpec(gens, v, e, s.shape[i].1), s.shape[i].0, CreateSpec(gens, v, e, s, exclude, |s.shape|).value)
    {
      CreateCoversAt(e, s.shape, valids, exclude, i, |s.shape|);
      assert valids[i] == ValidSpec(gens, v, e, s.shape[i].1);
    }
  }

  // ---------------------------------------------------------------------
  // Per-field fixtures

  /** The fixtures joined over the first `n` fields contain those of each
      of them, and joining succeeded only if each of them did. */
  lemma {:induction false} JoinContains(parts: seq<Result<seq<TestCase>, Failure>>, n: nat, i: nat)
    requires i < n <= |parts| && JoinFold(parts, n).Ok?
    ensures parts[i].Ok?
    ensures forall t :: t in parts[i].value ==> t in JoinFold(parts, n).value
    decreases n
  {
    if i < n - 1 {
      JoinContains(parts, n - 1, i);
    }
  }

  /** Each valid fixture of field `i` sets the field's key to one of its
      valid values, even `undefined`, on an object of valid values for the
      other fields that lacks the key. */
  lemma ValidFieldFixtures(gens: Generators, v: Validator, e: Env, s: Schema, i: nat)
    requires s.ZodObject? && ValidDrawsSuffice(gens, e, s) && i < |s.shape|
    requires ValidFieldSpec(gens, v, e, s, i).Ok?
    ensures ValidSpec(gens, v, e, s.shape[i].1).Ok?
    ensures |ValidFieldSpec(gens, v, e, s, i).value| == |ValidSpec(gens, v, e, s.shape[i].1).value|
    ensures |ValidFieldSpec(gens, v, e, s, i).value| > 0 ==>
      var base := CreateSpec(gens, v, e, s, Some(s.shape[i].0), |s.shape|);
      base.Ok? && s.shape[i].0 !in base.value
      && forall j :: 0 <= j < |ValidFieldSpec(gens, v, e, s, i).value| ==>
        ValidFieldSpec(gens, v, e, s, i).value[j].value
          == Obj(base.value[s.shape[i].0 := ValidSpec(gens, v, e, s.shape[i].1).value[j].value])
  {
    var cases := ValidSpec(gens, v, e, s.shape[i].1);
    if cases.Ok? && |cases.value| > 0 {
      assert FixturesSpec(gens, v, e, s, s.shape[i].0, cases.value).Ok?;
      assert CreateSpec(gens, v, e, s, Some(s.shape[i].0), |s.shape|).Ok?;
      CreateKeys(e, s.shape, FieldValids(gens, v, e, s), Some(s.shape[i].0), |s.shape|);
    }
  }

  /** Field `i`'s invalid fixtures open with the missing-field fixture, an
      object of valid values without the field's key, exactly when the
      field is not wrapped in `ZodOptional`; a nullable field counts as
      required. */
  lemma MissingFieldFixture(gens: Generators, v: Validator, e: Env, s: Schema, i: nat)
    requires s.ZodObject? && InvalidDrawsSuffice(gens, v, e, s) && i < |s.shape|
    requires InvalidFieldSpec(gens, v, e, s, i).Ok?
    ensures s.shape[i].1.ZodOptional? ==> MissingSpec(gens, v, e, s, i) == Ok([])
    ensures !s.shape[i].1.ZodOptional? ==>
      var r := InvalidFieldSpec(gens, v, e, s, i).value;
      |r| >= 1 && r[0].description == MissingDescription(s.shape[i].0)
      && r[0].value.Obj? && s.shape[i].0 !in r[0].value.fields
  {
    if !s.shape[i].1.ZodOptional? {
      CreateKeys(e, s.shape, FieldValids(gens, v, e, s), Some(s.shape[i].0), |s.shape|);
    }
  }

  // ---------------------------------------------------------------------
  // Whole objects

  /** Filtering a list with one more case at the end. */
  lemma FilterAppend(cases: seq<TestCase>, last: TestCase, keep: bool)
    ensures Filter(cases + [last], keep) == Filter(cases, keep) + (if last.isValid == keep then [last] else [])
  {
    assert (cases + [last])[..|cases|] == cases;
  }

  /** The fixture with every field valid. */
  function AllValid(v: Validator, s: Schema, all: map<string, Value>): TestCase {
    Tc(v, s, "all fields with valid values", Obj(all))
  }

  /** The security fixture: a valid object with an extra `isAdmin: true`. */
  function Security(v: Validator, s: Schema, all: map<string, Value>): TestCase {
    Tc(v, s, SecurityDescription(), Obj(WithAdmin(all)))
  }

  /** `validObject` keeps the accepted per-field fixtures in order and then
      the all-valid fixture, when the library accepts it. */
  lemma ValidObjectShape(gens: Generators, v: Validator, e: Env, s: Schema)
    requires s.ZodObject? && ValidDrawsSuffice(gens, e, s)
    requires ValidObjectSpec(gens, v, e, s).Ok?
    ensures ValidFieldsSpec(gens, v, e, s, |s.shape|).Ok? && CreateSpec(gens, v, e, s, None, |s.shape|).Ok?
    ensures var all := AllValid(v, s, CreateSpec(gens, v, e, s, None, |s.shape|).value);
      ValidObjectSpec(gens, v, e, s).value
        == Filter(ValidFieldsSpec(gens, v, e, s, |s.shape|).value, true)
           + (if v.accepts(s, all.value) then [all] else [])
  {
    var fields := ValidFieldsSpec(gens, v, e, s, |s.shape|).value;
    var all := AllValid(v, s, CreateSpec(gens, v, e, s, None, |s.shape|).value);
    FilterAppend(fields, all, true);
  }

  /** `invalidObject` keeps the rejected per-field fixtures in order and then
      the security fixture, exactly when the library rejects it. */
  lemma InvalidObjectShape(gens: Generators, v: Validator, e: Env, s: Schema)
    requires s.ZodObject? && InvalidDrawsSuffice(gens, v, e, s)
    requires InvalidObjectSpec(gens, v, e, s).Ok?
    ensures InvalidFieldsSpec(gens, v, e, s, |s.shape|).Ok? && CreateSpec(gens, v, e, s, None, |s.shape|).Ok?
    ensures var sec := Security(v, s, CreateSpec(gens, v, e, s, None, |s.shape|).value);
      InvalidObjectSpec(gens, v, e, s).value
        == Filter(InvalidFieldsSpec(gens, v, e, s, |s.shape|).value, false)
           + (if v.accepts(s, sec.value) then [] else [sec])
  {
    var fields := InvalidFieldsSpec(gens, v, e, s, |s.shape|).value;
    var sec := Security(v, s, CreateSpec(gens, v, e, s, None, |s.shape|).value);
    FilterAppend(fields, sec, false);
  }

  /** A required field's missing-field fixture is among `invalidObject`'s
      cases exactly when the library rejects it. */
  lemma MissingFixtureKeptIffRejected(gens: Generators, v: Validator, e: Env, s: Schema, i: nat)
    requires s.ZodObject? && InvalidDrawsSuffice(gens, v, e, s) && i < |s.shape|
    requires !s.shape[i].1.ZodOptional?
    requires InvalidObjectSpec(gens, v, e, s).Ok?
    ensures InvalidFieldSpec(gens, v, e, s, i).Ok? && |InvalidFieldSpec(gens, v, e, s, i).value| >= 1
    ensures var t := InvalidFieldSpec(gens, v, e, s, i).value[0];
      t in InvalidObjectSpec(gens, v, e, s).value <==> !v.accepts(s, t.value)
  {
    JoinContains(InvalidFieldList(gens, v, e, s), |s.shape|, i);
    MissingFieldFixture(gens, v, e, s, i);
    var t := InvalidFieldSpec(gens, v, e, s, i).value[0];
    var fields := InvalidFieldsSpec(gens, v, e, s, |s.shape|).value;
    assert t in fields;
    var all := CreateSpec(gens, v, e, s, None, |s.shape|).value;
    assert t in fields + [Security(v, s, all)];
  }

  /** The total length of the valid lists of the first `n` fields. */
  ghost function ValidCaseTotal(gens: Generators, v: Validator, e: Env, s: Schema, n: nat): nat
    requires s.ZodObject? && ValidDrawsSuffice(gens, e, s) && n <= |s.shape|
  {
    if n == 0 then 0
    else
      var cases := ValidSpec(gens, v, e, s.shape[n - 1].1);
      ValidCaseTotal(gens, v, e, s, n - 1) + (if cases.Ok? then |cases.value| else 0)
  }

  /** One per-field fixture for each valid case of each field. */
  lemma {:induction false} ValidFieldsCount(gens: Generators, v: Validator, e: Env, s: Schema, n: nat)
    requires s.ZodObject? && ValidDrawsSuffice(gens, e, s) && n <= |s.shape|
    requires ValidFieldsSpec(gens, v, e, s, n).Ok?
    ensures |ValidFieldsSpec(gens, v, e, s, n).value| == ValidCaseTotal(gens, v, e, s, n)
    decreases n
  {
    if n > 0 {
      var parts := ValidFieldList(gens, v, e, s);
      ValidFieldsCount(gens, v, e, s, n - 1);
      JoinNext(parts, n - 1, ValidFieldsSpec(gens, v, e, s, n - 1).value);
      ValidFieldFixtures(gens, v, e, s, n - 1);
    }
  }

  /** `validObject` returns at most one case per valid case of each field,
      plus the all-valid fixture. */
  lemma ValidObjectCount(gens: Generators, v: Validator, e: Env, s: Schema)
    requires s.ZodObject? && ValidDrawsSuffice(gens, e, s)
    requires ValidObjectSpec(gens, v, e, s).Ok?
    ensures |ValidObjectSpec(gens, v, e, s).value| <= ValidCaseTotal(gens, v, e, s, |s.shape|) + 1
  {
    ValidObjectShape(gens, v, e, s);
    ValidFieldsCount(gens, v, e, s, |s.shape|);
  }
}
