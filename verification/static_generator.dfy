/** The older dispatcher: a chain of kind tests that hands strings and numbers
    to the static generators, enums (in the invalid bucket) to the static enum
    generator, effects to the effects generator, and returns nothing for every
    other kind. */
module StaticGenerator {
  import opened Wrappers
  import opened Schemas
  import opened Values
  import opened Draws
  import StaticStringGenerator
  import StaticNumberGenerator
  import StaticEnumGenerator

  /** `ZodEffectsGenerator.valid`, which is not part of this model. */
  type EffectsGenerator = Schema -> Result<seq<TestCase>, Failure>

  /** `TestCaseGenerator.valid`. An optional or nullable schema recurses into
      its inner schema and drops the result, so only an exception from the
      recursion is observable. */
  function ValidCases(e: Env, effects: EffectsGenerator, s: Schema): (r: Result<seq<TestCase>, Failure>)
    ensures s.ZodNumber? ==> r.Ok?
    ensures r.Ok? && s.ZodString? ==> |r.value| == 1 && r.value[0].isValid
    ensures r.Ok? && !s.ZodString? && !s.ZodNumber? && !s.ZodEffects? ==> r.value == []
  {
    match s
    case ZodString(_) => StaticStringGenerator.ValidCases(e, s)
    case ZodNumber(_) => Ok(StaticNumberGenerator.ValidCases(s))
    case ZodOptional(inner) =>
      var _ :- ValidCases(e, effects, inner);
      Ok([])
    case ZodNullable(inner) =>
      var _ :- ValidCases(e, effects, inner);
      Ok([])
    case ZodEffects(_, _) => effects(s)
    case _ => Ok([])
  }

  /** `TestCaseGenerator.invalid`: only an enum yields cases, and those are the
      enum's valid cases. The recursive calls for optional, nullable and
      effects schemas return lists that are dropped and cannot throw. */
  function InvalidCases(s: Schema): (r: seq<TestCase>)
    ensures !s.ZodEnum? ==> r == []
    ensures s.ZodEnum? ==> |r| == |s.values|
  {
    if s.ZodEnum? then StaticEnumGenerator.ValidCases(s) else []
  }

  /** An optional or nullable wrapper never contributes a case: it succeeds
      with the empty list exactly when its inner schema succeeds, and
      otherwise fails the same way. */
  lemma {:induction false} ModifierDiscardsInner(e: Env, effects: EffectsGenerator, s: Schema)
    requires s.ZodOptional? || s.ZodNullable?
    ensures ValidCases(e, effects, s).Ok? <==> ValidCases(e, effects, s.inner).Ok?
    ensures ValidCases(e, effects, s).Ok? ==> ValidCases(e, effects, s).value == []
    ensures ValidCases(e, effects, s).Err? ==> ValidCases(e, effects, s) == ValidCases(e, effects, s.inner)
  {
  }

  /** An optional number has no valid case, although the number alone may
      have several. */
  lemma OptionalNumberLosesCases(e: Env, effects: EffectsGenerator, s: Schema)
    requires s.ZodNumber?
    ensures ValidCases(e, effects, ZodOptional(s)) == Ok([])
    ensures ValidCases(e, effects, s) == Ok(StaticNumberGenerator.ValidCases(s))
  {
  }

  /** The invalid bucket of an enum holds one case per member, every one of
      them with the member as value and marked valid. */
  lemma InvalidOfEnumMarkedValid(s: Schema)
    requires s.ZodEnum?
    ensures |InvalidCases(s)| == |s.values|
    ensures forall i :: 0 <= i < |s.values| ==>
      InvalidCases(s)[i].value == Str(s.values[i]) && InvalidCases(s)[i].isValid
  {
  }
}
