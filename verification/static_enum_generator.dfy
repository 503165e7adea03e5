/** The older, static enum generator: one hand-labelled valid case per member,
    and a fixed list of five invalid inputs that does not look at the members. */
module StaticEnumGenerator {
  import opened Schemas
  import opened Values

  function ValidDescription(member: string): string {
    "valid enum value: " + member
  }

  /** The cases `generateValidCases` pushes for the first `n` members. */
  function ValidPrefix(values: seq<string>, n: nat): (r: seq<TestCase>)
    requires n <= |values|
    ensures |r| == n
    ensures forall i :: 0 <= i < n ==>
      r[i] == Labelled(ValidDescription(values[i]), Str(values[i]), true)
  {
    if n == 0 then [] else ValidPrefix(values, n - 1) + [Labelled(ValidDescription(values[n - 1]), Str(values[n - 1]), true)]
  }

  /** `generateValidCases`: every member, in declaration order, labelled valid. */
  function ValidCases(s: Schema): (r: seq<TestCase>)
    requires s.ZodEnum?
    ensures |r| == |s.values|
    ensures forall i :: 0 <= i < |r| ==> r[i].value == Str(s.values[i]) && r[i].isValid
  {
    ValidPrefix(s.values, |s.values|)
  }

  /** The `forEach` loop of `generateValidCases`. */
  method Valid(s: Schema) returns (r: seq<TestCase>)
    requires s.ZodEnum?
    ensures r == ValidCases(s)
  {
    r := [];
    for i := 0 to |s.values|
      invariant r == ValidPrefix(s.values, i)
    {
      r := r + [Labelled(ValidDescription(s.values[i]), Str(s.values[i]), true)];
    }
  }

  /** The five inputs of `generateInvalidCases`, with the text a template
      literal renders for each. */
  const InvalidInputs: seq<(string, Value)> := [
    ("not-a-valid-enum", Str("not-a-valid-enum")),
    ("VALUE3", Str("VALUE3")),
    ("123", Int(123)),
    ("null", Null),
    ("undefined", Undefined)
  ]

  function InvalidPrefix(n: nat): (r: seq<TestCase>)
    requires n <= |InvalidInputs|
    ensures |r| == n
    ensures forall i :: 0 <= i < n ==>
      r[i] == Labelled("invalid enum value: " + InvalidInputs[i].0, InvalidInputs[i].1, false)
  {
    if n == 0 then [] else InvalidPrefix(n - 1) + [Labelled("invalid enum value: " + InvalidInputs[n - 1].0, InvalidInputs[n - 1].1, false)]
  }

  /** `generateInvalidCases`: the same five cases whatever the members are. */
  function InvalidCases(s: Schema): (r: seq<TestCase>)
    requires s.ZodEnum?
    ensures |r| == 5
    ensures forall t :: t in r ==> !t.isValid
  {
    InvalidPrefix(|InvalidInputs|)
  }

  /** The `forEach` loop of `generateInvalidCases`. */
  method Invalid(s: Schema) returns (r: seq<TestCase>)
    requires s.ZodEnum?
    ensures r == InvalidCases(s)
  {
    r := [];
    for i := 0 to |InvalidInputs|
      invariant r == InvalidPrefix(i)
    {
      r := r + [Labelled("invalid enum value: " + InvalidInputs[i].0, InvalidInputs[i].1, false)];
    }
  }

  /** The invalid list does not depend on the members. */
  lemma InvalidIgnoresMembers(s: Schema, u: Schema)
    requires s.ZodEnum? && u.ZodEnum?
    ensures InvalidCases(s) == InvalidCases(u)
  {
  }

  /** The fixed list assumes the members are not "VALUE3": for an enum that
      has that member, a member is offered in the invalid bucket. */
  lemma MemberLabelledInvalid(s: Schema)
    requires s.ZodEnum? && "VALUE3" in s.values
    ensures exists t :: t in InvalidCases(s) && !t.isValid && t.value.Str? && t.value.s in s.values
  {
    var r := InvalidCases(s);
    assert r[1].value == Str("VALUE3");
  }

  /** Every member is offered exactly at its own position in the valid list,
      so a member appears in it as often as it is declared. */
  lemma ValidOffersEveryMember(s: Schema, x: string)
    requires s.ZodEnum?
    ensures Str(x) in ValuesOf(ValidCases(s)) <==> x in s.values
  {
    var r := ValidCases(s);
    if x in s.values {
      var i :| 0 <= i < |s.values| && s.values[i] == x;
      assert ValuesOf(r)[i] == Str(x);
    }
  }
}
