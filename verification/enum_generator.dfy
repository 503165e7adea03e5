/** The registry's enum generator: one case per member for the valid bucket;
    wrong-type values and a random ten-letter word outside the enum for the
    invalid bucket. Cases are labelled with the oracle's verdict and are not
    filtered. */
module EnumGenerator {
  import opened Wrappers
  import opened Schemas
  import opened Values
  import opened Oracle
  import opened Draws
  import opened TestCaseUtils
  import Search

  const Alphabet: string := "abcdefghijklmnopqrstuvwxyz"

  predicate IsLower(c: char) {
    'a' <= c <= 'z'
  }

  /** `alphabet[Math.floor(r * alphabet.length)]`, joined: a draw outside
      [0, 1) reads past the alphabet, and `join` renders `undefined` as the
      empty string. */
  function Letter(r: real): (s: string)
    ensures |s| <= 1
    ensures forall c :: c in s ==> IsLower(c)
  {
    var i := (r * 26.0).Floor;
    if 0 <= i < 26 then [Alphabet[i]] else ""
  }

  /** The first `n` letters of attempt `k` of the word loop. */
  function WordPrefix(e: Env, k: nat, n: nat): (s: string)
    requires n <= 10
    ensures |s| <= n
    ensures forall c :: c in s ==> IsLower(c)
  {
    if n == 0 then "" else WordPrefix(e, k, n - 1) + Letter(e.letterDraws(10 * k + n - 1))
  }

  /** The ten-letter word drawn in attempt `k`. */
  function Word(e: Env, k: nat): string {
    WordPrefix(e, k, 10)
  }

  /** For draws in [0, 1) every letter lands in the alphabet, so the word has
      exactly ten lower-case letters. */
  lemma {:induction false} WordPrefixLength(e: Env, k: nat, n: nat)
    requires Fair(e) && n <= 10
    ensures |WordPrefix(e, k, n)| == n
  {
    if n > 0 {
      WordPrefixLength(e, k, n - 1);
      var r := e.letterDraws(10 * k + n - 1);
      assert 0.0 <= r * 26.0 < 26.0;
    }
  }

  lemma WordHasTenLetters(e: Env, k: nat)
    requires Fair(e)
    ensures |Word(e, k)| == 10
    ensures forall c :: c in Word(e, k) ==> IsLower(c)
  {
    WordPrefixLength(e, k, 10);
  }

  function WordTaken(e: Env, values: seq<string>): nat -> bool {
    (k: nat) => Word(e, k) !in values
  }

  /** The premise under which the word loop ends: some attempt draws a word
      that is not a member. */
  ghost predicate InvalidTerminates(e: Env, s: Schema)
    requires s.ZodEnum?
  {
    exists k: nat :: WordTaken(e, s.values)(k)
  }

  /** `generateInvalidEnumString`: draw words until one is not a member. */
  method GenerateInvalidEnumString(e: Env, values: seq<string>) returns (w: string)
    requires exists k: nat :: WordTaken(e, values)(k)
    ensures w !in values
    ensures w == Word(e, Search.First(WordTaken(e, values)))
  {
    ghost var unused := WordTaken(e, values);
    ghost var bound: nat :| unused(bound);
    var attempt := 0;
    w := Word(e, attempt);
    while w in values
      invariant attempt <= bound
      invariant w == Word(e, attempt)
      invariant forall j: nat :: j < attempt ==> !unused(j)
      decreases bound - attempt
    {
      attempt := attempt + 1;
      w := Word(e, attempt);
    }
    Search.FirstIsUnique(unused, attempt);
  }

  function AcceptDescription(value: string): string {
    "Should accept a valid enum value: " + value
  }

  /** `valid(schema)`: one case per member, in declaration order, labelled
      with the library's verdict. */
  function ValidCases(v: Validator, s: Schema): (r: seq<TestCase>)
    requires s.ZodEnum?
    ensures |r| == |s.values|
    ensures forall i :: 0 <= i < |r| ==>
      r[i].value == Str(s.values[i]) && r[i].description == AcceptDescription(s.values[i])
      && (r[i].isValid <==> v.accepts(s, Str(s.values[i]))) && r[i].expectedMessage.None?
  {
    seq(|s.values|, i requires 0 <= i < |s.values| => Tc(v, s, AcceptDescription(s.values[i]), Str(s.values[i])))
  }

  /** `valid(schema)`: the `forEach` over the members. */
  method Valid(v: Validator, s: Schema) returns (r: seq<TestCase>)
    requires s.ZodEnum?
    ensures r == ValidCases(v, s)
  {
    var cases := new CaseList();
    for i := 0 to |s.values|
      invariant cases.cases == ValidCases(v, s)[..i]
    {
      cases.cases := cases.cases + [Tc(v, s, AcceptDescription(s.values[i]), Str(s.values[i]))];
    }
    return cases.cases;
  }

  /** The five fixed candidates of `invalid`. */
  function FixedInvalid(v: Validator, s: Schema): seq<TestCase> {
    [ Tc(v, s, "Should reject value not present in enum definition", Str("invalid_enum_value")),
      Tc(v, s, "Should reject number type when enum expects string", Int(123)),
      Tc(v, s, "Should reject boolean type when enum expects string", Bool(true)),
      Tc(v, s, "Should reject object type when enum expects string", Obj(map[])),
      Tc(v, s, "Should reject array type when enum expects string", Arr([])) ]
  }

  /** `invalid(schema)`: the five fixed candidates, then the first drawn word
      that is not a member, each labelled with the library's verdict. */
  ghost function InvalidCases(v: Validator, e: Env, s: Schema): (r: seq<TestCase>)
    requires s.ZodEnum? && InvalidTerminates(e, s)
    ensures |r| == 6 && r[..5] == FixedInvalid(v, s)
    ensures r[5].value.Str? && r[5].value.s !in s.values
    ensures r[5].isValid <==> v.accepts(s, r[5].value)
  {
    var w := Word(e, Search.First(WordTaken(e, s.values)));
    FixedInvalid(v, s) + [Tc(v, s, "Should reject a string that is not present in enum definition", Str(w))]
  }

  /** `invalid(schema)`. */
  method Invalid(v: Validator, e: Env, s: Schema) returns (r: seq<TestCase>)
    requires s.ZodEnum? && InvalidTerminates(e, s)
    ensures r == InvalidCases(v, e, s)
  {
    var cases := new CaseList();
    cases.cases := cases.cases + [Tc(v, s, "Should reject value not present in enum definition", Str("invalid_enum_value"))];
    cases.cases := cases.cases + [Tc(v, s, "Should reject number type when enum expects string", Int(123))];
    cases.cases := cases.cases + [Tc(v, s, "Should reject boolean type when enum expects string", Bool(true))];
    cases.cases := cases.cases + [Tc(v, s, "Should reject object type when enum expects string", Obj(map[]))];
    cases.cases := cases.cases + [Tc(v, s, "Should reject array type when enum expects string", Arr([]))];
    var w := GenerateInvalidEnumString(e, s.values);
    cases.cases := cases.cases + [Tc(v, s, "Should reject a string that is not present in enum definition", Str(w))];
    return cases.cases;
  }

  /** For fair draws the drawn non-member is a ten-letter lower-case word. */
  lemma InvalidWordShape(v: Validator, e: Env, s: Schema)
    requires s.ZodEnum? && InvalidTerminates(e, s) && Fair(e)
    ensures var w := InvalidCases(v, e, s)[5].value.s;
      |w| == 10 && forall c :: c in w ==> IsLower(c)
  {
    WordHasTenLetters(e, Search.First(WordTaken(e, s.values)));
  }

  /** A value is a member of the enum: one of its strings. */
  predicate IsMember(s: Schema, x: Value)
    requires s.ZodEnum?
  {
    x.Str? && x.s in s.values
  }

  /** When the enum does not itself declare "invalid_enum_value", no invalid
      candidate is a member, so each is one the library should reject. */
  lemma InvalidAreNonMembers(v: Validator, e: Env, s: Schema)
    requires s.ZodEnum? && InvalidTerminates(e, s)
    requires "invalid_enum_value" !in s.values
    ensures forall t :: t in InvalidCases(v, e, s) ==> !IsMember(s, t.value)
  {
    var r := InvalidCases(v, e, s);
    assert r == FixedInvalid(v, s) + [r[5]];
  }
}
