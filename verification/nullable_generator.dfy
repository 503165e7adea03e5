/** The registry's generator for nullable wrappers: `null` is the one value a
    nullable schema adds; it contributes no invalid case. */
module NullableGenerator {
  import opened Values

  /** `valid()`: `null`, labelled valid. */
  function ValidCases(): (r: seq<TestCase>)
    ensures ValuesOf(r) == [Null]
    ensures forall t :: t in r ==> t.isValid && t.expectedMessage.None?
  {
    [Labelled("valid null for nullable", Null, true)]
  }

  /** `invalid()`: nothing. */
  function InvalidCases(): (r: seq<TestCase>)
    ensures |r| == 0
  {
    []
  }
}
