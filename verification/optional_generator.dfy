/** The registry's generator for optional wrappers: `undefined` is the one
    value an optional schema adds; it contributes no invalid case. */
module OptionalGenerator {
  import opened Values

  /** `valid()`: `undefined`, labelled valid. */
  function ValidCases(): (r: seq<TestCase>)
    ensures ValuesOf(r) == [Undefined]
    ensures forall t :: t in r ==> t.isValid && t.expectedMessage.None?
  {
    [Labelled("valid undefined for optional", Undefined, true)]
  }

  /** `invalid()`: nothing. */
  function InvalidCases(): (r: seq<TestCase>)
    ensures |r| == 0
  {
    []
  }
}
