/** The registry's boolean generator: fixed, hand-labelled lists; the oracle
    is not consulted. */
module BooleanGenerator {
  import opened JsNumbers
  import opened Values

  /** `valid()`: both boolean literals, labelled valid. */
  function ValidCases(): (r: seq<TestCase>)
    ensures |r| == 2 && ValuesOf(r) == [Bool(true), Bool(false)]
    ensures forall t :: t in r ==> t.isValid && t.expectedMessage.None?
  {
    [ Labelled("Should accept boolean true value", Bool(true), true),
      Labelled("Should accept boolean false value", Bool(false), true) ]
  }

  /** `invalid()`: nine values of other types (the null and undefined
      entries are commented out in the source), labelled invalid. */
  function InvalidCases(): (r: seq<TestCase>)
    ensures |r| == 9
    ensures forall t :: t in r ==> !t.isValid && !t.value.Bool? && t.expectedMessage.None?
  {
    [ Labelled("Should reject string 'true' as invalid boolean", Str("true"), false),
      Labelled("Should reject string 'false' as invalid boolean", Str("false"), false),
      Labelled("Should reject number 1 as invalid boolean", Int(1), false),
      Labelled("Should reject number 0 as invalid boolean", Int(0), false),
      Labelled("Should reject object value as invalid boolean", Obj(map[]), false),
      Labelled("Should reject array value as invalid boolean", Arr([]), false),
      Labelled("Should reject NaN as invalid boolean", Num(NaN), false),
      Labelled("Should reject number Infinity as invalid boolean", Num(PosInf), false),
      Labelled("Should reject number -Infinity as invalid boolean", Num(NegInf), false) ]
  }

  /** No value is offered in both buckets, and every boolean value is offered
      as valid. */
  lemma BucketsPartition()
    ensures forall t, u :: t in ValidCases() && u in InvalidCases() ==> t.value != u.value
    ensures forall b: bool :: Bool(b) in ValuesOf(ValidCases())
  {
    var r := ValidCases();
    var vs := ValuesOf(r);
    forall t | t in r
      ensures t.value.Bool?
    {
      var i :| 0 <= i < |r| && r[i] == t;
      assert t.value == vs[i];
    }
    assert vs[0] == Bool(true) && vs[1] == Bool(false);
  }
}
