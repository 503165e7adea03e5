/** The candidate values the generators synthesise and the test-case record
    they emit. */
module Values {
  import opened Wrappers
  import opened JsNumbers

  /** A JavaScript value as far as the generators build one. An object is a
      map from keys to values; a key set to `undefined` is present. */
  datatype Value =
    | Undefined
    | Null
    | Bool(b: bool)
    | Num(n: JsNumber)
    | Str(s: string)
    | Arr(items: seq<Value>)
    | Obj(fields: map<string, Value>)
    | DateObj(time: int)

  /** An integral number literal. */
  function Int(i: int): Value {
    Num(Fin(i as real))
  }

  /** A generated case: `isValid` is the bucket it was emitted in, and
      `expectedMessage` the schema library's first diagnostic, when recorded. */
  datatype TestCase = TestCase(
    description: string,
    value: Value,
    isValid: bool,
    expectedMessage: Option<string>)

  /** A hand-labelled case, as the generators that consult no oracle write them. */
  function Labelled(description: string, value: Value, isValid: bool): TestCase {
    TestCase(description, value, isValid, None)
  }

  function ValuesOf(cases: seq<TestCase>): (r: seq<Value>)
    ensures |r| == |cases|
    ensures forall i :: 0 <= i < |r| ==> r[i] == cases[i].value
  {
    seq(|cases|, i requires 0 <= i < |cases| => cases[i].value)
  }

  /** An exception thrown by the generators or by a library they call; it
      propagates to the caller of `valid`/`invalid` and no list is returned. */
  datatype Failure =
    | NoGenerator(kindName: string)
    | NotApplicable(generator: string, kindName: string)
    | FakerRange(min: int, max: int)
    | ReadOfUndefined
    | InvalidTimeValue
    | FormatRejected(pattern: Option<string>)

  /** The text of the `Error` the dispatcher throws for an unregistered kind. */
  function NoGeneratorMessage(kindName: string): string {
    "No generator found for schema type: " + kindName
  }
}
