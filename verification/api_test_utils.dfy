/** The table-driven case builder for API tests: per field type, a fixed
    table of valid and invalid inputs, extended by caller-supplied inputs and
    turned into expectation records. */
module ApiTestUtils {
  import opened Wrappers
  import opened JsNumbers
  import opened Schemas
  import opened Values

  /** The table entries that are drawn or read from the clock when the module
      loads: `faker.lorem.word()`, `faker.lorem.words(3)`, `new Date()` and
      `new Date(2023, 0, 1)`, which is midnight in the host's time zone. */
  datatype Samples = Samples(word: string, words: string, now: int, localNewYear: int)

  datatype Table = Table(valid: seq<Value>, invalid: seq<Value>)

  /** `new Date('2023-01-01')`: a date-only ISO text is read as UTC midnight. */
  const NewYearUtc: int := 1672531200000

  const MaxSafeInteger: real := 9007199254740991.0

  function Real(r: real): Value {
    Num(Fin(r))
  }

  /** `TestValues`: the standard inputs per field type. */
  function TestValues(f: Samples): (t: map<string, Table>)
    ensures t.Keys == {"string", "number", "boolean", "date", "email", "url", "array", "object"}
  {
    map[
      "string" := Table(
        [Str(f.word), Str(f.words), Str("Normal string"), Str(" Padded string "), Str("Special @#$% chars")],
        [Str(""), Str(" "), Null, Undefined, Int(123), Bool(true), Arr([]), Obj(map[])]),
      "number" := Table(
        [Int(0), Int(1), Int(-1), Real(1.5), Real(-1.5), Real(MaxSafeInteger), Real(-MaxSafeInteger)],
        [Null, Undefined, Str(""), Str("abc"), Num(NaN), Num(PosInf), Num(NegInf), Arr([]), Obj(map[])]),
      "boolean" := Table(
        [Bool(true), Bool(false)],
        [Null, Undefined, Int(0), Int(1), Str(""), Str("true"), Str("false"), Arr([]), Obj(map[])]),
      "date" := Table(
        [DateObj(f.now), DateObj(NewYearUtc), DateObj(f.localNewYear)],
        [Null, Undefined, Str(""), Str("not a date"), Str("2023-01-01"), Int(123456789), Obj(map[])]),
      "email" := Table(
        [Str("test@example.com"), Str("user.name+tag@example.co.uk"), Str("123@domain.com")],
        [Null, Undefined, Str(""), Str("notanemail"), Str("@domain.com"), Str("user@"), Str("user@.com"), Obj(map[])]),
      "url" := Table(
        [Str("https://example.com"), Str("http://sub.domain.co.uk/path?query=1"), Str("https://localhost:3000")],
        [Null, Undefined, Str(""), Str("notaurl"), Str("http://"), Str("https://"), Str("example.com")]),
      "array" := Table(
        [Arr([]), Arr([Int(1), Int(2), Int(3)]), Arr([Str("a"), Str("b"), Str("c")])],
        [Null, Undefined, Str(""), Str("not an array"), Int(123), Obj(map[])]),
      "object" := Table(
        [Obj(map[]), Obj(map["key" := Str("value")]), Obj(map["nested" := Obj(map["key" := Str("value")])])],
        [Null, Undefined, Str(""), Str("not an object"), Int(123), Arr([])])
    ]
  }

  /** `getFieldType`: the name of six schema kinds, and "string" for any
      other kind. */
  function GetFieldType(s: Schema): (r: string)
    ensures r in {"string", "number", "boolean", "date", "array", "object"}
    ensures s.ZodNumber? <==> r == "number"
    ensures s.ZodBoolean? <==> r == "boolean"
    ensures s.ZodDate? <==> r == "date"
    ensures s.ZodArray? <==> r == "array"
    ensures s.ZodObject? <==> r == "object"
  {
    match s
    case ZodString(_) => "string"
    case ZodNumber(_) => "number"
    case ZodBoolean => "boolean"
    case ZodDate => "date"
    case ZodArray(_) => "array"
    case ZodObject(_) => "object"
    case _ => "string"
  }

  /** `TestValues[fieldType] || TestValues.string` */
  function Standard(f: Samples, fieldType: string): Table {
    var t := TestValues(f);
    if fieldType in t then t[fieldType] else t["string"]
  }

  /** What a generated case expects: validity, the value a valid input should
      yield, and the error an invalid one should raise. */
  datatype Expected = Expected(isValid: bool, value: Option<Value>, error: Option<string>)

  datatype ApiTestCase = ApiTestCase(description: string, input: Value, expected: Expected)

  /** The case pushed for a valid input; `stringify` is `JSON.stringify`. */
  function ValidEntry(fieldName: string, fieldType: string, stringify: Value -> string, input: Value): ApiTestCase {
    ApiTestCase(fieldName + " should accept valid " + fieldType + ": " + stringify(input), input, Expected(true, Some(input), None))
  }

  function InvalidEntry(fieldName: string, stringify: Value -> string, input: Value): ApiTestCase {
    ApiTestCase(fieldName + " should reject invalid input: " + stringify(input), input, Expected(false, None, Some("Invalid input")))
  }

  /** The cases pushed for the valid inputs, one per input, in order. */
  function ValidEntries(fieldName: string, fieldType: string, stringify: Value -> string, inputs: seq<Value>): (r: seq<ApiTestCase>)
    ensures |r| == |inputs|
    ensures forall i :: 0 <= i < |r| ==>
      r[i].input == inputs[i] && r[i].expected == Expected(true, Some(inputs[i]), None)
  {
    if inputs == [] then []
    else
      ValidEntries(fieldName, fieldType, stringify, inputs[..|inputs| - 1])
      + [ValidEntry(fieldName, fieldType, stringify, inputs[|inputs| - 1])]
  }

  /** The cases pushed for the invalid inputs, one per input, in order. */
  function InvalidEntries(fieldName: string, stringify: Value -> string, inputs: seq<Value>): (r: seq<ApiTestCase>)
    ensures |r| == |inputs|
    ensures forall i :: 0 <= i < |r| ==>
      r[i].input == inputs[i] && r[i].expected == Expected(false, None, Some("Invalid input"))
  {
    if inputs == [] then []
    else
      InvalidEntries(fieldName, stringify, inputs[..|inputs| - 1])
      + [InvalidEntry(fieldName, stringify, inputs[|inputs| - 1])]
  }

  /** The list `generateTestCases` returns. */
  function TestCases(f: Samples, stringify: Value -> string, fieldName: string, s: Schema,
                     customValid: seq<Value>, customInvalid: seq<Value>): (r: seq<ApiTestCase>)
    ensures var std := Standard(f, GetFieldType(s));
      |r| == |std.valid| + |customValid| + |std.invalid| + |customInvalid|
  {
    var fieldType := GetFieldType(s);
    var std := Standard(f, fieldType);
    ValidEntries(fieldName, fieldType, stringify, std.valid + customValid)
    + InvalidEntries(fieldName, stringify, std.invalid + customInvalid)
  }

  /** `generateTestCases`: the valid inputs, then the invalid inputs, each
      pushed by its own `forEach` loop. */
  method GenerateTestCases(f: Samples, stringify: Value -> string, fieldName: string, s: Schema,
                           customValid: seq<Value>, customInvalid: seq<Value>)
    returns (testCases: seq<ApiTestCase>)
    ensures testCases == TestCases(f, stringify, fieldName, s, customValid, customInvalid)
  {
    var fieldType := GetFieldType(s);
    var std := Standard(f, fieldType);
    testCases := PushBoth(fieldName, fieldType, stringify, std.valid + customValid, std.invalid + customInvalid);
  }

  /** Both `forEach` loops, the valid inputs first. */
  method PushBoth(fieldName: string, fieldType: string, stringify: Value -> string, valid: seq<Value>, invalid: seq<Value>)
    returns (testCases: seq<ApiTestCase>)
    ensures testCases == ValidEntries(fieldName, fieldType, stringify, valid) + InvalidEntries(fieldName, stringify, invalid)
  {
    testCases := PushValid([], fieldName, fieldType, stringify, valid);
    testCases := PushInvalid(testCases, fieldName, stringify, invalid);
    assert testCases == [] + ValidEntries(fieldName, fieldType, stringify, valid) + InvalidEntries(fieldName, stringify, invalid);
  }

  /** `[...standard.valid, ...customValid].forEach(...)` */
  method PushValid(before: seq<ApiTestCase>, fieldName: string, fieldType: string, stringify: Value -> string, inputs: seq<Value>)
    returns (testCases: seq<ApiTestCase>)
    ensures testCases == before + ValidEntries(fieldName, fieldType, stringify, inputs)
  {
    testCases := before;
    for i := 0 to |inputs|
      invariant testCases == before + ValidEntries(fieldName, fieldType, stringify, inputs[..i])
    {
      assert inputs[..i + 1][..i] == inputs[..i];
      testCases := testCases + [ValidEntry(fieldName, fieldType, stringify, inputs[i])];
    }
    assert inputs[..|inputs|] == inputs;
  }

  /** `[...standard.invalid, ...customInvalid].forEach(...)` */
  method PushInvalid(before: seq<ApiTestCase>, fieldName: string, stringify: Value -> string, inputs: seq<Value>)
    returns (testCases: seq<ApiTestCase>)
    ensures testCases == before + InvalidEntries(fieldName, stringify, inputs)
  {
    testCases := before;
    for j := 0 to |inputs|
      invariant testCases == before + InvalidEntries(fieldName, stringify, inputs[..j])
    {
      assert inputs[..j + 1][..j] == inputs[..j];
      testCases := testCases + [InvalidEntry(fieldName, stringify, inputs[j])];
    }
    assert inputs[..|inputs|] == inputs;
  }

  /** The inputs come out in the order standard valid, custom valid, standard
      invalid, custom invalid; every valid expectation carries its input as
      the value, every invalid one the error "Invalid input". */
  lemma {:induction false} OrderAndExpectations(f: Samples, stringify: Value -> string, fieldName: string, s: Schema,
                                                customValid: seq<Value>, customInvalid: seq<Value>)
    ensures var r := TestCases(f, stringify, fieldName, s, customValid, customInvalid);
      var std := Standard(f, GetFieldType(s));
      var inputs := std.valid + customValid + std.invalid + customInvalid;
      var k := |std.valid| + |customValid|;
      && |r| == |inputs|
      && (forall i :: 0 <= i < |r| ==> r[i].input == inputs[i])
      && (forall i :: 0 <= i < k ==> r[i].expected == Expected(true, Some(inputs[i]), None))
      && (forall i :: k <= i < |r| ==> r[i].expected == Expected(false, None, Some("Invalid input")))
  {
    var std := Standard(f, GetFieldType(s));
    EntriesInOrder(fieldName, GetFieldType(s), stringify, std.valid + customValid, std.invalid + customInvalid);
    assert std.valid + customValid + (std.invalid + customInvalid) == std.valid + customValid + std.invalid + customInvalid;
  }

  /** The valid entries followed by the invalid ones carry the inputs in
      order, with the expectation of their bucket. */
  lemma EntriesInOrder(fieldName: string, fieldType: string, stringify: Value -> string, valid: seq<Value>, invalid: seq<Value>)
    ensures var r := ValidEntries(fieldName, fieldType, stringify, valid) + InvalidEntries(fieldName, stringify, invalid);
      var inputs := valid + invalid;
      && |r| == |inputs|
      && (forall i :: 0 <= i < |r| ==> r[i].input == inputs[i])
      && (forall i :: 0 <= i < |valid| ==> r[i].expected == Expected(true, Some(inputs[i]), None))
      && (forall i :: |valid| <= i < |r| ==> r[i].expected == Expected(false, None, Some("Invalid input")))
  {
    var vs := ValidEntries(fieldName, fieldType, stringify, valid);
    var ins := InvalidEntries(fieldName, stringify, invalid);
    var r := vs + ins;
    var inputs := valid + invalid;
    forall i | |vs| <= i < |r|
      ensures r[i].input == inputs[i] && r[i].expected == Expected(false, None, Some("Invalid input"))
    {
      assert r[i] == ins[i - |vs|];
      assert inputs[i] == invalid[i - |valid|];
    }
  }

  /** Every field type `getFieldType` yields has a table, so the fallback to
      the string table is never taken, and the email and url tables are never
      read. */
  lemma FallbackNeverTaken(f: Samples, s: Schema)
    ensures GetFieldType(s) in TestValues(f)
    ensures Standard(f, GetFieldType(s)) == TestValues(f)[GetFieldType(s)]
    ensures Standard(f, GetFieldType(s)) != TestValues(f)["email"]
    ensures Standard(f, GetFieldType(s)) != TestValues(f)["url"]
  {
    var t := TestValues(f);
    assert t["email"].valid[0] == Str("test@example.com");
    assert t["url"].valid[0] == Str("https://example.com");
    assert |t["email"].valid| == 3 && |t["url"].valid| == 3;
  }

  /** A schema of any other kind (an enum, an optional string, an effects
      schema) is tested with the string table and described as a string. */
  lemma OtherKindsUseStringTable(f: Samples, s: Schema)
    requires !(s.ZodNumber? || s.ZodBoolean? || s.ZodDate? || s.ZodArray? || s.ZodObject?)
    ensures GetFieldType(s) == "string"
    ensures Standard(f, GetFieldType(s)) == TestValues(f)["string"]
  {
  }
}
