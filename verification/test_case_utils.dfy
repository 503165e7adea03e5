/** The oracle-filtered append helpers: a candidate is kept only when the
    schema library's verdict agrees with the bucket it is meant for. */
module TestCaseUtils {
  import opened Wrappers
  import opened Schemas
  import opened Values
  import opened Oracle

  /** `tc(schema, description, value)`: a candidate labelled with the
      library's verdict, with no message. */
  function Tc(v: Validator, schema: Schema, description: string, value: Value): (t: TestCase)
    ensures t.value == value && t.description == description
    ensures t.isValid <==> v.accepts(schema, value)
    ensures t.expectedMessage.None?
  {
    TestCase(description, value, v.accepts(schema, value), None)
  }

  /** What `addTestCase` appends: the candidate, marked invalid with the
      library's first message, exactly when the library rejects it. */
  function Rejected(v: Validator, schema: Schema, description: string, value: Value): (r: seq<TestCase>)
    ensures |r| == if v.accepts(schema, value) then 0 else 1
    ensures forall t :: t in r ==>
      t.description == description && t.value == value && !t.isValid
      && t.expectedMessage == Some(v.firstMessage(schema, value))
    ensures AllRejected(v, schema, r)
  {
    if v.accepts(schema, value) then []
    else [TestCase(description, value, false, Some(v.firstMessage(schema, value)))]
  }

  /** What `addValidTestCase` appends: the candidate, marked valid and with no
      message, exactly when the library accepts it. */
  function Accepted(v: Validator, schema: Schema, description: string, value: Value): (r: seq<TestCase>)
    ensures |r| == if v.accepts(schema, value) then 1 else 0
    ensures forall t :: t in r ==>
      t.description == description && t.value == value && t.isValid && t.expectedMessage.None?
    ensures AllAccepted(v, schema, r)
  {
    if v.accepts(schema, value) then [TestCase(description, value, true, None)] else []
  }

  /** Every case is marked invalid and its value is rejected by the library. */
  predicate AllRejected(v: Validator, schema: Schema, cases: seq<TestCase>) {
    forall t :: t in cases ==> !t.isValid && !v.accepts(schema, t.value)
  }

  /** Every case is marked valid and its value is accepted by the library. */
  predicate AllAccepted(v: Validator, schema: Schema, cases: seq<TestCase>) {
    forall t :: t in cases ==> t.isValid && v.accepts(schema, t.value)
  }

  /** Pushing two batches in turn appends their concatenation. */
  lemma AppendTwice(before: seq<TestCase>, first: seq<TestCase>, second: seq<TestCase>)
    ensures before + first + second == before + (first + second)
  {
  }

  /** The caller-owned list the helpers push onto. */
  class CaseList {
    var cases: seq<TestCase>

    constructor ()
      ensures cases == []
    {
      cases := [];
    }
  }

  /** `addTestCase`: validate, then push only a rejected candidate; earlier
      entries are left as they were. */
  method AddTestCase(v: Validator, schema: Schema, list: CaseList, description: string, value: Value)
    modifies list
    ensures list.cases == old(list.cases) + Rejected(v, schema, description, value)
  {
    var success := v.accepts(schema, value);
    if !success {
      list.cases := list.cases + [TestCase(description, value, false, Some(v.firstMessage(schema, value)))];
    }
  }

  /** `addValidTestCase`: validate, then push only an accepted candidate. */
  method AddValidTestCase(v: Validator, schema: Schema, list: CaseList, description: string, value: Value)
    modifies list
    ensures list.cases == old(list.cases) + Accepted(v, schema, description, value)
  {
    var success := v.accepts(schema, value);
    if success {
      list.cases := list.cases + [TestCase(description, value, true, None)];
    }
  }
}
