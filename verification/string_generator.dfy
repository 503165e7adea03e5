/** The registry's string generator: one valid candidate chosen by a priority
    chain over the declared formats, and invalid candidates for the wrong
    type, the format, the pattern, the length bounds and the affixes. Every
    candidate passes through the oracle filter. */
module StringGenerator {
  import opened Wrappers
  import opened JsStrings
  import opened Schemas
  import opened Values
  import opened Oracle
  import opened Draws
  import opened TestCaseUtils
  import Search

  /** Number.MAX_SAFE_INTEGER, the default upper length bound. */
  const MaxSafeInteger: int := 9007199254740991

  function Min(a: int, b: int): int {
    if a <= b then a else b
  }

  function Max(a: int, b: int): int {
    if a <= b then b else a
  }

  /** The three check-reading loops of the repository differ in the format
      kinds they record: the registry generator's (both of its methods), the
      older generator's valid method and its invalid method. */
  datatype Dialect = Live | StaticValid | StaticInvalid

  predicate Recognized(d: Dialect, f: Format) {
    match d
    case Live => f in {Email, Url, Uuid, Emoji, Cuid, Cuid2, Ulid}
    case StaticValid => f != Cuid2
    case StaticInvalid => true
  }

  /** The local variables the check loop fills in. */
  datatype StringConstraints = StringConstraints(
    min: int,
    max: int,
    formats: set<Format>,
    regex: Option<Regex>,
    startsWith: string,
    endsWith: string)

  /** The values before any check is read. */
  const Unconstrained: StringConstraints := StringConstraints(-1, MaxSafeInteger, {}, None, "", "")

  /** One iteration of the check loop: a later check overwrites an earlier
      one of the same kind; a length check sets both bounds. */
  function Step(d: Dialect, c: StringConstraints, check: StringCheck): StringConstraints {
    match check
    case Min(n) => c.(min := n)
    case Max(n) => c.(max := n)
    case Length(n) => c.(min := n, max := n)
    case FormatCheck(f) => if Recognized(d, f) then c.(formats := c.formats + {f}) else c
    case RegexCheck(re) => c.(regex := Some(re))
    case StartsWithCheck(p) => c.(startsWith := p)
    case EndsWithCheck(p) => c.(endsWith := p)
    case OtherStringCheck(_) => c
  }

  /** The constraints after reading `checks` in order. */
  function Extract(d: Dialect, checks: seq<StringCheck>): (c: StringConstraints)
    ensures checks != [] && checks[|checks| - 1].Length? ==> c.min == c.max == checks[|checks| - 1].value
  {
    if checks == [] then Unconstrained
    else Step(d, Extract(d, checks[..|checks| - 1]), checks[|checks| - 1])
  }

  predicate WritesMin(check: StringCheck) {
    check.Min? || check.Length?
  }

  predicate WritesMax(check: StringCheck) {
    check.Max? || check.Length?
  }

  /** The check loop of `valid` and `invalid`. */
  method ExtractConstraints(d: Dialect, checks: seq<StringCheck>) returns (c: StringConstraints)
    ensures c == Extract(d, checks)
  {
    c := Unconstrained;
    for i := 0 to |checks|
      invariant c == Extract(d, checks[..i])
    {
      assert checks[..i + 1][..i] == checks[..i];
      match checks[i]
      case Min(n) => c := c.(min := n);
      case Max(n) => c := c.(max := n);
      case Length(n) => c := c.(min := n, max := n);
      case FormatCheck(f) =>
        if Recognized(d, f) {
          c := c.(formats := c.formats + {f});
        }
      case RegexCheck(re) => c := c.(regex := Some(re));
      case StartsWithCheck(p) => c := c.(startsWith := p);
      case EndsWithCheck(p) => c := c.(endsWith := p);
      case OtherStringCheck(_) =>
    }
    assert checks[..|checks|] == checks;
  }

  /** The lower bound is the value of the last `min` or `length` check. */
  lemma {:induction false} LastMinWins(d: Dialect, checks: seq<StringCheck>, i: nat)
    requires i < |checks| && WritesMin(checks[i])
    requires forall j :: i < j < |checks| ==> !WritesMin(checks[j])
    ensures Extract(d, checks).min == checks[i].value
  {
    var n := |checks| - 1;
    if i < n {
      assert checks[..n][i] == checks[i];
      LastMinWins(d, checks[..n], i);
    }
  }

  /** The upper bound is the value of the last `max` or `length` check. */
  lemma {:induction false} LastMaxWins(d: Dialect, checks: seq<StringCheck>, i: nat)
    requires i < |checks| && WritesMax(checks[i])
    requires forall j :: i < j < |checks| ==> !WritesMax(checks[j])
    ensures Extract(d, checks).max == checks[i].value
  {
    var n := |checks| - 1;
    if i < n {
      assert checks[..n][i] == checks[i];
      LastMaxWins(d, checks[..n], i);
    }
  }

  /** Without bound checks the bounds keep their defaults, -1 and
      MAX_SAFE_INTEGER. */
  lemma {:induction false} BoundDefaults(d: Dialect, checks: seq<StringCheck>)
    ensures (forall j :: 0 <= j < |checks| ==> !WritesMin(checks[j])) ==> Extract(d, checks).min == -1
    ensures (forall j :: 0 <= j < |checks| ==> !WritesMax(checks[j])) ==> Extract(d, checks).max == MaxSafeInteger
  {
    if checks != [] {
      BoundDefaults(d, checks[..|checks| - 1]);
    }
  }

  /** A recorded pattern is the pattern of some `regex` check. */
  lemma {:induction false} RegexRecorded(d: Dialect, checks: seq<StringCheck>)
    ensures Extract(d, checks).regex.Some? ==> RegexCheck(Extract(d, checks).regex.value) in checks
  {
    if checks != [] {
      var n := |checks| - 1;
      RegexRecorded(d, checks[..n]);
      assert checks == checks[..n] + [checks[n]];
    }
  }

  /** A format is recorded exactly when some check declares it and the loop
      reading the checks knows its kind. */
  lemma {:induction false} FormatsRecorded(d: Dialect, checks: seq<StringCheck>, f: Format)
    ensures f in Extract(d, checks).formats <==> Recognized(d, f) && FormatCheck(f) in checks
  {
    if checks != [] {
      var n := |checks| - 1;
      FormatsRecorded(d, checks[..n], f);
      assert checks == checks[..n] + [checks[n]];
    }
  }

  /** The index of the first entry of `order` that is among `formats`, or
      `|order|` when there is none: the arm an if/else-if chain takes. */
  function FirstIn(order: seq<Format>, formats: set<Format>): (k: nat)
    ensures k <= |order|
    ensures forall i :: 0 <= i < k ==> order[i] !in formats
    ensures k < |order| ==> order[k] in formats
  {
    if order == [] || order[0] in formats then 0 else 1 + FirstIn(order[1..], formats)
  }

  /** The order of the format arms in both chains. */
  const Priority: seq<Format> := [Email, Url, Uuid, Emoji, Cuid, Cuid2, Ulid]

  /** The description and synthesised text of a valid format arm. */
  function ValidFormatCase(e: Env, f: Format): (string, string) {
    match f
    case Email => ("valid email", e.email)
    case Url => ("valid URL", e.url)
    case Uuid => ("valid UUID", e.uuid)
    case Emoji => ("valid emoji", e.emoji)
    case Cuid => ("valid cuid", e.cuid)
    case Cuid2 => ("valid cuid2", e.cuid)
    case _ => ("valid ulid", e.ulid)
  }

  /** The description and fixed text of an invalid format arm; the three
      identifier kinds share one arm. */
  function InvalidFormatCase(f: Format): (string, string) {
    match f
    case Email => ("invalid email", "not-an-email")
    case Url => ("invalid URL", "not-a-url")
    case Uuid => ("invalid UUID", "not-a-uuid")
    case Emoji => ("invalid emoji", "not-an-emoji")
    case _ => ("invalid ID", "invalid-id")
  }

  /** `Math.max(min, Math.min(r, 20))`: the length of the plain valid string
      for an integer `r` drawn from `[min, max]`. */
  function PlainLength(min: int, max: int, r: int): (n: int)
    ensures min <= r <= max ==> min <= n <= max
    ensures n >= min && (min <= 20 ==> n <= 20)
  {
    Max(min, Min(r, 20))
  }

  /** `if (startsWith) input = startsWith + input`. */
  function WithPrefix(input: string, prefix: string): (r: string)
    ensures StartsWith(r, prefix)
    ensures EndsWith(r, input)
    ensures |r| == |prefix| + |input|
  {
    if prefix != "" then prefix + input else input
  }

  /** `if (endsWith) input = input.slice(0, -endsWith.length) + endsWith`:
      the suffix replaces the last characters of the input, or the whole
      input when that is shorter. */
  function WithSuffix(input: string, suffix: string): (r: string)
    ensures EndsWith(r, suffix)
    ensures |r| == Max(|input|, |suffix|)
    ensures r[..|r| - |suffix|] == input[..|r| - |suffix|]
  {
    if suffix != "" then DropLast(input, |suffix|) + suffix else input
  }

  /** The text of the plain valid arm: letters, then the prefix, then the
      suffix. */
  function PlainText(e: Env, c: StringConstraints): (t: string)
    ensures EndsWith(t, c.endsWith)
    ensures c.endsWith == "" ==> StartsWith(t, c.startsWith)
  {
    WithSuffix(WithPrefix(e.alpha(PlainLength(c.min, c.max, e.intIn(c.min, c.max))), c.startsWith), c.endsWith)
  }

  /** `valid(schema)`: at most one candidate, all accepted; the only failure is
      the integer draw `faker.number.int({min, max})` of the plain arm when
      `min > max`. */
  function ValidCases(v: Validator, e: Env, s: Schema): (r: Result<seq<TestCase>, Failure>)
    requires s.ZodString?
    ensures r.Ok? ==> |r.value| <= 1 && AllAccepted(v, s, r.value)
    ensures r.Err? <==> (var c := Extract(Live, s.stringChecks);
      FirstIn(Priority, c.formats) == |Priority| && c.regex.None? && c.min > c.max)
  {
    var c := Extract(Live, s.stringChecks);
    var k := FirstIn(Priority, c.formats);
    if k < |Priority| then
      var arm := ValidFormatCase(e, Priority[k]);
      Ok(Accepted(v, s, arm.0, Str(arm.1)))
    else if c.regex.Some? then
      match e.randexp(c.regex.value, Min(20, c.max))
      case None => Ok([])
      case Some(text) => Ok(Accepted(v, s, "valid regex match for " + c.regex.value.ToString(), Str(text)))
    else if c.min > c.max then Err(FakerRange(c.min, c.max))
    else Ok(Accepted(v, s, "valid string", Str(PlainText(e, c))))
  }

  /** `StringGenerator.valid`. */
  method Valid(v: Validator, e: Env, s: Schema) returns (r: Result<seq<TestCase>, Failure>)
    requires s.ZodString?
    ensures r == ValidCases(v, e, s)
  {
    var c := ExtractConstraints(Live, s.stringChecks);
    var cases := new CaseList();
    var k := FirstIn(Priority, c.formats);
    if k < |Priority| {
      var arm := ValidFormatCase(e, Priority[k]);
      AddValidTestCase(v, s, cases, arm.0, Str(arm.1));
      assert cases.cases == Accepted(v, s, arm.0, Str(arm.1));
      return Ok(cases.cases);
    } else if c.regex.Some? {
      var generated := e.randexp(c.regex.value, Min(20, c.max));
      if generated.Some? {
        AddValidTestCase(v, s, cases, "valid regex match for " + c.regex.value.ToString(), Str(generated.value));
        assert cases.cases == Accepted(v, s, "valid regex match for " + c.regex.value.ToString(), Str(generated.value));
        return Ok(cases.cases);
      }
      return Ok(cases.cases);
    } else {
      if c.min > c.max {
        return Err(FakerRange(c.min, c.max));
      }
      var input := e.alpha(PlainLength(c.min, c.max, e.intIn(c.min, c.max)));
      if c.startsWith != "" {
        input := c.startsWith + input;
      }
      if c.endsWith != "" {
        input := DropLast(input, |c.endsWith|) + c.endsWith;
      }
      assert input == PlainText(e, c);
      AddValidTestCase(v, s, cases, "valid string", Str(input));
      assert cases.cases == Accepted(v, s, "valid string", Str(input));
    }
    return Ok(cases.cases);
  }

  /** The arm a valid case comes from: a declared format wins over every
      format after it in the chain, over the pattern and over the plain arm. */
  lemma ValidFollowsPriority(v: Validator, e: Env, s: Schema, i: nat)
    requires s.ZodString? && i < |Priority|
    requires Priority[i] in Extract(Live, s.stringChecks).formats
    requires forall j :: 0 <= j < i ==> Priority[j] !in Extract(Live, s.stringChecks).formats
    ensures ValidCases(v, e, s) == Ok(Accepted(v, s, ValidFormatCase(e, Priority[i]).0, Str(ValidFormatCase(e, Priority[i]).1)))
  {
    var k := FirstIn(Priority, Extract(Live, s.stringChecks).formats);
    assert k == i;
  }

  /** With no format, a pattern whose synthesis throws yields no valid case. */
  lemma RegexFailureYieldsNothing(v: Validator, e: Env, s: Schema)
    requires s.ZodString?
    requires FirstIn(Priority, Extract(Live, s.stringChecks).formats) == |Priority|
    requires Extract(Live, s.stringChecks).regex.Some?
    requires e.randexp(Extract(Live, s.stringChecks).regex.value, Min(20, Extract(Live, s.stringChecks).max)).None?
    ensures ValidCases(v, e, s) == Ok([])
  {
  }

  /** For letters drawn fairly and no affixes, the plain valid text respects
      the length bounds. */
  lemma PlainTextWithinBounds(e: Env, c: StringConstraints)
    requires Fair(e)
    requires c.min <= c.max && 0 <= c.max && c.startsWith == "" && c.endsWith == ""
    ensures c.min <= |PlainText(e, c)| <= c.max
    ensures AllLetters(PlainText(e, c))
  {
    var r := e.intIn(c.min, c.max);
    var n := PlainLength(c.min, c.max, r);
    assert |e.alpha(n)| == Clamp0(n) && AllLetters(e.alpha(n));
  }

  /** `!regex.test(candidate)`: attempt `k` of the pattern-miss loop succeeds. */
  function RegexMiss(v: Validator, e: Env, re: Regex, lo: int, hi: int): nat -> bool {
    (k: nat) => !v.regexTest(re, e.sample(lo, hi, k))
  }

  /** The premise under which the pattern-miss loop of `invalid` ends: when it
      runs, some attempt draws a text the pattern rejects. */
  ghost predicate InvalidTerminates(v: Validator, e: Env, s: Schema)
    requires s.ZodString?
  {
    var c := Extract(Live, s.stringChecks);
    (FirstIn(Priority, c.formats) == |Priority| && c.regex.Some? && c.min <= Min(20, c.max))
      ==> exists k: nat :: RegexMiss(v, e, c.regex.value, c.min, Min(20, c.max))(k)
  }

  function TooShortDescription(min: int): string {
    "string too short (length < " + IntToString(min) + ")"
  }

  function TooLongDescription(max: int): string {
    "string too long (length > " + IntToString(max) + ")"
  }

  function NotStartingDescription(prefix: string): string {
    "string not starting with \"" + prefix + "\""
  }

  function NotEndingDescription(suffix: string): string {
    "string not ending with \"" + suffix + "\""
  }

  /** `string too short`, tried when `min > 0`. */
  function TooShort(v: Validator, e: Env, s: Schema, c: StringConstraints): seq<TestCase> {
    if c.min > 0 then
      Rejected(v, s, TooShortDescription(c.min), Str(e.alpha(Max(0, c.min - 1))))
    else []
  }

  /** `string too long`, tried when `max` is below MAX_SAFE_INTEGER. */
  function TooLong(v: Validator, e: Env, s: Schema, c: StringConstraints): seq<TestCase> {
    if c.max < MaxSafeInteger then
      Rejected(v, s, TooLongDescription(c.max), Str(e.alpha(c.max + 1)))
    else []
  }

  /** `string not starting with`, tried when a prefix is declared. */
  function WrongPrefix(v: Validator, e: Env, s: Schema, c: StringConstraints): seq<TestCase> {
    if c.startsWith != "" then
      Rejected(v, s, NotStartingDescription(c.startsWith), Str("x" + e.alpha(1)))
    else []
  }

  /** `string not ending with`, tried when a suffix is declared. */
  function WrongSuffix(v: Validator, e: Env, s: Schema, c: StringConstraints): seq<TestCase> {
    if c.endsWith != "" then
      Rejected(v, s, NotEndingDescription(c.endsWith), Str(e.alpha(1) + "x"))
    else []
  }

  /** The length, prefix and suffix candidates of the plain invalid arm, in
      that order. */
  function PlainInvalid(v: Validator, e: Env, s: Schema, c: StringConstraints): (r: seq<TestCase>)
    ensures AllRejected(v, s, r)
  {
    LengthInvalid(v, e, s, c) + AffixInvalid(v, e, s, c)
  }

  function LengthInvalid(v: Validator, e: Env, s: Schema, c: StringConstraints): seq<TestCase> {
    TooShort(v, e, s, c) + TooLong(v, e, s, c)
  }

  function AffixInvalid(v: Validator, e: Env, s: Schema, c: StringConstraints): seq<TestCase> {
    WrongPrefix(v, e, s, c) + WrongSuffix(v, e, s, c)
  }

  /** The wrong-type candidate every invalid list starts with. */
  function NotAString(v: Validator, s: Schema): seq<TestCase> {
    Rejected(v, s, "invalid: not a string", Int(123))
  }

  /** `invalid(schema)`: the wrong-type candidate, then the first format arm,
      or a text the pattern rejects, or the plain arm; every candidate kept is
      rejected. The pattern arm throws when the sample length range is empty. */
  ghost function InvalidCases(v: Validator, e: Env, s: Schema): (r: Result<seq<TestCase>, Failure>)
    requires s.ZodString? && InvalidTerminates(v, e, s)
    ensures r.Ok? ==> NotAString(v, s) <= r.value && AllRejected(v, s, r.value)
  {
    var c := Extract(Live, s.stringChecks);
    var k := FirstIn(Priority, c.formats);
    if k < |Priority| then
      var arm := InvalidFormatCase(Priority[k]);
      Ok(NotAString(v, s) + Rejected(v, s, arm.0, Str(arm.1)))
    else if c.regex.Some? then
      var hi := Min(20, c.max);
      if c.min > hi then Err(FakerRange(c.min, hi))
      else
        var text := e.sample(c.min, hi, Search.First(RegexMiss(v, e, c.regex.value, c.min, hi)));
        Ok(NotAString(v, s) + Rejected(v, s, "invalid regex match for " + c.regex.value.ToString(), Str(text)))
    else Ok(NotAString(v, s) + PlainInvalid(v, e, s, c))
  }

  /** The `do { invalidInput = faker.string.sample({min, max}) } while
      (regex.test(invalidInput))` loop of `invalid`: the first sampled text the
      pattern rejects. */
  method SampleMiss(v: Validator, e: Env, re: Regex, lo: int, hi: int) returns (text: string)
    requires exists k: nat :: RegexMiss(v, e, re, lo, hi)(k)
    ensures !v.regexTest(re, text)
    ensures text == e.sample(lo, hi, Search.First(RegexMiss(v, e, re, lo, hi)))
  {
    ghost var miss := RegexMiss(v, e, re, lo, hi);
    ghost var w: nat :| miss(w);
    var attempt := 0;
    text := e.sample(lo, hi, attempt);
    while v.regexTest(re, text)
      invariant attempt <= w
      invariant text == e.sample(lo, hi, attempt)
      invariant forall j: nat :: j < attempt ==> !miss(j)
      decreases w - attempt
    {
      attempt := attempt + 1;
      text := e.sample(lo, hi, attempt);
    }
    Search.FirstIsUnique(miss, attempt);
  }

  /** The plain arm of `invalid`: the length, prefix and suffix pushes. */
  method AddPlainInvalid(v: Validator, e: Env, s: Schema, c: StringConstraints, cases: CaseList)
    modifies cases
    ensures cases.cases == old(cases.cases) + PlainInvalid(v, e, s, c)
  {
    AppendTwice(cases.cases, LengthInvalid(v, e, s, c), AffixInvalid(v, e, s, c));
    AddLengthInvalid(v, e, s, c, cases);
    AddAffixInvalid(v, e, s, c, cases);
  }

  /** The two length pushes of the plain arm. */
  method AddLengthInvalid(v: Validator, e: Env, s: Schema, c: StringConstraints, cases: CaseList)
    modifies cases
    ensures cases.cases == old(cases.cases) + LengthInvalid(v, e, s, c)
  {
    AppendTwice(cases.cases, TooShort(v, e, s, c), TooLong(v, e, s, c));
    if c.min > 0 {
      AddTestCase(v, s, cases, TooShortDescription(c.min), Str(e.alpha(Max(0, c.min - 1))));
    }
    assert cases.cases == old(cases.cases) + TooShort(v, e, s, c);
    if c.max < MaxSafeInteger {
      AddTestCase(v, s, cases, TooLongDescription(c.max), Str(e.alpha(c.max + 1)));
    }
  }

  /** The two affix pushes of the plain arm. */
  method AddAffixInvalid(v: Validator, e: Env, s: Schema, c: StringConstraints, cases: CaseList)
    modifies cases
    ensures cases.cases == old(cases.cases) + AffixInvalid(v, e, s, c)
  {
    AppendTwice(cases.cases, WrongPrefix(v, e, s, c), WrongSuffix(v, e, s, c));
    if c.startsWith != "" {
      AddTestCase(v, s, cases, NotStartingDescription(c.startsWith), Str("x" + e.alpha(1)));
    }
    assert cases.cases == old(cases.cases) + WrongPrefix(v, e, s, c);
    if c.endsWith != "" {
      AddTestCase(v, s, cases, NotEndingDescription(c.endsWith), Str(e.alpha(1) + "x"));
    }
  }

  /** `StringGenerator.invalid`. */
  method Invalid(v: Validator, e: Env, s: Schema) returns (r: Result<seq<TestCase>, Failure>)
    requires s.ZodString? && InvalidTerminates(v, e, s)
    ensures r == InvalidCases(v, e, s)
  {
    var c := ExtractConstraints(Live, s.stringChecks);
    var cases := new CaseList();
    AddTestCase(v, s, cases, "invalid: not a string", Int(123));
    assert cases.cases == NotAString(v, s);
    var k := FirstIn(Priority, c.formats);
    if k < |Priority| {
      var arm := InvalidFormatCase(Priority[k]);
      AddTestCase(v, s, cases, arm.0, Str(arm.1));
    } else if c.regex.Some? {
      var re, lo, hi := c.regex.value, c.min, Min(20, c.max);
      if lo > hi {
        return Err(FakerRange(lo, hi));
      }
      var text := SampleMiss(v, e, re, lo, hi);
      AddTestCase(v, s, cases, "invalid regex match for " + re.ToString(), Str(text));
    } else {
      AddPlainInvalid(v, e, s, c, cases);
    }
    return Ok(cases.cases);
  }

  /** The pattern-miss loop only exits with a text the pattern rejects. */
  lemma InvalidRegexCaseMisses(v: Validator, e: Env, s: Schema)
    requires s.ZodString? && InvalidTerminates(v, e, s)
    requires FirstIn(Priority, Extract(Live, s.stringChecks).formats) == |Priority|
    requires Extract(Live, s.stringChecks).regex.Some?
    requires InvalidCases(v, e, s).Ok?
    ensures forall t :: t in InvalidCases(v, e, s).value && t.value.Str? ==>
      !v.regexTest(Extract(Live, s.stringChecks).regex.value, t.value.s)
  {
    var c := Extract(Live, s.stringChecks);
    var miss := RegexMiss(v, e, c.regex.value, c.min, Min(20, c.max));
    var k := Search.First(miss);
    assert miss(k);
  }

  /** Under fair draws the length candidates break the bound they are named
      after: the short one is shorter than `min`, the long one longer than
      `max`. */
  lemma LengthCandidatesBreakBounds(e: Env, c: StringConstraints)
    requires Fair(e)
    ensures c.min > 0 ==> |e.alpha(Max(0, c.min - 1))| < c.min
    ensures c.max >= -1 ==> |e.alpha(c.max + 1)| > c.max
  {
    assert |e.alpha(Max(0, c.min - 1))| == Clamp0(Max(0, c.min - 1));
    assert |e.alpha(c.max + 1)| == Clamp0(c.max + 1);
  }
}
