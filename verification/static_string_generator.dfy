/** The older string generator: the same check-reading loop with more format
    kinds, exactly one hand-labelled valid case, and invalid cases ending with
    the wrong-type candidate. No oracle is consulted. */
module StaticStringGenerator {
  import opened Wrappers
  import opened JsStrings
  import opened Schemas
  import opened Values
  import opened Oracle
  import opened Draws
  import opened TestCaseUtils
  import StringGenerator
  import Search

  /** The order of the format arms of `valid`; it has no `cuid2` arm and its
      loop never records one. */
  const ValidPriority: seq<Format> := [Email, Url, Uuid, Emoji, Nanoid, Cuid, Ulid, Base64, Ip, Datetime, Date, Time]

  /** The order of the format arms of `invalid`; the four identifier kinds
      are adjacent and share one arm. */
  const InvalidPriority: seq<Format> := [Email, Url, Uuid, Emoji, Nanoid, Cuid, Cuid2, Ulid, Base64, Ip, Datetime, Date, Time]

  /** `btoa("Hello, World!")`. */
  const HelloBase64: string := "SGVsbG8sIFdvcmxkIQ=="

  /** `iso.split('T')[0]`. */
  function DatePart(iso: string): (d: string)
    ensures StartsWith(iso, d) && 'T' !in d
  {
    SplitPieces(iso, 'T');
    Split(iso, 'T')[0]
  }

  /** `iso.split('T')[1].split('.')[0]`; reading a property of the missing
      second piece throws. */
  function TimePart(iso: string): (r: Result<string, Failure>)
    ensures r.Err? <==> 'T' !in iso
    ensures r.Ok? ==> '.' !in r.value
  {
    SplitPieces(iso, 'T');
    var parts := Split(iso, 'T');
    if |parts| < 2 then Err(ReadOfUndefined)
    else
      SplitPieces(parts[1], '.');
      Ok(Split(parts[1], '.')[0])
  }

  /** On an ISO timestamp `date T time . fraction` the date value is the part
      before `T` and the time value the part between `T` and `.`. */
  lemma IsoParts(date: string, time: string, fraction: string)
    requires 'T' !in date && 'T' !in time && 'T' !in fraction && '.' !in time
    ensures DatePart(date + "T" + time + "." + fraction) == date
    ensures TimePart(date + "T" + time + "." + fraction) == Ok(time)
  {
    var tail := time + "." + fraction;
    assert date + "T" + time + "." + fraction == date + ['T'] + tail;
    JsStrings.SplitAfterPiece(date, tail, 'T');
    assert 'T' !in tail by {
      forall i | 0 <= i < |tail| ensures tail[i] != 'T' {
        if i < |time| {
          assert tail[i] == time[i];
        } else if i > |time| {
          assert tail[i] == fraction[i - |time| - 1];
        }
      }
    }
    JsStrings.SplitWithoutSeparator(tail, 'T');
    assert tail == time + ['.'] + fraction;
    JsStrings.SplitAfterPiece(time, fraction, '.');
  }

  /** The description and value of a valid format arm; `cuid` yields a cuid2
      identifier. */
  function ValidFormatCase(e: Env, f: Format): Result<(string, string), Failure> {
    match f
    case Email => Ok(("valid email", e.email))
    case Url => Ok(("valid URL", e.url))
    case Uuid => Ok(("valid UUID", e.uuid))
    case Emoji => Ok(("valid emoji", e.emoji))
    case Nanoid => Ok(("valid nanoid", e.nanoid))
    case Cuid => Ok(("valid cuid2", e.cuid))
    case Ulid => Ok(("valid ulid", e.ulid))
    case Base64 => Ok(("valid base64", HelloBase64))
    case Ip => Ok(("valid IP", e.ip))
    case Datetime => Ok(("valid datetime", e.recentIso))
    case Date => Ok(("valid date", DatePart(e.recentIso)))
    case _ =>
      var time :- TimePart(e.recentIso);
      Ok(("valid time", time))
  }

  function RegexFailedDescription(re: Regex): string {
    "unable to generate valid regex match for " + re.ToString()
  }

  /** `valid(schema)`: exactly one case, marked valid, from the first declared
      format, or the pattern, or the plain arm. It throws when the plain arm's
      length draw has `min > max` or the time arm finds no `T`. */
  function ValidCases(e: Env, s: Schema): (r: Result<seq<TestCase>, Failure>)
    requires s.ZodString?
    ensures r.Ok? ==> |r.value| == 1 && r.value[0].isValid && r.value[0].value.Str?
  {
    var c := StringGenerator.Extract(StringGenerator.StaticValid, s.stringChecks);
    var k := StringGenerator.FirstIn(ValidPriority, c.formats);
    if k < |ValidPriority| then
      var arm :- ValidFormatCase(e, ValidPriority[k]);
      Ok([Labelled(arm.0, Str(arm.1), true)])
    else if c.regex.Some? then
      match e.randexp(c.regex.value, StringGenerator.Min(20, c.max))
      case None => Ok([Labelled(RegexFailedDescription(c.regex.value), Str("regex_generation_failed"), true)])
      case Some(text) => Ok([Labelled("valid regex match for " + c.regex.value.ToString(), Str(text), true)])
    else if c.min > c.max then Err(FakerRange(c.min, c.max))
    else Ok([Labelled("valid string", Str(StringGenerator.PlainText(e, c)), true)])
  }

  /** `StringGenerator.valid`. */
  method Valid(e: Env, s: Schema) returns (r: Result<seq<TestCase>, Failure>)
    requires s.ZodString?
    ensures r == ValidCases(e, s)
  {
    var c := StringGenerator.ExtractConstraints(StringGenerator.StaticValid, s.stringChecks);
    var cases := new CaseList();
    var k := StringGenerator.FirstIn(ValidPriority, c.formats);
    if k < |ValidPriority| {
      var arm :- ValidFormatCase(e, ValidPriority[k]);
      cases.cases := cases.cases + [Labelled(arm.0, Str(arm.1), true)];
      assert cases.cases == [Labelled(arm.0, Str(arm.1), true)];
    } else if c.regex.Some? {
      var generated := e.randexp(c.regex.value, StringGenerator.Min(20, c.max));
      if generated.Some? {
        cases.cases := cases.cases + [Labelled("valid regex match for " + c.regex.value.ToString(), Str(generated.value), true)];
        assert cases.cases == [Labelled("valid regex match for " + c.regex.value.ToString(), Str(generated.value), true)];
      } else {
        cases.cases := cases.cases + [Labelled(RegexFailedDescription(c.regex.value), Str("regex_generation_failed"), true)];
        assert cases.cases == [Labelled(RegexFailedDescription(c.regex.value), Str("regex_generation_failed"), true)];
      }
    } else {
      if c.min > c.max {
        return Err(FakerRange(c.min, c.max));
      }
      var input := e.alpha(StringGenerator.PlainLength(c.min, c.max, e.intIn(c.min, c.max)));
      if c.startsWith != "" {
        input := c.startsWith + input;
      }
      if c.endsWith != "" {
        input := DropLast(input, |c.endsWith|) + c.endsWith;
      }
      assert input == StringGenerator.PlainText(e, c);
      cases.cases := cases.cases + [Labelled("valid string", Str(input), true)];
      assert cases.cases == [Labelled("valid string", Str(input), true)];
    }
    return Ok(cases.cases);
  }

  /** The loop of `valid` never records `cuid2`, so a `cuid2` check has no
      effect on the valid case. */
  lemma ValidIgnoresCuid2(checks: seq<StringCheck>)
    ensures Cuid2 !in StringGenerator.Extract(StringGenerator.StaticValid, checks).formats
  {
    StringGenerator.FormatsRecorded(StringGenerator.StaticValid, checks, Cuid2);
  }

  /** With no format declared, a pattern whose synthesis throws yields the
      placeholder text, still marked valid. */
  lemma RegexFailureYieldsPlaceholder(e: Env, s: Schema)
    requires s.ZodString?
    requires StringGenerator.Extract(StringGenerator.StaticValid, s.stringChecks).formats == {}
    requires StringGenerator.Extract(StringGenerator.StaticValid, s.stringChecks).regex.Some?
    requires var c := StringGenerator.Extract(StringGenerator.StaticValid, s.stringChecks);
      e.randexp(c.regex.value, StringGenerator.Min(20, c.max)).None?
    ensures ValidCases(e, s).Ok?
    ensures ValidCases(e, s).value[0].value == Str("regex_generation_failed")
    ensures ValidCases(e, s).value[0].isValid
  {
    var c := StringGenerator.Extract(StringGenerator.StaticValid, s.stringChecks);
    assert StringGenerator.FirstIn(ValidPriority, c.formats) == |ValidPriority|;
  }

  /** A declared format takes the first matching arm of the chain; the date
      and time arms cut the drawn ISO timestamp. */
  lemma ValidFollowsPriority(e: Env, s: Schema, i: nat)
    requires s.ZodString? && i < |ValidPriority|
    requires ValidPriority[i] in StringGenerator.Extract(StringGenerator.StaticValid, s.stringChecks).formats
    requires forall j :: 0 <= j < i ==> ValidPriority[j] !in StringGenerator.Extract(StringGenerator.StaticValid, s.stringChecks).formats
    ensures ValidFormatCase(e, ValidPriority[i]).Ok? ==>
      ValidCases(e, s) == Ok([Labelled(ValidFormatCase(e, ValidPriority[i]).value.0, Str(ValidFormatCase(e, ValidPriority[i]).value.1), true)])
    ensures ValidFormatCase(e, ValidPriority[i]).Err? ==> ValidCases(e, s) == Err(ReadOfUndefined)
  {
    var k := StringGenerator.FirstIn(ValidPriority, StringGenerator.Extract(StringGenerator.StaticValid, s.stringChecks).formats);
    assert k == i;
  }

  // ---------------------------------------------------------------------
  // invalid

  /** The description and fixed text of an invalid format arm. */
  function InvalidFormatCase(f: Format): (string, string) {
    match f
    case Email => ("invalid email", "not-an-email")
    case Url => ("invalid URL", "not-a-url")
    case Uuid => ("invalid UUID", "not-a-uuid")
    case Emoji => ("invalid emoji", "not-an-emoji")
    case Base64 => ("invalid base64", "not-base64!")
    case Ip => ("invalid IP", "999.999.999.999")
    case Datetime => ("invalid datetime", "not-a-datetime")
    case Date => ("invalid date", "not-a-date")
    case Time => ("invalid time", "not-a-time")
    case _ => ("invalid ID", "invalid-id")
  }

  /** The premise under which the pattern-miss loop of `invalid` ends. */
  ghost predicate InvalidTerminates(v: Validator, e: Env, s: Schema)
    requires s.ZodString?
  {
    var c := StringGenerator.Extract(StringGenerator.StaticInvalid, s.stringChecks);
    var hi := StringGenerator.Min(20, c.max);
    (StringGenerator.FirstIn(InvalidPriority, c.formats) == |InvalidPriority| && c.regex.Some? && c.min <= hi)
      ==> exists k: nat :: StringGenerator.RegexMiss(v, e, c.regex.value, c.min, hi)(k)
  }

  /** `string too short`, tried whenever `min > -1`, with `max(0, min - 1)`
      letters. */
  function TooShort(e: Env, c: StringGenerator.StringConstraints): seq<TestCase> {
    if c.min > -1 then
      [Labelled(StringGenerator.TooShortDescription(c.min), Str(e.alpha(StringGenerator.Max(0, c.min - 1))), false)]
    else []
  }

  /** `string too long`, tried when `max` is below MAX_SAFE_INTEGER. */
  function TooLong(e: Env, c: StringGenerator.StringConstraints): seq<TestCase> {
    if c.max < StringGenerator.MaxSafeInteger then
      [Labelled(StringGenerator.TooLongDescription(c.max), Str(e.alpha(c.max + 1)), false)]
    else []
  }

  function WrongPrefix(e: Env, c: StringGenerator.StringConstraints): seq<TestCase> {
    if c.startsWith != "" then
      [Labelled(StringGenerator.NotStartingDescription(c.startsWith), Str("x" + e.alpha(1)), false)]
    else []
  }

  function WrongSuffix(e: Env, c: StringGenerator.StringConstraints): seq<TestCase> {
    if c.endsWith != "" then
      [Labelled(StringGenerator.NotEndingDescription(c.endsWith), Str(e.alpha(1) + "x"), false)]
    else []
  }

  /** The length, prefix and suffix cases of the plain arm, in that order. */
  function PlainInvalid(e: Env, c: StringGenerator.StringConstraints): (r: seq<TestCase>)
    ensures |r| <= 4
    ensures forall t :: t in r ==> !t.isValid && t.value.Str?
  {
    (TooShort(e, c) + TooLong(e, c)) + (WrongPrefix(e, c) + WrongSuffix(e, c))
  }

  /** The wrong-type case every invalid list ends with. */
  function NotAString(): TestCase {
    Labelled("not a string", Int(123), false)
  }

  /** `invalid(schema)`: the first format arm, or a text the pattern rejects,
      or the plain arm, then the wrong-type case; every case is marked
      invalid. The pattern arm throws when the sample length range is
      empty. */
  ghost function InvalidCases(v: Validator, e: Env, s: Schema): (r: Result<seq<TestCase>, Failure>)
    requires s.ZodString? && InvalidTerminates(v, e, s)
    ensures r.Ok? ==> |r.value| >= 1 && r.value[|r.value| - 1] == NotAString()
    ensures r.Ok? ==> forall t :: t in r.value ==> !t.isValid
  {
    var c := StringGenerator.Extract(StringGenerator.StaticInvalid, s.stringChecks);
    var k := StringGenerator.FirstIn(InvalidPriority, c.formats);
    if k < |InvalidPriority| then
      var arm := InvalidFormatCase(InvalidPriority[k]);
      Ok([Labelled(arm.0, Str(arm.1), false)] + [NotAString()])
    else if c.regex.Some? then
      var hi := StringGenerator.Min(20, c.max);
      if c.min > hi then Err(FakerRange(c.min, hi))
      else
        var text := e.sample(c.min, hi, Search.First(StringGenerator.RegexMiss(v, e, c.regex.value, c.min, hi)));
        Ok([Labelled("invalid regex match for " + c.regex.value.ToString(), Str(text), false)] + [NotAString()])
    else Ok(PlainInvalid(e, c) + [NotAString()])
  }

  /** The two length pushes of the plain arm. */
  method AddLengthInvalid(e: Env, c: StringGenerator.StringConstraints, cases: CaseList)
    modifies cases
    ensures cases.cases == old(cases.cases) + TooShort(e, c) + TooLong(e, c)
  {
    if c.min > -1 {
      cases.cases := cases.cases + [Labelled(StringGenerator.TooShortDescription(c.min), Str(e.alpha(StringGenerator.Max(0, c.min - 1))), false)];
    }
    assert cases.cases == old(cases.cases) + TooShort(e, c);
    if c.max < StringGenerator.MaxSafeInteger {
      cases.cases := cases.cases + [Labelled(StringGenerator.TooLongDescription(c.max), Str(e.alpha(c.max + 1)), false)];
    }
  }

  /** The two affix pushes of the plain arm. */
  method AddAffixInvalid(e: Env, c: StringGenerator.StringConstraints, cases: CaseList)
    modifies cases
    ensures cases.cases == old(cases.cases) + WrongPrefix(e, c) + WrongSuffix(e, c)
  {
    if c.startsWith != "" {
      cases.cases := cases.cases + [Labelled(StringGenerator.NotStartingDescription(c.startsWith), Str("x" + e.alpha(1)), false)];
    }
    assert cases.cases == old(cases.cases) + WrongPrefix(e, c);
    if c.endsWith != "" {
      cases.cases := cases.cases + [Labelled(StringGenerator.NotEndingDescription(c.endsWith), Str(e.alpha(1) + "x"), false)];
    }
  }

  /** `StringGenerator.invalid`. */
  method Invalid(v: Validator, e: Env, s: Schema) returns (r: Result<seq<TestCase>, Failure>)
    requires s.ZodString? && InvalidTerminates(v, e, s)
    ensures r == InvalidCases(v, e, s)
  {
    var c := StringGenerator.ExtractConstraints(StringGenerator.StaticInvalid, s.stringChecks);
    var cases := new CaseList();
    var k := StringGenerator.FirstIn(InvalidPriority, c.formats);
    if k < |InvalidPriority| {
      var arm := InvalidFormatCase(InvalidPriority[k]);
      cases.cases := cases.cases + [Labelled(arm.0, Str(arm.1), false)];
      assert cases.cases == [Labelled(arm.0, Str(arm.1), false)];
    } else if c.regex.Some? {
      var re, lo, hi := c.regex.value, c.min, StringGenerator.Min(20, c.max);
      if lo > hi {
        return Err(FakerRange(lo, hi));
      }
      var text := StringGenerator.SampleMiss(v, e, re, lo, hi);
      cases.cases := cases.cases + [Labelled("invalid regex match for " + re.ToString(), Str(text), false)];
      assert cases.cases == [Labelled("invalid regex match for " + re.ToString(), Str(text), false)];
    } else {
      AddLengthInvalid(e, c, cases);
      AddAffixInvalid(e, c, cases);
      assert cases.cases == PlainInvalid(e, c);
      assert InvalidCases(v, e, s) == Ok(cases.cases + [NotAString()]);
    }
    cases.cases := cases.cases + [NotAString()];
    return Ok(cases.cases);
  }

  /** Every format kind has an arm in the invalid chain. */
  lemma AllFormatsHaveInvalidArm(f: Format)
    ensures f in InvalidPriority
  {
    match f
    case Email => assert InvalidPriority[0] == f;
    case Url => assert InvalidPriority[1] == f;
    case Uuid => assert InvalidPriority[2] == f;
    case Emoji => assert InvalidPriority[3] == f;
    case Nanoid => assert InvalidPriority[4] == f;
    case Cuid => assert InvalidPriority[5] == f;
    case Cuid2 => assert InvalidPriority[6] == f;
    case Ulid => assert InvalidPriority[7] == f;
    case Base64 => assert InvalidPriority[8] == f;
    case Ip => assert InvalidPriority[9] == f;
    case Datetime => assert InvalidPriority[10] == f;
    case Date => assert InvalidPriority[11] == f;
    case Time => assert InvalidPriority[12] == f;
  }

  /** A declared format of any kind selects an arm of the invalid chain. */
  lemma FormatArmTaken(checks: seq<StringCheck>, f: Format)
    requires FormatCheck(f) in checks
    ensures StringGenerator.FirstIn(InvalidPriority, StringGenerator.Extract(StringGenerator.StaticInvalid, checks).formats) < |InvalidPriority|
  {
    var formats := StringGenerator.Extract(StringGenerator.StaticInvalid, checks).formats;
    StringGenerator.FormatsRecorded(StringGenerator.StaticInvalid, checks, f);
    AllFormatsHaveInvalidArm(f);
    var j :| 0 <= j < |InvalidPriority| && InvalidPriority[j] == f;
    var k := StringGenerator.FirstIn(InvalidPriority, formats);
    assert InvalidPriority[j] in formats;
    assert k <= j;
  }

  /** When any format is declared, `invalid` holds exactly one format case,
      then the wrong-type case; the identifier kinds share the text
      "invalid-id". */
  lemma InvalidWithFormat(v: Validator, e: Env, s: Schema, f: Format)
    requires s.ZodString? && InvalidTerminates(v, e, s)
    requires FormatCheck(f) in s.stringChecks
    ensures var k := StringGenerator.FirstIn(InvalidPriority, StringGenerator.Extract(StringGenerator.StaticInvalid, s.stringChecks).formats);
      k < |InvalidPriority|
      && InvalidCases(v, e, s) == Ok([Labelled(InvalidFormatCase(InvalidPriority[k]).0, Str(InvalidFormatCase(InvalidPriority[k]).1), false), NotAString()])
      && (4 <= k <= 7 ==> InvalidFormatCase(InvalidPriority[k]).1 == "invalid-id")
  {
    FormatArmTaken(s.stringChecks, f);
    var k := StringGenerator.FirstIn(InvalidPriority, StringGenerator.Extract(StringGenerator.StaticInvalid, s.stringChecks).formats);
    var arm := Labelled(InvalidFormatCase(InvalidPriority[k]).0, Str(InvalidFormatCase(InvalidPriority[k]).1), false);
    assert [arm] + [NotAString()] == [arm, NotAString()];
  }

  /** The too-short case is emitted for `min = 0` too, and then holds the
      empty string, which is not shorter than the bound it is named after. */
  lemma TooShortAtZeroIsEmpty(e: Env, c: StringGenerator.StringConstraints)
    requires Fair(e) && c.min == 0
    ensures |TooShort(e, c)| == 1
    ensures TooShort(e, c)[0].value == Str("") && !TooShort(e, c)[0].isValid
  {
    assert |e.alpha(0)| == Clamp0(0);
  }
}
