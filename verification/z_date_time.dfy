/** The `xDateTime` schema helper and its valid generator. The descriptor
    has the `date.` prefix and records only years, months and days; the
    generator has the body of `zDateValidGenerator`. */
module ZDateTime {
  import opened Wrappers
  import opened JsStrings
  import opened Values
  import opened Draws
  import opened Descriptors
  import ZDate

  datatype DateTimeConstraint = DateTimeConstraint(
    years: int,
    months: int,
    days: int,
    hours: int,
    minutes: int,
    seconds: int,
    isDateBefore: bool,
    dateTimeFormat: string,
    message: Option<string>)

  /** The defaults of `xDateTime`'s destructured argument. */
  const Defaults := DateTimeConstraint(0, 0, 0, 0, 0, 0, true, "yyyy-MM-dd HH:mm:ss", None)

  /** The `describe` text of an `xDateTime` schema. */
  function Describe(c: DateTimeConstraint): (d: string)
    ensures StartsWith(d, "date.")
  {
    Descriptor("date", CompareWord(c.isDateBefore), ZDate.DateComponents(c.years, c.months, c.days), c.dateTimeFormat)
  }

  /** `zDateTimeValidGenerator`: the same steps as the date generator. */
  method ValidGenerator(e: Env, domain: string) returns (r: Result<seq<TestCase>, Failure>)
    ensures r == ZDate.ValidCases(e, domain)
    ensures r.Ok? ==> |r.value| == 1 && r.value[0].isValid
  {
    var testCases: seq<TestCase> := [];
    var p :- Parse(domain, 'y', 'm', 'd');
    var text :- ZDate.FormatShifted(e, p);
    var a := p.amounts;
    testCases := testCases + [Labelled("valid date " + p.constraint + " " + ZDate.DateComponents(a.first.value, a.second.value, a.third.value)
        + " using " + ZDate.FormatText(p.format) + " format", Str(text), true)];
    assert testCases == ZDate.ValidCases(e, domain).value;
    return Ok(testCases);
  }

  /** The hours, minutes and seconds do not reach the descriptor: two
      constraints that differ only there describe their schemas alike. */
  lemma ClockIgnored(c: DateTimeConstraint, hours: int, minutes: int, seconds: int)
    ensures Describe(c.(hours := hours, minutes := minutes, seconds := seconds)) == Describe(c)
  {
  }

  /** The descriptor is the one `zDate` writes for the same date part. */
  lemma SameAsDate(c: DateTimeConstraint)
    ensures Describe(c) == ZDate.Describe(ZDate.DateConstraint(c.years, c.months, c.days, c.isDateBefore, c.dateTimeFormat, c.message))
  {
  }

  /** Parsing recovers the years, months, days and format when the format
      holds no `_`. */
  lemma DescribeRoundTrip(c: DateTimeConstraint)
    requires '_' !in c.dateTimeFormat
    ensures Parse(Describe(c), 'y', 'm', 'd')
      == Ok(Parsed(CompareWord(c.isDateBefore), Amounts(Some(c.years), Some(c.months), Some(c.days)), Some(c.dateTimeFormat)))
  {
    ZDate.DescribeRoundTrip(ZDate.DateConstraint(c.years, c.months, c.days, c.isDateBefore, c.dateTimeFormat, c.message));
  }

  /** The default format holds no `_`, so the defaults round-trip. */
  lemma DefaultsRoundTrip()
    ensures Parse(Describe(Defaults), 'y', 'm', 'd')
      == Ok(Parsed("before", Amounts(Some(0), Some(0), Some(0)), Some("yyyy-MM-dd HH:mm:ss")))
  {
    DescribeRoundTrip(Defaults);
  }
}
