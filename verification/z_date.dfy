/** The `zDate` schema helper and its valid generator. The generator parses
    the descriptor, shifts today by the recorded days, months and years
    (back for "before", forward otherwise) and formats the result. The
    calendar arithmetic and `format` of date-fns are parameters. */
module ZDate {
  import opened Wrappers
  import opened JsStrings
  import opened Values
  import opened Draws
  import opened Descriptors

  datatype DateConstraint = DateConstraint(
    years: int,
    months: int,
    days: int,
    isDateBefore: bool,
    dateFormat: string,
    message: Option<string>)

  /** The defaults of `zDate`'s destructured argument. */
  const Defaults := DateConstraint(0, 0, 0, true, "yyyy-MM-dd", None)

  /** `${years}y${months}m${days}d` */
  function DateComponents(years: int, months: int, days: int): string {
    Components(years, months, days, 'y', 'm', 'd')
  }

  /** The `describe` text of a `zDate` schema. */
  function Describe(c: DateConstraint): (d: string)
    ensures StartsWith(d, "date.")
  {
    Descriptor("date", CompareWord(c.isDateBefore), DateComponents(c.years, c.months, c.days), c.dateFormat)
  }

  /** The refinement's message: the given one unless it is absent or empty. */
  function Message(c: DateConstraint): (m: string)
    ensures c.message.Some? && c.message.value != "" ==> m == c.message.value
    ensures c.message.None? || c.message.value == "" ==> StartsWith(m, "Date must be " + CompareWord(c.isDateBefore) + " ")
  {
    if c.message.Some? && c.message.value != "" then c.message.value
    else
      var head := "Date must be " + CompareWord(c.isDateBefore) + " ";
      var span := "current date and within " + IntToString(c.years)
        + " years, " + IntToString(c.months) + " months, and " + IntToString(c.days) + " days";
      assert (head + span)[..|head|] == head;
      head + span
  }

  /** `${x}` of an undefined format. */
  function FormatText(format: Option<string>): string {
    if format.Some? then format.value else "undefined"
  }

  /** The date a generator formats: today moved by the amounts, backwards
      exactly when the constraint word is "before"; a NaN amount makes an
      invalid date, which `format` rejects. */
  function FormatShifted(e: Env, p: Parsed): (r: Result<string, Failure>)
    ensures r.Err? ==> r.error == InvalidTimeValue || r.error == FormatRejected(p.format)
    ensures r.Ok? ==> p.amounts.first.Some? && p.amounts.second.Some? && p.amounts.third.Some?
  {
    var a := p.amounts;
    if a.first.None? || a.second.None? || a.third.None? then Err(InvalidTimeValue)
    else
      var sign := if p.constraint == "before" then -1 else 1;
      var date := e.shiftDate(sign * a.third.value, sign * a.second.value, sign * a.first.value);
      var text := e.format(date, p.format);
      if text.None? then Err(FormatRejected(p.format)) else Ok(text.value)
  }

  /** `zDateValidGenerator` (and `zDateTimeValidGenerator`, which has the
      same body). */
  function ValidCases(e: Env, domain: string): (r: Result<seq<TestCase>, Failure>)
    ensures r.Ok? ==> |r.value| == 1 && r.value[0].isValid && r.value[0].value.Str?
  {
    var p :- Parse(domain, 'y', 'm', 'd');
    var text :- FormatShifted(e, p);
    var a := p.amounts;
    Ok([Labelled("valid date " + p.constraint + " " + DateComponents(a.first.value, a.second.value, a.third.value)
        + " using " + FormatText(p.format) + " format", Str(text), true)])
  }

  method ValidGenerator(e: Env, domain: string) returns (r: Result<seq<TestCase>, Failure>)
    ensures r == ValidCases(e, domain)
  {
    var testCases: seq<TestCase> := [];
    var p :- Parse(domain, 'y', 'm', 'd');
    var text :- FormatShifted(e, p);
    var a := p.amounts;
    testCases := testCases + [Labelled("valid date " + p.constraint + " " + DateComponents(a.first.value, a.second.value, a.third.value)
        + " using " + FormatText(p.format) + " format", Str(text), true)];
    assert testCases == ValidCases(e, domain).value;
    return Ok(testCases);
  }

  /** Parsing the descriptor of a `zDate` schema whose format holds no `_`
      recovers its word, years, months, days and format. */
  lemma DescribeRoundTrip(c: DateConstraint)
    requires '_' !in c.dateFormat
    ensures Parse(Describe(c), 'y', 'm', 'd')
      == Ok(Parsed(CompareWord(c.isDateBefore), Amounts(Some(c.years), Some(c.months), Some(c.days)), Some(c.dateFormat)))
  {
    DescriptorRoundTrip("date", CompareWord(c.isDateBefore), c.years, c.months, c.days, 'y', 'm', 'd', c.dateFormat);
  }

  lemma DefaultsRoundTrip()
    ensures Parse(Describe(Defaults), 'y', 'm', 'd') == Ok(Parsed("before", Amounts(Some(0), Some(0), Some(0)), Some("yyyy-MM-dd")))
  {
    DescribeRoundTrip(Defaults);
  }

  /** A fourth `_`-separated field changes nothing: the generator reads only
      the first three. */
  lemma ExtraFieldIgnored(c: DateConstraint, extra: string)
    requires '_' !in c.dateFormat
    ensures Parse(Describe(c) + "_" + extra, 'y', 'm', 'd') == Parse(Describe(c), 'y', 'm', 'd')
  {
    DescribeRoundTrip(c);
    ComponentsRoundTrip(c.years, c.months, c.days, 'y', 'm', 'd');
    ExtraFields("date", CompareWord(c.isDateBefore), DateComponents(c.years, c.months, c.days), c.dateFormat, extra);
  }

  /** On its own schema's descriptor the generator moves today back by the
      amounts for "before" and forward for "after", and labels the formatted
      date valid. */
  lemma ValidShiftsTowardBound(e: Env, c: DateConstraint)
    requires '_' !in c.dateFormat
    requires var s := if c.isDateBefore then -1 else 1;
      e.format(e.shiftDate(s * c.days, s * c.months, s * c.years), Some(c.dateFormat)).Some?
    ensures var s := if c.isDateBefore then -1 else 1;
      ValidCases(e, Describe(c)) == Ok([Labelled(
        "valid date " + CompareWord(c.isDateBefore) + " " + DateComponents(c.years, c.months, c.days)
          + " using " + c.dateFormat + " format",
        Str(e.format(e.shiftDate(s * c.days, s * c.months, s * c.years), Some(c.dateFormat)).value),
        true)])
  {
    DescribeRoundTrip(c);
  }

  /** Any constraint word other than "before" shifts forward. */
  lemma OtherWordsShiftForward(e: Env, domain: string)
    requires Parse(domain, 'y', 'm', 'd').Ok?
    requires var p := Parse(domain, 'y', 'm', 'd').value;
      p.constraint != "before" && p.amounts == Amounts(Some(0), Some(0), Some(1))
    requires e.format(e.shiftDate(1, 0, 0), Parse(domain, 'y', 'm', 'd').value.format).Some?
    ensures ValidCases(e, domain).Ok?
    ensures ValidCases(e, domain).value[0].value
      == Str(e.format(e.shiftDate(1, 0, 0), Parse(domain, 'y', 'm', 'd').value.format).value)
  {
  }
}
