/** The `zTime` schema helper and its two generators. The helper describes
    the schema with a descriptor string; the generators parse that string,
    move the clock one hour across the bound and format the result. The
    clock (`set`) and `format` of date-fns are parameters. */
module ZTime {
  import opened Wrappers
  import opened JsStrings
  import opened Values
  import opened Draws
  import opened Descriptors

  datatype TimeConstraint = TimeConstraint(
    hours: int,
    minutes: int,
    seconds: int,
    isTimeBefore: bool,
    timeFormat: string,
    message: Option<string>)

  /** The defaults of `zTime`'s destructured argument. */
  const Defaults := TimeConstraint(0, 0, 0, true, "HH:mm:ss", None)

  /** The `describe` text of a `zTime` schema. */
  function Describe(c: TimeConstraint): (d: string)
    ensures StartsWith(d, "time.")
  {
    Descriptor("time", CompareWord(c.isTimeBefore), Components(c.hours, c.minutes, c.seconds, 'h', 'm', 's'), c.timeFormat)
  }

  /** `n.toString().padStart(2, '0')` */
  function TwoDigits(n: int): (t: string)
    ensures n >= 0 ==> |t| >= 2
    ensures EndsWith(t, IntToString(n))
  {
    PadStart(IntToString(n), 2, '0')
  }

  /** The refinement's message: the given one unless it is absent or empty. */
  function Message(c: TimeConstraint): (m: string)
    ensures c.message.Some? && c.message.value != "" ==> m == c.message.value
    ensures c.message.None? || c.message.value == "" ==> StartsWith(m, "Time must be " + CompareWord(c.isTimeBefore) + " ")
  {
    if c.message.Some? && c.message.value != "" then c.message.value
    else
      var head := "Time must be " + CompareWord(c.isTimeBefore) + " ";
      var clock := TwoDigits(c.hours) + ":" + TwoDigits(c.minutes) + ":" + TwoDigits(c.seconds);
      assert (head + clock)[..|head|] == head;
      head + clock
  }

  /** The default message shows a non-negative amount with at least two
      characters, and the padded text still reads as the same amount. */
  lemma TwoDigitsPads(n: int)
    requires n >= 0
    ensures |TwoDigits(n)| >= 2
    ensures ParseNumber(TwoDigits(n)) == Some(n)
  {
    var t := IntToString(n);
    NatToStringDigits(n);
    if |t| < 2 {
      assert TwoDigits(n) == "0" + t;
      LeadingZeroValue(t);
    }
  }

  /** `${x}` of an undefined format. */
  function FormatText(format: Option<string>): string {
    if format.Some? then format.value else "undefined"
  }

  /** The hour a generator sets: one hour past the bound on the side the
      generator wants, `inside` for the valid generator. */
  function TargetHour(constraint: string, hours: int, inside: bool): int {
    if (constraint == "before") == inside then hours - 1 else hours + 1
  }

  /** `format(set(now, {hours, minutes, seconds}), format)`: a NaN amount
      makes an invalid date, which `format` rejects. */
  function FormatTime(e: Env, p: Parsed, inside: bool): (r: Result<string, Failure>)
    ensures r.Err? ==> r.error == InvalidTimeValue || r.error == FormatRejected(p.format)
    ensures r.Ok? ==> p.amounts.first.Some? && p.amounts.second.Some? && p.amounts.third.Some?
  {
    var a := p.amounts;
    if a.first.None? || a.second.None? || a.third.None? then Err(InvalidTimeValue)
    else
      var time := e.setClock(TargetHour(p.constraint, a.first.value, inside), a.second.value, a.third.value);
      var text := e.format(time, p.format);
      if text.None? then Err(FormatRejected(p.format)) else Ok(text.value)
  }

  /** `${hours}h${minutes}m${seconds}s` of the parsed amounts. */
  function Shown(a: Amounts): string
    requires a.first.Some? && a.second.Some? && a.third.Some?
  {
    Components(a.first.value, a.second.value, a.third.value, 'h', 'm', 's')
  }

  /** `zTimeValidGenerator`. */
  function ValidCases(e: Env, domain: string): (r: Result<seq<TestCase>, Failure>)
    ensures r.Ok? ==> |r.value| == 1 && r.value[0].isValid && r.value[0].value.Str?
  {
    var p :- Parse(domain, 'h', 'm', 's');
    var text :- FormatTime(e, p, true);
    Ok([Labelled("valid time " + p.constraint + " " + Shown(p.amounts) + " using " + FormatText(p.format) + " format", Str(text), true)])
  }

  method ValidGenerator(e: Env, domain: string) returns (r: Result<seq<TestCase>, Failure>)
    ensures r == ValidCases(e, domain)
  {
    var testCases: seq<TestCase> := [];
    var p :- Parse(domain, 'h', 'm', 's');
    var text :- FormatTime(e, p, true);
    testCases := testCases + [Labelled("valid time " + p.constraint + " " + Shown(p.amounts) + " using " + FormatText(p.format) + " format", Str(text), true)];
    assert testCases == ValidCases(e, domain).value;
    return Ok(testCases);
  }

  /** `zTimeInvalidGenerator`. */
  function InvalidCases(e: Env, domain: string): (r: Result<seq<TestCase>, Failure>)
    ensures r.Ok? ==> |r.value| == 2 && !r.value[0].isValid && !r.value[1].isValid
    ensures r.Ok? ==> r.value[0].value.Str? && r.value[1].value == Str("invalid-time-format")
  {
    var p :- Parse(domain, 'h', 'm', 's');
    var text :- FormatTime(e, p, false);
    Ok([Labelled("invalid time " + p.constraint + " " + Shown(p.amounts) + " using " + FormatText(p.format) + " format", Str(text), false),
        Labelled("invalid format for time " + p.constraint + " " + Shown(p.amounts), Str("invalid-time-format"), false)])
  }

  method InvalidGenerator(e: Env, domain: string) returns (r: Result<seq<TestCase>, Failure>)
    ensures r == InvalidCases(e, domain)
  {
    var testCases: seq<TestCase> := [];
    var p :- Parse(domain, 'h', 'm', 's');
    var text :- FormatTime(e, p, false);
    testCases := testCases + [Labelled("invalid time " + p.constraint + " " + Shown(p.amounts) + " using " + FormatText(p.format) + " format", Str(text), false)];
    testCases := testCases + [Labelled("invalid format for time " + p.constraint + " " + Shown(p.amounts), Str("invalid-time-format"), false)];
    assert testCases == InvalidCases(e, domain).value;
    return Ok(testCases);
  }

  /** Parsing the descriptor of a `zTime` schema whose format holds no `_`
      recovers its word, hours, minutes, seconds and format. */
  lemma DescribeRoundTrip(c: TimeConstraint)
    requires '_' !in c.timeFormat
    ensures Parse(Describe(c), 'h', 'm', 's')
      == Ok(Parsed(CompareWord(c.isTimeBefore), Amounts(Some(c.hours), Some(c.minutes), Some(c.seconds)), Some(c.timeFormat)))
  {
    DescriptorRoundTrip("time", CompareWord(c.isTimeBefore), c.hours, c.minutes, c.seconds, 'h', 'm', 's', c.timeFormat);
  }

  lemma DefaultsRoundTrip()
    ensures Parse(Describe(Defaults), 'h', 'm', 's') == Ok(Parsed("before", Amounts(Some(0), Some(0), Some(0)), Some("HH:mm:ss")))
  {
    DescribeRoundTrip(Defaults);
  }

  /** On its own schema's descriptor the valid generator sets the clock one
      hour inside the bound (an hour earlier for "before", later for
      "after") and labels the formatted time valid. */
  lemma ValidTargetsInside(e: Env, c: TimeConstraint)
    requires '_' !in c.timeFormat
    requires e.format(e.setClock(if c.isTimeBefore then c.hours - 1 else c.hours + 1, c.minutes, c.seconds), Some(c.timeFormat)).Some?
    ensures ValidCases(e, Describe(c)) == Ok([Labelled(
      "valid time " + CompareWord(c.isTimeBefore) + " " + Components(c.hours, c.minutes, c.seconds, 'h', 'm', 's')
        + " using " + c.timeFormat + " format",
      Str(e.format(e.setClock(if c.isTimeBefore then c.hours - 1 else c.hours + 1, c.minutes, c.seconds), Some(c.timeFormat)).value),
      true)])
  {
    DescribeRoundTrip(c);
  }

  /** The invalid generator sets the clock one hour on the other side: later
      for "before", earlier for "after". */
  lemma InvalidTargetsOutside(e: Env, c: TimeConstraint)
    requires '_' !in c.timeFormat
    requires e.format(e.setClock(if c.isTimeBefore then c.hours + 1 else c.hours - 1, c.minutes, c.seconds), Some(c.timeFormat)).Some?
    ensures InvalidCases(e, Describe(c)).Ok?
    ensures InvalidCases(e, Describe(c)).value[0].value
      == Str(e.format(e.setClock(if c.isTimeBefore then c.hours + 1 else c.hours - 1, c.minutes, c.seconds), Some(c.timeFormat)).value)
  {
    DescribeRoundTrip(c);
  }

  /** The two generators move the clock in opposite directions from the same
      parsed hour. */
  lemma TargetsOpposite(constraint: string, hours: int)
    ensures TargetHour(constraint, hours, true) + TargetHour(constraint, hours, false) == 2 * hours
    ensures TargetHour(constraint, hours, true) != TargetHour(constraint, hours, false)
  {
  }

  /** A descriptor without the middle field cannot be read: the generators
      throw before formatting anything. */
  lemma MissingParamsThrow(e: Env, domain: string)
    requires |Split(SliceFrom(domain, 5), '_')| < 2
    ensures ValidCases(e, domain) == Err(ReadOfUndefined)
    ensures InvalidCases(e, domain) == Err(ReadOfUndefined)
  {
  }
}
