/** The descriptor strings of the date and time schema helpers, such as
    `time.before_9h30m0s_HH:mm:ss` or `date.after_1y2m3d_yyyy-MM-dd`, and the
    way their generators take them apart again: drop the five-character
    prefix, split on `_`, then split the middle field on the three unit
    letters and read each amount with `Number`. */
module Descriptors {
  import opened Wrappers
  import opened JsStrings
  import opened Values

  /** `${a}u1${b}u2${c}u3`: three integral amounts, each followed by its unit. */
  function Components(a: int, b: int, c: int, u1: char, u2: char, u3: char): string {
    IntToString(a) + [u1] + IntToString(b) + [u2] + IntToString(c) + [u3]
  }

  /** `isTimeBefore ? 'before' : 'after'` (and likewise `isDateBefore`): the
      constraint word of a descriptor, which never holds the `_` separator. */
  function CompareWord(before: bool): (w: string)
    ensures '_' !in w
    ensures w == "before" <==> before
  {
    if before then "before" else "after"
  }

  /** `${kind}.${word}_${components}_${format}` */
  function Descriptor(kind: string, word: string, components: string, format: string): string {
    kind + "." + word + "_" + components + "_" + format
  }

  /** The three amounts a generator reads; None stands for NaN. */
  datatype Amounts = Amounts(first: Option<int>, second: Option<int>, third: Option<int>)

  /** The destructured fields of a descriptor: the constraint word, the amounts
      and the format, which is `undefined` when the descriptor has fewer than
      three fields. Fields after the third are ignored. */
  datatype Parsed = Parsed(constraint: string, amounts: Amounts, format: Option<string>)

  /** `text.split(u1)[0]`, `text.split(u1)[1].split(u2)[0]` and
      `text.split(u1)[1].split(u2)[1].split(u3)[0]`, each read with `Number`;
      reading `split` of a missing piece throws. */
  function ParseComponents(text: string, u1: char, u2: char, u3: char): (r: Result<Amounts, Failure>)
    ensures r.Err? ==> r.error == ReadOfUndefined
    ensures r.Ok? <==> |Split(text, u1)| >= 2 && |Split(Split(text, u1)[1], u2)| >= 2
  {
    var byFirst := Split(text, u1);
    if |byFirst| < 2 then Err(ReadOfUndefined)
    else
      var bySecond := Split(byFirst[1], u2);
      if |bySecond| < 2 then Err(ReadOfUndefined)
      else Ok(Amounts(ParseNumber(byFirst[0]), ParseNumber(bySecond[0]), ParseNumber(Split(bySecond[1], u3)[0])))
  }

  /** `const [constraint, params, format] = domain.slice(5).split("_")`
      followed by the component reads. */
  function Parse(domain: string, u1: char, u2: char, u3: char): (r: Result<Parsed, Failure>)
    ensures r.Err? ==> r.error == ReadOfUndefined
    ensures r.Ok? ==> r.value.constraint == Split(SliceFrom(domain, 5), '_')[0]
  {
    var fields := Split(SliceFrom(domain, 5), '_');
    if |fields| < 2 then Err(ReadOfUndefined)
    else
      var amounts :- ParseComponents(fields[1], u1, u2, u3);
      Ok(Parsed(fields[0], amounts, if |fields| >= 3 then Some(fields[2]) else None))
  }

  /** A unit letter is neither a digit nor a minus sign nor the field
      separator. */
  predicate IsUnit(u: char) {
    u != '-' && u != '_' && !IsDigit(u)
  }

  lemma NotInNumeral(i: int, ch: char)
    requires ch != '-' && !IsDigit(ch)
    ensures ch !in IntToString(i)
  {
    IntToStringChars(i);
  }

  /** Splitting `x + [u]` on `u`, where `x` holds no `u`, gives `x` first. */
  lemma SplitBeforeLast(x: string, u: char)
    requires u !in x
    ensures |Split(x + [u], u)| >= 1 && Split(x + [u], u)[0] == x
  {
    SplitAfterPiece(x, "", u);
    assert x + [u] + "" == x + [u];
  }

  /** The components of three amounts read back as those amounts. */
  lemma ComponentsRoundTrip(a: int, b: int, c: int, u1: char, u2: char, u3: char)
    requires IsUnit(u1) && IsUnit(u2) && IsUnit(u3)
    requires u1 != u2 && u1 != u3 && u2 != u3
    ensures '_' !in Components(a, b, c, u1, u2, u3)
    ensures ParseComponents(Components(a, b, c, u1, u2, u3), u1, u2, u3)
      == Ok(Amounts(Some(a), Some(b), Some(c)))
  {
    var sa, sb, sc := IntToString(a), IntToString(b), IntToString(c);
    NotInNumeral(a, u1);
    NotInNumeral(b, u1);
    NotInNumeral(c, u1);
    NotInNumeral(b, u2);
    NotInNumeral(c, u2);
    NotInNumeral(c, u3);
    NotInNumeral(a, '_');
    NotInNumeral(b, '_');
    NotInNumeral(c, '_');
    var text := Components(a, b, c, u1, u2, u3);
    var rest1 := sb + [u2] + sc + [u3];
    var rest2 := sc + [u3];
    assert text == sa + [u1] + rest1;
    assert rest1 == sb + [u2] + rest2;
    assert u1 !in rest1;
    SplitAfterPiece(sa, rest1, u1);
    SplitWithoutSeparator(rest1, u1);
    assert Split(text, u1) == [sa, rest1];
    assert u2 !in rest2;
    SplitAfterPiece(sb, rest2, u2);
    SplitWithoutSeparator(rest2, u2);
    assert Split(rest1, u2) == [sb, rest2];
    SplitBeforeLast(sc, u3);
    IntToStringParses(a);
    IntToStringParses(b);
    IntToStringParses(c);
  }

  /** A descriptor whose word and format hold no `_` parses back to its word,
      its amounts and its format. */
  lemma {:induction false} DescriptorRoundTrip(kind: string, word: string, a: int, b: int, c: int, u1: char, u2: char, u3: char, format: string)
    requires |kind| == 4
    requires IsUnit(u1) && IsUnit(u2) && IsUnit(u3)
    requires u1 != u2 && u1 != u3 && u2 != u3
    requires '_' !in word && '_' !in format
    ensures Parse(Descriptor(kind, word, Components(a, b, c, u1, u2, u3), format), u1, u2, u3)
      == Ok(Parsed(word, Amounts(Some(a), Some(b), Some(c)), Some(format)))
  {
    var comps := Components(a, b, c, u1, u2, u3);
    ComponentsRoundTrip(a, b, c, u1, u2, u3);
    var d := Descriptor(kind, word, comps, format);
    var tail := comps + "_" + format;
    assert d == (kind + ".") + (word + "_" + tail);
    assert SliceFrom(d, 5) == word + "_" + tail;
    SplitAfterPiece(word, tail, '_');
    SplitAfterPiece(comps, format, '_');
    SplitWithoutSeparator(format, '_');
    assert Split(SliceFrom(d, 5), '_') == [word, comps, format];
  }

  /** Text appended after a further `_` becomes further fields and leaves the
      first three as they were. */
  lemma {:induction false} ExtraFields(kind: string, word: string, components: string, format: string, extra: string)
    requires |kind| == 4
    requires '_' !in word && '_' !in components && '_' !in format
    ensures Split(SliceFrom(Descriptor(kind, word, components, format) + "_" + extra, 5), '_')
      == [word, components, format] + Split(extra, '_')
  {
    var d := Descriptor(kind, word, components, format) + "_" + extra;
    var last := format + "_" + extra;
    var tail := components + "_" + last;
    assert d == (kind + ".") + (word + "_" + tail);
    assert SliceFrom(d, 5) == word + "_" + tail;
    SplitAfterPiece(word, tail, '_');
    SplitAfterPiece(components, last, '_');
    SplitAfterPiece(format, extra, '_');
  }
}
