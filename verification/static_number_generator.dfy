/** The older number generator: boundary cases labelled by hand, with no
    oracle and no rounding. It reads the same `int`, `finite`, `min` and
    `max` checks as the registry's generator. */
module StaticNumberGenerator {
  import opened Wrappers
  import opened JsNumbers
  import opened Schemas
  import opened Values
  import opened Draws
  import opened TestCaseUtils
  import NumberGenerator

  /** Both bounds are at their infinite defaults. */
  predicate Unbounded(c: NumberGenerator.NumberConstraints) {
    c.min.None? && c.max.None?
  }

  /** The three non-finite cases `valid` opens with when `finite` is
      declared, each marked invalid. */
  function NonFiniteCases(c: NumberGenerator.NumberConstraints): (r: seq<TestCase>)
    ensures |r| == if c.isFinite then 3 else 0
    ensures forall t :: t in r ==> !t.isValid && t.value.Num? && !t.value.n.Fin?
  {
    if c.isFinite then
      [ Labelled("invalid infinite number", Num(PosInf), false),
        Labelled("invalid negative infinite number", Num(NegInf), false),
        Labelled("invalid NaN", Num(NaN), false) ]
    else []
  }

  /** The cases equal to a finite bound. */
  function EqualsBoundCases(c: NumberGenerator.NumberConstraints): (r: seq<TestCase>)
    ensures |r| == (if c.min.Some? then 1 else 0) + (if c.max.Some? then 1 else 0)
    ensures forall t :: t in r ==> t.isValid
  {
    (if c.min.Some? then [Labelled("valid number equals to minimum", Num(Fin(c.min.value)), true)] else [])
    + (if c.max.Some? then [Labelled("valid number equals to maximum", Num(Fin(c.max.value)), true)] else [])
  }

  /** `min !== max - 1`: strict inequality, under which NaN differs from
      everything. */
  predicate StepsApart(c: NumberGenerator.NumberConstraints) {
    !StrictEquals(NumberGenerator.MinNumber(c), Sub(NumberGenerator.MaxNumber(c), Fin(1.0)))
  }

  /** `min + 1` and `max - 1`, and for non-integer schemas `min + 0.01` and
      `max - 0.01`, all marked valid, tried whenever `min !== max - 1`. */
  function StepCases(c: NumberGenerator.NumberConstraints): (r: seq<TestCase>)
    ensures |r| == if StepsApart(c) then (if c.isInt then 2 else 4) else 0
    ensures forall t :: t in r ==> t.isValid
  {
    var min, max := NumberGenerator.MinNumber(c), NumberGenerator.MaxNumber(c);
    if StepsApart(c) then
      [ Labelled("valid number (min+1)", Num(Add(min, Fin(1.0))), true),
        Labelled("valid number (max-1)", Num(Sub(max, Fin(1.0))), true) ]
      + (if !c.isInt then
           [ Labelled("valid floating number (min + 0.01)", Num(Add(min, Fin(0.01))), true),
             Labelled("valid floating number (max-0.01)", Num(Sub(max, Fin(0.01))), true) ]
         else [])
    else []
  }

  /** `valid(schema)`: the non-finite cases marked invalid, then, unless both
      bounds are infinite, the boundary cases marked valid. */
  function ValidCases(s: Schema): (r: seq<TestCase>)
    requires s.ZodNumber?
    ensures var c := NumberGenerator.Extract(s.numberChecks);
      var k := if c.isFinite then 3 else 0;
      |r| >= k && (forall i :: 0 <= i < k ==> !r[i].isValid) && (forall i :: k <= i < |r| ==> r[i].isValid)
    ensures |r| <= 9
  {
    var c := NumberGenerator.Extract(s.numberChecks);
    var bounds := if Unbounded(c) then [] else EqualsBoundCases(c) + StepCases(c);
    assert forall t :: t in bounds ==> t.isValid;
    NonFiniteCases(c) + bounds
  }

  /** The three pushes for `finite`. */
  method AddNonFinite(c: NumberGenerator.NumberConstraints, cases: CaseList)
    modifies cases
    ensures cases.cases == old(cases.cases) + NonFiniteCases(c)
  {
    if c.isFinite {
      cases.cases := cases.cases + [Labelled("invalid infinite number", Num(PosInf), false)];
      cases.cases := cases.cases + [Labelled("invalid negative infinite number", Num(NegInf), false)];
      cases.cases := cases.cases + [Labelled("invalid NaN", Num(NaN), false)];
    }
  }

  /** The pushes of the bound values themselves. */
  method AddEqualsBound(c: NumberGenerator.NumberConstraints, cases: CaseList)
    modifies cases
    ensures cases.cases == old(cases.cases) + EqualsBoundCases(c)
  {
    var min, max := NumberGenerator.MinNumber(c), NumberGenerator.MaxNumber(c);
    if min != NegInf {
      cases.cases := cases.cases + [Labelled("valid number equals to minimum", Num(min), true)];
    }
    assert cases.cases == old(cases.cases) + (if c.min.Some? then [Labelled("valid number equals to minimum", Num(Fin(c.min.value)), true)] else []);
    if max != PosInf {
      cases.cases := cases.cases + [Labelled("valid number equals to maximum", Num(max), true)];
    }
  }

  /** The pushes one step and one cent inside the bounds. */
  method AddSteps(c: NumberGenerator.NumberConstraints, cases: CaseList)
    modifies cases
    ensures cases.cases == old(cases.cases) + StepCases(c)
  {
    var min, max := NumberGenerator.MinNumber(c), NumberGenerator.MaxNumber(c);
    if !StrictEquals(min, Sub(max, Fin(1.0))) {
      cases.cases := cases.cases + [Labelled("valid number (min+1)", Num(Add(min, Fin(1.0))), true)];
      cases.cases := cases.cases + [Labelled("valid number (max-1)", Num(Sub(max, Fin(1.0))), true)];
      if !c.isInt {
        cases.cases := cases.cases + [Labelled("valid floating number (min + 0.01)", Num(Add(min, Fin(0.01))), true)];
        cases.cases := cases.cases + [Labelled("valid floating number (max-0.01)", Num(Sub(max, Fin(0.01))), true)];
      }
    }
  }

  /** `NumberGenerator.valid`. */
  method Valid(s: Schema) returns (r: seq<TestCase>)
    requires s.ZodNumber?
    ensures r == ValidCases(s)
  {
    var c := NumberGenerator.ExtractConstraints(s.numberChecks);
    var cases := new CaseList();
    AddNonFinite(c, cases);
    var min, max := NumberGenerator.MinNumber(c), NumberGenerator.MaxNumber(c);
    if min == NegInf && max == PosInf {
      // no boundary cases
    } else {
      AddEqualsBound(c, cases);
      AddSteps(c, cases);
    }
    return cases.cases;
  }

  /** Without bound checks there are no boundary cases: `valid` of a plain
      number schema is empty, and with `finite` only the three non-finite
      cases remain. */
  lemma UnboundedValid(s: Schema)
    requires s.ZodNumber?
    requires forall j :: 0 <= j < |s.numberChecks| ==> !s.numberChecks[j].NumberMin? && !s.numberChecks[j].NumberMax?
    ensures ValidCases(s) == NonFiniteCases(NumberGenerator.Extract(s.numberChecks))
    ensures (forall j :: 0 <= j < |s.numberChecks| ==> !s.numberChecks[j].FiniteCheck?) ==> ValidCases(s) == []
  {
    var checks := s.numberChecks;
    var start := NumberGenerator.NumberConstraints(IntCheck in checks, FiniteCheck in checks, None, None, None);
    NumberGenerator.FoldDefaults(start, checks);
    NumberGenerator.FoldKeepsFlags(start, checks);
    if forall j :: 0 <= j < |checks| ==> !checks[j].FiniteCheck? {
      assert FiniteCheck !in checks;
    }
  }

  /** A case equal to the minimum is present exactly when a minimum is
      declared, and likewise for the maximum. */
  lemma EqualsBoundCasesPresent(s: Schema)
    requires s.ZodNumber?
    ensures var c := NumberGenerator.Extract(s.numberChecks);
      (c.min.Some? <==> Labelled("valid number equals to minimum", Num(NumberGenerator.MinNumber(c)), true) in ValidCases(s))
      && (c.max.Some? <==> Labelled("valid number equals to maximum", Num(NumberGenerator.MaxNumber(c)), true) in ValidCases(s))
  {
    var c := NumberGenerator.Extract(s.numberChecks);
    var eqs := EqualsBoundCases(c);
    var steps := StepCases(c);
    var minCase := Labelled("valid number equals to minimum", Num(NumberGenerator.MinNumber(c)), true);
    var maxCase := Labelled("valid number equals to maximum", Num(NumberGenerator.MaxNumber(c)), true);
    assert minCase !in NonFiniteCases(c) && maxCase !in NonFiniteCases(c);
    assert minCase !in steps && maxCase !in steps;
    if c.min.Some? {
      assert eqs[0] == minCase;
    }
    if c.max.Some? {
      assert eqs[|eqs| - 1] == maxCase;
    }
  }

  /** With one bound declared, `min + 1` (or `max - 1`) is still added and
      is the infinite default, marked valid. */
  lemma InfiniteStepMarkedValid(s: Schema)
    requires s.ZodNumber?
    requires var c := NumberGenerator.Extract(s.numberChecks); c.min.None? && c.max.Some?
    ensures Labelled("valid number (min+1)", Num(NegInf), true) in ValidCases(s)
  {
    var c := NumberGenerator.Extract(s.numberChecks);
    assert StepCases(c)[0] == Labelled("valid number (min+1)", Num(NegInf), true);
  }

  /** When the bounds are less than one apart but not exactly one apart (for
      instance `min = max = 5`), `min + 1` lies above `max` and is still
      marked valid. */
  lemma StepAboveMaxMarkedValid(s: Schema)
    requires s.ZodNumber?
    requires var c := NumberGenerator.Extract(s.numberChecks);
      c.min.Some? && c.max.Some? && c.max.value < c.min.value + 1.0 && c.max.value != c.min.value + 1.0
    ensures var c := NumberGenerator.Extract(s.numberChecks);
      Labelled("valid number (min+1)", Num(Fin(c.min.value + 1.0)), true) in ValidCases(s)
      && c.min.value + 1.0 > c.max.value
  {
    var c := NumberGenerator.Extract(s.numberChecks);
    assert StepCases(c)[0] == Labelled("valid number (min+1)", Num(Fin(c.min.value + 1.0)), true);
    assert StepCases(c)[0] in EqualsBoundCases(c) + StepCases(c);
  }

  // ---------------------------------------------------------------------
  // invalid

  /** The six wrong-type cases `invalid` opens with. */
  function WrongTypeCases(): seq<TestCase> {
    [ Labelled("invalid string", Str("not-a-number"), false),
      Labelled("invalid boolean", Bool(true), false),
      Labelled("invalid array", Arr([Int(1), Int(2), Int(3)]), false),
      Labelled("invalid object", Obj(map["value" := Int(1)]), false),
      Labelled("invalid null", Null, false),
      Labelled("invalid undefined", Undefined, false) ]
  }

  /** `min - 1`, and `min - 0.01` when not `int`, for a finite minimum. */
  function BelowMinCases(e: Env, c: NumberGenerator.NumberConstraints): (r: seq<TestCase>)
    ensures forall t :: t in r ==> !t.isValid && t.value.Num? && t.value.n.Fin? && c.min.Some? && t.value.n.r < c.min.value
  {
    if c.min.Some? then
      var min := c.min.value;
      [Labelled("invalid number less than minimum (" + e.show(min) + ")", Num(Fin(min - 1.0)), false)]
      + (if !c.isInt then [Labelled("invalid floating number less than minimum (" + e.show(min) + ")", Num(Fin(min - 0.01)), false)] else [])
    else []
  }

  /** `max + 1`, and `max + 0.01` when not `int`, for a finite maximum. */
  function AboveMaxCases(e: Env, c: NumberGenerator.NumberConstraints): (r: seq<TestCase>)
    ensures forall t :: t in r ==> !t.isValid && t.value.Num? && t.value.n.Fin? && c.max.Some? && t.value.n.r > c.max.value
  {
    if c.max.Some? then
      var max := c.max.value;
      [Labelled("invalid number greater than maximum (" + e.show(max) + ")", Num(Fin(max + 1.0)), false)]
      + (if !c.isInt then [Labelled("invalid floating number greater than maximum (" + e.show(max) + ")", Num(Fin(max + 0.01)), false)] else [])
    else []
  }

  /** `invalid(schema)`: the six wrong-type cases, then the values just
      outside each finite bound; every case is marked invalid. */
  function InvalidCases(e: Env, s: Schema): (r: seq<TestCase>)
    requires s.ZodNumber?
    ensures 6 <= |r| <= 10 && r[..6] == WrongTypeCases()
    ensures forall t :: t in r ==> !t.isValid
  {
    var c := NumberGenerator.Extract(s.numberChecks);
    WrongTypeCases() + (if Unbounded(c) then [] else BelowMinCases(e, c) + AboveMaxCases(e, c))
  }

  /** The pushes below a finite minimum. */
  method AddBelowMin(e: Env, c: NumberGenerator.NumberConstraints, cases: CaseList)
    modifies cases
    ensures cases.cases == old(cases.cases) + BelowMinCases(e, c)
  {
    var min := NumberGenerator.MinNumber(c);
    if min != NegInf {
      cases.cases := cases.cases + [Labelled("invalid number less than minimum (" + e.show(min.r) + ")", Num(Fin(min.r - 1.0)), false)];
      if !c.isInt {
        cases.cases := cases.cases + [Labelled("invalid floating number less than minimum (" + e.show(min.r) + ")", Num(Fin(min.r - 0.01)), false)];
      }
    }
  }

  /** The pushes above a finite maximum. */
  method AddAboveMax(e: Env, c: NumberGenerator.NumberConstraints, cases: CaseList)
    modifies cases
    ensures cases.cases == old(cases.cases) + AboveMaxCases(e, c)
  {
    var max := NumberGenerator.MaxNumber(c);
    if max != PosInf {
      cases.cases := cases.cases + [Labelled("invalid number greater than maximum (" + e.show(max.r) + ")", Num(Fin(max.r + 1.0)), false)];
      if !c.isInt {
        cases.cases := cases.cases + [Labelled("invalid floating number greater than maximum (" + e.show(max.r) + ")", Num(Fin(max.r + 0.01)), false)];
      }
    }
  }

  /** The six wrong-type pushes. */
  method AddWrongTypes(cases: CaseList)
    modifies cases
    ensures cases.cases == old(cases.cases) + WrongTypeCases()
  {
    cases.cases := cases.cases + [Labelled("invalid string", Str("not-a-number"), false)];
    cases.cases := cases.cases + [Labelled("invalid boolean", Bool(true), false)];
    cases.cases := cases.cases + [Labelled("invalid array", Arr([Int(1), Int(2), Int(3)]), false)];
    cases.cases := cases.cases + [Labelled("invalid object", Obj(map["value" := Int(1)]), false)];
    cases.cases := cases.cases + [Labelled("invalid null", Null, false)];
    cases.cases := cases.cases + [Labelled("invalid undefined", Undefined, false)];
  }

  /** `NumberGenerator.invalid`. */
  method Invalid(e: Env, s: Schema) returns (r: seq<TestCase>)
    requires s.ZodNumber?
    ensures r == InvalidCases(e, s)
  {
    var cases := new CaseList();
    AddWrongTypes(cases);
    var c := NumberGenerator.ExtractConstraints(s.numberChecks);
    var min, max := NumberGenerator.MinNumber(c), NumberGenerator.MaxNumber(c);
    if min == NegInf && max == PosInf {
      // no boundary cases
    } else {
      AddBelowMin(e, c, cases);
      AddAboveMax(e, c, cases);
    }
    return cases.cases;
  }

  /** Each finite bound contributes the case one below it (above it), and
      for non-integer schemas the one a cent below (above) too; no other
      case follows the wrong-type ones. */
  lemma OutOfBoundsCounts(e: Env, s: Schema)
    requires s.ZodNumber?
    ensures var c := NumberGenerator.Extract(s.numberChecks);
      var per := if c.isInt then 1 else 2;
      |InvalidCases(e, s)| == 6 + (if c.min.Some? then per else 0) + (if c.max.Some? then per else 0)
  {
  }
}
