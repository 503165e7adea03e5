/** The registry's number generator: boundary, midpoint and multiple
    candidates for the valid bucket, wrong-type and out-of-range candidates
    for the invalid bucket, each passed through the oracle filter. Numbers are
    exact reals; binary floating-point rounding is not modelled. */
module NumberGenerator {
  import opened Wrappers
  import opened JsNumbers
  import opened Schemas
  import opened Values
  import opened Oracle
  import opened Draws
  import opened TestCaseUtils
  import Search

  /** The local variables the check loop fills in; an absent bound is the
      corresponding infinity. */
  datatype NumberConstraints = NumberConstraints(
    isInt: bool,
    isFinite: bool,
    min: Option<real>,
    max: Option<real>,
    multipleOf: Option<real>)

  /** One iteration of the `min`/`max`/`multipleOf` loop: a later check
      overwrites an earlier one of the same kind. */
  function Step(c: NumberConstraints, check: NumberCheck): NumberConstraints {
    match check
    case NumberMin(b, _) => c.(min := Some(b))
    case NumberMax(b, _) => c.(max := Some(b))
    case MultipleOf(m) => c.(multipleOf := Some(m))
    case _ => c
  }

  /** The bounds and step after reading `checks` in order. */
  function Fold(c: NumberConstraints, checks: seq<NumberCheck>): NumberConstraints {
    if checks == [] then c else Step(Fold(c, checks[..|checks| - 1]), checks[|checks| - 1])
  }

  /** `checks.some(check => check.kind === "int")` and the same for "finite",
      then the loop from `-Infinity`, `Infinity` and no step. */
  function Extract(checks: seq<NumberCheck>): (c: NumberConstraints)
    ensures c.isInt <==> IntCheck in checks
    ensures c.isFinite <==> FiniteCheck in checks
  {
    FoldKeepsFlags(NumberConstraints(IntCheck in checks, FiniteCheck in checks, None, None, None), checks);
    Fold(NumberConstraints(IntCheck in checks, FiniteCheck in checks, None, None, None), checks)
  }

  /** The check loop of `valid` and `invalid`. */
  method ExtractConstraints(checks: seq<NumberCheck>) returns (c: NumberConstraints)
    ensures c == Extract(checks)
  {
    c := NumberConstraints(IntCheck in checks, FiniteCheck in checks, None, None, None);
    ghost var start := c;
    for i := 0 to |checks|
      invariant c == Fold(start, checks[..i])
    {
      assert checks[..i + 1][..i] == checks[..i];
      match checks[i]
      case NumberMin(b, _) => c := c.(min := Some(b));
      case NumberMax(b, _) => c := c.(max := Some(b));
      case MultipleOf(m) => c := c.(multipleOf := Some(m));
      case _ =>
    }
    assert checks[..|checks|] == checks;
  }

  /** Folding keeps the flags. */
  lemma {:induction false} FoldKeepsFlags(c: NumberConstraints, checks: seq<NumberCheck>)
    ensures Fold(c, checks).isInt == c.isInt && Fold(c, checks).isFinite == c.isFinite
  {
    if checks != [] {
      FoldKeepsFlags(c, checks[..|checks| - 1]);
    }
  }

  /** The flags are set exactly when a check of their kind is present; the
      lower bound is the last `min` check's value, or absent without one. */
  lemma {:induction false} LastMinWins(checks: seq<NumberCheck>, i: nat)
    requires i < |checks| && checks[i].NumberMin?
    requires forall j :: i < j < |checks| ==> !checks[j].NumberMin?
    ensures Extract(checks).min == Some(checks[i].bound)
    ensures Extract(checks).isInt <==> IntCheck in checks
    ensures Extract(checks).isFinite <==> FiniteCheck in checks
  {
    var start := NumberConstraints(IntCheck in checks, FiniteCheck in checks, None, None, None);
    FoldKeepsFlags(start, checks);
    FoldLastMin(start, checks, i);
  }

  lemma {:induction false} FoldLastMin(c: NumberConstraints, checks: seq<NumberCheck>, i: nat)
    requires i < |checks| && checks[i].NumberMin?
    requires forall j :: i < j < |checks| ==> !checks[j].NumberMin?
    ensures Fold(c, checks).min == Some(checks[i].bound)
  {
    var n := |checks| - 1;
    if i < n {
      assert checks[..n][i] == checks[i];
      FoldLastMin(c, checks[..n], i);
    }
  }

  /** The upper bound is the last `max` check's value. */
  lemma {:induction false} FoldLastMax(c: NumberConstraints, checks: seq<NumberCheck>, i: nat)
    requires i < |checks| && checks[i].NumberMax?
    requires forall j :: i < j < |checks| ==> !checks[j].NumberMax?
    ensures Fold(c, checks).max == Some(checks[i].bound)
  {
    var n := |checks| - 1;
    if i < n {
      assert checks[..n][i] == checks[i];
      FoldLastMax(c, checks[..n], i);
    }
  }

  /** The step is the last `multipleOf` check's value. */
  lemma {:induction false} FoldLastMultipleOf(c: NumberConstraints, checks: seq<NumberCheck>, i: nat)
    requires i < |checks| && checks[i].MultipleOf?
    requires forall j :: i < j < |checks| ==> !checks[j].MultipleOf?
    ensures Fold(c, checks).multipleOf == Some(checks[i].step)
  {
    var n := |checks| - 1;
    if i < n {
      assert checks[..n][i] == checks[i];
      FoldLastMultipleOf(c, checks[..n], i);
    }
  }

  /** Without a check of a kind its variable keeps its default: -Infinity,
      Infinity, undefined. */
  lemma {:induction false} FoldDefaults(c: NumberConstraints, checks: seq<NumberCheck>)
    ensures (forall j :: 0 <= j < |checks| ==> !checks[j].NumberMin?) ==> Fold(c, checks).min == c.min
    ensures (forall j :: 0 <= j < |checks| ==> !checks[j].NumberMax?) ==> Fold(c, checks).max == c.max
    ensures (forall j :: 0 <= j < |checks| ==> !checks[j].MultipleOf?) ==> Fold(c, checks).multipleOf == c.multipleOf
  {
    if checks != [] {
      FoldDefaults(c, checks[..|checks| - 1]);
    }
  }

  /** `roundToTwoDecimals`: `Math.round((x + Number.EPSILON) * 100) / 100`. */
  function Round2(x: real): (y: real)
    ensures OnCentGrid(y)
  {
    ((x + Epsilon) * 100.0 + 0.5).Floor as real / 100.0
  }

  /** `roundToTwoDecimals` on any number: an infinity or NaN is unchanged. */
  function Round2Number(a: JsNumber): (r: JsNumber)
    ensures r.Fin? <==> a.Fin?
    ensures !a.Fin? ==> r == a
    ensures r.Fin? ==> OnCentGrid(r.r)
  {
    match a
    case Fin(x) => Fin(Round2(x))
    case _ => a
  }

  /** A value that is a whole number of hundredths. */
  predicate OnCentGrid(x: real) {
    IsInteger(x * 100.0)
  }

  /** Rounding to two decimals leaves a whole number of hundredths as it is. */
  lemma Round2Fixes(x: real)
    requires OnCentGrid(x)
    ensures Round2(x) == x
  {
    var n := (x * 100.0).Floor;
    assert (x + Epsilon) * 100.0 + 0.5 == n as real + (Epsilon * 100.0 + 0.5);
    assert ((x + Epsilon) * 100.0 + 0.5).Floor == n;
  }

  /** Rounding to two decimals never crosses a cent-grid bound from above. */
  lemma Round2Below(x: real, hi: real)
    requires x <= hi && OnCentGrid(hi)
    ensures Round2(x) <= hi
  {
    var y := (x + Epsilon) * 100.0 + 0.5;
    var h := (hi * 100.0).Floor;
    assert y < h as real + 1.0;
    assert y.Floor <= h;
    assert y.Floor as real / 100.0 <= h as real / 100.0;
  }

  /** Rounding to two decimals never crosses a cent-grid bound from below. */
  lemma Round2Above(x: real, lo: real)
    requires lo <= x && OnCentGrid(lo)
    ensures lo <= Round2(x)
  {
    var y := (x + Epsilon) * 100.0 + 0.5;
    var l := (lo * 100.0).Floor;
    assert l as real <= y;
    assert l <= y.Floor;
    assert l as real / 100.0 <= y.Floor as real / 100.0;
  }

  /** The draw of one attempt of `generateValidNumber`'s loop body for the
      draw `r`: a point of the range, or of a window of 1e10 beside an
      absent bound. */
  function Raw(c: NumberConstraints, r: real): (x: real)
    ensures c.min.None? && c.max.None? && 0.0 <= r < 1.0 ==> -10000000000.0 <= x < 10000000000.0
  {
    if c.min.None? && c.max.None? then r * 20000000000.0 - 10000000000.0
    else if c.min.None? then c.max.value - r * 10000000000.0
    else if c.max.None? then c.min.value + r * 10000000000.0
    else r * (c.max.value - c.min.value) + c.min.value
  }

  /** `Math.floor` for integer schemas, `roundToTwoDecimals` otherwise. */
  function Snap(isInt: bool, x: real): (y: real)
    ensures OnGrid(isInt, y)
  {
    if isInt then x.Floor as real else Round2(x)
  }

  /** The value of one attempt of `generateValidNumber`'s loop body. */
  function Candidate(c: NumberConstraints, r: real): (x: real)
    ensures OnGrid(c.isInt, x)
  {
    Snap(c.isInt, Raw(c, r))
  }

  /** A bound the candidate can land on exactly: a whole number for integer
      schemas, a whole number of cents otherwise. */
  predicate OnGrid(isInt: bool, x: real) {
    if isInt then IsInteger(x) else OnCentGrid(x)
  }

  /** Snapping never crosses a bound on the grid from above. */
  lemma SnapBelow(isInt: bool, x: real, hi: real)
    requires x <= hi && OnGrid(isInt, hi)
    ensures Snap(isInt, x) <= hi
  {
    if !isInt {
      Round2Below(x, hi);
    }
  }

  /** Snapping never crosses a bound on the grid from below. */
  lemma SnapAbove(isInt: bool, x: real, lo: real)
    requires lo <= x && OnGrid(isInt, lo)
    ensures lo <= Snap(isInt, x)
  {
    if !isInt {
      Round2Above(x, lo);
    }
  }

  /** A draw in [0, 1) places the raw value between the two bounds. */
  lemma RawWithinBounds(c: NumberConstraints, r: real)
    requires 0.0 <= r < 1.0
    requires c.min.Some? && c.max.Some? ==> c.min.value <= c.max.value
    ensures c.min.Some? ==> c.min.value <= Raw(c, r)
    ensures c.max.Some? ==> Raw(c, r) <= c.max.value
  {
    if c.min.Some? && c.max.Some? {
      var d := c.max.value - c.min.value;
      assert 0.0 <= r * d;
      assert r * d <= d by {
        assert (1.0 - r) * d >= 0.0;
      }
    }
  }

  /** For a draw in [0, 1) and bounds on the grid, the candidate lies within
      the declared bounds. */
  lemma CandidateWithinBounds(c: NumberConstraints, r: real)
    requires 0.0 <= r < 1.0
    requires c.min.Some? ==> OnGrid(c.isInt, c.min.value)
    requires c.max.Some? ==> OnGrid(c.isInt, c.max.value)
    requires c.min.Some? && c.max.Some? ==> c.min.value <= c.max.value
    ensures c.min.Some? ==> c.min.value <= Candidate(c, r)
    ensures c.max.Some? ==> Candidate(c, r) <= c.max.value
  {
    RawWithinBounds(c, r);
    if c.min.Some? {
      SnapAbove(c.isInt, Raw(c, r), c.min.value);
    }
    if c.max.Some? {
      SnapBelow(c.isInt, Raw(c, r), c.max.value);
    }
  }

  /** Rounding to two decimals moves a value by at most half a cent (plus
      the epsilon nudge), so a whole unit below or above a bound stays on
      that side of it. */
  lemma Round2Close(x: real)
    ensures x - 0.005 < Round2(x) <= x + Epsilon + 0.005
  {
    var y := (x + Epsilon) * 100.0 + 0.5;
    assert y - 1.0 < y.Floor as real <= y;
  }

  /** `min` as the source holds it: -Infinity when no `min` check is present. */
  function MinNumber(c: NumberConstraints): JsNumber {
    if c.min.Some? then Fin(c.min.value) else NegInf
  }

  /** `max` as the source holds it: Infinity when no `max` check is present. */
  function MaxNumber(c: NumberConstraints): JsNumber {
    if c.max.Some? then Fin(c.max.value) else PosInf
  }

  // ---------------------------------------------------------------------
  // generateValidNumber, generateValidMultipleOf, generateInvalidMultipleOf

  /** The exit test of `generateValidNumber`'s loop: no step, or a candidate
      whose remainder by the step is zero. */
  function Hit(c: NumberConstraints, x: real): bool {
    c.multipleOf.None? || RemIsZero(x, c.multipleOf.value)
  }

  function HitAt(e: Env, c: NumberConstraints): nat -> bool {
    (k: nat) => Hit(c, Candidate(c, e.numberDraws(k)))
  }

  /** The value `generateValidNumber` returns: the candidate of the first
      attempt that passes the exit test. */
  ghost function ValidNumber(e: Env, c: NumberConstraints): (x: real)
    requires exists k: nat :: HitAt(e, c)(k)
    ensures Hit(c, x)
  {
    Candidate(c, e.numberDraws(Search.First(HitAt(e, c))))
  }

  /** `generateValidNumber`: draw candidates until one is a multiple of the
      step (the first one, without a step). */
  method GenerateValidNumber(e: Env, c: NumberConstraints) returns (x: real)
    requires exists k: nat :: HitAt(e, c)(k)
    ensures x == ValidNumber(e, c)
  {
    ghost var hit := HitAt(e, c);
    ghost var w: nat :| hit(w);
    var attempt := 0;
    x := Candidate(c, e.numberDraws(attempt));
    while !Hit(c, x)
      invariant attempt <= w
      invariant x == Candidate(c, e.numberDraws(attempt))
      invariant forall j: nat :: j < attempt ==> !hit(j)
      decreases w - attempt
    {
      attempt := attempt + 1;
      x := Candidate(c, e.numberDraws(attempt));
    }
    Search.FirstIsUnique(hit, attempt);
  }

  /** `Math.floor(-1e10 / m)` without a lower bound, `Math.ceil(min / m)`
      with one: the index of the first multiple considered. */
  function LowQuotient(c: NumberConstraints, m: real): int
    requires m != 0.0
  {
    if c.min.None? then (-10000000000.0 / m).Floor else Ceil(c.min.value / m)
  }

  /** `Math.floor(1e10 / m)` without an upper bound, `Math.floor(max / m)`
      with one: the index of the last multiple considered. */
  function HighQuotient(c: NumberConstraints, m: real): int
    requires m != 0.0
  {
    if c.max.None? then (10000000000.0 / m).Floor else (c.max.value / m).Floor
  }

  /** `minMultiple + Math.floor(r * ((maxMultiple - minMultiple) / m + 1)) * m`
      for the multiples of index `lo` and `hi`. */
  function PickMultiple(lo: int, hi: int, m: real, r: real): real
    requires m != 0.0
  {
    var minMultiple := lo as real * m;
    var maxMultiple := hi as real * m;
    minMultiple + (r * ((maxMultiple - minMultiple) / m + 1.0)).Floor as real * m
  }

  /** `generateValidMultipleOf` for the draw `r`: a multiple picked between
      the first and the last multiple in range, then floored or rounded.
      A zero step turns every intermediate into NaN. */
  function ValidMultipleOf(c: NumberConstraints, m: real, r: real): (x: JsNumber)
    ensures x.NaN? <==> m == 0.0
    ensures x.Fin? ==> OnGrid(c.isInt, x.r)
  {
    if m == 0.0 then NaN
    else Fin(Snap(c.isInt, PickMultiple(LowQuotient(c, m), HighQuotient(c, m), m, r)))
  }

  /** A whole multiple of a step on the grid is on the grid. */
  lemma MultipleOnGrid(isInt: bool, q: int, m: real)
    requires OnGrid(isInt, m)
    ensures OnGrid(isInt, q as real * m)
  {
    if isInt {
      var k := m.Floor;
      assert q as real * m == (q * k) as real;
    } else {
      var k := (m * 100.0).Floor;
      assert q as real * m * 100.0 == (q * k) as real;
    }
  }

  /** Snapping leaves a value on the grid as it is. */
  lemma SnapFixes(isInt: bool, x: real)
    requires OnGrid(isInt, x)
    ensures Snap(isInt, x) == x
  {
    if !isInt {
      Round2Fixes(x);
    }
  }

  /** Scaling by a positive step keeps the order. */
  lemma ScaleMonotone(a: real, b: real, m: real)
    requires a <= b && m > 0.0
    ensures a * m <= b * m
  {
    assert (b - a) * m >= 0.0;
  }

  /** Scaling by a positive factor keeps a strict order. */
  lemma ScaleStrict(a: real, b: real, m: real)
    requires a < b && m > 0.0
    ensures a * m < b * m
  {
    PositiveProduct(b - a, m);
  }

  lemma PositiveProduct(a: real, b: real)
    requires a > 0.0 && b > 0.0
    ensures a * b > 0.0
  {
  }

  /** `Math.floor(r * (n + 1))` for a draw in [0, 1) is an index in [0, n]. */
  lemma PickIndexInRange(r: real, n: nat)
    requires 0.0 <= r < 1.0
    ensures 0 <= (r * (n as real + 1.0)).Floor <= n
  {
    var x := r * (n as real + 1.0);
    assert 0.0 <= x;
    ScaleStrict(r, 1.0, n as real + 1.0);
  }

  /** The first and last multiples lie within the declared bounds. */
  lemma QuotientsWithinBounds(c: NumberConstraints, m: real)
    requires m > 0.0
    ensures c.min.Some? ==> c.min.value <= LowQuotient(c, m) as real * m
    ensures c.max.Some? ==> HighQuotient(c, m) as real * m <= c.max.value
  {
    if c.min.Some? {
      var x := c.min.value / m;
      assert x <= Ceil(x) as real;
      ScaleMonotone(x, Ceil(x) as real, m);
    }
    if c.max.Some? {
      var x := c.max.value / m;
      ScaleMonotone(x.Floor as real, x, m);
    }
  }

  /** The number of multiples between index `lo` and index `hi`, as the
      source computes it, is `hi - lo + 1`. */
  lemma PickMultipleSpan(lo: int, hi: int, m: real, r: real)
    requires m != 0.0
    ensures PickMultiple(lo, hi, m, r)
         == lo as real * m + (r * ((hi - lo) as real + 1.0)).Floor as real * m
  {
    PickMultipleUnfold(lo, hi, m, r);
    MultiplesApart(lo, hi, m);
    SameFloor(r, (hi as real * m - lo as real * m) / m, (hi - lo) as real);
  }

  lemma PickMultipleUnfold(lo: int, hi: int, m: real, r: real)
    requires m != 0.0
    ensures PickMultiple(lo, hi, m, r)
         == lo as real * m + (r * ((hi as real * m - lo as real * m) / m + 1.0)).Floor as real * m
  {
  }

  lemma SameFloor(r: real, x: real, y: real)
    requires x == y
    ensures (r * (x + 1.0)).Floor == (r * (y + 1.0)).Floor
  {
  }

  /** Multiples of index `lo` and `hi` are `hi - lo` steps apart. */
  lemma MultiplesApart(lo: int, hi: int, m: real)
    requires m != 0.0
    ensures (hi as real * m - lo as real * m) / m == (hi - lo) as real
  {
    assert hi as real * m - lo as real * m == (hi - lo) as real * m;
  }

  /** The picked multiple is the multiple of some index between `lo` and `hi`. */
  lemma PickMultipleIndex(lo: int, hi: int, m: real, r: real) returns (q: int)
    requires 0.0 <= r < 1.0 && m != 0.0 && lo <= hi
    ensures lo <= q <= hi
    ensures PickMultiple(lo, hi, m, r) == q as real * m
  {
    PickMultipleSpan(lo, hi, m, r);
    PickIndexInRange(r, hi - lo);
    var j := (r * ((hi - lo) as real + 1.0)).Floor;
    q := lo + j;
    AddMultiples(lo, j, m);
  }

  /** `a * m + b * m == (a + b) * m` for whole `a` and `b`. */
  lemma AddMultiples(a: int, b: int, m: real)
    ensures a as real * m + b as real * m == (a + b) as real * m
  {
  }

  /** Dividing a multiple by its step gives back the factor. */
  lemma DivideOut(a: real, m: real)
    requires m != 0.0
    ensures (a * m) / m == a
  {
  }

  /** For a step on the grid, snapping leaves the picked multiple alone. */
  lemma ValidMultipleOfIndex(c: NumberConstraints, m: real, r: real) returns (q: int)
    requires 0.0 <= r < 1.0 && m != 0.0 && OnGrid(c.isInt, m)
    requires LowQuotient(c, m) <= HighQuotient(c, m)
    ensures LowQuotient(c, m) <= q <= HighQuotient(c, m)
    ensures ValidMultipleOf(c, m, r) == Fin(q as real * m)
  {
    q := PickMultipleIndex(LowQuotient(c, m), HighQuotient(c, m), m, r);
    MultipleOnGrid(c.isInt, q, m);
    SnapFixes(c.isInt, q as real * m);
  }

  /** A whole multiple of a non-zero step leaves remainder zero. */
  lemma MultipleIsDivisible(q: int, m: real)
    requires m != 0.0
    ensures RemIsZero(q as real * m, m)
  {
    DivideOut(q as real, m);
  }

  /** For a positive step on the grid and a draw in [0, 1), when the range
      holds a multiple, `generateValidMultipleOf` returns a multiple of the
      step within the declared bounds. */
  lemma ValidMultipleOfInRange(c: NumberConstraints, m: real, r: real)
    requires 0.0 <= r < 1.0 && m > 0.0 && OnGrid(c.isInt, m)
    requires LowQuotient(c, m) <= HighQuotient(c, m)
    ensures ValidMultipleOf(c, m, r).Fin?
    ensures RemIsZero(ValidMultipleOf(c, m, r).r, m)
    ensures c.min.Some? ==> c.min.value <= ValidMultipleOf(c, m, r).r
    ensures c.max.Some? ==> ValidMultipleOf(c, m, r).r <= c.max.value
  {
    var q := ValidMultipleOfIndex(c, m, r);
    MultipleIsDivisible(q, m);
    MultipleWithinBounds(c, m, q);
  }

  /** Every multiple between the first and the last lies within the bounds. */
  lemma MultipleWithinBounds(c: NumberConstraints, m: real, q: int)
    requires m > 0.0 && LowQuotient(c, m) <= q <= HighQuotient(c, m)
    ensures c.min.Some? ==> c.min.value <= q as real * m
    ensures c.max.Some? ==> q as real * m <= c.max.value
  {
    QuotientsWithinBounds(c, m);
    ScaleMonotone(LowQuotient(c, m) as real, q as real, m);
    ScaleMonotone(q as real, HighQuotient(c, m) as real, m);
  }

  /** The exit test of `generateInvalidMultipleOf`'s loop: a candidate whose
      remainder by the step is not zero (NaN, for a zero step). */
  function MissAt(e: Env, c: NumberConstraints, m: real): nat -> bool {
    (k: nat) => !RemIsZero(Candidate(c, e.invalidMultipleDraws(k)), m)
  }

  /** The value `generateInvalidMultipleOf` returns: the first candidate, drawn
      without a step, that is not a multiple of `m`. */
  ghost function InvalidMultipleOf(e: Env, c: NumberConstraints, m: real): (x: real)
    requires exists k: nat :: MissAt(e, c, m)(k)
    ensures !RemIsZero(x, m)
  {
    Candidate(c, e.invalidMultipleDraws(Search.First(MissAt(e, c, m))))
  }

  /** `generateInvalidMultipleOf`: draw candidates until one is not a
      multiple of the step. */
  method GenerateInvalidMultipleOf(e: Env, c: NumberConstraints, m: real) returns (x: real)
    requires exists k: nat :: MissAt(e, c, m)(k)
    ensures x == InvalidMultipleOf(e, c, m)
  {
    ghost var miss := MissAt(e, c, m);
    ghost var w: nat :| miss(w);
    var attempt := 0;
    x := Candidate(c, e.invalidMultipleDraws(attempt));
    while RemIsZero(x, m)
      invariant attempt <= w
      invariant x == Candidate(c, e.invalidMultipleDraws(attempt))
      invariant forall j: nat :: j < attempt ==> !miss(j)
      decreases w - attempt
    {
      attempt := attempt + 1;
      x := Candidate(c, e.invalidMultipleDraws(attempt));
    }
    Search.FirstIsUnique(miss, attempt);
  }

  // ---------------------------------------------------------------------
  // valid(schema)

  /** `(min + max) / 2`, floored for integer schemas: NaN without bounds, an
      infinity with one bound. */
  function Midpoint(c: NumberConstraints): (x: JsNumber)
    ensures c.isInt && x.Fin? ==> IsInteger(x.r)
  {
    var mid := Half(Add(MinNumber(c), MaxNumber(c)));
    if c.isInt then Floor(mid) else mid
  }

  /** `roundToTwoDecimals(min + 0.01)`. */
  function NearMin(c: NumberConstraints): (x: JsNumber)
    ensures c.min.None? ==> x == NegInf
    ensures c.min.Some? ==> x.Fin? && OnCentGrid(x.r)
  {
    Round2Number(Add(MinNumber(c), Fin(0.01)))
  }

  /** `roundToTwoDecimals(max - 0.01)`. */
  function NearMax(c: NumberConstraints): (x: JsNumber)
    ensures c.max.None? ==> x == PosInf
    ensures c.max.Some? ==> x.Fin? && OnCentGrid(x.r)
  {
    Round2Number(Sub(MaxNumber(c), Fin(0.01)))
  }

  function MultipleOfDescription(e: Env, m: real): string {
    "valid number (multiple of " + e.show(m) + ")"
  }

  /** The premise under which the loop of `generateValidNumber` ends: some
      attempt draws a multiple of the step (always true without a step). */
  ghost predicate ValidTerminates(e: Env, s: Schema)
    requires s.ZodNumber?
  {
    exists k: nat :: HitAt(e, Extract(s.numberChecks))(k)
  }

  /** `valid number within range`. */
  ghost function WithinRangeValid(v: Validator, e: Env, s: Schema, c: NumberConstraints): (r: seq<TestCase>)
    requires exists k: nat :: HitAt(e, c)(k)
    ensures AllAccepted(v, s, r) && |r| <= 1
  {
    Accepted(v, s, "valid number within range", Num(Fin(ValidNumber(e, c))))
  }

  /** `valid finite number`, tried for finite schemas. */
  function FiniteValid(v: Validator, s: Schema, c: NumberConstraints): (r: seq<TestCase>)
    ensures AllAccepted(v, s, r) && |r| <= 1
  {
    if c.isFinite then Accepted(v, s, "valid finite number", Int(1000000)) else []
  }

  /** The two boundary candidates, each tried when its bound is declared. */
  function BoundValid(v: Validator, s: Schema, c: NumberConstraints): (r: seq<TestCase>)
    ensures AllAccepted(v, s, r) && |r| <= 2
  {
    (if c.min.Some? then Accepted(v, s, "valid number equals to minimum", Num(Fin(c.min.value))) else [])
    + (if c.max.Some? then Accepted(v, s, "valid number equals to maximum", Num(Fin(c.max.value))) else [])
  }

  /** The midpoint candidate, tried when `min !== max`. */
  function MidpointValid(v: Validator, s: Schema, c: NumberConstraints): (r: seq<TestCase>)
    ensures AllAccepted(v, s, r) && |r| <= 1
  {
    if MinNumber(c) != MaxNumber(c) then Accepted(v, s, "valid number (midpoint)", Num(Midpoint(c))) else []
  }

  /** The two near-bound candidates, tried when `min !== max` for schemas
      that are not integer-only. */
  function NearBoundValid(v: Validator, s: Schema, c: NumberConstraints): (r: seq<TestCase>)
    ensures AllAccepted(v, s, r) && |r| <= 2
  {
    if MinNumber(c) != MaxNumber(c) && !c.isInt then
      Accepted(v, s, "valid floating number (near min)", Num(NearMin(c)))
      + Accepted(v, s, "valid floating number (near max)", Num(NearMax(c)))
    else []
  }

  /** The multiple-of candidate, tried when a step is declared. */
  function MultipleValid(v: Validator, e: Env, s: Schema, c: NumberConstraints): (r: seq<TestCase>)
    ensures AllAccepted(v, s, r) && |r| <= 1
  {
    if c.multipleOf.Some? then
      Accepted(v, s, MultipleOfDescription(e, c.multipleOf.value),
        Num(ValidMultipleOf(c, c.multipleOf.value, e.multipleDraw)))
    else []
  }

  /** `valid(schema)`: the candidates in the order the source tries them,
      each kept exactly when the library accepts it. */
  ghost function ValidCases(v: Validator, e: Env, s: Schema): (r: seq<TestCase>)
    requires s.ZodNumber? && ValidTerminates(e, s)
    ensures AllAccepted(v, s, r)
    ensures |r| <= 8
  {
    var c := Extract(s.numberChecks);
    WithinRangeValid(v, e, s, c) + FiniteValid(v, s, c) + BoundValid(v, s, c)
    + MidpointValid(v, s, c) + NearBoundValid(v, s, c) + MultipleValid(v, e, s, c)
  }

  /** `valid(schema)`. */
  method Valid(v: Validator, e: Env, s: Schema) returns (r: seq<TestCase>)
    requires s.ZodNumber? && ValidTerminates(e, s)
    ensures r == ValidCases(v, e, s)
  {
    var c := ExtractConstraints(s.numberChecks);
    var cases := new CaseList();
    var x := GenerateValidNumber(e, c);
    AddValidTestCase(v, s, cases, "valid number within range", Num(Fin(x)));
    assert cases.cases == WithinRangeValid(v, e, s, c);
    if c.isFinite {
      AddValidTestCase(v, s, cases, "valid finite number", Int(1000000));
    }
    assert cases.cases == WithinRangeValid(v, e, s, c) + FiniteValid(v, s, c);
    AddBoundValid(v, s, c, cases);
    AddMidValid(v, s, c, cases);
    if c.multipleOf.Some? {
      AddValidTestCase(v, s, cases, MultipleOfDescription(e, c.multipleOf.value),
        Num(ValidMultipleOf(c, c.multipleOf.value, e.multipleDraw)));
    }
    return cases.cases;
  }

  /** The two boundary pushes of `valid`. */
  method AddBoundValid(v: Validator, s: Schema, c: NumberConstraints, cases: CaseList)
    modifies cases
    ensures cases.cases == old(cases.cases) + BoundValid(v, s, c)
  {
    if c.min.Some? {
      AddValidTestCase(v, s, cases, "valid number equals to minimum", Num(Fin(c.min.value)));
    }
    if c.max.Some? {
      AddValidTestCase(v, s, cases, "valid number equals to maximum", Num(Fin(c.max.value)));
    }
  }

  /** The midpoint and near-bound pushes of `valid`, under `min !== max`. */
  method AddMidValid(v: Validator, s: Schema, c: NumberConstraints, cases: CaseList)
    modifies cases
    ensures cases.cases == old(cases.cases) + MidpointValid(v, s, c) + NearBoundValid(v, s, c)
  {
    if MinNumber(c) != MaxNumber(c) {
      AddValidTestCase(v, s, cases, "valid number (midpoint)", Num(Midpoint(c)));
      if !c.isInt {
        AddValidTestCase(v, s, cases, "valid floating number (near min)", Num(NearMin(c)));
        AddValidTestCase(v, s, cases, "valid floating number (near max)", Num(NearMax(c)));
      }
    }
  }

  // ---------------------------------------------------------------------
  // invalid(schema)

  function NotMultipleDescription(e: Env, m: real): string {
    "invalid number (not multiple of " + e.show(m) + ")"
  }

  /** The premise under which the loop of `generateInvalidMultipleOf` ends:
      with a step, some attempt draws a non-multiple. */
  ghost predicate InvalidTerminates(e: Env, s: Schema)
    requires s.ZodNumber?
  {
    var c := Extract(s.numberChecks);
    c.multipleOf.Some? ==> exists k: nat :: MissAt(e, c, c.multipleOf.value)(k)
  }

  /** The array and object stand-ins among the wrong-type candidates. */
  const ArrayCandidate: Value := Arr([Int(1), Int(2), Int(3)])
  const ObjectCandidate: Value := Obj(map["value" := Int(1)])

  /** The six wrong-type candidates every invalid list starts from. */
  function WrongTypeInvalid(v: Validator, s: Schema): (r: seq<TestCase>)
    ensures AllRejected(v, s, r) && |r| <= 6
  {
    PrimitiveWrongTypes(v, s) + CompositeWrongTypes(v, s) + AbsentWrongTypes(v, s)
  }

  function PrimitiveWrongTypes(v: Validator, s: Schema): seq<TestCase> {
    Rejected(v, s, "invalid string", Str("not-a-number"))
    + Rejected(v, s, "invalid boolean", Bool(true))
  }

  function CompositeWrongTypes(v: Validator, s: Schema): seq<TestCase> {
    Rejected(v, s, "invalid array", ArrayCandidate)
    + Rejected(v, s, "invalid object", ObjectCandidate)
  }

  function AbsentWrongTypes(v: Validator, s: Schema): seq<TestCase> {
    Rejected(v, s, "invalid null", Null)
    + Rejected(v, s, "invalid undefined", Undefined)
  }

  /** The non-finite candidates, tried for finite schemas. */
  function NonFiniteInvalid(v: Validator, s: Schema, c: NumberConstraints): (r: seq<TestCase>)
    ensures AllRejected(v, s, r) && |r| <= 3
  {
    if c.isFinite then
      Rejected(v, s, "invalid Infinity", Num(PosInf))
      + Rejected(v, s, "invalid -Infinity", Num(NegInf))
      + Rejected(v, s, "invalid NaN", Num(NaN))
    else []
  }

  /** The fractional candidate, tried for integer schemas. */
  function FloatInvalid(v: Validator, s: Schema, c: NumberConstraints): (r: seq<TestCase>)
    ensures AllRejected(v, s, r) && |r| <= 1
  {
    if c.isInt then Rejected(v, s, "invalid float", Num(Fin(1.5))) else []
  }

  /** One unit below a declared minimum, rounded to cents. */
  function BelowMinInvalid(v: Validator, s: Schema, c: NumberConstraints): (r: seq<TestCase>)
    ensures AllRejected(v, s, r) && |r| <= 1
  {
    if c.min.Some? then Rejected(v, s, "invalid number less than minimum", Num(Fin(Round2(c.min.value - 1.0)))) else []
  }

  /** One unit above a declared maximum, rounded to cents. */
  function AboveMaxInvalid(v: Validator, s: Schema, c: NumberConstraints): (r: seq<TestCase>)
    ensures AllRejected(v, s, r) && |r| <= 1
  {
    if c.max.Some? then Rejected(v, s, "invalid number greater than maximum", Num(Fin(Round2(c.max.value + 1.0)))) else []
  }

  /** One unit beyond each declared bound, rounded to cents. */
  function OutOfBoundsInvalid(v: Validator, s: Schema, c: NumberConstraints): (r: seq<TestCase>)
    ensures AllRejected(v, s, r) && |r| <= 2
  {
    BelowMinInvalid(v, s, c) + AboveMaxInvalid(v, s, c)
  }

  /** The non-multiple candidate, tried when a step is declared. */
  ghost function NotMultipleInvalid(v: Validator, e: Env, s: Schema, c: NumberConstraints): (r: seq<TestCase>)
    requires c.multipleOf.Some? ==> exists k: nat :: MissAt(e, c, c.multipleOf.value)(k)
    ensures AllRejected(v, s, r) && |r| <= 1
  {
    if c.multipleOf.Some? then
      Rejected(v, s, NotMultipleDescription(e, c.multipleOf.value),
        Num(Fin(InvalidMultipleOf(e, c, c.multipleOf.value))))
    else []
  }

  /** `invalid(schema)`: the candidates in the order the source tries them,
      each kept exactly when the library rejects it. */
  ghost function InvalidCases(v: Validator, e: Env, s: Schema): (r: seq<TestCase>)
    requires s.ZodNumber? && InvalidTerminates(e, s)
    ensures AllRejected(v, s, r)
    ensures |r| <= 13
  {
    var c := Extract(s.numberChecks);
    WrongTypeInvalid(v, s) + NonFiniteInvalid(v, s, c) + FloatInvalid(v, s, c)
    + OutOfBoundsInvalid(v, s, c) + NotMultipleInvalid(v, e, s, c)
  }

  /** `invalid(schema)`. */
  method Invalid(v: Validator, e: Env, s: Schema) returns (r: seq<TestCase>)
    requires s.ZodNumber? && InvalidTerminates(e, s)
    ensures r == InvalidCases(v, e, s)
  {
    var c := ExtractConstraints(s.numberChecks);
    var cases := new CaseList();
    AddWrongTypeInvalid(v, s, cases);
    assert cases.cases == WrongTypeInvalid(v, s);
    AddNonFiniteInvalid(v, s, c, cases);
    if c.isInt {
      AddTestCase(v, s, cases, "invalid float", Num(Fin(1.5)));
    }
    assert cases.cases == WrongTypeInvalid(v, s) + NonFiniteInvalid(v, s, c) + FloatInvalid(v, s, c);
    AddOutOfBoundsInvalid(v, s, c, cases);
    assert cases.cases == WrongTypeInvalid(v, s) + NonFiniteInvalid(v, s, c) + FloatInvalid(v, s, c)
      + OutOfBoundsInvalid(v, s, c);
    if c.multipleOf.Some? {
      var x := GenerateInvalidMultipleOf(e, c, c.multipleOf.value);
      AddTestCase(v, s, cases, NotMultipleDescription(e, c.multipleOf.value), Num(Fin(x)));
    }
    return cases.cases;
  }

  /** The six wrong-type pushes of `invalid`. */
  method AddWrongTypeInvalid(v: Validator, s: Schema, cases: CaseList)
    modifies cases
    ensures cases.cases == old(cases.cases) + WrongTypeInvalid(v, s)
  {
    AppendTwice(cases.cases, PrimitiveWrongTypes(v, s), CompositeWrongTypes(v, s));
    AppendTwice(cases.cases, PrimitiveWrongTypes(v, s) + CompositeWrongTypes(v, s), AbsentWrongTypes(v, s));
    AddPrimitiveWrongTypes(v, s, cases);
    AddCompositeWrongTypes(v, s, cases);
    AddAbsentWrongTypes(v, s, cases);
  }

  method AddPrimitiveWrongTypes(v: Validator, s: Schema, cases: CaseList)
    modifies cases
    ensures cases.cases == old(cases.cases) + PrimitiveWrongTypes(v, s)
  {
    AppendTwice(cases.cases, Rejected(v, s, "invalid string", Str("not-a-number")), Rejected(v, s, "invalid boolean", Bool(true)));
    AddTestCase(v, s, cases, "invalid string", Str("not-a-number"));
    AddTestCase(v, s, cases, "invalid boolean", Bool(true));
  }

  method AddCompositeWrongTypes(v: Validator, s: Schema, cases: CaseList)
    modifies cases
    ensures cases.cases == old(cases.cases) + CompositeWrongTypes(v, s)
  {
    AppendTwice(cases.cases, Rejected(v, s, "invalid array", ArrayCandidate), Rejected(v, s, "invalid object", ObjectCandidate));
    AddTestCase(v, s, cases, "invalid array", ArrayCandidate);
    AddTestCase(v, s, cases, "invalid object", ObjectCandidate);
  }

  method AddAbsentWrongTypes(v: Validator, s: Schema, cases: CaseList)
    modifies cases
    ensures cases.cases == old(cases.cases) + AbsentWrongTypes(v, s)
  {
    AppendTwice(cases.cases, Rejected(v, s, "invalid null", Null), Rejected(v, s, "invalid undefined", Undefined));
    AddTestCase(v, s, cases, "invalid null", Null);
    AddTestCase(v, s, cases, "invalid undefined", Undefined);
  }

  /** The three non-finite pushes of `invalid`, for finite schemas. */
  method AddNonFiniteInvalid(v: Validator, s: Schema, c: NumberConstraints, cases: CaseList)
    modifies cases
    ensures cases.cases == old(cases.cases) + NonFiniteInvalid(v, s, c)
  {
    if c.isFinite {
      ghost var infinity := Rejected(v, s, "invalid Infinity", Num(PosInf));
      ghost var minusInfinity := Rejected(v, s, "invalid -Infinity", Num(NegInf));
      AppendTwice(cases.cases, infinity, minusInfinity);
      AppendTwice(cases.cases, infinity + minusInfinity, Rejected(v, s, "invalid NaN", Num(NaN)));
      AddTestCase(v, s, cases, "invalid Infinity", Num(PosInf));
      AddTestCase(v, s, cases, "invalid -Infinity", Num(NegInf));
      AddTestCase(v, s, cases, "invalid NaN", Num(NaN));
    }
  }

  /** The two out-of-bounds pushes of `invalid`. */
  method AddOutOfBoundsInvalid(v: Validator, s: Schema, c: NumberConstraints, cases: CaseList)
    modifies cases
    ensures cases.cases == old(cases.cases) + OutOfBoundsInvalid(v, s, c)
  {
    AppendTwice(cases.cases, BelowMinInvalid(v, s, c), AboveMaxInvalid(v, s, c));
    AddBelowMinInvalid(v, s, c, cases);
    AddAboveMaxInvalid(v, s, c, cases);
  }

  method AddBelowMinInvalid(v: Validator, s: Schema, c: NumberConstraints, cases: CaseList)
    modifies cases
    ensures cases.cases == old(cases.cases) + BelowMinInvalid(v, s, c)
  {
    if c.min.Some? {
      AddTestCase(v, s, cases, "invalid number less than minimum", Num(Fin(Round2(c.min.value - 1.0))));
    }
  }

  method AddAboveMaxInvalid(v: Validator, s: Schema, c: NumberConstraints, cases: CaseList)
    modifies cases
    ensures cases.cases == old(cases.cases) + AboveMaxInvalid(v, s, c)
  {
    if c.max.Some? {
      AddTestCase(v, s, cases, "invalid number greater than maximum", Num(Fin(Round2(c.max.value + 1.0))));
    }
  }

  // ---------------------------------------------------------------------
  // What the candidates are

  /** The value of `valid number within range` satisfies the bounds and the
      step: for fair draws and bounds on the grid it lies within the declared
      bounds, and with a step it is a multiple of it. */
  lemma WithinRangeCandidateFits(e: Env, c: NumberConstraints)
    requires Fair(e) && exists k: nat :: HitAt(e, c)(k)
    requires c.min.Some? ==> OnGrid(c.isInt, c.min.value)
    requires c.max.Some? ==> OnGrid(c.isInt, c.max.value)
    requires c.min.Some? && c.max.Some? ==> c.min.value <= c.max.value
    ensures c.min.Some? ==> c.min.value <= ValidNumber(e, c)
    ensures c.max.Some? ==> ValidNumber(e, c) <= c.max.value
    ensures c.multipleOf.Some? ==> RemIsZero(ValidNumber(e, c), c.multipleOf.value)
  {
    var k := Search.First(HitAt(e, c));
    CandidateWithinBounds(c, e.numberDraws(k));
  }

  /** The out-of-bounds candidates lie beyond their bound: rounding one unit
      past a bound to cents never brings the value back across it. */
  lemma OutOfBoundsCandidatesBreakBounds(c: NumberConstraints)
    ensures c.min.Some? ==> Round2(c.min.value - 1.0) < c.min.value
    ensures c.max.Some? ==> Round2(c.max.value + 1.0) > c.max.value
  {
    if c.min.Some? {
      Round2Close(c.min.value - 1.0);
    }
    if c.max.Some? {
      Round2Close(c.max.value + 1.0);
    }
  }

  /** The midpoint candidate: NaN with no bound declared, an infinity with
      one, and with both a value between them (floored onto an integer lower
      bound for integer schemas). */
  lemma MidpointBetweenBounds(c: NumberConstraints)
    ensures c.min.None? && c.max.None? ==> Midpoint(c).NaN?
    ensures c.min.None? && c.max.Some? ==> Midpoint(c) == NegInf
    ensures c.min.Some? && c.max.None? ==> Midpoint(c) == PosInf
    ensures c.min.Some? && c.max.Some? && c.min.value <= c.max.value
            && (c.isInt ==> IsInteger(c.min.value))
            ==> Midpoint(c).Fin? && c.min.value <= Midpoint(c).r <= c.max.value
  {
    if c.min.Some? && c.max.Some? {
      var lo, hi := c.min.value, c.max.value;
      assert Add(MinNumber(c), MaxNumber(c)) == Fin(lo + hi);
      var mid := (lo + hi) / 2.0;
      assert Half(Fin(lo + hi)) == Fin(mid);
      if lo <= hi && c.isInt && IsInteger(lo) {
        assert lo <= mid;
        assert lo.Floor <= mid.Floor;
      }
    }
  }

  /** The near-bound candidates, for cent-grid bounds at least two cents
      apart, are one cent inside each bound. */
  lemma NearBoundsInside(c: NumberConstraints)
    requires c.min.Some? && c.max.Some?
    requires OnCentGrid(c.min.value) && OnCentGrid(c.max.value)
    ensures NearMin(c) == Fin(c.min.value + 0.01)
    ensures NearMax(c) == Fin(c.max.value - 0.01)
  {
    var lo, hi := c.min.value, c.max.value;
    assert Add(MinNumber(c), Fin(0.01)) == Fin(lo + 0.01);
    assert Sub(MaxNumber(c), Fin(0.01)) == Fin(hi - 0.01);
    CentStep(lo, 1);
    CentStep(hi, -1);
    Round2Fixes(lo + 0.01);
    Round2Fixes(hi - 0.01);
  }

  /** Moving a cent-grid value by whole cents stays on the grid. */
  lemma CentStep(x: real, k: int)
    requires OnCentGrid(x)
    ensures OnCentGrid(x + k as real * 0.01)
  {
    var n := (x * 100.0).Floor;
    var y := x + k as real * 0.01;
    assert y * 100.0 == x * 100.0 + k as real;
    assert y * 100.0 == (n + k) as real;
  }
}
