/** The older, static boolean generator: fixed, hand-labelled lists. */
module StaticBooleanGenerator {
  import opened JsNumbers
  import opened Values
  import BooleanGenerator

  /** `BooleanGenerator.valid`: both literals, labelled valid. */
  function ValidCases(): (r: seq<TestCase>)
    ensures ValuesOf(r) == [Bool(true), Bool(false)]
    ensures forall t :: t in r ==> t.isValid
  {
    [ Labelled("Valid boolean: true", Bool(true), true),
      Labelled("Valid boolean: false", Bool(false), true) ]
  }

  /** `BooleanGenerator.invalid`: eleven values of other types, labelled
      invalid. */
  function InvalidCases(): (r: seq<TestCase>)
    ensures |r| == 11
    ensures forall t :: t in r ==> !t.isValid && !t.value.Bool?
  {
    [ Labelled("Invalid boolean: string \"true\"", Str("true"), false),
      Labelled("Invalid boolean: string \"false\"", Str("false"), false),
      Labelled("Invalid boolean: number 1", Int(1), false),
      Labelled("Invalid boolean: number 0", Int(0), false),
      Labelled("Invalid boolean: null", Null, false),
      Labelled("Invalid boolean: undefined", Undefined, false),
      Labelled("Invalid boolean: object", Obj(map[]), false),
      Labelled("Invalid boolean: array", Arr([]), false),
      Labelled("Invalid boolean: NaN", Num(NaN), false),
      Labelled("Invalid boolean: Infinity", Num(PosInf), false),
      Labelled("Invalid boolean: -Infinity", Num(NegInf), false) ]
  }

  /** The static invalid list offers the values of the registry's boolean
      generator in the same order, with `null` and `undefined` inserted after
      the two numbers: exactly the two entries the latter leaves out. */
  lemma InvalidExtendsRegistry()
    ensures ValuesOf(InvalidCases())
      == ValuesOf(BooleanGenerator.InvalidCases())[..4] + [Null, Undefined]
         + ValuesOf(BooleanGenerator.InvalidCases())[4..]
    ensures multiset(ValuesOf(InvalidCases()))
      == multiset(ValuesOf(BooleanGenerator.InvalidCases())) + multiset{Null, Undefined}
  {
    var st := ValuesOf(InvalidCases());
    var live := ValuesOf(BooleanGenerator.InvalidCases());
    assert st == live[..4] + [Null, Undefined] + live[4..];
    InsertedMultiset(live, 4, [Null, Undefined]);
  }

  lemma InsertedMultiset<T>(xs: seq<T>, k: nat, ys: seq<T>)
    requires k <= |xs|
    ensures multiset(xs[..k] + ys + xs[k..]) == multiset(xs) + multiset(ys)
  {
    assert xs == xs[..k] + xs[k..];
  }

  /** Both lists offer each boolean literal as valid and never as invalid. */
  lemma BucketsPartition()
    ensures forall b: bool :: Bool(b) in ValuesOf(ValidCases()) && Bool(b) !in ValuesOf(InvalidCases())
  {
    var vs := ValuesOf(ValidCases());
    assert vs[0] == Bool(true) && vs[1] == Bool(false);
  }
}
