/** The schema nodes the generators read: the kinds of the schema library that
    the core distinguishes, with the checks attached to string and number nodes
    in declaration order. */
module Schemas {
  import opened Wrappers

  /** A regular expression, as the pattern source and its flags. */
  datatype Regex = Regex(source: string, flags: string) {
    /** `${regex}`: the literal form `/source/flags`. */
    function ToString(): string {
      "/" + source + "/" + flags
    }
  }

  /** The string formats a string check can declare. */
  datatype Format =
    | Email | Url | Uuid | Emoji | Nanoid | Cuid | Cuid2 | Ulid
    | Base64 | Ip | Datetime | Date | Time

  /** One entry of a string node's check list. */
  datatype StringCheck =
    | Min(value: int)
    | Max(value: int)
    | Length(value: int)
    | FormatCheck(format: Format)
    | RegexCheck(regex: Regex)
    | StartsWithCheck(prefix: string)
    | EndsWithCheck(suffix: string)
    | OtherStringCheck(kind: string)

  /** One entry of a number node's check list; `inclusive` is read by the
      schema library only. */
  datatype NumberCheck =
    | NumberMin(bound: real, inclusive: bool)
    | NumberMax(bound: real, inclusive: bool)
    | IntCheck
    | FiniteCheck
    | MultipleOf(step: real)

  datatype Schema =
    | ZodString(stringChecks: seq<StringCheck>)
    | ZodNumber(numberChecks: seq<NumberCheck>)
    | ZodBoolean
    | ZodEnum(values: seq<string>)
    | ZodObject(shape: seq<(string, Schema)>)
    | ZodOptional(inner: Schema)
    | ZodNullable(inner: Schema)
    | ZodDate
    | ZodArray(element: Schema)
    | ZodEffects(inner: Schema, description: Option<string>)
    | ZodOther(kindName: string)

  /** `schema.constructor.name`, the key the registry is looked up by. */
  function KindName(s: Schema): string {
    match s
    case ZodString(_) => "ZodString"
    case ZodNumber(_) => "ZodNumber"
    case ZodBoolean => "ZodBoolean"
    case ZodEnum(_) => "ZodEnum"
    case ZodObject(_) => "ZodObject"
    case ZodOptional(_) => "ZodOptional"
    case ZodNullable(_) => "ZodNullable"
    case ZodDate => "ZodDate"
    case ZodArray(_) => "ZodArray"
    case ZodEffects(_, _) => "ZodEffects"
    case ZodOther(name) => name
  }

  /** An object shape whose keys are pairwise distinct, as the keys of a
      JavaScript object literal are. */
  predicate DistinctKeys(shape: seq<(string, Schema)>) {
    forall i, j :: 0 <= i < j < |shape| ==> shape[i].0 != shape[j].0
  }
}
