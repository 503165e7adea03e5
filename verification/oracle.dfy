/** The schema library as the core consults it: its non-throwing validation
    call and its regular-expression test. Their rules are not modelled; the
    generators only read their answers. */
module Oracle {
  import opened Schemas
  import opened Values

  datatype Validator = Validator(
    /** `schema.safeParse(value).success` */
    accepts: (Schema, Value) -> bool,
    /** `schema.safeParse(value).error.errors[0].message` on a failure */
    firstMessage: (Schema, Value) -> string,
    /** `regex.test(text)` */
    regexTest: (Regex, string) -> bool)
}
