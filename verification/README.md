# data-generator: a Dafny model of the test-case generation engine

data-generator takes a Zod schema and produces boundary-value test cases for
it. Each case is a record `{description, value, isValid, expectedMessage?}`,
and cases come in two buckets: `valid(schema)` and `invalid(schema)`. This
project models that engine in Dafny and proves what its operations promise.

The live engine (`src/`) has four parts, each modelled here:

- **Dispatcher.** `TestCaseGenerator` unwraps `ZodOptional` and `ZodNullable`,
  assembles `ZodObject` fixtures field by field, and hands every other kind
  to the generator that a `GeneratorRegistry` holds under the schema's
  constructor name.
- **Leaf generators.** Strings, numbers, booleans and enums each have one.
  Optional and nullable wrappers also have registry generators.
- **Oracle filter.** `addTestCase` and `addValidTestCase` push a candidate
  only when the schema library's verdict agrees with the bucket.
- **Older static generators** (`src/generators/`). They label cases by hand
  and are dispatched by a chain of kind tests.

Also modelled:

- The date and time schema helpers (`src/zod/`). Each writes a descriptor
  string such as `time.before_9h30m0s_HH:mm:ss`, and its generators parse
  that string back.
- The table-driven API case builder (`src/api-test-utils.ts`).

The schema library itself appears as a `Validator` value with three parts:

- `accepts(schema, value)` for `safeParse(value).success`;
- `firstMessage(schema, value)` for the first error message;
- `regexTest(re, text)` for `RegExp.test`.

Every draw from faker, cuid2, ulid, RandExp, `Math.random`, the clock and
date-fns is a field of an `Env` value passed as a parameter. The predicate
`Fair(e)` states the range facts the draws obey: `Math.random` in [0, 1),
`faker.string.alpha(n)` of length `n`, and so on. A thrown exception is a
`Failure` in a `Result`. `do … while` rejection loops are specified as
`Search.First` over the stream of attempts, under the premise that some
attempt succeeds.

Modules follow the source files:

| module | source file |
|---|---|
| `TestCaseUtils` | `src/testCaseUtils.ts` |
| `Registry` | `src/registry.ts` |
| `Generator`, `GeneratorProperties` | `src/generator.ts` |
| `StringGenerator` | `src/stringGenerator.ts` |
| `NumberGenerator` | `src/numberGenerator.ts` |
| `EnumGenerator` | `src/enumGenerator.ts` |
| `BooleanGenerator` | `src/booleanGenerator.ts` |
| `OptionalGenerator` | `src/optionalGenerator.ts` |
| `NullableGenerator` | `src/nullableGenerator.ts` |
| `StaticGenerator` | `src/generators/generator.ts` |
| `StaticStringGenerator` | `src/generators/stringGenerator.ts` |
| `StaticNumberGenerator` | `src/generators/numberGenerator.ts` |
| `StaticEnumGenerator` | `src/generators/enumGenerator.ts` |
| `StaticBooleanGenerator` | `src/generators/booleanGenerator.ts` |
| `Descriptors`, `ZTime` | `src/zod/zTime.ts` |
| `ZDate` | `src/zod/zDate.ts` |
| `ZDateTime` | `src/zod/zDateTime.ts` |
| `ApiTestUtils` | `src/api-test-utils.ts` |
| `Wrappers`, `JsNumbers`, `JsStrings`, `Values`, `Schemas`, `Oracle`, `Draws`, `Search` | shared |

State the source updates in place is modelled in place:

- the registry's map is a field of a class;
- the `testCases` arrays the helpers push onto are a `CaseList` object;
- loops over checks, members, fields and inputs are `while`/`for` loops.

Every method is proved equal to a specification function. The lemmas state
the properties of those functions.

Where the code and the repository's tests disagree, the model follows the
code:

- The live boolean generator's invalid list has 9 entries, whereas
  test/zod.boolean.test.ts:37 expects 11. `null` and `undefined` are
  commented out at src/booleanGenerator.ts:43-52.

Other behaviour of the code that the model keeps as written:

- The live number generator's wrong-type candidates include `null` and
  `undefined` (src/numberGenerator.ts:94-95).
- The plain valid string's length is a random integer between the bounds
  (src/stringGenerator.ts:102-104).
- In the live string generator, a pattern whose synthesis throws yields no
  valid case (src/stringGenerator.ts:98-100). Only the static generator emits
  a placeholder (src/generators/stringGenerator.ts:137-143).
- The static dispatcher returns `[]` for kinds it does not handle. Only the
  live dispatcher throws "No generator found".

## Model

| member | source | states |
|---|---|---|
| TestCaseUtils.Tc | src/generator.ts:12 | `tc(schema, description, value)` keeps the description and value, labels the case valid exactly when the library accepts the value, and records no message. |
| TestCaseUtils.Rejected | src/testCaseUtils.ts:11-19 | A candidate is appended exactly when the library rejects it. It is then marked invalid, with the library's first message. |
| TestCaseUtils.Accepted | src/testCaseUtils.ts:28-35 | A candidate is appended exactly when the library accepts it. It is then marked valid, with no message. |
| TestCaseUtils.CaseList.constructor | src/testCaseUtils.ts:7 | A new case list is empty. |
| TestCaseUtils.AddTestCase | src/testCaseUtils.ts:5-20 | `addTestCase` appends the rejected candidate, if any, and leaves earlier entries unchanged. |
| TestCaseUtils.AddValidTestCase | src/testCaseUtils.ts:22-36 | `addValidTestCase` appends the accepted candidate, if any, and leaves earlier entries unchanged. |
| Registry.GeneratorRegistry.constructor | src/registry.ts:13 | A new registry holds no generator. |
| Registry.GeneratorRegistry.Default | src/registry.ts:30-43 | The default registry holds exactly the string, number and boolean generators, under their kinds' names. No enum, optional or nullable generator is registered. |
| Registry.GeneratorRegistry.Register | src/registry.ts:15-17 | After `register(key, g)`, `key` yields `g` whatever it held before. Every other key yields what it yielded before. |
| Registry.GeneratorRegistry.Get | src/registry.ts:19-21 | A key yields a generator exactly when one was registered under it, and then the registered one. |
| Registry.GeneratorRegistry.GetGeneratorForSchema | src/registry.ts:23-26 | The lookup uses the schema's constructor name. It succeeds exactly when that name is registered. |
| Generator.ValidSpec | src/generator.ts:9-33 | `valid`: an optional field's list opens with `undefined` and a nullable one's with `null`. An object's cases are all valid and accepted. A leaf kind with no registered generator throws "No generator found". |
| Generator.InvalidSpec | src/generator.ts:35-48 | `invalid`: an object's cases are all invalid and rejected. A leaf kind with no registered generator throws "No generator found". |
| Generator.CreateSpec | src/generator.ts:115-128 | `createValidObject(shape, excludeKey)` never sets the excluded key. |
| Generator.Pick | src/generator.ts:130-132 | A successful random pick is an element of the list. |
| Generator.PickSucceeds | src/generator.ts:130-132 | For a fair draw, picking from a non-empty list never reads past its end. |
| Generator.FieldFixtures | src/generator.ts:63-71 | There is one fixture per field case: the base object with the field's key set to that case's value, labelled by the library's verdict. |
| Generator.Filter | src/generator.ts:77 | `filter(tc => tc.isValid === keep)` keeps exactly the cases with that validity, and nothing else. |
| Generator.ValidObjectSpec | src/generator.ts:51-78 | Every case `validObject` returns is marked valid and is accepted by the library. |
| Generator.ValidFieldSpec | src/generator.ts:56-72 | Every fixture of one field is labelled with the library's verdict. |
| Generator.FixturesSpec | src/generator.ts:63-71 | Every fixture of the inner loop is labelled with the library's verdict. |
| Generator.ValidFieldsSpec | src/generator.ts:56-72 | The per-field fixtures of the first n fields are all labelled with the library's verdict. |
| Generator.InvalidObjectSpec | src/generator.ts:80-113 | Every case `invalidObject` returns is marked invalid and is rejected by the library. |
| Generator.MissingSpec | src/generator.ts:88-92 | A field yields at most one missing-field fixture, labelled by the library's verdict. |
| Generator.InvalidFieldSpec | src/generator.ts:88-104 | Every invalid fixture of one field is labelled with the library's verdict. |
| Generator.InvalidFieldsSpec | src/generator.ts:85-105 | The per-field invalid fixtures of the first n fields are all labelled with the library's verdict. |
| Generator.JoinLabelled | src/generator.ts:56-105 | Joining the fields' fixtures, each carrying the library's verdict as its `isValid`, gives fixtures that carry it. |
| Generator.JoinErrSticks | src/generator.ts:56-105 | Once a field's fixtures fail, the loop over the fields (of `validObject` or `invalidObject`) fails with that same error, whatever fields follow. |
| Generator.CreateErrSticks | src/generator.ts:118-125 | Once a field's valid list throws, `createValidObject` throws that same error. |
| Generator.ApplyValid | src/generator.ts:32 | Calling `valid` on the registered generator object runs that generator's `valid`. |
| Generator.ApplyInvalid | src/generator.ts:48 | Calling `invalid` on the registered generator object runs that generator's `invalid`. |
| Generator.TestCaseGenerator.constructor | src/generator.ts:7 | The dispatcher keeps the registry it is given. |
| Generator.TestCaseGenerator.Valid | src/generator.ts:9-33 | `valid` unwraps modifiers, composes objects and otherwise delegates to the registry. It equals the dispatcher's specification, whose properties are the GeneratorProperties lemmas. |
| Generator.TestCaseGenerator.Invalid | src/generator.ts:35-49 | `invalid` equals the dispatcher's specification: modifiers are passed through, objects are composed, and other kinds are delegated or throw. |
| Generator.TestCaseGenerator.ValidObject | src/generator.ts:51-78 | The field loop, the all-valid fixture and the filter give the `validObject` specification. Its cases are all accepted. |
| Generator.TestCaseGenerator.ValidFields | src/generator.ts:56-72 | The loop over the fields returns the per-field fold that JoinContains characterises. The first failing field's error is returned unchanged. |
| Generator.TestCaseGenerator.ValidField | src/generator.ts:56-72 | One iteration of the field loop yields that field's fixtures. |
| Generator.TestCaseGenerator.Fixtures | src/generator.ts:63-71 | The inner loop builds a fresh base object for each case and sets the field's key on it. |
| Generator.TestCaseGenerator.InvalidObject | src/generator.ts:80-113 | The field loop, the security fixture and the filter give the `invalidObject` specification. Its cases are all rejected. |
| Generator.TestCaseGenerator.InvalidFields | src/generator.ts:85-105 | The loop over the fields returns the per-field fold that JoinContains characterises. The first failing field's error is returned unchanged. |
| Generator.TestCaseGenerator.InvalidField | src/generator.ts:88-104 | One iteration yields the missing-field fixture, then the field's invalid fixtures. |
| Generator.TestCaseGenerator.MissingFixture | src/generator.ts:88-92 | A field not wrapped in `ZodOptional` yields the object of valid values without its key. |
| Generator.TestCaseGenerator.CreateValidObject | src/generator.ts:115-128 | The loop skips the excluded key and fields whose valid list is empty. Every other field gets a picked valid value. |
| Generator.TestCaseGenerator.CreateField | src/generator.ts:118-125 | One iteration takes the object built from the earlier fields to the object built from one more field. It skips the excluded key, leaves the object as is for an empty valid list, and otherwise sets the key to a drawn valid value. |
| GeneratorProperties.ModifierCases | src/generator.ts:10-22 | Each wrapper adds one case: `undefined` for optional, `null` for nullable. It is labelled by the library's verdict on the schema as wrapped from that modifier inwards. |
| GeneratorProperties.WrapSuffices | src/generator.ts:10-22 | Wrappers add no rejection loop, so they never change whether generation ends. |
| GeneratorProperties.ValidUnderModifier | src/generator.ts:10-22 | One wrapper puts its case in front of the inner valid list. An inner error is the error of the whole. |
| GeneratorProperties.PrependTwice | src/generator.ts:11-14 | Putting two prefixes in front of a list, or of an error, is putting their concatenation. |
| GeneratorProperties.ValidThroughModifiers | src/generator.ts:9-22 | Under any chain of optional and nullable wrappers, `valid` is one case per wrapper, outermost first, followed by the inner schema's valid list. |
| GeneratorProperties.InvalidThroughModifiers | src/generator.ts:35-38 | `invalid` of a wrapped schema equals `invalid` of the inner schema, under any chain of wrappers. |
| GeneratorProperties.UnregisteredKindFails | src/generator.ts:28-31 | A leaf kind with no registered generator makes both `valid` and `invalid` throw "No generator found", however it is wrapped. |
| GeneratorProperties.CreateStepKeys | src/generator.ts:118-125 | An iteration adds at most its own field's key, never the excluded key. It adds that key only after the field's valid list was built without error. |
| GeneratorProperties.CreateKeys | src/generator.ts:115-128 | The built object holds only shape keys and never the excluded one. Building it needed each other field's valid list. |
| GeneratorProperties.CreateCovers | src/generator.ts:118-125 | With distinct keys, a non-excluded field is present exactly when its valid list is non-empty. It then holds one of that list's values. |
| GeneratorProperties.CreateStepCovers | src/generator.ts:118-125 | With distinct keys, the iteration for a non-excluded field sets its key exactly when the field's valid list is non-empty, to one of that list's values. |
| GeneratorProperties.CreateStepKeeps | src/generator.ts:118-125 | An iteration changes no key but its own field's: every other key is present, with the same value, exactly when it was before. |
| GeneratorProperties.CreateCoversAt | src/generator.ts:118-125 | A covered field stays covered through every later iteration of the loop. |
| GeneratorProperties.JoinContains | src/generator.ts:56-105 | When the loop over the fields succeeds, every field's fixtures succeeded and all of them are among the joined fixtures. |
| GeneratorProperties.ValidFieldFixtures | src/generator.ts:63-71 | Field i has one fixture per valid case. Each sets the key to that case's value, even `undefined`, on an object of valid values that otherwise lacks the key. |
| GeneratorProperties.MissingFieldFixture | src/generator.ts:88-92 | A field's invalid fixtures open with an object lacking its key exactly when the field is not `ZodOptional`. A nullable field counts as required. |
| GeneratorProperties.FilterAppend | src/generator.ts:77 | Filtering distributes over appending one case. |
| GeneratorProperties.ValidObjectShape | src/generator.ts:51-78 | `validObject` is the accepted per-field fixtures in order, then the all-valid fixture if the library accepts it. |
| GeneratorProperties.InvalidObjectShape | src/generator.ts:80-113 | `invalidObject` is the rejected per-field fixtures in order, then the security fixture if the library rejects it. |
| GeneratorProperties.MissingFixtureKeptIffRejected | src/generator.ts:88-112 | A required field's missing-field fixture is returned exactly when the library rejects it. |
| GeneratorProperties.ValidFieldsCount | src/generator.ts:56-72 | There is exactly one per-field fixture for each valid case of each field. |
| GeneratorProperties.ValidObjectCount | src/generator.ts:51-78 | `validObject` returns at most one case per valid case of each field, plus one. |
| StringGenerator.Extract | src/stringGenerator.ts:33-76 | A trailing `length` check sets both bounds to its value. |
| StringGenerator.RegexRecorded | src/stringGenerator.ts:33-76 | A recorded pattern is the pattern of some `regex` check. |
| StringGenerator.ExtractConstraints | src/stringGenerator.ts:33-76 | The check loop yields the constraints that reading the checks in order gives. |
| StringGenerator.LastMinWins | src/stringGenerator.ts:33-76 | The lower length bound is the last `min` or `length` check's value. |
| StringGenerator.LastMaxWins | src/stringGenerator.ts:33-76 | The upper length bound is the last `max` or `length` check's value. |
| StringGenerator.BoundDefaults | src/stringGenerator.ts:14-15 | Without bound checks the bounds stay -1 and MAX_SAFE_INTEGER. |
| StringGenerator.FormatsRecorded | src/stringGenerator.ts:33-76 | A format is recorded exactly when a check declares it and the loop knows its kind. |
| StringGenerator.FirstIn | src/stringGenerator.ts:78-91 | The arm an if/else-if chain takes is the first declared format in chain order. No earlier format is declared. |
| StringGenerator.PlainLength | src/stringGenerator.ts:102-104 | For a draw within [min, max] the plain length lies within [min, max]. It never falls below min, and it is at most 20 when min is. |
| StringGenerator.WithPrefix | src/stringGenerator.ts:105 | The prefixed input starts with the prefix and ends with the old input. |
| StringGenerator.WithSuffix | src/stringGenerator.ts:106 | The result ends with the suffix and keeps the input's length unless the suffix is longer. The characters before the suffix are the input's. |
| StringGenerator.PlainText | src/stringGenerator.ts:101-108 | The plain valid text ends with the suffix. Without a suffix it starts with the prefix. |
| StringGenerator.ValidCases | src/stringGenerator.ts:11-111 | `valid` yields at most one case, accepted by the library. It throws exactly when no format or pattern is declared and min > max. |
| StringGenerator.Valid | src/stringGenerator.ts:11-111 | The method computes the `valid` specification. |
| StringGenerator.ValidFollowsPriority | src/stringGenerator.ts:78-91 | A declared format wins over every later format, the pattern and the plain arm. Its synthesised value is kept iff accepted. |
| StringGenerator.RegexFailureYieldsNothing | src/stringGenerator.ts:92-100 | With no format declared, a pattern whose synthesis throws yields an empty valid list. |
| StringGenerator.PlainTextWithinBounds | src/stringGenerator.ts:101-108 | For fair draws and no affixes, the plain valid text is letters and has a length within the bounds, including the default min of -1 when no min is declared (max must be at least 0). |
| StringGenerator.PlainInvalid | src/stringGenerator.ts:193-210 | Every length, prefix and suffix case kept is rejected by the library. |
| StringGenerator.InvalidCases | src/stringGenerator.ts:113-213 | `invalid` opens with the not-a-string case, if the library rejects it. Every case kept is rejected. |
| StringGenerator.SampleMiss | src/stringGenerator.ts:188-191 | The rejection loop returns the first sampled text the pattern rejects. |
| StringGenerator.AddPlainInvalid | src/stringGenerator.ts:193-210 | The plain arm appends the length, prefix and suffix cases in that order. |
| StringGenerator.AddLengthInvalid | src/stringGenerator.ts:194-201 | The two length pushes append the too-short and too-long cases. |
| StringGenerator.AddAffixInvalid | src/stringGenerator.ts:202-209 | The two affix pushes append the wrong-prefix and wrong-suffix cases. |
| StringGenerator.Invalid | src/stringGenerator.ts:113-213 | The method computes the `invalid` specification. |
| StringGenerator.InvalidRegexCaseMisses | src/stringGenerator.ts:187-192 | In the pattern arm, every string case the pattern sees is one it rejects. |
| StringGenerator.LengthCandidatesBreakBounds | src/stringGenerator.ts:194-201 | Under fair draws the too-short text is shorter than min and the too-long text is longer than max. |
| NumberGenerator.Extract | src/numberGenerator.ts:11-29 | `isInt` and `isFinite` are set exactly when a check of that kind is present. |
| NumberGenerator.ExtractConstraints | src/numberGenerator.ts:11-29 | The flags and the check loop yield the constraints that reading the checks in order gives. |
| NumberGenerator.FoldKeepsFlags | src/numberGenerator.ts:17-29 | The bound loop never changes the `int` and `finite` flags. |
| NumberGenerator.LastMinWins | src/numberGenerator.ts:11-29 | The flags are set exactly when a check of their kind is present. The lower bound is the last `min` check's value. |
| NumberGenerator.FoldLastMin | src/numberGenerator.ts:17-29 | The loop leaves `min` at the last `min` check's value. |
| NumberGenerator.FoldLastMax | src/numberGenerator.ts:17-29 | The loop leaves `max` at the last `max` check's value. |
| NumberGenerator.FoldLastMultipleOf | src/numberGenerator.ts:17-29 | The loop leaves `multipleOf` at the last `multipleOf` check's value. |
| NumberGenerator.FoldDefaults | src/numberGenerator.ts:13-15 | Without a check of a kind, its variable keeps its default: -Infinity, Infinity or undefined. |
| NumberGenerator.Round2 | src/numberGenerator.ts:177-179 | `roundToTwoDecimals` returns a whole number of cents. |
| NumberGenerator.Round2Number | src/numberGenerator.ts:177-179 | On any number, rounding keeps infinities and NaN as they are and gives a whole number of cents otherwise. |
| NumberGenerator.Round2Fixes | src/numberGenerator.ts:177-179 | Rounding to two decimals leaves a whole number of cents unchanged. |
| NumberGenerator.Round2Below | src/numberGenerator.ts:177-179 | Rounding never lifts a value above a cent-grid bound it was under. |
| NumberGenerator.Round2Above | src/numberGenerator.ts:177-179 | Rounding never drops a value below a cent-grid bound it was over. |
| NumberGenerator.Round2Close | src/numberGenerator.ts:177-179 | Rounding moves a value by at most half a cent, plus the epsilon nudge. |
| NumberGenerator.SnapBelow | src/numberGenerator.ts:141-145 | Flooring or rounding never crosses an on-grid upper bound. |
| NumberGenerator.SnapAbove | src/numberGenerator.ts:141-145 | Flooring or rounding never crosses an on-grid lower bound. |
| NumberGenerator.Raw | src/numberGenerator.ts:128-139 | Without bounds, a draw in [0, 1) gives a value in [-1e10, 1e10). |
| NumberGenerator.Candidate | src/numberGenerator.ts:127-145 | One attempt yields a whole number for integer schemas and a whole number of cents otherwise. |
| NumberGenerator.RawWithinBounds | src/numberGenerator.ts:128-139 | A draw in [0, 1) places the raw candidate between the declared bounds. |
| NumberGenerator.CandidateWithinBounds | src/numberGenerator.ts:128-145 | For a draw in [0, 1) and on-grid bounds, a candidate lies within the declared bounds. |
| NumberGenerator.ValidNumber | src/numberGenerator.ts:125-148 | The value returned passes the loop's exit test: with a step it is a multiple of it. |
| NumberGenerator.GenerateValidNumber | src/numberGenerator.ts:125-148 | The `do … while` loop returns the candidate of the first attempt that is a multiple of the step. |
| NumberGenerator.PickIndexInRange | src/numberGenerator.ts:165 | `Math.floor(r * (n + 1))` for a draw in [0, 1) is an index in [0, n]. |
| NumberGenerator.QuotientsWithinBounds | src/numberGenerator.ts:153-163 | The first and last multiples considered lie within the declared bounds. |
| NumberGenerator.PickMultipleSpan | src/numberGenerator.ts:165 | The source's count of multiples between the first and the last is the number of indices between them. |
| NumberGenerator.PickMultipleIndex | src/numberGenerator.ts:165 | The picked value is the multiple of some index between the first and the last. |
| NumberGenerator.ValidMultipleOf | src/numberGenerator.ts:150-167 | `generateValidMultipleOf` is NaN exactly for a zero step. Otherwise it is a whole number for integer schemas and a whole number of cents otherwise. |
| NumberGenerator.ValidMultipleOfIndex | src/numberGenerator.ts:150-167 | For an on-grid step, the final floor or rounding leaves the picked multiple unchanged. |
| NumberGenerator.ValidMultipleOfInRange | src/numberGenerator.ts:150-167 | For a positive on-grid step, a range holding a multiple makes `generateValidMultipleOf` return a multiple of the step within the bounds. |
| NumberGenerator.MultipleWithinBounds | src/numberGenerator.ts:153-165 | Every multiple between the first and the last lies within the bounds. |
| NumberGenerator.InvalidMultipleOf | src/numberGenerator.ts:169-175 | The value returned is not a multiple of the step. |
| NumberGenerator.GenerateInvalidMultipleOf | src/numberGenerator.ts:169-175 | The loop returns the first unstepped candidate that is not a multiple of the step. |
| NumberGenerator.ValidCases | src/numberGenerator.ts:7-64 | `valid` yields at most eight cases (1+1+2+1+2+1). Every case kept is accepted by the library. |
| NumberGenerator.Valid | src/numberGenerator.ts:7-64 | The method computes the `valid` specification. |
| NumberGenerator.AddBoundValid | src/numberGenerator.ts:38-43 | The boundary pushes append the min and max candidates the library accepts. |
| NumberGenerator.AddMidValid | src/numberGenerator.ts:45-56 | Under `min !== max`, the midpoint and near-bound pushes append the accepted candidates. |
| NumberGenerator.WrongTypeInvalid | src/numberGenerator.ts:90-95 | At most six wrong-type cases are kept, each rejected by the library. |
| NumberGenerator.NonFiniteInvalid | src/numberGenerator.ts:97-101 | At most three non-finite cases are kept, each rejected. |
| NumberGenerator.FloatInvalid | src/numberGenerator.ts:103-105 | At most one fractional case is kept, and it is rejected. |
| NumberGenerator.OutOfBoundsInvalid | src/numberGenerator.ts:107-115 | At most two out-of-bounds cases are kept, each rejected. |
| NumberGenerator.NotMultipleInvalid | src/numberGenerator.ts:117-120 | At most one non-multiple case is kept, and it is rejected. |
| NumberGenerator.InvalidCases | src/numberGenerator.ts:66-123 | `invalid` yields at most thirteen cases. Every case kept is rejected by the library. |
| NumberGenerator.Invalid | src/numberGenerator.ts:66-123 | The method computes the `invalid` specification. |
| NumberGenerator.AddWrongTypeInvalid | src/numberGenerator.ts:90-95 | The six wrong-type pushes append the rejected candidates. |
| NumberGenerator.AddPrimitiveWrongTypes | src/numberGenerator.ts:90-91 | Pushes the string and boolean candidates that the library rejects, in that order, and keeps the earlier entries. |
| NumberGenerator.AddCompositeWrongTypes | src/numberGenerator.ts:92-93 | Pushes the array and object candidates that the library rejects, in that order, and keeps the earlier entries. |
| NumberGenerator.AddAbsentWrongTypes | src/numberGenerator.ts:94-95 | Pushes the null and undefined candidates that the library rejects, in that order, and keeps the earlier entries. |
| NumberGenerator.AddNonFiniteInvalid | src/numberGenerator.ts:97-101 | The three non-finite pushes append the rejected candidates. |
| NumberGenerator.AddOutOfBoundsInvalid | src/numberGenerator.ts:107-115 | The two out-of-bounds pushes append the rejected candidates. |
| NumberGenerator.BelowMinInvalid | src/numberGenerator.ts:107-110 | Below a declared minimum, at most one candidate is pushed, and only if the library rejects it. |
| NumberGenerator.AboveMaxInvalid | src/numberGenerator.ts:112-115 | Above a declared maximum, at most one candidate is pushed, and only if the library rejects it. |
| NumberGenerator.AddBelowMinInvalid | src/numberGenerator.ts:107-110 | Pushes exactly the below-minimum case list and keeps the earlier entries. |
| NumberGenerator.AddAboveMaxInvalid | src/numberGenerator.ts:112-115 | Pushes exactly the above-maximum case list and keeps the earlier entries. |
| NumberGenerator.WithinRangeCandidateFits | src/numberGenerator.ts:31-32 | For fair draws and on-grid bounds, "valid number within range" lies within the bounds. With a step, it is a multiple of it. |
| NumberGenerator.OutOfBoundsCandidatesBreakBounds | src/numberGenerator.ts:107-115 | One unit past a bound, rounded to cents, stays past that bound. |
| NumberGenerator.Midpoint | src/numberGenerator.ts:45-48 | A finite midpoint of an integer schema is a whole number. |
| NumberGenerator.NearMin | src/numberGenerator.ts:51-52 | The near-min candidate is -Infinity without a `min`, and otherwise a finite whole number of cents. |
| NumberGenerator.NearMax | src/numberGenerator.ts:53-54 | The near-max candidate is Infinity without a `max`, and otherwise a finite whole number of cents. |
| NumberGenerator.MidpointBetweenBounds | src/numberGenerator.ts:45-48 | The midpoint is NaN with no bound and an infinity with one. With ordered bounds it lies between them. |
| NumberGenerator.NearBoundsInside | src/numberGenerator.ts:50-55 | For cent-grid bounds, the near-bound candidates are exactly one cent inside each bound. |
| NumberGenerator.CentStep | src/numberGenerator.ts:52-54 | A cent-grid value moved by whole cents stays on the grid. |
| EnumGenerator.Letter | src/enumGenerator.ts:43 | One draw gives at most one lower-case letter. A draw outside [0, 1) gives none. |
| EnumGenerator.WordPrefix | src/enumGenerator.ts:41-44 | The drawn word has at most ten letters, all lower-case. |
| EnumGenerator.WordPrefixLength | src/enumGenerator.ts:41-44 | For fair draws every letter lands in the alphabet. |
| EnumGenerator.WordHasTenLetters | src/enumGenerator.ts:41-44 | For fair draws the word has exactly ten lower-case letters. |
| EnumGenerator.GenerateInvalidEnumString | src/enumGenerator.ts:37-47 | The loop returns the first drawn word that is not a member. |
| EnumGenerator.ValidCases | src/enumGenerator.ts:7-17 | There is one case per member, in declaration order. Each has the member as its value and is labelled with the library's verdict. |
| EnumGenerator.Valid | src/enumGenerator.ts:7-17 | The `forEach` loop computes the `valid` specification. |
| EnumGenerator.InvalidCases | src/enumGenerator.ts:19-35 | `invalid` is the five fixed candidates, then a non-member word, each labelled with the library's verdict. |
| EnumGenerator.Invalid | src/enumGenerator.ts:19-35 | The method computes the `invalid` specification. |
| EnumGenerator.InvalidWordShape | src/enumGenerator.ts:31-32 | For fair draws the non-member word is ten lower-case letters. |
| EnumGenerator.InvalidAreNonMembers | src/enumGenerator.ts:24-32 | Unless "invalid_enum_value" is itself a member, no invalid candidate is a member. |
| BooleanGenerator.ValidCases | src/booleanGenerator.ts:6-19 | `valid` is `true` then `false`, both labelled valid. |
| BooleanGenerator.InvalidCases | src/booleanGenerator.ts:21-78 | `invalid` is nine non-boolean values, all labelled invalid. |
| BooleanGenerator.BucketsPartition | src/booleanGenerator.ts:6-78 | No value is in both buckets, and every boolean is offered as valid. |
| OptionalGenerator.ValidCases | src/optionalGenerator.ts:6-12 | The one valid case of an optional schema is `undefined`, labelled valid. |
| OptionalGenerator.InvalidCases | src/optionalGenerator.ts:14-16 | An optional wrapper adds no invalid case. |
| NullableGenerator.ValidCases | src/nullableGenerator.ts:6-12 | The one valid case of a nullable schema is `null`, labelled valid. |
| NullableGenerator.InvalidCases | src/nullableGenerator.ts:14-16 | A nullable wrapper adds no invalid case. |
| StaticGenerator.ValidCases | src/generators/generator.ts:16-47 | Numbers always succeed and strings give one valid case. Every other kind except effects gives `[]`, since modifier results are dropped. |
| StaticGenerator.InvalidCases | src/generators/generator.ts:49-79 | Only an enum yields cases, one per member. Every other kind yields `[]`. |
| StaticGenerator.ModifierDiscardsInner | src/generators/generator.ts:35-42 | An optional or nullable schema succeeds with `[]` exactly when its inner schema succeeds. Otherwise it fails the same way. |
| StaticGenerator.OptionalNumberLosesCases | src/generators/generator.ts:20-42 | An optional number yields no valid case, although the bare number yields its own list. |
| StaticGenerator.InvalidOfEnumMarkedValid | src/generators/generator.ts:74-76 | The invalid bucket of an enum holds each member, marked valid. |
| StaticStringGenerator.DatePart | src/generators/stringGenerator.ts:118 | `iso.split('T')[0]` is a prefix of the timestamp holding no `T`. |
| StaticStringGenerator.TimePart | src/generators/stringGenerator.ts:124 | `iso.split('T')[1].split('.')[0]` throws exactly when the timestamp holds no `T`. Otherwise it holds no `.`. |
| StaticStringGenerator.IsoParts | src/generators/stringGenerator.ts:115-126 | Splitting an ISO timestamp at `T` and `.` recovers its date part and its time part. |
| StaticStringGenerator.ValidCases | src/generators/stringGenerator.ts:11-156 | `valid` yields exactly one string case, marked valid, or throws. |
| StaticStringGenerator.Valid | src/generators/stringGenerator.ts:11-156 | The method computes the `valid` specification. |
| StaticStringGenerator.ValidIgnoresCuid2 | src/generators/stringGenerator.ts:32-89 | The valid check loop never records `cuid2`. |
| StaticStringGenerator.RegexFailureYieldsPlaceholder | src/generators/stringGenerator.ts:127-143 | With no format declared, a pattern whose synthesis throws yields the placeholder "regex_generation_failed", marked valid. |
| StaticStringGenerator.ValidFollowsPriority | src/generators/stringGenerator.ts:91-126 | The first declared format in chain order picks the case. If its synthesis reads past the end, `valid` throws. |
| StaticStringGenerator.PlainInvalid | src/generators/stringGenerator.ts:276-305 | The plain arm yields at most four string cases, all marked invalid. |
| StaticStringGenerator.InvalidCases | src/generators/stringGenerator.ts:158-308 | Every case is marked invalid, and the list ends with the not-a-string case. |
| StaticStringGenerator.AddLengthInvalid | src/generators/stringGenerator.ts:277-290 | The length pushes append the too-short and too-long cases. |
| StaticStringGenerator.AddAffixInvalid | src/generators/stringGenerator.ts:291-304 | The affix pushes append the wrong-prefix and wrong-suffix cases. |
| StaticStringGenerator.Invalid | src/generators/stringGenerator.ts:158-308 | The method computes the `invalid` specification. |
| StaticStringGenerator.AllFormatsHaveInvalidArm | src/generators/stringGenerator.ts:244-263 | Every format kind has an arm in the invalid chain. |
| StaticStringGenerator.FormatArmTaken | src/generators/stringGenerator.ts:182-263 | Declaring any format makes the invalid chain take a format arm. |
| StaticStringGenerator.InvalidWithFormat | src/generators/stringGenerator.ts:244-306 | With any format declared, `invalid` is exactly that arm's case followed by the not-a-string case. |
| StaticStringGenerator.TooShortAtZeroIsEmpty | src/generators/stringGenerator.ts:277-283 | `min = 0` still yields a "too short" case, and its value is the empty string. |
| StaticNumberGenerator.NonFiniteCases | src/generators/numberGenerator.ts:32-48 | A finite schema adds three non-finite values, all labelled invalid, to the valid list. |
| StaticNumberGenerator.EqualsBoundCases | src/generators/numberGenerator.ts:53-66 | There is one valid case per declared bound. |
| StaticNumberGenerator.StepCases | src/generators/numberGenerator.ts:67-91 | Unless the bounds are exactly one apart there are two or four step cases, all labelled valid. |
| StaticNumberGenerator.ValidCases | src/generators/numberGenerator.ts:9-96 | `valid` yields at most nine cases, in source order. |
| StaticNumberGenerator.AddNonFinite | src/generators/numberGenerator.ts:32-48 | The three non-finite pushes append the non-finite cases. |
| StaticNumberGenerator.AddEqualsBound | src/generators/numberGenerator.ts:53-66 | The bound pushes append the equals-bound cases. |
| StaticNumberGenerator.AddSteps | src/generators/numberGenerator.ts:67-91 | The step pushes append the step cases. |
| StaticNumberGenerator.Valid | src/generators/numberGenerator.ts:9-96 | The method computes the `valid` specification. |
| StaticNumberGenerator.UnboundedValid | src/generators/numberGenerator.ts:50-51 | Without bounds, `valid` holds only the non-finite cases, and nothing at all for a schema that is not finite. |
| StaticNumberGenerator.EqualsBoundCasesPresent | src/generators/numberGenerator.ts:53-66 | A case equal to the minimum is present exactly when a minimum is declared, and likewise for the maximum. |
| StaticNumberGenerator.InfiniteStepMarkedValid | src/generators/numberGenerator.ts:67-72 | With only a maximum declared, `min + 1` is -Infinity and is still marked valid. |
| StaticNumberGenerator.StepAboveMaxMarkedValid | src/generators/numberGenerator.ts:67-72 | Bounds less than one apart, such as min = max, yield a `min + 1` above the maximum that is marked valid. |
| StaticNumberGenerator.BelowMinCases | src/generators/numberGenerator.ts:131-144 | Every below-minimum case lies below the declared minimum and is marked invalid. |
| StaticNumberGenerator.AboveMaxCases | src/generators/numberGenerator.ts:145-158 | Every above-maximum case lies above the declared maximum and is marked invalid. |
| StaticNumberGenerator.InvalidCases | src/generators/numberGenerator.ts:98-163 | `invalid` opens with the six wrong-type cases, holds at most ten, and marks all invalid. |
| StaticNumberGenerator.AddWrongTypes | src/generators/numberGenerator.ts:103-108 | Pushes the six wrong-type cases, all labelled invalid, in source order, and keeps the earlier entries. |
| StaticNumberGenerator.AddBelowMin | src/generators/numberGenerator.ts:131-144 | The below-minimum pushes append those cases. |
| StaticNumberGenerator.AddAboveMax | src/generators/numberGenerator.ts:145-158 | The above-maximum pushes append those cases. |
| StaticNumberGenerator.Invalid | src/generators/numberGenerator.ts:98-163 | The method computes the `invalid` specification. |
| StaticNumberGenerator.OutOfBoundsCounts | src/generators/numberGenerator.ts:128-160 | Each declared bound adds one case for integer schemas and two otherwise. |
| StaticEnumGenerator.ValidPrefix | src/generators/enumGenerator.ts:12-18 | The first n iterations push the first n members, labelled valid. |
| StaticEnumGenerator.ValidCases | src/generators/enumGenerator.ts:7-21 | There is one case per member, in declaration order, marked valid. |
| StaticEnumGenerator.Valid | src/generators/enumGenerator.ts:7-21 | The `forEach` loop computes the valid list. |
| StaticEnumGenerator.InvalidPrefix | src/generators/enumGenerator.ts:38-44 | The first n iterations push the first n fixed inputs, labelled invalid. |
| StaticEnumGenerator.InvalidCases | src/generators/enumGenerator.ts:24-47 | There are exactly five cases, all marked invalid. |
| StaticEnumGenerator.Invalid | src/generators/enumGenerator.ts:24-47 | The `forEach` loop computes the invalid list. |
| StaticEnumGenerator.InvalidIgnoresMembers | src/generators/enumGenerator.ts:29-35 | The invalid list is the same for every enum. |
| StaticEnumGenerator.MemberLabelledInvalid | src/generators/enumGenerator.ts:31 | For an enum with the member "VALUE3", a member is offered as invalid. |
| StaticEnumGenerator.ValidOffersEveryMember | src/generators/enumGenerator.ts:12-18 | A string is offered as valid exactly when it is a member. |
| StaticBooleanGenerator.ValidCases | src/generators/booleanGenerator.ts:4-17 | `valid` is `true` then `false`, both marked valid. |
| StaticBooleanGenerator.InvalidCases | src/generators/booleanGenerator.ts:19-77 | There are eleven non-boolean values, all marked invalid. |
| StaticBooleanGenerator.InvalidExtendsRegistry | src/generators/booleanGenerator.ts:19-77 | The values are the registry generator's, in the same order, with `null` and `undefined` inserted after the numbers. As multisets the list is the registry's plus those two. |
| StaticBooleanGenerator.BucketsPartition | src/generators/booleanGenerator.ts:4-77 | Each boolean is offered as valid and never as invalid. |
| Descriptors.ParseComponents | src/zod/zTime.ts:54-56 | Reading the three amounts succeeds exactly when the first two unit letters split the text. Otherwise it throws reading undefined. |
| JsStrings.Split | src/zod/zTime.ts:53-56 | `split` on a one-character separator always yields at least one piece. |
| JsStrings.SplitPieces | src/zod/zTime.ts:53-56 | There is more than one piece exactly when the text holds the separator. No piece holds it, and the first piece is a prefix of the text. |
| JsStrings.PadStart | src/zod/zTime.ts:45 | `padStart(n, ch)` ends with the text, is at least `n` long and fills the front with `ch`. |
| JsStrings.ParseNumber | src/zod/zTime.ts:54-56 | `Number` gives a value only for text of digits with an optional leading minus. A negative value comes from a leading minus. |
| JsStrings.IntToStringParses | src/zod/zTime.ts:48-56 | Reading the decimal rendering of an integer with `Number` gives that integer back. |
| Descriptors.Parse | src/zod/zTime.ts:53-56 | The constraint word is the first `_` field after the five-character prefix. The only failure is reading undefined. |
| Descriptors.ComponentsRoundTrip | src/zod/zTime.ts:54-56 | Three integral amounts with their unit letters read back as those amounts, and hold no `_`. |
| Descriptors.DescriptorRoundTrip | src/zod/zTime.ts:53-56 | A descriptor whose word and format hold no `_` parses back to its word, amounts and format. |
| Descriptors.ExtraFields | src/zod/zDate.ts:51 | Text after a further `_` becomes further fields and leaves the first three unchanged. |
| Descriptors.CompareWord | src/zod/zTime.ts:27 | The constraint word is "before" exactly when `isTimeBefore` (or `isDateBefore`) is set (src/zod/zDate.ts:29 reads the same way), and it holds no `_`. |
| ZTime.Describe | src/zod/zTime.ts:48 | The descriptor starts with `time.`. |
| ZTime.TwoDigits | src/zod/zTime.ts:45 | `n.toString().padStart(2, '0')` ends with the decimal rendering and has at least two characters for a non-negative amount. |
| ZTime.Message | src/zod/zTime.ts:45 | The message is the given one unless it is absent or empty. Otherwise it starts with "Time must be " and the constraint word. |
| ZTime.TwoDigitsPads | src/zod/zTime.ts:45 | Padding a non-negative amount gives at least two characters that still read as the amount. |
| ZTime.FormatTime | src/zod/zTime.ts:61-67 | Formatting fails only on a NaN amount or a format the formatter rejects. |
| ZTime.ValidCases | src/zod/zTime.ts:51-74 | The valid generator yields one string case, marked valid, or throws. |
| ZTime.ValidGenerator | src/zod/zTime.ts:51-74 | The method computes the valid generator's specification. |
| ZTime.InvalidCases | src/zod/zTime.ts:76-107 | The invalid generator yields two cases, both marked invalid. The second is "invalid-time-format". |
| ZTime.InvalidGenerator | src/zod/zTime.ts:76-107 | The method computes the invalid generator's specification. |
| ZTime.DescribeRoundTrip | src/zod/zTime.ts:48-56 | Parsing a `zTime` descriptor recovers its word, hours, minutes, seconds and format. |
| ZTime.DefaultsRoundTrip | src/zod/zTime.ts:15-22 | The default schema's descriptor parses to "before", zero amounts and "HH:mm:ss". |
| ZTime.ValidTargetsInside | src/zod/zTime.ts:61-72 | On its own descriptor, the valid generator sets the clock one hour inside the bound and labels the result valid. |
| ZTime.InvalidTargetsOutside | src/zod/zTime.ts:86-97 | The invalid generator sets the clock one hour outside the bound. |
| ZTime.TargetsOpposite | src/zod/zTime.ts:61-90 | The two generators move the hour in opposite directions, symmetrically about the bound. |
| ZTime.MissingParamsThrow | src/zod/zTime.ts:53-56 | A descriptor without the middle field makes both generators throw before formatting. |
| ZDate.Describe | src/zod/zDate.ts:45 | The descriptor starts with `date.`. |
| ZDate.Message | src/zod/zDate.ts:42 | The message is the given one unless it is absent or empty. Otherwise it starts with "Date must be " and the constraint word. |
| ZDate.FormatShifted | src/zod/zDate.ts:59-65 | Formatting fails only on a NaN amount or a format the formatter rejects. |
| ZDate.ValidCases | src/zod/zDate.ts:49-72 | The valid generator yields one string case, marked valid, or throws. |
| ZDate.ValidGenerator | src/zod/zDate.ts:49-72 | The method computes the valid generator's specification. |
| ZDate.DescribeRoundTrip | src/zod/zDate.ts:45-54 | Parsing a `zDate` descriptor recovers its word, years, months, days and format. |
| ZDate.DefaultsRoundTrip | src/zod/zDate.ts:15-22 | The default schema's descriptor parses to "before", zero amounts and "yyyy-MM-dd". |
| ZDate.ExtraFieldIgnored | src/zod/zDate.ts:51 | A fourth `_` field, read into the unused `locale`, changes nothing. |
| ZDate.ValidShiftsTowardBound | src/zod/zDate.ts:59-70 | On its own descriptor, the generator moves today back for "before" and forward for "after". It labels the formatted date valid. |
| ZDate.OtherWordsShiftForward | src/zod/zDate.ts:59-63 | Any constraint word other than "before" shifts forward. |
| ZDateTime.Describe | src/zod/zDateTime.ts:49 | The descriptor starts with `date.`. |
| ZDateTime.ValidGenerator | src/zod/zDateTime.ts:53-76 | The generator is the date generator. It yields one valid case or throws. |
| ZDateTime.ClockIgnored | src/zod/zDateTime.ts:49 | Hours, minutes and seconds do not reach the descriptor. |
| ZDateTime.SameAsDate | src/zod/zDateTime.ts:49 | The descriptor is the one `zDate` writes for the same date part. |
| ZDateTime.DescribeRoundTrip | src/zod/zDateTime.ts:49-58 | Parsing recovers the years, months, days and format. |
| ZDateTime.DefaultsRoundTrip | src/zod/zDateTime.ts:16-26 | The defaults parse back to "before", zero amounts and "yyyy-MM-dd HH:mm:ss". |
| ApiTestUtils.TestValues | src/api-test-utils.ts:5-158 | There are tables for exactly eight field types. |
| ApiTestUtils.GetFieldType | src/api-test-utils.ts:211-219 | Each of the five non-string kinds maps to its own name, and every other kind to "string". |
| ApiTestUtils.ValidEntries | src/api-test-utils.ts:184-193 | There is one entry per valid input, in order, expecting validity and the input as value. |
| ApiTestUtils.InvalidEntries | src/api-test-utils.ts:196-205 | There is one entry per invalid input, in order, expecting the error "Invalid input". |
| ApiTestUtils.TestCases | src/api-test-utils.ts:172-208 | The output length is the sum of the four input list lengths. |
| ApiTestUtils.GenerateTestCases | src/api-test-utils.ts:172-208 | The two loops compute the specified list. |
| ApiTestUtils.PushValid | src/api-test-utils.ts:184-193 | The valid loop appends the valid entries. |
| ApiTestUtils.PushInvalid | src/api-test-utils.ts:196-205 | The invalid loop appends the invalid entries. |
| ApiTestUtils.PushBoth | src/api-test-utils.ts:184-205 | Both loops together produce the valid-input entries followed by the invalid-input entries. |
| ApiTestUtils.OrderAndExpectations | src/api-test-utils.ts:179-205 | Inputs come out as standard valid, custom valid, standard invalid, custom invalid. Each carries its expectation. |
| ApiTestUtils.EntriesInOrder | src/api-test-utils.ts:184-205 | Entry `i` carries input `i` of the valid inputs followed by the invalid ones. The valid inputs expect success with themselves as data; the invalid ones expect failure with "Invalid input". |
| ApiTestUtils.FallbackNeverTaken | src/api-test-utils.ts:179 | Every field type `getFieldType` returns has a table, so the string fallback is never taken. The email and url tables are never read. |
| ApiTestUtils.OtherKindsUseStringTable | src/api-test-utils.ts:211-219 | Enums, wrapped schemas and effects schemas are tested with the string table. |

## Left out

- Floating point: numbers are exact reals (`JsNumbers`). `Number.EPSILON` and `Math.round` are modelled, but binary rounding of sums such as `min + 0.01` is not.
- `Number(text)` reads only an optional minus sign followed by decimal digits, or the empty string. Every other text is NaN. Descriptor amounts are therefore integers; non-integral amounts are not modelled.
- Draws: each foreign call (faker, cuid2, ulid, RandExp, `btoa`, `Math.random`, `new Date()`) is a field of `Env`. Equal calls share one draw, whereas the source draws afresh at each call. For example, the wrong-prefix text (`"x"` + alpha(1)) and the wrong-suffix text (alpha(1) + `"x"`) use the same letter. With min = 2 the too-short text is that letter too. `pickDraw(key)` gives the same pick in every `createValidObject` call.
- TestCase field name: src/types.ts:1-6 names the case's value `input`, which the static generators fill, while the live helpers fill `value`. The model has one `value` field for both.
- StringGenerator.SampleMiss, StaticStringGenerator.InvalidCases: `regex.test` on a pattern with the `g` or `y` flag is stateful, since each call advances the pattern's `lastIndex` (src/stringGenerator.ts:191, src/generators/stringGenerator.ts:269). The model's `regexTest` is a pure function of pattern and text, so these flags are not modelled.
- Rejection loops are modelled under the premise that some attempt succeeds (`…Terminates`, `ValidDrawsSuffice`, `InvalidDrawsSuffice`). Their probability of ending is not modelled.
- The schema library's validation, including the `refine` predicates of `zTime`, `zDate` and `xDateTime`, is the `Validator` parameter. Its rules for formats, patterns and dates are not modelled.
- date-fns `set`, `add*`/`sub*`, `format` and `parse` are `Env` parameters. Which error date-fns raises first on a NaN amount together with an undefined format is not modelled; the model reports the NaN first.
- `tc` is imported by src/generator.ts and src/enumGenerator.ts but is not defined in src/testCaseUtils.ts. The model takes it as the case `{description, value, isValid: accepts(schema, value)}` with no message.
- A registered generator that cannot read the schema it is given, such as the enum generator under "ZodString", fails with `NotApplicable` instead of reading an undefined property.
- The `isZodType` filter (src/generator.ts:134-136) is not modelled: every shape entry is a schema.
- src/generators/zodEffectsGenerator.ts is not part of this model. The static dispatcher's effects arm is the `effects` parameter.
- The static dispatcher's `invalid` recursions for optional, nullable and effects schemas (src/generators/generator.ts:62-72) return lists that are dropped, and cannot throw; they are folded into `[]`.
- `runApiTests` (src/api-test-utils.ts:222-244), all `console.log`/`console.warn` output and `JSON.stringify` (a parameter) are not modelled.
- src/zod/zCurrency.ts (commented out), src/domains.ts, src/zod/ZodDomains.ts and src/types.ts hold no logic and are not part of this model.
- StaticGenerator.ValidCases: the contract says nothing about the effects arm, whose result is the `effects` parameter's.
- NumberGenerator.CandidateWithinBounds: proved only for bounds on the candidate grid (whole numbers for `int` schemas, whole cents otherwise). Off-grid bounds can be crossed by the final floor or rounding.
- NumberGenerator.ValidMultipleOfInRange: proved only for a positive step on the candidate grid. A zero step yields NaN, and a negative step reverses the range.
- Registry.GeneratorRegistry.Default: the generator objects are tags of a datatype, not class instances.
