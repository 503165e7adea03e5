/** The values the generators obtain from random sources and foreign
    libraries (faker, cuid2, ulid, RandExp, `Math.random`, date-fns, the
    host's number formatting). Each is a field of `Env`; a rejection loop
    reads an indexed stream of draws, attempt `k` reading draw `k`. */
module Draws {
  import opened Wrappers
  import opened Schemas

  datatype Env = Env(
    /** faker.internet.email(), faker.internet.url(), faker.string.uuid(),
        faker.internet.emoji(), faker.string.nanoid(), createId(), ulid(),
        faker.internet.ip() */
    email: string, url: string, uuid: string, emoji: string,
    nanoid: string, cuid: string, ulid: string, ip: string,
    /** faker.date.recent().toISOString() */
    recentIso: string,
    /** faker.number.int({min, max}) for min <= max */
    intIn: (int, int) -> int,
    /** faker.string.alpha(n) */
    alpha: int -> string,
    /** new RandExp(re) with `max = n`, then gen(); None when it throws */
    randexp: (Regex, int) -> Option<string>,
    /** attempt k of faker.string.sample({min, max}) for min <= max */
    sample: (int, int, nat) -> string,
    /** Math.random() in attempt k of the valid-number loop */
    numberDraws: nat -> real,
    /** Math.random() in generateValidMultipleOf */
    multipleDraw: real,
    /** Math.random() in attempt k of the invalid-multiple loop */
    invalidMultipleDraws: nat -> real,
    /** Math.random() for letter i of attempt k of the enum word loop: draw 10 * k + i */
    letterDraws: nat -> real,
    /** Math.random() in getRandomElement for the field with this key */
    pickDraw: string -> real,
    /** the decimal text of a number in a template literal */
    show: real -> string,
    /** date-fns set(now, {hours, minutes, seconds}) as a timestamp */
    setClock: (int, int, int) -> int,
    /** now shifted by days, then months, then years (negative amounts go back) */
    shiftDate: (int, int, int) -> int,
    /** date-fns format(date, pattern), the pattern `undefined` when it is
        None; None when the call throws */
    format: (int, Option<string>) -> Option<string>)

  predicate IsLetter(c: char) {
    'a' <= c <= 'z' || 'A' <= c <= 'Z'
  }

  predicate AllLetters(s: string) {
    forall i :: 0 <= i < |s| ==> IsLetter(s[i])
  }

  function Clamp0(n: int): nat {
    if n < 0 then 0 else n
  }

  /** The ranges the sources guarantee: integers drawn within their bounds,
      letter strings of the requested length, `Math.random()` in [0, 1). */
  ghost predicate Fair(e: Env) {
    && (forall lo: int, hi: int :: lo <= hi ==> lo <= e.intIn(lo, hi) <= hi)
    && (forall n: int :: |e.alpha(n)| == Clamp0(n) && AllLetters(e.alpha(n)))
    && (forall k: nat :: 0.0 <= e.numberDraws(k) < 1.0)
    && 0.0 <= e.multipleDraw < 1.0
    && (forall k: nat :: 0.0 <= e.invalidMultipleDraws(k) < 1.0)
    && (forall k: nat :: 0.0 <= e.letterDraws(k) < 1.0)
    && (forall key: string :: 0.0 <= e.pickDraw(key) < 1.0)
  }
}
