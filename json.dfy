/** The JavaScript values the handlers see: properties of parsed JSON bodies and
    of the stored records, with the loose truthiness the validators rely on. */
module Json {

  /** An optional value. The validators use it for their verdict: `None` for
      `null` (passes), or `Some(m)` with the message of the failed rule. */
  datatype Option<+T> = None | Some(value: T)

  /** One property of a JavaScript object: not there at all (reads as
      `undefined`), set to `null`, or set to a value. The difference between
      the first two matters for object spread, not for the validators. */
  datatype Field<+T> = Missing | Null | Present(value: T)

  /** `!!x` for a string property: only a non-empty string is truthy. */
  predicate TruthyString(f: Field<string>)
  {
    f.Present? && f.value != ""
  }

  /** `!!x` for a number property: only a non-zero number is truthy. */
  predicate TruthyNumber(f: Field<int>)
  {
    f.Present? && f.value != 0
  }

  /** `x == null` (loose equality): true of `undefined` and of `null`. */
  predicate IsNullish<T>(f: Field<T>)
  {
    !f.Present?
  }

  /** The value one property takes in `{ ...base, ...over }`: an own property
      of `over` wins, even when it is `null`; otherwise `base`'s is kept. */
  function Spread<T>(base: Field<T>, over: Field<T>): Field<T>
  {
    if over.Missing? then base else over
  }
}
