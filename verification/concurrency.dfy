/** The concurrency bound of a limiter and the validation `pLimit` applies to it
    (p-limit/index.js, lines 10-14). */
module Concurrency {
  import opened Wrappers

  /** The JavaScript value a caller passes as `concurrency`. A finite number is kept
      exactly as a real; the non-finite numbers get their own cases; every value that
      is not a number (a string, a bigint, an object, ...) is `NonNumber`. */
  datatype JsValue =
    | Number(x: real)
    | PositiveInfinity
    | NegativeInfinity
    | NaN
    | NonNumber

  type Positive = n: int | n >= 1 witness 1

  /** A validated bound: a positive integer, or `Infinity`, which never queues. */
  datatype Bound = Finite(n: Positive) | Unbounded

  /** The `TypeError` the source rejects with. */
  datatype TypeError = TypeError(message: string)

  const BoundMessage: string := "Expected `concurrency` to be a number from 1 and up"

  /** `Number.isInteger`: a finite number without a fractional part. */
  predicate IsInteger(v: JsValue) {
    v.Number? && v.x.Floor as real == v.x
  }

  /** The relational comparison `v > 0` on numbers. The guard never compares a
      non-number, since `Number.isInteger` has already failed for it. */
  predicate GreaterThanZero(v: JsValue) {
    match v
    case Number(x) => x > 0.0
    case PositiveInfinity => true
    case NegativeInfinity => false
    case NaN => false
    case NonNumber => false
  }

  /** The guard of `pLimit`: accepted exactly when the argument is a positive integer
      or positive infinity; anything else yields the `TypeError`, and no bound. */
  function Validate(concurrency: JsValue): (r: Result<Bound, TypeError>)
    ensures r.Ok? <==>
              || concurrency.PositiveInfinity?
              || (concurrency.Number? && concurrency.x >= 1.0 && concurrency.x.Floor as real == concurrency.x)
    ensures r.Ok? ==> (r.value.Unbounded? <==> concurrency.PositiveInfinity?)
    ensures r.Ok? && r.value.Finite? ==> r.value.n as real == concurrency.x
    ensures r.Err? ==> r.error == TypeError(BoundMessage)
  {
    if (IsInteger(concurrency) || concurrency == PositiveInfinity) && GreaterThanZero(concurrency) then
      Ok(if concurrency.PositiveInfinity? then Unbounded else Finite(concurrency.x.Floor))
    else
      Err(TypeError(BoundMessage))
  }

  /** The admission test `activeCount < concurrency`; always true for `Infinity`. */
  predicate Admits(b: Bound, activeCount: int) {
    match b
    case Finite(n) => activeCount < n
    case Unbounded => true
  }
}
