/**
 * The slice of JavaScript that the suspense adapters and the
 * multi-promise helper depend on: values with their truthiness, object
 * identities for promises and functions, how a promise settles, and the
 * `{data, isSuccess, isError, errorReason}` record both the older adapter
 * and the helper build.
 */
module Js {

  datatype Option<+T> = None | Some(value: T)

  /** Identity of a promise object (`===` on promises is equality of ids). */
  type PromiseId = nat

  /** Identity of a function object. */
  type FunctionId = nat

  /**
   * What a caller hands to `execute` as `@promise`: a promise, or a
   * zero-argument function returning one. A promise and a function are
   * different objects, so the two constructors never compare equal.
   */
  datatype Source = PromiseRef(promise: PromiseId) | FunctionRef(fn: FunctionId)

  /**
   * The promise a source stands for: the promise itself, or `produced`, the
   * promise that calling the function returns this time (the function body
   * is foreign code, so its result is an input).
   */
  function PromiseOf(source: Source, produced: PromiseId): PromiseId
  {
    match source
    case PromiseRef(q) => q
    case FunctionRef(_) => produced
  }

  /** A JavaScript value, as far as payloads and rejection reasons go. */
  datatype Value =
    | Undefined
    | Null
    | Bool(b: bool)
    | Number(n: int)
    | Str(s: string)
    | Object(id: nat)

  /** The falsy values a `Value` can be: undefined, null, false, 0 and "". */
  const Falsy: set<Value> := {Undefined, Null, Bool(false), Number(0), Str("")}

  /** `Boolean(v)`: every value other than the falsy ones is true. */
  predicate Truthy(v: Value)
    ensures Truthy(v) <==> v !in Falsy
  {
    match v
    case Undefined => false
    case Null => false
    case Bool(b) => b
    case Number(n) => n != 0
    case Str(s) => s != ""
    case Object(_) => true
  }

  /** How a promise settles: it fulfils with a value or rejects with a reason. */
  datatype Outcome = Fulfilled(value: Value) | Rejected(reason: Value)

  /** The settlement record `{data, isSuccess, isError, errorReason}`. */
  datatype Record = Record(data: Value, isSuccess: bool, isError: bool, errorReason: Value)

  /** The record before anything happened: both flags false, both values null. */
  const Blank := Record(Null, false, false, Null)

  /**
   * The shape every record the source builds has: never both success and
   * error, no data on an error, no error reason unless it is an error.
   */
  predicate WellShaped(r: Record) {
    && !(r.isSuccess && r.isError)
    && (r.isError ==> r.data == Null)
    && (!r.isError ==> r.errorReason == Null)
  }

  /**
   * The record for one settlement: a fulfilment carries its value as data,
   * a rejection its reason as errorReason; exactly one flag is set.
   */
  function RecordOf(o: Outcome): (r: Record)
    ensures WellShaped(r)
    ensures r.isSuccess != r.isError
    ensures r.isSuccess <==> o.Fulfilled?
    ensures o.Fulfilled? ==> r.data == o.value
    ensures o.Rejected? ==> r.errorReason == o.reason
  {
    match o
    case Fulfilled(v) => Record(v, true, false, Null)
    case Rejected(e) => Record(Null, false, true, e)
  }

  /**
   * The environment the adapters consult: `IS_BROWSER`, the fastboot
   * service's `isFastBoot`, and `Ember.testing`. All three are fixed for the
   * lifetime of a component.
   */
  datatype Env = Env(isBrowser: bool, isFastBoot: bool, testing: bool)

  /** The owning component's `isDestroying` / `isDestroyed` at some instant. */
  datatype Teardown = Teardown(isDestroying: bool, isDestroyed: bool)
}
