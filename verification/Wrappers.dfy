/** Small failure-carrying datatypes shared by every module of the model. */
module Wrappers {

  /** A value that may be absent (`undefined` in the source). */
  datatype Option<+T> = None | Some(value: T) {
    function GetOr(default: T): T {
      match this
      case Some(v) => v
      case None => default
    }
  }

  /** The outcome of an operation that either succeeds or throws an `Error` with a message. */
  datatype Outcome = Pass | Fail(message: string)

  /** A value, or the message of the `Error` thrown instead. */
  datatype Result<+T> = Ok(value: T) | Err(message: string)
}

/**
 * The three operations of the time library the source uses (`clampTime`, `add`,
 * `compare`), on instants written as whole nanoseconds.
 */
module RosTime {

  /** One second, in nanoseconds. */
  const SEC: nat := 1_000_000_000

  /** One millisecond, in nanoseconds. */
  const MSEC: nat := 1_000_000

  /**
   * `clampTime(time, start, end)`: `start` when `time` is before it, otherwise `end`
   * when `time` is after that, otherwise `time`. When `start` is after `end`,
   * every `time` after `start` clamps to `end`.
   */
  function ClampTime(time: nat, start: nat, end: nat): (r: nat)
    ensures start <= end ==> start <= r <= end
    ensures start <= time <= end ==> r == time
    ensures time < start ==> r == start
    ensures start <= time && end < time ==> r == end
  {
    if start > time then start
    else if end < time then end
    else time
  }
}

/**
 * JavaScript values as far as the source compares them: `===` is modelled by
 * equality of `Val`, so an object is known only by its identity `ref`, while
 * primitives compare by value.
 */
module JsValues {

  /** An element of a `Uint8Array`. */
  newtype byte = x: int | 0 <= x < 256

  datatype Val =
    | Undefined
    | Null
    | Bool(b: bool)
    | Num(n: real)
    | Str(s: string)
    | Obj(ref: nat)

  /** What the `??` operator tests: neither `null` nor `undefined`. */
  predicate Defined(v: Val) {
    !v.Undefined? && !v.Null?
  }

  /** `a ?? b`. */
  function Coalesce(a: Val, b: Val): Val {
    if Defined(a) then a else b
  }
}
