/** Optional values, results and the exceptions the modelled code raises. */
module Outcomes {

  datatype Option<+T> = None | Some(value: T)

  /** The Python exceptions raised by the modelled code, by class. */
  datatype Error =
    | ValueError(message: string)
    /** Raised when the training blocking rule yields no record pairs; names the rule. */
    | EMTrainingException(message: string)
    | KeyError(key: string)
    | TypeError(message: string)
    | AttributeError(name: string)
    | IndexError
    | MathDomainError
    | ZeroDivisionError

  datatype Result<+T> = Success(value: T) | Failure(error: Error) {
    predicate IsFailure() { Failure? }

    function PropagateFailure<U>(): Result<U>
      requires Failure?
    {
      Failure(error)
    }

    function Extract(): T
      requires Success?
    {
      value
    }
  }

  /** The first components of a sequence of pairs, in order (`[a for a, _ in pairs]`). */
  function Firsts<A, B>(pairs: seq<(A, B)>): (r: seq<A>)
    ensures |r| == |pairs| && forall i :: 0 <= i < |r| ==> r[i] == pairs[i].0
  {
    seq(|pairs|, i requires 0 <= i < |pairs| => pairs[i].0)
  }

  /** The second components of a sequence of pairs, in order (`[b for _, b in pairs]`). */
  function Seconds<A, B>(pairs: seq<(A, B)>): (r: seq<B>)
    ensures |r| == |pairs| && forall i :: 0 <= i < |r| ==> r[i] == pairs[i].1
  {
    seq(|pairs|, i requires 0 <= i < |pairs| => pairs[i].1)
  }

  /** The outcome of a call that returns nothing but may raise. */
  datatype Outcome = Pass | Fail(error: Error)

  /** True iff `sub` occurs in `s` starting at position `i`. */
  predicate OccursAt(sub: string, s: string, i: nat)
  {
    i + |sub| <= |s| && s[i..i + |sub|] == sub
  }

  /** Python's `sub in s` for strings. */
  predicate Contains(s: string, sub: string)
  {
    exists i: nat | i <= |s| :: OccursAt(sub, s, i)
  }
}
