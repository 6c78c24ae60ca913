/**
 * `Immutable.List#forEach(sideEffect)`: the side effect runs on each
 * element in list order, and the iteration stops early when it returns
 * `false` or throws. The code behind each call is opaque; `reply(i)` says
 * how the call on the i-th element ends, so the same callback or handle
 * met twice may end differently each time.
 */
module Iteration {

  /** How one call into opaque code ends. */
  datatype Reply = Done | ReturnedFalse | Threw

  /** The first position from `i` on, below `n`, whose call does not end normally, or `n`. */
  function FirstStopFrom(i: nat, n: nat, reply: nat -> Reply): nat
    decreases n - i
  {
    if i >= n then n
    else if reply(i) != Done then i
    else FirstStopFrom(i + 1, n, reply)
  }

  /** The first of `n` calls that does not end normally, or `n`. */
  function FirstStop(n: nat, reply: nat -> Reply): nat
  {
    FirstStopFrom(0, n, reply)
  }

  lemma {:induction false} FirstStopFromSpec(i: nat, n: nat, reply: nat -> Reply)
    requires i <= n
    ensures i <= FirstStopFrom(i, n, reply) <= n
    ensures forall j :: i <= j < FirstStopFrom(i, n, reply) ==> reply(j) == Done
    ensures FirstStopFrom(i, n, reply) < n ==> reply(FirstStopFrom(i, n, reply)) != Done
    decreases n - i
  {
    if i < n && reply(i) == Done {
      FirstStopFromSpec(i + 1, n, reply);
    }
  }

  /** Every call before the first stop ended normally, and the one at it did not. */
  lemma FirstStopSpec(n: nat, reply: nat -> Reply)
    ensures FirstStop(n, reply) <= n
    ensures forall j :: 0 <= j < FirstStop(n, reply) ==> reply(j) == Done
    ensures FirstStop(n, reply) < n ==> reply(FirstStop(n, reply)) != Done
  {
    FirstStopFromSpec(0, n, reply);
  }

  /** How many of `n` elements `forEach` reaches: all up to and including the call that stops it. */
  function Reached(n: nat, reply: nat -> Reply): nat
  {
    if FirstStop(n, reply) < n then FirstStop(n, reply) + 1 else n
  }

  /** Whether the iteration over `n` elements ends by an exception. */
  function Throws(n: nat, reply: nat -> Reply): bool
  {
    FirstStop(n, reply) < n && reply(FirstStop(n, reply)) == Threw
  }

  /** When every call ends normally, `forEach` reaches every element and does not throw. */
  lemma NothingStops(n: nat, reply: nat -> Reply)
    requires forall j :: 0 <= j < n ==> reply(j) == Done
    ensures Reached(n, reply) == n && !Throws(n, reply)
  {
    FirstStopSpec(n, reply);
  }
}
