/**
 * An outgoing message stream: the client WebSocket or the upstream live
 * session. Every `await ...send(...)` of the relay is one send ATTEMPT on
 * such a channel. Whether an attempt raises is decided by a fault plan fixed
 * when the channel is made (attempt number -> the exception's text); a
 * proof about a relay operation holds for every fault plan, which is how the
 * model treats a send that may or may not fail.
 */
module Channels {
  import opened Base

  /** The exception raised by attempt `k` under `failures`, if that attempt fails. */
  function Fault(failures: map<nat, string>, k: nat): (r: Option<string>)
    ensures r.Some? <==> k in failures
  {
    if k in failures then Some(failures[k]) else None
  }

  /**
   * How many leading messages of `ms` get through when they are awaited one
   * after another starting at attempt `k`: the first failing attempt raises
   * and the remaining messages are never sent.
   */
  function Delivered<T>(ms: seq<T>, k: nat, failures: map<nat, string>): (n: nat)
    ensures n <= |ms|
    ensures forall j :: k <= j < k + n ==> j !in failures
    ensures n < |ms| ==> k + n in failures
    decreases |ms|
  {
    if ms == [] || k in failures then 0 else 1 + Delivered(ms[1..], k + 1, failures)
  }

  /** Attempts spent by such a run: every delivered message, plus the one that raised. */
  function AttemptsUsed<T>(ms: seq<T>, k: nat, failures: map<nat, string>): nat
  {
    var n := Delivered(ms, k, failures);
    if n == |ms| then n else n + 1
  }

  /** With no failing attempt in range, every message gets through. */
  lemma {:induction false} DeliveredAllWhenNoFault<T>(ms: seq<T>, k: nat, failures: map<nat, string>)
    requires forall j :: k <= j < k + |ms| ==> j !in failures
    ensures Delivered(ms, k, failures) == |ms|
    decreases |ms|
  {
    if ms != [] {
      DeliveredAllWhenNoFault(ms[1..], k + 1, failures);
    }
  }

  /**
   * The messages that get through when each of `ms` is sent in its own
   * `try` that swallows the exception: a failed attempt loses only its own
   * message.
   */
  function Survivors<T>(ms: seq<T>, k: nat, failures: map<nat, string>): (r: seq<T>)
    ensures |r| <= |ms|
    decreases |ms|
  {
    if ms == [] then []
    else (if k in failures then [] else [ms[0]]) + Survivors(ms[1..], k + 1, failures)
  }

  /** With no failing attempt in range, every guarded message gets through. */
  lemma {:induction false} SurvivorsWithoutFaults<T>(ms: seq<T>, k: nat, failures: map<nat, string>)
    requires forall j :: k <= j < k + |ms| ==> j !in failures
    ensures Survivors(ms, k, failures) == ms
    decreases |ms|
  {
    if ms != [] {
      SurvivorsWithoutFaults(ms[1..], k + 1, failures);
    }
  }

  /** Sending two runs of independently guarded messages is sending their concatenation. */
  lemma {:induction false} SurvivorsAppend<T>(p: seq<T>, t: seq<T>, k: nat, failures: map<nat, string>)
    ensures Survivors(p + t, k, failures) == Survivors(p, k, failures) + Survivors(t, k + |p|, failures)
    decreases |p|
  {
    if p == [] {
      assert p + t == t;
    } else {
      var head: seq<T> := if k in failures then [] else [p[0]];
      var pt := p + t;
      assert pt[0] == p[0];
      assert pt[1..] == p[1..] + t;
      var a := Survivors(p[1..], k + 1, failures);
      var b := Survivors(t, k + |p|, failures);
      assert Survivors(pt, k, failures) == head + Survivors(pt[1..], k + 1, failures);
      assert Survivors(p, k, failures) == head + a;
      SurvivorsAppend(p[1..], t, k + 1, failures);
      assert Survivors(p[1..] + t, k + 1, failures) == a + b;
      assert head + (a + b) == (head + a) + b;
    }
  }

  /** None of the `count` attempts starting at `k` raises. */
  predicate NoFault(k: nat, count: nat, failures: map<nat, string>) {
    forall j :: k <= j < k + count ==> j !in failures
  }

  /** Two consecutive runs of attempts are fault-free exactly when both are. */
  lemma NoFaultAppend(k: nat, a: nat, b: nat, failures: map<nat, string>)
    ensures NoFault(k, a + b, failures) <==> NoFault(k, a, failures) && NoFault(k + a, b, failures)
  {
  }

  /**
   * Two runs of guarded sends made one after another, each clearing a flag
   * when one of its sends raises, amount to one run of all their messages.
   */
  lemma GuardedRunsCompose<T>(failures: map<nat, string>, x: seq<T>, y: seq<T>,
                              k0: nat, log0: seq<T>, ok0: bool, k1: nat, log1: seq<T>, ok1: bool,
                              k2: nat, log2: seq<T>, ok2: bool)
    requires log1 == log0 + Survivors(x, k0, failures) && k1 == k0 + |x| && ok1 == (ok0 && NoFault(k0, |x|, failures))
    requires log2 == log1 + Survivors(y, k1, failures) && k2 == k1 + |y| && ok2 == (ok1 && NoFault(k1, |y|, failures))
    ensures log2 == log0 + Survivors(x + y, k0, failures)
    ensures k2 == k0 + |x + y|
    ensures ok2 == (ok0 && NoFault(k0, |x + y|, failures))
  {
    assert log2 == log0 + Survivors(x + y, k0, failures) by {
      var sx, sy := Survivors(x, k0, failures), Survivors(y, k1, failures);
      SurvivorsAppend(x, y, k0, failures);
      assert (log0 + sx) + sy == log0 + (sx + sy);
    }
    assert ok2 == (ok0 && NoFault(k0, |x + y|, failures)) by {
      NoFaultAppend(k0, |x|, |y|, failures);
    }
  }

  class Channel<T> {
    /** Every message that was actually sent, in order. */
    var log: seq<T>
    /** Number of send attempts made so far. */
    var attempts: nat
    /** The fault plan: attempt number -> text of the exception it raises. */
    const failures: map<nat, string>

    constructor (failures: map<nat, string>)
      ensures log == [] && attempts == 0 && this.failures == failures
    {
      log := [];
      attempts := 0;
      this.failures := failures;
    }

    /** One awaited send; `err` is the exception it raised, if any. */
    method Send(m: T) returns (err: Option<string>)
      modifies this
      ensures attempts == old(attempts) + 1
      ensures err == Fault(failures, old(attempts))
      ensures log == if err.None? then old(log) + [m] else old(log)
    {
      err := Fault(failures, attempts);
      if err.None? {
        log := log + [m];
      }
      attempts := attempts + 1;
    }

    /**
     * Several awaited sends in a row with no handler between them: the
     * first one that raises ends the run and its exception is returned.
     */
    method SendAll(ms: seq<T>) returns (err: Option<string>)
      modifies this
      ensures var n := Delivered(ms, old(attempts), failures);
              && log == old(log) + ms[..n]
              && attempts == old(attempts) + AttemptsUsed(ms, old(attempts), failures)
              && err == (if n == |ms| then None else Fault(failures, old(attempts) + n))
    {
      var i := 0;
      err := None;
      while i < |ms|
        invariant 0 <= i <= |ms|
        invariant attempts == old(attempts) + i
        invariant log == old(log) + ms[..i]
        invariant err.None?
        invariant Delivered(ms, old(attempts), failures) == i + Delivered(ms[i..], old(attempts) + i, failures)
      {
        err := Send(ms[i]);
        if err.Some? {
          return;
        }
        assert ms[i..][1..] == ms[i + 1..];
        assert ms[..i + 1] == ms[..i] + [ms[i]];
        i := i + 1;
      }
      assert ms[..i] == ms;
    }
  }
}
