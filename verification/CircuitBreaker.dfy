/**
 * The circuit breaker in front of the payment provider. `exec` is split where it awaits, so
 * calls overlap; the decision to admit a call depends only on the completions seen so far.
 */
module CircuitBreaker {
  import opened Base

  datatype Event = Began(at: int, admitted: bool) | Ended(at: int, ok: bool)

  /** The length of the trailing run of failed completions. */
  function TrailingFailures(trace: seq<Event>): nat {
    if trace == [] then 0
    else
      var e, before := trace[|trace| - 1], trace[..|trace| - 1];
      if e.Began? then TrailingFailures(before)
      else if e.ok then 0
      else TrailingFailures(before) + 1
  }

  function LastFailure(trace: seq<Event>): Option<int> {
    if trace == [] then None
    else
      var e := trace[|trace| - 1];
      if e.Ended? && !e.ok then Some(e.at) else LastFailure(trace[..|trace| - 1])
  }

  /** The reference decision. */
  predicate Admits(trace: seq<Event>, now: int, threshold: nat, reset: nat) {
    2 * TrailingFailures(trace) < threshold
    || (LastFailure(trace).Some? && now - LastFailure(trace).value > reset)
  }

  predicate Ordered(trace: seq<Event>) {
    forall i, j | 0 <= i < j < |trace| :: trace[i].at <= trace[j].at
  }

  predicate Faithful(trace: seq<Event>, threshold: nat, reset: nat) {
    trace == [] ||
    (var before, e := trace[..|trace| - 1], trace[|trace| - 1];
     (e.Began? ==> e.admitted == Admits(before, e.at, threshold, reset)) && Faithful(before, threshold, reset))
  }

  lemma {:induction false} FaithfulAt(trace: seq<Event>, threshold: nat, reset: nat, k: nat)
    requires Faithful(trace, threshold, reset) && k < |trace| && trace[k].Began?
    ensures trace[k].admitted == Admits(trace[..k], trace[k].at, threshold, reset)
    decreases |trace|
  {
    if k < |trace| - 1 {
      FaithfulAt(trace[..|trace| - 1], threshold, reset, k);
      assert trace[..|trace| - 1][..k] == trace[..k];
    }
  }

  lemma {:induction false} FailuresSince(trace: seq<Event>, i: nat, j: nat)
    requires i < j <= |trace| && trace[i].Ended? && !trace[i].ok
    requires forall k | i < k < j :: trace[k].Ended? ==> !trace[k].ok
    requires Ordered(trace)
    ensures TrailingFailures(trace[..j]) >= TrailingFailures(trace[..i + 1])
    ensures LastFailure(trace[..j]).Some? && LastFailure(trace[..j]).value >= trace[i].at
    decreases j
  {
    if j > i + 1 {
      FailuresSince(trace, i, j - 1);
      assert trace[..j][..j - 1] == trace[..j - 1];
    }
  }

  /**
   * Once a failure has opened the breaker, no call is admitted until more than the reset time
   * after it, unless some earlier-admitted call completes successfully first.
   */
  lemma OpenHolds(trace: seq<Event>, threshold: nat, reset: nat, i: nat, j: nat)
    requires Ordered(trace) && Faithful(trace, threshold, reset) && i < j < |trace|
    requires trace[i].Ended? && !trace[i].ok && 2 * TrailingFailures(trace[..i + 1]) >= threshold
    requires forall k | i < k < j :: trace[k].Ended? ==> !trace[k].ok
    requires trace[j].Began? && trace[j].admitted
    ensures trace[j].at - trace[i].at > reset
    ensures forall k | i <= k < j && trace[k].Ended? :: trace[j].at - trace[k].at > reset
  {
    FaithfulAt(trace, threshold, reset, j);
    forall k | i <= k < j && trace[k].Ended? ensures trace[j].at - trace[k].at > reset {
      FailuresSince(trace, i, k + 1);
      FailuresSince(trace, k, j);
    }
  }

  // ---- The decision, read off the trace ----

  /** The failed completions among the events from `k` on and before `j`. */
  function FailedIn(trace: seq<Event>, k: nat, j: nat): set<nat>
    requires j <= |trace|
  {
    set i | k <= i < j && trace[i].Ended? && !trace[i].ok
  }

  predicate NoSuccessIn(trace: seq<Event>, k: nat, j: nat)
    requires j <= |trace|
  {
    forall i | k <= i < j && trace[i].Ended? :: !trace[i].ok
  }

  /** The failures since the last success are enough to open the breaker. */
  ghost predicate Tripped(trace: seq<Event>, j: nat, threshold: nat)
    requires j <= |trace|
  {
    exists k: nat :: k <= j && NoSuccessIn(trace, k, j) && 2 * |FailedIn(trace, k, j)| >= threshold
  }

  lemma FailedInMore(trace: seq<Event>, k: nat, j: nat)
    requires k <= j < |trace|
    ensures FailedIn(trace, k, j + 1) == FailedIn(trace, k, j) + if trace[j].Ended? && !trace[j].ok then {j} else {}
    ensures |FailedIn(trace, k, j + 1)| == |FailedIn(trace, k, j)| + if trace[j].Ended? && !trace[j].ok then 1 else 0
  {
  }

  /** The trailing run of failures counts what has failed since any moment after the last success. */
  lemma {:induction false} TrailingCounts(trace: seq<Event>, k: nat, j: nat)
    requires k <= j <= |trace| && NoSuccessIn(trace, k, j)
    ensures TrailingFailures(trace[..j]) == TrailingFailures(trace[..k]) + |FailedIn(trace, k, j)|
    decreases j
  {
    if j > k {
      TrailingCounts(trace, k, j - 1);
      FailedInMore(trace, k, j - 1);
      assert trace[..j][..j - 1] == trace[..j - 1];
    } else {
      assert FailedIn(trace, k, j) == {};
    }
  }

  /** Where the trailing run of failures begins. */
  lemma {:induction false} RunBegins(trace: seq<Event>, j: nat) returns (k: nat)
    requires j <= |trace|
    ensures k <= j && NoSuccessIn(trace, k, j) && TrailingFailures(trace[..k]) == 0
    decreases j
  {
    if j == 0 {
      k := 0;
    } else if trace[j - 1].Ended? && trace[j - 1].ok {
      k := j;
    } else {
      k := RunBegins(trace, j - 1);
      assert trace[..j][..j - 1] == trace[..j - 1];
    }
  }

  lemma TrippedExactly(trace: seq<Event>, j: nat, threshold: nat)
    requires j <= |trace|
    ensures Tripped(trace, j, threshold) <==> 2 * TrailingFailures(trace[..j]) >= threshold
  {
    var k := RunBegins(trace, j);
    TrailingCounts(trace, k, j);
    if Tripped(trace, j, threshold) {
      var m: nat :| m <= j && NoSuccessIn(trace, m, j) && 2 * |FailedIn(trace, m, j)| >= threshold;
      TrailingCounts(trace, m, j);
    }
  }

  /** Some call among the first `j` events failed at most `reset` before `now`. */
  ghost predicate FailedWithin(trace: seq<Event>, j: nat, now: int, reset: nat)
    requires j <= |trace|
  {
    exists i :: 0 <= i < j && trace[i].Ended? && !trace[i].ok && now - trace[i].at <= reset
  }

  lemma {:induction false} LastFailureIs(trace: seq<Event>, j: nat) returns (i: nat)
    requires j <= |trace| && Ordered(trace) && LastFailure(trace[..j]).Some?
    ensures i < j && trace[i].Ended? && !trace[i].ok && trace[i].at == LastFailure(trace[..j]).value
    ensures forall k | 0 <= k < j && trace[k].Ended? && !trace[k].ok :: trace[k].at <= trace[i].at
    decreases j
  {
    assert trace[..j][..j - 1] == trace[..j - 1];
    if trace[j - 1].Ended? && !trace[j - 1].ok { i := j - 1; } else { i := LastFailureIs(trace, j - 1); }
  }

  lemma {:induction false} TrailingHasLast(trace: seq<Event>)
    ensures TrailingFailures(trace) > 0 ==> LastFailure(trace).Some?
  {
    if trace != [] { TrailingHasLast(trace[..|trace| - 1]); }
  }

  /**
   * A call is refused exactly if the failures since the last success trip the breaker and some
   * failure is at most the reset time ago. So it is let through whenever the breaker has not
   * tripped, and again as soon as more than the reset time has passed since the latest failure.
   */
  lemma RefusedExactly(trace: seq<Event>, threshold: nat, reset: nat, j: nat)
    requires Ordered(trace) && Faithful(trace, threshold, reset) && threshold > 0
    requires j < |trace| && trace[j].Began?
    ensures !trace[j].admitted <==>
              Tripped(trace, j, threshold) && FailedWithin(trace, j, trace[j].at, reset)
  {
    FaithfulAt(trace, threshold, reset, j);
    TrippedExactly(trace, j, threshold);
    TrailingHasLast(trace[..j]);
    if Tripped(trace, j, threshold) {
      var i := LastFailureIs(trace, j);
      assert FailedWithin(trace, j, trace[j].at, reset) <==> trace[j].at - trace[i].at <= reset;
    }
  }

  datatype Position = Closed | Open | HalfOpen

  class CircuitBreaker {
    const threshold: nat
    const reset: nat
    var state: Position
    var failures: nat
    var openedAt: int
    ghost var trace: seq<Event>

    ghost predicate Valid()
      reads this
    {
      && threshold > 0 && Ordered(trace) && Faithful(trace, threshold, reset)
      && failures == TrailingFailures(trace)
      && (state == Closed <==> 2 * failures < threshold)
      && (state != Closed ==> LastFailure(trace) == Some(openedAt))
      && (state == HalfOpen ==> trace != [] && trace[|trace| - 1].at - openedAt > reset)
    }

    constructor (threshold: nat, reset: nat)
      requires threshold > 0
      ensures Valid() && trace == [] && this.threshold == threshold && this.reset == reset
    {
      this.threshold, this.reset := threshold, reset;
      state, failures, openedAt, trace := Closed, 0, 0, [];
    }

    /**
     * The part of `exec` before the call: admit it or throw `circuit_open`. `Valid` keeps the
     * trace faithful, and `RefusedExactly` says of a faithful trace when that is.
     */
    method Begin(now: int) returns (admitted: bool)
      requires Valid() && (trace != [] ==> trace[|trace| - 1].at <= now)
      modifies this
      ensures Valid()
      ensures admitted == Admits(old(trace), now, threshold, reset)
      ensures trace == old(trace) + [Began(now, admitted)]
      ensures failures == old(failures)
    {
      admitted := true;
      if state == Open {
        if now - openedAt > reset {
          state := HalfOpen;
        } else {
          admitted := false;
        }
      }
      Extended(trace, Began(now, admitted), threshold, reset);
      trace := trace + [Began(now, admitted)];
    }

    /** The part of `exec` after the call: its result, its error or its timeout. */
    method End(now: int, ok: bool)
      requires Valid() && (trace != [] ==> trace[|trace| - 1].at <= now)
      modifies this
      ensures Valid()
      ensures trace == old(trace) + [Ended(now, ok)]
    {
      Extended(trace, Ended(now, ok), threshold, reset);
      trace := trace + [Ended(now, ok)];
      if ok {
        failures := 0;
        state := Closed;
      } else {
        failures := failures + 1;
        if failures * 2 >= threshold {
          state := Open;
          openedAt := now;
        }
      }
    }
  }

  lemma Extended(trace: seq<Event>, e: Event, threshold: nat, reset: nat)
    requires Ordered(trace) && (trace != [] ==> trace[|trace| - 1].at <= e.at) && Faithful(trace, threshold, reset)
    requires e.Began? ==> e.admitted == Admits(trace, e.at, threshold, reset)
    ensures Ordered(trace + [e]) && Faithful(trace + [e], threshold, reset)
    ensures TrailingFailures(trace + [e])
            == (if e.Began? then TrailingFailures(trace) else if e.ok then 0 else TrailingFailures(trace) + 1)
    ensures LastFailure(trace + [e]) == if e.Ended? && !e.ok then Some(e.at) else LastFailure(trace)
  {
    assert (trace + [e])[..|trace|] == trace;
    OrderedExtended(trace, e);
    FaithfulExtended(trace, e, threshold, reset);
  }

  lemma OrderedExtended(trace: seq<Event>, e: Event)
    requires Ordered(trace) && (trace != [] ==> trace[|trace| - 1].at <= e.at)
    ensures Ordered(trace + [e])
  {
  }

  lemma FaithfulExtended(trace: seq<Event>, e: Event, threshold: nat, reset: nat)
    requires Faithful(trace, threshold, reset) && (e.Began? ==> e.admitted == Admits(trace, e.at, threshold, reset))
    ensures Faithful(trace + [e], threshold, reset)
  {
    assert (trace + [e])[..|trace|] == trace;
  }
}
