/** The retry decorator of cloudbaseinit/utils/retry.py. `retry(tries,
    try_delay)` validates its configuration and returns a decorator; the
    decorated operation is called until it returns, at most `tries` times,
    with a pause of `try_delay` seconds after every failing call but the last,
    and the last call's exception is re-raised unchanged.

    The wrapped operation is an oracle `op` that gives the outcome of its
    `i`-th call (counting from 0) within one wrapped call; pauses are
    recorded as `Sleep` events in the call's trace instead of taking time. */
module Retry {

  /** What one call of the operation did. */
  datatype Outcome<+T, +E> = Returned(value: T) | Raised(error: E)

  /** What one wrapped call is observed to do, in order. */
  datatype Event = Attempt | Sleep(seconds: real)

  datatype ConfigError = ValueError(message: string)

  /** The configuration a decorator built by `retry` captures. */
  datatype Retrier = Retrier(tries: nat, tryDelay: real) {
    predicate Valid() { tries > 0 && tryDelay >= 0.0 }
  }

  /** What `retry(tries, try_delay)` gives: a decorator, or the ValueError it raises. */
  datatype Built = Built(retrier: Retrier) | Refused(error: ConfigError)

  /** The outcome of one wrapped call together with its trace of events. */
  datatype Run<+T, +E> = Run(outcome: Outcome<T, E>, trace: seq<Event>)

  /** `retry(tries, try_delay=1)`: a decorator exactly when `tries > 0` and
      `try_delay >= 0`; otherwise the ValueError of the first check that fails.
      No operation is involved, so none is wrapped or called on refusal. */
  function MakeRetrier(tries: int, tryDelay: real := 1.0): (b: Built)
    ensures b.Built? <==> tries > 0 && tryDelay >= 0.0
    ensures b.Built? ==> b.retrier.Valid() && b.retrier.tries == tries && b.retrier.tryDelay == tryDelay
    ensures tries <= 0 ==> b == Refused(ValueError("tries must be greater than 0"))
    ensures tries > 0 && tryDelay < 0.0 ==> b == Refused(ValueError("try_delay must be greater than 1"))
  {
    if tries <= 0 then Refused(ValueError("tries must be greater than 0"))
    else if tryDelay < 0.0 then Refused(ValueError("try_delay must be greater than 1"))
    else Built(Retrier(tries, tryDelay))
  }

  /** The rest of a wrapped call when `done` calls have failed and `ftries`
      remain: call once; stop on a return or when this was the last try;
      otherwise pause and go on. */
  function Remaining<T, E>(op: nat -> Outcome<T, E>, delay: real, done: nat, ftries: nat): Run<T, E>
    requires ftries >= 1
    decreases ftries
  {
    var o := op(done);
    if o.Returned? || ftries == 1 then Run(o, [Attempt])
    else
      var rest := Remaining(op, delay, done + 1, ftries - 1);
      Run(rest.outcome, [Attempt, Sleep(delay)] + rest.trace)
  }

  /** One call of the decorated operation: its counter starts at `tries`. */
  function WrappedCall<T, E>(rt: Retrier, op: nat -> Outcome<T, E>): Run<T, E>
    requires rt.Valid()
  {
    Remaining(op, rt.tryDelay, 0, rt.tries)
  }

  /** The trace of `n` calls with a pause of `delay` between consecutive ones. */
  function Schedule(n: nat, delay: real): seq<Event>
    requires n >= 1
    decreases n
  {
    if n == 1 then [Attempt] else [Attempt, Sleep(delay)] + Schedule(n - 1, delay)
  }

  function Calls(trace: seq<Event>): nat {
    if trace == [] then 0 else (if trace[0] == Attempt then 1 else 0) + Calls(trace[1..])
  }

  function Sleeps(trace: seq<Event>): nat {
    if trace == [] then 0 else (if trace[0].Sleep? then 1 else 0) + Sleeps(trace[1..])
  }

  /** `n` calls take `n - 1` pauses, all of `delay` seconds; the trace starts
      and ends with a call, so nothing is slept after the last one. */
  lemma {:induction false} ScheduleCounts(n: nat, delay: real)
    requires n >= 1
    ensures Calls(Schedule(n, delay)) == n
    ensures Sleeps(Schedule(n, delay)) == n - 1
    ensures |Schedule(n, delay)| == 2 * n - 1
    ensures Schedule(n, delay)[0] == Attempt
    ensures Schedule(n, delay)[|Schedule(n, delay)| - 1] == Attempt
    ensures forall i :: 0 <= i < |Schedule(n, delay)| ==> Schedule(n, delay)[i] in {Attempt, Sleep(delay)}
    decreases n
  {
    if n > 1 {
      ScheduleCounts(n - 1, delay);
      var s := Schedule(n, delay);
      assert s[1..] == [Sleep(delay)] + Schedule(n - 1, delay);
      assert s[1..][1..] == Schedule(n - 1, delay);
    }
  }

  /** How many of the calls from `done` on raise before one returns or the
      last of `ftries` tries is reached. */
  function FailuresBefore<T, E>(op: nat -> Outcome<T, E>, done: nat, ftries: nat): (k: nat)
    requires ftries >= 1
    ensures k < ftries
    ensures forall j :: done <= j < done + k ==> op(j).Raised?
    ensures op(done + k).Returned? || k == ftries - 1
    decreases ftries
  {
    if op(done).Returned? || ftries == 1 then 0 else 1 + FailuresBefore(op, done + 1, ftries - 1)
  }

  /** When the calls from `done` on fail `k` times and the next one returns,
      or is the last try, the rest of the wrapped call makes exactly `k + 1`
      calls and surfaces that call's outcome. */
  lemma {:induction false} RemainingStopsAt<T, E>(op: nat -> Outcome<T, E>, delay: real, done: nat, ftries: nat, k: nat)
    requires k < ftries
    requires forall j :: done <= j < done + k ==> op(j).Raised?
    requires op(done + k).Returned? || k == ftries - 1
    ensures Remaining(op, delay, done, ftries) == Run(op(done + k), Schedule(k + 1, delay))
    decreases k
  {
    if k > 0 {
      assert op(done).Raised?;
      RemainingStopsAt(op, delay, done + 1, ftries - 1, k - 1);
    }
  }

  /** Every wrapped call stops after some `n` calls, 1 <= n <= tries: all calls
      before the last raised, the last call's outcome is surfaced unchanged,
      it raised only if it was try number `tries`, and the trace is `n` calls
      with pauses of `try_delay` between them. */
  lemma RemainingCharacterised<T, E>(op: nat -> Outcome<T, E>, delay: real, done: nat, ftries: nat)
    requires ftries >= 1
    ensures var run := Remaining(op, delay, done, ftries);
            var n := Calls(run.trace);
            && 1 <= n <= ftries
            && run.trace == Schedule(n, delay)
            && run.outcome == op(done + n - 1)
            && (forall j :: done <= j < done + n - 1 ==> op(j).Raised?)
            && (run.outcome.Raised? ==> n == ftries)
  {
    var k := FailuresBefore(op, done, ftries);
    RemainingStopsAt(op, delay, done, ftries, k);
    ScheduleCounts(k + 1, delay);
  }

  /** An operation that returns on its first call is called once, with no pause. */
  lemma FirstCallReturns<T, E>(rt: Retrier, op: nat -> Outcome<T, E>)
    requires rt.Valid() && op(0).Returned?
    ensures WrappedCall(rt, op) == Run(op(0), [Attempt])
    ensures Calls(WrappedCall(rt, op).trace) == 1 && Sleeps(WrappedCall(rt, op).trace) == 0
  {
    ScheduleCounts(1, rt.tryDelay);
  }

  /** An operation that raises `k < tries` times and then returns is called
      `k + 1` times with `k` pauses of `try_delay`, and its value is returned. */
  lemma ReturnsAfterFailures<T, E>(rt: Retrier, op: nat -> Outcome<T, E>, k: nat)
    requires rt.Valid() && k < rt.tries
    requires forall j :: 0 <= j < k ==> op(j).Raised?
    requires op(k).Returned?
    ensures WrappedCall(rt, op) == Run(op(k), Schedule(k + 1, rt.tryDelay))
    ensures Calls(WrappedCall(rt, op).trace) == k + 1 && Sleeps(WrappedCall(rt, op).trace) == k
  {
    RemainingStopsAt(op, rt.tryDelay, 0, rt.tries, k);
    ScheduleCounts(k + 1, rt.tryDelay);
  }

  /** An operation that always raises is called exactly `tries` times with
      `tries - 1` pauses, and the last call's error is re-raised unchanged. */
  lemma AlwaysRaises<T, E>(rt: Retrier, op: nat -> Outcome<T, E>)
    requires rt.Valid()
    requires forall j :: 0 <= j < rt.tries ==> op(j).Raised?
    ensures WrappedCall(rt, op) == Run(Raised(op(rt.tries - 1).error), Schedule(rt.tries, rt.tryDelay))
    ensures Calls(WrappedCall(rt, op).trace) == rt.tries
    ensures Sleeps(WrappedCall(rt, op).trace) == rt.tries - 1
  {
    RemainingStopsAt(op, rt.tryDelay, 0, rt.tries, rt.tries - 1);
    ScheduleCounts(rt.tries, rt.tryDelay);
  }

  /** A wrapped call depends only on the outcomes of the calls it makes: two
      operations that agree on those calls give the same run. */
  lemma {:induction false} OnlyMadeCallsMatter<T, E>(op1: nat -> Outcome<T, E>, op2: nat -> Outcome<T, E>, delay: real, done: nat, ftries: nat)
    requires ftries >= 1
    requires forall j :: done <= j < done + Calls(Remaining(op1, delay, done, ftries).trace) ==> op1(j) == op2(j)
    ensures Remaining(op2, delay, done, ftries) == Remaining(op1, delay, done, ftries)
    decreases ftries
  {
    RemainingCharacterised(op1, delay, done, ftries);
    assert op1(done) == op2(done);
    if op1(done).Raised? && ftries > 1 {
      var rest := Remaining(op1, delay, done + 1, ftries - 1);
      assert Remaining(op1, delay, done, ftries).trace == [Attempt, Sleep(delay)] + rest.trace;
      assert Calls(Remaining(op1, delay, done, ftries).trace) == 1 + Calls(rest.trace) by {
        var t := [Attempt, Sleep(delay)] + rest.trace;
        assert t[1..][1..] == rest.trace;
      }
      OnlyMadeCallsMatter(op1, op2, delay, done + 1, ftries - 1);
    }
  }

  /** The decorated operation, called once: `ftries` starts at `tries`, every
      failing call but the last sleeps `try_delay` and decrements it, and the
      loop ends by returning the operation's value or re-raising its error. */
  /** Appending a call and then a pause to the trace so far leaves room for
      the rest of the wrapped call exactly as `Remaining` lays it out. */
  lemma PauseBetween(sofar: seq<Event>, delay: real, rest: seq<Event>)
    ensures sofar + ([Attempt, Sleep(delay)] + rest) == (sofar + [Attempt]) + [Sleep(delay)] + rest
  {
  }

  method Call<T, E>(rt: Retrier, op: nat -> Outcome<T, E>) returns (result: Outcome<T, E>, trace: seq<Event>)
    requires rt.Valid()
    ensures Run(result, trace) == WrappedCall(rt, op)
  {
    var ftries, fdelay := rt.tries, rt.tryDelay;
    trace := [];
    while ftries > 0
      invariant 1 <= ftries <= rt.tries
      invariant WrappedCall(rt, op).outcome == Remaining(op, fdelay, rt.tries - ftries, ftries).outcome
      invariant WrappedCall(rt, op).trace == trace + Remaining(op, fdelay, rt.tries - ftries, ftries).trace
      decreases ftries
    {
      var o := op(rt.tries - ftries);
      ghost var done, sofar := rt.tries - ftries, trace;
      trace := trace + [Attempt];
      // a returned value is handed back; the last try's exception is re-raised
      if o.Returned? || ftries == 1 {
        assert Remaining(op, fdelay, done, ftries) == Run(o, [Attempt]);
        return o, trace;
      }
      ghost var rest := Remaining(op, fdelay, done + 1, ftries - 1);
      assert Remaining(op, fdelay, done, ftries).trace == [Attempt, Sleep(fdelay)] + rest.trace;
      PauseBetween(sofar, fdelay, rest.trace);
      trace := trace + [Sleep(fdelay)];
      ftries := ftries - 1;
    }
    assert false;
  }
}
