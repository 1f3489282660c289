/**
 The bounded retry loop around every platform call (sau/http.py).
 */
module Retries {

  /** How one call ends: it may raise a PlatformError, a TransportError or something else. */
  datatype Try<+T> =
    | Success(value: T)
    | PlatformFailure(retryable: bool, message: string)
    | TransportFailure(message: string)
    | OtherFailure(message: string)

  predicate Again<T>(t: Try<T>) {
    t.TransportFailure? || (t.PlatformFailure? && t.retryable)
  }

  const ATTEMPTS := 5

  /** How many calls are made when the calls would end as `script` says. */
  function Calls<T>(attempts: nat, script: seq<Try<T>>): (n: nat)
    requires attempts <= |script|
    ensures n <= attempts && (attempts > 0 ==> n > 0)
  {
    if attempts == 0 then 0
    else
      var before := Calls(attempts - 1, script);
      if before < attempts - 1 || (attempts > 1 && !Again(script[before - 1])) then before else attempts
  }

  /** How a retried operation ends when its calls would end as `script` says. */
  function Outcome<T>(script: seq<Try<T>>): Try<T>
    requires |script| >= ATTEMPTS
  {
    script[Calls(ATTEMPTS, script) - 1]
  }

  /**
   Everything about the number of calls: none without attempts; otherwise every call but the last
   failed retryably, and the last did too only if there were no attempts left.
   */
  predicate CallsAre<T>(attempts: nat, script: seq<Try<T>>, n: nat)
    requires attempts <= |script|
  {
    if attempts == 0 then n == 0
    else
      && 1 <= n <= attempts && (forall i :: 0 <= i < n - 1 ==> Again(script[i]))
      && (Again(script[n - 1]) ==> n == attempts)
  }

  lemma {:induction false} CallsCharacterised<T>(attempts: nat, script: seq<Try<T>>, n: nat)
    requires attempts <= |script|
    ensures CallsAre(attempts, script, n) <==> n == Calls(attempts, script)
    decreases attempts
  {
    if attempts > 0 {
      var before := Calls(attempts - 1, script);
      CallsCharacterised(attempts - 1, script, before);
      if n != Calls(attempts, script) && CallsAre(attempts, script, n) && n < attempts {
        CallsCharacterised(attempts - 1, script, n);
      }
    }
  }

  /** The result is the last call's; with no attempts at all it is a ValueError. */
  method WithRetries<T>(attempts: int, script: seq<Try<T>>) returns (r: Try<T>, calls: nat)
    requires attempts <= |script|
    ensures attempts < 1 ==> calls == 0 && r == OtherFailure("attempts must be at least 1")
    ensures attempts >= 1 ==> CallsAre(attempts, script, calls) && 1 <= calls <= attempts && r == script[calls - 1]
    ensures forall i :: 0 <= i < calls - 1 ==>
              script[i].TransportFailure? || (script[i].PlatformFailure? && script[i].retryable)
    ensures 1 <= calls < attempts ==> r.Success? || r.OtherFailure? || (r.PlatformFailure? && !r.retryable)
  {
    calls := 0;
    var lastError: seq<Try<T>> := [];
    for attempt := 0 to if attempts < 0 then 0 else attempts
      invariant calls == attempt && (attempt == 0 <==> lastError == [])
      invariant forall i :: 0 <= i < attempt ==> Again(script[i])
      invariant attempt > 0 ==> lastError == [script[attempt - 1]]
    {
      calls := calls + 1;
      if !Again(script[attempt]) {
        return script[attempt], calls;
      }
      lastError := [script[attempt]];
    }
    if lastError == [] {
      return OtherFailure("attempts must be at least 1"), calls;
    }
    return lastError[0], calls;
  }

  /** An operation succeeds when one of its first five calls does, and those before it failed retryably. */
  lemma SucceedsWithinFiveCalls<T>(script: seq<Try<T>>)
    requires |script| >= 5
    ensures Outcome(script).Success? <==>
            exists n :: 0 <= n < 5 && script[n].Success?
                        && forall i :: 0 <= i < n ==>
                             script[i].TransportFailure? || (script[i].PlatformFailure? && script[i].retryable)
  {
    var calls := Calls(5, script);
    CallsCharacterised(5, script, calls);
    if n :| 0 <= n < 5 && script[n].Success? && forall i :: 0 <= i < n ==> Again(script[i]) {
      CallsCharacterised(5, script, n + 1);
    }
  }

  /** `with_retries` with its default number of attempts. */
  method Retried<T>(script: seq<Try<T>>) returns (r: Try<T>)
    requires |script| >= 5
    ensures r == Outcome(script)
  {
    var calls: nat;
    r, calls := WithRetries(ATTEMPTS, script);
    CallsCharacterised(ATTEMPTS, script, calls);
  }
}
