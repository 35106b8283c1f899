/**
 The Anthropic credential latch (app/core/llm.py): a rejected credential disables the provider for a
 cooldown, everything else passes through untouched.
 */
module CredentialLatch {
  import opened Common

  const COOLDOWN := 900
  const AUTH_STATUS_CODES := {401, 403}

  /** An exception, by the features the code looks at. */
  datatype Error = Error(
    isValueError: bool, mentionsAnthropicKey: bool, mentionsOpenAiKey: bool,
    status: Option<int>, responseStatus: Option<int>, typeName: string)

  datatype Outcome<T> = Value(value: T) | Raises(error: Error) | NoProviderLeft

  predicate IsAuthFailure(e: Error) {
    || (e.isValueError && e.mentionsAnthropicKey)
    || (e.status.Some? && e.status.value in AUTH_STATUS_CODES)
    || (e.responseStatus.Some? && e.responseStatus.value in AUTH_STATUS_CODES)
    || e.typeName in {"AuthenticationError", "PermissionDeniedError"}
  }

  /** An HTTP failure that says what is wrong by its status alone. */
  predicate PlainHttp(e: Error) {
    && !e.isValueError && e.status.Some? && e.responseStatus in {None, e.status}
    && e.typeName !in {"AuthenticationError", "PermissionDeniedError"}
  }

  /** Such a failure is about the credential iff it is a 401 or a 403: not a 400, a 429 or any 5xx. */
  lemma StatusDecides(e: Error)
    requires PlainHttp(e)
    ensures IsAuthFailure(e) <==> e.status.value == 401 || e.status.value == 403
  {
  }

  /** A key that is not set is a credential failure, whatever else the error carries; a missing OpenAI key is not. */
  lemma MissingKeyDecides(e: Error)
    requires e.isValueError && e.status.None? && e.responseStatus.None? && e.typeName == "ValueError"
    ensures IsAuthFailure(e) <==> e.mentionsAnthropicKey
  {
  }

  predicate Rejected<T>(o: Outcome<T>) {
    o.Raises? && IsAuthFailure(o.error)
  }

  /** What the caller sees of the fallback: a missing OpenAI key is reported as one clear error. */
  function FallbackOutcome<T>(fallback: Outcome<T>): Outcome<T> {
    if fallback.Raises? && fallback.error.isValueError && fallback.error.mentionsOpenAiKey
    then NoProviderLeft else fallback
  }

  /** A fallback that cannot run for want of its own key is reported as such, and any other outcome as it is. */
  lemma OnlyAMissingKeyIsReworded<T>(fallback: Outcome<T>)
    ensures FallbackOutcome(fallback) != fallback ==>
      fallback.Raises? && fallback.error.isValueError && FallbackOutcome(fallback).NoProviderLeft?
    ensures fallback.Raises? && fallback.error.isValueError && fallback.error.mentionsOpenAiKey ==>
      FallbackOutcome(fallback).NoProviderLeft?
    ensures fallback.Raises? && !fallback.error.mentionsOpenAiKey ==> FallbackOutcome(fallback) == fallback
  {
  }

  /** One call in a sequential run: when it starts, when its Anthropic attempt ends, and both outcomes. */
  datatype Call<T> = Call(start: int, end: int, attempt: Outcome<T>, fallback: Outcome<T>)

  class Latch {
    var disabledUntil: int

    constructor ()
      ensures disabledUntil == 0
    {
      disabledUntil := 0;
    }

    predicate Available(anthropicModel: bool, keySet: bool, now: int)
      reads this
    {
      anthropicModel && keySet && now >= disabledUntil
    }

    method WithFallback<T>(attempt: Outcome<T>, fallback: Outcome<T>, now: int) returns (r: Outcome<T>)
      modifies this
      ensures !Rejected(attempt) ==> r == attempt && disabledUntil == old(disabledUntil)
      ensures Rejected(attempt) ==> r == FallbackOutcome(fallback) && disabledUntil == now + COOLDOWN
    {
      if !attempt.Raises? || !IsAuthFailure(attempt.error) {
        return attempt;
      }
      disabledUntil := now + COOLDOWN;
      if fallback.Raises? && fallback.error.isValueError && fallback.error.mentionsOpenAiKey {
        return NoProviderLeft;
      }
      return fallback;
    }

    /** Any entry point, for an Anthropic model with a key configured. */
    method Serve<T>(c: Call<T>) returns (r: Outcome<T>)
      modifies this
      ensures disabledUntil == Until(old(disabledUntil), [c])
      ensures r == if Tried(old(disabledUntil), c) && !Rejected(c.attempt) then c.attempt
                   else if Tried(old(disabledUntil), c) then FallbackOutcome(c.fallback) else c.fallback
    {
      assert [c][..0] == [];
      if Available(true, true, c.start) {
        r := WithFallback(c.attempt, c.fallback, c.end);
      } else {
        r := c.fallback;
      }
    }
  }

  predicate Tried<T>(until: int, c: Call<T>) {
    c.start >= until
  }

  /** The latch after a run that began with it at `from`. */
  function Until<T>(from: int, calls: seq<Call<T>>): int {
    if calls == [] then from
    else
      var u, c := Until(from, calls[..|calls| - 1]), calls[|calls| - 1];
      if Tried(u, c) && Rejected(c.attempt) then c.end + COOLDOWN else u
  }

  /** How many rejected attempts the run paid for. */
  function Rejections<T>(from: int, calls: seq<Call<T>>): nat {
    if calls == [] then 0
    else
      var u, c := Until(from, calls[..|calls| - 1]), calls[|calls| - 1];
      Rejections(from, calls[..|calls| - 1]) + if Tried(u, c) && Rejected(c.attempt) then 1 else 0
  }

  ghost predicate Sequential<T>(calls: seq<Call<T>>) {
    && (forall i :: 0 <= i < |calls| ==> calls[i].start <= calls[i].end)
    && (forall i, j :: 0 <= i < j < |calls| ==> calls[i].end <= calls[j].start)
  }

  lemma {:induction false} LatchAdvances<T>(from: int, calls: seq<Call<T>>)
    requires Sequential(calls) && calls != []
    ensures Rejections(from, calls) > 0 ==>
      && calls[0].start + COOLDOWN * Rejections(from, calls) <= Until(from, calls)
      && Until(from, calls) <= calls[|calls| - 1].end + COOLDOWN
    ensures Rejections(from, calls) == 0 ==> Until(from, calls) == from
    decreases |calls|
  {
    var init := calls[..|calls| - 1];
    if init != [] { LatchAdvances(from, init); }
  }

  /** A bad key is paid for at most once per cooldown: at most floor(T / 900) + 1 times in a span of T. */
  lemma RejectedAttemptsAreBounded<T>(from: int, calls: seq<Call<T>>)
    requires Sequential(calls) && calls != []
    ensures var span := calls[|calls| - 1].end - calls[0].start;
            span >= 0 && Rejections(from, calls) <= span / COOLDOWN + 1
  {
    LatchAdvances(from, calls);
    assert calls[0].start <= calls[0].end <= calls[|calls| - 1].end;
  }

  /** A provider that is busy, broken or asked badly never sets the latch: every call still goes to it. */
  lemma {:induction false} OnlyCredentialsLatch<T>(from: int, calls: seq<Call<T>>)
    requires forall c :: c in calls && c.attempt.Raises? ==>
      PlainHttp(c.attempt.error) && c.attempt.error.status.value !in {401, 403}
    ensures Until(from, calls) == from && Rejections(from, calls) == 0
    decreases |calls|
  {
    if calls != [] {
      var last := calls[|calls| - 1];
      assert last in calls;
      if last.attempt.Raises? { StatusDecides(last.attempt.error); }
      OnlyCredentialsLatch(from, calls[..|calls| - 1]);
    }
  }

  function EveryCooldown(n: nat, bad: Error): seq<Call<int>> {
    seq(n + 1, i requires 0 <= i <= n => Call(COOLDOWN * i, COOLDOWN * i, Raises(bad), Value(0)))
  }

  /** The bound is attained: a caller that returns exactly as the cooldown ends is rejected each time. */
  lemma {:induction false} BoundIsAttained(n: nat, bad: Error)
    requires IsAuthFailure(bad)
    ensures Sequential(EveryCooldown(n, bad))
    ensures Rejections(0, EveryCooldown(n, bad)) == n + 1
    ensures Until(0, EveryCooldown(n, bad)) == COOLDOWN * (n + 1)
  {
    var calls := EveryCooldown(n, bad);
    if n == 0 {
      assert calls[..0] == [];
    } else {
      BoundIsAttained(n - 1, bad);
      assert calls[..n] == EveryCooldown(n - 1, bad);
    }
  }
}
