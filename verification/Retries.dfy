/** The transcription retry loop and the arithmetic that keeps it under the stale cutoff. */
module TranscriptionRetries {
  import opened Common
  import opened Transcripts
  import opened Calls
  import opened Orchestration

  const RETRY_ATTEMPTS := 3
  const BACKOFF: seq<int> := [1, 4, 16]
  const READ_TIMEOUT := 660

  datatype Answer = Transcribed(transcript: Transcript) | Transient | Permanent(detail: string)

  datatype TranscriptionError = TooLarge | Refused(detail: string) | Exhausted

  function Sum(delays: seq<int>): int {
    if delays == [] then 0 else Sum(delays[..|delays| - 1]) + delays[|delays| - 1]
  }

  /** What the provider's answers decide: the first one that is not transient, among the first three. */
  ghost predicate Decides(provider: nat -> Answer, calls: nat, r: Result<Transcript, TranscriptionError>) {
    && 1 <= calls <= RETRY_ATTEMPTS
    && (forall i: nat :: i < calls - 1 ==> provider(i).Transient?)
    && (match provider(calls - 1)
        case Transcribed(transcript) => r == Ok(transcript)
        case Permanent(detail) => r == Err(Refused(detail))
        case Transient => calls == RETRY_ATTEMPTS && r == Err(Exhausted))
  }

  /** The service's policy: the size guard comes before any provider call; then up to three
      attempts, with a sleep after every transient answer but the last. */
  method Transcribe(provider: nat -> Answer, sizeBytes: nat, maxBytes: nat)
    returns (r: Result<Transcript, TranscriptionError>, calls: nat, sleeps: seq<int>)
    ensures sizeBytes > maxBytes ==> r == Err(TooLarge) && calls == 0 && sleeps == []
    ensures sizeBytes <= maxBytes ==> Decides(provider, calls, r) && sleeps == BACKOFF[..calls - 1]
  {
    calls, sleeps := 0, [];
    if sizeBytes > maxBytes {
      return Err(TooLarge), calls, sleeps;
    }
    for attempt := 0 to RETRY_ATTEMPTS
      invariant calls == attempt
      invariant forall i: nat :: i < attempt ==> provider(i).Transient?
      invariant sleeps == BACKOFF[..if attempt < RETRY_ATTEMPTS then attempt else RETRY_ATTEMPTS - 1]
    {
      var answer := provider(attempt);
      calls := calls + 1;
      match answer
      case Transient =>
        if attempt < RETRY_ATTEMPTS - 1 {
          sleeps := sleeps + [BACKOFF[attempt]];
        }
      case Permanent(detail) => return Err(Refused(detail)), calls, sleeps;
      case Transcribed(transcript) => return Ok(transcript), calls, sleeps;
    }
    r := Err(Exhausted);
  }

  /** The policy is determined: one number of calls, one result. */
  lemma DecisionIsUnique(provider: nat -> Answer, c1: nat, r1: Result<Transcript, TranscriptionError>,
                         c2: nat, r2: Result<Transcript, TranscriptionError>)
    requires Decides(provider, c1, r1) && Decides(provider, c2, r2)
    ensures c1 == c2 && r1 == r2
  {
    var earlier := provider(Min(c1, c2) - 1);
  }

  /** The policy in full: the first answer that is not transient, up to the third; sleeps of 1 s and
      4 s before the second and the third call. */
  lemma PolicyInFull(provider: nat -> Answer, calls: nat, r: Result<Transcript, TranscriptionError>)
    requires Decides(provider, calls, r)
    ensures !provider(0).Transient? ==> calls == 1
    ensures provider(0).Transient? && !provider(1).Transient? ==> calls == 2
    ensures provider(0).Transient? && provider(1).Transient? ==> calls == 3
    ensures provider(calls - 1).Transcribed? ==> r == Ok(provider(calls - 1).transcript)
    ensures provider(calls - 1).Permanent? ==> r == Err(Refused(provider(calls - 1).detail))
    ensures provider(0).Transient? && provider(1).Transient? && provider(2).Transient? ==> r == Err(Exhausted)
    ensures BACKOFF[..calls - 1] == if calls == 1 then [] else if calls == 2 then [1] else [1, 4]
  {
  }

  /** The time all attempts and sleeps take. */
  function Elapsed(durations: seq<int>, sleeps: seq<int>): int {
    Sum(durations) + Sum(sleeps)
  }

  lemma {:induction false} SumBound(xs: seq<int>, most: int)
    requires forall i :: 0 <= i < |xs| ==> xs[i] <= most
    ensures Sum(xs) <= |xs| * most
  {
    if xs != [] {
      SumBound(xs[..|xs| - 1], most);
    }
  }

  lemma {:induction false} SumNotNegative(xs: seq<int>)
    requires forall i :: 0 <= i < |xs| ==> xs[i] >= 0
    ensures Sum(xs) >= 0
  {
    if xs != [] {
      SumNotNegative(xs[..|xs| - 1]);
    }
  }

  lemma SleepsTotal()
    ensures Sum(BACKOFF[..0]) == 0 && Sum(BACKOFF[..1]) == 1 && Sum(BACKOFF[..2]) == 5
  {
    assert BACKOFF[..2][..1] == [1] && BACKOFF[..1][..0] == [];
    assert Sum(BACKOFF[..1]) == 1;
  }

  /** The whole policy takes at most 1985 s, when no attempt takes longer than its read timeout. */
  lemma PolicyTime(durations: seq<int>)
    requires 1 <= |durations| <= RETRY_ATTEMPTS
    requires forall i :: 0 <= i < |durations| ==> 0 <= durations[i] <= READ_TIMEOUT
    ensures 0 <= Elapsed(durations, BACKOFF[..|durations| - 1]) <= 1985
  {
    SumBound(durations, READ_TIMEOUT);
    SumNotNegative(durations);
    SleepsTotal();
  }

  /** 415 s is the exact reserve: with one second more, the slowest policy is overdue at its end. */
  lemma TheReserveIsTight(cfg: Config, row: Row)
    requires row.status.Processing?
    ensures Elapsed([READ_TIMEOUT, READ_TIMEOUT, READ_TIMEOUT], BACKOFF[..2]) == 1985
    ensures !OverdueAt(cfg, row, row.updatedAt + 415 + 1985)
    ensures OverdueAt(cfg, row, row.updatedAt + 416 + 1985)
  {
    var d := [READ_TIMEOUT, READ_TIMEOUT, READ_TIMEOUT];
    assert d[..2][..1] == d[..1] && d[..1][..0] == [];
    assert Sum(d[..1]) == READ_TIMEOUT && Sum(d[..2]) == 2 * READ_TIMEOUT;
    assert BACKOFF[..2][..1] == BACKOFF[..1] && BACKOFF[..1][..0] == [];
    assert Sum(BACKOFF[..1]) == 1;
  }
}

/** The webhook delivery loop. */
module WebhookDelivery {
  import opened Common
  import opened Calls
  import opened Orchestration
  import opened TranscriptionRetries

  const DEFAULT_BACKOFF: seq<int> := [1, 4, 16, 64, 256]

  /** An HTTP status, or no answer at all. */
  datatype Response = Status(code: int) | NetworkError
  {
    predicate Accepted() {
      Status? && 200 <= code < 300
    }

    predicate Retryable() {
      NetworkError? || (code >= 500)
    }
  }

  function Backoff(attempt: nat): int {
    DEFAULT_BACKOFF[Min(attempt, |DEFAULT_BACKOFF| - 1)]
  }

  function Backoffs(n: nat): seq<int> {
    seq(n, i requires 0 <= i < n => Backoff(i))
  }

  /** The loop ends with attempt `n`: all before it were retryable, and it is final or the last. */
  ghost predicate EndsWith(receiver: nat -> Response, max: nat, n: nat) {
    && n <= max
    && (forall i: nat :: i < n - 1 ==> receiver(i).Retryable())
    && (n == 0 ==> max == 0)
    && (n > 0 && receiver(n - 1).Retryable() ==> n == max)
  }

  class Dispatcher {
    var call: Row

    constructor (call: Row)
      ensures this.call == call
    {
      this.call := call;
    }

    /** Delivers the terminal webhook. Every attempt counts on the row; an acceptance stamps it. */
    method Deliver(receiver: nat -> Response, max: nat, now: int)
      returns (delivered: bool, attempts: nat, sleeps: seq<int>)
      modifies this
      ensures old(call).webhookDeliveredAt.Some? ==> delivered && attempts == 0 && sleeps == [] && call == old(call)
      ensures old(call).webhookDeliveredAt.None? ==>
        && EndsWith(receiver, max, attempts)
        && delivered == (attempts > 0 && receiver(attempts - 1).Accepted())
        && sleeps == Backoffs(if attempts > 0 then attempts - 1 else 0)
        && call == old(call).(webhookAttempts := old(call).webhookAttempts + attempts,
                              webhookDeliveredAt := if delivered then Some(now) else None)
    {
      delivered, attempts, sleeps := false, 0, [];
      if call.webhookDeliveredAt.Some? {
        return true, 0, [];
      }
      while attempts < max
        invariant attempts <= max
        invariant forall i: nat :: i < attempts ==> receiver(i).Retryable()
        invariant sleeps == Backoffs(if attempts == 0 then 0 else if attempts < max then attempts else attempts - 1)
        invariant call == old(call).(webhookAttempts := old(call).webhookAttempts + attempts)
      {
        var response := receiver(attempts);
        attempts := attempts + 1;
        call := call.(webhookAttempts := call.webhookAttempts + 1);
        if response.Status? {
          if 200 <= response.code < 300 {
            call := call.(webhookDeliveredAt := Some(now));
            return true, attempts, sleeps;
          }
          if response.code < 500 {
            return false, attempts, sleeps;
          }
        }
        if attempts < max {
          sleeps := sleeps + [DEFAULT_BACKOFF[Min(attempts - 1, |DEFAULT_BACKOFF| - 1)]];
        }
      }
    }
  }

  /** Where the loop ends is determined by the answers and the maximum. */
  lemma EndIsUnique(receiver: nat -> Response, max: nat, m: nat, n: nat)
    requires EndsWith(receiver, max, m) && EndsWith(receiver, max, n)
    ensures m == n
  {
    if m > 0 && n > 0 {
      var earlier := receiver(Min(m, n) - 1);
    }
  }

  /** The loop in full: it goes on after a network error or a 5xx only, a 2xx delivers, and every
      other answer ends it undelivered. */
  lemma DeliveryInFull(receiver: nat -> Response, max: nat, n: nat)
    requires EndsWith(receiver, max, n)
    ensures forall i: nat :: i < n - 1 ==> receiver(i).NetworkError? || receiver(i).code >= 500
    ensures 0 < n < max ==> receiver(n - 1).Status? && receiver(n - 1).code < 500
    ensures n == 0 <==> max == 0
    ensures n > 0 ==>
      (receiver(n - 1).Accepted() <==> receiver(n - 1).Status? && 200 <= receiver(n - 1).code <= 299)
    ensures max > 0 && receiver(0).Status? && receiver(0).code < 500 ==> n == 1
    ensures max > 1 && (receiver(0).NetworkError? || receiver(0).code >= 500) ==> n > 1
  {
  }

  /** The sleeps between attempts, in seconds. */
  lemma SleepsInFull(n: nat)
    ensures |Backoffs(n)| == n
    ensures forall i :: 0 <= i < n ==>
      Backoffs(n)[i] == if i == 0 then 1 else if i == 1 then 4 else if i == 2 then 16 else if i == 3 then 64 else 256
  {
  }

  // The same loop as steps of the protocol

  function ReplyTo(response: Response): Reply {
    if response.Accepted() then Reply.Accepted
    else if response.Retryable() then Reply.Unavailable
    else Reply.Rejected
  }

  /** The protocol's posts for the first `n` answers. */
  function Posts(cfg: Config, c: Call, receiver: nat -> Response, n: nat, now: int): Option<Call> {
    if n == 0 then Some(c)
    else
      match Posts(cfg, c, receiver, n - 1, now)
      case None => None
      case Some(before) => Posted(cfg, before, ReplyTo(receiver(n - 1)), now)
  }

  lemma {:induction false} PostsSoFar(cfg: Config, c: Call, receiver: nat -> Response, n: nat, now: int)
    requires c.lock == Some(Delivery(now, 0, cfg.webhookMaxAttempts == 0, None))
    requires n <= cfg.webhookMaxAttempts && forall i: nat :: i < n - 1 ==> receiver(i).Retryable()
    ensures var r := Posts(cfg, c, receiver, n, now);
      && r.Some? && r.value.row == c.row
      && r.value.lock == Some(Delivery(now, n,
           n == cfg.webhookMaxAttempts || (n > 0 && !receiver(n - 1).Retryable()),
           if n > 0 && receiver(n - 1).Accepted() then Some(now) else None))
  {
    if n > 0 {
      PostsSoFar(cfg, c, receiver, n - 1, now);
    }
  }

  /** The delivery loop and the protocol agree: the loop stops exactly when the protocol allows
      no further post, and the commit leaves the row that the loop leaves, with a fresh
      `updatedAt` if there was any attempt. */
  lemma DeliveryFollowsTheProtocol(cfg: Config, c: Call, receiver: nat -> Response, n: nat, now: int)
    requires c.due > 0 && c.row.status.Terminal() && c.row.webhookDeliveredAt.None? && c.lock.None?
    requires EndsWith(receiver, cfg.webhookMaxAttempts, n)
    ensures var begun := DispatchBegun(cfg, c, now);
      && begun.Some?
      && var over := Posts(cfg, begun.value, receiver, n, now);
         && over.Some?
         && (forall reply :: Posted(cfg, over.value, reply, now).None?)
         && var r := DeliveryEnded(over.value);
            && r.Some?
            && r.value.row == c.row.(webhookAttempts := c.row.webhookAttempts + n,
                                     webhookDeliveredAt := if n > 0 && receiver(n - 1).Accepted() then Some(now) else None,
                                     updatedAt := if n > 0 then now else c.row.updatedAt)
  {
    PostsSoFar(cfg, DispatchBegun(cfg, c, now).value, receiver, n, now);
  }

  function Pow4(k: nat): int {
    if k == 0 then 1 else 4 * Pow4(k - 1)
  }

  /** The total backoff of `n` sleeps: the geometric sum up to five of them, then 256 s for each further one. */
  lemma {:induction false} BackoffTotal(n: nat)
    ensures var k := Min(n, |DEFAULT_BACKOFF|);
      3 * Sum(Backoffs(n)) == Pow4(k) - 1 + 3 * 256 * (n - k)
  {
    if n > 0 {
      BackoffTotal(n - 1);
      assert Backoffs(n)[..n - 1] == Backoffs(n - 1);
      assert Pow4(1) == 4 && Pow4(2) == 16;
      assert Pow4(3) == 64 && Pow4(4) == 256 && Pow4(5) == 1024;
    }
  }
}
