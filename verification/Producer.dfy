/** The unified publish entry point: bounded retry with capped exponential backoff, then the dead-letter topic. */
module Producer {
  import opened Common
  import opened EventLog
  import opened Consumer

  /** The event as it goes on the wire; `value` is its serialised envelope. */
  datatype Event = Event(tenantId: string, eventId: string, value: string, headers: seq<(string, string)>) {
    function Key(): string {
      tenantId + ":" + eventId
    }
  }

  datatype RetryPolicy = RetryPolicy(maxRetries: int, base: real, cap: real)

  datatype PublishResult =
    | Refused(message: string)
    | Published(attempt: nat)
    | Forwarded
    | UpstreamError(publishError: string, dlqError: string)

  function Pow2(n: nat): (r: real)
    ensures r >= 1.0
  {
    if n == 0 then 1.0 else 2.0 * Pow2(n - 1)
  }

  function Capped(p: RetryPolicy, sleeps: nat): real {
    p.cap * sleeps as real
  }

  function MinReal(a: real, b: real): real {
    if a <= b then a else b
  }

  function Doubled(p: RetryPolicy, k: nat): real {
    p.base * Pow2(k)
  }

  /** The seconds asked for after attempt `k` failed. */
  function Backoff(p: RetryPolicy, k: nat): real {
    MinReal(p.cap, Doubled(p, k))
  }

  function TotalBackoff(p: RetryPolicy, sleeps: nat): real {
    if sleeps == 0 then 0.0 else TotalBackoff(p, sleeps - 1) + Backoff(p, sleeps - 1)
  }

  lemma Distribute(a: real, x: real, y: real)
    ensures a * (x + y) == a * x + a * y
  {}

  lemma CappedGrows(p: RetryPolicy, sleeps: nat)
    ensures Capped(p, 0) == 0.0
    ensures Capped(p, sleeps + 1) == Capped(p, sleeps) + p.cap
  {
    Distribute(p.cap, sleeps as real, 1.0);
    assert (sleeps + 1) as real == sleeps as real + 1.0;
  }

  lemma {:induction false} CappedBound(p: RetryPolicy, sleeps: nat)
    ensures TotalBackoff(p, sleeps) <= Capped(p, sleeps)
  {
    if sleeps == 0 {
      CappedGrows(p, 0);
    } else {
      CappedBound(p, sleeps - 1);
      CappedGrows(p, sleeps - 1);
    }
  }

  lemma DoubledDoubles(p: RetryPolicy, k: nat)
    ensures Doubled(p, 0) == p.base
    ensures Doubled(p, k + 1) == Doubled(p, k) + Doubled(p, k)
  {
    var x := Pow2(k);
    assert Pow2(k + 1) == x + x;
    Distribute(p.base, x, x);
  }

  lemma {:induction false} GeometricBound(p: RetryPolicy, sleeps: nat)
    ensures TotalBackoff(p, sleeps) <= Doubled(p, sleeps) - p.base
  {
    if sleeps == 0 {
      DoubledDoubles(p, 0);
    } else {
      GeometricBound(p, sleeps - 1);
      DoubledDoubles(p, sleeps - 1);
    }
  }

  /** The first wait is the base and each next one twice the last, both cut off at the cap. */
  lemma BackoffDoubles(p: RetryPolicy, k: nat)
    requires p.base >= 0.0 && p.cap >= 0.0
    ensures Backoff(p, 0) == MinReal(p.cap, p.base)
    ensures Backoff(p, k + 1) == MinReal(p.cap, Backoff(p, k) + Backoff(p, k))
  {
    DoubledDoubles(p, k);
    assert Doubled(p, k) >= 0.0;
  }

  /** While no wait is cut off, the total is exactly the geometric sum. */
  lemma {:induction false} TotalIsGeometric(p: RetryPolicy, sleeps: nat)
    requires forall k: nat :: k < sleeps ==> Doubled(p, k) <= p.cap
    ensures TotalBackoff(p, sleeps) == Doubled(p, sleeps) - p.base
  {
    if sleeps == 0 {
      DoubledDoubles(p, 0);
    } else {
      TotalIsGeometric(p, sleeps - 1);
      DoubledDoubles(p, sleeps - 1);
      assert Doubled(p, sleeps - 1) <= p.cap;
    }
  }

  /** From the first wait that is cut off, each further one costs the cap. */
  lemma {:induction false} TotalIsCapped(p: RetryPolicy, first: nat, more: nat)
    requires p.base >= 0.0 && Doubled(p, first) >= p.cap
    ensures TotalBackoff(p, first + more) == TotalBackoff(p, first) + Capped(p, more)
  {
    if more == 0 {
      CappedGrows(p, 0);
    } else {
      TotalIsCapped(p, first, more - 1);
      DoubledGrows(p, first, first + more - 1);
      CappedGrows(p, more - 1);
    }
  }

  lemma {:induction false} DoubledGrows(p: RetryPolicy, i: nat, j: nat)
    requires p.base >= 0.0 && i <= j
    ensures 0.0 <= Doubled(p, i) <= Doubled(p, j)
  {
    if i < j {
      DoubledGrows(p, i, j - 1);
      DoubledDoubles(p, j - 1);
    }
  }

  /** Waiting longer only adds, for the non-negative policies in use. */
  lemma {:induction false} BackoffGrows(p: RetryPolicy, fewer: nat, more: nat)
    requires p.base >= 0.0 && p.cap >= 0.0 && fewer <= more
    ensures TotalBackoff(p, fewer) <= TotalBackoff(p, more)
  {
    if fewer < more {
      BackoffGrows(p, fewer, more - 1);
      assert Doubled(p, more - 1) >= 0.0;
    }
  }

  /** However many of the allowed attempts were used, the caller waits at most this long. */
  lemma DelayIsBounded(p: RetryPolicy, sleeps: nat, max: nat)
    requires p.base >= 0.0 && p.cap >= 0.0 && sleeps <= max
    ensures TotalBackoff(p, sleeps) <= Capped(p, max)
    ensures TotalBackoff(p, sleeps) <= Doubled(p, max) - p.base
  {
    BackoffGrows(p, sleeps, max);
    CappedBound(p, max);
    GeometricBound(p, max);
  }

  ghost predicate AllFail(sendError: nat -> Option<string>, attempts: nat) {
    forall k :: 0 <= k < attempts ==> sendError(k).Some?
  }

  function DlqHeaders(topic: string, e: Event, retries: nat, error: string): seq<(string, string)> {
    e.headers + [(ORIGINAL_TOPIC, topic), (RETRY_COUNT, Decimal(retries)), (ERROR_MESSAGE, error)]
  }

  /** The retry loop: at most `maxRetries + 1` sends, stopping at the first that works. */
  method SendWithRetry(t: InMemoryTransport, topic: string, e: Event, p: RetryPolicy, sendError: nat -> Option<string>)
    returns (sent: Option<nat>, lastError: string, slept: real)
    requires t.Valid() && p.maxRetries >= 0
    modifies t, t.topics.Values
    ensures t.Valid() && fresh(t.topics.Values - old(t.topics.Values))
    ensures sent.Some? ==>
              && sent.value <= p.maxRetries && AllFail(sendError, sent.value) && sendError(sent.value) == None
              && t.View() == AfterSend(old(t.View()), topic, Some(e.Key()), e.value, e.headers)
              && slept == TotalBackoff(p, sent.value)
    ensures sent.None? ==>
              && AllFail(sendError, p.maxRetries + 1) && sendError(p.maxRetries) == Some(lastError)
              && t.View() == old(t.View()) && slept == TotalBackoff(p, p.maxRetries)
  {
    lastError, slept := "", 0.0;
    for attempt := 0 to p.maxRetries + 1
      invariant t.Valid() && t.View() == old(t.View()) && t.topics == old(t.topics)
      invariant AllFail(sendError, attempt)
      invariant slept == TotalBackoff(p, if attempt <= p.maxRetries then attempt else p.maxRetries)
      invariant attempt > 0 ==> sendError(attempt - 1) == Some(lastError)
    {
      if sendError(attempt) == None {
        t.Send(topic, Some(e.Key()), e.value, e.headers);
        return Some(attempt), lastError, slept;
      }
      lastError := sendError(attempt).value;
      if attempt < p.maxRetries {
        slept := slept + Backoff(p, attempt);
      }
    }
    sent := None;
  }

  /**
   `sendError(k)` is the error of the k-th send, `dlqError` that of the forward; a failed send leaves
   nothing behind.  Exactly one of four things happens, and `slept` is the backoff spent on the way.
   */
  method PublishEvent(t: InMemoryTransport, topic: string, eventType: string, e: Option<Event>, p: RetryPolicy,
                      sendError: nat -> Option<string>, dlqError: Option<string>)
    returns (r: PublishResult, slept: real)
    requires t.Valid()
    modifies t, t.topics.Values
    ensures t.Valid()
    ensures r.Refused? <==> topic == "" || eventType == "" || p.maxRetries < 0 || e == None
    ensures r.Refused? ==> t.View() == old(t.View()) && slept == 0.0
    ensures r.Published? ==>
              && r.attempt <= p.maxRetries && AllFail(sendError, r.attempt) && sendError(r.attempt) == None
              && t.View() == AfterSend(old(t.View()), topic, Some(e.value.tenantId + ":" + e.value.eventId),
                                       e.value.value, e.value.headers)
              && slept == TotalBackoff(p, r.attempt)
    ensures r.Forwarded? || r.UpstreamError? ==>
              AllFail(sendError, p.maxRetries + 1) && slept == TotalBackoff(p, p.maxRetries)
    ensures r.Forwarded? ==>
              && dlqError == None
              && t.View() == AfterSend(old(t.View()), topic + ".dlq", Some(e.value.tenantId + ":" + e.value.eventId), e.value.value,
                                       DlqHeaders(topic, e.value, p.maxRetries, sendError(p.maxRetries).value))
    ensures r.UpstreamError? ==>
              dlqError == Some(r.dlqError) && sendError(p.maxRetries) == Some(r.publishError) && t.View() == old(t.View())
  {
    if topic == "" {
      return Refused("topic must be a non-empty string"), 0.0;
    }
    if eventType == "" {
      return Refused("event_type must be a non-empty string"), 0.0;
    }
    if p.maxRetries < 0 {
      return Refused("max_retries must be >= 0"), 0.0;
    }
    if e == None {
      return Refused("tenant_id is required"), 0.0;
    }
    var sent, lastError, waited := SendWithRetry(t, topic, e.value, p, sendError);
    slept := waited;
    if sent.Some? {
      return Published(sent.value), slept;
    }
    if dlqError.Some? {
      return UpstreamError(lastError, dlqError.value), slept;
    }
    t.Send(DlqName(topic), Some(e.value.Key()), e.value.value, DlqHeaders(topic, e.value, p.maxRetries, lastError));
    return Forwarded, slept;
  }
}
