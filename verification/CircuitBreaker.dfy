/** The per-provider circuit breaker: four small fields standing for an unbounded history of outcomes. */
module CircuitBreaker {
  import opened Common

  datatype ProviderState = Closed | Open | HalfOpen

  datatype Settings = Settings(threshold: int, cooldown: real) {
    /** A threshold below one trips on the first failure, as one does. */
    function Trip(): nat {
      if threshold < 1 then 1 else threshold
    }
  }

  datatype BreakerView = BreakerView(failures: nat, openedAt: Option<real>, state: ProviderState,
                                     totalSuccesses: nat, totalFailures: nat)

  const NEW_BREAKER := BreakerView(0, None, Closed, 0, 0)

  function OnSuccess(b: BreakerView): BreakerView {
    BreakerView(0, None, Closed, b.totalSuccesses + 1, b.totalFailures)
  }

  function OnFailure(s: Settings, b: BreakerView, now: real): BreakerView {
    var trips := b.failures + 1 >= s.threshold && b.state == Closed;
    BreakerView(b.failures + 1, if trips then Some(now) else b.openedAt, if trips then Open else b.state,
                b.totalSuccesses, b.totalFailures + 1)
  }

  function OnPoll(s: Settings, b: BreakerView, now: real): BreakerView {
    if b.state == Open && b.openedAt.Some? && now - b.openedAt.value >= s.cooldown then b.(state := HalfOpen) else b
  }

  class Breaker {
    const settings: Settings
    var consecutiveFailures: nat
    var openedAt: Option<real>
    var state: ProviderState
    var totalSuccesses: nat
    var totalFailures: nat

    function View(): BreakerView
      reads this
    {
      BreakerView(consecutiveFailures, openedAt, state, totalSuccesses, totalFailures)
    }

    constructor (settings: Settings)
      ensures View() == NEW_BREAKER && this.settings == settings
    {
      this.settings := settings;
      consecutiveFailures, openedAt, state, totalSuccesses, totalFailures := 0, None, Closed, 0, 0;
    }

    method RecordSuccess()
      modifies this
      ensures View() == OnSuccess(old(View()))
    {
      consecutiveFailures := 0;
      openedAt := None;
      state := Closed;
      totalSuccesses := totalSuccesses + 1;
    }

    method RecordFailure(now: real)
      modifies this
      ensures View() == OnFailure(settings, old(View()), now)
    {
      consecutiveFailures := consecutiveFailures + 1;
      totalFailures := totalFailures + 1;
      if consecutiveFailures >= settings.threshold && state == Closed {
        openedAt := Some(now);
        state := Open;
      }
    }

    method Evaluate(now: real) returns (current: ProviderState)
      modifies this
      ensures View() == OnPoll(settings, old(View()), now) && current == View().state
    {
      if state == Open && openedAt.Some? && now - openedAt.value >= settings.cooldown {
        state := HalfOpen;
      }
      current := state;
    }
  }

  // ---------------------------------------------------------------------------
  // The history behind the fields
  // ---------------------------------------------------------------------------

  datatype Op = Success | Failure(at: real) | Poll(at: real)

  function Apply(s: Settings, b: BreakerView, op: Op): BreakerView {
    match op
    case Success => OnSuccess(b)
    case Failure(at) => OnFailure(s, b, at)
    case Poll(at) => OnPoll(s, b, at)
  }

  function Run(s: Settings, ops: seq<Op>): BreakerView {
    if ops == [] then NEW_BREAKER else Apply(s, Run(s, ops[..|ops| - 1]), ops[|ops| - 1])
  }

  /** The history of calls alone, without the polls in between. */
  function Outcomes(ops: seq<Op>): seq<Op> {
    if ops == [] then []
    else Outcomes(ops[..|ops| - 1]) + if ops[|ops| - 1].Poll? then [] else [ops[|ops| - 1]]
  }

  /** When the failures since the last success happened. */
  function FailureRun(outcomes: seq<Op>): seq<real> {
    if outcomes == [] || !outcomes[|outcomes| - 1].Failure? then []
    else FailureRun(outcomes[..|outcomes| - 1]) + [outcomes[|outcomes| - 1].at]
  }

  /** What the breaker is for: a state read off the outcomes and the clock. */
  function Judgement(s: Settings, outcomes: seq<Op>, now: real): ProviderState {
    var failures := FailureRun(outcomes);
    if |failures| < s.Trip() then Closed
    else if now - failures[s.Trip() - 1] < s.cooldown then Open
    else HalfOpen
  }

  ghost predicate NotAfter(ops: seq<Op>, now: real) {
    forall i :: 0 <= i < |ops| && !ops[i].Success? ==> ops[i].at <= now
  }

  ghost predicate Summarises(s: Settings, b: BreakerView, failures: seq<real>, now: real) {
    && b.failures == |failures|
    && (b.state == Closed <==> |failures| < s.Trip())
    && b.openedAt == (if |failures| >= s.Trip() then Some(failures[s.Trip() - 1]) else None)
    && (b.state == HalfOpen ==> now - failures[s.Trip() - 1] >= s.cooldown)
  }

  lemma OutcomesSnoc(ops: seq<Op>, op: Op)
    ensures Outcomes(ops + [op]) == Outcomes(ops) + if op.Poll? then [] else [op]
  {
    assert (ops + [op])[..|ops|] == ops;
  }

  lemma {:induction false} FieldsSummariseHistory(s: Settings, ops: seq<Op>, now: real)
    requires NotAfter(ops, now)
    ensures Summarises(s, Run(s, ops), FailureRun(Outcomes(ops)), now)
  {
    if ops != [] {
      var front, last := ops[..|ops| - 1], ops[|ops| - 1];
      FieldsSummariseHistory(s, front, now);
      assert ops == front + [last];
      OutcomesSnoc(front, last);
      if last.Failure? {
        assert (Outcomes(front) + [last])[..|Outcomes(front)|] == Outcomes(front);
      } else if last.Poll? {
        assert Outcomes(front) + [] == Outcomes(front);
        assert last.at <= now;
      }
    }
  }

  /**
   On a clock that has not run backwards, evaluating the breaker gives the judgement of its outcomes,
   however often it was polled before, and its counter is the length of the current failure run.
   */
  lemma BreakerRefinesHistory(s: Settings, ops: seq<Op>, now: real)
    requires NotAfter(ops, now)
    ensures OnPoll(s, Run(s, ops), now).state == Judgement(s, Outcomes(ops), now)
    ensures Run(s, ops).failures == |FailureRun(Outcomes(ops))|
  {
    FieldsSummariseHistory(s, ops, now);
  }

  lemma PollsAreInvisible(s: Settings, a: seq<Op>, b: seq<Op>, now: real)
    requires NotAfter(a, now) && NotAfter(b, now) && Outcomes(a) == Outcomes(b)
    ensures OnPoll(s, Run(s, a), now).state == OnPoll(s, Run(s, b), now).state
  {
    BreakerRefinesHistory(s, a, now);
    BreakerRefinesHistory(s, b, now);
  }

  function Count(ops: seq<Op>, wanted: Op -> bool): nat {
    if ops == [] then 0 else Count(ops[..|ops| - 1], wanted) + if wanted(ops[|ops| - 1]) then 1 else 0
  }

  /** The diagnostic counters count all successes and all failures there ever were. */
  lemma {:induction false} TotalsCount(s: Settings, ops: seq<Op>)
    ensures Run(s, ops).totalSuccesses == Count(ops, (op: Op) => op.Success?)
    ensures Run(s, ops).totalFailures == Count(ops, (op: Op) => op.Failure?)
  {
    if ops != [] {
      TotalsCount(s, ops[..|ops| - 1]);
    }
  }

  ghost predicate NoSuccess(ops: seq<Op>) {
    forall i :: 0 <= i < |ops| ==> !ops[i].Success?
  }

  /** Without a success the failure run only gets longer. */
  lemma {:induction false} RunOnlyGrows(ops: seq<Op>, more: seq<Op>)
    requires NoSuccess(more)
    ensures FailureRun(Outcomes(ops)) <= FailureRun(Outcomes(ops + more))
    decreases |more|
  {
    if more == [] {
      assert ops + more == ops;
    } else {
      var front, last := more[..|more| - 1], more[|more| - 1];
      RunOnlyGrows(ops, front);
      assert ops + more == (ops + front) + [last];
      OutcomesSnoc(ops + front, last);
      var before := Outcomes(ops + front);
      if last.Failure? {
        assert (before + [last])[..|before|] == before;
      } else {
        assert before + [] == before;
      }
    }
  }

  /**
   Once the cool-off of a failure run is over, whatever fails or polls from then on, only a success leaves
   HALF_OPEN.  (The router's documentation says a failed probe re-opens the breaker.)
   */
  lemma FailedProbesDoNotReopen(s: Settings, ops: seq<Op>, now: real, more: seq<Op>, later: real)
    requires now <= later && NotAfter(ops + more, later) && NoSuccess(more)
    requires Judgement(s, Outcomes(ops), now) == HalfOpen
    ensures OnPoll(s, Run(s, ops + more), later).state == HalfOpen
  {
    RunOnlyGrows(ops, more);
    BreakerRefinesHistory(s, ops + more, later);
  }
}
