/**
 The unified consume entry point: parse, bounded in-process retry, dead-letter
 topic, commit after settlement.  This file has one consumer working alone;
 `GroupProtocol` interleaves any number of them.
 */
module Consumer {
  import opened Common
  import opened EventLog

  /** The envelope fields the consumer itself reads. */
  datatype Envelope = Envelope(eventId: string, tenantId: string)

  type Parser = string -> Result<Envelope, string>

  datatype Subscription = Subscription(topic: string, group: string, reset: Reset, maxRetries: nat, parse: Parser)

  /**
   What the world does to one record: the error (if any) of the n-th handler call and of the
   commit that follows a successful n-th call, and whether the dead-letter send and the commit
   after it fail.  A failed send or commit has no effect on the bus.
   */
  datatype Oracle = Oracle(handlerError: nat -> Option<string>, commitError: nat -> Option<string>,
                           dlqFails: bool, lastCommitFails: bool)
  {
    /** The commit sits inside the retried block, so its error costs an attempt like the handler's. */
    function AttemptError(n: nat): Option<string> {
      if handlerError(n).Some? then handlerError(n) else commitError(n)
    }

    function FirstSuccess(n: nat, max: nat): (r: Option<nat>)
      ensures r.Some? ==> n <= r.value <= max && AttemptError(r.value) == None
      ensures forall k :: n <= k < (if r.Some? then r.value else max + 1) ==> AttemptError(k).Some?
      decreases max + 1 - n
    {
      if n > max then None
      else if AttemptError(n) == None then Some(n)
      else FirstSuccess(n + 1, max)
    }
  }

  datatype Letter = Letter(key: string, value: string, headers: seq<(string, string)>)

  /** How one delivery of a record ended, and how often the handler was called for it. */
  datatype Verdict =
    | Handled(calls: nat)
    | DeadLettered(calls: nat, letter: Letter)
    | CommitFailed(calls: nat, letter: Letter)
    | DlqFailed(calls: nat)
  {
    /** The consumer moved its cursor past the record and goes on. */
    predicate Settled() {
      Handled? || DeadLettered?
    }

    function Letters(): seq<Letter> {
      if DeadLettered? || CommitFailed? then [letter] else []
    }
  }

  function DlqName(topic: string): string {
    topic + ".dlq"
  }

  function Decimal(n: nat): string {
    if n < 10 then [('0' as int + n) as char]
    else Decimal(n / 10) + [('0' as int + n % 10) as char]
  }

  const ORIGINAL_TOPIC := "x-original-topic"
  const RETRY_COUNT := "x-retry-count"
  const ERROR_MESSAGE := "x-error-message"
  const EVENT_ID := "x-event-id"
  const TENANT_ID := "x-tenant-id"

  function LetterFor(topic: string, rec: Message, envelope: Option<Envelope>, error: string, retries: nat): Letter {
    Letter(rec.key.GetOr(""), rec.value,
           rec.headers
           + [(ORIGINAL_TOPIC, topic), (RETRY_COUNT, Decimal(retries)), (ERROR_MESSAGE, error)]
           + match envelope
             case Some(e) => [(EVENT_ID, e.eventId), (TENANT_ID, e.tenantId)]
             case None => [])
  }

  function AfterLetter(bus: Bus, topic: string, letter: Letter): Bus {
    AfterSend(bus, DlqName(topic), Some(letter.key), letter.value, letter.headers)
  }

  function VerdictFor(s: Subscription, rec: Message, o: Oracle): Verdict
    requires s.maxRetries >= 1
  {
    match s.parse(rec.value)
    case Err(error) => Forward(LetterFor(s.topic, rec, None, error, 0), 0, o)
    case Ok(envelope) =>
      match o.FirstSuccess(1, s.maxRetries)
      case Some(n) => Handled(n)
      case None =>
        var error := o.AttemptError(s.maxRetries).value;
        Forward(LetterFor(s.topic, rec, Some(envelope), error, s.maxRetries), s.maxRetries, o)
  }

  function Forward(letter: Letter, calls: nat, o: Oracle): Verdict {
    if o.dlqFails then DlqFailed(calls)
    else if o.lastCommitFails then CommitFailed(calls, letter)
    else DeadLettered(calls, letter)
  }

  /** The bus after a delivery that ended with verdict `v`. */
  function AfterVerdict(bus: Bus, s: Subscription, rec: Message, v: Verdict): Bus {
    var sent := if v.DeadLettered? || v.CommitFailed? then AfterLetter(bus, s.topic, v.letter) else bus;
    if v.Settled() then AfterCommit(sent, rec.topic, s.group, rec.offset + 1) else sent
  }

  method SendToDlq(t: InMemoryTransport, topic: string, rec: Message, envelope: Option<Envelope>, error: string,
                   retries: nat, fails: bool)
    returns (ok: bool)
    requires t.Valid()
    modifies t, t.topics.Values
    ensures t.Valid() && fresh(t.topics.Values - old(t.topics.Values))
    ensures ok == !fails
    ensures t.View() == if fails then old(t.View())
                        else AfterLetter(old(t.View()), topic, LetterFor(topic, rec, envelope, error, retries))
  {
    var headers := rec.headers
      + [(ORIGINAL_TOPIC, topic), (RETRY_COUNT, Decimal(retries)), (ERROR_MESSAGE, error)];
    if envelope.Some? {
      headers := headers + [(EVENT_ID, envelope.value.eventId), (TENANT_ID, envelope.value.tenantId)];
    }
    assert headers == LetterFor(topic, rec, envelope, error, retries).headers;
    if fails {
      return false;
    }
    t.Send(DlqName(topic), Some(rec.key.GetOr("")), rec.value, headers);
    return true;
  }

  /** Forwards a record that cannot be handled, then commits past it. */
  method ForwardAndCommit(t: InMemoryTransport, s: Subscription, rec: Message, envelope: Option<Envelope>, error: string,
                          retries: nat, calls: nat, o: Oracle)
    returns (v: Verdict)
    requires t.Valid()
    modifies t, t.topics.Values
    ensures t.Valid() && fresh(t.topics.Values - old(t.topics.Values))
    ensures v == Forward(LetterFor(s.topic, rec, envelope, error, retries), calls, o)
    ensures t.View() == AfterVerdict(old(t.View()), s, rec, v)
  {
    var letter := LetterFor(s.topic, rec, envelope, error, retries);
    var ok := SendToDlq(t, s.topic, rec, envelope, error, retries, o.dlqFails);
    if !ok {
      return DlqFailed(calls);
    }
    if o.lastCommitFails {
      return CommitFailed(calls, letter);
    }
    t.Commit(s.group, rec.topic, rec.offset + 1);
    return DeadLettered(calls, letter);
  }

  method ProcessRecord(t: InMemoryTransport, s: Subscription, rec: Message, o: Oracle) returns (v: Verdict)
    requires t.Valid() && s.maxRetries >= 1
    modifies t, t.topics.Values
    ensures t.Valid() && fresh(t.topics.Values - old(t.topics.Values))
    ensures v == VerdictFor(s, rec, o)
    ensures t.View() == AfterVerdict(old(t.View()), s, rec, v)
  {
    var parsed := s.parse(rec.value);
    if parsed.Err? {
      v := ForwardAndCommit(t, s, rec, None, parsed.error, 0, 0, o);
      return;
    }
    var lastError := None;
    for attempt := 1 to s.maxRetries + 1
      invariant t.Valid() && t.topics == old(t.topics) && unchanged(t) && unchanged(t.topics.Values)
      invariant o.FirstSuccess(1, s.maxRetries) == o.FirstSuccess(attempt, s.maxRetries)
      invariant attempt > 1 ==> lastError == o.AttemptError(attempt - 1)
    {
      var error := o.handlerError(attempt);
      if error == None {
        error := o.commitError(attempt);
        if error == None {
          t.Commit(s.group, rec.topic, rec.offset + 1);
          return Handled(attempt);
        }
      }
      lastError := error;
    }
    v := ForwardAndCommit(t, s, rec, Some(parsed.value), lastError.value, s.maxRetries, s.maxRetries, o);
  }

  // ---------------------------------------------------------------------------
  // The consume loop
  // ---------------------------------------------------------------------------

  datatype Arrival = Arrival(key: Option<string>, value: string, headers: seq<(string, string)>)

  /** One turn of the loop: what producers sent since the last one, and the fate of the delivery, if any. */
  datatype Turn = Turn(arrivals: seq<Arrival>, oracle: Oracle)

  datatype Entry = Entry(record: Message, verdict: Verdict)

  datatype Outcome = Outcome(bus: Bus, ledger: seq<Entry>)

  function AfterArrivals(bus: Bus, topic: string, arrivals: seq<Arrival>): Bus
    decreases |arrivals|
  {
    if arrivals == [] then bus
    else AfterArrivals(AfterSend(bus, topic, arrivals[0].key, arrivals[0].value, arrivals[0].headers), topic, arrivals[1..])
  }

  function Delivered(bus: Bus, s: Subscription, turn: Turn): Option<Message> {
    Polled(AfterArrivals(bus, s.topic, turn.arrivals), s.topic, s.group, s.reset)
  }

  function Fetched(bus: Bus, s: Subscription, turn: Turn): Bus {
    AfterPoll(AfterArrivals(bus, s.topic, turn.arrivals), s.topic, s.group, s.reset)
  }

  function TurnEntry(bus: Bus, s: Subscription, turn: Turn): Option<Entry>
    requires s.maxRetries >= 1
  {
    match Delivered(bus, s, turn)
    case None => None
    case Some(rec) => Some(Entry(rec, VerdictFor(s, rec, turn.oracle)))
  }

  function AfterTurn(bus: Bus, s: Subscription, turn: Turn): Bus
    requires s.maxRetries >= 1
  {
    match TurnEntry(bus, s, turn)
    case None => Fetched(bus, s, turn)
    case Some(Entry(rec, v)) => AfterVerdict(Fetched(bus, s, turn), s, rec, v)
  }

  /** A whole run up to cancellation or the first error that leaves the loop. */
  function Consumed(bus: Bus, s: Subscription, turns: seq<Turn>): Outcome
    requires s.maxRetries >= 1
    decreases |turns|
  {
    if turns == [] then Outcome(bus, [])
    else
      var entry, after := TurnEntry(bus, s, turns[0]), AfterTurn(bus, s, turns[0]);
      if entry.Some? && !entry.value.verdict.Settled() then Outcome(after, [entry.value])
      else
        var rest := Consumed(after, s, turns[1..]);
        rest.(ledger := (if entry.Some? then [entry.value] else []) + rest.ledger)
  }

  /** The last delivery of a run, if it was not settled, is what stopped the consumer. */
  predicate Halted(ledger: seq<Entry>) {
    ledger != [] && !ledger[|ledger| - 1].verdict.Settled()
  }

  method Arrive(t: InMemoryTransport, topic: string, arrivals: seq<Arrival>)
    requires t.Valid()
    modifies t, t.topics.Values
    ensures t.Valid() && fresh(t.topics.Values - old(t.topics.Values))
    ensures t.View() == AfterArrivals(old(t.View()), topic, arrivals)
  {
    for i := 0 to |arrivals|
      invariant t.Valid() && fresh(t.topics.Values - old(t.topics.Values))
      invariant AfterArrivals(t.View(), topic, arrivals[i..]) == AfterArrivals(old(t.View()), topic, arrivals)
    {
      t.Send(topic, arrivals[i].key, arrivals[i].value, arrivals[i].headers);
    }
  }

  /** What a run adds to a ledger. */
  function Continue(ledger: seq<Entry>, out: Outcome): Outcome {
    Outcome(out.bus, ledger + out.ledger)
  }

  lemma ConsumedUnfolds(bus: Bus, s: Subscription, turns: seq<Turn>)
    requires s.maxRetries >= 1 && turns != []
    ensures var after := AfterTurn(bus, s, turns[0]);
            Consumed(bus, s, turns) == match TurnEntry(bus, s, turns[0]) {
              case None => Consumed(after, s, turns[1..])
              case Some(e) => if e.verdict.Settled() then Continue([e], Consumed(after, s, turns[1..])) else Outcome(after, [e])
            }
  {
    var rest := Consumed(AfterTurn(bus, s, turns[0]), s, turns[1..]);
    assert [] + rest.ledger == rest.ledger;
  }

  lemma ContinueTwice(ledger: seq<Entry>, e: Entry, out: Outcome)
    ensures Continue(ledger, Continue([e], out)) == Continue(ledger + [e], out)
  {
    assert ledger + ([e] + out.ledger) == (ledger + [e]) + out.ledger;
  }

  /** Turn after turn until one leaves its record unsettled. */
  method ConsumeLoop(t: InMemoryTransport, s: Subscription, turns: seq<Turn>) returns (ledger: seq<Entry>)
    requires t.Valid() && s.maxRetries >= 1
    modifies t, t.topics.Values
    ensures t.Valid()
    ensures Outcome(t.View(), ledger) == Consumed(old(t.View()), s, turns)
  {
    ledger := [];
    ghost var whole := Consumed(t.View(), s, turns);
    assert turns[0..] == turns && [] + whole.ledger == whole.ledger;
    for i := 0 to |turns|
      invariant t.Valid() && fresh(t.topics.Values - old(t.topics.Values))
      invariant Continue(ledger, Consumed(t.View(), s, turns[i..])) == whole
    {
      assert turns[i..][0] == turns[i] && turns[i..][1..] == turns[i + 1..];
      ConsumedUnfolds(t.View(), s, turns[i..]);
      var entry := TakeTurn(t, s, turns[i]);
      if entry.Some? {
        ContinueTwice(ledger, entry.value, Consumed(t.View(), s, turns[i + 1..]));
        ledger := ledger + [entry.value];
        if !entry.value.verdict.Settled() {
          return;
        }
      }
    }
    assert ledger + [] == ledger;
  }

  /** Invalid arguments are refused before the bus is touched. */
  method ConsumeEvents(t: InMemoryTransport, s: Subscription, turns: seq<Turn>) returns (r: Result<seq<Entry>, string>)
    requires t.Valid()
    modifies t, t.topics.Values
    ensures t.Valid()
    ensures r.Err? <==> s.topic == "" || s.group == "" || s.maxRetries < 1
    ensures r.Err? ==> t.View() == old(t.View())
    ensures r.Ok? ==> Outcome(t.View(), r.value) == Consumed(old(t.View()), s, turns)
  {
    if s.topic == "" {
      return Err("topic must be a non-empty string");
    }
    if s.group == "" {
      return Err("group_id must be a non-empty string");
    }
    if s.maxRetries < 1 {
      return Err("max_retries must be >= 1");
    }
    var ledger := ConsumeLoop(t, s, turns);
    return Ok(ledger);
  }

  method TakeTurn(t: InMemoryTransport, s: Subscription, turn: Turn) returns (entry: Option<Entry>)
    requires t.Valid() && s.maxRetries >= 1
    modifies t, t.topics.Values
    ensures t.Valid() && fresh(t.topics.Values - old(t.topics.Values))
    ensures entry == TurnEntry(old(t.View()), s, turn) && t.View() == AfterTurn(old(t.View()), s, turn)
  {
    entry := None;
    Arrive(t, s.topic, turn.arrivals);
    var next := t.Poll(s.group, s.topic, s.reset);
    if next.Some? {
      var v := ProcessRecord(t, s, next.value, turn.oracle);
      entry := Some(Entry(next.value, v));
    }
  }
}
