/** The sequential consumer of `Consumer` is one of the schedules of `GroupProtocol`. */
module LoneConsumer {
  import opened Common
  import opened EventLog
  import opened Consumer
  import opened GroupProtocol

  function Fails(b: bool): Option<string> {
    if b then Some("") else None
  }

  /** The actions of a consumer that holds a letter for the dead-letter topic. */
  function DlqScript(w: nat, o: Oracle): seq<Action> {
    [Resume(w, Fails(o.dlqFails))] + if o.dlqFails then [] else [Resume(w, Fails(o.lastCommitFails))]
  }

  /** One attempt: the handler resumes the consumer and, if it succeeded, so does the commit. */
  function AttemptActions(w: nat, o: Oracle, n: nat): seq<Action> {
    if o.handlerError(n).Some? then [Resume(w, o.handlerError(n))]
    else [Resume(w, None), Resume(w, o.commitError(n))]
  }

  /** The actions of a consumer about to make its n-th attempt. */
  function AttemptScript(w: nat, o: Oracle, n: nat, max: nat): seq<Action>
    decreases max + 1 - n
  {
    if n > max then DlqScript(w, o)
    else AttemptActions(w, o, n) + if o.AttemptError(n).Some? then AttemptScript(w, o, n + 1, max) else []
  }

  ghost predicate Ends(world: World, w: nat, rec: Message, before: Bus, v: Verdict) {
    && w in world.workers
    && world.bus == AfterVerdict(before, world.workers[w].sub, rec, v)
    && world.workers[w].phase == if v.Settled() then Polling else Stopped
  }

  lemma DlqScriptRuns(world: World, w: nat, o: Oracle, calls: nat)
    requires w in world.workers && world.workers[w].phase.AwaitingDlq?
    ensures var p := world.workers[w].phase;
            Ends(Run(world, DlqScript(w, o)), w, p.rec, world.bus, Forward(p.letter, calls, o))
  {
    var next := Step(world, Resume(w, Fails(o.dlqFails)));
    if o.dlqFails {
      RunCons(world, Resume(w, Some("")), []);
    } else {
      var last := Resume(w, Fails(o.lastCommitFails));
      RunCons(world, Resume(w, None), [last]);
      RunCons(next, last, []);
      assert [last] + [] == [last];
    }
  }

  /** What is left of a delivery whose first n - 1 attempts failed, the last of them with `error`. */
  function RestVerdict(s: Subscription, rec: Message, o: Oracle, n: nat): Verdict
    requires 1 <= n <= s.maxRetries + 1 && s.parse(rec.value).Ok?
    requires n == s.maxRetries + 1 ==> s.maxRetries >= 1 && o.AttemptError(s.maxRetries).Some?
  {
    match o.FirstSuccess(n, s.maxRetries)
    case Some(k) => Handled(k)
    case None =>
      var error := o.AttemptError(s.maxRetries).value;
      Forward(LetterFor(s.topic, rec, Some(s.parse(rec.value).value), error, s.maxRetries), s.maxRetries, o)
  }

  lemma OneAttempt(world: World, w: nat, o: Oracle)
    requires w in world.workers && world.workers[w].phase.AwaitingHandler?
    requires world.workers[w].sub.parse(world.workers[w].phase.rec.value).Ok?
    ensures var s, rec, n := world.workers[w].sub, world.workers[w].phase.rec, world.workers[w].phase.attempt;
            var next := Run(world, AttemptActions(w, o, n));
            && w in next.workers && next.workers[w].sub == s
            && (o.AttemptError(n) == None ==> Ends(next, w, rec, world.bus, Handled(n)))
            && (o.AttemptError(n).Some? ==> next.bus == world.bus)
            && (o.AttemptError(n).Some? && n < s.maxRetries ==> next.workers[w].phase == AwaitingHandler(rec, n + 1))
            && (o.AttemptError(n).Some? && n >= s.maxRetries ==>
                  next.workers[w].phase == AwaitingDlq(rec, LetterFor(s.topic, rec, Some(s.parse(rec.value).value),
                                                                     o.AttemptError(n).value, s.maxRetries)))
  {
    var n := world.workers[w].phase.attempt;
    if o.handlerError(n).Some? {
      RunCons(world, Resume(w, o.handlerError(n)), []);
      assert [Resume(w, o.handlerError(n))] + [] == AttemptActions(w, o, n);
    } else {
      var second := Resume(w, o.commitError(n));
      RunCons(world, Resume(w, None), [second]);
      RunCons(StepHandled(world, w, world.workers[w].phase.rec, n), second, []);
      assert [second] + [] == [second] && [Resume(w, None)] + [second] == AttemptActions(w, o, n);
    }
  }

  lemma RestVerdictUnfolds(s: Subscription, rec: Message, o: Oracle, n: nat)
    requires 1 <= n <= s.maxRetries && s.parse(rec.value).Ok?
    ensures o.AttemptError(n) == None ==> RestVerdict(s, rec, o, n) == Handled(n)
    ensures o.AttemptError(n).Some? && n < s.maxRetries ==> RestVerdict(s, rec, o, n) == RestVerdict(s, rec, o, n + 1)
    ensures o.AttemptError(n).Some? && n == s.maxRetries ==>
              var letter := LetterFor(s.topic, rec, Some(s.parse(rec.value).value), o.AttemptError(n).value, n);
              RestVerdict(s, rec, o, n) == Forward(letter, n, o)
  {}

  lemma {:induction false} AttemptScriptRuns(world: World, w: nat, o: Oracle, n: nat)
    requires w in world.workers && world.workers[w].phase.AwaitingHandler? && world.workers[w].phase.attempt == n
    requires world.workers[w].sub.parse(world.workers[w].phase.rec.value).Ok?
    requires 1 <= n <= world.workers[w].sub.maxRetries
    ensures var k := world.workers[w];
            Ends(Run(world, AttemptScript(w, o, n, k.sub.maxRetries)), w, k.phase.rec, world.bus,
                 RestVerdict(k.sub, k.phase.rec, o, n))
    decreases world.workers[w].sub.maxRetries - n
  {
    var max := world.workers[w].sub.maxRetries;
    OneAttempt(world, w, o);
    RestVerdictUnfolds(world.workers[w].sub, world.workers[w].phase.rec, o, n);
    var next := Run(world, AttemptActions(w, o, n));
    var rest := if o.AttemptError(n).Some? then AttemptScript(w, o, n + 1, max) else [];
    RunConcat(world, AttemptActions(w, o, n), rest);
    if o.AttemptError(n).Some? {
      if n < max {
        AttemptScriptRuns(next, w, o, n + 1);
      } else {
        DlqScriptRuns(next, w, o, n);
      }
    }
  }

  /**
   Every delivery of the sequential model in `Consumer` is a schedule of this one: same bus, and the
   consumer is back polling exactly when the verdict settled the record.
   */
  lemma DeliveryIsASchedule(world: World, w: nat, o: Oracle) returns (schedule: seq<Action>)
    requires w in world.workers && world.workers[w].phase.Polling? && world.workers[w].sub.maxRetries >= 1
    requires var s := world.workers[w].sub; Polled(world.bus, s.topic, s.group, s.reset).Some?
    ensures var s := world.workers[w].sub;
            var rec := Polled(world.bus, s.topic, s.group, s.reset).value;
            Ends(Run(world, schedule), w, rec, AfterPoll(world.bus, s.topic, s.group, s.reset), VerdictFor(s, rec, o))
  {
    var s := world.workers[w].sub;
    var next := Step(world, Resume(w, None));
    var rec := next.workers[w].phase.rec;
    if s.parse(rec.value).Ok? {
      schedule := AttemptScript(w, o, 1, s.maxRetries);
      AttemptScriptRuns(next, w, o, 1);
    } else {
      schedule := DlqScript(w, o);
      DlqScriptRuns(next, w, o, 0);
    }
    RunCons(world, Resume(w, None), schedule);
    schedule := [Resume(w, None)] + schedule;
  }

  // ---------------------------------------------------------------------------
  // Whole runs
  // ---------------------------------------------------------------------------

  function Publications(topic: string, arrivals: seq<Arrival>): seq<Action> {
    if arrivals == [] then []
    else [Publish(topic, arrivals[0].key, arrivals[0].value, arrivals[0].headers)] + Publications(topic, arrivals[1..])
  }

  lemma {:induction false} PublicationsRun(world: World, topic: string, arrivals: seq<Arrival>)
    ensures Run(world, Publications(topic, arrivals)) == world.(bus := AfterArrivals(world.bus, topic, arrivals))
    decreases |arrivals|
  {
    if arrivals != [] {
      var a := arrivals[0];
      var first := Publish(topic, a.key, a.value, a.headers);
      RunCons(world, first, Publications(topic, arrivals[1..]));
      PublicationsRun(Step(world, first), topic, arrivals[1..]);
    }
  }

  lemma {:induction false} SubscriptionsAreFixed(world: World, schedule: seq<Action>, w: nat)
    requires w in world.workers
    ensures w in Run(world, schedule).workers && Run(world, schedule).workers[w].sub == world.workers[w].sub
    decreases |schedule|
  {
    if schedule != [] {
      StepTouchesOneWorker(world, schedule[0]);
      SubscriptionsAreFixed(Step(world, schedule[0]), schedule[1..], w);
    }
  }

  lemma TurnIsASchedule(world: World, w: nat, turn: Turn) returns (schedule: seq<Action>)
    requires w in world.workers && world.workers[w].phase.Polling? && world.workers[w].sub.maxRetries >= 1
    ensures var s, end := world.workers[w].sub, Run(world, schedule);
            && w in end.workers && end.workers[w].sub == s && end.bus == AfterTurn(world.bus, s, turn)
            && end.workers[w].phase == match TurnEntry(world.bus, s, turn)
                                       case None => Polling
                                       case Some(e) => if e.verdict.Settled() then Polling else Stopped
  {
    var s := world.workers[w].sub;
    var sends := Publications(s.topic, turn.arrivals);
    var ready := Run(world, sends);
    PublicationsRun(world, s.topic, turn.arrivals);
    if Delivered(world.bus, s, turn).Some? {
      schedule := DeliveryIsASchedule(ready, w, turn.oracle);
    } else {
      schedule := [Resume(w, None)];
      RunCons(ready, Resume(w, None), []);
      assert [Resume(w, None)] + [] == schedule;
    }
    RunConcat(world, sends, schedule);
    schedule := sends + schedule;
    SubscriptionsAreFixed(world, schedule, w);
  }

  /** Every run of the sequential consumer is a schedule: same bus, and still polling unless an error left the loop. */
  lemma {:induction false} RunIsASchedule(world: World, w: nat, turns: seq<Turn>) returns (schedule: seq<Action>)
    requires w in world.workers && world.workers[w].phase.Polling? && world.workers[w].sub.maxRetries >= 1
    ensures var s, end := world.workers[w].sub, Run(world, schedule);
            var out := Consumed(world.bus, s, turns);
            && w in end.workers && end.bus == out.bus
            && end.workers[w] == Worker(s, if Halted(out.ledger) then Stopped else Polling)
    decreases |turns|
  {
    if turns == [] {
      schedule := [];
    } else {
      var s := world.workers[w].sub;
      var first := TurnIsASchedule(world, w, turns[0]);
      var entry := TurnEntry(world.bus, s, turns[0]);
      ConsumedUnfolds(world.bus, s, turns);
      if entry.Some? && !entry.value.verdict.Settled() {
        schedule := first;
      } else {
        schedule := RunIsASchedule(Run(world, first), w, turns[1..]);
        RunConcat(world, first, schedule);
        schedule := first + schedule;
      }
    }
  }
}
