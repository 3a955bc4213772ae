/** What the history of `GroupProtocol` is evidence of: handlers that returned and sends that arrived. */
module GroupHistory {
  import opened Common
  import opened EventLog
  import opened Consumer
  import opened GroupProtocol

  /**
   The action lets a consumer of the event's topic and group come back, without an error, from awaiting its
   handler on the record at that offset, or from sending that record to the dead-letter topic.
   */
  ghost predicate Evidence(world: World, a: Action, e: Event) {
    && a.Resume? && a.error == None && a.w in world.workers
    && var k := world.workers[a.w];
       && k.sub.topic == e.topic && k.sub.group == e.group
       && match e
          case HandlerDone(_, _, offset) => k.phase.AwaitingHandler? && k.phase.rec.offset == offset
          case Forwarded(topic, _, offset, dlqOffset) =>
            k.phase.AwaitingDlq? && k.phase.rec.offset == offset && dlqOffset == |Look(world.bus, topic + ".dlq").records|
  }

  /** A step logs exactly the event it is evidence of, if there is one. */
  lemma StepLogsEvidence(world: World, a: Action)
    ensures forall e :: Evidence(world, a, e) <==> Step(world, a).history == world.history + [e]
    ensures Step(world, a).history == world.history || exists e :: Evidence(world, a, e)
  {
    if a.Resume? && a.w in world.workers {
      ResumeLogsEvidence(world, a.w, a.error);
    }
  }

  lemma RetryLogsNothing(world: World, w: nat, rec: Message, attempt: nat, error: string)
    requires w in world.workers
    ensures Retry(world, w, rec, attempt, error).history == world.history
  {}

  lemma ResumeLogsEvidence(world: World, w: nat, error: Option<string>)
    requires w in world.workers
    ensures var next := StepResume(world, w, error);
            && (forall e :: Evidence(world, Resume(w, error), e) <==> next.history == world.history + [e])
            && (next.history == world.history || exists e :: Evidence(world, Resume(w, error), e))
  {
    var k := world.workers[w];
    match k.phase
    case AwaitingHandler(rec, attempt) =>
      if error.Some? {
        RetryLogsNothing(world, w, rec, attempt, error.value);
      } else {
        OnlyEvidence(world, w, HandlerDone(k.sub.topic, k.sub.group, rec.offset));
      }
    case AwaitingCommit(rec, attempt) =>
      if error.Some? {
        RetryLogsNothing(world, w, rec, attempt, error.value);
      }
    case AwaitingDlq(rec, letter) =>
      if error == None {
        var at := |Look(world.bus, k.sub.topic + ".dlq").records|;
        OnlyEvidence(world, w, Forwarded(k.sub.topic, k.sub.group, rec.offset, at));
      }
    case _ =>
  }

  lemma OnlyEvidence(world: World, w: nat, logged: Event)
    requires Evidence(world, Resume(w, None), logged)
    ensures forall e :: Evidence(world, Resume(w, None), e) <==> world.history + [logged] == world.history + [e]
  {
    forall e
      ensures Evidence(world, Resume(w, None), e) <==> world.history + [logged] == world.history + [e]
    {
      assert (world.history + [logged])[|world.history|] == logged && (world.history + [e])[|world.history|] == e;
    }
  }

  /** Step `k` of the schedule is evidence of `e`. */
  ghost predicate EvidenceAt(schedule: seq<Action>, k: nat, e: Event)
    requires k < |schedule|
  {
    Evidence(Run(INITIAL, schedule[..k]), schedule[k], e)
  }

  /**
   The history says no more and no less than what happened: an event is in it exactly if at some step of the
   schedule the handler it names returned, or the send it names arrived.
   */
  lemma {:induction false} HistoryIsEarned(schedule: seq<Action>, e: Event)
    ensures e in Run(INITIAL, schedule).history <==> exists k: nat :: k < |schedule| && EvidenceAt(schedule, k, e)
    decreases |schedule|
  {
    if schedule != [] {
      var n := |schedule| - 1;
      var front, a := schedule[..n], schedule[n];
      assert schedule == front + [a];
      RunSnoc(INITIAL, front, a);
      HistoryIsEarned(front, e);
      StepLogsEvidence(Run(INITIAL, front), a);
      EvidenceOfFront(schedule, e);
      LoggedLast(Run(INITIAL, front), a, e);
    }
  }

  lemma LoggedLast(world: World, a: Action, e: Event)
    ensures e in Step(world, a).history <==> e in world.history || Evidence(world, a, e)
  {
    StepLogsEvidence(world, a);
    assert |world.history + [e]| != |world.history|;
    if Step(world, a).history != world.history {
      var logged :| Evidence(world, a, logged);
      assert Step(world, a).history == world.history + [logged];
      if e in Step(world, a).history && e !in world.history {
        assert e == logged;
      }
    }
  }

  lemma EvidenceOfFront(schedule: seq<Action>, e: Event)
    requires schedule != []
    ensures var n := |schedule| - 1;
            (exists k: nat :: k < |schedule| && EvidenceAt(schedule, k, e))
            <==> (exists k: nat :: k < n && EvidenceAt(schedule[..n], k, e)) || EvidenceAt(schedule, n, e)
  {
    var n := |schedule| - 1;
    forall k: nat | k < n
      ensures EvidenceAt(schedule, k, e) <==> EvidenceAt(schedule[..n], k, e)
    {
      assert schedule[..n][..k] == schedule[..k];
    }
  }

  /**
   At-least-once in terms of the schedule alone: for every offset from the group's start up to its cursor, some
   step let a consumer of the group return from its handler on that record or deliver it to the dead-letter topic.
   */
  lemma NothingIsSkippedInTheSchedule(schedule: seq<Action>, topic: string, group: string, offset: nat)
    ensures var world := Run(INITIAL, schedule);
            topic in world.bus && group in world.bus[topic].committed ==>
              && (topic, group) in world.starts
              && (world.starts[(topic, group)] <= offset < world.bus[topic].committed[group] ==>
                    exists k: nat, e :: k < |schedule| && EvidenceAt(schedule, k, e)
                                        && e.topic == topic && e.group == group && e.offset == offset)
  {
    NothingIsSkipped(schedule, topic, group, offset);
    var world := Run(INITIAL, schedule);
    if topic in world.bus && group in world.bus[topic].committed
       && world.starts[(topic, group)] <= offset < world.bus[topic].committed[group] {
      var e :| e in world.history && e.topic == topic && e.group == group && e.offset == offset;
      HistoryIsEarned(schedule, e);
    }
  }
}
