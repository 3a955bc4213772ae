/**
 Any number of consumers and producers on one bus, interleaved at every `await`.

 An action is one uninterrupted stretch of one coroutine: from where it was
 resumed to its next `await`.  A crash may come between any two.  A schedule is
 any sequence of actions; an action that is not enabled does nothing.
 */
module GroupProtocol {
  import opened Common
  import opened EventLog
  import opened Consumer

  /** Where a consumer is suspended. */
  datatype Phase =
    | Polling
    | AwaitingHandler(rec: Message, attempt: nat)
    | AwaitingCommit(rec: Message, attempt: nat)
    | AwaitingDlq(rec: Message, letter: Letter)
    | AwaitingLastCommit(rec: Message)
    | Stopped

  datatype Worker = Worker(sub: Subscription, phase: Phase)

  /** What an outside observer can log: who settled which offset of which topic, and how. */
  datatype Event =
    | HandlerDone(topic: string, group: string, offset: nat)
    | Forwarded(topic: string, group: string, offset: nat, dlqOffset: nat)

  datatype World = World(bus: Bus, workers: map<nat, Worker>, starts: map<(string, string), nat>, history: seq<Event>)

  datatype Action =
    | Publish(to: string, key: Option<string>, value: string, headers: seq<(string, string)>)
    | Join(w: nat, sub: Subscription)
    | Crash(w: nat)
    | Resume(w: nat, error: Option<string>)

  const INITIAL := World(map[], map[], map[], [])

  function Move(world: World, w: nat, phase: Phase): World
    requires w in world.workers
  {
    world.(workers := world.workers[w := world.workers[w].(phase := phase)])
  }

  function Step(world: World, a: Action): World {
    match a
    case Publish(to, key, value, headers) => world.(bus := AfterSend(world.bus, to, key, value, headers))
    case Join(w, sub) =>
      if w !in world.workers && sub.topic != "" && sub.group != "" && sub.maxRetries >= 1
      then world.(workers := world.workers[w := Worker(sub, Polling)])
      else world
    case Crash(w) => if w in world.workers then Move(world, w, Stopped) else world
    case Resume(w, error) => if w in world.workers then StepResume(world, w, error) else world
  }

  function StepResume(world: World, w: nat, error: Option<string>): World
    requires w in world.workers
  {
    match world.workers[w].phase
    case Polling => StepPoll(world, w)
    case AwaitingHandler(rec, attempt) =>
      if error.Some? then Retry(world, w, rec, attempt, error.value)
      else StepHandled(world, w, rec, attempt)
    case AwaitingCommit(rec, attempt) =>
      if error.Some? then Retry(world, w, rec, attempt, error.value) else StepCommit(world, w, rec)
    case AwaitingDlq(rec, letter) =>
      if error.Some? then Move(world, w, Stopped) else StepForward(world, w, rec, letter)
    case AwaitingLastCommit(rec) =>
      if error.Some? then Move(world, w, Stopped) else StepCommit(world, w, rec)
    case Stopped => world
  }

  /** The world after a poll, before the consumer looks at what it got. */
  function Opened(world: World, s: Subscription): World {
    world.(
      bus := AfterPoll(world.bus, s.topic, s.group, s.reset),
      starts := if s.topic in world.bus && s.group !in world.bus[s.topic].committed
                then world.starts[(s.topic, s.group) := world.bus[s.topic].Cursor(s.group, s.reset)]
                else world.starts)
  }

  function StepPoll(world: World, w: nat): World
    requires w in world.workers
  {
    var s := world.workers[w].sub;
    var next := Polled(world.bus, s.topic, s.group, s.reset);
    var polled := Opened(world, s);
    match next
    case None => polled
    case Some(rec) =>
      match s.parse(rec.value)
      case Ok(_) => Move(polled, w, AwaitingHandler(rec, 1))
      case Err(error) => Move(polled, w, AwaitingDlq(rec, LetterFor(s.topic, rec, None, error, 0)))
  }

  function StepHandled(world: World, w: nat, rec: Message, attempt: nat): World
    requires w in world.workers
  {
    var s := world.workers[w].sub;
    Move(world.(history := world.history + [HandlerDone(s.topic, s.group, rec.offset)]), w, AwaitingCommit(rec, attempt))
  }

  /** The handler, or the commit after it, raised. */
  function Retry(world: World, w: nat, rec: Message, attempt: nat, error: string): World
    requires w in world.workers
  {
    var s := world.workers[w].sub;
    if attempt < s.maxRetries then Move(world, w, AwaitingHandler(rec, attempt + 1))
    else
      var envelope := if s.parse(rec.value).Ok? then Some(s.parse(rec.value).value) else None;
      Move(world, w, AwaitingDlq(rec, LetterFor(s.topic, rec, envelope, error, s.maxRetries)))
  }

  function StepCommit(world: World, w: nat, rec: Message): World
    requires w in world.workers
  {
    var s := world.workers[w].sub;
    Move(world.(bus := AfterCommit(world.bus, rec.topic, s.group, rec.offset + 1)), w, Polling)
  }

  function StepForward(world: World, w: nat, rec: Message, letter: Letter): World
    requires w in world.workers
  {
    var s := world.workers[w].sub;
    var at := |Look(world.bus, DlqName(s.topic)).records|;
    Move(world.(bus := AfterLetter(world.bus, s.topic, letter),
                history := world.history + [Forwarded(s.topic, s.group, rec.offset, at)]),
         w, AwaitingLastCommit(rec))
  }

  function Run(world: World, schedule: seq<Action>): World
    decreases |schedule|
  {
    if schedule == [] then world else Run(Step(world, schedule[0]), schedule[1..])
  }

  /** From `a` to `b` at most the place where consumer `w` is suspended changed of the consumers. */
  ghost predicate OnlyMoves(a: World, b: World, w: nat)
    requires w in a.workers
  {
    w in b.workers && b.workers == a.workers[w := a.workers[w].(phase := b.workers[w].phase)]
  }

  lemma RetryTouchesOneWorker(world: World, w: nat, rec: Message, attempt: nat, error: string)
    requires w in world.workers
    ensures OnlyMoves(world, Retry(world, w, rec, attempt, error), w)
  {}

  lemma PollTouchesOneWorker(world: World, w: nat)
    requires w in world.workers
    ensures OnlyMoves(world, StepPoll(world, w), w)
  {}

  lemma ResumeTouchesOneWorker(world: World, w: nat, error: Option<string>)
    requires w in world.workers
    ensures OnlyMoves(world, StepResume(world, w, error), w)
  {
    match world.workers[w].phase
    case Polling => PollTouchesOneWorker(world, w);
    case AwaitingHandler(rec, attempt) =>
      if error.Some? { RetryTouchesOneWorker(world, w, rec, attempt, error.value); }
    case AwaitingCommit(rec, attempt) =>
      if error.Some? { RetryTouchesOneWorker(world, w, rec, attempt, error.value); }
    case _ =>
  }

  lemma StepTouchesOneWorker(world: World, a: Action)
    ensures forall w :: w in world.workers ==> w in Step(world, a).workers && Step(world, a).workers[w].sub == world.workers[w].sub
    ensures forall w :: w in world.workers && (a.Publish? || w != a.w) ==> Step(world, a).workers[w] == world.workers[w]
    ensures forall w :: w in Step(world, a).workers && w !in world.workers ==>
              a.Join? && w == a.w && Step(world, a).workers[w] == Worker(a.sub, Polling) && a.sub.maxRetries >= 1
  {
    if a.Resume? && a.w in world.workers {
      ResumeTouchesOneWorker(world, a.w, a.error);
    }
  }

  // ---------------------------------------------------------------------------
  // The invariant
  // ---------------------------------------------------------------------------

  /** Some consumer of the group saw its handler succeed on the record, or the record reached the dead-letter topic. */
  ghost predicate Settled(history: seq<Event>, topic: string, group: string, offset: nat) {
    exists e :: e in history && e.topic == topic && e.group == group && e.offset == offset
  }

  ghost predicate SettledBelow(world: World, topic: string, group: string, bound: nat) {
    (topic, group) in world.starts
    && world.starts[(topic, group)] <= bound
    && forall o: nat :: world.starts[(topic, group)] <= o < bound ==> Settled(world.history, topic, group, o)
  }

  /** An event speaks of a record that exists; a dead letter is a faithful copy of the record it stands for. */
  ghost predicate Genuine(bus: Bus, e: Event) {
    var log, dlq := Look(bus, e.topic).records, Look(bus, DlqName(e.topic)).records;
    && e.offset < |log|
    && (e.Forwarded? ==> e.dlqOffset < |dlq| && Copies(log[e.offset], dlq[e.dlqOffset]))
  }

  ghost predicate Copies(rec: Message, letter: Message) {
    letter.value == rec.value && letter.key == Some(rec.key.GetOr("")) && rec.headers <= letter.headers
  }

  ghost predicate Wellformed(bus: Bus) {
    forall t :: t in bus ==>
      && bus[t].OffsetsArePositions()
      && (forall m :: m in bus[t].records ==> m.topic == t)
      && (forall g :: g in bus[t].committed ==> bus[t].committed[g] <= |bus[t].records|)
  }

  predicate Holds(p: Phase) {
    !p.Polling? && !p.Stopped?
  }

  /** A consumer holding a record got it when everything before it was settled. */
  ghost predicate WorkerOk(world: World, k: Worker) {
    var s, p := k.sub, k.phase;
    && s.maxRetries >= 1
    && (Holds(p) ==>
          && p.rec in Look(world.bus, s.topic).records
          && SettledBelow(world, s.topic, s.group, p.rec.offset))
    && (p.AwaitingCommit? || p.AwaitingLastCommit? ==> Settled(world.history, s.topic, s.group, p.rec.offset))
    && (p.AwaitingHandler? || p.AwaitingCommit? ==> 1 <= p.attempt <= s.maxRetries && s.parse(p.rec.value).Ok?)
    && (p.AwaitingDlq? ==> p.letter.value == p.rec.value && p.letter.key == p.rec.key.GetOr("")
                           && p.rec.headers <= p.letter.headers)
  }

  ghost predicate CursorsOk(world: World) {
    forall t, g :: t in world.bus && g in world.bus[t].committed ==> SettledBelow(world, t, g, world.bus[t].committed[g])
  }

  ghost predicate Inv(world: World) {
    && Wellformed(world.bus)
    && CursorsOk(world)
    && (forall t, g :: (t, g) in world.starts ==> t in world.bus && g in world.bus[t].committed)
    && (forall w :: w in world.workers ==> WorkerOk(world, world.workers[w]))
    && (forall e :: e in world.history ==> Genuine(world.bus, e))
  }

  /** Logs only grow, starts are fixed, history is never rewritten. */
  ghost predicate Grows(a: World, b: World) {
    && (forall t :: Look(a.bus, t).records <= Look(b.bus, t).records)
    && (forall k :: k in a.starts ==> k in b.starts && a.starts[k] == b.starts[k])
    && a.history <= b.history
  }

  lemma BelowGrows(a: World, b: World, topic: string, group: string, bound: nat)
    requires Grows(a, b) && SettledBelow(a, topic, group, bound)
    ensures SettledBelow(b, topic, group, bound)
  {
    forall o: nat | b.starts[(topic, group)] <= o < bound
      ensures Settled(b.history, topic, group, o)
    {
      assert Settled(a.history, topic, group, o);
    }
  }

  lemma WorkerGrows(a: World, b: World, k: Worker)
    requires Grows(a, b) && WorkerOk(a, k)
    ensures WorkerOk(b, k)
  {
    if Holds(k.phase) {
      assert Look(a.bus, k.sub.topic).records <= Look(b.bus, k.sub.topic).records;
      BelowGrows(a, b, k.sub.topic, k.sub.group, k.phase.rec.offset);
    }
  }

  lemma GenuineGrows(a: World, b: World, e: Event)
    requires Grows(a, b) && Genuine(a.bus, e)
    ensures Genuine(b.bus, e)
  {
    assert Look(a.bus, e.topic).records <= Look(b.bus, e.topic).records;
    assert Look(a.bus, DlqName(e.topic)).records <= Look(b.bus, DlqName(e.topic)).records;
  }

  /** Everything the invariant says of what did not move survives growth. */
  lemma Carry(a: World, b: World, w: nat)
    requires Inv(a) && Grows(a, b) && Wellformed(b.bus) && CursorsOk(b)
    requires forall t, g :: (t, g) in b.starts ==> t in b.bus && g in b.bus[t].committed
    requires forall v :: v in b.workers && v != w ==> v in a.workers && b.workers[v] == a.workers[v]
    requires w in b.workers ==> WorkerOk(b, b.workers[w])
    requires forall e :: e in b.history && e !in a.history ==> Genuine(b.bus, e)
    ensures Inv(b)
  {
    forall v | v in b.workers
      ensures WorkerOk(b, b.workers[v])
    {
      if v != w {
        WorkerGrows(a, b, a.workers[v]);
      }
    }
    forall e | e in b.history
      ensures Genuine(b.bus, e)
    {
      if e in a.history {
        GenuineGrows(a, b, e);
      }
    }
  }

  /** Cursors stay good when none moved except, possibly, one to a place whose past is settled. */
  lemma CursorsCarry(a: World, b: World, topic: string, group: string)
    requires CursorsOk(a) && Grows(a, b)
    requires forall t, g :: t in b.bus && g in b.bus[t].committed && (t, g) != (topic, group) ==>
               t in a.bus && g in a.bus[t].committed && b.bus[t].committed[g] == a.bus[t].committed[g]
    requires topic in b.bus && group in b.bus[topic].committed ==> SettledBelow(b, topic, group, b.bus[topic].committed[group])
    ensures CursorsOk(b)
  {
    forall t, g | t in b.bus && g in b.bus[t].committed
      ensures SettledBelow(b, t, g, b.bus[t].committed[g])
    {
      if (t, g) != (topic, group) {
        BelowGrows(a, b, t, g, a.bus[t].committed[g]);
      }
    }
  }

  lemma CursorsStay(a: World, b: World)
    requires CursorsOk(a) && Grows(a, b) && b.bus == a.bus
    ensures CursorsOk(b)
  {
    forall t, g | t in b.bus && g in b.bus[t].committed
      ensures SettledBelow(b, t, g, b.bus[t].committed[g])
    {
      BelowGrows(a, b, t, g, a.bus[t].committed[g]);
    }
  }

  lemma SendKeepsCursors(a: World, b: World, to: string, key: Option<string>, value: string, headers: seq<(string, string)>)
    requires Wellformed(a.bus) && CursorsOk(a) && b.starts == a.starts && a.history <= b.history
    requires b.bus == AfterSend(a.bus, to, key, value, headers)
    ensures Grows(a, b) && Wellformed(b.bus) && CursorsOk(b)
  {
    forall t, g | t in b.bus && g in b.bus[t].committed
      ensures SettledBelow(b, t, g, b.bus[t].committed[g])
    {
      BelowGrows(a, b, t, g, a.bus[t].committed[g]);
    }
  }

  lemma MoveKeeps(a: World, w: nat, phase: Phase)
    requires Inv(a) && w in a.workers && WorkerOk(a, a.workers[w].(phase := phase))
    ensures Inv(Move(a, w, phase))
  {
    var b := Move(a, w, phase);
    assert Grows(a, b);
    CursorsStay(a, b);
    Carry(a, b, w);
  }

  lemma RecordAt(bus: Bus, topic: string, rec: Message)
    requires Wellformed(bus) && rec in Look(bus, topic).records
    ensures topic in bus && rec.topic == topic
    ensures rec.offset < |bus[topic].records| && bus[topic].records[rec.offset] == rec
  {}

  lemma OpeningKeeps(a: World, w: nat)
    requires Inv(a) && w in a.workers
    ensures Inv(Opened(a, a.workers[w].sub))
    ensures var s := a.workers[w].sub; var b := Opened(a, s);
            Polled(a.bus, s.topic, s.group, s.reset).Some? ==>
              var rec := Polled(a.bus, s.topic, s.group, s.reset).value;
              rec in Look(b.bus, s.topic).records && SettledBelow(b, s.topic, s.group, rec.offset)
  {
    var s := a.workers[w].sub;
    var b := Opened(a, s);
    assert Grows(a, b);
    assert Wellformed(b.bus);
    assert s.topic in b.bus ==> SettledBelow(b, s.topic, s.group, b.bus[s.topic].committed[s.group]) by {
      if s.topic in a.bus && s.group in a.bus[s.topic].committed {
        BelowGrows(a, b, s.topic, s.group, a.bus[s.topic].committed[s.group]);
      }
    }
    CursorsCarry(a, b, s.topic, s.group);
    WorkerGrows(a, b, a.workers[w]);
    Carry(a, b, w);
  }

  lemma PollKeeps(a: World, w: nat)
    requires Inv(a) && w in a.workers
    ensures Inv(StepPoll(a, w))
  {
    var s := a.workers[w].sub;
    OpeningKeeps(a, w);
    if Polled(a.bus, s.topic, s.group, s.reset).Some? {
      MoveKeeps(Opened(a, s), w, StepPoll(a, w).workers[w].phase);
    }
  }

  lemma AdvanceKeeps(a: World, w: nat, s: Subscription, rec: Message)
    requires Inv(a) && w in a.workers && a.workers[w].sub == s && rec in Look(a.bus, s.topic).records
    requires SettledBelow(a, s.topic, s.group, rec.offset) && Settled(a.history, s.topic, s.group, rec.offset)
    ensures Inv(StepCommit(a, w, rec))
  {
    var b := StepCommit(a, w, rec);
    RecordAt(a.bus, s.topic, rec);
    assert Grows(a, b);
    assert SettledBelow(b, s.topic, s.group, rec.offset + 1);
    CursorsCarry(a, b, s.topic, s.group);
    Carry(a, b, w);
  }

  lemma HolderIsReady(a: World, w: nat)
    requires Inv(a) && w in a.workers
    requires a.workers[w].phase.AwaitingCommit? || a.workers[w].phase.AwaitingLastCommit?
    ensures var s, rec := a.workers[w].sub, a.workers[w].phase.rec;
            && rec in Look(a.bus, s.topic).records
            && SettledBelow(a, s.topic, s.group, rec.offset) && Settled(a.history, s.topic, s.group, rec.offset)
  {
    assert WorkerOk(a, a.workers[w]);
  }

  lemma CommitKeeps(a: World, w: nat, rec: Message)
    requires Inv(a) && w in a.workers && Holds(a.workers[w].phase) && a.workers[w].phase.rec == rec
    requires a.workers[w].phase.AwaitingCommit? || a.workers[w].phase.AwaitingLastCommit?
    ensures Inv(StepCommit(a, w, rec))
  {
    HolderIsReady(a, w);
    AdvanceKeeps(a, w, a.workers[w].sub, rec);
  }

  lemma RecordEvent(history: seq<Event>, e: Event)
    ensures Settled(history + [e], e.topic, e.group, e.offset)
  {
    assert e in history + [e];
  }

  lemma HandlerKeeps(a: World, w: nat)
    requires Inv(a) && w in a.workers && a.workers[w].phase.AwaitingHandler?
    ensures Inv(StepHandled(a, w, a.workers[w].phase.rec, a.workers[w].phase.attempt))
  {
    var k := a.workers[w];
    var b := StepHandled(a, w, k.phase.rec, k.phase.attempt);
    var e := HandlerDone(k.sub.topic, k.sub.group, k.phase.rec.offset);
    assert Grows(a, b);
    RecordEvent(a.history, e);
    RecordAt(a.bus, k.sub.topic, k.phase.rec);
    assert Genuine(b.bus, e);
    WorkerGrows(a, b, k);
    CursorsStay(a, b);
    Carry(a, b, w);
  }

  lemma ForwardKeeps(a: World, w: nat)
    requires Inv(a) && w in a.workers && a.workers[w].phase.AwaitingDlq?
    ensures Inv(StepForward(a, w, a.workers[w].phase.rec, a.workers[w].phase.letter))
  {
    var k := a.workers[w];
    var s, rec, letter := k.sub, k.phase.rec, k.phase.letter;
    var b := StepForward(a, w, rec, letter);
    var e := Forwarded(s.topic, s.group, rec.offset, |Look(a.bus, DlqName(s.topic)).records|);
    SendKeepsCursors(a, b, DlqName(s.topic), Some(letter.key), letter.value, letter.headers);
    RecordEvent(a.history, e);
    RecordAt(a.bus, s.topic, rec);
    WorkerGrows(a, b, k);
    Carry(a, b, w);
  }

  lemma PublishKeeps(a: World, to: string, key: Option<string>, value: string, headers: seq<(string, string)>)
    requires Inv(a)
    ensures Inv(a.(bus := AfterSend(a.bus, to, key, value, headers)))
  {
    var b := a.(bus := AfterSend(a.bus, to, key, value, headers));
    SendKeepsCursors(a, b, to, key, value, headers);
    if 0 in a.workers {
      WorkerGrows(a, b, a.workers[0]);
    }
    Carry(a, b, 0);
  }

  lemma JoinKeeps(a: World, w: nat, sub: Subscription)
    requires Inv(a) && w !in a.workers && sub.maxRetries >= 1
    ensures Inv(a.(workers := a.workers[w := Worker(sub, Polling)]))
  {
    var b := a.(workers := a.workers[w := Worker(sub, Polling)]);
    assert Grows(a, b);
    CursorsStay(a, b);
    Carry(a, b, w);
  }

  lemma StepKeeps(a: World, act: Action)
    requires Inv(a)
    ensures Inv(Step(a, act))
  {
    match act
    case Publish(to, key, value, headers) => PublishKeeps(a, to, key, value, headers);
    case Join(w, sub) =>
      if w !in a.workers && sub.maxRetries >= 1 {
        JoinKeeps(a, w, sub);
      }
    case Crash(w) =>
      if w in a.workers {
        MoveKeeps(a, w, Stopped);
      }
    case Resume(w, error) =>
      if w in a.workers {
        ResumeKeeps(a, w, error);
      }
  }

  lemma ResumeKeeps(a: World, w: nat, error: Option<string>)
    requires Inv(a) && w in a.workers
    ensures Inv(StepResume(a, w, error))
  {
    match a.workers[w].phase
    case Polling => PollKeeps(a, w);
    case AwaitingHandler(rec, attempt) =>
      if error.Some? { RetryKeeps(a, w, rec, attempt, error.value); } else { HandlerKeeps(a, w); }
    case AwaitingCommit(rec, attempt) =>
      if error.Some? { RetryKeeps(a, w, rec, attempt, error.value); } else { CommitKeeps(a, w, rec); }
    case AwaitingDlq(rec, letter) =>
      if error.Some? { MoveKeeps(a, w, Stopped); } else { ForwardKeeps(a, w); }
    case AwaitingLastCommit(rec) =>
      if error.Some? { MoveKeeps(a, w, Stopped); } else { CommitKeeps(a, w, rec); }
    case Stopped =>
  }

  lemma RetryKeeps(a: World, w: nat, rec: Message, attempt: nat, error: string)
    requires Inv(a) && w in a.workers
    requires var p := a.workers[w].phase;
             (p.AwaitingHandler? || p.AwaitingCommit?) && p.rec == rec && p.attempt == attempt
    ensures Inv(Retry(a, w, rec, attempt, error))
  {
    var b := Retry(a, w, rec, attempt, error);
    MoveKeeps(a, w, b.workers[w].phase);
  }

  lemma {:induction false} RunKeeps(world: World, schedule: seq<Action>)
    requires Inv(world)
    ensures Inv(Run(world, schedule))
    decreases |schedule|
  {
    if schedule != [] {
      StepKeeps(world, schedule[0]);
      RunKeeps(Step(world, schedule[0]), schedule[1..]);
    }
  }

  // ---------------------------------------------------------------------------
  // What every schedule guarantees
  // ---------------------------------------------------------------------------

  /**
   At-least-once, for every interleaving of producers, consumers and crashes: every offset from
   the group's start up to its cursor, wherever the cursor now is, has been handled or forwarded.
   */
  lemma NothingIsSkipped(schedule: seq<Action>, topic: string, group: string, offset: nat)
    ensures var world := Run(INITIAL, schedule);
            topic in world.bus && group in world.bus[topic].committed ==>
              && (topic, group) in world.starts
              && world.bus[topic].committed[group] <= |world.bus[topic].records|
              && (world.starts[(topic, group)] <= offset < world.bus[topic].committed[group] ==>
                    Settled(world.history, topic, group, offset))
  {
    RunKeeps(INITIAL, schedule);
  }

  /** The history is evidence: every settled offset names a real record, every forward a faithful copy of it. */
  lemma HistoryIsGenuine(schedule: seq<Action>, e: Event)
    requires e in Run(INITIAL, schedule).history
    ensures Genuine(Run(INITIAL, schedule).bus, e)
  {
    RunKeeps(INITIAL, schedule);
  }

  lemma RunCons(world: World, a: Action, rest: seq<Action>)
    ensures Run(world, [a] + rest) == Run(Step(world, a), rest)
  {
    assert ([a] + rest)[1..] == rest;
  }

  lemma {:induction false} RunConcat(world: World, a: seq<Action>, b: seq<Action>)
    ensures Run(world, a + b) == Run(Run(world, a), b)
    decreases |a|
  {
    if a == [] {
      assert a + b == b;
    } else {
      assert (a + b)[1..] == a[1..] + b;
      RunConcat(Step(world, a[0]), a[1..], b);
    }
  }

  lemma RunSnoc(world: World, schedule: seq<Action>, a: Action)
    ensures Run(world, schedule + [a]) == Step(Run(world, schedule), a)
  {
    RunConcat(world, schedule, [a]);
    RunCons(Run(world, schedule), a, []);
    assert [a] + [] == [a];
  }
}
