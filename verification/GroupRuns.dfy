/** What schedules of `GroupProtocol` do to cursors, starts and handlers. */
module GroupRuns {
  import opened Common
  import opened EventLog
  import opened Consumer
  import opened GroupProtocol

  // ---------------------------------------------------------------------------
  // When a cursor moves back
  // ---------------------------------------------------------------------------

  function CursorOf(bus: Bus, topic: string, group: string): Option<nat> {
    if topic in bus && group in bus[topic].committed then Some(bus[topic].committed[group]) else None
  }

  predicate Committing(p: Phase) {
    p.AwaitingCommit? || p.AwaitingLastCommit?
  }

  /** The action lets a consumer of the group commit a record that the cursor has already left behind. */
  predicate LateCommit(world: World, a: Action, topic: string, group: string) {
    && a.Resume? && a.error == None && a.w in world.workers
    && var k := world.workers[a.w];
       && Committing(k.phase) && k.sub.topic == topic && k.sub.group == group
       && CursorOf(world.bus, topic, group).Some?
       && k.phase.rec.offset + 1 < CursorOf(world.bus, topic, group).value
  }

  /** What one step does to the cursor of one group. */
  function NextCursor(world: World, a: Action, topic: string, group: string): Option<nat> {
    if a.Resume? && a.w in world.workers && world.workers[a.w].sub.topic == topic && world.workers[a.w].sub.group == group then
      var k, now := world.workers[a.w], CursorOf(world.bus, topic, group);
      if Committing(k.phase) && a.error == None then Some(k.phase.rec.offset + 1)
      else if k.phase.Polling? && topic in world.bus && now == None then Some(world.bus[topic].Cursor(group, k.sub.reset))
      else now
    else CursorOf(world.bus, topic, group)
  }

  lemma PollMovesCursor(world: World, w: nat, topic: string, group: string)
    requires w in world.workers && world.workers[w].phase.Polling?
    ensures CursorOf(StepPoll(world, w).bus, topic, group) == NextCursor(world, Resume(w, None), topic, group)
  {}

  lemma CommitMovesCursor(world: World, w: nat, topic: string, group: string)
    requires Inv(world) && w in world.workers && Committing(world.workers[w].phase)
    ensures CursorOf(StepCommit(world, w, world.workers[w].phase.rec).bus, topic, group)
         == NextCursor(world, Resume(w, None), topic, group)
  {
    var k := world.workers[w];
    HolderIsReady(world, w);
    RecordAt(world.bus, k.sub.topic, k.phase.rec);
  }

  lemma RetryKeepsBus(world: World, w: nat, rec: Message, attempt: nat, error: string)
    requires w in world.workers
    ensures var next := Retry(world, w, rec, attempt, error);
            next.bus == world.bus && next.starts == world.starts && next.history == world.history
  {}

  lemma ForwardKeepsCursors(world: World, w: nat, rec: Message, letter: Letter, topic: string, group: string)
    requires w in world.workers
    ensures CursorOf(StepForward(world, w, rec, letter).bus, topic, group) == CursorOf(world.bus, topic, group)
  {}

  lemma ResumeMovesCursor(world: World, w: nat, error: Option<string>, topic: string, group: string)
    requires Inv(world) && w in world.workers
    ensures CursorOf(StepResume(world, w, error).bus, topic, group) == NextCursor(world, Resume(w, error), topic, group)
  {
    match world.workers[w].phase
    case Polling => PollMovesCursor(world, w, topic, group);
    case AwaitingHandler(rec, attempt) =>
      if error.Some? { RetryKeepsBus(world, w, rec, attempt, error.value); }
    case AwaitingCommit(rec, attempt) =>
      if error.Some? { RetryKeepsBus(world, w, rec, attempt, error.value); } else { CommitMovesCursor(world, w, topic, group); }
    case AwaitingDlq(rec, letter) =>
      if error == None { ForwardKeepsCursors(world, w, rec, letter, topic, group); }
    case AwaitingLastCommit(rec) =>
      if error == None { CommitMovesCursor(world, w, topic, group); }
    case Stopped =>
  }

  lemma StepMovesCursor(world: World, a: Action, topic: string, group: string)
    requires Inv(world)
    ensures CursorOf(Step(world, a).bus, topic, group) == NextCursor(world, a, topic, group)
  {
    if a.Resume? && a.w in world.workers {
      ResumeMovesCursor(world, a.w, a.error, topic, group);
    }
  }

  /** An open cursor stays open, and a step lowers it exactly if it is a late commit. */
  lemma CursorFallsOnLateCommit(world: World, a: Action, topic: string, group: string)
    requires Inv(world) && CursorOf(world.bus, topic, group).Some?
    ensures var before, after := CursorOf(world.bus, topic, group), CursorOf(Step(world, a).bus, topic, group);
            after.Some? && (after.value < before.value <==> LateCommit(world, a, topic, group))
  {
    StepMovesCursor(world, a, topic, group);
  }

  // ---------------------------------------------------------------------------
  // One live consumer per group
  // ---------------------------------------------------------------------------

  predicate Rivals(a: Worker, b: Worker) {
    !a.phase.Stopped? && !b.phase.Stopped? && a.sub.topic == b.sub.topic && a.sub.group == b.sub.group
  }

  ghost predicate Sole(world: World) {
    forall v, w :: v in world.workers && w in world.workers && v != w ==> !Rivals(world.workers[v], world.workers[w])
  }

  ghost predicate AlwaysSole(world: World, schedule: seq<Action>)
    decreases |schedule|
  {
    Sole(world) && (schedule == [] || AlwaysSole(Step(world, schedule[0]), schedule[1..]))
  }

  /** A record in hand is the one at the cursor. */
  ghost predicate AtCursor(world: World, k: Worker) {
    Holds(k.phase) ==> CursorOf(world.bus, k.sub.topic, k.sub.group) == Some(k.phase.rec.offset)
  }

  ghost predicate HoldersAtCursor(world: World) {
    forall w :: w in world.workers ==> AtCursor(world, world.workers[w])
  }

  lemma RetryStaysAtCursor(world: World, w: nat, rec: Message, attempt: nat, error: string)
    requires w in world.workers && Holds(world.workers[w].phase) && world.workers[w].phase.rec == rec
    requires AtCursor(world, world.workers[w])
    ensures var next := Retry(world, w, rec, attempt, error);
            w in next.workers && next.bus == world.bus && AtCursor(next, next.workers[w])
  {}

  lemma PollTakesCursor(world: World, w: nat)
    requires Inv(world) && w in world.workers && world.workers[w].phase.Polling?
    ensures var next := StepPoll(world, w); w in next.workers && AtCursor(next, next.workers[w])
  {
    var s := world.workers[w].sub;
    assert s.topic in world.bus ==> world.bus[s.topic].OffsetsArePositions();
  }

  lemma ResumedStaysAtCursor(world: World, w: nat, error: Option<string>)
    requires Inv(world) && w in world.workers && AtCursor(world, world.workers[w])
    ensures var next := StepResume(world, w, error); w in next.workers && AtCursor(next, next.workers[w])
  {
    var k := world.workers[w];
    match k.phase
    case Polling => PollTakesCursor(world, w);
    case AwaitingHandler(rec, attempt) =>
      if error.Some? { RetryStaysAtCursor(world, w, rec, attempt, error.value); }
    case AwaitingCommit(rec, attempt) =>
      if error.Some? { RetryStaysAtCursor(world, w, rec, attempt, error.value); }
    case AwaitingDlq(rec, letter) =>
      ResumeMovesCursor(world, w, error, k.sub.topic, k.sub.group);
    case _ =>
  }

  lemma OthersStayAtCursor(world: World, a: Action, v: nat)
    requires Inv(world) && Sole(world) && v in world.workers && (a.Publish? || v != a.w)
    requires AtCursor(world, world.workers[v])
    ensures AtCursor(Step(world, a), world.workers[v])
  {
    var k := world.workers[v];
    StepMovesCursor(world, a, k.sub.topic, k.sub.group);
    if a.Resume? && a.w in world.workers {
      assert !Rivals(world.workers[a.w], k);
    }
  }

  lemma StepKeepsHoldersAtCursor(world: World, a: Action)
    requires Inv(world) && Sole(world) && HoldersAtCursor(world)
    ensures HoldersAtCursor(Step(world, a))
  {
    var next := Step(world, a);
    StepTouchesOneWorker(world, a);
    forall v | v in next.workers
      ensures AtCursor(next, next.workers[v])
    {
      if v in world.workers {
        if a.Publish? || v != a.w {
          OthersStayAtCursor(world, a, v);
        } else if a.Resume? {
          ResumedStaysAtCursor(world, v, a.error);
        }
      }
    }
  }

  lemma SoleNeverCommitsLate(world: World, a: Action, topic: string, group: string)
    requires HoldersAtCursor(world)
    ensures !LateCommit(world, a, topic, group)
  {}

  lemma {:induction false} SoleHoldersStayAtCursor(world: World, schedule: seq<Action>)
    requires Inv(world) && HoldersAtCursor(world) && AlwaysSole(world, schedule)
    ensures HoldersAtCursor(Run(world, schedule))
    decreases |schedule|
  {
    if schedule != [] {
      StepKeeps(world, schedule[0]);
      StepKeepsHoldersAtCursor(world, schedule[0]);
      SoleHoldersStayAtCursor(Step(world, schedule[0]), schedule[1..]);
    }
  }

  /**
   With at most one live consumer per topic and group at every moment, crashes and successors included, no
   step lowers a cursor.
   */
  lemma {:induction false} SoleConsumersKeepCursor(world: World, schedule: seq<Action>, topic: string, group: string)
    requires Inv(world) && HoldersAtCursor(world) && AlwaysSole(world, schedule)
    requires CursorOf(world.bus, topic, group).Some?
    ensures var before, after := CursorOf(world.bus, topic, group), CursorOf(Run(world, schedule).bus, topic, group);
            after.Some? && before.value <= after.value
    decreases |schedule|
  {
    if schedule != [] {
      StepKeeps(world, schedule[0]);
      StepKeepsHoldersAtCursor(world, schedule[0]);
      CursorFallsOnLateCommit(world, schedule[0], topic, group);
      SoleNeverCommitsLate(world, schedule[0], topic, group);
      SoleConsumersKeepCursor(Step(world, schedule[0]), schedule[1..], topic, group);
    }
  }

  /** So in a whole run of sole consumers every delivery is of the record at the cursor, and the next step lowers no cursor. */
  lemma SoleRunsNeverMoveBack(schedule: seq<Action>, a: Action, topic: string, group: string)
    requires AlwaysSole(INITIAL, schedule)
    ensures var world := Run(INITIAL, schedule);
            && HoldersAtCursor(world)
            && var before, after := CursorOf(world.bus, topic, group), CursorOf(Step(world, a).bus, topic, group);
               before.Some? ==> after.Some? && before.value <= after.value
  {
    var world := Run(INITIAL, schedule);
    RunKeeps(INITIAL, schedule);
    SoleHoldersStayAtCursor(INITIAL, schedule);
    SoleNeverCommitsLate(world, a, topic, group);
    if CursorOf(world.bus, topic, group).Some? {
      CursorFallsOnLateCommit(world, a, topic, group);
    }
  }

  // ---------------------------------------------------------------------------
  // Two consumers of one group that do move it back
  // ---------------------------------------------------------------------------

  function Sub(): Subscription {
    Subscription("t", "g", Earliest, 1, _ => Ok(Envelope("e", "n")))
  }

  function Rec(offset: nat): Message {
    Message("t", offset, None, "v", [])
  }

  /** Two records and two consumers of one group, as far as they matter. */
  ghost predicate Scene(world: World, cursor: Option<nat>, p0: Phase, p1: Phase) {
    && "t" in world.bus && world.bus["t"].records == [Rec(0), Rec(1)] && CursorOf(world.bus, "t", "g") == cursor
    && 0 in world.workers && world.workers[0] == Worker(Sub(), p0)
    && 1 in world.workers && world.workers[1] == Worker(Sub(), p1)
  }

  ghost predicate SceneAfter(schedule: seq<Action>, cursor: Option<nat>, p0: Phase, p1: Phase) {
    Scene(Run(INITIAL, schedule), cursor, p0, p1)
  }

  lemma SceneOpens() returns (schedule: seq<Action>)
    ensures SceneAfter(schedule, None, Polling, Polling)
  {
    var p, j0, j1 := Publish("t", None, "v", []), Join(0, Sub()), Join(1, Sub());
    schedule := [] + [p] + [p] + [j0] + [j1];
    RunSnoc(INITIAL, [], p);
    RunSnoc(INITIAL, [] + [p], p);
    RunSnoc(INITIAL, [] + [p] + [p], j0);
    RunSnoc(INITIAL, [] + [p] + [p] + [j0], j1);
  }

  lemma FirstPolls(schedule: seq<Action>) returns (longer: seq<Action>)
    requires SceneAfter(schedule, None, Polling, Polling)
    ensures SceneAfter(longer, Some(0), AwaitingHandler(Rec(0), 1), Polling)
  {
    longer := schedule + [Resume(0, None)];
    RunSnoc(INITIAL, schedule, Resume(0, None));
  }

  lemma FirstHandles(schedule: seq<Action>, cursor: nat) returns (longer: seq<Action>)
    requires SceneAfter(schedule, Some(cursor), AwaitingHandler(Rec(0), 1), Polling)
    ensures SceneAfter(longer, Some(cursor), AwaitingCommit(Rec(0), 1), Polling)
  {
    longer := schedule + [Resume(0, None)];
    RunSnoc(INITIAL, schedule, Resume(0, None));
  }

  /** The second consumer polls the record at the cursor, handles it and commits. */
  lemma SecondSettles(schedule: seq<Action>, cursor: nat, p0: Phase) returns (longer: seq<Action>)
    requires cursor <= 1 && SceneAfter(schedule, Some(cursor), p0, Polling)
    ensures SceneAfter(longer, Some(cursor + 1), p0, Polling)
  {
    var a := Resume(1, None);
    longer := schedule + [a] + [a] + [a];
    RunSnoc(INITIAL, schedule, a);
    RunSnoc(INITIAL, schedule + [a], a);
    RunSnoc(INITIAL, schedule + [a] + [a], a);
    assert SceneAfter(schedule + [a], Some(cursor), p0, AwaitingHandler(Rec(cursor), 1));
    assert SceneAfter(schedule + [a] + [a], Some(cursor), p0, AwaitingCommit(Rec(cursor), 1));
  }

  /** With two live consumers a late commit is reachable, so cursors are not monotone in general. */
  lemma CursorCanMoveBack() returns (schedule: seq<Action>, last: Action)
    ensures LateCommit(Run(INITIAL, schedule), last, "t", "g")
    ensures var before, after := Run(INITIAL, schedule), Step(Run(INITIAL, schedule), last);
            CursorOf(before.bus, "t", "g") == Some(2) && CursorOf(after.bus, "t", "g") == Some(1)
  {
    schedule := SceneOpens();
    schedule := FirstPolls(schedule);
    schedule := SecondSettles(schedule, 0, AwaitingHandler(Rec(0), 1));
    schedule := SecondSettles(schedule, 1, AwaitingHandler(Rec(0), 1));
    schedule := FirstHandles(schedule, 2);
    last := Resume(0, None);
    RunKeeps(INITIAL, schedule);
    StepMovesCursor(Run(INITIAL, schedule), last, "t", "g");
  }

  // ---------------------------------------------------------------------------
  // Where a group starts
  // ---------------------------------------------------------------------------

  lemma PollGrows(world: World, w: nat)
    requires Inv(world) && w in world.workers
    ensures Grows(world, StepPoll(world, w))
  {}

  lemma CommitGrows(world: World, w: nat, rec: Message)
    requires w in world.workers
    ensures Grows(world, StepCommit(world, w, rec))
  {}

  lemma ForwardGrows(world: World, w: nat, rec: Message, letter: Letter)
    requires w in world.workers
    ensures Grows(world, StepForward(world, w, rec, letter))
  {}

  lemma ResumeGrows(world: World, w: nat, error: Option<string>)
    requires Inv(world) && w in world.workers
    ensures Grows(world, StepResume(world, w, error))
  {
    match world.workers[w].phase
    case Polling => PollGrows(world, w);
    case AwaitingHandler(rec, attempt) =>
      if error.Some? { RetryKeepsBus(world, w, rec, attempt, error.value); }
    case AwaitingCommit(rec, attempt) =>
      if error.Some? { RetryKeepsBus(world, w, rec, attempt, error.value); } else { CommitGrows(world, w, rec); }
    case AwaitingDlq(rec, letter) =>
      if error == None { ForwardGrows(world, w, rec, letter); }
    case AwaitingLastCommit(rec) =>
      if error == None { CommitGrows(world, w, rec); }
    case Stopped =>
  }

  lemma StepGrows(world: World, a: Action)
    requires Inv(world)
    ensures Grows(world, Step(world, a))
  {
    if a.Resume? && a.w in world.workers {
      ResumeGrows(world, a.w, a.error);
    }
  }

  lemma GrowsTransitively(a: World, b: World, c: World)
    requires Grows(a, b) && Grows(b, c)
    ensures Grows(a, c)
  {
    forall t
      ensures Look(a.bus, t).records <= Look(c.bus, t).records
    {
      assert Look(a.bus, t).records <= Look(b.bus, t).records <= Look(c.bus, t).records;
    }
  }

  /** Whatever happens next, logs only grow, recorded starts stay where they are and history is never rewritten. */
  lemma {:induction false} RunGrows(world: World, schedule: seq<Action>)
    requires Inv(world)
    ensures Grows(world, Run(world, schedule))
    decreases |schedule|
  {
    if schedule != [] {
      StepKeeps(world, schedule[0]);
      StepGrows(world, schedule[0]);
      RunGrows(Step(world, schedule[0]), schedule[1..]);
      GrowsTransitively(world, Step(world, schedule[0]), Run(world, schedule));
    }
  }

  ghost predicate JoinsEarliest(a: Action, topic: string, group: string) {
    a.Join? && a.sub.topic == topic && a.sub.group == group ==> a.sub.reset == Earliest
  }

  ghost predicate StartsAtZero(world: World, topic: string, group: string) {
    && (forall w :: w in world.workers && world.workers[w].sub.topic == topic && world.workers[w].sub.group == group ==>
          world.workers[w].sub.reset == Earliest)
    && ((topic, group) in world.starts ==> world.starts[(topic, group)] == 0)
  }

  lemma ResumeKeepsZero(world: World, w: nat, error: Option<string>, topic: string, group: string)
    requires w in world.workers && StartsAtZero(world, topic, group)
    ensures var next := StepResume(world, w, error);
            (topic, group) in next.starts ==> next.starts[(topic, group)] == 0
  {}

  lemma {:induction false} EarliestStartsAtZero(world: World, schedule: seq<Action>, topic: string, group: string)
    requires StartsAtZero(world, topic, group) && forall a :: a in schedule ==> JoinsEarliest(a, topic, group)
    ensures StartsAtZero(Run(world, schedule), topic, group)
    decreases |schedule|
  {
    if schedule != [] {
      var a := schedule[0];
      StepTouchesOneWorker(world, a);
      assert JoinsEarliest(a, topic, group);
      if a.Resume? && a.w in world.workers {
        ResumeKeepsZero(world, a.w, a.error, topic, group);
      }
      EarliestStartsAtZero(Step(world, a), schedule[1..], topic, group);
    }
  }

  /** A group that reads from the earliest record skips nothing at all. */
  lemma NothingIsSkippedFromTheFirst(schedule: seq<Action>, topic: string, group: string, offset: nat)
    requires forall a :: a in schedule ==> JoinsEarliest(a, topic, group)
    ensures var world := Run(INITIAL, schedule);
            var cursor := CursorOf(world.bus, topic, group);
            cursor.Some? && offset < cursor.value ==> Settled(world.history, topic, group, offset)
  {
    NothingIsSkipped(schedule, topic, group, offset);
    EarliestStartsAtZero(INITIAL, schedule, topic, group);
  }

  // ---------------------------------------------------------------------------
  // Consumers come and go
  // ---------------------------------------------------------------------------

  /** A new consumer with valid arguments starts by polling; invalid arguments or a taken name start nothing. */
  lemma JoiningStartsToPoll(world: World, w: nat, sub: Subscription)
    ensures var next := Step(world, Join(w, sub));
            && next.bus == world.bus && next.history == world.history
            && (w !in world.workers && sub.topic != "" && sub.group != "" && sub.maxRetries >= 1 ==>
                  next.workers == world.workers[w := Worker(sub, Polling)])
            && (w in world.workers || sub.topic == "" || sub.group == "" || sub.maxRetries < 1 ==> next == world)
  {}

  lemma StoppedStaysStopped(world: World, a: Action, w: nat)
    requires w in world.workers && world.workers[w].phase == Stopped
    ensures w in Step(world, a).workers && Step(world, a).workers[w].phase == Stopped
    ensures a.Resume? && a.w == w ==> Step(world, a) == world
  {
    StepTouchesOneWorker(world, a);
  }

  /** A consumer that crashed does nothing any more, whatever happens around it. */
  lemma CrashIsFinal(world: World, w: nat, schedule: seq<Action>)
    requires w in world.workers
    ensures var end := Run(Step(world, Crash(w)), schedule); w in end.workers && end.workers[w].phase == Stopped
  {
    StoppedForGood(Step(world, Crash(w)), w, schedule);
  }

  lemma {:induction false} StoppedForGood(world: World, w: nat, schedule: seq<Action>)
    requires w in world.workers && world.workers[w].phase == Stopped
    ensures var end := Run(world, schedule); w in end.workers && end.workers[w].phase == Stopped
    decreases |schedule|
  {
    if schedule != [] {
      StoppedStaysStopped(world, schedule[0], w);
      StoppedForGood(Step(world, schedule[0]), w, schedule[1..]);
    }
  }

  // ---------------------------------------------------------------------------
  // How often the handler is called
  // ---------------------------------------------------------------------------

  /** Whether `a` makes consumer `w` call its handler: it comes to await one it was not already awaiting. */
  predicate CallsHandler(world: World, a: Action, w: nat) {
    var next := Step(world, a);
    && w in world.workers && w in next.workers
    && next.workers[w].phase.AwaitingHandler? && next.workers[w].phase != world.workers[w].phase
  }

  /** One step's count: a consumer that polls starts again. */
  function CallsAfter(world: World, a: Action, w: nat, calls: nat): nat {
    (if w in world.workers && world.workers[w].phase.Polling? then 0 else calls) + if CallsHandler(world, a, w) then 1 else 0
  }

  /** The handler calls `w` made for the record it took last; `calls` were made before the schedule. */
  function HandlerCalls(world: World, schedule: seq<Action>, w: nat, calls: nat): nat
    decreases |schedule|
  {
    if schedule == [] then calls
    else HandlerCalls(Step(world, schedule[0]), schedule[1..], w, CallsAfter(world, schedule[0], w, calls))
  }

  /** The attempt number counts the calls, and the budget is kept after the attempts too. */
  ghost predicate CallsCounted(world: World, w: nat, calls: nat) {
    if w !in world.workers then calls == 0
    else
      var k := world.workers[w];
      && (k.phase.AwaitingHandler? || k.phase.AwaitingCommit? ==> calls == k.phase.attempt)
      && calls <= k.sub.maxRetries
      && (Holds(k.phase) && k.sub.parse(k.phase.rec.value).Err? ==> calls == 0)
  }

  lemma RetryCounts(world: World, w: nat, rec: Message, attempt: nat, error: string, calls: nat)
    requires w in world.workers && WorkerOk(world, world.workers[w]) && CallsCounted(world, w, calls)
    requires var p := world.workers[w].phase;
             (p.AwaitingHandler? || p.AwaitingCommit?) && p.rec == rec && p.attempt == attempt
    ensures var next := Retry(world, w, rec, attempt, error);
            && w in next.workers
            && CallsCounted(next, w, calls + if next.workers[w].phase.AwaitingHandler? then 1 else 0)
            && next.workers[w].phase != world.workers[w].phase
  {}

  lemma PollCounts(world: World, w: nat)
    requires w in world.workers && WorkerOk(world, world.workers[w]) && world.workers[w].phase.Polling?
    ensures var next := StepPoll(world, w);
            w in next.workers && CallsCounted(next, w, if next.workers[w].phase.AwaitingHandler? then 1 else 0)
  {}

  lemma ResumeCounts(world: World, w: nat, error: Option<string>, calls: nat)
    requires Inv(world) && w in world.workers && CallsCounted(world, w, calls)
    ensures CallsCounted(Step(world, Resume(w, error)), w, CallsAfter(world, Resume(w, error), w, calls))
  {
    assert WorkerOk(world, world.workers[w]);
    match world.workers[w].phase
    case Polling => PollCounts(world, w);
    case AwaitingHandler(rec, attempt) =>
      if error.Some? { RetryCounts(world, w, rec, attempt, error.value, calls); }
    case AwaitingCommit(rec, attempt) =>
      if error.Some? { RetryCounts(world, w, rec, attempt, error.value, calls); }
    case _ =>
  }

  lemma StepCounts(world: World, a: Action, w: nat, calls: nat)
    requires Inv(world) && CallsCounted(world, w, calls)
    ensures CallsCounted(Step(world, a), w, CallsAfter(world, a, w, calls))
  {
    StepTouchesOneWorker(world, a);
    if w in world.workers && a.Resume? && a.w == w {
      ResumeCounts(world, w, a.error, calls);
    }
  }

  lemma {:induction false} RunCounts(world: World, schedule: seq<Action>, w: nat, calls: nat)
    requires Inv(world) && CallsCounted(world, w, calls)
    ensures CallsCounted(Run(world, schedule), w, HandlerCalls(world, schedule, w, calls))
    decreases |schedule|
  {
    if schedule != [] {
      var next, after := Step(world, schedule[0]), CallsAfter(world, schedule[0], w, calls);
      StepKeeps(world, schedule[0]);
      StepCounts(world, schedule[0], w, calls);
      RunCounts(next, schedule[1..], w, after);
      assert Run(world, schedule) == Run(next, schedule[1..]);
      assert HandlerCalls(world, schedule, w, calls) == HandlerCalls(next, schedule[1..], w, after);
    }
  }

  /** No delivery calls the handler more often than the budget, nor at all for a record that does not parse. */
  lemma HandlerCallsAreBounded(schedule: seq<Action>, w: nat)
    requires w in Run(INITIAL, schedule).workers
    ensures var k, calls := Run(INITIAL, schedule).workers[w], HandlerCalls(INITIAL, schedule, w, 0);
            && calls <= k.sub.maxRetries
            && (k.phase.AwaitingHandler? || k.phase.AwaitingCommit? ==> calls == k.phase.attempt)
            && (Holds(k.phase) && k.sub.parse(k.phase.rec.value).Err? ==> calls == 0)
  {
    RunCounts(INITIAL, schedule, w, 0);
  }
}
