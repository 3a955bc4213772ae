/**
 The usage-metering dispatcher: a bounded queue between the request path and one background worker.
 Requests, the worker and `stop` interleave at their awaits, so each of them is cut into the steps between awaits.
 */
module Metering {
  datatype UsageRecord = UsageRecord(tenant: string, provider: string, model: string, promptTokens: nat, completionTokens: nat)

  datatype Item = Usage(record: UsageRecord) | Sentinel

  /** `Finished` is a task that has returned while the dispatcher still holds it. */
  datatype Worker = Absent | Waiting | Writing(record: UsageRecord) | Finished

  /**
   The dispatcher and its history: `seen` were recorded while a worker was installed, split into `accepted` and
   `dropped`; `handed` were written from the queue and `direct` without one; `stopping` is a stop that awaits the worker.
   */
  datatype State = State(queue: seq<Item>, worker: Worker, closed: bool, stopping: bool, seen: seq<UsageRecord>,
                         accepted: seq<UsageRecord>, dropped: seq<UsageRecord>, handed: seq<UsageRecord>, direct: seq<UsageRecord>)

  const INITIAL := State([], Absent, false, false, [], [], [], [], [])

  datatype Step = Start | Record(record: UsageRecord) | StopBegin | StopEnd | WorkerGet | WorkerWritten

  /** A queue of no positive size is unbounded. */
  predicate Full(bound: int, queue: seq<Item>) {
    0 < bound <= |queue|
  }

  function Offer(bound: int, queue: seq<Item>, item: Item): seq<Item> {
    if Full(bound, queue) then queue else queue + [item]
  }

  /** One step; a step that is not enabled changes nothing. */
  function Apply(bound: int, s: State, step: Step): State {
    match step
    case Start =>
      if s.worker.Absent? then s.(closed := false, worker := Waiting) else s
    case Record(r) =>
      if s.worker.Absent? then s.(direct := s.direct + [r])
      else if Full(bound, s.queue) then s.(seen := s.seen + [r], dropped := s.dropped + [r])
      else s.(seen := s.seen + [r], accepted := s.accepted + [r], queue := s.queue + [Usage(r)])
    case StopBegin =>
      if s.worker.Absent? then s.(closed := true)
      else s.(closed := true, stopping := true, queue := Offer(bound, s.queue, Sentinel))
    case StopEnd =>
      if s.worker.Finished? && s.stopping then s.(worker := Absent, stopping := false) else s
    case WorkerGet =>
      if !s.worker.Waiting? || s.queue == [] then s
      else s.(queue := s.queue[1..], worker := match s.queue[0] case Usage(r) => Writing(r) case Sentinel => Finished)
    case WorkerWritten =>
      if s.worker.Writing? then s.(worker := Waiting, handed := s.handed + [s.worker.record]) else s
  }

  function Run(bound: int, s: State, steps: seq<Step>): State
    decreases |steps|
  {
    if steps == [] then s else Run(bound, Apply(bound, s, steps[0]), steps[1..])
  }

  class MeteringDispatcher {
    const bound: int
    var queue: seq<Item>
    var worker: Worker
    var closed: bool
    ghost var stopping: bool
    ghost var seen: seq<UsageRecord>
    ghost var accepted: seq<UsageRecord>
    ghost var dropped: seq<UsageRecord>
    ghost var handed: seq<UsageRecord>
    ghost var direct: seq<UsageRecord>

    ghost function View(): State
      reads this
    {
      State(queue, worker, closed, stopping, seen, accepted, dropped, handed, direct)
    }

    constructor (bound: int)
      ensures View() == INITIAL && this.bound == bound
    {
      this.bound := bound;
      queue, worker, closed := [], Absent, false;
      stopping, seen, accepted, dropped, handed, direct := false, [], [], [], [], [];
    }

    method Start()
      modifies this
      ensures View() == Apply(bound, old(View()), Step.Start)
      ensures closed == (if old(worker) == Absent then false else old(closed)) && worker != Absent
    {
      if worker != Absent {
        return;
      }
      closed := false;
      worker := Waiting;
    }

    /** Never blocks: with the queue full the record is dropped, with no worker it is written at once. */
    method Record(r: UsageRecord) returns (written: bool)
      modifies this
      ensures View() == Apply(bound, old(View()), Step.Record(r))
      ensures written <==> old(worker) == Absent
    {
      written := worker == Absent;
      if written {
        direct := direct + [r];
        return;
      }
      seen := seen + [r];
      if Full(bound, queue) {
        dropped := dropped + [r];
      } else {
        queue := queue + [Usage(r)];
        accepted := accepted + [r];
      }
    }

    /** `stop` up to its await; there is nothing to await without a worker. */
    method StopBegin() returns (awaits: bool)
      modifies this
      ensures View() == Apply(bound, old(View()), Step.StopBegin)
      ensures closed && (awaits <==> old(worker) != Absent)
    {
      closed := true;
      awaits := worker != Absent;
      if awaits {
        if !Full(bound, queue) {
          queue := queue + [Sentinel];
        }
        stopping := true;
      }
    }

    /** `stop` after its await. */
    method StopEnd()
      requires worker == Finished && stopping
      modifies this
      ensures View() == Apply(bound, old(View()), Step.StopEnd)
    {
      worker := Absent;
      stopping := false;
    }

    /** The worker from a finished get to its next await, or to its end. */
    method WorkerGet()
      requires worker == Waiting && queue != []
      modifies this
      ensures View() == Apply(bound, old(View()), Step.WorkerGet)
    {
      var item := queue[0];
      queue := queue[1..];
      match item {
        case Usage(r) => worker := Writing(r);
        case Sentinel => worker := Finished;
      }
    }

    /** The sink returned or raised; either way the worker goes on to the next record. */
    method WorkerWritten()
      requires worker.Writing?
      modifies this
      ensures View() == Apply(bound, old(View()), Step.WorkerWritten)
    {
      handed := handed + [worker.record];
      worker := Waiting;
    }
  }

  // ---------------------------------------------------------------------------
  // Conservation
  // ---------------------------------------------------------------------------

  function Contents(item: Item): seq<UsageRecord> {
    match item
    case Usage(r) => [r]
    case Sentinel => []
  }

  function Records(queue: seq<Item>): seq<UsageRecord> {
    if queue == [] then [] else Contents(queue[0]) + Records(queue[1..])
  }

  function InFlight(w: Worker): seq<UsageRecord> {
    if w.Writing? then [w.record] else []
  }

  /** Every accepted record is written, being written or queued, in the order of acceptance and once. */
  ghost predicate InOrder(s: State) {
    s.accepted == s.handed + InFlight(s.worker) + Records(s.queue)
  }

  /** Nothing recorded is lost without trace, and the queue keeps its bound. */
  ghost predicate Counted(bound: int, s: State) {
    && multiset(s.seen) == multiset(s.accepted) + multiset(s.dropped)
    && (0 < bound ==> |s.queue| <= bound)
  }

  ghost predicate Conserved(bound: int, s: State) {
    InOrder(s) && Counted(bound, s)
  }

  lemma {:induction false} RecordsSnoc(queue: seq<Item>, item: Item)
    ensures Records(queue + [item]) == Records(queue) + Contents(item)
  {
    if queue == [] {
      assert queue + [item] == [item];
      assert Contents(item) + [] == [] + Contents(item);
    } else {
      assert (queue + [item])[1..] == queue[1..] + [item];
      RecordsSnoc(queue[1..], item);
      Regroup(Contents(queue[0]), Records(queue[1..]), Contents(item));
    }
  }

  lemma Regroup<T>(a: seq<T>, b: seq<T>, c: seq<T>)
    ensures a + (b + c) == (a + b) + c
  {}

  lemma OfferKeepsOrder(s: State, item: Item)
    requires InOrder(s)
    ensures s.accepted + Contents(item) == s.handed + InFlight(s.worker) + Records(s.queue + [item])
  {
    RecordsSnoc(s.queue, item);
    Regroup(s.handed + InFlight(s.worker), Records(s.queue), Contents(item));
  }

  lemma GetKeepsOrder(bound: int, s: State)
    requires InOrder(s)
    ensures InOrder(Apply(bound, s, WorkerGet))
  {
    if s.worker.Waiting? && s.queue != [] {
      assert s.handed + [] == s.handed;
      Regroup(s.handed, Contents(s.queue[0]), Records(s.queue[1..]));
    }
  }

  lemma RecordKeepsOrder(bound: int, s: State, r: UsageRecord)
    requires InOrder(s)
    ensures InOrder(Apply(bound, s, Record(r)))
  {
    OfferKeepsOrder(s, Usage(r));
  }

  lemma StopKeepsOrder(bound: int, s: State)
    requires InOrder(s)
    ensures InOrder(Apply(bound, s, StopBegin))
  {
    OfferKeepsOrder(s, Sentinel);
    assert s.accepted + [] == s.accepted;
  }

  lemma WrittenKeepsOrder(bound: int, s: State)
    requires InOrder(s)
    ensures InOrder(Apply(bound, s, WorkerWritten))
  {
    if s.worker.Writing? {
      assert (s.handed + [s.worker.record]) + [] == s.handed + [s.worker.record];
    }
  }

  lemma StepKeepsOrder(bound: int, s: State, step: Step)
    requires InOrder(s)
    ensures InOrder(Apply(bound, s, step))
  {
    match step
    case Start =>
    case Record(r) => RecordKeepsOrder(bound, s, r);
    case StopBegin => StopKeepsOrder(bound, s);
    case StopEnd =>
    case WorkerGet => GetKeepsOrder(bound, s);
    case WorkerWritten => WrittenKeepsOrder(bound, s);
  }

  lemma StepKeepsCount(bound: int, s: State, step: Step)
    requires Counted(bound, s)
    ensures Counted(bound, Apply(bound, s, step))
  {}

  lemma StepConserves(bound: int, s: State, step: Step)
    requires Conserved(bound, s)
    ensures Conserved(bound, Apply(bound, s, step))
  {
    StepKeepsOrder(bound, s, step);
    StepKeepsCount(bound, s, step);
  }

  lemma {:induction false} RunConserves(bound: int, s: State, steps: seq<Step>)
    requires Conserved(bound, s)
    ensures Conserved(bound, Run(bound, s, steps))
    decreases |steps|
  {
    if steps != [] {
      StepConserves(bound, s, steps[0]);
      RunConserves(bound, Apply(bound, s, steps[0]), steps[1..]);
    }
  }

  /** With a worker, a record is dropped exactly when the queue is at its bound, else queued last; without, written directly. */
  lemma RecordIsAccounted(bound: int, s: State, r: UsageRecord)
    ensures var next := Apply(bound, s, Record(r));
            && next.worker == s.worker && next.handed == s.handed
            && (s.worker.Absent? ==>
                  next.direct == s.direct + [r] && next.queue == s.queue && next.accepted == s.accepted && next.dropped == s.dropped)
            && (!s.worker.Absent? && 0 < bound && |s.queue| >= bound ==>
                  next.dropped == s.dropped + [r] && next.queue == s.queue && next.accepted == s.accepted && next.direct == s.direct)
            && (!s.worker.Absent? && (bound <= 0 || |s.queue| < bound) ==>
                  && next.accepted == s.accepted + [r] && next.queue == s.queue + [Usage(r)]
                  && next.dropped == s.dropped && next.direct == s.direct)
  {}

  function RecordedBy(step: Step): seq<UsageRecord> {
    if step.Record? then [step.record] else []
  }

  function Recorded(steps: seq<Step>): seq<UsageRecord> {
    if steps == [] then [] else RecordedBy(steps[0]) + Recorded(steps[1..])
  }

  function Accounted(s: State): multiset<UsageRecord> {
    multiset(s.accepted) + multiset(s.dropped) + multiset(s.direct)
  }

  lemma OneMore(a: seq<UsageRecord>, b: seq<UsageRecord>, c: seq<UsageRecord>, r: UsageRecord)
    ensures multiset(a + [r]) + multiset(b) + multiset(c) == multiset(a) + multiset(b) + multiset(c) + multiset{r}
    ensures multiset(a) + multiset(b + [r]) + multiset(c) == multiset(a) + multiset(b) + multiset(c) + multiset{r}
    ensures multiset(a) + multiset(b) + multiset(c + [r]) == multiset(a) + multiset(b) + multiset(c) + multiset{r}
  {}

  lemma OthersAccountForNothing(bound: int, s: State, step: Step)
    requires !step.Record?
    ensures var next := Apply(bound, s, step);
            next.accepted == s.accepted && next.dropped == s.dropped && next.direct == s.direct
  {}

  lemma StepAccounts(bound: int, s: State, step: Step)
    ensures Accounted(Apply(bound, s, step)) == Accounted(s) + multiset(RecordedBy(step))
  {
    if step.Record? {
      RecordIsAccounted(bound, s, step.record);
      OneMore(s.accepted, s.dropped, s.direct, step.record);
      assert multiset([step.record]) == multiset{step.record};
    } else {
      OthersAccountForNothing(bound, s, step);
    }
  }

  /** Over any run, every record ever made was accepted, dropped or written directly, once. */
  lemma {:induction false} RunAccounts(bound: int, s: State, steps: seq<Step>)
    ensures Accounted(Run(bound, s, steps)) == Accounted(s) + multiset(Recorded(steps))
    decreases |steps|
  {
    if steps != [] {
      var next := Apply(bound, s, steps[0]);
      StepAccounts(bound, s, steps[0]);
      RunAccounts(bound, next, steps[1..]);
      MultisetSum(RecordedBy(steps[0]), Recorded(steps[1..]));
      assert Run(bound, s, steps) == Run(bound, next, steps[1..]);
    }
  }

  lemma MultisetSum(a: seq<UsageRecord>, b: seq<UsageRecord>)
    ensures multiset(a + b) == multiset(a) + multiset(b)
  {}

  /** A queue without a bound never drops a record. */
  lemma {:induction false} UnboundedDropsNothing(bound: int, s: State, steps: seq<Step>)
    requires bound <= 0
    ensures Run(bound, s, steps).dropped == s.dropped
    decreases |steps|
  {
    if steps != [] {
      if steps[0].Record? {
        RecordIsAccounted(bound, s, steps[0].record);
      }
      UnboundedDropsNothing(bound, Apply(bound, s, steps[0]), steps[1..]);
    }
  }

  // ---------------------------------------------------------------------------
  // What a stop leaves behind
  // ---------------------------------------------------------------------------

  /** The queued records the worker reaches before a sentinel. */
  function Ahead(queue: seq<Item>): seq<UsageRecord> {
    if queue == [] || queue[0].Sentinel? then [] else [queue[0].record] + Ahead(queue[1..])
  }

  function Behind(queue: seq<Item>): seq<UsageRecord> {
    if queue == [] then []
    else if queue[0].Sentinel? then Records(queue[1..])
    else Behind(queue[1..])
  }

  /** The accepted records the installed worker will not write. */
  function Stranded(s: State): seq<UsageRecord> {
    if s.worker.Absent? || s.worker.Finished? then Records(s.queue) else Behind(s.queue)
  }

  /** All the installed worker will have written from the queue if nothing is added. */
  function Due(s: State): seq<UsageRecord> {
    s.handed + InFlight(s.worker) + if s.worker.Finished? then [] else Ahead(s.queue)
  }

  /** The worker has ended or its end is queued. */
  predicate Ending(s: State) {
    s.worker.Finished? || Sentinel in s.queue
  }

  lemma {:induction false} QueueSplits(queue: seq<Item>)
    ensures Records(queue) == Ahead(queue) + Behind(queue)
    ensures Sentinel !in queue ==> Behind(queue) == []
  {
    if queue != [] && !queue[0].Sentinel? {
      QueueSplits(queue[1..]);
      Regroup(Contents(queue[0]), Ahead(queue[1..]), Behind(queue[1..]));
    }
  }

  lemma {:induction false} AheadSnoc(queue: seq<Item>, item: Item)
    ensures Ahead(queue + [item]) == Ahead(queue) + if Sentinel !in queue && item.Usage? then [item.record] else []
  {
    if queue == [] {
      assert queue + [item] == [item];
    } else {
      assert (queue + [item])[1..] == queue[1..] + [item];
      assert queue == [queue[0]] + queue[1..];
      if queue[0].Usage? {
        AheadSnoc(queue[1..], item);
      }
    }
  }

  /** What the worker does itself does not change what it will have written. */
  lemma WorkerKeepsDue(bound: int, s: State, step: Step)
    requires step.WorkerGet? || step.WorkerWritten?
    ensures Due(Apply(bound, s, step)) == Due(s)
  {
    if step.WorkerGet? && s.worker.Waiting? && s.queue != [] {
      assert s.handed + [] == s.handed;
      Regroup(s.handed, Contents(s.queue[0]), Ahead(s.queue[1..]));
    } else if step.WorkerWritten? && s.worker.Writing? {
      assert s.handed + [s.worker.record] + [] == s.handed + [s.worker.record];
    }
  }

  lemma OfferGrowsAhead(bound: int, queue: seq<Item>, item: Item)
    ensures Ahead(queue) <= Ahead(Offer(bound, queue, item))
    ensures Sentinel in queue || item.Sentinel? ==> Ahead(Offer(bound, queue, item)) == Ahead(queue)
  {
    AheadSnoc(queue, item);
    assert Ahead(queue) + [] == Ahead(queue);
  }

  lemma PrefixUnder<T>(front: seq<T>, a: seq<T>, b: seq<T>)
    requires a <= b
    ensures front + a <= front + b
  {}

  lemma OffersGrowDue(bound: int, s: State, step: Step)
    requires step.Record? || step.StopBegin?
    ensures Due(s) <= Due(Apply(bound, s, step))
    ensures Ending(s) || step.StopBegin? ==> Due(Apply(bound, s, step)) == Due(s)
  {
    var item := if step.Record? then Usage(step.record) else Sentinel;
    OfferGrowsAhead(bound, s.queue, item);
    PrefixUnder(s.handed + InFlight(s.worker), Ahead(s.queue), Ahead(Offer(bound, s.queue, item)));
  }

  lemma EndStaysQueued(bound: int, s: State, step: Step)
    requires !s.worker.Absent? && step != StopEnd
    ensures !Apply(bound, s, step).worker.Absent?
    ensures Ending(s) ==> Ending(Apply(bound, s, step))
  {
    if step.WorkerGet? && s.queue != [] {
      assert s.queue == [s.queue[0]] + s.queue[1..];
    }
  }

  lemma DueGrows(bound: int, s: State, step: Step)
    requires !s.worker.Absent? && step != StopEnd
    ensures Due(s) <= Due(Apply(bound, s, step))
    ensures Ending(s) || step.StopBegin? ==> Due(Apply(bound, s, step)) == Due(s)
  {
    match step
    case Record(_) => OffersGrowDue(bound, s, step);
    case StopBegin => OffersGrowDue(bound, s, step);
    case WorkerGet => WorkerKeepsDue(bound, s, step);
    case WorkerWritten => WorkerKeepsDue(bound, s, step);
    case _ =>
  }

  lemma {:induction false} DueGrowsOverRun(bound: int, s: State, steps: seq<Step>)
    requires !s.worker.Absent? && StopEnd !in steps
    ensures var end := Run(bound, s, steps);
            && !end.worker.Absent? && Due(s) <= Due(end) && (Ending(s) ==> Due(end) == Due(s))
    decreases |steps|
  {
    if steps != [] {
      EndStaysQueued(bound, s, steps[0]);
      DueGrows(bound, s, steps[0]);
      DueGrowsOverRun(bound, Apply(bound, s, steps[0]), steps[1..]);
    }
  }

  /** A stop begun in `s` may return after `steps`: at once without a worker, else when the worker has ended. */
  predicate Returns(bound: int, s: State, steps: seq<Step>) {
    if s.worker.Absent? then steps == []
    else StopEnd !in steps && Run(bound, Apply(bound, s, StopBegin), steps).worker.Finished?
  }

  lemma AcceptedSplits(bound: int, s: State)
    requires Conserved(bound, s)
    ensures s.accepted == (if s.worker.Absent? then s.handed else Due(s)) + Stranded(s)
    ensures !s.worker.Absent? && !Ending(s) ==> Stranded(s) == []
  {
    QueueSplits(s.queue);
    if s.worker.Waiting? || s.worker.Writing? {
      Regroup(s.handed + InFlight(s.worker), Ahead(s.queue), Behind(s.queue));
    } else {
      assert s.handed + [] == s.handed;
    }
  }

  lemma WorkerEnds(bound: int, s: State, steps: seq<Step>)
    requires !s.worker.Absent? && Returns(bound, s, steps)
    ensures var handed := Run(bound, Apply(bound, s, StopBegin), steps).handed;
            Due(s) <= handed && (Ending(s) ==> handed == Due(s))
  {
    var begun := Apply(bound, s, StopBegin);
    var end := Run(bound, begun, steps);
    EndStaysQueued(bound, s, StopBegin);
    DueGrows(bound, s, StopBegin);
    DueGrowsOverRun(bound, begun, steps);
    assert end.handed + [] + [] == end.handed;
  }

  lemma PrefixOrNot<T>(handed: seq<T>, due: seq<T>, rest: seq<T>)
    requires due <= handed && (rest != [] ==> handed == due)
    ensures due + rest <= handed <==> rest == []
  {
    assert due + [] == due;
  }

  /**
   When a stop returns, everything accepted before it has been written exactly if, when it began, no record stood
   behind an earlier sentinel or an ended worker.
   */
  lemma StopIsComplete(bound: int, s: State, steps: seq<Step>)
    requires Conserved(bound, s) && Returns(bound, s, steps)
    ensures s.accepted <= Run(bound, Apply(bound, s, StopBegin), steps).handed <==> Stranded(s) == []
  {
    AcceptedSplits(bound, s);
    if s.worker.Absent? {
      PrefixOrNot(s.handed, s.handed, Stranded(s));
    } else {
      WorkerEnds(bound, s, steps);
      PrefixOrNot(Run(bound, Apply(bound, s, StopBegin), steps).handed, Due(s), Stranded(s));
    }
  }

  /** No stop begins while another awaits the worker. */
  predicate OneStopAtATime(bound: int, s: State, steps: seq<Step>)
    decreases |steps|
  {
    steps == [] || ((steps[0].StopBegin? ==> !s.stopping) && OneStopAtATime(bound, Apply(bound, s, steps[0]), steps[1..]))
  }

  function Sentinels(queue: seq<Item>): nat {
    multiset(queue)[Sentinel]
  }

  ghost predicate Tidy(s: State) {
    && (s.stopping ==> !s.worker.Absent?)
    && (!s.stopping ==> !s.worker.Finished?)
    && Sentinels(s.queue) <= (if s.stopping && !s.worker.Finished? then 1 else 0)
  }

  lemma SentinelsCount(bound: int, queue: seq<Item>, item: Item)
    ensures Sentinels(Offer(bound, queue, item)) <= Sentinels(queue) + if item.Sentinel? then 1 else 0
    ensures Sentinel in queue <==> Sentinels(queue) > 0
    ensures queue != [] ==> Sentinels(queue[1..]) == Sentinels(queue) - if queue[0].Sentinel? then 1 else 0
  {
    if queue != [] {
      assert queue == [queue[0]] + queue[1..];
    }
  }

  lemma StepStaysTidy(bound: int, s: State, step: Step)
    requires Tidy(s) && (step.StopBegin? ==> !s.stopping)
    ensures Tidy(Apply(bound, s, step))
  {
    match step
    case Record(r) => SentinelsCount(bound, s.queue, Usage(r));
    case StopBegin => SentinelsCount(bound, s.queue, Sentinel);
    case WorkerGet => SentinelsCount(bound, s.queue, Sentinel);
    case _ =>
  }

  lemma {:induction false} RunStaysTidy(bound: int, s: State, steps: seq<Step>)
    requires Tidy(s) && OneStopAtATime(bound, s, steps)
    ensures Tidy(Run(bound, s, steps))
    decreases |steps|
  {
    if steps != [] {
      StepStaysTidy(bound, s, steps[0]);
      RunStaysTidy(bound, Apply(bound, s, steps[0]), steps[1..]);
    }
  }

  /** In a run whose stops do not overlap, a stop that finds a worker returns only when all accepted before is written. */
  lemma LoneStopDrains(bound: int, steps: seq<Step>, during: seq<Step>)
    requires OneStopAtATime(bound, INITIAL, steps)
    requires var s := Run(bound, INITIAL, steps);
             !s.stopping && !s.worker.Absent? && Returns(bound, s, during)
    ensures var s := Run(bound, INITIAL, steps);
            s.accepted <= Run(bound, Apply(bound, s, StopBegin), during).handed
  {
    var s := Run(bound, INITIAL, steps);
    RunConserves(bound, INITIAL, steps);
    RunStaysTidy(bound, INITIAL, steps);
    SentinelsCount(bound, s.queue, Sentinel);
    QueueSplits(s.queue);
    StopIsComplete(bound, s, during);
  }

  // ---------------------------------------------------------------------------
  // Whether a stop can return
  // ---------------------------------------------------------------------------

  lemma {:induction false} NoEndInSight(bound: int, s: State, steps: seq<Step>)
    requires !s.worker.Absent? && !Ending(s) && StopBegin !in steps
    ensures !Ending(Run(bound, s, steps)) && !Run(bound, s, steps).worker.Absent?
    decreases |steps|
  {
    if steps != [] {
      NoEndInSight(bound, Apply(bound, s, steps[0]), steps[1..]);
    }
  }

  /** The worker's own steps up to its end. */
  function Drain(s: State): seq<Step>
    decreases |s.queue|, if s.worker.Writing? then 1 else 0
  {
    if s.worker.Writing? then [WorkerWritten] + Drain(Apply(0, s, WorkerWritten))
    else if s.worker.Waiting? && s.queue != [] then [WorkerGet] + Drain(Apply(0, s, WorkerGet))
    else []
  }

  lemma {:induction false} DrainEnds(bound: int, s: State)
    requires !s.worker.Absent? && Ending(s)
    ensures Run(bound, s, Drain(s)).worker.Finished? && StopBegin !in Drain(s) && StopEnd !in Drain(s)
    decreases |s.queue|, if s.worker.Writing? then 1 else 0
  {
    if s.worker.Writing? {
      DrainEnds(bound, Apply(0, s, WorkerWritten));
    } else if s.worker.Waiting? {
      assert s.queue == [s.queue[0]] + s.queue[1..];
      DrainEnds(bound, Apply(0, s, WorkerGet));
    }
  }

  /** A way for the stop begun in `s` to return without help from another stop. */
  predicate ReturnsAlone(bound: int, s: State, steps: seq<Step>) {
    StopBegin !in steps && Returns(bound, s, steps)
  }

  /**
   A stop can return exactly if there is no worker, the worker has ended, its sentinel fits into the queue, or one
   is already there: on a full queue the sentinel is silently left out and the stop waits for ever.
   */
  lemma StopCanReturn(bound: int, s: State)
    ensures (exists steps :: ReturnsAlone(bound, s, steps)) <==> s.worker.Absent? || bound <= 0 || |s.queue| < bound || Ending(s)
  {
    var begun := Apply(bound, s, StopBegin);
    if s.worker.Absent? {
      assert ReturnsAlone(bound, s, []);
    } else if !Full(bound, s.queue) || Ending(s) {
      DrainEnds(bound, begun);
      assert ReturnsAlone(bound, s, Drain(begun));
    } else {
      forall steps | StopBegin !in steps
        ensures !ReturnsAlone(bound, s, steps)
      {
        NoEndInSight(bound, begun, steps);
      }
    }
  }

  lemma RunThree(bound: int, s: State, a: Step, b: Step, c: Step)
    ensures Run(bound, s, [a, b, c]) == Apply(bound, Apply(bound, Apply(bound, s, a), b), c)
  {
    var one := Apply(bound, s, a);
    var two := Apply(bound, one, b);
    assert [a, b, c][1..] == [b, c] && [b, c][1..] == [c] && [c][1..] == [];
    assert Run(bound, two, [c]) == Run(bound, Apply(bound, two, c), []) == Apply(bound, two, c);
    assert Run(bound, one, [b, c]) == Run(bound, two, [c]);
  }

  /** Two overlapping stops: the second one returns although a record accepted before it was never written. */
  lemma OverlappingStopsLoseARecord(r: UsageRecord)
    ensures var s := Run(0, INITIAL, [Start, StopBegin, Record(r)]);
            && s.stopping && Returns(0, s, [WorkerGet])
            && r in s.accepted && r !in Run(0, Apply(0, s, StopBegin), [WorkerGet]).handed
  {
    RunThree(0, INITIAL, Start, StopBegin, Record(r));
    var s := State([Sentinel, Usage(r)], Waiting, true, true, [r], [r], [], [], []);
    var again := State([Sentinel, Usage(r), Sentinel], Waiting, true, true, [r], [r], [], [], []);
    assert Run(0, INITIAL, [Start, StopBegin, Record(r)]) == s && Apply(0, s, StopBegin) == again;
    assert Run(0, again, [WorkerGet]) == Run(0, Apply(0, again, WorkerGet), [])
        == State([Usage(r), Sentinel], Finished, true, true, [r], [r], [], [], []);
  }
}
