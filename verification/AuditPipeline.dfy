/**
 The audit consumer's buffer: envelopes wait in memory until the batch is full,
 the flush timer fires or the service shuts down.

 `FlushBatch` has no suspension point, so a flush and the `clear` that follows it
 are one step; the methods below are those steps.
 */
module AuditPipeline {
  import opened Common
  import opened AuditStore
  import opened AuditRuns

  const EMPTY_DB := Db(map[], map[], map[])

  datatype Action =
    | Deliver(item: Item, now: real, dbFails: bool)
    | Tick(now: real, dbFails: bool)

  /** The buffer, its timer and the tables behind it. */
  datatype Snapshot = Snapshot(envelopes: seq<Item>, since: real, alive: bool, db: Db)

  /** A flush that returns normally empties the buffer. */
  function Emptied(b: Snapshot, dbFails: bool): Option<Snapshot> {
    var f := Flushed(b.db, b.envelopes, true);
    if dbFails || f.result.UpstreamError? then None else Some(b.(envelopes := [], since := 0.0, db := f.db))
  }

  function Handled(size: nat, b: Snapshot, item: Item, now: real, dbFails: bool): Snapshot {
    var added := b.(envelopes := b.envelopes + [item], since := if b.envelopes == [] then now else b.since);
    if |added.envelopes| >= size then Emptied(added, dbFails).GetOr(added) else added
  }

  function Ticked(size: nat, interval: real, b: Snapshot, now: real, dbFails: bool): Snapshot {
    if b.alive && b.envelopes != [] && (|b.envelopes| >= size || now - b.since >= interval)
    then Emptied(b, dbFails).GetOr(b.(alive := false))
    else b
  }

  function Acted(size: nat, interval: real, b: Snapshot, action: Action): Snapshot {
    match action
    case Deliver(item, now, dbFails) => Handled(size, b, item, now, dbFails)
    case Tick(now, dbFails) => Ticked(size, interval, b, now, dbFails)
  }

  function ActedAll(size: nat, interval: real, b: Snapshot, actions: seq<Action>): Snapshot
    decreases |actions|
  {
    if actions == [] then b else ActedAll(size, interval, Acted(size, interval, b, actions[0]), actions[1..])
  }

  class Pipeline {
    const flushBatchSize: nat
    const flushInterval: real
    const store: Store
    var envelopes: seq<Item>
    var firstEnqueuedAt: real
    /** False once the timer task has died of a failed flush or has been cancelled. */
    var timerAlive: bool
    ghost var accepted: seq<Item>
    /** The batches whose flush returned normally. */
    ghost var flushed: seq<seq<Item>>

    /** Every accepted envelope is in a batch whose flush returned or still in the buffer, in order. */
    ghost predicate Valid()
      reads this, store
    {
      && flushBatchSize >= 1
      && accepted == Flatten(flushed) + envelopes
      && store.View() == FlushedAll(EMPTY_DB, flushed, true)
    }

    function Snap(): Snapshot
      reads this, store
    {
      Snapshot(envelopes, firstEnqueuedAt, timerAlive, store.View())
    }

    constructor (size: nat, interval: real)
      requires size >= 1
      ensures Valid() && fresh(store) && flushBatchSize == size && flushInterval == interval
      ensures accepted == [] && flushed == [] && Snap() == Snapshot([], 0.0, true, EMPTY_DB)
    {
      flushBatchSize, flushInterval := size, interval;
      envelopes, firstEnqueuedAt, timerAlive := [], 0.0, true;
      accepted, flushed := [], [];
      store := new Store();
    }

    method Add(item: Item, now: real)
      requires Valid()
      modifies this
      ensures Valid() && accepted == old(accepted) + [item] && envelopes == old(envelopes) + [item]
      ensures flushed == old(flushed) && timerAlive == old(timerAlive)
      ensures firstEnqueuedAt == if old(envelopes) == [] then now else old(firstEnqueuedAt)
    {
      if envelopes == [] {
        firstEnqueuedAt := now;
      }
      envelopes := envelopes + [item];
      accepted := accepted + [item];
    }

    /** Flush and, if it returned normally, clear. */
    method FlushAndClear(dbFails: bool) returns (ok: bool)
      requires Valid() && envelopes != []
      modifies this, store
      ensures Valid() && accepted == old(accepted) && timerAlive == old(timerAlive)
      ensures Snap() == Emptied(old(Snap()), dbFails).GetOr(old(Snap()))
      ensures ok <==> Emptied(old(Snap()), dbFails).Some?
      ensures ok ==> envelopes == [] && firstEnqueuedAt == 0.0 && flushed == old(flushed) + [old(envelopes)]
      ensures !ok ==> envelopes == old(envelopes) && flushed == old(flushed) && store.View() == old(store.View())
                      && firstEnqueuedAt == old(firstEnqueuedAt)
      ensures ok <==> !dbFails && !SameIdOtherTenant(NewItems(old(store.events), old(envelopes)))
    {
      EventsOutcome(store.View(), envelopes);
      var r := store.FlushBatch(envelopes, true, dbFails);
      ok := r.Inserted?;
      if ok {
        FlushedAllSnoc(EMPTY_DB, flushed, envelopes, true);
        FlattenSnoc(flushed, envelopes);
        flushed := flushed + [envelopes];
        envelopes, firstEnqueuedAt := [], 0.0;
      }
    }

    /** The handler given to the event consumer; `ok` is false when it raises. */
    method HandleEnvelope(item: Item, now: real, dbFails: bool) returns (ok: bool)
      requires Valid()
      modifies this, store
      ensures Valid() && accepted == old(accepted) + [item] && timerAlive == old(timerAlive)
      ensures Snap() == Handled(flushBatchSize, old(Snap()), item, now, dbFails)
      ensures var pending, full := old(envelopes) + [item], |old(envelopes)| + 1 >= flushBatchSize;
              && (ok <==> !full || (!dbFails && !SameIdOtherTenant(NewItems(old(store.events), pending))))
              && envelopes == (if ok && full then [] else pending)
              && flushed == (if ok && full then old(flushed) + [pending] else old(flushed))
      ensures ok ==> |envelopes| < flushBatchSize
      ensures !ok ==> store.View() == old(store.View())
      ensures firstEnqueuedAt == if envelopes == [] then 0.0 else if old(envelopes) == [] then now else old(firstEnqueuedAt)
    {
      Add(item, now);
      ok := true;
      if |envelopes| >= flushBatchSize {
        ok := FlushAndClear(dbFails);
      }
    }

    /** One iteration of the timer task.  An error of the flush escapes its loop and ends it. */
    method TimerTick(now: real, dbFails: bool)
      requires Valid()
      modifies this, store
      ensures Valid() && accepted == old(accepted)
      ensures Snap() == Ticked(flushBatchSize, flushInterval, old(Snap()), now, dbFails)
      ensures var pending := old(envelopes);
              var due := old(timerAlive) && pending != []
                         && (|pending| >= flushBatchSize || now - old(firstEnqueuedAt) >= flushInterval);
              var stored := !dbFails && !SameIdOtherTenant(NewItems(old(store.events), pending));
              && (timerAlive <==> old(timerAlive) && (due ==> stored))
              && (due && stored ==> envelopes == [] && firstEnqueuedAt == 0.0 && flushed == old(flushed) + [pending])
              && (!(due && stored) ==> envelopes == pending && firstEnqueuedAt == old(firstEnqueuedAt)
                                       && flushed == old(flushed) && store.View() == old(store.View()))
      ensures timerAlive && envelopes != [] ==> |envelopes| < flushBatchSize && now - firstEnqueuedAt < flushInterval
    {
      if timerAlive && envelopes != [] {
        if |envelopes| >= flushBatchSize || now - firstEnqueuedAt >= flushInterval {
          var ok := FlushAndClear(dbFails);
          timerAlive := ok;
        }
      }
    }

    /**
     Cancellation of the timer task at shutdown: a live task drains the buffer and clears it whether or
     not the flush worked, a dead one leaves it to be lost with the process.
     */
    method Shutdown(dbFails: bool) returns (drained: bool)
      requires Valid()
      modifies this, store
      ensures accepted == old(accepted) && !timerAlive
      ensures drained <==> old(envelopes) == []
                           || (old(timerAlive) && !dbFails && !SameIdOtherTenant(NewItems(old(store.events), old(envelopes))))
      ensures drained ==> accepted == Flatten(flushed)
      ensures store.View() == FlushedAll(EMPTY_DB, flushed, true)
      ensures envelopes == if old(timerAlive) then [] else old(envelopes)
      ensures flushed == old(flushed) + if drained && old(envelopes) != [] then [old(envelopes)] else []
    {
      drained := envelopes == [];
      if timerAlive && envelopes != [] {
        drained := FlushAndClear(dbFails);
        envelopes, firstEnqueuedAt := [], 0.0;
      }
      assert Flatten(flushed) + [] == Flatten(flushed);
      timerAlive := false;
    }

    method Act(action: Action)
      requires Valid()
      modifies this, store
      ensures Valid() && accepted == old(accepted) + Carried(action)
      ensures Snap() == Acted(flushBatchSize, flushInterval, old(Snap()), action)
    {
      match action {
        case Deliver(item, now, dbFails) =>
          var _ := HandleEnvelope(item, now, dbFails);
        case Tick(now, dbFails) =>
          TimerTick(now, dbFails);
      }
    }

    /** Any run before shutdown, with any database failures. */
    method Run(actions: seq<Action>)
      requires Valid()
      modifies this, store
      ensures Valid()
      ensures accepted == old(accepted) + Delivered(actions)
      ensures Snap() == ActedAll(flushBatchSize, flushInterval, old(Snap()), actions)
    {
      for i := 0 to |actions|
        invariant Valid()
        invariant ActedAll(flushBatchSize, flushInterval, Snap(), actions[i..])
               == ActedAll(flushBatchSize, flushInterval, old(Snap()), actions)
        invariant accepted + Delivered(actions[i..]) == old(accepted) + Delivered(actions)
      {
        assert actions[i..][0] == actions[i] && actions[i..][1..] == actions[i + 1..];
        ghost var before, rest := accepted, Delivered(actions[i + 1..]);
        Act(actions[i]);
        assert before + (Carried(actions[i]) + rest) == (before + Carried(actions[i])) + rest;
      }
    }

    /** While no flushed batch clashed, the tables are first-wins insertion of all that left the buffer. */
    lemma TablesHoldWhatLeft()
      requires Valid() && CleanRun(EMPTY_DB, flushed, true)
      ensures |envelopes| <= |accepted|
      ensures store.View() == InsertAll(EMPTY_DB, accepted[..|accepted| - |envelopes|], true)
    {
      assert accepted[..|accepted| - |envelopes|] == Flatten(flushed);
      BatchingIsFirstWins(EMPTY_DB, flushed, true);
    }
  }

  function Carried(action: Action): seq<Item> {
    if action.Deliver? then [action.item] else []
  }

  function Delivered(actions: seq<Action>): seq<Item> {
    if actions == [] then [] else Carried(actions[0]) + Delivered(actions[1..])
  }

  lemma {:induction false} FlushedAllSnoc(db: Db, batches: seq<seq<Item>>, last: seq<Item>, promote: bool)
    ensures FlushedAll(db, batches + [last], promote) == Flushed(FlushedAll(db, batches, promote), last, promote).db
    decreases |batches|
  {
    if batches == [] {
      assert [] + [last] == [last] && [last][1..] == [];
    } else {
      assert (batches + [last])[1..] == batches[1..] + [last];
      FlushedAllSnoc(Flushed(db, batches[0], promote).db, batches[1..], last, promote);
    }
  }

  // ---------------------------------------------------------------------------
  // A retried handler call buffers its envelope again
  // ---------------------------------------------------------------------------

  function Repeat(e: Item, n: nat): seq<Item> {
    seq(n, _ => e)
  }

  /** The buffer after `n` calls of the handler with `e`, and whatever arrived later. */
  function Retried(before: seq<Item>, e: Item, n: nat, later: seq<Item>): seq<Item> {
    before + Repeat(e, n) + later
  }

  lemma {:induction false} NewItemsConcat(events: EventTable, a: seq<Item>, b: seq<Item>)
    ensures NewItems(events, a + b) == NewItems(events, a) + NewItems(events, b)
    decreases |a|
  {
    if a == [] {
      assert a + b == b;
    } else {
      assert (a + b)[1..] == a[1..] + b;
      NewItemsConcat(events, a[1..], b);
    }
  }

  lemma {:induction false} NewCopies(events: EventTable, e: Item, n: nat)
    ensures NewItems(events, Repeat(e, n)) == if e.id in events then [] else Repeat(e, n)
  {
    if n > 0 {
      assert Repeat(e, n)[1..] == Repeat(e, n - 1) && Repeat(e, n) == [e] + Repeat(e, n - 1);
      NewCopies(events, e, n - 1);
    }
  }

  lemma NewRetried(events: EventTable, before: seq<Item>, e: Item, n: nat, later: seq<Item>)
    ensures var front, back := NewItems(events, before), NewItems(events, later);
            NewItems(events, Retried(before, e, n, later)) == (if e.id in events then front + back else Retried(front, e, n, back))
  {
    NewItemsConcat(events, before + Repeat(e, n), later);
    NewItemsConcat(events, before, Repeat(e, n));
    NewCopies(events, e, n);
    assert NewItems(events, before) + [] == NewItems(events, before);
  }

  /** One-at-a-time insertion does not see the copies. */
  lemma {:induction false} CopiesInsertOnce(db: Db, before: seq<Item>, e: Item, n: nat)
    requires n >= 1
    ensures InsertAll(db, before + Repeat(e, n), true) == InsertAll(db, before + Repeat(e, 1), true)
  {
    if n > 1 {
      var shorter := before + Repeat(e, n - 1);
      assert before + Repeat(e, n) == shorter + [e];
      assert shorter[|shorter| - 1] == e;
      CopiesInsertOnce(db, before, e, n - 1);
      InsertAllConcat(db, shorter, [e], true);
      InsertAllStores(db, shorter, true);
      assert [e][1..] == [];
    }
  }

  /** Where an item of the longer batch stands in the one with a single copy. */
  function Place(front: nat, n: nat, k: nat): nat
    requires n >= 1
  {
    if k < front then k else if k < front + n then front else k - n + 1
  }

  lemma PlaceHoldsSame(front: seq<Item>, e: Item, n: nat, back: seq<Item>, k: nat)
    requires n >= 1 && k < |Retried(front, e, n, back)|
    ensures Place(|front|, n, k) < |Retried(front, e, 1, back)|
    ensures Retried(front, e, 1, back)[Place(|front|, n, k)] == Retried(front, e, n, back)[k]
  {}

  /** Copies of one item of a clean batch clash exactly when it is a security event. */
  lemma CopiesClash(front: seq<Item>, e: Item, n: nat, back: seq<Item>)
    requires n >= 2 && !Clash(Retried(front, e, 1, back), true)
    ensures Clash(Retried(front, e, n, back), true) <==> e.IsSecurity()
  {
    var items, m := Retried(front, e, n, back), |front|;
    assert items[m] == e && items[m + 1] == e;
    if e.IsSecurity() {
      assert ClashAt(items, true, m, m + 1);
    } else if i: nat, j: nat :| ClashAt(items, true, i, j) {
      PlaceHoldsSame(front, e, n, back, i);
      PlaceHoldsSame(front, e, n, back, j);
      assert Place(m, n, i) < Place(m, n, j) ==> ClashAt(Retried(front, e, 1, back), true, Place(m, n, i), Place(m, n, j));
      assert false;
    }
  }

  /**
   While flushes fail, the event consumer calls the handler again and the envelope is buffered once per call.
   The flush that gets through stores what it should have stored with one copy, unless the envelope is a new
   security event: then, and only then, the whole batch is rolled back.
   */
  lemma RetriedFlush(db: Db, before: seq<Item>, e: Item, n: nat, later: seq<Item>)
    requires Linked(db) && n >= 2 && !Clash(NewItems(db.events, Retried(before, e, 1, later)), true)
    ensures Flushed(db, Retried(before, e, n, later), true).db == Flushed(db, Retried(before, e, 1, later), true).db
            <==> !e.IsSecurity() || e.id in db.events
  {
    FlushIsFirstWins(db, Retried(before, e, 1, later), true);
    FlushIsFirstWins(db, Retried(before, e, n, later), true);
    CopiesInsertOnce(db, before, e, n);
    InsertAllConcat(db, before + Repeat(e, 1), later, true);
    InsertAllConcat(db, before + Repeat(e, n), later, true);
    NewRetried(db.events, before, e, 1, later);
    NewRetried(db.events, before, e, n, later);
    if e.id !in db.events {
      CopiesClash(NewItems(db.events, before), e, n, NewItems(db.events, later));
    }
  }

  /** What becomes of such a batch: it is reported as stored, and nothing is. */
  lemma RetriedSecurityEventLosesBatch(db: Db, before: seq<Item>, e: Item, n: nat, later: seq<Item>)
    requires Linked(db) && n >= 2 && !Clash(NewItems(db.events, Retried(before, e, 1, later)), true)
    requires e.IsSecurity() && e.id !in db.events
    ensures var f := Flushed(db, Retried(before, e, n, later), true); f.db == db && f.result.Inserted? && f.result.count >= n
  {
    var front, back := NewItems(db.events, before), NewItems(db.events, later);
    NewRetried(db.events, before, e, 1, later);
    NewRetried(db.events, before, e, n, later);
    CopiesRollBack(front, e, n, back);
    FlushOutcome(db, Retried(before, e, n, later), true);
  }

  lemma CopiesRollBack(front: seq<Item>, e: Item, n: nat, back: seq<Item>)
    requires n >= 2 && !Clash(Retried(front, e, 1, back), true) && e.IsSecurity()
    ensures RepeatedSecurity(Retried(front, e, n, back)) && !SameIdOtherTenant(Retried(front, e, n, back))
  {
    var items, m := Retried(front, e, n, back), |front|;
    assert items[m] == e && items[m + 1] == e && RepeatsAt(items, m, m + 1);
    if i: nat, j: nat :| i < j < |items| && items[i].id == items[j].id && items[i].tenant != items[j].tenant {
      PlaceHoldsSame(front, e, n, back, i);
      PlaceHoldsSame(front, e, n, back, j);
      assert ClashAt(Retried(front, e, 1, back), true, Place(m, n, i), Place(m, n, j));
      assert false;
    }
  }
}
