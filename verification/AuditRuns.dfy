/** What sequences of flushes do to the audit tables. */
module AuditRuns {
  import opened Common
  import opened AuditStore

  // ---------------------------------------------------------------------------
  // The four ways a flush can end
  // ---------------------------------------------------------------------------

  ghost predicate SameIdOtherTenant(items: seq<Item>) {
    exists i: nat, j: nat :: i < j < |items| && items[i].id == items[j].id && items[i].tenant != items[j].tenant
  }

  ghost predicate RepeatedSecurity(items: seq<Item>) {
    exists i: nat, j: nat :: RepeatsAt(items, i, j)
  }

  ghost predicate RepeatsAt(items: seq<Item>, i: nat, j: nat) {
    && i < j < |items| && items[i].id == items[j].id && items[i].tenant == items[j].tenant
    && items[i].IsSecurity() && items[j].IsSecurity()
  }

  ghost predicate Distinct(items: seq<Item>) {
    forall i, j :: 0 <= i < j < |items| ==> items[i].id != items[j].id
  }

  lemma {:induction false} EventsSucceed(events: EventTable, items: seq<Item>)
    requires !SameIdOtherTenant(items)
    requires forall k :: 0 <= k < |items| && items[k].id in events ==> events[items[k].id].tenant == items[k].tenant
    ensures InsertEvents(events, items).Some?
    decreases |items|
  {
    if items != [] {
      var first, tail := items[0], items[1..];
      var next := if first.id in events then events else events[first.id := first.Row()];
      assert !SameIdOtherTenant(tail);
      forall k | 0 <= k < |tail| && tail[k].id in next
        ensures next[tail[k].id].tenant == tail[k].tenant
      {
        assert tail[k] == items[k + 1];
        if tail[k].id == first.id && first.id !in events {
          assert items[0].id == items[k + 1].id;
        }
      }
      EventsSucceed(next, tail);
    }
  }

  lemma {:induction false} SecuritySucceeds(security: SecurityTable, items: seq<Item>)
    requires !RepeatedSecurity(items)
    requires forall k :: 0 <= k < |items| && items[k].IsSecurity() ==> (items[k].tenant, items[k].id) !in security
    ensures InsertSecurity(security, items).Some?
    decreases |items|
  {
    if items != [] {
      var first, tail := items[0], items[1..];
      var next := if first.IsSecurity() then security[(first.tenant, first.id) := first.Promotion()] else security;
      assert !RepeatedSecurity(tail) by {
        if i: nat, j: nat :| RepeatsAt(tail, i, j) {
          assert RepeatsAt(items, i + 1, j + 1);
        }
      }
      forall k | 0 <= k < |tail| && tail[k].IsSecurity()
        ensures (tail[k].tenant, tail[k].id) !in next
      {
        assert tail[k] == items[k + 1] && !RepeatsAt(items, 0, k + 1);
      }
      SecuritySucceeds(next, tail);
    }
  }

  lemma EventsOutcome(db: Db, batch: seq<Item>)
    ensures var items := NewItems(db.events, batch); InsertEvents(db.events, items).None? <==> SameIdOtherTenant(items)
  {
    var items := NewItems(db.events, batch);
    NewItemsAreNew(db.events, batch);
    if SameIdOtherTenant(items) {
      var i: nat, j: nat :| i < j < |items| && items[i].id == items[j].id && items[i].tenant != items[j].tenant;
      CrossTenantFails(db.events, items, j);
    } else {
      EventsSucceed(db.events, items);
    }
  }

  lemma SecurityOutcome(db: Db, batch: seq<Item>)
    requires Linked(db)
    ensures var items := NewItems(db.events, batch); InsertSecurity(db.security, items).None? <==> RepeatedSecurity(items)
  {
    var items := NewItems(db.events, batch);
    NewItemsAreNew(db.events, batch);
    if RepeatedSecurity(items) {
      var i: nat, j: nat :| RepeatsAt(items, i, j);
      RepeatedSecurityFails(db.security, items, j);
    } else {
      SecuritySucceeds(db.security, items);
    }
  }

  /**
   A flush raises exactly when two new items share an id across tenants; otherwise it returns normally,
   but it reports new rows and stores none exactly when a new security event is repeated in the batch.
   */
  lemma FlushOutcome(db: Db, batch: seq<Item>, promote: bool)
    requires Linked(db)
    ensures var items, f := NewItems(db.events, batch), Flushed(db, batch, promote);
            && (f.result.UpstreamError? <==> SameIdOtherTenant(items))
            && (f.result.Inserted? ==> f.result.count == |items|)
            && (f.result.Inserted? && f.result.count > 0 && f.db == db <==>
                !SameIdOtherTenant(items) && promote && RepeatedSecurity(items))
  {
    var items, f := NewItems(db.events, batch), Flushed(db, batch, promote);
    EventsOutcome(db, batch);
    SecurityOutcome(db, batch);
    NewItemsAreNew(db.events, batch);
    if items != [] && InsertEvents(db.events, items).Some? {
      EventsGrow(db.events, items);
      assert items[0].id in InsertEvents(db.events, items).value && items[0].id !in db.events;
    }
  }

  // ---------------------------------------------------------------------------
  // The count that is reported
  // ---------------------------------------------------------------------------

  lemma {:induction false} EventsGrow(events: EventTable, items: seq<Item>)
    requires InsertEvents(events, items).Some?
    ensures var after := InsertEvents(events, items).value;
            && (forall id :: id in events ==> id in after && after[id] == events[id])
            && (items != [] ==> items[0].id in after)
            && |after| <= |events| + |items|
            && (|after| == |events| + |items| <==> Distinct(items) && forall k :: 0 <= k < |items| ==> items[k].id !in events)
    decreases |items|
  {
    if items != [] {
      var first, tail := items[0], items[1..];
      var next := if first.id in events then events else events[first.id := first.Row()];
      EventsGrow(next, tail);
      if first.id !in events {
        assert |next| == |events| + 1;
        if Distinct(tail) && forall k :: 0 <= k < |tail| ==> tail[k].id !in next {
          forall i, j | 0 <= i < j < |items|
            ensures items[i].id != items[j].id
          {
            assert items[j] == tail[j - 1] && (i > 0 ==> items[i] == tail[i - 1]);
          }
          assert forall k :: 0 <= k < |items| ==> items[k].id !in events by {
            forall k | 0 <= k < |items| ensures items[k].id !in events {
              assert k > 0 ==> items[k] == tail[k - 1];
            }
          }
        } else if Distinct(items) && forall k :: 0 <= k < |items| ==> items[k].id !in events {
          assert false;
        }
      }
    }
  }

  /** The number returned is the number of rows added exactly when no new id is repeated in the batch. */
  lemma CountIsGrowth(db: Db, batch: seq<Item>, promote: bool)
    requires Linked(db)
    ensures var f := Flushed(db, batch, promote);
            f.result.Inserted? ==>
              (f.result.count == |f.db.events| - |db.events| <==> Distinct(NewItems(db.events, batch)))
  {
    var items, f := NewItems(db.events, batch), Flushed(db, batch, promote);
    if items != [] && f.result.Inserted? {
      NewItemsAreNew(db.events, batch);
      EventsGrow(db.events, items);
      FlushOutcome(db, batch, promote);
      if f.db == db {
        var i: nat, j: nat :| RepeatsAt(items, i, j);
        assert !Distinct(items);
      }
    }
  }

  // ---------------------------------------------------------------------------
  // Batch boundaries and re-deliveries
  // ---------------------------------------------------------------------------

  function FlushedAll(db: Db, batches: seq<seq<Item>>, promote: bool): Db
    decreases |batches|
  {
    if batches == [] then db else FlushedAll(Flushed(db, batches[0], promote).db, batches[1..], promote)
  }

  lemma {:induction false} InsertAllConcat(db: Db, a: seq<Item>, b: seq<Item>, promote: bool)
    ensures InsertAll(db, a + b, promote) == InsertAll(InsertAll(db, a, promote), b, promote)
    decreases |a|
  {
    if a == [] {
      assert a + b == b;
    } else {
      assert (a + b)[1..] == a[1..] + b;
      InsertAllConcat(InsertOne(db, a[0], promote), a[1..], b, promote);
    }
  }

  lemma {:induction false} InsertAllKeepsLinked(db: Db, items: seq<Item>, promote: bool)
    requires Linked(db)
    ensures Linked(InsertAll(db, items, promote))
    decreases |items|
  {
    if items != [] {
      InsertAllKeepsLinked(InsertOne(db, items[0], promote), items[1..], promote);
    }
  }

  /** Where in a batch its new items stand. */
  lemma {:induction false} NewItemsInOrder(events: EventTable, batch: seq<Item>, i: nat, j: nat) returns (p: nat, q: nat)
    requires i < j < |NewItems(events, batch)|
    ensures p < q < |batch| && batch[p] == NewItems(events, batch)[i] && batch[q] == NewItems(events, batch)[j]
  {
    var rest := NewItems(events, batch[1..]);
    if batch[0].id in events {
      p, q := NewItemsInOrder(events, batch[1..], i, j);
      p, q := p + 1, q + 1;
    } else if i > 0 {
      p, q := NewItemsInOrder(events, batch[1..], i - 1, j - 1);
      p, q := p + 1, q + 1;
    } else {
      p := 0;
      NewItemsAreNew(events, batch[1..]);
      assert rest[j - 1] in batch[1..];
      q :| 0 <= q < |batch[1..]| && batch[1..][q] == rest[j - 1];
      q := q + 1;
    }
  }

  lemma CleanBatch(events: EventTable, batch: seq<Item>, promote: bool)
    requires !Clash(batch, promote)
    ensures !Clash(NewItems(events, batch), promote)
  {
    if i: nat, j: nat :| ClashAt(NewItems(events, batch), promote, i, j) {
      var p, q := NewItemsInOrder(events, batch, i, j);
      assert ClashAt(batch, promote, p, q);
    }
  }

  /** No batch clashes among the items that are new when it is flushed. */
  ghost predicate CleanRun(db: Db, batches: seq<seq<Item>>, promote: bool)
    decreases |batches|
  {
    batches == []
    || (!Clash(NewItems(db.events, batches[0]), promote) && CleanRun(Flushed(db, batches[0], promote).db, batches[1..], promote))
  }

  lemma {:induction false} CleanBatchesRunClean(db: Db, batches: seq<seq<Item>>, promote: bool)
    requires forall k :: 0 <= k < |batches| ==> !Clash(batches[k], promote)
    ensures CleanRun(db, batches, promote)
    decreases |batches|
  {
    if batches != [] {
      CleanBatch(db.events, batches[0], promote);
      CleanBatchesRunClean(Flushed(db, batches[0], promote).db, batches[1..], promote);
    }
  }

  /** Any clean run, whatever it re-delivers, is first-wins insertion of all that was delivered. */
  lemma {:induction false} BatchingIsFirstWins(db: Db, batches: seq<seq<Item>>, promote: bool)
    requires Linked(db) && CleanRun(db, batches, promote)
    ensures FlushedAll(db, batches, promote) == InsertAll(db, Flatten(batches), promote)
    decreases |batches|
  {
    if batches != [] {
      FlushIsFirstWins(db, batches[0], promote);
      InsertAllKeepsLinked(db, batches[0], promote);
      BatchingIsFirstWins(Flushed(db, batches[0], promote).db, batches[1..], promote);
      InsertAllConcat(db, batches[0], Flatten(batches[1..]), promote);
    }
  }

  /** The tables after the first `k` batches are first-wins insertion of what those delivered. */
  ghost predicate FirstWinsAfter(db: Db, batches: seq<seq<Item>>, promote: bool, k: nat)
    requires k <= |batches|
  {
    FlushedAll(db, batches[..k], promote) == InsertAll(db, Flatten(batches[..k]), promote)
  }

  ghost predicate FirstWinsThroughout(db: Db, batches: seq<seq<Item>>, promote: bool) {
    forall k: nat :: k <= |batches| ==> FirstWinsAfter(db, batches, promote, k)
  }

  lemma FirstWinsAfterOneMore(db: Db, batches: seq<seq<Item>>, promote: bool, k: nat)
    requires batches != [] && k < |batches| && Flushed(db, batches[0], promote).db == InsertAll(db, batches[0], promote)
    ensures FirstWinsAfter(db, batches, promote, k + 1)
            <==> FirstWinsAfter(Flushed(db, batches[0], promote).db, batches[1..], promote, k)
  {
    assert batches[..k + 1][0] == batches[0] && batches[..k + 1][1..] == batches[1..][..k];
    InsertAllConcat(db, batches[0], Flatten(batches[1..][..k]), promote);
  }

  lemma FirstWinsAfterOne(db: Db, batches: seq<seq<Item>>, promote: bool)
    requires batches != []
    ensures FirstWinsAfter(db, batches, promote, 1)
            <==> Flushed(db, batches[0], promote).db == InsertAll(db, batches[0], promote)
  {
    var one := batches[..1];
    assert one[0] == batches[0] && one[1..] == [];
    assert FlushedAll(db, one, promote) == FlushedAll(Flushed(db, batches[0], promote).db, [], promote);
    assert Flatten(one) == batches[0] + Flatten([]) == batches[0];
  }

  /** The tables are first-wins insertion of the stream after every batch exactly if the run is clean. */
  lemma {:induction false} CleanIsFirstWinsThroughout(db: Db, batches: seq<seq<Item>>, promote: bool)
    requires Linked(db)
    ensures CleanRun(db, batches, promote) <==> FirstWinsThroughout(db, batches, promote)
    decreases |batches|
  {
    assert FirstWinsAfter(db, batches, promote, 0) by {
      assert batches[..0] == [];
    }
    if batches != [] {
      var next := Flushed(db, batches[0], promote).db;
      FirstWinsAfterOne(db, batches, promote);
      FlushIsFirstWins(db, batches[0], promote);
      if next != InsertAll(db, batches[0], promote) {
        assert !FirstWinsAfter(db, batches, promote, 1);
      } else {
        InsertAllKeepsLinked(db, batches[0], promote);
        CleanIsFirstWinsThroughout(next, batches[1..], promote);
        forall k: nat | k < |batches|
          ensures FirstWinsAfter(db, batches, promote, k + 1) <==> FirstWinsAfter(next, batches[1..], promote, k)
        {
          FirstWinsAfterOneMore(db, batches, promote, k);
        }
        assert FirstWinsThroughout(db, batches, promote) <==> FirstWinsThroughout(next, batches[1..], promote) by {
          ShiftThroughout(db, next, batches, promote);
        }
      }
    }
  }

  lemma ShiftThroughout(db: Db, next: Db, batches: seq<seq<Item>>, promote: bool)
    requires batches != [] && FirstWinsAfter(db, batches, promote, 0)
    requires forall k: nat :: k < |batches| ==>
               (FirstWinsAfter(db, batches, promote, k + 1) <==> FirstWinsAfter(next, batches[1..], promote, k))
    ensures FirstWinsThroughout(db, batches, promote) <==> FirstWinsThroughout(next, batches[1..], promote)
  {
    if FirstWinsThroughout(db, batches, promote) {
      forall k: nat | k <= |batches[1..]|
        ensures FirstWinsAfter(next, batches[1..], promote, k)
      {
        assert FirstWinsAfter(db, batches, promote, k + 1);
      }
    }
    if FirstWinsThroughout(next, batches[1..], promote) {
      forall k: nat | k <= |batches|
        ensures FirstWinsAfter(db, batches, promote, k)
      {
        if k > 0 {
          assert FirstWinsAfter(next, batches[1..], promote, k - 1);
          assert FirstWinsAfter(db, batches, promote, (k - 1) + 1);
        }
      }
    }
  }

  /** So only the delivered stream counts, not where it was cut. */
  lemma BoundariesDoNotMatter(db: Db, a: seq<seq<Item>>, b: seq<seq<Item>>, promote: bool)
    requires Linked(db) && Flatten(a) == Flatten(b) && CleanRun(db, a, promote) && CleanRun(db, b, promote)
    ensures FlushedAll(db, a, promote) == FlushedAll(db, b, promote)
  {
    BatchingIsFirstWins(db, a, promote);
    BatchingIsFirstWins(db, b, promote);
  }

  lemma {:induction false} AllStoredMeansNoneNew(events: EventTable, batch: seq<Item>)
    ensures NewItems(events, batch) == [] <==> forall k :: 0 <= k < |batch| ==> batch[k].id in events
  {
    if batch != [] {
      AllStoredMeansNoneNew(events, batch[1..]);
      if NewItems(events, batch) == [] {
        forall k | 0 <= k < |batch| ensures batch[k].id in events {
          assert k > 0 ==> batch[k] == batch[1..][k - 1];
        }
      } else if forall k :: 0 <= k < |batch| ==> batch[k].id in events {
        assert false;
      }
    }
  }

  /** A flush does nothing and reports 0 exactly when every id of the batch is already stored. */
  lemma RedeliveryIsANoop(db: Db, batch: seq<Item>, promote: bool)
    ensures Flushed(db, batch, promote) == Flush(db, Inserted(0)) <==>
            forall k :: 0 <= k < |batch| ==> batch[k].id in db.events
  {
    AllStoredMeansNoneNew(db.events, batch);
  }

  lemma {:induction false} InsertAllStores(db: Db, items: seq<Item>, promote: bool)
    ensures forall k :: 0 <= k < |items| ==> items[k].id in InsertAll(db, items, promote).events
    decreases |items|
  {
    if items != [] {
      var next := InsertOne(db, items[0], promote);
      InsertAllStores(next, items[1..], promote);
      InsertAllKeeps(next, items[1..], promote);
      forall k | 0 <= k < |items|
        ensures items[k].id in InsertAll(db, items, promote).events
      {
        assert k > 0 ==> items[k] == items[1..][k - 1];
      }
    }
  }

  lemma {:induction false} InsertedAreStored(events: EventTable, items: seq<Item>)
    requires InsertEvents(events, items).Some?
    ensures events.Keys <= InsertEvents(events, items).value.Keys
    ensures forall x :: x in items ==> x.id in InsertEvents(events, items).value
    decreases |items|
  {
    if items != [] {
      var first := items[0];
      InsertedAreStored(if first.id in events then events else events[first.id := first.Row()], items[1..]);
      assert items == [first] + items[1..];
    }
  }

  lemma {:induction false} OldOrNew(events: EventTable, batch: seq<Item>)
    ensures forall x :: x in batch ==> x.id in events || x in NewItems(events, batch)
  {
    if batch != [] {
      OldOrNew(events, batch[1..]);
      assert batch == [batch[0]] + batch[1..];
    }
  }

  /** A flush that commits leaves every id of its batch stored. */
  lemma CommitStoresBatch(db: Db, batch: seq<Item>, promote: bool)
    requires Linked(db)
    requires var items := NewItems(db.events, batch); !SameIdOtherTenant(items) && !(promote && RepeatedSecurity(items))
    ensures forall x :: x in batch ==> x.id in Flushed(db, batch, promote).db.events
  {
    var items := NewItems(db.events, batch);
    EventsOutcome(db, batch);
    SecurityOutcome(db, batch);
    InsertedAreStored(db.events, items);
    OldOrNew(db.events, batch);
    assert items != [] ==> Flushed(db, batch, promote).db.events == InsertEvents(db.events, items).value;
  }

  /** Flushing a batch again changes nothing and reports 0 exactly if the first flush neither raised nor rolled back. */
  lemma ReflushIsANoop(db: Db, batch: seq<Item>, promote: bool)
    requires Linked(db)
    ensures var items, once := NewItems(db.events, batch), Flushed(db, batch, promote).db;
            Flushed(once, batch, promote) == Flush(once, Inserted(0))
            <==> !SameIdOtherTenant(items) && !(promote && RepeatedSecurity(items))
  {
    var items, once := NewItems(db.events, batch), Flushed(db, batch, promote).db;
    RedeliveryIsANoop(once, batch, promote);
    if !SameIdOtherTenant(items) && !(promote && RepeatedSecurity(items)) {
      CommitStoresBatch(db, batch, promote);
    } else {
      EventsOutcome(db, batch);
      SecurityOutcome(db, batch);
      assert items != [] && once == db;
    }
  }

  // ---------------------------------------------------------------------------
  // The security table
  // ---------------------------------------------------------------------------

  /** The security table lists exactly the stored events of a security type. */
  ghost predicate Projection(db: Db) {
    && db.payloads.Keys == db.events.Keys
    && forall t, id :: (t, id) in db.security <==> id in db.events && db.events[id].tenant == t && db.events[id].IsSecurity()
  }

  ghost predicate Extends(db: Db, after: Db) {
    && (forall id :: id in db.events ==> id in after.events && after.events[id] == db.events[id])
    && (forall id :: id in db.payloads ==> id in after.payloads && after.payloads[id] == db.payloads[id])
    && (forall k :: k in db.security ==> k in after.security && after.security[k] == db.security[k])
  }

  lemma {:induction false} PayloadsGrow(payloads: PayloadTable, items: seq<Item>)
    ensures forall id :: id in payloads ==> id in InsertPayloads(payloads, items) && InsertPayloads(payloads, items)[id] == payloads[id]
    decreases |items|
  {
    if items != [] {
      PayloadsGrow(if items[0].id in payloads then payloads else payloads[items[0].id := items[0].cipher], items[1..]);
    }
  }

  lemma {:induction false} SecurityGrows(security: SecurityTable, items: seq<Item>)
    requires InsertSecurity(security, items).Some?
    ensures forall k :: k in security ==>
              k in InsertSecurity(security, items).value && InsertSecurity(security, items).value[k] == security[k]
    decreases |items|
  {
    if items != [] {
      var first := items[0];
      SecurityGrows(if first.IsSecurity() then security[(first.tenant, first.id) := first.Promotion()] else security, items[1..]);
    }
  }

  /** A stored row is never changed or removed by any flush. */
  lemma RowsNeverChange(db: Db, batch: seq<Item>, promote: bool)
    ensures Extends(db, Flushed(db, batch, promote).db)
  {
    var items := NewItems(db.events, batch);
    if items != [] && InsertEvents(db.events, items).Some? {
      EventsGrow(db.events, items);
      PayloadsGrow(db.payloads, items);
      if promote && InsertSecurity(db.security, items).Some? {
        SecurityGrows(db.security, items);
      }
    }
  }

  lemma {:induction false} InsertAllKeepsProjection(db: Db, items: seq<Item>)
    requires Projection(db)
    ensures Projection(InsertAll(db, items, true))
    decreases |items|
  {
    if items != [] {
      InsertAllKeepsProjection(InsertOne(db, items[0], true), items[1..]);
    }
  }

  lemma {:induction false} RowIsFirst(events: EventTable, items: seq<Item>, j: nat) returns (k: nat)
    requires j < |items| && items[j].id !in events && InsertEvents(events, items).Some?
    ensures k <= j && items[k].id == items[j].id
    ensures items[j].id in InsertEvents(events, items).value
    ensures InsertEvents(events, items).value[items[j].id] == items[k].Row()
    decreases |items|
  {
    var first := items[0];
    if first.id == items[j].id {
      k := 0;
      EventsGrow(events[first.id := first.Row()], items[1..]);
    } else {
      k := RowIsFirst(if first.id in events then events else events[first.id := first.Row()], items[1..], j - 1);
      k := k + 1;
    }
  }

  /** A flush keeps the security table exact unless it commits a batch with a clash, and then it never does. */
  lemma ProjectionIsKept(db: Db, batch: seq<Item>)
    requires Projection(db)
    ensures var f := Flushed(db, batch, true);
            Projection(f.db) <==> f.db == db || !Clash(NewItems(db.events, batch), true)
  {
    var items, f := NewItems(db.events, batch), Flushed(db, batch, true);
    NewItemsAreNew(db.events, batch);
    if !Clash(items, true) {
      FlushIsFirstWins(db, batch, true);
      InsertAllKeepsProjection(db, batch);
    } else if f.db != db {
      var i: nat, j: nat :| ClashAt(items, true, i, j);
      EventsOutcome(db, batch);
      assert items[i].tenant == items[j].tenant;
      var k := RowIsFirst(db.events, items, i);
      assert k < j && items[k].tenant == items[j].tenant;
      SecurityOutcome(db, batch);
      assert !RepeatsAt(items, k, j);
      SecurityIsPromoted(db.security, items, j);
      assert (items[j].tenant, items[j].id) in f.db.security && !f.db.events[items[j].id].IsSecurity();
    }
  }

  /** A producer's id names one event, so all its deliveries have one type. */
  ghost predicate IdsNameEvents(items: seq<Item>) {
    forall i, j :: 0 <= i < |items| && 0 <= j < |items| && items[i].id == items[j].id ==> items[i].eventType == items[j].eventType
  }

  /** Every flush of such deliveries keeps the projection, even those that are rolled back. */
  lemma ProjectionSurvivesFlush(db: Db, batch: seq<Item>)
    requires Projection(db) && IdsNameEvents(batch)
    ensures Projection(Flushed(db, batch, true).db)
  {
    var items := NewItems(db.events, batch);
    ProjectionIsKept(db, batch);
    NewItemsAreNew(db.events, batch);
    if Clash(items, true) && Flushed(db, batch, true).db != db {
      var i: nat, j: nat :| ClashAt(items, true, i, j);
      EventsOutcome(db, batch);
      SecurityOutcome(db, batch);
      assert items[i] in batch && items[j] in batch;
      assert RepeatsAt(items, i, j);
      assert false;
    }
  }

  lemma {:induction false} SecurityTableIsExact(db: Db, batches: seq<seq<Item>>)
    requires Projection(db) && forall k :: 0 <= k < |batches| ==> IdsNameEvents(batches[k])
    ensures Projection(FlushedAll(db, batches, true)) && Extends(db, FlushedAll(db, batches, true))
    decreases |batches|
  {
    if batches != [] {
      ProjectionSurvivesFlush(db, batches[0]);
      RowsNeverChange(db, batches[0], true);
      SecurityTableIsExact(Flushed(db, batches[0], true).db, batches[1..]);
    }
  }
}
