/** What a flush that commits leaves in each column of the three tables. */
module AuditRows {
  import opened Common
  import opened AuditStore
  import opened AuditRuns

  /** Every column of the row is the item's. */
  ghost predicate IsRowOf(row: EventRow, item: Item) {
    row.tenant == item.tenant && row.topic == item.topic && row.eventType == item.eventType && row.columns == item.columns
  }

  ghost predicate IsPromotionOf(row: SecurityRow, item: Item) {
    row.tenant == item.tenant && row.eventType == item.eventType && row.columns == item.columns
  }

  /** Item `k` is the first of its id. */
  ghost predicate IsFirst(items: seq<Item>, k: int) {
    0 <= k < |items| && forall j :: 0 <= j < k ==> items[j].id != items[k].id
  }

  ghost predicate Commits(db: Db, batch: seq<Item>, promote: bool) {
    var items := NewItems(db.events, batch);
    !SameIdOtherTenant(items) && !(promote && RepeatedSecurity(items))
  }

  lemma {:induction false} EventColumns(events: EventTable, items: seq<Item>, k: nat)
    requires InsertEvents(events, items).Some? && IsFirst(items, k) && items[k].id !in events
    ensures items[k].id in InsertEvents(events, items).value
    ensures IsRowOf(InsertEvents(events, items).value[items[k].id], items[k])
    decreases |items|
  {
    var first := items[0];
    var next := if first.id in events then events else events[first.id := first.Row()];
    if k == 0 {
      EventsGrow(next, items[1..]);
      assert IsRowOf(next[first.id], first);
    } else {
      assert items[1..][k - 1] == items[k] && first.id != items[k].id;
      EventColumns(next, items[1..], k - 1);
    }
  }

  lemma {:induction false} PayloadColumn(payloads: PayloadTable, items: seq<Item>, k: nat)
    requires IsFirst(items, k) && items[k].id !in payloads
    ensures items[k].id in InsertPayloads(payloads, items)
    ensures InsertPayloads(payloads, items)[items[k].id] == items[k].cipher
    decreases |items|
  {
    var first := items[0];
    var next := if first.id in payloads then payloads else payloads[first.id := first.cipher];
    if k == 0 {
      PayloadsGrow(next, items[1..]);
    } else {
      assert items[1..][k - 1] == items[k] && first.id != items[k].id;
      PayloadColumn(next, items[1..], k - 1);
    }
  }

  lemma {:induction false} SecurityColumns(security: SecurityTable, items: seq<Item>, k: nat)
    requires InsertSecurity(security, items).Some? && k < |items| && items[k].eventType in SECURITY_EVENT_TYPES
    ensures (items[k].tenant, items[k].id) in InsertSecurity(security, items).value
    ensures IsPromotionOf(InsertSecurity(security, items).value[(items[k].tenant, items[k].id)], items[k])
    decreases |items|
  {
    var first := items[0];
    var next := if first.IsSecurity() then security[(first.tenant, first.id) := first.Promotion()] else security;
    if k == 0 {
      SecurityGrows(next, items[1..]);
      assert IsPromotionOf(next[(first.tenant, first.id)], first);
    } else {
      assert items[1..][k - 1] == items[k];
      SecurityColumns(next, items[1..], k - 1);
    }
  }

  lemma {:induction false} EventKeys(events: EventTable, items: seq<Item>)
    requires InsertEvents(events, items).Some?
    ensures forall id :: id in InsertEvents(events, items).value <==> id in events || exists x :: x in items && x.id == id
    decreases |items|
  {
    if items != [] {
      var first := items[0];
      EventKeys(if first.id in events then events else events[first.id := first.Row()], items[1..]);
      assert items == [first] + items[1..];
    }
  }

  lemma {:induction false} PayloadKeys(payloads: PayloadTable, items: seq<Item>)
    ensures forall id :: id in InsertPayloads(payloads, items) <==> id in payloads || exists x :: x in items && x.id == id
    decreases |items|
  {
    if items != [] {
      var first := items[0];
      PayloadKeys(if first.id in payloads then payloads else payloads[first.id := first.cipher], items[1..]);
      assert items == [first] + items[1..];
    }
  }

  lemma {:induction false} SecurityKeys(security: SecurityTable, items: seq<Item>)
    requires InsertSecurity(security, items).Some?
    ensures forall key :: key in InsertSecurity(security, items).value <==>
              key in security || exists x :: x in items && x.eventType in SECURITY_EVENT_TYPES && key == (x.tenant, x.id)
    decreases |items|
  {
    if items != [] {
      var first := items[0];
      SecurityKeys(if first.IsSecurity() then security[(first.tenant, first.id) := first.Promotion()] else security, items[1..]);
      assert items == [first] + items[1..];
    }
  }

  lemma {:induction false} FirstStaysFirst(events: EventTable, batch: seq<Item>, k: nat) returns (m: nat)
    requires IsFirst(batch, k) && batch[k].id !in events
    ensures IsFirst(NewItems(events, batch), m) && NewItems(events, batch)[m] == batch[k]
    decreases |batch|
  {
    var rest := NewItems(events, batch[1..]);
    if k == 0 {
      m := 0;
    } else {
      assert batch[1..][k - 1] == batch[k] && batch[0].id != batch[k].id;
      m := FirstStaysFirst(events, batch[1..], k - 1);
      if batch[0].id !in events {
        assert NewItems(events, batch) == [batch[0]] + rest;
        assert forall j :: 0 < j < m + 1 ==> NewItems(events, batch)[j] == rest[j - 1];
        m := m + 1;
      }
    }
  }

  lemma NewMembers(events: EventTable, batch: seq<Item>)
    ensures forall x :: x in NewItems(events, batch) <==> x in batch && x.id !in events
  {
    OldOrNew(events, batch);
    NewItemsAreNew(events, batch);
  }

  /** The tables a committed flush leaves, in terms of the three inserts. */
  lemma CommittedTables(db: Db, batch: seq<Item>, promote: bool)
    requires Linked(db) && Commits(db, batch, promote)
    ensures var items, after := NewItems(db.events, batch), Flushed(db, batch, promote).db;
            && InsertEvents(db.events, items) == Some(after.events)
            && InsertPayloads(db.payloads, items) == after.payloads
            && (if promote then InsertSecurity(db.security, items) else Some(db.security)) == Some(after.security)
  {
    EventsOutcome(db, batch);
    SecurityOutcome(db, batch);
  }

  /** For each new id the event row holds the columns of its first item, and the payload that item's cipher text. */
  lemma StoredColumns(db: Db, batch: seq<Item>, promote: bool, k: nat)
    requires Linked(db) && Commits(db, batch, promote) && IsFirst(batch, k) && batch[k].id !in db.events
    ensures var after, item := Flushed(db, batch, promote).db, batch[k];
            && item.id in after.events && IsRowOf(after.events[item.id], item)
            && item.id in after.payloads && after.payloads[item.id] == item.cipher
  {
    var items := NewItems(db.events, batch);
    CommittedTables(db, batch, promote);
    var m := FirstStaysFirst(db.events, batch, k);
    EventColumns(db.events, items, m);
    PayloadColumn(db.payloads, items, m);
  }

  /** For each new item of a security type the promoted row holds that item's columns. */
  lemma PromotedColumns(db: Db, batch: seq<Item>, k: nat)
    requires Linked(db) && Commits(db, batch, true)
    requires k < |batch| && batch[k].id !in db.events && batch[k].eventType in SECURITY_EVENT_TYPES
    ensures var after, item := Flushed(db, batch, true).db, batch[k];
            (item.tenant, item.id) in after.security && IsPromotionOf(after.security[(item.tenant, item.id)], item)
  {
    var items := NewItems(db.events, batch);
    CommittedTables(db, batch, true);
    NewMembers(db.events, batch);
    assert batch[k] in items;
    var m :| 0 <= m < |items| && items[m] == batch[k];
    SecurityColumns(db.security, items, m);
  }

  /** And nothing else is stored. */
  lemma StoredKeys(db: Db, batch: seq<Item>, promote: bool)
    requires Linked(db) && Commits(db, batch, promote)
    ensures var after := Flushed(db, batch, promote).db;
            && (forall id :: id in after.events <==> id in db.events || exists x :: x in batch && x.id == id)
            && (forall id :: id in after.payloads <==> id in db.payloads || exists x :: x in batch && x.id == id)
            && (forall key :: key in after.security <==>
                  || key in db.security
                  || (promote && exists x :: x in batch && x.id !in db.events && x.eventType in SECURITY_EVENT_TYPES
                                             && key == (x.tenant, x.id)))
  {
    var items := NewItems(db.events, batch);
    CommittedTables(db, batch, promote);
    NewMembers(db.events, batch);
    EventKeys(db.events, items);
    PayloadKeys(db.payloads, items);
    if promote {
      SecurityKeys(db.security, items);
    }
  }

  /** Column by column, what one flush that commits does to the tables; everything already there stays as it was. */
  lemma CommittedFlush(db: Db, batch: seq<Item>, promote: bool)
    requires Linked(db) && Commits(db, batch, promote)
    ensures var after := Flushed(db, batch, promote).db;
            && Extends(db, after)
            && (forall k: nat :: IsFirst(batch, k) && batch[k].id !in db.events ==>
                  && batch[k].id in after.events && IsRowOf(after.events[batch[k].id], batch[k])
                  && batch[k].id in after.payloads && after.payloads[batch[k].id] == batch[k].cipher)
            && (promote ==> forall x :: x in batch && x.id !in db.events && x.eventType in SECURITY_EVENT_TYPES ==>
                  (x.tenant, x.id) in after.security && IsPromotionOf(after.security[(x.tenant, x.id)], x))
  {
    RowsNeverChange(db, batch, promote);
    forall k: nat | IsFirst(batch, k) && batch[k].id !in db.events
      ensures var after := Flushed(db, batch, promote).db;
              && batch[k].id in after.events && IsRowOf(after.events[batch[k].id], batch[k])
              && batch[k].id in after.payloads && after.payloads[batch[k].id] == batch[k].cipher
    {
      StoredColumns(db, batch, promote, k);
    }
    if promote {
      forall x | x in batch && x.id !in db.events && x.eventType in SECURITY_EVENT_TYPES
        ensures var after := Flushed(db, batch, promote).db;
                (x.tenant, x.id) in after.security && IsPromotionOf(after.security[(x.tenant, x.id)], x)
      {
        var k: nat :| k < |batch| && batch[k] == x;
        PromotedColumns(db, batch, k);
      }
    }
  }

  /** A flush that does not commit leaves every table as it was. */
  lemma UncommittedFlush(db: Db, batch: seq<Item>, promote: bool)
    requires Linked(db) && !Commits(db, batch, promote)
    ensures Flushed(db, batch, promote).db == db
  {
    EventsOutcome(db, batch);
    SecurityOutcome(db, batch);
  }
}
