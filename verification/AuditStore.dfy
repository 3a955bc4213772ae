/**
 The audit sink's write path: one transaction per batch, de-duplicated against
 the table, with security events promoted to a second table.
 */
module AuditStore {
  import opened Common

  const SECURITY_EVENT_TYPES := {
    "iam.user.login_failed", "iam.user.password_reset", "iam.user.mfa_challenged", "iam.user.locked",
    "iam.api_key.revoked", "iam.api_key.used_after_revoke", "iam.user.role_escalation_denied",
    "iam.tenant.admin_invited", "security.login.failed", "security.permission.denied"
  }

  /** An envelope with its rows already built; `columns` and `cipher` are only carried along. */
  datatype Item = Item(id: string, tenant: string, topic: string, eventType: string, columns: string, cipher: string) {
    predicate IsSecurity() {
      eventType in SECURITY_EVENT_TYPES
    }

    function Row(): EventRow {
      EventRow(tenant, topic, eventType, columns)
    }

    function Promotion(): SecurityRow {
      SecurityRow(tenant, eventType, columns)
    }
  }

  datatype EventRow = EventRow(tenant: string, topic: string, eventType: string, columns: string) {
    predicate IsSecurity() {
      eventType in SECURITY_EVENT_TYPES
    }
  }

  /** A promoted event; the topic is not kept with it. */
  datatype SecurityRow = SecurityRow(tenant: string, eventType: string, columns: string)

  type EventTable = map<string, EventRow>
  type PayloadTable = map<string, string>
  /** Unique in tenant and audit event id. */
  type SecurityTable = map<(string, string), SecurityRow>

  datatype Db = Db(events: EventTable, payloads: PayloadTable, security: SecurityTable)

  datatype FlushResult = Inserted(count: nat) | UpstreamError

  // ---------------------------------------------------------------------------
  // One flush
  // ---------------------------------------------------------------------------

  function NewItems(events: EventTable, batch: seq<Item>): seq<Item> {
    if batch == [] then []
    else (if batch[0].id in events then [] else [batch[0]]) + NewItems(events, batch[1..])
  }

  /** A repeat of `(tenant, event_id)` is skipped; a repeat of the primary key alone is an error. */
  function InsertEvents(events: EventTable, items: seq<Item>): Option<EventTable>
    decreases |items|
  {
    if items == [] then Some(events)
    else if items[0].id !in events then InsertEvents(events[items[0].id := items[0].Row()], items[1..])
    else if events[items[0].id].tenant == items[0].tenant then InsertEvents(events, items[1..])
    else None
  }

  function InsertPayloads(payloads: PayloadTable, items: seq<Item>): PayloadTable
    decreases |items|
  {
    if items == [] then payloads
    else InsertPayloads(if items[0].id in payloads then payloads else payloads[items[0].id := items[0].cipher], items[1..])
  }

  /** Plain inserts: a repeat violates the unique constraint. */
  function InsertSecurity(security: SecurityTable, items: seq<Item>): Option<SecurityTable>
    decreases |items|
  {
    if items == [] then Some(security)
    else if !items[0].IsSecurity() then InsertSecurity(security, items[1..])
    else if (items[0].tenant, items[0].id) in security then None
    else InsertSecurity(security[(items[0].tenant, items[0].id) := items[0].Promotion()], items[1..])
  }

  function MaybeInsertSecurity(security: SecurityTable, items: seq<Item>, promote: bool): Option<SecurityTable> {
    if promote then InsertSecurity(security, items) else Some(security)
  }

  datatype Flush = Flush(db: Db, result: FlushResult)

  function Flushed(db: Db, batch: seq<Item>, promote: bool): Flush {
    var items := NewItems(db.events, batch);
    if items == [] then Flush(db, Inserted(0))
    else
      match InsertEvents(db.events, items)
      case None => Flush(db, UpstreamError)
      case Some(events) =>
        var payloads := InsertPayloads(db.payloads, items);
        match MaybeInsertSecurity(db.security, items, promote)
        case None => Flush(db, Inserted(|items|))
        case Some(security) => Flush(Db(events, payloads, security), Inserted(|items|))
  }

  class Store {
    var events: EventTable
    var payloads: PayloadTable
    var security: SecurityTable

    function View(): Db
      reads this
    {
      Db(events, payloads, security)
    }

    constructor ()
      ensures View() == Db(map[], map[], map[])
    {
      events, payloads, security := map[], map[], map[];
    }

    /** The dedup pre-check. */
    method NotStored(batch: seq<Item>) returns (items: seq<Item>)
      ensures items == NewItems(events, batch)
    {
      items := [];
      for i := 0 to |batch|
        invariant items + NewItems(events, batch[i..]) == NewItems(events, batch)
      {
        assert batch[i..][0] == batch[i] && batch[i..][1..] == batch[i + 1..];
        if batch[i].id !in events {
          items := items + [batch[i]];
        }
      }
      assert items + [] == items;
    }

    /** The two bulk inserts, as the transaction sees the tables. */
    method BulkInsert(items: seq<Item>) returns (newEvents: Option<EventTable>, newPayloads: PayloadTable)
      ensures newEvents == InsertEvents(events, items)
      ensures newEvents.Some? ==> newPayloads == InsertPayloads(payloads, items)
    {
      var table := events;
      newPayloads := payloads;
      for i := 0 to |items|
        invariant InsertEvents(table, items[i..]) == InsertEvents(events, items)
        invariant InsertPayloads(newPayloads, items[i..]) == InsertPayloads(payloads, items)
      {
        var item := items[i];
        assert items[i..][0] == item && items[i..][1..] == items[i + 1..];
        if item.id !in table {
          table := table[item.id := item.Row()];
        } else if table[item.id].tenant != item.tenant {
          return None, newPayloads;
        }
        if item.id !in newPayloads {
          newPayloads := newPayloads[item.id := item.cipher];
        }
      }
      return Some(table), newPayloads;
    }

    method Promote(items: seq<Item>) returns (newSecurity: Option<SecurityTable>)
      ensures newSecurity == InsertSecurity(security, items)
    {
      var table := security;
      for i := 0 to |items|
        invariant InsertSecurity(table, items[i..]) == InsertSecurity(security, items)
      {
        var item := items[i];
        assert items[i..][0] == item && items[i..][1..] == items[i + 1..];
        if item.IsSecurity() {
          if (item.tenant, item.id) in table {
            return None;
          }
          table := table[(item.tenant, item.id) := item.Promotion()];
        }
      }
      return Some(table);
    }

    /**
     `dbFails` stands for any error of the database that is not a uniqueness conflict.  The tables are
     written as one, or not at all.
     */
    method FlushBatch(batch: seq<Item>, promote: bool, dbFails: bool) returns (r: FlushResult)
      modifies this
      ensures batch == [] ==> r == Inserted(0) && View() == old(View())
      ensures batch != [] && dbFails ==> r == UpstreamError && View() == old(View())
      ensures batch != [] && !dbFails ==> Flush(View(), r) == Flushed(old(View()), batch, promote)
    {
      if batch == [] {
        return Inserted(0);
      }
      if dbFails {
        return UpstreamError;
      }
      var items := NotStored(batch);
      if items == [] {
        return Inserted(0);
      }
      var newEvents, newPayloads := BulkInsert(items);
      if newEvents == None {
        return UpstreamError;
      }
      var newSecurity := Some(security);
      if promote {
        newSecurity := Promote(items);
      }
      if newSecurity.Some? {
        events, payloads, security := newEvents.value, newPayloads, newSecurity.value;
      }
      return Inserted(|items|);
    }
  }

  // ---------------------------------------------------------------------------
  // One-at-a-time insertion, the reference
  // ---------------------------------------------------------------------------

  function InsertOne(db: Db, item: Item, promote: bool): Db {
    if item.id in db.events then db
    else Db(db.events[item.id := item.Row()],
            db.payloads[item.id := item.cipher],
            if promote && item.IsSecurity() then db.security[(item.tenant, item.id) := item.Promotion()] else db.security)
  }

  function InsertAll(db: Db, items: seq<Item>, promote: bool): Db
    decreases |items|
  {
    if items == [] then db else InsertAll(InsertOne(db, items[0], promote), items[1..], promote)
  }

  /** What the foreign keys guarantee of the tables. */
  ghost predicate Linked(db: Db) {
    && db.payloads.Keys == db.events.Keys
    && forall k :: k in db.security ==> k.1 in db.events && db.events[k.1].tenant == k.0
  }

  /** Two items of one batch that the transaction cannot store the way one-at-a-time insertion would. */
  ghost predicate ClashAt(items: seq<Item>, promote: bool, i: nat, j: nat) {
    && i < j < |items| && items[i].id == items[j].id
    && (items[i].tenant != items[j].tenant || (promote && items[j].IsSecurity()))
  }

  ghost predicate Clash(items: seq<Item>, promote: bool) {
    exists i: nat, j: nat :: ClashAt(items, promote, i, j)
  }

  // ---------------------------------------------------------------------------
  // A batch without a clash is stored item by item
  // ---------------------------------------------------------------------------

  /** An item whose id is already stored must be one that every table skips. */
  ghost predicate Fits(events: EventTable, item: Item, promote: bool) {
    item.id in events ==> events[item.id].tenant == item.tenant && !(promote && item.IsSecurity())
  }

  lemma NoClashTail(items: seq<Item>, promote: bool)
    requires items != [] && !Clash(items, promote)
    ensures !Clash(items[1..], promote)
    ensures forall k :: 0 <= k < |items[1..]| && items[1..][k].id == items[0].id ==>
              items[1..][k].tenant == items[0].tenant && !(promote && items[1..][k].IsSecurity())
  {
    if i: nat, j: nat :| ClashAt(items[1..], promote, i, j) {
      assert ClashAt(items, promote, i + 1, j + 1);
    }
    forall k | 0 <= k < |items[1..]| && items[1..][k].id == items[0].id
      ensures items[1..][k].tenant == items[0].tenant && !(promote && items[1..][k].IsSecurity())
    {
      assert !ClashAt(items, promote, 0, k + 1);
    }
  }

  /** The three bulk statements, run over the whole batch one after the other, agree with inserting item by item. */
  lemma {:induction false} BulkIsItemwise(db: Db, items: seq<Item>, promote: bool)
    requires Linked(db) && !Clash(items, promote)
    requires forall k :: 0 <= k < |items| ==> Fits(db.events, items[k], promote)
    ensures var all := InsertAll(db, items, promote);
            && InsertEvents(db.events, items) == Some(all.events)
            && InsertPayloads(db.payloads, items) == all.payloads
            && MaybeInsertSecurity(db.security, items, promote) == Some(all.security)
    decreases |items|
  {
    if items != [] {
      var next := InsertOne(db, items[0], promote);
      NoClashTail(items, promote);
      assert Fits(db.events, items[0], promote);
      forall k | 0 <= k < |items[1..]|
        ensures Fits(next.events, items[1..][k], promote)
      {
        assert Fits(db.events, items[k + 1], promote);
      }
      BulkIsItemwise(next, items[1..], promote);
    }
  }

  lemma {:induction false} NewItemsAreNew(events: EventTable, batch: seq<Item>)
    ensures forall k :: 0 <= k < |NewItems(events, batch)| ==>
              NewItems(events, batch)[k].id !in events && NewItems(events, batch)[k] in batch
  {
    if batch != [] {
      NewItemsAreNew(events, batch[1..]);
    }
  }

  /** Items already stored before the batch may be left out. */
  lemma {:induction false} OldItemsDoNothing(db: Db, events: EventTable, batch: seq<Item>, promote: bool)
    requires events.Keys <= db.events.Keys
    ensures InsertAll(db, batch, promote) == InsertAll(db, NewItems(events, batch), promote)
    decreases |batch|
  {
    if batch != [] {
      OldItemsDoNothing(InsertOne(db, batch[0], promote), events, batch[1..], promote);
      var rest := NewItems(events, batch[1..]);
      assert ([batch[0]] + rest)[1..] == rest && [] + rest == rest;
    }
  }

  // ---------------------------------------------------------------------------
  // A batch with a clash is not
  // ---------------------------------------------------------------------------

  lemma {:induction false} CrossTenantFails(events: EventTable, items: seq<Item>, j: nat)
    requires j < |items|
    requires (items[j].id in events && events[items[j].id].tenant != items[j].tenant)
             || exists i: nat :: i < j && items[i].id == items[j].id && items[i].tenant != items[j].tenant
    ensures InsertEvents(events, items) == None
    decreases |items|
  {
    var first := items[0];
    var next := if first.id in events then events else events[first.id := first.Row()];
    if j > 0 && (first.id !in events || events[first.id].tenant == first.tenant) {
      if i: nat :| 0 < i < j && items[i].id == items[j].id && items[i].tenant != items[j].tenant {
        assert items[1..][i - 1].id == items[1..][j - 1].id && items[1..][i - 1].tenant != items[1..][j - 1].tenant;
      }
      CrossTenantFails(next, items[1..], j - 1);
    }
  }

  lemma {:induction false} RepeatedSecurityFails(security: SecurityTable, items: seq<Item>, j: nat)
    requires j < |items| && items[j].IsSecurity()
    requires (items[j].tenant, items[j].id) in security
             || exists i: nat :: i < j && items[i].IsSecurity() && items[i].id == items[j].id && items[i].tenant == items[j].tenant
    ensures InsertSecurity(security, items) == None
    decreases |items|
  {
    var first := items[0];
    if j > 0 && !(first.IsSecurity() && (first.tenant, first.id) in security) {
      var next := if first.IsSecurity() then security[(first.tenant, first.id) := first.Promotion()] else security;
      if i: nat :| 0 < i < j && items[i].IsSecurity() && items[i].id == items[j].id && items[i].tenant == items[j].tenant {
        var tail := items[1..];
        assert tail[i - 1].IsSecurity() && tail[i - 1].id == tail[j - 1].id && tail[i - 1].tenant == tail[j - 1].tenant;
      }
      RepeatedSecurityFails(next, items[1..], j - 1);
    }
  }

  lemma {:induction false} SecurityIsPromoted(security: SecurityTable, items: seq<Item>, j: nat)
    requires InsertSecurity(security, items).Some?
    ensures security.Keys <= InsertSecurity(security, items).value.Keys
    ensures j < |items| && items[j].IsSecurity() ==> (items[j].tenant, items[j].id) in InsertSecurity(security, items).value
    decreases |items|
  {
    if items != [] {
      var first := items[0];
      var next := if first.IsSecurity() then security[(first.tenant, first.id) := first.Promotion()] else security;
      SecurityIsPromoted(next, items[1..], if j > 0 then j - 1 else 0);
    }
  }

  /** One-at-a-time insertion promotes an id only if its first item is a security event. */
  lemma {:induction false} FirstDecides(db: Db, items: seq<Item>, promote: bool, key: (string, string)) returns (k: nat)
    requires key in InsertAll(db, items, promote).security && key !in db.security
    ensures k < |items| && items[k].id == key.1 && items[k].tenant == key.0 && items[k].IsSecurity() && promote
    ensures forall m :: 0 <= m < k ==> items[m].id != key.1
    ensures key.1 !in db.events
    decreases |items|
  {
    var next := InsertOne(db, items[0], promote);
    if key in next.security {
      k := 0;
    } else {
      k := FirstDecides(next, items[1..], promote, key);
      assert items[k + 1] == items[1..][k];
      forall m | 0 <= m < k + 1
        ensures items[m].id != key.1
      {
        assert m > 0 ==> items[m] == items[1..][m - 1];
      }
      k := k + 1;
    }
  }

  lemma {:induction false} InsertAllKeeps(db: Db, items: seq<Item>, promote: bool)
    ensures db.events.Keys <= InsertAll(db, items, promote).events.Keys
    ensures items != [] ==> items[0].id in InsertAll(db, items, promote).events
    decreases |items|
  {
    if items != [] {
      InsertAllKeeps(InsertOne(db, items[0], promote), items[1..], promote);
    }
  }

  lemma ClashIsNotItemwise(db: Db, batch: seq<Item>, promote: bool)
    requires Linked(db) && Clash(NewItems(db.events, batch), promote)
    ensures Flushed(db, batch, promote).db != InsertAll(db, NewItems(db.events, batch), promote)
  {
    var items := NewItems(db.events, batch);
    NewItemsAreNew(db.events, batch);
    InsertAllKeeps(db, items, promote);
    var i: nat, j: nat :| ClashAt(items, promote, i, j);
    var all := InsertAll(db, items, promote);
    if items[i].tenant != items[j].tenant {
      CrossTenantFails(db.events, items, j);
    } else if InsertEvents(db.events, items).Some? && InsertSecurity(db.security, items).Some? {
      var key := (items[j].tenant, items[j].id);
      SecurityIsPromoted(db.security, items, j);
      if key in all.security {
        var k := FirstDecides(db, items, promote, key);
        RepeatedSecurityFails(db.security, items, j);
        assert false;
      }
    }
  }

  /**
   Batching refines one-at-a-time, first-wins insertion exactly when the batch holds no two new items with
   one id that differ in tenant or of which the later is a security event.
   */
  lemma FlushIsFirstWins(db: Db, batch: seq<Item>, promote: bool)
    requires Linked(db)
    ensures Flushed(db, batch, promote).db == InsertAll(db, batch, promote) <==> !Clash(NewItems(db.events, batch), promote)
  {
    var items := NewItems(db.events, batch);
    OldItemsDoNothing(db, db.events, batch, promote);
    if Clash(items, promote) {
      ClashIsNotItemwise(db, batch, promote);
    } else {
      NewItemsAreNew(db.events, batch);
      BulkIsItemwise(db, items, promote);
    }
  }
}
