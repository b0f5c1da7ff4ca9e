/**
 * The ordinary event cache of one calendar: cached rows, the quarantine of malformed objects and the effect of
 * one page batch (internal/storage/event_cache.go). Every row carries the generation of its last write.
 */
module EventCache {
  import opened Base
  import opened Strings
  import opened Events

  datatype Row =
    | LiveRow(objectId: string, event: Event, generation: nat)
    | Tombstone(objectId: string, generation: nat)

  type Rows = map<string, Row>

  datatype Quarantined = Quarantined(etag: string, nextRepair: int, attempts: nat, active: bool, authorized: string)

  type Quarantine = map<string, Quarantined>

  datatype Cache = Cache(rows: Rows, quarantine: Quarantine)

  predicate ActiveObject(q: Quarantine, objectId: string)
  {
    objectId in q && q[objectId].active
  }

  predicate AnyActive(q: Quarantine)
  {
    exists o | o in q :: q[o].active
  }

  // --- single-row writes -------------------------------------------------------

  /** upsertCachedEvent: the stored payload is plain JSON. */
  function PutRow(rows: Rows, objectId: string, event: Event, generation: nat): Rows
  {
    rows[event.id := LiveRow(objectId, event.Plain(), generation)]
  }

  /** tombstoneCachedEvent. */
  function Bury(rows: Rows, id: string, generation: nat): Rows
  {
    rows[id := Tombstone(if id in rows then rows[id].objectId else "", generation)]
  }

  /** tombstoneMissingObjectMembers; with no members it tombstones the whole object. */
  function BuryMissing(rows: Rows, objectId: string, members: set<string>, generation: nat): Rows
  {
    map id | id in rows ::
      if rows[id].LiveRow? && rows[id].objectId == objectId && id !in members
      then Tombstone(objectId, generation) else rows[id]
  }

  /** clearEventSyncQuarantine. */
  function Resolve(q: Quarantine, objectId: string): Quarantine
  {
    if objectId in q then q[objectId := q[objectId].(active := false)] else q
  }

  /** upsertEventSyncWarning: a changed or newly active object restarts its backoff and loses its authorization. */
  function Warn(q: Quarantine, objectId: string, etag: string, now: int): Quarantine
  {
    if objectId in q && q[objectId].active && q[objectId].etag == etag then q
    else q[objectId := Quarantined(etag, now, 0, true, "")]
  }

  // --- batches --------------------------------------------------------------------

  datatype CachedUpsert = CachedUpsert(objectId: string, event: Event)
  {
    /** The source object, with the event ID standing in for a missing one. */
    function Object(): string { if objectId == "" then event.id else objectId }
  }

  datatype Batch = Batch(
    fullSync: bool, upserts: seq<CachedUpsert>, deletedIds: seq<string>, deletedObjects: seq<string>,
    replacedObjects: seq<string>, warnings: seq<Warning>, degraded: bool, protocolCode: bool,
    nextCursor: string, nextSync: Option<int>)

  function MembersOf(upserts: seq<CachedUpsert>, objectId: string): set<string>
  {
    set i | 0 <= i < |upserts| && upserts[i].Object() == objectId :: upserts[i].event.id
  }

  predicate ValidCachedUpsert(calendar: string, u: CachedUpsert)
  {
    && (u.event.calendarId == "" || u.event.calendarId == calendar)
    && u.event.id != "" && ValidRange(u.event.start, u.event.end)
  }

  /** The checks of applyEventSyncPageTx that make the whole transaction fail. */
  predicate ValidBatch(calendar: string, b: Batch)
  {
    && (b.degraded ==> b.protocolCode)
    && (forall i | 0 <= i < |b.warnings| :: b.warnings[i].objectId != "" && b.warnings[i].protocol)
    && (forall i | 0 <= i < |b.upserts| :: ValidCachedUpsert(calendar, b.upserts[i]))
    && (forall i | 0 <= i < |b.deletedObjects| :: b.deletedObjects[i] != "")
    && (forall i | 0 <= i < |b.replacedObjects| ::
          && b.replacedObjects[i] != "" && b.replacedObjects[i] !in b.deletedObjects
          && MembersOf(b.upserts, b.replacedObjects[i]) != {})
  }

  function Owned(calendar: string, e: Event): Event
  {
    if e.calendarId == "" then e.(calendarId := calendar) else e
  }

  function Replaced(rows: Rows, objects: seq<string>, upserts: seq<CachedUpsert>, generation: nat): Rows
  {
    if objects == [] then rows
    else
      var last := objects[|objects| - 1];
      BuryMissing(Replaced(rows, objects[..|objects| - 1], upserts, generation), last, MembersOf(upserts, last), generation)
  }

  function Warned(q: Quarantine, warnings: seq<Warning>, now: int): Quarantine
  {
    if warnings == [] then q
    else
      var last := warnings[|warnings| - 1];
      Warn(Warned(q, warnings[..|warnings| - 1], now), last.objectId, last.etag, now)
  }

  function Upserted(c: Cache, calendar: string, upserts: seq<CachedUpsert>, generation: nat): Cache
  {
    if upserts == [] then c
    else
      var last := upserts[|upserts| - 1];
      var before := Upserted(c, calendar, upserts[..|upserts| - 1], generation);
      Cache(PutRow(before.rows, last.Object(), Owned(calendar, last.event), generation),
            Resolve(before.quarantine, last.Object()))
  }

  function Deleted(c: Cache, ids: seq<string>, generation: nat): Cache
  {
    if ids == [] then c
    else
      var last := ids[|ids| - 1];
      var before := Deleted(c, ids[..|ids| - 1], generation);
      Cache(Bury(before.rows, last, generation), Resolve(before.quarantine, last))
  }

  function ObjectsDeleted(c: Cache, objects: seq<string>, generation: nat): Cache
  {
    if objects == [] then c
    else
      var last := objects[|objects| - 1];
      var before := ObjectsDeleted(c, objects[..|objects| - 1], generation);
      Cache(BuryMissing(before.rows, last, {}, generation), Resolve(before.quarantine, last))
  }

  /** The row and quarantine effects of one page, in the order the transaction applies them. */
  function ApplyBatch(c: Cache, calendar: string, b: Batch, generation: nat, now: int): Cache
  {
    var start := Cache(Replaced(c.rows, b.replacedObjects, b.upserts, generation), Warned(c.quarantine, b.warnings, now));
    ObjectsDeleted(Deleted(Upserted(start, calendar, b.upserts, generation), b.deletedIds, generation),
                   b.deletedObjects, generation)
  }

  /** The full-generation sweep: older rows go unless their object is actively quarantined. */
  function Swept(c: Cache, generation: nat): Rows
  {
    map id | id in c.rows && (c.rows[id].generation == generation || ActiveObject(c.quarantine, c.rows[id].objectId))
      :: c.rows[id]
  }

  // --- the simple thing the cache stands for -----------------------------------------

  datatype Entry = Entry(objectId: string, event: Event)

  /** A plain mirror: event ID to owner and content, with no generations, tombstones or quarantine. */
  type Mirror = map<string, Entry>

  function PutEntries(m: Mirror, calendar: string, upserts: seq<CachedUpsert>): Mirror
  {
    if upserts == [] then m
    else
      var last := upserts[|upserts| - 1];
      PutEntries(m, calendar, upserts[..|upserts| - 1])
        [last.event.id := Entry(last.Object(), Owned(calendar, last.event).Plain())]
  }

  /** What a batch means for a mirror: complete objects lose missing members, then upserts, then deletions. */
  function MirrorBatch(m: Mirror, calendar: string, b: Batch): Mirror
  {
    WithoutObjects(Without(PutEntries(Retained(m, b.replacedObjects, b.upserts), calendar, b.upserts), b.deletedIds),
                   b.deletedObjects)
  }

  function Retained(m: Mirror, objects: seq<string>, upserts: seq<CachedUpsert>): Mirror
  {
    map id | id in m && (m[id].objectId in objects ==> id in MembersOf(upserts, m[id].objectId)) :: m[id]
  }

  function Without(m: Mirror, ids: seq<string>): Mirror
  {
    map id | id in m && id !in ids :: m[id]
  }

  function WithoutObjects(m: Mirror, objects: seq<string>): Mirror
  {
    map id | id in m && m[id].objectId !in objects :: m[id]
  }

  /** The live rows, or with a generation the live rows last written in it. */
  function View(rows: Rows, generation: Option<nat>): Mirror
  {
    map id | id in rows && rows[id].LiveRow? && (generation.None? || rows[id].generation == generation.value)
      :: Entry(rows[id].objectId, rows[id].event)
  }

  function Live(rows: Rows): Mirror
  {
    View(rows, None)
  }

  predicate Watches(view: Option<nat>, generation: nat)
  {
    view == None || view == Some(generation)
  }

  lemma BuryMissingView(rows: Rows, o: string, members: set<string>, g: nat, view: Option<nat>)
    requires Watches(view, g)
    ensures var v := View(rows, view);
            View(BuryMissing(rows, o, members, g), view) == map id | id in v && (v[id].objectId == o ==> id in members) :: v[id]
  {
  }

  lemma {:induction false} ReplacedView(rows: Rows, objects: seq<string>, upserts: seq<CachedUpsert>, g: nat, view: Option<nat>)
    requires Watches(view, g)
    ensures View(Replaced(rows, objects, upserts, g), view) == Retained(View(rows, view), objects, upserts)
  {
    hide MembersOf, View, BuryMissing;
    if objects != [] {
      var n := |objects| - 1;
      ReplacedView(rows, objects[..n], upserts, g, view);
      BuryMissingView(Replaced(rows, objects[..n], upserts, g), objects[n], MembersOf(upserts, objects[n]), g, view);
      assert forall o :: o in objects <==> o in objects[..n] || o == objects[n];
    }
  }

  lemma {:induction false} UpsertedView(c: Cache, calendar: string, upserts: seq<CachedUpsert>, g: nat, view: Option<nat>)
    requires Watches(view, g)
    requires forall i | 0 <= i < |upserts| :: Owned(calendar, upserts[i].event).id == upserts[i].event.id
    ensures View(Upserted(c, calendar, upserts, g).rows, view) == PutEntries(View(c.rows, view), calendar, upserts)
  {
    if upserts != [] {
      var n := |upserts| - 1;
      UpsertedView(c, calendar, upserts[..n], g, view);
    }
  }

  lemma BuryView(rows: Rows, id: string, g: nat, view: Option<nat>)
    requires Watches(view, g)
    ensures View(Bury(rows, id, g), view) == View(rows, view) - {id}
  {
  }

  lemma {:induction false} DeletedView(c: Cache, ids: seq<string>, g: nat, view: Option<nat>)
    requires Watches(view, g)
    ensures View(Deleted(c, ids, g).rows, view) == Without(View(c.rows, view), ids)
  {
    hide View, Bury;
    if ids != [] {
      var n := |ids| - 1;
      DeletedView(c, ids[..n], g, view);
      BuryView(Deleted(c, ids[..n], g).rows, ids[n], g, view);
      assert forall o :: o in ids <==> o in ids[..n] || o == ids[n];
    }
  }

  lemma {:induction false} ObjectsDeletedView(c: Cache, objects: seq<string>, g: nat, view: Option<nat>)
    requires Watches(view, g)
    ensures View(ObjectsDeleted(c, objects, g).rows, view) == WithoutObjects(View(c.rows, view), objects)
  {
    hide View, BuryMissing;
    if objects != [] {
      var n := |objects| - 1;
      ObjectsDeletedView(c, objects[..n], g, view);
      BuryMissingView(ObjectsDeleted(c, objects[..n], g).rows, objects[n], {}, g, view);
      assert forall o :: o in objects <==> o in objects[..n] || o == objects[n];
    }
  }

  /**
   * Applying a batch to the generation-stamped rows is the plain mirror update, both on all live rows and on
   * the live rows of the batch's own generation.
   */
  lemma BatchMirrors(c: Cache, calendar: string, b: Batch, g: nat, now: int, view: Option<nat>)
    requires Watches(view, g)
    ensures View(ApplyBatch(c, calendar, b, g, now).rows, view) == MirrorBatch(View(c.rows, view), calendar, b)
  {
    hide Replaced, Upserted, Deleted, ObjectsDeleted, View, Warned, MembersOf, PutEntries, Retained, Without, WithoutObjects;
    var start := Cache(Replaced(c.rows, b.replacedObjects, b.upserts, g), Warned(c.quarantine, b.warnings, now));
    var up := Upserted(start, calendar, b.upserts, g);
    var del := Deleted(up, b.deletedIds, g);
    ReplacedView(c.rows, b.replacedObjects, b.upserts, g, view);
    UpsertedView(start, calendar, b.upserts, g, view);
    DeletedView(up, b.deletedIds, g, view);
    ObjectsDeletedView(del, b.deletedObjects, g, view);
  }

  /** No row is stamped with a later generation, and no deletion or resolution activates an object. */
  lemma {:induction false} UpsertsResolve(c: Cache, calendar: string, upserts: seq<CachedUpsert>, g: nat)
    ensures forall o | ActiveObject(Upserted(c, calendar, upserts, g).quarantine, o) :: ActiveObject(c.quarantine, o)
  {
    if upserts != [] {
      UpsertsResolve(c, calendar, upserts[..|upserts| - 1], g);
    }
  }

  lemma {:induction false} DeletesResolve(c: Cache, ids: seq<string>, g: nat)
    ensures forall o | ActiveObject(Deleted(c, ids, g).quarantine, o) :: ActiveObject(c.quarantine, o)
  {
    if ids != [] {
      DeletesResolve(c, ids[..|ids| - 1], g);
    }
  }

  lemma {:induction false} ObjectDeletesResolve(c: Cache, objects: seq<string>, g: nat)
    ensures forall o | ActiveObject(ObjectsDeleted(c, objects, g).quarantine, o) :: ActiveObject(c.quarantine, o)
  {
    if objects != [] {
      ObjectDeletesResolve(c, objects[..|objects| - 1], g);
    }
  }

  lemma NoNewActive(c: Cache, calendar: string, b: Batch, g: nat, now: int)
    requires b.warnings == []
    ensures forall o | ActiveObject(ApplyBatch(c, calendar, b, g, now).quarantine, o) :: ActiveObject(c.quarantine, o)
  {
    hide Replaced, Upserted, Deleted, ObjectsDeleted;
    var start := Cache(Replaced(c.rows, b.replacedObjects, b.upserts, g), Warned(c.quarantine, b.warnings, now));
    var up := Upserted(start, calendar, b.upserts, g);
    UpsertsResolve(start, calendar, b.upserts, g);
    DeletesResolve(up, b.deletedIds, g);
    ObjectDeletesResolve(Deleted(up, b.deletedIds, g), b.deletedObjects, g);
  }
}
