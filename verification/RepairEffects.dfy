/** What the three outcomes of an object repair do to the cache (ApplyEventSyncObjectRepair of internal/storage/event_cache.go). */
module RepairEffects {
  import opened Base
  import opened Events
  import opened EventCache
  import opened SyncLease
  import opened Calendars
  import opened ProviderPages

  /** The page that would bring the object whole. */
  function ObjectPage(r: RepairBatch): Page
  {
    Page("", seq(|r.upserts|, i requires 0 <= i < |r.upserts| => Upsert(r.objectId, "", r.upserts[i].event)), [], [], [], [r.objectId], [],
         "", "", false, false, [])
  }

  /**
   * A grant makes the object's repair due at once and authorizes it for the ETag it has; an idle calendar due later
   * becomes due at once, a claimed one keeps its schedule.
   */
  lemma GrantMeans(c: Calendar, objectId: string, etag: string, now: int)
    requires Grant(c, objectId, etag, now).Ok?
    ensures var e := Grant(c, objectId, etag, now).value;
            && ActiveObject(c.cache.quarantine, objectId) && c.cache.quarantine[objectId].etag == etag && objectId in e.cache.quarantine
            && e == c.(sync := e.sync, cache := c.cache.(quarantine := e.cache.quarantine))
            && OthersKept(c.cache.quarantine, e.cache.quarantine, objectId)
            && var before, after := c.cache.quarantine[objectId], e.cache.quarantine[objectId];
               && after == before.(authorized := etag, nextRepair := after.nextRepair)
               && after.nextRepair <= now && after.nextRepair <= before.nextRepair
               && (before.nextRepair <= now ==> after.nextRepair == before.nextRepair) && (before.nextRepair > now ==> after.nextRepair == now)
               && (c.sync.None? ==> e.sync.None?)
               && (c.sync.Some? ==>
                     && e.sync.Some? && e.sync.value == c.sync.value.(nextSync := e.sync.value.nextSync)
                     && e.sync.value.nextSync == (if c.sync.value.owner.None? || c.sync.value.Unleased(now)
                                                  then (if c.sync.value.nextSync > now then now else c.sync.value.nextSync)
                                                  else c.sync.value.nextSync))
  {
  }

  /** No other object's quarantine changed. */
  ghost predicate OthersKept(q: Quarantine, r: Quarantine, objectId: string)
  {
    forall o | o != objectId :: SameEntry(q, r, o)
  }

  predicate SameEntry(q: Quarantine, r: Quarantine, o: string)
  {
    (o in r <==> o in q) && (o in q ==> r[o] == q[o])
  }

  /** A replacement does to the rows what a page does that brings the object whole, and ends its quarantine. */
  lemma ReplacementMeans(c: Cache, calendar: string, r: RepairBatch, g: nat, now: int)
    requires r.outcome.ReplaceMembership? && r.objectId != "" && r.upserts != []
    ensures var d := RepairedCache(c, calendar, r, g, now);
            && RowsFollow(ObjectPage(r), calendar, Live(c.rows), Live(d.rows))
            && (forall id | id in Live(d.rows) && Live(d.rows)[id].objectId == r.objectId ::
                  exists i | 0 <= i < |r.upserts| :: r.upserts[i].event.id == id)
            && !ActiveObject(d.quarantine, r.objectId) && OthersKept(c.quarantine, d.quarantine, r.objectId)
  {
    var p := ObjectPage(r);
    var b := ToBatch(p, calendar, false, false, 0);
    RepairIsPage(calendar, r);
    PageRows(p, calendar, false, false, 0, c, g, now, None);
    PageQuarantine(p, calendar, false, false, 0, c, g, now);
    ObjectNamed(r);
    hide ToBatch, ApplyBatch, View, RepairAsBatch, ObjectPage;
    var d := ApplyBatch(c, calendar, b, g, now);
    MembersOnly(r, calendar, Live(c.rows), Live(d.rows));
    hide RowsFollow;
  }

  lemma RepairIsPage(calendar: string, r: RepairBatch)
    ensures RepairAsBatch(calendar, r) == ToBatch(ObjectPage(r), calendar, false, false, 0)
  {
    assert RepairAsBatch(calendar, r).upserts == OwnUpserts(ObjectPage(r), calendar);
  }

  lemma ObjectNamed(r: RepairBatch)
    requires r.objectId != "" && r.upserts != []
    ensures forall o :: NamesObject(ObjectPage(r), o) <==> o == r.objectId
    ensures forall o :: !Warns(ObjectPage(r), o)
  {
    assert ObjectOf(ObjectPage(r).upserts[0]) == r.objectId;
  }

  lemma MembersOnly(r: RepairBatch, calendar: string, before: Mirror, after: Mirror)
    requires RowsFollow(ObjectPage(r), calendar, before, after)
    ensures forall id | id in after && after[id].objectId == r.objectId :: exists i | 0 <= i < |r.upserts| :: r.upserts[i].event.id == id
  {
    var p := ObjectPage(r);
    forall id | id in after && after[id].objectId == r.objectId ensures exists i | 0 <= i < |r.upserts| :: r.upserts[i].event.id == id {
      assert r.objectId in p.replacedObjects;
      var i :| 0 <= i < |p.upserts| && p.upserts[i].event.id == id;
      assert r.upserts[i].event.id == id;
    }
  }

  /** An absent object loses its live events and its quarantine; no other event or object is touched. */
  lemma AbsenceMeans(c: Cache, calendar: string, r: RepairBatch, g: nat, now: int)
    requires r.outcome.Absent?
    ensures var d := RepairedCache(c, calendar, r, g, now);
            && Live(d.rows) == (map id | id in Live(c.rows) && Live(c.rows)[id].objectId != r.objectId :: Live(c.rows)[id])
            && !ActiveObject(d.quarantine, r.objectId) && OthersKept(c.quarantine, d.quarantine, r.objectId)
  {
    ObjectsDeletedView(c, [r.objectId], g, None);
    forall o
      ensures o != r.objectId ==> SameEntry(c.quarantine, ObjectsDeleted(c, [r.objectId], g).quarantine, o)
      ensures o == r.objectId ==> !ActiveObject(ObjectsDeleted(c, [r.objectId], g).quarantine, o)
    {
      ObjectsQuarantine(c, [r.objectId], g, o);
    }
    hide ObjectsDeleted;
  }

  /**
   * An object still quarantined keeps its rows. At the ETag it had, it keeps its attempts and authorization; at another
   * it starts without either. One attempt is counted when the next repair is set, which moves its time.
   */
  lemma StillQuarantinedMeans(c: Cache, calendar: string, r: RepairBatch, g: nat, now: int)
    requires r.outcome.StillQuarantined? && r.warning.Some?
    ensures var d, etag := RepairedCache(c, calendar, r, g, now), r.warning.value.etag;
            && d.rows == c.rows && OthersKept(c.quarantine, d.quarantine, r.objectId) && r.objectId in d.quarantine
            && var known := ActiveObject(c.quarantine, r.objectId) && c.quarantine[r.objectId].etag == etag;
               var row := d.quarantine[r.objectId];
               && row.active && row.etag == etag
               && row.authorized == (if known then c.quarantine[r.objectId].authorized else "")
               && row.attempts == (if known then c.quarantine[r.objectId].attempts else 0) + (if r.nextRepair.Some? then 1 else 0)
               && row.nextRepair == (if r.nextRepair.Some? then r.nextRepair.value
                                     else if known then c.quarantine[r.objectId].nextRepair else now)
  {
  }
}
