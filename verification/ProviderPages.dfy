/** Provider pages: what the coordinator accepts, and the batch each becomes (validatePage and toStorageBatch of internal/eventsync/service.go). */
module ProviderPages {
  import opened Base
  import opened Events
  import opened EventCache

  predicate NoContent(p: Page)
  {
    && !p.complete && p.nextToken == "" && p.nextCursor == "" && p.upserts == [] && p.deletedIds == [] && p.removals == []
    && p.deletedObjects == [] && p.replacedObjects == [] && p.inventory == []
  }

  predicate Continues(mode: Mode, p: Page)
  {
    if p.complete then p.nextToken == "" && (mode.Incremental? ==> p.nextCursor != "") else p.nextToken != "" && p.nextCursor == ""
  }

  predicate SomeMember(p: Page, objectId: string)
  {
    exists i | 0 <= i < |p.upserts| :: p.upserts[i].objectId == objectId
  }

  /** What validatePage accepts. */
  predicate ValidSyncPage(mode: Mode, p: Page)
  {
    && (forall i | 0 <= i < |p.warnings| :: p.warnings[i].protocol && p.warnings[i].objectId != "")
    && if p.resetRequired then NoContent(p)
       else
         && Continues(mode, p)
         && (forall i | 0 <= i < |p.upserts| :: p.upserts[i].event.id != "")
         && (forall i | 0 <= i < |p.deletedObjects| :: p.deletedObjects[i] != "")
         && (forall i | 0 <= i < |p.deletedIds| :: p.deletedIds[i] != "")
         && (forall i | 0 <= i < |p.replacedObjects| ::
               p.replacedObjects[i] != "" && p.replacedObjects[i] !in p.deletedObjects && SomeMember(p, p.replacedObjects[i]))
         && (forall i | 0 <= i < |p.inventory| :: p.inventory[i] != "")
  }

  /** The sets of complete and of deleted objects a page names. */
  method IndexObjects(p: Page) returns (ok: bool, members: set<string>, deleted: set<string>)
    ensures ok <==> (forall i | 0 <= i < |p.upserts| :: p.upserts[i].event.id != "")
                    && (forall i | 0 <= i < |p.deletedObjects| :: p.deletedObjects[i] != "")
    ensures ok ==> (forall o | o != "" :: o in members <==> SomeMember(p, o)) && (forall o :: o in deleted <==> o in p.deletedObjects)
  {
    members, deleted := {}, {};
    for i := 0 to |p.upserts|
      invariant forall k | 0 <= k < i :: p.upserts[k].event.id != ""
      invariant forall o :: o in members <==> o != "" && exists k | 0 <= k < i :: p.upserts[k].objectId == o
    {
      if p.upserts[i].event.id == "" {
        return false, members, deleted;
      }
      if p.upserts[i].objectId != "" {
        members := members + {p.upserts[i].objectId};
      }
    }
    for i := 0 to |p.deletedObjects|
      invariant forall k | 0 <= k < i :: p.deletedObjects[k] != ""
      invariant forall o :: o in deleted <==> o in p.deletedObjects[..i]
    {
      if p.deletedObjects[i] == "" {
        return false, members, deleted;
      }
      deleted := deleted + {p.deletedObjects[i]};
    }
    return true, members, deleted;
  }

  method AllNamed(ids: seq<string>) returns (ok: bool)
    ensures ok <==> forall i | 0 <= i < |ids| :: ids[i] != ""
  {
    for i := 0 to |ids|
      invariant forall k | 0 <= k < i :: ids[k] != ""
    {
      if ids[i] == "" {
        return false;
      }
    }
    return true;
  }

  method ValidatePage(mode: Mode, p: Page) returns (ok: bool)
    ensures ok <==> ValidSyncPage(mode, p)
  {
    for i := 0 to |p.warnings|
      invariant forall k | 0 <= k < i :: p.warnings[k].protocol && p.warnings[k].objectId != ""
    {
      if !p.warnings[i].protocol || p.warnings[i].objectId == "" {
        return false;
      }
    }
    if p.resetRequired {
      return NoContent(p);
    }
    if !Continues(mode, p) {
      return false;
    }
    var indexed, members, deleted := IndexObjects(p);
    if !indexed {
      return false;
    }
    var named := AllNamed(p.deletedIds);
    var listed := AllNamed(p.inventory);
    if !named || !listed {
      return false;
    }
    for i := 0 to |p.replacedObjects|
      invariant forall k | 0 <= k < i ::
                  p.replacedObjects[k] != "" && p.replacedObjects[k] !in p.deletedObjects && SomeMember(p, p.replacedObjects[k])
    {
      if p.replacedObjects[i] == "" || p.replacedObjects[i] in deleted || p.replacedObjects[i] !in members {
        return false;
      }
    }
    return true;
  }

  function OwnUpserts(p: Page, calendar: string): (r: seq<CachedUpsert>)
    ensures |r| == |p.upserts|
    ensures forall i | 0 <= i < |r| :: r[i] == CachedUpsert(p.upserts[i].objectId, p.upserts[i].event.(calendarId := calendar))
  {
    seq(|p.upserts|, i requires 0 <= i < |p.upserts| => CachedUpsert(p.upserts[i].objectId, p.upserts[i].event.(calendarId := calendar)))
  }

  /** toStorageBatch, with the cursor and the next poll a terminal page adds. */
  function ToBatch(p: Page, calendar: string, full: bool, degraded: bool, next: int): Batch
  {
    Batch(full, OwnUpserts(p, calendar), p.deletedIds, p.deletedObjects, p.replacedObjects, p.warnings, degraded, true,
          if p.complete && !degraded then p.nextCursor else "", if p.complete then Some(next) else None)
  }

  /** A validated page becomes a batch the storage layer can only refuse for an event's times. */
  lemma ValidPageBatch(mode: Mode, p: Page, calendar: string, full: bool, degraded: bool, next: int)
    requires ValidSyncPage(mode, p) && !p.resetRequired
    ensures ValidBatch(calendar, ToBatch(p, calendar, full, degraded, next))
       <==> forall i | 0 <= i < |p.upserts| :: ValidRange(p.upserts[i].event.start, p.upserts[i].event.end)
  {
    hide ValidRange;
    var b := ToBatch(p, calendar, full, degraded, next);
    assert forall i | 0 <= i < |b.upserts| :: b.upserts[i].event.start == p.upserts[i].event.start;
    forall i | 0 <= i < |p.replacedObjects| ensures MembersOf(b.upserts, p.replacedObjects[i]) != {} {
      assert SomeMember(p, p.replacedObjects[i]);
      var k :| 0 <= k < |p.upserts| && p.upserts[k].objectId == p.replacedObjects[i];
      assert b.upserts[k].Object() == p.replacedObjects[i];
      assert b.upserts[k].event.id in MembersOf(b.upserts, p.replacedObjects[i]);
    }
    if ValidBatch(calendar, b) {
      assert forall i | 0 <= i < |p.upserts| :: ValidCachedUpsert(calendar, b.upserts[i]);
    }
  }

  // --- what a page does to the cache -----------------------------------------------------------

  function ObjectOf(u: Upsert): string
  {
    if u.objectId == "" then u.event.id else u.objectId
  }

  /** The last upsert of its event. */
  predicate LastUpsert(p: Page, i: nat)
  {
    i < |p.upserts| && forall k | i < k < |p.upserts| :: p.upserts[k].event.id != p.upserts[i].event.id
  }

  predicate NamesEvent(p: Page, id: string)
  {
    id in p.deletedIds || exists i | 0 <= i < |p.upserts| :: p.upserts[i].event.id == id
  }

  /** The page brings or removes this object, or an event of this name. */
  predicate NamesObject(p: Page, objectId: string)
  {
    objectId in p.deletedIds || objectId in p.deletedObjects || exists i | 0 <= i < |p.upserts| :: ObjectOf(p.upserts[i]) == objectId
  }

  /** The last warning of its object. */
  predicate LastWarning(p: Page, i: nat)
  {
    i < |p.warnings| && forall k | i < k < |p.warnings| :: p.warnings[k].objectId != p.warnings[i].objectId
  }

  predicate OnlyWarning(p: Page, i: nat)
    requires i < |p.warnings|
  {
    forall k | 0 <= k < i :: p.warnings[k].objectId != p.warnings[i].objectId
  }

  predicate Warns(p: Page, objectId: string)
  {
    exists i | 0 <= i < |p.warnings| :: p.warnings[i].objectId == objectId
  }

  /**
   * The live events: the page's own, as it last brought them, unless it deletes them too; of a replaced object only
   * the page's members; of a deleted object none; every other event as it was.
   */
  ghost predicate RowsFollow(p: Page, calendar: string, before: Mirror, after: Mirror)
  {
    && (forall id | id in after :: after[id].objectId !in p.deletedObjects && id !in p.deletedIds)
    && (forall i: nat | LastUpsert(p, i) && p.upserts[i].event.id !in p.deletedIds && ObjectOf(p.upserts[i]) !in p.deletedObjects ::
          && p.upserts[i].event.id in after
          && after[p.upserts[i].event.id] == Entry(ObjectOf(p.upserts[i]), p.upserts[i].event.(calendarId := calendar).Plain()))
    && (forall id | id in after && after[id].objectId in p.replacedObjects ::
          exists i | 0 <= i < |p.upserts| :: p.upserts[i].event.id == id && ObjectOf(p.upserts[i]) == after[id].objectId)
    && (forall id | id in before && !NamesEvent(p, id) && before[id].objectId !in p.deletedObjects && before[id].objectId !in p.replacedObjects ::
          id in after && after[id] == before[id])
    && (forall id | id in after && !NamesEvent(p, id) :: id in before && after[id] == before[id])
  }

  /**
   * The quarantine: what the page brings or removes leaves it, what it only warns of enters at that ETag, the rest
   * stays. A warning of what is quarantined at the ETag already changes nothing; any other starts without attempts or
   * authorization, with its repair due at once.
   */
  ghost predicate QuarantineFollows(p: Page, before: Quarantine, after: Quarantine, now: int)
  {
    && (forall i: nat | LastWarning(p, i) && OnlyWarning(p, i) && !NamesObject(p, p.warnings[i].objectId) ::
          var o := p.warnings[i].objectId;
          o in after && after[o] == if ActiveObject(before, o) && before[o].etag == p.warnings[i].etag then before[o]
                                    else Quarantined(p.warnings[i].etag, now, 0, true, ""))
    && (forall o | NamesObject(p, o) :: !ActiveObject(after, o))
    && (forall i: nat | LastWarning(p, i) && !NamesObject(p, p.warnings[i].objectId) ::
          ActiveObject(after, p.warnings[i].objectId) && after[p.warnings[i].objectId].etag == p.warnings[i].etag)
    && (forall o | !NamesObject(p, o) && !Warns(p, o) :: (o in after <==> o in before) && (o in before ==> after[o] == before[o]))
  }

  /** The batch does to any cache what the page says. */
  ghost predicate Carries(b: Batch, p: Page, calendar: string)
  {
    forall c: Cache, g: nat, now: int :: CarriesTo(b, p, calendar, c, g, now)
  }

  ghost predicate CarriesTo(b: Batch, p: Page, calendar: string, c: Cache, g: nat, now: int)
  {
    var d := ApplyBatch(c, calendar, b, g, now);
    && RowsFollow(p, calendar, Live(c.rows), Live(d.rows)) && QuarantineFollows(p, c.quarantine, d.quarantine, now)
    && RowsFollow(p, calendar, View(c.rows, Some(g)), View(d.rows, Some(g)))
  }

  /** Put one after the other, the upserts leave for each event what came last. */
  lemma {:induction false} EntryLast(m: Mirror, calendar: string, ups: seq<CachedUpsert>, i: nat)
    requires i < |ups| && forall k | i < k < |ups| :: ups[k].event.id != ups[i].event.id
    ensures var r := PutEntries(m, calendar, ups);
            ups[i].event.id in r && r[ups[i].event.id] == Entry(ups[i].Object(), Owned(calendar, ups[i].event).Plain())
  {
    var n := |ups| - 1;
    if i < n {
      assert ups[n].event.id != ups[i].event.id;
      EntryLast(m, calendar, ups[..n], i);
    }
  }

  lemma {:induction false} EntryFrom(m: Mirror, calendar: string, ups: seq<CachedUpsert>, id: string)
    requires id in PutEntries(m, calendar, ups)
    ensures var r := PutEntries(m, calendar, ups);
            (id in m && r[id] == m[id] && forall i | 0 <= i < |ups| :: ups[i].event.id != id)
            || exists i | 0 <= i < |ups| :: ups[i].event.id == id && r[id].objectId == ups[i].Object()
  {
    if ups != [] {
      var n := |ups| - 1;
      if ups[n].event.id != id {
        EntryFrom(m, calendar, ups[..n], id);
        if i :| 0 <= i < n && ups[..n][i].event.id == id && PutEntries(m, calendar, ups[..n])[id].objectId == ups[..n][i].Object() {
          assert ups[i].event.id == id;
        }
      }
    }
  }

  lemma {:induction false} EntryOutside(m: Mirror, calendar: string, ups: seq<CachedUpsert>, id: string)
    requires id in m && forall i | 0 <= i < |ups| :: ups[i].event.id != id
    ensures id in PutEntries(m, calendar, ups) && PutEntries(m, calendar, ups)[id] == m[id]
  {
    if ups != [] {
      EntryOutside(m, calendar, ups[..|ups| - 1], id);
    }
  }

  lemma {:induction false} UpsertedQuarantine(c: Cache, calendar: string, ups: seq<CachedUpsert>, g: nat, o: string)
    ensures var q, r := c.quarantine, Upserted(c, calendar, ups, g).quarantine;
            if exists i | 0 <= i < |ups| :: ups[i].Object() == o then !ActiveObject(r, o) else (o in r <==> o in q) && (o in q ==> r[o] == q[o])
  {
    if ups != [] {
      var n := |ups| - 1;
      UpsertedQuarantine(c, calendar, ups[..n], g, o);
      assert forall i | 0 <= i < n :: ups[..n][i] == ups[i];
    }
  }

  lemma {:induction false} DeletedQuarantine(c: Cache, ids: seq<string>, g: nat, o: string)
    ensures var q, r := c.quarantine, Deleted(c, ids, g).quarantine;
            if o in ids then !ActiveObject(r, o)
            else (o in r <==> o in q) && (o in q ==> r[o] == q[o])
    ensures !ActiveObject(c.quarantine, o) ==> !ActiveObject(Deleted(c, ids, g).quarantine, o)
  {
    if ids != [] {
      DeletedQuarantine(c, ids[..|ids| - 1], g, o);
    }
  }

  lemma {:induction false} ObjectsQuarantine(c: Cache, objects: seq<string>, g: nat, o: string)
    ensures var q, r := c.quarantine, ObjectsDeleted(c, objects, g).quarantine;
            if o in objects then !ActiveObject(r, o)
            else (o in r <==> o in q) && (o in q ==> r[o] == q[o])
    ensures !ActiveObject(c.quarantine, o) ==> !ActiveObject(ObjectsDeleted(c, objects, g).quarantine, o)
  {
    if objects != [] {
      ObjectsQuarantine(c, objects[..|objects| - 1], g, o);
    }
  }

  lemma {:induction false} WarnedLast(q: Quarantine, ws: seq<Warning>, now: int, i: nat)
    requires i < |ws| && forall k | i < k < |ws| :: ws[k].objectId != ws[i].objectId
    ensures ActiveObject(Warned(q, ws, now), ws[i].objectId) && Warned(q, ws, now)[ws[i].objectId].etag == ws[i].etag
  {
    var n := |ws| - 1;
    if i < n {
      assert ws[n].objectId != ws[i].objectId;
      WarnedLast(q, ws[..n], now, i);
    }
  }

  lemma {:induction false} NotWarned(q: Quarantine, ws: seq<Warning>, now: int, o: string)
    requires forall i | 0 <= i < |ws| :: ws[i].objectId != o
    ensures var r := Warned(q, ws, now); (o in r <==> o in q) && (o in q ==> r[o] == q[o])
  {
    if ws != [] {
      NotWarned(q, ws[..|ws| - 1], now, o);
    }
  }

  /** The batch of a page, whatever the flags, carries the page. */
  lemma PageCarried(p: Page, calendar: string, full: bool, degraded: bool, next: int)
    ensures Carries(ToBatch(p, calendar, full, degraded, next), p, calendar)
  {
    var b := ToBatch(p, calendar, full, degraded, next);
    hide ToBatch, ApplyBatch, RowsFollow, QuarantineFollows, View;
    forall c: Cache, g: nat, now: int ensures CarriesTo(b, p, calendar, c, g, now) {
      PageRows(p, calendar, full, degraded, next, c, g, now, None);
      PageRows(p, calendar, full, degraded, next, c, g, now, Some(g));
      PageQuarantine(p, calendar, full, degraded, next, c, g, now);
    }
  }

  lemma PageRows(p: Page, calendar: string, full: bool, degraded: bool, next: int, c: Cache, g: nat, now: int, view: Option<nat>)
    requires Watches(view, g)
    ensures RowsFollow(p, calendar, View(c.rows, view),
                       View(ApplyBatch(c, calendar, ToBatch(p, calendar, full, degraded, next), g, now).rows, view))
  {
    var b := ToBatch(p, calendar, full, degraded, next);
    BatchMirrors(c, calendar, b, g, now, view);
    hide ApplyBatch, View, RowsFollow;
    MirrorFollows(p, calendar, b, View(c.rows, view));
  }

  lemma MirrorFollows(p: Page, calendar: string, b: Batch, m: Mirror)
    requires Lists(b, p, calendar)
    ensures RowsFollow(p, calendar, m, MirrorBatch(m, calendar, b))
  {
    var after := MirrorBatch(m, calendar, b);
    assert forall i | 0 <= i < |b.upserts| :: b.upserts[i].Object() == ObjectOf(p.upserts[i]) && b.upserts[i].event.id == p.upserts[i].event.id;
    hide MirrorBatch;
    forall id | id in after
      ensures after[id].objectId !in p.deletedObjects && id !in p.deletedIds
      ensures after[id].objectId in p.replacedObjects ==>
                exists i | 0 <= i < |p.upserts| :: p.upserts[i].event.id == id && ObjectOf(p.upserts[i]) == after[id].objectId
      ensures !NamesEvent(p, id) ==> id in m && after[id] == m[id]
    {
      FoundAfter(p, calendar, b, m, id);
    }
    forall i: nat | LastUpsert(p, i) && p.upserts[i].event.id !in p.deletedIds && ObjectOf(p.upserts[i]) !in p.deletedObjects
      ensures p.upserts[i].event.id in after
      ensures after[p.upserts[i].event.id] == Entry(ObjectOf(p.upserts[i]), p.upserts[i].event.(calendarId := calendar).Plain())
    {
      UpsertFound(p, calendar, b, m, i);
    }
    forall id | id in m && !NamesEvent(p, id) && m[id].objectId !in p.deletedObjects && m[id].objectId !in p.replacedObjects
      ensures id in after && after[id] == m[id]
    {
      UnnamedStays(p, calendar, b, m, id);
    }
  }

  /** The batch's lists are the page's. */
  predicate Lists(b: Batch, p: Page, calendar: string)
  {
    && b.upserts == OwnUpserts(p, calendar) && b.deletedIds == p.deletedIds
    && b.deletedObjects == p.deletedObjects && b.replacedObjects == p.replacedObjects
  }

  lemma FoundAfter(p: Page, calendar: string, b: Batch, m: Mirror, id: string)
    requires Lists(b, p, calendar) && id in MirrorBatch(m, calendar, b)
    ensures var e := MirrorBatch(m, calendar, b)[id];
            && e.objectId !in p.deletedObjects && id !in p.deletedIds
            && (e.objectId in p.replacedObjects ==> exists i | 0 <= i < |p.upserts| :: p.upserts[i].event.id == id && ObjectOf(p.upserts[i]) == e.objectId)
            && (!NamesEvent(p, id) ==> id in m && e == m[id])
  {
    var kept := Retained(m, b.replacedObjects, b.upserts);
    EntryFrom(kept, calendar, b.upserts, id);
    hide PutEntries;
    var e := MirrorBatch(m, calendar, b)[id];
    if e.objectId in p.replacedObjects {
      if id in kept && kept[id] == e {
        assert id in MembersOf(b.upserts, e.objectId);
        var i :| 0 <= i < |b.upserts| && b.upserts[i].Object() == e.objectId && b.upserts[i].event.id == id;
        assert p.upserts[i].event.id == id && ObjectOf(p.upserts[i]) == e.objectId;
      } else {
        var i :| 0 <= i < |b.upserts| && b.upserts[i].event.id == id && e.objectId == b.upserts[i].Object();
        assert p.upserts[i].event.id == id && ObjectOf(p.upserts[i]) == e.objectId;
      }
    }
  }

  lemma UpsertFound(p: Page, calendar: string, b: Batch, m: Mirror, i: nat)
    requires Lists(b, p, calendar) && LastUpsert(p, i)
    requires p.upserts[i].event.id !in p.deletedIds && ObjectOf(p.upserts[i]) !in p.deletedObjects
    ensures var after, u := MirrorBatch(m, calendar, b), p.upserts[i];
            u.event.id in after && after[u.event.id] == Entry(ObjectOf(u), u.event.(calendarId := calendar).Plain())
  {
    hide PutEntries, Retained;
    EntryLast(Retained(m, b.replacedObjects, b.upserts), calendar, b.upserts, i);
  }

  lemma UnnamedStays(p: Page, calendar: string, b: Batch, m: Mirror, id: string)
    requires Lists(b, p, calendar) && id in m && !NamesEvent(p, id)
    requires m[id].objectId !in p.deletedObjects && m[id].objectId !in p.replacedObjects
    ensures id in MirrorBatch(m, calendar, b) && MirrorBatch(m, calendar, b)[id] == m[id]
  {
    assert forall i | 0 <= i < |b.upserts| :: b.upserts[i].event.id == p.upserts[i].event.id;
    EntryOutside(Retained(m, b.replacedObjects, b.upserts), calendar, b.upserts, id);
    hide PutEntries;
  }

  lemma PageQuarantine(p: Page, calendar: string, full: bool, degraded: bool, next: int, c: Cache, g: nat, now: int)
    ensures QuarantineFollows(p, c.quarantine,
                              ApplyBatch(c, calendar, ToBatch(p, calendar, full, degraded, next), g, now).quarantine, now)
  {
    var b := ToBatch(p, calendar, full, degraded, next);
    var after := ApplyBatch(c, calendar, b, g, now).quarantine;
    hide ApplyBatch, ToBatch;
    forall o
      ensures NamesObject(p, o) ==> !ActiveObject(after, o)
      ensures !NamesObject(p, o) ==> forall i: nat | LastWarning(p, i) && p.warnings[i].objectId == o :: ActiveObject(after, o) && after[o].etag == p.warnings[i].etag
      ensures !NamesObject(p, o) && !Warns(p, o) ==> (o in after <==> o in c.quarantine) && (o in c.quarantine ==> after[o] == c.quarantine[o])
    {
      ObjectAfter(p, calendar, full, degraded, next, c, g, now, o);
    }
    forall i: nat | LastWarning(p, i) && OnlyWarning(p, i) && !NamesObject(p, p.warnings[i].objectId)
      ensures var o := p.warnings[i].objectId;
              o in after && after[o] == if ActiveObject(c.quarantine, o) && c.quarantine[o].etag == p.warnings[i].etag then c.quarantine[o]
                                        else Quarantined(p.warnings[i].etag, now, 0, true, "")
    {
      WarnedOnce(p, calendar, full, degraded, next, c, g, now, i);
    }
  }

  /** A single warning of an object acts on what was there before the page. */
  lemma WarnedOnce(p: Page, calendar: string, full: bool, degraded: bool, next: int, c: Cache, g: nat, now: int, i: nat)
    requires LastWarning(p, i) && OnlyWarning(p, i) && !NamesObject(p, p.warnings[i].objectId)
    ensures var o, after := p.warnings[i].objectId, ApplyBatch(c, calendar, ToBatch(p, calendar, full, degraded, next), g, now).quarantine;
            o in after && after[o] == if ActiveObject(c.quarantine, o) && c.quarantine[o].etag == p.warnings[i].etag then c.quarantine[o]
                                      else Quarantined(p.warnings[i].etag, now, 0, true, "")
  {
    var b, o := ToBatch(p, calendar, full, degraded, next), p.warnings[i].objectId;
    var start := Cache(Replaced(c.rows, b.replacedObjects, b.upserts, g), Warned(c.quarantine, b.warnings, now));
    var up := Upserted(start, calendar, b.upserts, g);
    var del := Deleted(up, b.deletedIds, g);
    OneWarning(c.quarantine, b.warnings, now, i);
    UpsertedQuarantine(start, calendar, b.upserts, g, o);
    DeletedQuarantine(up, b.deletedIds, g, o);
    ObjectsQuarantine(del, b.deletedObjects, g, o);
    hide Replaced, Warned, Upserted, Deleted, ObjectsDeleted;
    forall k | 0 <= k < |p.upserts| ensures b.upserts[k].Object() == ObjectOf(p.upserts[k]) {
    }
  }

  lemma {:induction false} OneWarning(q: Quarantine, ws: seq<Warning>, now: int, i: nat)
    requires i < |ws| && forall k | 0 <= k < |ws| && k != i :: ws[k].objectId != ws[i].objectId
    ensures var o, r := ws[i].objectId, Warned(q, ws, now);
            o in r && r[o] == if ActiveObject(q, o) && q[o].etag == ws[i].etag then q[o] else Quarantined(ws[i].etag, now, 0, true, "")
  {
    var n := |ws| - 1;
    if i < n {
      assert ws[n].objectId != ws[i].objectId;
      OneWarning(q, ws[..n], now, i);
    } else {
      NotWarned(q, ws[..n], now, ws[n].objectId);
    }
  }

  lemma ObjectAfter(p: Page, calendar: string, full: bool, degraded: bool, next: int, c: Cache, g: nat, now: int, o: string)
    ensures var after := ApplyBatch(c, calendar, ToBatch(p, calendar, full, degraded, next), g, now).quarantine;
            && (NamesObject(p, o) ==> !ActiveObject(after, o))
            && (!NamesObject(p, o) ==> forall i: nat | LastWarning(p, i) && p.warnings[i].objectId == o :: ActiveObject(after, o) && after[o].etag == p.warnings[i].etag)
            && (!NamesObject(p, o) && !Warns(p, o) ==> (o in after <==> o in c.quarantine) && (o in c.quarantine ==> after[o] == c.quarantine[o]))
  {
    var b := ToBatch(p, calendar, full, degraded, next);
    var start := Cache(Replaced(c.rows, b.replacedObjects, b.upserts, g), Warned(c.quarantine, b.warnings, now));
    var up := Upserted(start, calendar, b.upserts, g);
    var del := Deleted(up, b.deletedIds, g);
    forall i: nat | LastWarning(p, i) && p.warnings[i].objectId == o ensures ActiveObject(start.quarantine, o) && start.quarantine[o].etag == p.warnings[i].etag {
      WarnedLast(c.quarantine, b.warnings, now, i);
    }
    if !Warns(p, o) {
      NotWarned(c.quarantine, b.warnings, now, o);
    }
    UpsertedQuarantine(start, calendar, b.upserts, g, o);
    DeletedQuarantine(up, b.deletedIds, g, o);
    ObjectsQuarantine(del, b.deletedObjects, g, o);
    hide Replaced, Warned, Upserted, Deleted, ObjectsDeleted;
    assert (exists i | 0 <= i < |b.upserts| :: b.upserts[i].Object() == o) <==> exists i | 0 <= i < |p.upserts| :: ObjectOf(p.upserts[i]) == o by {
      forall i | 0 <= i < |p.upserts| ensures b.upserts[i].Object() == ObjectOf(p.upserts[i]) {
      }
    }
  }
}
