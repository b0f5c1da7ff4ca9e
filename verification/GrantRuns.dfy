/** Operator grants for repairs that mutate the provider: each is spent at most once. */
module GrantRuns {
  import opened Base
  import opened Events
  import opened PageChain
  import opened EventCache
  import opened SyncLease
  import opened Calendars
  import opened CalendarRuns
  import opened Publication
  import opened MirrorRuns

  /** A row keeps its authorization only together with its version, and never becomes active with one. */
  predicate Keeps(x: Quarantined, y: Quarantined)
  {
    x.authorized == y.authorized && x.etag == y.etag && (y.active ==> x.active)
  }

  /** No authorization appears out of nothing. */
  predicate NoNewGrant(q: Quarantine, r: Quarantine)
  {
    forall o | o in r :: r[o].authorized == "" || (o in q && Keeps(q[o], r[o]))
  }

  lemma NoNewGrantTransitive(q: Quarantine, r: Quarantine, s: Quarantine)
    requires NoNewGrant(q, r) && NoNewGrant(r, s)
    ensures NoNewGrant(q, s)
  {
  }

  lemma {:induction false} WarnedGrants(q: Quarantine, warnings: seq<Warning>, now: int)
    ensures NoNewGrant(q, Warned(q, warnings, now))
  {
    if warnings != [] {
      WarnedGrants(q, warnings[..|warnings| - 1], now);
    }
  }

  lemma {:induction false} UpsertedGrants(c: Cache, calendar: string, upserts: seq<CachedUpsert>, g: nat)
    ensures NoNewGrant(c.quarantine, Upserted(c, calendar, upserts, g).quarantine)
  {
    if upserts != [] {
      UpsertedGrants(c, calendar, upserts[..|upserts| - 1], g);
    }
  }

  lemma {:induction false} DeletedGrants(c: Cache, ids: seq<string>, g: nat)
    ensures NoNewGrant(c.quarantine, Deleted(c, ids, g).quarantine)
  {
    if ids != [] {
      DeletedGrants(c, ids[..|ids| - 1], g);
    }
  }

  lemma {:induction false} ObjectsDeletedGrants(c: Cache, objects: seq<string>, g: nat)
    ensures NoNewGrant(c.quarantine, ObjectsDeleted(c, objects, g).quarantine)
  {
    if objects != [] {
      ObjectsDeletedGrants(c, objects[..|objects| - 1], g);
    }
  }

  lemma BatchGrants(c: Cache, calendar: string, b: Batch, g: nat, now: int)
    ensures NoNewGrant(c.quarantine, ApplyBatch(c, calendar, b, g, now).quarantine)
  {
    hide Replaced, Upserted, Deleted, ObjectsDeleted, Warned, NoNewGrant;
    var start := Cache(Replaced(c.rows, b.replacedObjects, b.upserts, g), Warned(c.quarantine, b.warnings, now));
    var up := Upserted(start, calendar, b.upserts, g);
    var del := Deleted(up, b.deletedIds, g);
    WarnedGrants(c.quarantine, b.warnings, now);
    UpsertedGrants(start, calendar, b.upserts, g);
    DeletedGrants(up, b.deletedIds, g);
    ObjectsDeletedGrants(del, b.deletedObjects, g);
    NoNewGrantTransitive(c.quarantine, start.quarantine, up.quarantine);
    NoNewGrantTransitive(c.quarantine, up.quarantine, del.quarantine);
    NoNewGrantTransitive(c.quarantine, del.quarantine, ObjectsDeleted(del, b.deletedObjects, g).quarantine);
  }

  lemma {:induction false} ReplayGrants(c: Cache, calendar: string, pages: seq<Page>, g: nat, now: int)
    ensures NoNewGrant(c.quarantine, Replay(c, calendar, pages, g, now).quarantine)
  {
    hide ApplyBatch, PageBatch, NoNewGrant;
    if pages == [] {
      SameGrants(c.quarantine);
    } else {
      var n := |pages| - 1;
      var before := Replay(c, calendar, pages[..n], g, now);
      ReplayGrants(c, calendar, pages[..n], g, now);
      BatchGrants(before, calendar, PageBatch(pages[n]), g, now);
      NoNewGrantTransitive(c.quarantine, before.quarantine, ApplyBatch(before, calendar, PageBatch(pages[n]), g, now).quarantine);
    }
  }

  lemma SameGrants(q: Quarantine)
    ensures NoNewGrant(q, q)
  {
  }

  lemma RepairedGrants(c: Cache, calendar: string, r: RepairBatch, g: nat, now: int)
    requires ValidRepair(r)
    ensures NoNewGrant(c.quarantine, RepairedCache(c, calendar, r, g, now).quarantine)
  {
    hide ApplyBatch, ObjectsDeleted, RepairAsBatch;
    BatchGrants(c, calendar, RepairAsBatch(calendar, r), g, now);
    ObjectsDeletedGrants(c, [r.objectId], g);
  }

  // --- one step ------------------------------------------------------------------------

  lemma StepGrants(zones: Zones, c: Calendar, a: Action, e: Calendar)
    requires Step(zones, c, a, e) && !a.GrantRepair?
    ensures NoNewGrant(c.cache.quarantine, e.cache.quarantine)
  {
    hide NoNewGrant;
    SameGrants(c.cache.quarantine);
    if a.FinishPages? {
      if e != c {
        FinishCommits(zones, c, a, e);
        hide Step;
        FinishGrants(zones, c, a, e);
      }
    } else if a.StagePage? {
      if e != c {
        StagedCache(zones, c, a, e);
        hide Step;
        BatchGrants(c.cache, c.id, PageBatch(a.delivery.page), a.claim.generation, a.now);
      }
    } else {
      hide Step;
      OtherGrants(zones, c, a, e);
    }
  }

  lemma FinishGrants(zones: Zones, c: Calendar, a: Action, e: Calendar)
    requires a.FinishPages? && FinalPage(zones, c, a.claim, a.attemptId, a.delivery, a.nextSync, a.clocks) == Ok(e)
    ensures NoNewGrant(c.cache.quarantine, e.cache.quarantine)
  {
    Finalized(zones, c, a.claim, a.attemptId, a.delivery, a.nextSync, a.clocks);
    hide FinalPage, Append, Archived, Prepare, Replay, Replayable, AnyActive, Finish, Swept, NoNewGrant;
    var t := Mid(c, a).archive.attempts[a.claim.generation];
    var p := Prepare(zones, Mid(c, a), a.claim, t).value;
    ReplayGrants(c.cache, c.id, p.pages, a.claim.generation, a.clocks.applied);
  }

  lemma OtherGrants(zones: Zones, c: Calendar, a: Action, e: Calendar)
    requires Step(zones, c, a, e) && !a.GrantRepair? && !a.FinishPages? && !a.StagePage?
    ensures NoNewGrant(c.cache.quarantine, e.cache.quarantine)
  {
    hide ApplyBatch, RepairedCache, ValidBatch, ValidRepair, Swept, Finish, StartAttempt, Append, StageSnapshot, Publish, Discard, Refer,
         Begin, End, SyncStep, Ensure, AnyActive;
    if a.SyncPage? {
      BatchGrants(c.cache, c.id, a.batch, a.claim.generation, a.now);
    } else if a.RepairObject? && ValidRepair(a.repair) {
      RepairedGrants(c.cache, c.id, a.repair, a.claim.generation, a.now);
    } else if !a.RepairObject? {
      NoNewGrantFrom(zones, c, a, e);
    }
  }

  lemma NoNewGrantFrom(zones: Zones, c: Calendar, a: Action, e: Calendar)
    requires Step(zones, c, a, e)
    requires !a.GrantRepair? && !a.FinishPages? && !a.StagePage? && !a.SyncPage? && !a.RepairObject?
    ensures NoNewGrant(c.cache.quarantine, e.cache.quarantine)
  {
    hide StartAttempt, Append, StageSnapshot, Publish, Discard, Refer, Begin, End, Ensure, ClaimDue, Renew, Reset, Fail, Park, Schedule,
         Defer, AnyActive, StillPublished, PutRow, Bury, Holds;
  }

  lemma GrantStep(zones: Zones, c: Calendar, a: Action, e: Calendar)
    requires Step(zones, c, a, e) && a.GrantRepair?
    ensures e.cache.quarantine == c.cache.quarantine
            || (ActiveObject(c.cache.quarantine, a.objectId) && c.cache.quarantine[a.objectId].etag == a.etag
                && e.cache.quarantine == c.cache.quarantine[a.objectId := e.cache.quarantine[a.objectId]]
                && e.cache.quarantine[a.objectId] ==
                   c.cache.quarantine[a.objectId].(authorized := a.etag, nextRepair := e.cache.quarantine[a.objectId].nextRepair))
  {
  }

  // --- over runs -------------------------------------------------------------------------

  /** On an active row a nonempty authorization is for the row's current version. */
  predicate Current(q: Quarantine)
  {
    forall o | o in q && q[o].active :: q[o].authorized == "" || q[o].authorized == q[o].etag
  }

  lemma {:induction false} AuthorizationsCurrent(zones: Zones, tr: seq<Calendar>, acts: seq<Action>, k: nat)
    requires Run(zones, tr, acts) && Current(tr[0].cache.quarantine) && k < |tr|
    ensures Current(tr[k].cache.quarantine)
  {
    hide Step;
    if k > 0 {
      AuthorizationsCurrent(zones, tr, acts, k - 1);
      if acts[k - 1].GrantRepair? {
        GrantStep(zones, tr[k - 1], acts[k - 1], tr[k]);
      } else {
        StepGrants(zones, tr[k - 1], acts[k - 1], tr[k]);
      }
    }
  }

  predicate Authorized(c: Calendar, objectId: string, etag: string)
  {
    objectId in c.cache.quarantine && c.cache.quarantine[objectId].authorized == etag
  }

  /** The operator granted this object version at step i. */
  predicate GrantedAt(acts: seq<Action>, i: nat, objectId: string, etag: string)
  {
    i < |acts| && acts[i].GrantRepair? && acts[i].objectId == objectId && acts[i].etag == etag
  }

  /** An authorization that was not there before was granted in between. */
  lemma {:induction false} GrantedBetween(zones: Zones, tr: seq<Calendar>, acts: seq<Action>, i: nat, j: nat, objectId: string, etag: string)
    requires Run(zones, tr, acts) && i <= j < |tr| && etag != ""
    requires !Authorized(tr[i], objectId, etag) && Authorized(tr[j], objectId, etag)
    ensures exists k :: i <= k < j && GrantedAt(acts, k, objectId, etag)
    decreases j
  {
    hide Step;
    if Authorized(tr[j - 1], objectId, etag) {
      GrantedBetween(zones, tr, acts, i, j - 1, objectId, etag);
    } else if acts[j - 1].GrantRepair? {
      GrantStep(zones, tr[j - 1], acts[j - 1], tr[j]);
      assert GrantedAt(acts, j - 1, objectId, etag);
    } else {
      StepGrants(zones, tr[j - 1], acts[j - 1], tr[j]);
    }
  }

  /** Step k allowed a repair of this object version to mutate the provider. */
  ghost predicate Spent(tr: seq<Calendar>, acts: seq<Action>, k: nat, objectId: string, etag: string)
  {
    && k < |acts| && k + 1 < |tr| && tr[k + 1] != tr[k]
    && acts[k].ConsumeGrant? && acts[k].objectId == objectId && acts[k].etag == etag
  }

  lemma SpendEffect(zones: Zones, c: Calendar, a: Action, e: Calendar)
    requires Step(zones, c, a, e) && a.ConsumeGrant? && e != c
    ensures a.etag != "" && Authorized(c, a.objectId, a.etag) && Authorized(e, a.objectId, "")
    ensures ActiveObject(c.cache.quarantine, a.objectId) && c.cache.quarantine[a.objectId].etag == a.etag
  {
    hide Holds;
  }

  /** Between two spendings on one object there is a new grant, for the version spent second. */
  lemma OneGrantPerMutation(zones: Zones, tr: seq<Calendar>, acts: seq<Action>, i: nat, j: nat, objectId: string, first: string, second: string)
    requires Run(zones, tr, acts) && i < j
    requires Spent(tr, acts, i, objectId, first) && Spent(tr, acts, j, objectId, second)
    ensures exists k :: i < k < j && GrantedAt(acts, k, objectId, second)
  {
    assert Step(zones, tr[i], acts[i], tr[i + 1]) && Step(zones, tr[j], acts[j], tr[j + 1]);
    hide Step;
    SpendEffect(zones, tr[i], acts[i], tr[i + 1]);
    SpendEffect(zones, tr[j], acts[j], tr[j + 1]);
    GrantedBetween(zones, tr, acts, i + 1, j, objectId, second);
  }

  /** Every spending is covered by an earlier grant unless the run began with one. */
  lemma FirstMutationGranted(zones: Zones, tr: seq<Calendar>, acts: seq<Action>, j: nat, objectId: string, etag: string)
    requires Run(zones, tr, acts) && Spent(tr, acts, j, objectId, etag)
    ensures Authorized(tr[0], objectId, etag) || exists k :: 0 <= k < j && GrantedAt(acts, k, objectId, etag)
  {
    assert Step(zones, tr[j], acts[j], tr[j + 1]);
    hide Step;
    SpendEffect(zones, tr[j], acts[j], tr[j + 1]);
    if !Authorized(tr[0], objectId, etag) {
      GrantedBetween(zones, tr, acts, 0, j, objectId, etag);
    }
  }
}
