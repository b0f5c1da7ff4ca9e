/**
 * What the full-generation sweep leaves: exactly the live writes of its own generation, plus whatever belongs
 * to quarantined objects. Ready calendars have nothing quarantined.
 */
module SweepRuns {
  import opened Base
  import opened Strings
  import opened Events
  import opened Materializer
  import opened Payload
  import opened PageChain
  import opened EventCache
  import opened SyncLease
  import opened Calendars
  import opened CalendarRuns
  import opened LeaseRuns
  import opened Publication
  import opened MirrorRuns
  import opened PublicationRuns

  /** The pages a committed finalization replays. */
  ghost function Replayed(zones: Zones, c: Calendar, a: Action, e: Calendar): seq<Page>
  {
    if exists t, p :: Finalizes(zones, c, a, e, t, p) then
      var t, p :| Finalizes(zones, c, a, e, t, p); p.pages
    else []
  }

  /** A committed write as an update of a plain mirror. */
  ghost function Written(zones: Zones, c: Calendar, a: Action, e: Calendar, m: Mirror): Mirror
  {
    match a
    case SyncPage(_, batch, _, _) => MirrorBatch(m, c.id, batch)
    case RepairObject(_, repair, _) =>
      (match repair.outcome
       case ReplaceMembership => MirrorBatch(m, c.id, RepairAsBatch(c.id, repair))
       case Absent => WithoutObjects(m, [repair.objectId])
       case StillQuarantined => m)
    case PutEvent(event) => m[event.id := Entry(event.id, event.Plain())]
    case DeleteEvent(id) => m - {id}
    case StagePage(_, _, d, _) => MirrorBatch(m, c.id, PageBatch(d.page))
    case FinishPages(_, _, _, _, _) => FoldPages(m, c.id, Replayed(zones, c, a, e))
    case _ => m
  }

  /** The mirror of everything written in generation g during the first k steps. */
  ghost function WrittenIn(zones: Zones, tr: seq<Calendar>, acts: seq<Action>, k: nat, g: nat): Mirror
    requires |tr| == |acts| + 1 && k < |tr|
  {
    if k == 0 then map[]
    else
      var c, m := tr[k - 1], WrittenIn(zones, tr, acts, k - 1, g);
      if tr[k] == c || c.sync.None? || c.sync.value.generation != g then m
      else Written(zones, c, acts[k - 1], tr[k], m)
  }

  // --- one step -----------------------------------------------------------------------------

  lemma SweepKeepsOwn(c: Cache, g: nat)
    ensures View(Swept(c, g), Some(g)) == View(c.rows, Some(g))
  {
  }

  lemma PageWrites(zones: Zones, c: Calendar, a: Action, e: Calendar, g: nat)
    requires Step(zones, c, a, e) && a.SyncPage? && e != c && c.sync.Some? && c.sync.value.generation == g
    ensures View(e.cache.rows, Some(g)) == MirrorBatch(View(c.cache.rows, Some(g)), c.id, a.batch)
  {
    hide ApplyBatch, ValidBatch, AnyActive, View, Swept, MirrorBatch;
    BatchMirrors(c.cache, c.id, a.batch, g, a.now, Some(g));
    SweepKeepsOwn(ApplyBatch(c.cache, c.id, a.batch, g, a.now), g);
  }

  lemma RepairWrites(zones: Zones, c: Calendar, a: Action, e: Calendar, g: nat)
    requires Step(zones, c, a, e) && a.RepairObject? && e != c && c.sync.Some? && c.sync.value.generation == g
    ensures View(e.cache.rows, Some(g)) == Written(zones, c, a, e, View(c.cache.rows, Some(g)))
  {
    hide ApplyBatch, ValidRepair, RepairAsBatch, View, MirrorBatch, ObjectsDeleted, WithoutObjects, Warn;
    BatchMirrors(c.cache, c.id, RepairAsBatch(c.id, a.repair), g, a.now, Some(g));
    ObjectsDeletedView(c.cache, [a.repair.objectId], g, Some(g));
  }

  lemma ThroughWrites(zones: Zones, c: Calendar, a: Action, e: Calendar, g: nat)
    requires Step(zones, c, a, e) && (a.PutEvent? || a.DeleteEvent?) && e != c && c.sync.Some? && c.sync.value.generation == g
    ensures View(e.cache.rows, Some(g)) == Written(zones, c, a, e, View(c.cache.rows, Some(g)))
  {
  }

  lemma ReplayedIs(zones: Zones, c: Calendar, a: Action, e: Calendar, t: Attempt, p: Candidate)
    requires Finalizes(zones, c, a, e, t, p)
    ensures Replayed(zones, c, a, e) == p.pages
  {
    hide FinalPage, Append, Prepare;
  }

  lemma FinishWrites(zones: Zones, c: Calendar, a: Action, e: Calendar, g: nat)
    requires a.FinishPages? && FinalPage(zones, c, a.claim, a.attemptId, a.delivery, a.nextSync, a.clocks) == Ok(e)
    requires c.sync.Some? && c.sync.value.generation == g
    ensures View(e.cache.rows, Some(g)) == FoldPages(View(c.cache.rows, Some(g)), c.id, Replayed(zones, c, a, e))
  {
    var t, p := Committed(zones, c, a, e);
    ReplayedIs(zones, c, a, e, t, p);
    Finalized(zones, c, a.claim, a.attemptId, a.delivery, a.nextSync, a.clocks);
    FinishEnds(zones, c, a, e);
    hide FinalPage, Append, Archived, Prepare, Replay, Replayable, AnyActive, Finish, Swept, View, FoldPages, Replayed;
    ReplayFolds(c.cache, c.id, p.pages, g, a.clocks.applied, Some(g));
    SweepKeepsOwn(Replay(c.cache, c.id, p.pages, g, a.clocks.applied), g);
  }

  lemma StageWrites(zones: Zones, c: Calendar, a: Action, e: Calendar, g: nat)
    requires Step(zones, c, a, e) && a.StagePage? && e != c && c.sync.Some? && c.sync.value.generation == g
    ensures View(e.cache.rows, Some(g)) == MirrorBatch(View(c.cache.rows, Some(g)), c.id, PageBatch(a.delivery.page))
  {
    StagedCache(zones, c, a, e);
    hide Step, ApplyBatch, View, MirrorBatch, PageBatch, AppendEffect;
    BatchMirrors(c.cache, c.id, PageBatch(a.delivery.page), g, a.now, Some(g));
  }

  lemma StepWrites(zones: Zones, c: Calendar, a: Action, e: Calendar, g: nat)
    requires Step(zones, c, a, e) && e != c && c.sync.Some? && c.sync.value.generation == g
    ensures View(e.cache.rows, Some(g)) == Written(zones, c, a, e, View(c.cache.rows, Some(g)))
  {
    hide View, MirrorBatch, FoldPages, Replayed, WithoutObjects;
    if a.SyncPage? {
      PageWrites(zones, c, a, e, g);
    } else if a.RepairObject? {
      hide Step;
      RepairWrites(zones, c, a, e, g);
    } else if a.PutEvent? || a.DeleteEvent? {
      hide Step;
      ThroughWrites(zones, c, a, e, g);
    } else if a.StagePage? {
      StageWrites(zones, c, a, e, g);
    } else if a.FinishPages? {
      FinishCommits(zones, c, a, e);
      hide Step;
      FinishWrites(zones, c, a, e, g);
    } else {
      hide Step;
      RowsUntouched(zones, c, a, e);
    }
  }

  // --- over runs ----------------------------------------------------------------------------

  /** Until a later generation opens, the live rows of generation g are the mirror of its writes. */
  lemma {:induction false} GenerationMirrors(zones: Zones, tr: seq<Calendar>, acts: seq<Action>, k: nat, g: nat)
    requires Run(zones, tr, acts) && tr[0].cache.rows == map[] && k < |tr|
    requires tr[k].sync.Some? ==> tr[k].sync.value.generation <= g
    ensures View(tr[k].cache.rows, Some(g)) == WrittenIn(zones, tr, acts, k, g)
  {
    hide Step, Written;
    if k > 0 {
      var c, e := tr[k - 1], tr[k];
      RowLaws(zones, c, acts[k - 1], e);
      GenerationMirrors(zones, tr, acts, k - 1, g);
      if e != c {
        if c.sync.Some? && c.sync.value.generation == g {
          hide View;
          StepWrites(zones, c, acts[k - 1], e, g);
        } else {
          NotAheadRun(zones, tr, acts, k - 1);
          EarlyRows(zones, c, acts[k - 1], e, g);
        }
      }
    }
  }

  lemma EarlyRows(zones: Zones, c: Calendar, a: Action, e: Calendar, g: nat)
    requires Step(zones, c, a, e) && NotAhead(c) && e != c
    requires c.sync.None? || c.sync.value.generation < g
    ensures View(e.cache.rows, Some(g)) == View(c.cache.rows, Some(g)) == map[]
  {
    hide Step;
    if Writes(a) || a.StagePage? || a.FinishPages? {
      WritesStamped(zones, c, a, e);
    } else {
      RowsUntouched(zones, c, a, e);
    }
  }

  /** The entries whose object is not actively quarantined. */
  function Unquarantined(m: Mirror, q: Quarantine): Mirror
  {
    map id | id in m && !ActiveObject(q, m[id].objectId) :: m[id]
  }

  predicate ClosesReplacement(c: Calendar, a: Action)
  {
    || (a.SyncPage? && a.final && a.batch.fullSync)
    || (a.FinishPages? && a.claim.generation in c.archive.attempts && c.archive.attempts[a.claim.generation].mode.Replacement?)
  }

  lemma SweptLive(c: Cache, g: nat)
    ensures Unquarantined(Live(Swept(c, g)), c.quarantine) == Unquarantined(View(Swept(c, g), Some(g)), c.quarantine)
  {
  }

  lemma SweptPage(zones: Zones, c: Calendar, a: Action, e: Calendar)
    requires Step(zones, c, a, e) && e != c && a.SyncPage? && a.final && a.batch.fullSync
    ensures c.sync.Some? && c.sync.value.generation == a.claim.generation
    ensures e.sync.Some? && e.sync.value.generation == a.claim.generation
    ensures var cache := ApplyBatch(c.cache, c.id, a.batch, a.claim.generation, a.now);
            e.cache == cache.(rows := Swept(cache, a.claim.generation))
  {
    hide ApplyBatch, Swept, ValidBatch, AnyActive;
  }

  lemma SweptChain(zones: Zones, c: Calendar, a: Action, e: Calendar)
    requires a.FinishPages? && FinalPage(zones, c, a.claim, a.attemptId, a.delivery, a.nextSync, a.clocks) == Ok(e)
    requires a.claim.generation in c.archive.attempts && c.archive.attempts[a.claim.generation].mode.Replacement?
    ensures c.sync.Some? && c.sync.value.generation == a.claim.generation
    ensures e.sync.Some? && e.sync.value.generation == a.claim.generation
    ensures exists cache: Cache :: cache.quarantine == e.cache.quarantine && e.cache.rows == Swept(cache, a.claim.generation)
  {
    var t, p := Committed(zones, c, a, e);
    ReplayedIds(zones, c, a, e, t, p);
    Finalized(zones, c, a.claim, a.attemptId, a.delivery, a.nextSync, a.clocks);
    FinishEnds(zones, c, a, e);
    hide Append, Archived, Prepare, Replay, Replayable, AnyActive, Swept, Finalizes, Finish, Touched, AppendEffect;
    FinishStamped(zones, c, a, e);
    hide FinalPage;
    var cache := Replay(c.cache, c.id, p.pages, a.claim.generation, a.clocks.applied);
    assert cache.quarantine == e.cache.quarantine && e.cache.rows == Swept(cache, a.claim.generation);
  }

  lemma ClosedRows(zones: Zones, c: Calendar, a: Action, e: Calendar, g: nat)
    requires Step(zones, c, a, e) && e != c && ClosesReplacement(c, a) && g == ClaimOf(a).value.generation
    ensures e.sync.Some? && e.sync.value.generation == g
    ensures Unquarantined(Live(e.cache.rows), e.cache.quarantine) == Unquarantined(View(e.cache.rows, Some(g)), e.cache.quarantine)
  {
    hide Swept, View, ApplyBatch, Unquarantined;
    if a.SyncPage? {
      SweptPage(zones, c, a, e);
      hide Step;
      SweptLive(ApplyBatch(c.cache, c.id, a.batch, g, a.now), g);
    } else {
      FinishCommits(zones, c, a, e);
      hide Step;
      SweptChain(zones, c, a, e);
      hide FinalPage;
      var cache: Cache :| cache.quarantine == e.cache.quarantine && e.cache.rows == Swept(cache, g);
      SweptLive(cache, g);
    }
  }

  /**
   * After a final replacement page, the live rows of objects that are not actively quarantined are exactly the
   * live writes of the page's own generation.
   */
  lemma SweepExact(zones: Zones, tr: seq<Calendar>, acts: seq<Action>, n: nat, g: nat)
    requires Run(zones, tr, acts) && tr[0].cache.rows == map[] && n < |acts|
    requires tr[n + 1] != tr[n] && ClosesReplacement(tr[n], acts[n]) && g == ClaimOf(acts[n]).value.generation
    ensures var e := tr[n + 1];
            Unquarantined(Live(e.cache.rows), e.cache.quarantine)
            == Unquarantined(WrittenIn(zones, tr, acts, n + 1, g), e.cache.quarantine)
  {
    hide Unquarantined, View, WrittenIn;
    assert Step(zones, tr[n], acts[n], tr[n + 1]);
    hide Step;
    ClosedRows(zones, tr[n], acts[n], tr[n + 1], g);
    GenerationMirrors(zones, tr, acts, n + 1, g);
  }

  lemma {:induction false} ReplacedKeeps(rows: Rows, objects: seq<string>, upserts: seq<CachedUpsert>, g: nat)
    ensures rows.Keys <= Replaced(rows, objects, upserts, g).Keys
  {
    if objects != [] {
      ReplacedKeeps(rows, objects[..|objects| - 1], upserts, g);
    }
  }

  lemma {:induction false} UpsertedKeeps(c: Cache, calendar: string, upserts: seq<CachedUpsert>, g: nat)
    ensures c.rows.Keys <= Upserted(c, calendar, upserts, g).rows.Keys
  {
    if upserts != [] {
      UpsertedKeeps(c, calendar, upserts[..|upserts| - 1], g);
    }
  }

  lemma {:induction false} DeletedKeeps(c: Cache, ids: seq<string>, g: nat)
    ensures c.rows.Keys <= Deleted(c, ids, g).rows.Keys
  {
    if ids != [] {
      DeletedKeeps(c, ids[..|ids| - 1], g);
    }
  }

  lemma {:induction false} ObjectsDeletedKeeps(c: Cache, objects: seq<string>, g: nat)
    ensures c.rows.Keys <= ObjectsDeleted(c, objects, g).rows.Keys
  {
    if objects != [] {
      ObjectsDeletedKeeps(c, objects[..|objects| - 1], g);
    }
  }

  lemma BatchKeeps(c: Cache, calendar: string, b: Batch, g: nat, now: int)
    ensures c.rows.Keys <= ApplyBatch(c, calendar, b, g, now).rows.Keys
  {
    hide Replaced, Upserted, Deleted, ObjectsDeleted, Warned;
    var start := Cache(Replaced(c.rows, b.replacedObjects, b.upserts, g), Warned(c.quarantine, b.warnings, now));
    var up := Upserted(start, calendar, b.upserts, g);
    ReplacedKeeps(c.rows, b.replacedObjects, b.upserts, g);
    UpsertedKeeps(start, calendar, b.upserts, g);
    DeletedKeeps(up, b.deletedIds, g);
    ObjectsDeletedKeeps(Deleted(up, b.deletedIds, g), b.deletedObjects, g);
  }

  /** A finalization commits only where nothing is quarantined, and quarantines nothing. */
  lemma FinalizationIsClean(zones: Zones, c: Calendar, a: Action, e: Calendar)
    requires Step(zones, c, a, e) && e != c && a.FinishPages?
    ensures !AnyActive(c.cache.quarantine) && !AnyActive(e.cache.quarantine)
  {
    FinishCommits(zones, c, a, e);
    hide Step;
    var t, p := Committed(zones, c, a, e);
    FinalRows(zones, c, a, e, t, p);
  }

  /**
   * Rows of an object still actively quarantined survive the sweep unless the page itself rewrote them. By
   * FinalizationIsClean this speaks of the sweep of an ordinary final page; a finalization has nothing to protect.
   */
  lemma QuarantineProtects(zones: Zones, c: Calendar, a: Action, e: Calendar, id: string)
    requires Step(zones, c, a, e) && e != c && ClosesReplacement(c, a)
    requires id in c.cache.rows && ActiveObject(e.cache.quarantine, c.cache.rows[id].objectId)
    ensures id in e.cache.rows
    ensures e.cache.rows[id] == c.cache.rows[id] || e.cache.rows[id].generation == ClaimOf(a).value.generation
  {
    hide ApplyBatch, FinalPage;
    if a.SyncPage? {
      SweptPage(zones, c, a, e);
      hide Step;
      BatchStamped(c.cache, c.id, a.batch, a.claim.generation, a.now);
      BatchKeeps(c.cache, c.id, a.batch, a.claim.generation, a.now);
    } else {
      FinishCommits(zones, c, a, e);
      hide Step;
      var t, p := Committed(zones, c, a, e);
      FinalRows(zones, c, a, e, t, p);
      assert false;
    }
  }

  // --- ready means clean --------------------------------------------------------------------

  ghost predicate ReadyClean(c: Calendar)
  {
    c.sync.Some? && c.sync.value.status == Ready ==> !AnyActive(c.cache.quarantine)
  }

  lemma ReadyStep(zones: Zones, c: Calendar, a: Action, e: Calendar)
    requires Step(zones, c, a, e) && ReadyClean(c)
    ensures ReadyClean(e)
  {
    hide AnyActive;
    if a.FinishPages? {
      if e != c {
        FinishCommits(zones, c, a, e);
        hide Step;
        var t, p := Committed(zones, c, a, e);
        FinalRows(zones, c, a, e, t, p);
      }
    } else if a.StagePage? {
      if e != c {
        StagedCache(zones, c, a, e);
      }
    } else if a.GrantRepair? || a.ConsumeGrant? {
      GrantReady(zones, c, a, e);
    } else {
      OtherReady(zones, c, a, e);
    }
  }

  lemma GrantReady(zones: Zones, c: Calendar, a: Action, e: Calendar)
    requires Step(zones, c, a, e) && ReadyClean(c) && (a.GrantRepair? || a.ConsumeGrant?)
    ensures ReadyClean(e)
  {
    assert AnyActive(e.cache.quarantine) ==> AnyActive(c.cache.quarantine);
  }

  lemma OtherReady(zones: Zones, c: Calendar, a: Action, e: Calendar)
    requires Step(zones, c, a, e) && ReadyClean(c)
    requires !a.FinishPages? && !a.StagePage? && !a.GrantRepair? && !a.ConsumeGrant?
    ensures ReadyClean(e)
  {
    hide AnyActive, ApplyBatch, Swept, ValidBatch, StartAttempt, Append, StageSnapshot, Publish, Discard, Refer, Begin, End,
         RepairedCache, ValidRepair, StillPublished, SafeCode, PutRow, Bury, Claimable;
  }

  /** In every run a ready calendar has no active quarantine. */
  lemma {:induction false} ReadyIsClean(zones: Zones, tr: seq<Calendar>, acts: seq<Action>, k: nat)
    requires Run(zones, tr, acts) && ReadyClean(tr[0]) && k < |tr|
    ensures ReadyClean(tr[k])
  {
    hide Step, ReadyClean;
    if k > 0 {
      ReadyIsClean(zones, tr, acts, k - 1);
      ReadyStep(zones, tr[k - 1], acts[k - 1], tr[k]);
    }
  }
}
