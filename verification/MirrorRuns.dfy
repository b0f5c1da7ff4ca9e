/**
 * The live cache against the published snapshot, and the sweep against the writes of its generation, over
 * every run.
 */
module MirrorRuns {
  import opened Base
  import opened Strings
  import opened Events
  import opened Materializer
  import opened MaterializerTheorems
  import opened Payload
  import opened PageChain
  import opened EventCache
  import opened SyncLease
  import opened Calendars
  import opened CalendarRuns
  import opened LeaseRuns
  import opened Publication
  import opened OccurrenceIdentity

  // --- one finalization ----------------------------------------------------------------

  ghost predicate AppendsLast(c: Calendar, a: Action)
  {
    a.FinishPages? && Append(c, a.claim, a.attemptId, a.delivery, a.clocks.start).Ok?
  }

  /** The rows between the append of the last page and the finalization. */
  function Mid(c: Calendar, a: Action): Calendar
    requires AppendsLast(c, a)
  {
    c.(archive := Append(c, a.claim, a.attemptId, a.delivery, a.clocks.start).value)
  }

  /** The step committed, publishing candidate p of attempt t. */
  ghost predicate Finalizes(zones: Zones, c: Calendar, a: Action, e: Calendar, t: Attempt, p: Candidate)
  {
    && AppendsLast(c, a)
    && FinalPage(zones, c, a.claim, a.attemptId, a.delivery, a.nextSync, a.clocks) == Ok(e)
    && c.sync.Some? && a.claim.generation in Mid(c, a).archive.attempts
    && t == Mid(c, a).archive.attempts[a.claim.generation]
    && Prepare(zones, Mid(c, a), a.claim, t) == Ok(p)
  }

  lemma Committed(zones: Zones, c: Calendar, a: Action, e: Calendar) returns (t: Attempt, p: Candidate)
    requires a.FinishPages? && FinalPage(zones, c, a.claim, a.attemptId, a.delivery, a.nextSync, a.clocks) == Ok(e)
    ensures Finalizes(zones, c, a, e, t, p)
  {
    Finalized(zones, c, a.claim, a.attemptId, a.delivery, a.nextSync, a.clocks);
    hide FinalPage, Append, Archived, Prepare, Replay, Swept, Replayable, AnyActive, Finish;
    t := Mid(c, a).archive.attempts[a.claim.generation];
    p := Prepare(zones, Mid(c, a), a.claim, t).value;
  }

  /** The rows the finalization builds on: all live ones, or for a replacement those of its own generation. */
  function Watched(t: Attempt, g: nat): Option<nat>
  {
    if t.mode.Replacement? then Some(g) else None
  }

  /** After the sweep of an unquarantined cache the live rows are those of the current generation. */
  lemma CleanSweep(c: Cache, g: nat)
    requires !AnyActive(c.quarantine)
    ensures Live(Swept(c, g)) == View(c.rows, Some(g))
  {
  }

  lemma FinalRows(zones: Zones, c: Calendar, a: Action, e: Calendar, t: Attempt, p: Candidate)
    requires Finalizes(zones, c, a, e, t, p)
    ensures Live(e.cache.rows) == FoldPages(View(c.cache.rows, Watched(t, a.claim.generation)), c.id, p.pages)
    ensures !AnyActive(e.cache.quarantine)
  {
    Finalized(zones, c, a.claim, a.attemptId, a.delivery, a.nextSync, a.clocks);
    Prepared(zones, Mid(c, a), a.claim, t);
    hide FinalPage, Append, Archived, Prepare, Replay, Swept, Replayable, View, FoldPages, Finish, AnyActive, Materialize, ReadChain,
         EncodeSnapshotPayload, BaseEvents, Carried, Size, Guarded;
    ReplayedRows(c, e.cache, t, p.pages, a.claim.generation, a.clocks.applied);
  }

  lemma ReplayedRows(c: Calendar, after: Cache, t: Attempt, pages: seq<Page>, g: nat, now: int)
    requires !AnyActive(c.cache.quarantine)
    requires var cache := Replay(c.cache, c.id, pages, g, now);
             after == cache.(rows := if t.mode.Replacement? then Swept(cache, g) else cache.rows)
    ensures Live(after.rows) == FoldPages(View(c.cache.rows, Watched(t, g)), c.id, pages)
    ensures !AnyActive(after.quarantine)
  {
    hide Replay, Swept, View, FoldPages;
    var cache := Replay(c.cache, c.id, pages, g, now);
    ReplayActivatesNone(c.cache, c.id, pages, g, now);
    assert forall o | o in cache.quarantine :: cache.quarantine[o].active ==> ActiveObject(cache.quarantine, o);
    CleanSweep(cache, g);
    ReplayFolds(c.cache, c.id, pages, g, now, Watched(t, g));
  }

  /** What a committed finalization published. */
  lemma PublishedEvents(zones: Zones, c: Calendar, a: Action, e: Calendar, t: Attempt, p: Candidate)
    requires Finalizes(zones, c, a, e, t, p)
    ensures BaseEvents(Mid(c, a), t).Ok?
    ensures p.result.events == Listing(After(ById(BaseEvents(Mid(c, a), t).value), p.pages))
    ensures Distinct(Changes(p.pages)) && Own(c.id, p.pages)
    ensures ById(p.result.events) == After(ById(BaseEvents(Mid(c, a), t).value), p.pages)
  {
    Prepared(zones, Mid(c, a), a.claim, t);
    hide FinalPage, Append, Prepare, BaseEvents, ReadChain, EncodeSnapshotPayload, Carried, AnyActive;
    var base := BaseEvents(Mid(c, a), t).value;
    var inp := MaterializeInput(zones, Mid(c, a), t, base, p.pages);
    MaterializeShape(inp);
    PagesOwned(inp);
    hide Materialize, Listing, After, ById;
    ByIdSource(base);
    ProjectionKeys(ById(base), p.pages);
    ListingContents(After(ById(base), p.pages));
  }

  lemma PagesOwned(inp: Input)
    requires Materialize(inp).Ok?
    ensures Own(inp.source, inp.pages)
  {
    hide ValidBase, ValidCandidates, Listing, After, ById, InWindow, Identity, Distinct;
    forall i, k | 0 <= i < |inp.pages| && 0 <= k < |inp.pages[i].upserts|
      ensures ValidUpsert(inp.source, inp.pages[i].upserts[k])
    {
      assert ValidPage(inp, i);
    }
  }

  /**
   * A finalization leaves the live cache equal to the snapshot it publishes exactly when the rows it built on
   * agreed with its base outside the IDs its pages name; replaying pages already applied does not matter.
   */
  lemma FinalizationExact(zones: Zones, c: Calendar, a: Action, e: Calendar, t: Attempt, p: Candidate)
    requires Finalizes(zones, c, a, e, t, p)
    ensures BaseEvents(Mid(c, a), t).Ok?
    ensures Live(e.cache.rows) == MirrorOf(ById(p.result.events))
       <==> AgreeOutside(View(c.cache.rows, Watched(t, a.claim.generation)),
                         MirrorOf(ById(BaseEvents(Mid(c, a), t).value)), Elements(Changes(p.pages)))
  {
    FinalRows(zones, c, a, e, t, p);
    PublishedEvents(zones, c, a, e, t, p);
    hide Finalizes, After, ById, View, FoldPages, MirrorOf, AgreeOutside, Distinct, Changes, Own, BaseEvents;
    FoldMatches(View(c.cache.rows, Watched(t, a.claim.generation)), c.id, ById(BaseEvents(Mid(c, a), t).value), p.pages);
  }

  // --- rows and generations --------------------------------------------------------------

  predicate Writes(a: Action)
  {
    a.SyncPage? || a.RepairObject? || a.PutEvent? || a.DeleteEvent?
  }

  lemma RowsUntouched(zones: Zones, c: Calendar, a: Action, e: Calendar)
    requires Step(zones, c, a, e) && !Writes(a) && !a.StagePage? && !a.FinishPages?
    ensures e.cache.rows == c.cache.rows && e.id == c.id
  {
    hide ApplyPage, Repair, StartAttempt, Append, ApplyStaged, FinalPage, StageSnapshot, Publish, Discard, Refer, Begin, End, Ensure,
         ClaimDue, Renew, Reset, Fail, Park, Schedule, Defer, Spends, Holds, AnyActive, StillPublished, ActiveObject;
  }

  lemma StagedCache(zones: Zones, c: Calendar, a: Action, e: Calendar)
    requires Step(zones, c, a, e) && a.StagePage? && e != c
    ensures e.cache == ApplyBatch(c.cache, c.id, PageBatch(a.delivery.page), a.claim.generation, a.now)
    ensures e.sync == c.sync && c.sync.Some? && Holds(c.sync.value, a.claim, a.now) && e.id == c.id
    ensures AppendEffect(c.id, c.archive, e.archive, a.claim.generation, a.delivery)
  {
    hide ApplyBatch, ValidBatch, Append, Holds, AppendEffect, PageBatch;
    Appended(c, a.claim, a.attemptId, a.delivery, a.now);
  }

  /** Every row of y was already in x or carries this generation. */
  predicate Stamped(x: Rows, y: Rows, g: nat)
  {
    forall id | id in y :: (id in x && y[id] == x[id]) || y[id].generation == g
  }

  lemma {:induction false} ReplacedStamped(rows: Rows, objects: seq<string>, upserts: seq<CachedUpsert>, g: nat)
    ensures Stamped(rows, Replaced(rows, objects, upserts, g), g)
  {
    hide MembersOf;
    if objects != [] {
      ReplacedStamped(rows, objects[..|objects| - 1], upserts, g);
    }
  }

  lemma {:induction false} UpsertedStamped(c: Cache, calendar: string, upserts: seq<CachedUpsert>, g: nat)
    ensures Stamped(c.rows, Upserted(c, calendar, upserts, g).rows, g)
  {
    hide Resolve, Owned;
    if upserts != [] {
      UpsertedStamped(c, calendar, upserts[..|upserts| - 1], g);
    }
  }

  lemma {:induction false} DeletedStamped(c: Cache, ids: seq<string>, g: nat)
    ensures Stamped(c.rows, Deleted(c, ids, g).rows, g)
  {
    hide Resolve;
    if ids != [] {
      DeletedStamped(c, ids[..|ids| - 1], g);
    }
  }

  lemma {:induction false} ObjectsDeletedStamped(c: Cache, objects: seq<string>, g: nat)
    ensures Stamped(c.rows, ObjectsDeleted(c, objects, g).rows, g)
  {
    hide Resolve;
    if objects != [] {
      ObjectsDeletedStamped(c, objects[..|objects| - 1], g);
    }
  }

  lemma BatchStamped(c: Cache, calendar: string, b: Batch, g: nat, now: int)
    ensures Stamped(c.rows, ApplyBatch(c, calendar, b, g, now).rows, g)
  {
    hide Replaced, Upserted, Deleted, ObjectsDeleted, Warned;
    var start := Cache(Replaced(c.rows, b.replacedObjects, b.upserts, g), Warned(c.quarantine, b.warnings, now));
    var up := Upserted(start, calendar, b.upserts, g);
    ReplacedStamped(c.rows, b.replacedObjects, b.upserts, g);
    UpsertedStamped(start, calendar, b.upserts, g);
    DeletedStamped(up, b.deletedIds, g);
    ObjectsDeletedStamped(Deleted(up, b.deletedIds, g), b.deletedObjects, g);
  }

  lemma {:induction false} ReplayStamped(c: Cache, calendar: string, pages: seq<Page>, g: nat, now: int)
    ensures Stamped(c.rows, Replay(c, calendar, pages, g, now).rows, g)
  {
    hide ApplyBatch, PageBatch;
    if pages != [] {
      var n := |pages| - 1;
      ReplayStamped(c, calendar, pages[..n], g, now);
      BatchStamped(Replay(c, calendar, pages[..n], g, now), calendar, PageBatch(pages[n]), g, now);
    }
  }

  /** No row is stamped with a generation the calendar has not reached. */
  predicate NotAhead(c: Calendar)
  {
    if c.sync.None? then c.cache.rows == map[]
    else forall id | id in c.cache.rows :: c.cache.rows[id].generation <= c.sync.value.generation
  }

  /** A committed write stamps its rows with the current generation. */
  lemma WritesStamped(zones: Zones, c: Calendar, a: Action, e: Calendar)
    requires Step(zones, c, a, e) && (Writes(a) || a.StagePage? || a.FinishPages?) && e != c
    ensures c.sync.Some? && e.id == c.id && Stamped(c.cache.rows, e.cache.rows, c.sync.value.generation)
    ensures e.sync.Some? && e.sync.value.generation == c.sync.value.generation
  {
    hide Stamped;
    if a.FinishPages? {
      FinishCommits(zones, c, a, e);
      FinishStamped(zones, c, a, e);
    } else if a.SyncPage? {
      SyncPageStamped(zones, c, a, e);
    } else if a.StagePage? {
      StagedCache(zones, c, a, e);
      hide Step;
      BatchStamped(c.cache, c.id, PageBatch(a.delivery.page), a.claim.generation, a.now);
    } else {
      OtherStamped(zones, c, a, e);
    }
  }

  lemma SyncPageStamped(zones: Zones, c: Calendar, a: Action, e: Calendar)
    requires Step(zones, c, a, e) && a.SyncPage? && e != c
    ensures c.sync.Some? && e.id == c.id && Stamped(c.cache.rows, e.cache.rows, c.sync.value.generation)
    ensures e.sync.Some? && e.sync.value.generation == c.sync.value.generation
  {
    hide ApplyBatch, ValidBatch, AnyActive;
    BatchStamped(c.cache, c.id, a.batch, a.claim.generation, a.now);
  }

  lemma OtherStamped(zones: Zones, c: Calendar, a: Action, e: Calendar)
    requires Step(zones, c, a, e) && (a.RepairObject? || a.PutEvent? || a.DeleteEvent?) && e != c
    ensures c.sync.Some? && e.id == c.id && Stamped(c.cache.rows, e.cache.rows, c.sync.value.generation)
    ensures e.sync == c.sync
  {
    hide ApplyBatch, ObjectsDeleted, ValidRepair, RepairAsBatch, Warn;
    if a.RepairObject? {
      BatchStamped(c.cache, c.id, RepairAsBatch(c.id, a.repair), a.claim.generation, a.now);
      ObjectsDeletedStamped(c.cache, [a.repair.objectId], a.claim.generation);
    }
  }

  lemma FinishCommits(zones: Zones, c: Calendar, a: Action, e: Calendar)
    requires Step(zones, c, a, e) && a.FinishPages? && e != c
    ensures FinalPage(zones, c, a.claim, a.attemptId, a.delivery, a.nextSync, a.clocks) == Ok(e)
  {
    hide FinalPage;
  }

  lemma FinishStamped(zones: Zones, c: Calendar, a: Action, e: Calendar)
    requires a.FinishPages? && FinalPage(zones, c, a.claim, a.attemptId, a.delivery, a.nextSync, a.clocks) == Ok(e)
    ensures c.sync.Some? && e.id == c.id && Stamped(c.cache.rows, e.cache.rows, c.sync.value.generation)
    ensures e.sync.Some? && e.sync.value.generation == c.sync.value.generation
  {
    Finalized(zones, c, a.claim, a.attemptId, a.delivery, a.nextSync, a.clocks);
    hide FinalPage, Append, Archived, Prepare, Replay, Replayable, AnyActive, Finish, Swept, Stamped;
    var t := Mid(c, a).archive.attempts[a.claim.generation];
    var p := Prepare(zones, Mid(c, a), a.claim, t).value;
    ReplayStamped(c.cache, c.id, p.pages, a.claim.generation, a.clocks.applied);
    var cache := Replay(c.cache, c.id, p.pages, a.claim.generation, a.clocks.applied);
    SweptStamped(c.cache.rows, cache, a.claim.generation);
    Ended(c.sync.value, a.claim, AnyActive(cache.quarantine), t.finalCursor, Some(a.nextSync), a.clocks.applied);
  }

  lemma SweptStamped(rows: Rows, cache: Cache, g: nat)
    requires Stamped(rows, cache.rows, g)
    ensures Stamped(rows, Swept(cache, g), g)
  {
  }

  lemma Ended(s: SyncState, claim: Claim, degraded: bool, cursor: string, next: Option<int>, now: int)
    requires Finish(s, claim, degraded, cursor, next, now).Ok?
    ensures Holds(s, claim, now) && s.generation == claim.generation
    ensures Finish(s, claim, degraded, cursor, next, now).value.generation == s.generation
    ensures Finish(s, claim, degraded, cursor, next, now).value.status == if degraded then Degraded else Ready
  {
  }

  lemma NotAheadStep(zones: Zones, c: Calendar, a: Action, e: Calendar)
    requires Step(zones, c, a, e) && NotAhead(c)
    ensures NotAhead(e)
  {
    hide Step;
    if Writes(a) || a.StagePage? || a.FinishPages? {
      if e != c {
        WritesStamped(zones, c, a, e);
      }
    } else {
      RowsUntouched(zones, c, a, e);
      RowLaws(zones, c, a, e);
    }
  }
}
