/** What attempts are frozen against, and what opens the read gate (internal/storage/projection_snapshot_inspection.go). */
module ReadGate {
  import opened Base
  import opened Strings
  import opened Events
  import opened Materializer
  import opened Payload
  import opened PageChain
  import opened EventCache
  import opened SyncLease
  import opened Calendars
  import opened CalendarRuns
  import opened MirrorRuns
  import opened SweepRuns
  import opened SyncEnds

  /** The attempt was frozen against this row, source and guard. */
  predicate FrozenAgainst(c: Calendar, t: Attempt)
    requires c.sync.Some?
  {
    && t.timezone == c.source.timezone && t.lo == c.sync.value.lo && t.hi == c.sync.value.hi && t.baseCursor == c.sync.value.cursor
    && c.source.Usable() && c.source.provider == "google"
    && t.epoch == c.archive.epoch && t.baseRevision == c.archive.revision && c.archive.intents == {}
  }

  /** The snapshot continues exactly where this attempt's base ended. */
  predicate Continues(c: Calendar, t: Attempt)
  {
    && t.baseCursor != "" && t.baseRevision > 0 && t.baseRevision in c.archive.snapshots
    && var b := c.archive.snapshots[t.baseRevision];
       b.verified && b.cursor == t.baseCursor && b.timezone == t.timezone && b.lo == t.lo && b.hi == t.hi && b.epoch == t.epoch
  }

  /**
   * A started attempt carries its claim's owner and is frozen against the row, the source and the guard as they are;
   * a replacement starts from an empty cursor, an incremental attempt from a verified base that ends at the row's own.
   * Attempts of older generations are gone.
   */
  lemma StartFreezes(zones: Zones, c: Calendar, a: Action, e: Calendar)
    requires Step(zones, c, a, e) && a.StartPages? && e != c
    ensures c.sync.Some? && a.claim.generation in e.archive.attempts
    ensures var t := e.archive.attempts[a.claim.generation];
            && t.owner == a.claim.owner && FrozenAgainst(c, t) && LoadableZone(zones, t.timezone)
            && (t.mode.Replacement? ==> t.baseCursor == "") && (t.mode.Incremental? ==> Continues(c, t))
    ensures forall g | g in e.archive.attempts :: a.claim.generation <= g
  {
    hide LoadableZone, Holds, ValidMutationId;
  }

  /** A page is added only under the attempt's own claim, while row, source and guard are those it was frozen against. */
  lemma PagesStayFrozen(zones: Zones, c: Calendar, a: Action, e: Calendar)
    requires Step(zones, c, a, e) && (a.AppendPage? || a.StagePage? || a.FinishPages?) && e != c
    ensures c.sync.Some? && a.claim.generation in c.archive.attempts
    ensures var t := c.archive.attempts[a.claim.generation];
            t.id == a.attemptId && t.owner == a.claim.owner && FrozenAgainst(c, t)
  {
    if a.FinishPages? {
      FinishCommits(zones, c, a, e);
      hide Step;
      Finalized(zones, c, a.claim, a.attemptId, a.delivery, a.nextSync, a.clocks);
      hide FinalPage, Finalize;
      AppendFrozen(c, a.claim, a.attemptId, a.delivery, a.clocks.start);
    } else {
      AppendCommits(zones, c, a, e);
      hide Step;
      AppendFrozen(c, a.claim, a.attemptId, a.delivery, a.now);
    }
  }

  lemma AppendCommits(zones: Zones, c: Calendar, a: Action, e: Calendar)
    requires Step(zones, c, a, e) && (a.AppendPage? || a.StagePage?) && e != c
    ensures Append(c, a.claim, a.attemptId, a.delivery, a.now).Ok?
  {
    hide Append;
  }

  lemma AppendFrozen(c: Calendar, claim: Claim, attemptId: string, d: Delivery, now: int)
    requires Append(c, claim, attemptId, d, now).Ok?
    ensures c.sync.Some? && claim.generation in c.archive.attempts
    ensures var t := c.archive.attempts[claim.generation]; t.id == attemptId && t.owner == claim.owner && FrozenAgainst(c, t)
  {
    hide WellFormed, PageChain.Stage, Holds, ValidMutationId;
  }

  /** The published snapshot, beside the row the finalization left. */
  ghost predicate Agrees(c: Calendar, a: Action, e: Calendar)
    requires a.FinishPages?
  {
    && c.sync.Some? && e.sync.Some? && a.claim.generation in c.archive.attempts && e.archive.revision in e.archive.snapshots
    && var t, p, s := c.archive.attempts[a.claim.generation], e.archive.snapshots[e.archive.revision], e.sync.value;
       && p.verified && p.stageId == a.attemptId && p.base == c.archive.revision && e.archive.revision == p.base + 1
       && p.epoch == e.archive.epoch == c.archive.epoch && e.archive.intents == {}
       && p.cursor == s.cursor == a.delivery.page.nextCursor && p.cursor != "" && p.lo == s.lo && p.hi == s.hi
       && p.timezone == e.source.timezone && p.completed == a.clocks.completed && e.source == c.source && e.source.Usable()
       && s.status == Ready && s.lastSuccess == Some(a.clocks.applied) && !AnyActive(e.cache.quarantine)
       && (t.mode.Incremental? ==> MatchingBase(c.archive, p.base, c.sync.value.cursor, p.timezone, p.lo, p.hi, p.epoch))
       && (t.mode.Replacement? ==> c.sync.value.cursor == "")
  }

  /**
   * A committed finalization leaves row and snapshot in agreement: same cursor, window and zone, the epoch nothing
   * disturbed; an incremental snapshot continues a verified one that ended at the row's cursor in the same window,
   * zone and epoch.
   */
  lemma FinalizationAgrees(zones: Zones, c: Calendar, a: Action, e: Calendar)
    requires Step(zones, c, a, e) && a.FinishPages? && e != c
    ensures Agrees(c, a, e)
  {
    PagesStayFrozen(zones, c, a, e);
    FinalizationIsClean(zones, c, a, e);
    FinalPageLeaves(zones, c, a, e);
    FinishCommits(zones, c, a, e);
    hide Step;
    PublishedAgrees(zones, c, a, e);
    hide MatchingBase, AnyActive;
  }

  /** A finalization commits only while its claim passes, from the last page to the commit, and before the next poll it sets. */
  lemma FinalizationTimely(zones: Zones, c: Calendar, a: Action, e: Calendar)
    requires Step(zones, c, a, e) && a.FinishPages? && e != c
    ensures c.sync.Some? && Holds(c.sync.value, a.claim, a.clocks.start)
    ensures Holds(c.sync.value, a.claim, a.clocks.applied) && Holds(c.sync.value, a.claim, a.clocks.committed)
    ensures a.clocks.start < a.nextSync && a.clocks.committed < a.nextSync
  {
    FinishCommits(zones, c, a, e);
    hide Step;
    Appended(c, a.claim, a.attemptId, a.delivery, a.clocks.start);
    hide Append, Prepare, Archived, Replay, Swept, Replayable, AnyActive, Finish, Holds, WellFormed, RecordOf, PageChain.Stage;
  }

  lemma PublishedAgrees(zones: Zones, c: Calendar, a: Action, e: Calendar)
    requires a.FinishPages? && FinalPage(zones, c, a.claim, a.attemptId, a.delivery, a.nextSync, a.clocks) == Ok(e)
    requires c.sync.Some? && a.claim.generation in c.archive.attempts && FrozenAgainst(c, c.archive.attempts[a.claim.generation])
    ensures e.source == c.source && e.archive.revision in e.archive.snapshots
    ensures var t, p := c.archive.attempts[a.claim.generation], e.archive.snapshots[e.archive.revision];
            && p.verified && p.stageId == t.id && p.base == t.baseRevision && e.archive.revision == p.base + 1
            && p.epoch == t.epoch == e.archive.epoch && e.archive.intents == {}
            && p.cursor == a.delivery.page.nextCursor != "" && p.lo == t.lo && p.hi == t.hi && p.timezone == t.timezone
            && p.completed == a.clocks.completed
            && (t.mode.Incremental? ==> MatchingBase(c.archive, p.base, t.baseCursor, p.timezone, p.lo, p.hi, p.epoch))
            && (t.mode.Replacement? ==> t.baseCursor == "")
  {
    Finalized(zones, c, a.claim, a.attemptId, a.delivery, a.nextSync, a.clocks);
    Appended(c, a.claim, a.attemptId, a.delivery, a.clocks.start);
    var mid := c.(archive := Append(c, a.claim, a.attemptId, a.delivery, a.clocks.start).value);
    var t := mid.archive.attempts[a.claim.generation];
    var p := Prepare(zones, mid, a.claim, t).value;
    Prepared(zones, mid, a.claim, t);
    ArchivedFacts(mid.archive, a.claim.generation, t, a.clocks.completed, p.payload, p.observations);
    LastContinues(c.id, a.delivery);
    hide FinalPage, Append, Archived, Prepare, Replay, Swept, Replayable, AnyActive, Finish, WellFormed, RecordOf, PageChain.Stage, Materialize,
         ReadChain, EncodeSnapshotPayload, Carried, Size, FrozenAgainst, BaseEvents, FinalEffect;
    BaseMatches(mid, t);
    StoredFinal(mid.archive, e.archive, a.claim.generation, t, a.clocks.completed, p.payload, p.observations);
    assert mid.archive.snapshots == c.archive.snapshots;
    hide MatchingBase;
  }

  lemma BaseMatches(c: Calendar, t: Attempt)
    requires BaseEvents(c, t).Ok?
    ensures t.mode.Incremental? ==> MatchingBase(c.archive, t.baseRevision, t.baseCursor, t.timezone, t.lo, t.hi, t.epoch)
    ensures t.mode.Replacement? ==> t.baseCursor == ""
  {
    hide MatchingBase, DecodeSnapshotPayload;
  }

  lemma StoredFinal(a: Archive, b: Archive, g: nat, t: Attempt, completed: int, payload: Json, observations: seq<Observation>)
    requires FinalEffect(a, b, g, t, completed, payload, observations)
    ensures b.epoch == a.epoch && b.intents == a.intents && b.revision == t.baseRevision + 1 && b.revision in b.snapshots
    ensures var p := b.snapshots[b.revision];
            && p.verified && p.stageId == t.id && p.base == t.baseRevision && p.epoch == t.epoch && p.cursor == t.finalCursor
            && p.lo == t.lo && p.hi == t.hi && p.timezone == t.timezone && p.completed == completed
            && p.payload == payload && p.observations == observations
  {
  }

  lemma LastContinues(calendar: string, d: Delivery)
    ensures WellFormed(calendar, d) && d.page.complete ==> d.page.nextCursor != ""
  {
    hide EncodePagePayload, Size;
  }

  /** After a committed finalization the read gate is open, for exactly the requests the snapshot fits. */
  lemma FinalizationOpensGate(zones: Zones, c: Calendar, a: Action, e: Calendar, lo: int, hi: int, at: int, maxAge: int)
    requires Step(zones, c, a, e) && a.FinishPages? && e != c && a.clocks.completed <= a.clocks.applied
    ensures Inspects(zones, e, lo, hi, at, maxAge) <==> Fits(zones, e, lo, hi, at, maxAge)
  {
    FinalizationAgrees(zones, c, a, e);
    hide Step, MatchingBase, AnyActive, LoadableZone;
  }

  /** What a reader that passes the gate may rely on. */
  lemma ReaderMayRely(zones: Zones, c: Calendar, lo: int, hi: int, now: int, maxAge: int)
    requires Inspects(zones, c, lo, hi, now, maxAge)
    ensures c.sync.Some? && c.archive.revision in c.archive.snapshots && Fits(zones, c, lo, hi, now, maxAge)
    ensures var p, s := c.archive.snapshots[c.archive.revision], c.sync.value;
            && p.verified && p.timezone == c.source.timezone && c.source.Usable() && p.epoch == c.archive.epoch && c.archive.intents == {}
            && p.cursor != "" && p.cursor == s.cursor && p.lo == s.lo && p.hi == s.hi && s.lastSuccess.Some? && p.completed <= s.lastSuccess.value
            && Idle(s) && s.status == Ready && !AnyActive(c.cache.quarantine)
  {
    hide AnyActive, LoadableZone;
  }
}
