/**
 * One calendar's tables as the storage layer changes them: rows updated in loops, every refused transaction
 * rolled back as a whole (internal/storage/event_cache.go, projection_finalizer.go).
 */
module CalendarStore {
  import opened Base
  import opened Strings
  import opened Events
  import opened Materializer
  import opened Payload
  import opened PageChain
  import opened EventCache
  import opened SyncLease
  import opened Calendars
  import opened SyncEnds
  import opened LocalWrites
  import opened Retention

  /** How a transaction left the tables: committed with its effect, or refused with nothing changed. */
  predicate Ran(before: Calendar, failure: Option<Error>, after: Calendar, spec: Result<Calendar>)
  {
    && (spec.Ok? ==> failure == None && after == spec.value)
    && (spec.Err? ==> failure == Some(spec.error) && after == before)
  }

  lemma Grown<T>(s: seq<T>, i: nat)
    requires i < |s|
    ensures s[..i + 1][..i] == s[..i] && |s[..i + 1]| == i + 1 && s[..i + 1][i] == s[i]
  {
  }

  class EventTables {
    const id: string
    var source: Source
    var sync: Option<SyncState>
    var rows: Rows
    var quarantine: Quarantine
    var archive: Archive

    function State(): Calendar
      reads this
    {
      Calendar(id, source, sync, Cache(rows, quarantine), archive)
    }

    method Rollback(saved: Calendar)
      requires saved.id == id
      modifies this
      ensures State() == saved
    {
      source, sync, rows, quarantine, archive := saved.source, saved.sync, saved.cache.rows, saved.cache.quarantine, saved.archive;
    }

    // --- the loops of one page ------------------------------------------------------------

    method TombstoneMissingMembers(objects: seq<string>, upserts: seq<CachedUpsert>, generation: nat)
      modifies this`rows
      ensures rows == Replaced(old(rows), objects, upserts, generation)
    {
      hide BuryMissing, MembersOf;
      for i := 0 to |objects|
        invariant rows == Replaced(old(rows), objects[..i], upserts, generation)
      {
        Grown(objects, i);
        rows := BuryMissing(rows, objects[i], MembersOf(upserts, objects[i]), generation);
      }
      assert objects[..|objects|] == objects;
    }

    method RecordWarnings(warnings: seq<Warning>, now: int)
      modifies this`quarantine
      ensures quarantine == Warned(old(quarantine), warnings, now)
    {
      hide Warn;
      for i := 0 to |warnings|
        invariant quarantine == Warned(old(quarantine), warnings[..i], now)
      {
        Grown(warnings, i);
        quarantine := Warn(quarantine, warnings[i].objectId, warnings[i].etag, now);
      }
      assert warnings[..|warnings|] == warnings;
    }

    method UpsertEach(upserts: seq<CachedUpsert>, generation: nat)
      modifies this`rows, this`quarantine
      ensures Cache(rows, quarantine) == Upserted(Cache(old(rows), old(quarantine)), id, upserts, generation)
    {
      hide PutRow, Resolve, Owned;
      for i := 0 to |upserts|
        invariant Cache(rows, quarantine) == Upserted(Cache(old(rows), old(quarantine)), id, upserts[..i], generation)
      {
        Grown(upserts, i);
        rows := PutRow(rows, upserts[i].Object(), Owned(id, upserts[i].event), generation);
        quarantine := Resolve(quarantine, upserts[i].Object());
      }
      assert upserts[..|upserts|] == upserts;
    }

    method DeleteEach(ids: seq<string>, generation: nat)
      modifies this`rows, this`quarantine
      ensures Cache(rows, quarantine) == Deleted(Cache(old(rows), old(quarantine)), ids, generation)
    {
      hide Bury, Resolve;
      for i := 0 to |ids|
        invariant Cache(rows, quarantine) == Deleted(Cache(old(rows), old(quarantine)), ids[..i], generation)
      {
        Grown(ids, i);
        rows := Bury(rows, ids[i], generation);
        quarantine := Resolve(quarantine, ids[i]);
      }
      assert ids[..|ids|] == ids;
    }

    method DeleteObjects(objects: seq<string>, generation: nat)
      modifies this`rows, this`quarantine
      ensures Cache(rows, quarantine) == ObjectsDeleted(Cache(old(rows), old(quarantine)), objects, generation)
    {
      hide BuryMissing, Resolve;
      for i := 0 to |objects|
        invariant Cache(rows, quarantine) == ObjectsDeleted(Cache(old(rows), old(quarantine)), objects[..i], generation)
      {
        Grown(objects, i);
        rows := BuryMissing(rows, objects[i], {}, generation);
        quarantine := Resolve(quarantine, objects[i]);
      }
      assert objects[..|objects|] == objects;
    }

    /** The row and quarantine writes of applyEventSyncPageTx. */
    method WriteBatch(b: Batch, generation: nat, now: int)
      modifies this`rows, this`quarantine
      ensures Cache(rows, quarantine) == ApplyBatch(Cache(old(rows), old(quarantine)), id, b, generation, now)
    {
      hide Replaced, Warned, Upserted, Deleted, ObjectsDeleted;
      TombstoneMissingMembers(b.replacedObjects, b.upserts, generation);
      RecordWarnings(b.warnings, now);
      UpsertEach(b.upserts, generation);
      DeleteEach(b.deletedIds, generation);
      DeleteObjects(b.deletedObjects, generation);
    }

    /** The end of a final page: sweep, then the sync row. */
    method EndClaim(claim: Claim, sweep: bool, degraded: bool, cursor: string, next: Option<int>, now: int) returns (ok: bool)
      requires sync.Some?
      modifies this`rows, this`sync
      ensures ok <==> Holds(old(sync.value), claim, now)
      ensures ok ==> Finish(old(sync.value), claim, degraded || AnyActive(quarantine), cursor, next, now).Ok?
                     && sync == Some(Finish(old(sync.value), claim, degraded || AnyActive(quarantine), cursor, next, now).value)
                     && rows == if sweep then Swept(Cache(old(rows), quarantine), claim.generation) else old(rows)
    {
      hide Swept, AnyActive;
      var active := AnyActive(quarantine);
      if sweep {
        rows := Swept(Cache(rows, quarantine), claim.generation);
      }
      var ended := Finish(sync.value, claim, degraded || active, cursor, next, now);
      if ended.Err? {
        return false;
      }
      sync := Some(ended.value);
      return true;
    }

    /** ApplyEventSyncPage. */
    method ApplyEventSyncPage(claim: Claim, b: Batch, final: bool, now: int) returns (failure: Option<Error>)
      modifies this
      ensures Ran(old(State()), failure, State(), ApplyPage(old(State()), claim, b, final, now))
    {
      hide ApplyBatch, Swept, AnyActive, ValidBatch, Finish;
      if sync.None? || !Holds(sync.value, claim, now) {
        return Some(LeaseLost);
      }
      if !ValidBatch(id, b) {
        return Some(Rejected);
      }
      WriteBatch(b, claim.generation, now);
      if final {
        var ok := EndClaim(claim, b.fullSync, b.degraded, b.nextCursor, b.nextSync, now);
      }
      return None;
    }

    /** ApplyEventSyncObjectRepair. */
    method ApplyObjectRepair(claim: Claim, r: RepairBatch, now: int) returns (failure: Option<Error>)
      modifies this
      ensures Ran(old(State()), failure, State(), Repair(old(State()), claim, r, now))
    {
      hide ApplyBatch, ObjectsDeleted, ValidRepair, Holds, RepairAsBatch;
      if sync.None? || !Holds(sync.value, claim, now) {
        return Some(LeaseLost);
      }
      if !ValidRepair(r) {
        return Some(Rejected);
      }
      match r.outcome {
        case ReplaceMembership => WriteBatch(RepairAsBatch(id, r), claim.generation, now);
        case Absent => DeleteObjects([r.objectId], claim.generation);
        case StillQuarantined =>
          if r.warning.Some? {
            quarantine := Warn(quarantine, r.objectId, r.warning.value.etag, now);
            if r.nextRepair.Some? {
              quarantine := quarantine[r.objectId := quarantine[r.objectId].(
                nextRepair := r.nextRepair.value, attempts := quarantine[r.objectId].attempts + 1)];
            }
          }
      }
      return None;
    }

    // --- leases -----------------------------------------------------------------------------

    method ClaimDueSync(worker: string, now: int, until: int, fenced: bool) returns (r: Result<Claim>)
      requires sync.Some?
      modifies this`sync
      ensures var spec := ClaimDue(old(sync.value), source, worker, now, until, fenced);
              && (spec.Ok? ==> sync == Some(spec.value) && spec.value.owner.Some? && r == Ok(Issued(spec.value)))
              && (spec.Err? ==> sync == old(sync) && r == Err(spec.error))
      ensures r.Ok? ==> sync.Some? && HeldUntil(sync.value, r.value.generation, worker, until) && Exclusive(sync.value, until)
    {
      hide Claimable;
      ghost var before := sync.value;
      if worker == "" || until <= now {
        return Err(Rejected);
      }
      if !Claimable(sync.value, source, now, fenced) {
        return Err(Unavailable);
      }
      sync := Some(sync.value.(generation := sync.value.generation + 1, status := Syncing, owner := Some(worker), until := Some(until)));
      ClaimTakesOver(before, source, worker, now, until, fenced);
      return Ok(Issued(sync.value));
    }

    /** Renew, reset, fail and park: one statement each, guarded by the lease check. */
    method RenewSync(claim: Claim, now: int, until: int) returns (failure: Option<Error>)
      requires sync.Some?
      modifies this`sync
      ensures Ran(old(State()), failure, State(), WithSync(old(State()), Renew(old(sync.value), claim, now, until)))
      ensures failure.None? ==> sync == Some(old(sync.value).(until := Some(until)))
                                && HeldUntil(sync.value, claim.generation, claim.owner, until) && Exclusive(sync.value, until)
    {
      ghost var before := sync.value;
      if until <= now || !Holds(sync.value, claim, now) || until <= sync.value.until.value {
        return Some(LeaseLost);
      }
      sync := Some(sync.value.(until := Some(until)));
      RenewExtends(before, claim, now, until);
      return None;
    }

    method ResetSync(claim: Claim, now: int) returns (failure: Option<Error>)
      requires sync.Some?
      modifies this`sync
      ensures Ran(old(State()), failure, State(), WithSync(old(State()), Reset(old(sync.value), claim, now)))
      ensures failure.None? ==> sync.Some? && sync.value.until == old(sync.value).until && sync.value.until.Some?
                                && HeldUntil(sync.value, claim.generation + 1, claim.owner, sync.value.until.value)
    {
      ghost var before := sync.value;
      if !Holds(sync.value, claim, now) {
        return Some(LeaseLost);
      }
      sync := Some(sync.value.(cursor := "", generation := sync.value.generation + 1));
      ResetReplaces(before, claim, now);
      return None;
    }

    method FailSync(claim: Claim, code: string, now: int, next: int) returns (failure: Option<Error>)
      requires sync.Some?
      modifies this`sync
      ensures Ran(old(State()), failure, State(), WithSync(old(State()), Fail(old(sync.value), claim, code, now, next)))
      ensures failure.None? ==> sync.Some? && Idle(sync.value) && SameProgress(old(sync.value), sync.value) && DueFrom(sync.value, next)
    {
      ghost var before := sync.value;
      if !Holds(sync.value, claim, now) {
        return Some(LeaseLost);
      }
      sync := Some(sync.value.(status := Failed, nextSync := next, lastError := if code == "" then None else Some(code),
                               owner := None, until := None));
      FailLeaves(before, claim, code, now, next);
      return None;
    }

    method ParkSync(claim: Claim, code: string, now: int) returns (failure: Option<Error>)
      requires sync.Some?
      modifies this`sync
      ensures Ran(old(State()), failure, State(), WithSync(old(State()), Park(old(sync.value), source, claim, code, now)))
      ensures failure.None? ==> sync.Some? && Idle(sync.value) && SameProgress(old(sync.value), sync.value) && ParkedFor(sync.value, code)
    {
      ghost var before := sync.value;
      if !SafeCode(code) {
        return Some(InvalidCode);
      }
      if !Holds(sync.value, claim, now) {
        return Some(LeaseLost);
      }
      var next := if code == "auth" && source.provider == "apple" then now + APPLE_AUTH_RECHECK else sync.value.nextSync;
      sync := Some(sync.value.(status := Parked, lastError := Some(code), nextSync := next, owner := None, until := None));
      ParkLeaves(before, source, claim, code, now);
      return None;
    }

    /** EnsureCalendarSyncStates for this calendar: a new window starts an idle calendar over. */
    method EnsureSync(lo: int, hi: int, now: int, fenced: bool) returns (failure: Option<Error>)
      modifies this`sync
      ensures Ran(old(State()), failure, State(), WithSync(old(State()), Ensure(old(sync), source, lo, hi, now, fenced)))
    {
      if hi <= lo {
        return Some(Rejected);
      }
      if !source.Usable() || (source.copySource && !fenced) {
        return Some(Unavailable);
      }
      if sync.None? {
        sync := Some(SyncState("", lo, hi, 0, Pending, now, None, None, None, None));
      }
      var s := sync.value;
      if (s.lo != lo || s.hi != hi) && s.Unleased(now) {
        var parked := s.status == Parked;
        s := s.(cursor := "", lo := lo, hi := hi, generation := s.generation + 1, owner := None, until := None);
        if !parked {
          s := s.(status := Pending, nextSync := now, lastError := None);
        }
        sync := Some(s);
      }
      return None;
    }

    /** ScheduleCalendarSync. */
    method ScheduleSync(now: int, resetCursor: bool) returns (failure: Option<Error>)
      requires sync.Some?
      modifies this`sync
      ensures Ran(old(State()), failure, State(), WithSync(old(State()), Schedule(old(sync.value), source, now, resetCursor)))
      ensures failure.None? ==> sync.Some? && Idle(sync.value) && DueFrom(sync.value, now)
    {
      ghost var before := sync.value;
      var s := sync.value;
      if !s.Unleased(now) || !source.Usable() {
        return Some(Ineligible);
      }
      if resetCursor {
        s := s.(cursor := "", generation := s.generation + 1);
      }
      sync := Some(s.(status := Pending, nextSync := now, lastError := None, owner := None, until := None));
      ScheduleMakesDue(before, source, now, resetCursor);
      return None;
    }

    /** DeferCalendarSyncForReservation: quarantine first, then a still valid publication, decide the status. */
    method DeferSync(claim: Claim, now: int, next: int) returns (failure: Option<Error>)
      requires sync.Some?
      modifies this`sync
      ensures Ran(old(State()), failure, State(),
                  WithSync(old(State()), Defer(old(sync.value), claim, now, next, AnyActive(quarantine), StillPublished(old(State())))))
      ensures failure.None? ==> sync.Some? && Idle(sync.value) && SameProgress(old(sync.value), sync.value) && DueFrom(sync.value, next)
    {
      hide AnyActive, StillPublished;
      ghost var before, published := sync.value, StillPublished(State());
      if next <= now || !Holds(sync.value, claim, now) {
        return Some(LeaseLost);
      }
      var status := Pending;
      if AnyActive(quarantine) {
        status := Degraded;
      } else if StillPublished(State()) {
        status := SyncLease.Ready;
      }
      sync := Some(sync.value.(status := status, nextSync := next, owner := None, until := None));
      DeferLeaves(before, claim, now, next, AnyActive(quarantine), published);
      return None;
    }

    /** SetCalendarEnabled: the selection first, then whatever claim or progress the sync row held. */
    method SetCalendarEnabled(enabled: bool, now: int)
      modifies this`source, this`sync
      ensures State() == SelectCalendar(old(State()), enabled, now)
      ensures old(source).enabled != enabled && sync.Some? ==> Idle(sync.value) && sync.value.cursor == "" && sync.value.lastSuccess.None?
    {
      if source.enabled == enabled {
        return;
      }
      source := source.(enabled := enabled);
      if sync.Some? {
        var s := sync.value.(generation := sync.value.generation + 1, cursor := "", lastSuccess := None, owner := None, until := None);
        if enabled || s.status != Status.Parked {
          s := s.(status := Pending, nextSync := now, lastError := None);
        }
        sync := Some(s);
      }
    }

    /** UpdateConnectionVerification for this calendar: the connection first, then a parked row without a lease. */
    method UpdateVerification(connected: bool, now: int)
      modifies this`source, this`sync
      ensures State() == Verify(old(State()), connected, now)
      ensures sync != old(sync) ==> connected && sync.Some? && old(sync).Some? && SameProgress(old(sync).value, sync.value)
    {
      source := source.(connected := connected);
      if connected && sync.Some? && sync.value.status == Status.Parked && sync.value.Unleased(now) {
        sync := Some(sync.value.(status := Pending, nextSync := now, lastError := None));
      }
    }

    // --- operator grants and write-through -----------------------------------------------------

    /** ScheduleEventSyncObjectRepair with a grant: the quarantine row, then the sync row. */
    method AuthorizeRepair(objectId: string, etag: string, now: int) returns (failure: Option<Error>)
      modifies this`quarantine, this`sync
      ensures Ran(old(State()), failure, State(), Grant(old(State()), objectId, etag, now))
    {
      if objectId == "" || etag == "" || objectId !in quarantine || !quarantine[objectId].active {
        return Some(NotFound);
      }
      var row := quarantine[objectId];
      if row.etag != etag {
        return Some(ETagMismatch);
      }
      var repair := row.nextRepair;
      if repair > now {
        repair := now;
      }
      quarantine := quarantine[objectId := row.(authorized := etag, nextRepair := repair)];
      if sync.Some? && sync.value.nextSync > now && (sync.value.owner.None? || sync.value.Unleased(now)) {
        sync := Some(sync.value.(nextSync := now));
      }
      return None;
    }

    /** ConsumeEventSyncProviderMutationAuthorization: true only when this call spent the grant. */
    method ConsumeAuthorization(claim: Claim, objectId: string, etag: string, now: int) returns (failure: Option<Error>, consumed: bool)
      modifies this`quarantine
      ensures Ran(old(State()), failure, State(), Consume(old(State()), claim, objectId, etag, now))
      ensures consumed <==> State() != old(State())
    {
      if objectId == "" || etag == "" || sync.None? || !Holds(sync.value, claim, now) {
        return Some(LeaseLost), false;
      }
      if objectId in quarantine && quarantine[objectId].active && quarantine[objectId].etag == etag
         && quarantine[objectId].authorized == etag {
        ghost var row := quarantine[objectId];
        quarantine := quarantine[objectId := quarantine[objectId].(authorized := "")];
        assert quarantine[objectId] != row;
        return None, true;
      }
      return None, false;
    }

    /** UpsertCachedEvent: a confirmed local write, stamped with the current generation. */
    method UpsertEvent(e: Event) returns (failure: Option<Error>)
      modifies this`rows
      ensures Ran(old(State()), failure, State(), WriteThrough(old(State()), e))
      ensures failure.None? ==> Live(rows) == Live(old(rows))[e.id := Entry(e.id, e.Plain())]
    {
      hide ValidRange;
      ghost var before := State();
      if e.calendarId != id || e.id == "" || !ValidRange(e.start, e.end) {
        return Some(Rejected);
      }
      if sync.None? {
        return Some(NotFound);
      }
      rows := rows[e.id := LiveRow(e.id, e.Plain(), sync.value.generation)];
      LocalWriteShows(before, e, None);
      return None;
    }

    /** DeleteCachedEvent. */
    method TombstoneEvent(eventId: string) returns (failure: Option<Error>)
      modifies this`rows
      ensures Ran(old(State()), failure, State(), WriteDelete(old(State()), eventId))
      ensures failure.None? ==> Live(rows) == Live(old(rows)) - {eventId}
    {
      ghost var before := State();
      if eventId == "" {
        return Some(Rejected);
      }
      if sync.None? {
        return Some(NotFound);
      }
      var owner := if eventId in rows then rows[eventId].objectId else "";
      rows := rows[eventId := Tombstone(owner, sync.value.generation)];
      LocalDeleteHides(before, eventId, None);
      return None;
    }

    // --- guard, candidates and attempts --------------------------------------------------------

    /** Begin and resolve one mutation: the epoch first, then the intent row. */
    method BeginMutation(mutation: string) returns (failure: Option<Error>)
      modifies this`archive
      ensures Ran(old(State()), failure, State(),
                  if ValidMutationId(mutation) then WithArchive(old(State()), Begin(old(archive), mutation)) else Err(Rejected))
    {
      if !ValidMutationId(mutation) {
        return Some(Rejected);
      }
      var saved := archive;
      archive := archive.(epoch := archive.epoch + 1);
      if |archive.intents| >= PENDING_LIMIT {
        archive := saved;
        return Some(MutationLimit);
      }
      if mutation in archive.intents {
        archive := saved;
        return Some(Rejected);
      }
      archive := archive.(intents := archive.intents + {mutation});
      return None;
    }

    method ResolveMutation(mutation: string) returns (failure: Option<Error>)
      modifies this`archive
      ensures Ran(old(State()), failure, State(),
                  if ValidMutationId(mutation) then WithArchive(old(State()), End(old(archive), mutation)) else Err(Rejected))
    {
      if !ValidMutationId(mutation) {
        return Some(Rejected);
      }
      if mutation !in archive.intents {
        return Some(NotFound);
      }
      archive := archive.(epoch := archive.epoch + 1);
      archive := archive.(intents := archive.intents - {mutation});
      return None;
    }

    /** StageProjectionSnapshot: one unverified candidate at a time, only under an undisturbed guard. */
    method StageCandidate(zones: Zones, s: Calendars.Stage) returns (failure: Option<Error>)
      modifies this`archive
      ensures Ran(old(State()), failure, State(), WithArchive(old(State()), StageSnapshot(zones, old(archive), s)))
    {
      hide LoadableZone, ValidMutationId, Size, StageIdUsed;
      if !LoadableZone(zones, s.timezone) || !ValidMutationId(s.stageId) || s.hi <= s.lo
         || |s.cursor| > CURSOR_LIMIT || Size(s.payload) > SNAPSHOT_SIZE_LIMIT {
        return Some(Rejected);
      }
      if archive.epoch != s.epoch || archive.revision != s.base || archive.intents != {} {
        return Some(SnapshotStale);
      }
      if StageIdUsed(archive, s.stageId) {
        return Some(AlreadyPublished);
      }
      if archive.stage.Some? {
        return Some(Rejected);
      }
      archive := archive.(stage := Some(s));
      return None;
    }

    /** DiscardProjectionSnapshotStage. */
    method DiscardCandidate(stageId: string) returns (failure: Option<Error>)
      modifies this`archive
      ensures Ran(old(State()), failure, State(), WithArchive(old(State()), Discard(old(archive), stageId)))
    {
      if archive.stage.None? || archive.stage.value.stageId != stageId {
        return Some(NotFound);
      }
      archive := archive.(stage := None);
      return None;
    }

    /** PublishProjectionSnapshot: the staged candidate becomes the next revision, unverified. */
    method PublishCandidate(stageId: string) returns (failure: Option<Error>)
      modifies this`archive
      ensures Ran(old(State()), failure, State(), WithArchive(old(State()), Publish(old(archive), stageId)))
    {
      hide StageIdUsed;
      if StageIdUsed(archive, stageId) {
        return Some(AlreadyPublished);
      }
      if archive.stage.None? || archive.stage.value.stageId != stageId {
        return Some(NotFound);
      }
      var s := archive.stage.value;
      if !Guarded(archive, s.epoch, s.base) {
        return Some(SnapshotStale);
      }
      if |archive.snapshots| >= SNAPSHOT_LIMIT {
        return Some(SnapshotLimit);
      }
      if archive.revision + 1 in archive.snapshots {
        return Some(Rejected);
      }
      var revision := archive.revision + 1;
      archive := archive.(snapshots := archive.snapshots[revision :=
        Snapshot(s.stageId, s.epoch, s.base, s.lo, s.hi, s.completed, s.timezone, s.cursor, s.payload, false, [])]);
      archive := archive.(revision := revision);
      archive := archive.(stage := None);
      return None;
    }

    /** StartProjectionPageAttempt: older attempts go, then the new one is inserted. */
    method StartPageAttempt(zones: Zones, claim: Claim, inp: AttemptInput, now: int) returns (failure: Option<Error>)
      modifies this`archive
      ensures Ran(old(State()), failure, State(), WithArchive(old(State()), StartAttempt(zones, old(State()), claim, inp, now)))
    {
      hide ValidInput, Holds, SourceMatches, MatchingBase;
      if sync.None? {
        return Some(LeaseLost);
      }
      if !ValidInput(zones, claim, inp) {
        return Some(PageStage);
      }
      if !Holds(sync.value, claim, now) {
        return Some(LeaseLost);
      }
      if !SourceMatches(source, sync.value, inp.timezone, inp.baseCursor, inp.lo, inp.hi) {
        return Some(PageStage);
      }
      if !Guarded(archive, inp.epoch, inp.baseRevision) {
        return Some(SnapshotStale);
      }
      if (inp.baseRevision > 0 && inp.baseRevision !in archive.snapshots)
         || (inp.mode.Incremental?
             && !MatchingBase(archive, inp.baseRevision, inp.baseCursor, inp.timezone, inp.lo, inp.hi, inp.epoch)) {
        return Some(PageStage);
      }
      var saved := archive;
      archive := archive.(attempts := map g | g in archive.attempts && g >= inp.generation :: archive.attempts[g]);
      if |archive.attempts| >= ATTEMPT_COUNT_LIMIT {
        archive := saved;
        return Some(PageStage);
      }
      if inp.generation in archive.attempts || exists g | g in archive.attempts :: archive.attempts[g].id == inp.id {
        archive := saved;
        return Some(Rejected);
      }
      archive := archive.(attempts := archive.attempts[inp.generation :=
        Attempt(inp.id, claim.owner, inp.mode, inp.baseRevision, inp.baseCursor, inp.epoch, inp.lo, inp.hi,
                inp.timezone, 0, EMPTY_TOKEN, 0, false, "", [])]);
      return None;
    }

    // --- finalization -------------------------------------------------------------------------

    /** releaseRetainedSourceCapacityTx: free pins, then one older revision after the other. */
    method ReleaseRetainedRevisions(current: nat, observations: seq<Observation>)
      modifies this`archive
      ensures archive == ReleaseRetained(old(archive), current, observations)
    {
      hide Retirable, ObservationSize, RetainedBelow;
      archive := DropPins(archive);
      ghost var free := archive;
      RetainedEnds(free, current, observations);
      for r := 0 to current
        invariant archive == free.(snapshots := archive.snapshots)
        invariant archive.snapshots == RetainedBelow(free, r, observations)
      {
        RetirableSame(free, archive.snapshots, r);
        RetainedNext(free, r, observations);
        if r in archive.snapshots && archive.snapshots[r].verified
           && ObservationSize(archive.snapshots[r].observations) <= OBSERVATION_SIZE_LIMIT {
          var contained := ObservationMultisetContains(observations, archive.snapshots[r].observations);
          if contained && Retirable(archive, r) {
            archive := archive.(snapshots := archive.snapshots - {r});
          }
        }
      }
    }

    /** The pages of the candidate once more, in order, under the same claim. */
    method ReplayPages(pages: seq<Page>, generation: nat, now: int)
      modifies this`rows, this`quarantine
      ensures Cache(rows, quarantine) == Replay(Cache(old(rows), old(quarantine)), id, pages, generation, now)
    {
      hide ApplyBatch, PageBatch;
      for i := 0 to |pages|
        invariant Cache(rows, quarantine) == Replay(Cache(old(rows), old(quarantine)), id, pages[..i], generation, now)
      {
        Grown(pages, i);
        WriteBatch(PageBatch(pages[i]), generation, now);
      }
      assert pages[..|pages|] == pages;
    }

    /** prepareProjectionFinalizationTx, through the chain reader and the materializer. */
    method PrepareCandidate(zones: Zones, claim: Claim, t: Attempt) returns (r: Result<Candidate>)
      requires sync.Some?
      ensures r == Prepare(zones, State(), claim, t)
    {
      hide ReadChain, Materialize, BaseEvents, Carried, ObservationSize, SourceMatches, AnyActive, EncodeSnapshotPayload, Size, Guarded;
      if t.owner != claim.owner || !t.complete || !(1 <= t.nextOrdinal <= PAGE_LIMIT) {
        return Err(PageStage);
      }
      if AnyActive(quarantine) || !SourceMatches(source, sync.value, t.timezone, t.baseCursor, t.lo, t.hi) {
        return Err(PageStage);
      }
      if !Guarded(archive, t.epoch, t.baseRevision) {
        return Err(SnapshotStale);
      }
      var base := BaseEvents(State(), t);
      if base.Err? || |t.pages| != t.nextOrdinal {
        return Err(PageStage);
      }
      var pages := ValidatePageChain(id, t.timezone, t.finalCursor, t.nextToken, t.total, t.pages);
      if pages.Err? {
        return Err(PageStage);
      }
      var result := MaterializeAttempt(MaterializeInput(zones, State(), t, base.value, pages.value));
      if result.Err? {
        return Err(Rejected);
      }
      var payload := EncodeSnapshotPayload(result.value.events, id);
      if payload.Err? || Size(payload.value) > SNAPSHOT_SIZE_LIMIT {
        return Err(PageStage);
      }
      var carried := Carried(archive, t.baseRevision);
      if carried.Err? || ObservationSize(carried.value + result.value.observations) > OBSERVATION_SIZE_LIMIT {
        return Err(PageStage);
      }
      return Ok(Candidate(pages.value, result.value, payload.value, carried.value + result.value.observations));
    }

    /** The archive writes of the finalizer. */
    method StoreRevision(generation: nat, t: Attempt, completed: int, p: Candidate) returns (failure: Option<Error>)
      modifies this`archive
      ensures var spec := Archived(old(archive), generation, t, completed, p.payload, p.observations);
              && (spec.Ok? ==> failure == None && archive == spec.value)
              && (spec.Err? ==> failure == Some(spec.error))
    {
      hide ReleaseRetained, StageIdUsed, Retire, Store, NewSnapshot;
      ReleaseRetainedRevisions(t.baseRevision, p.observations);
      if |archive.snapshots| >= SNAPSHOT_LIMIT {
        return Some(SnapshotLimit);
      }
      if t.baseRevision + 1 in archive.snapshots || StageIdUsed(archive, t.id) {
        return Some(Rejected);
      }
      archive := Store(archive, generation, t.baseRevision + 1, NewSnapshot(t, completed, p.payload, p.observations));
      if t.baseRevision > 0 {
        archive := Retire(archive, t.baseRevision);
      }
      return None;
    }

    /** finalizeProjectionTxWithClock: prepare, replay, store the revision, sweep, end the claim; or nothing. */
    method FinalizeProjection(zones: Zones, claim: Claim, nextSync: int, clocks: Clocks) returns (failure: Option<Error>)
      requires sync.Some? && claim.generation in archive.attempts
      modifies this
      ensures Ran(old(State()), failure, State(), Finalize(zones, old(State()), claim, nextSync, clocks))
    {
      hide Prepare, Archived, Replay, Swept, Replayable, AnyActive, Holds;
      var saved := State();
      var t := archive.attempts[claim.generation];
      if nextSync <= clocks.start {
        return Some(PageStage);
      }
      if !Holds(sync.value, claim, clocks.applied) || !Holds(sync.value, claim, clocks.committed) || nextSync <= clocks.committed {
        return Some(LeaseLost);
      }
      var candidate := PrepareCandidate(zones, claim, t);
      if candidate.Err? {
        return Some(candidate.error);
      }
      failure := StoreRevision(claim.generation, t, clocks.completed, candidate.value);
      if failure.Some? {
        Rollback(saved);
        return failure;
      }
      if !Replayable(id, candidate.value.pages) {
        Rollback(saved);
        return Some(Rejected);
      }
      ReplayPages(candidate.value.pages, claim.generation, clocks.applied);
      var ok := EndClaim(claim, t.mode.Replacement?, false, t.finalCursor, Some(nextSync), clocks.applied);
      return None;
    }

    /** finalizeSourceProjectionPage: append the terminal page and finalize, in one transaction. */
    method FinalizeSourcePage(zones: Zones, claim: Claim, attemptId: string, d: Delivery, nextSync: int, clocks: Clocks)
      returns (failure: Option<Error>)
      modifies this
      ensures Ran(old(State()), failure, State(), FinalPage(zones, old(State()), claim, attemptId, d, nextSync, clocks))
    {
      hide Append, Finalize;
      if !d.page.complete {
        return Some(PageStage);
      }
      var saved := State();
      var appended := Append(State(), claim, attemptId, d, clocks.start);
      if appended.Err? {
        return Some(appended.error);
      }
      AppendKeeps(State(), claim, attemptId, d, clocks.start);
      archive := appended.value;
      failure := FinalizeProjection(zones, claim, nextSync, clocks);
      if failure.Some? {
        Rollback(saved);
      }
    }

    /** ApplyProjectionStagedPage: a page that is not the last is staged and applied together. */
    method ApplyStagedPage(claim: Claim, attemptId: string, d: Delivery, now: int) returns (failure: Option<Error>)
      modifies this
      ensures Ran(old(State()), failure, State(), ApplyStaged(old(State()), claim, attemptId, d, now))
    {
      hide Append, ApplyBatch, ValidBatch;
      if d.page.complete {
        return Some(Rejected);
      }
      var saved := State();
      var appended := Append(State(), claim, attemptId, d, now);
      if appended.Err? {
        return Some(appended.error);
      }
      archive := appended.value;
      if !ValidBatch(id, PageBatch(d.page)) {
        Rollback(saved);
        return Some(Rejected);
      }
      WriteBatch(PageBatch(d.page), claim.generation, now);
      return None;
    }
  }

  lemma AppendKeeps(c: Calendar, claim: Claim, attemptId: string, d: Delivery, now: int)
    requires Append(c, claim, attemptId, d, now).Ok?
    ensures c.sync.Some? && claim.generation in Append(c, claim, attemptId, d, now).value.attempts
  {
    hide WellFormed, RecordOf, Holds, SourceMatches, PageChain.Stage;
  }

  /** The revisions left once those below r were considered. */
  function RetainedBelow(free: Archive, r: nat, observations: seq<Observation>): map<nat, Snapshot>
  {
    map q | q in free.snapshots
        && !(q < r && free.snapshots[q].verified && ObservationSize(free.snapshots[q].observations) <= OBSERVATION_SIZE_LIMIT
             && multiset(free.snapshots[q].observations) <= multiset(observations) && Retirable(free, q))
      :: free.snapshots[q]
  }

  lemma RetainedEnds(free: Archive, current: nat, observations: seq<Observation>)
    ensures RetainedBelow(free, 0, observations) == free.snapshots
    ensures DropPins(free) == free ==> ReleaseRetained(free, current, observations).snapshots == RetainedBelow(free, current, observations)
  {
    hide Retirable, ObservationSize;
  }

  lemma RetainedNext(free: Archive, r: nat, observations: seq<Observation>)
    ensures var before, after := RetainedBelow(free, r, observations), RetainedBelow(free, r + 1, observations);
            && (r in before <==> r in free.snapshots) && (r in before ==> before[r] == free.snapshots[r])
            && after == if r in free.snapshots && free.snapshots[r].verified
                           && ObservationSize(free.snapshots[r].observations) <= OBSERVATION_SIZE_LIMIT
                           && multiset(free.snapshots[r].observations) <= multiset(observations) && Retirable(free, r)
                        then before - {r} else before
  {
    hide Retirable, ObservationSize;
  }

  lemma RetirableSame(free: Archive, snapshots: map<nat, Snapshot>, r: nat)
    ensures Retirable(free.(snapshots := snapshots), r) == Retirable(free, r)
  {
  }
}
