/**
 * One calendar's durable rows and every transaction that changes them, each as one atomic step.
 * Steps take the clock samples, provider pages and worker claims they were given as arguments.
 */
module Calendars {
  import opened Base
  import opened Strings
  import opened Events
  import opened Materializer
  import opened Payload
  import opened PageChain
  import opened EventCache
  import opened SyncLease

  /** time.LoadLocation. */
  type Zones = string -> Option<Zone>

  datatype Snapshot = Snapshot(
    stageId: string, epoch: nat, base: nat, lo: int, hi: int, completed: int, timezone: string, cursor: string,
    payload: Json, verified: bool, observations: seq<Observation>)

  datatype Stage = Stage(
    stageId: string, epoch: nat, base: nat, lo: int, hi: int, completed: int, timezone: string, cursor: string, payload: Json)

  /** A pin is disposable once released with no checkpoint or target intent left. */
  datatype Pin = Pin(revision: nat, disposable: bool)

  /** The mutation guard (epoch, revision, pending intents), page attempts by generation, and snapshots by revision. */
  datatype Archive = Archive(
    epoch: nat, revision: nat, intents: set<string>, attempts: map<nat, Attempt>, stage: Option<Stage>,
    snapshots: map<nat, Snapshot>, pins: map<string, Pin>, references: set<nat>)

  datatype Calendar = Calendar(id: string, source: Source, sync: Option<SyncState>, cache: Cache, archive: Archive)

  const PENDING_LIMIT := 1024
  const SNAPSHOT_LIMIT := 2
  const ATTEMPT_COUNT_LIMIT := 8
  const OBSERVATION_SIZE_LIMIT := 4194304

  /** validProjectionMutationID. */
  predicate ValidMutationId(id: string)
  {
    16 <= |id| <= 128 && forall i | 0 <= i < |id| ::
      'a' <= id[i] <= 'z' || 'A' <= id[i] <= 'Z' || '0' <= id[i] <= '9' || id[i] == '-' || id[i] == '_'
  }

  predicate LoadableZone(zones: Zones, timezone: string)
  {
    timezone != "" && timezone != "Local" && zones(timezone).Some?
  }

  /** lockProjectionSnapshotGuard succeeds. */
  predicate Guarded(a: Archive, epoch: nat, revision: nat)
  {
    a.epoch == epoch && a.revision == revision && a.intents == {}
  }

  // --- the mutation guard ---------------------------------------------------------

  function Begin(a: Archive, mutation: string): Result<Archive>
  {
    if |a.intents| >= PENDING_LIMIT then Err(MutationLimit)
    else if mutation in a.intents then Err(Rejected)
    else Ok(a.(epoch := a.epoch + 1, intents := a.intents + {mutation}))
  }

  function End(a: Archive, mutation: string): Result<Archive>
  {
    if mutation !in a.intents then Err(NotFound)
    else Ok(a.(epoch := a.epoch + 1, intents := a.intents - {mutation}))
  }

  // --- unverified snapshots ---------------------------------------------------------

  predicate StageIdUsed(a: Archive, id: string)
  {
    exists r | r in a.snapshots :: a.snapshots[r].stageId == id
  }

  function StageSnapshot(zones: Zones, a: Archive, s: Stage): Result<Archive>
  {
    if !LoadableZone(zones, s.timezone) || !ValidMutationId(s.stageId) || s.hi <= s.lo
       || |s.cursor| > CURSOR_LIMIT || Size(s.payload) > SNAPSHOT_SIZE_LIMIT then Err(Rejected)
    else if !Guarded(a, s.epoch, s.base) then Err(SnapshotStale)
    else if StageIdUsed(a, s.stageId) then Err(AlreadyPublished)
    else if a.stage.Some? then Err(Rejected)
    else Ok(a.(stage := Some(s)))
  }

  function Publish(a: Archive, stageId: string): Result<Archive>
  {
    if StageIdUsed(a, stageId) then Err(AlreadyPublished)
    else if a.stage.None? || a.stage.value.stageId != stageId then Err(NotFound)
    else
      var s := a.stage.value;
      if !Guarded(a, s.epoch, s.base) then Err(SnapshotStale)
      else if |a.snapshots| >= SNAPSHOT_LIMIT then Err(SnapshotLimit)
      else if a.revision + 1 in a.snapshots then Err(Rejected)
      else Ok(a.(revision := a.revision + 1, stage := None,
                 snapshots := a.snapshots[a.revision + 1 :=
                   Snapshot(s.stageId, s.epoch, s.base, s.lo, s.hi, s.completed, s.timezone, s.cursor, s.payload, false, [])]))
  }

  function Discard(a: Archive, stageId: string): Result<Archive>
  {
    if a.stage.None? || a.stage.value.stageId != stageId then Err(NotFound) else Ok(a.(stage := None))
  }

  /** Pins, checkpoints, mappings and target intents come and go; foreign keys keep them on stored revisions. */
  function Refer(a: Archive, pins: map<string, Pin>, references: set<nat>): Result<Archive>
  {
    if (forall p | p in pins :: pins[p].revision in a.snapshots) && references <= a.snapshots.Keys then
      Ok(a.(pins := pins, references := references))
    else Err(Rejected)
  }

  // --- page attempts ------------------------------------------------------------------

  datatype AttemptInput = AttemptInput(
    id: string, timezone: string, generation: nat, epoch: nat, baseRevision: nat, mode: Mode, baseCursor: string, lo: int, hi: int)

  predicate ValidInput(zones: Zones, claim: Claim, inp: AttemptInput)
  {
    && inp.generation == claim.generation && ValidMutationId(inp.id) && inp.lo < inp.hi && |inp.baseCursor| <= CURSOR_LIMIT
    && LoadableZone(zones, inp.timezone)
    && (if inp.mode.Replacement? then inp.baseCursor == "" else inp.baseCursor != "" && inp.baseRevision > 0)
  }

  /** The provider state the attempt was frozen against still holds. */
  predicate SourceMatches(source: Source, s: SyncState, timezone: string, cursor: string, lo: int, hi: int)
  {
    && source.Usable() && source.provider == "google"
    && s.cursor == cursor && source.timezone == timezone && s.lo == lo && s.hi == hi
  }

  /** A verified base with the same cursor, zone, window and epoch. */
  predicate MatchingBase(a: Archive, revision: nat, cursor: string, timezone: string, lo: int, hi: int, epoch: nat)
  {
    && revision in a.snapshots
    && var b := a.snapshots[revision];
       b.verified && b.cursor == cursor && b.timezone == timezone && b.lo == lo && b.hi == hi && b.epoch == epoch
  }

  function StartAttempt(zones: Zones, c: Calendar, claim: Claim, inp: AttemptInput, now: int): Result<Archive>
  {
    var a := c.archive;
    if c.sync.None? then Err(LeaseLost)
    else if !ValidInput(zones, claim, inp) then Err(PageStage)
    else if !Holds(c.sync.value, claim, now) then Err(LeaseLost)
    else if !SourceMatches(c.source, c.sync.value, inp.timezone, inp.baseCursor, inp.lo, inp.hi) then Err(PageStage)
    else if !Guarded(a, inp.epoch, inp.baseRevision) then Err(SnapshotStale)
    else if inp.baseRevision > 0 && inp.baseRevision !in a.snapshots then Err(PageStage)
    else if inp.mode.Incremental?
            && !MatchingBase(a, inp.baseRevision, inp.baseCursor, inp.timezone, inp.lo, inp.hi, inp.epoch) then Err(PageStage)
    else
      var kept := map g | g in a.attempts && g >= inp.generation :: a.attempts[g];
      if |kept| >= ATTEMPT_COUNT_LIMIT then Err(PageStage)
      else if inp.generation in kept || exists g | g in kept :: kept[g].id == inp.id then Err(Rejected)
      else Ok(a.(attempts := kept[inp.generation :=
             Attempt(inp.id, claim.owner, inp.mode, inp.baseRevision, inp.baseCursor, inp.epoch, inp.lo, inp.hi,
                     inp.timezone, 0, EMPTY_TOKEN, 0, false, "", [])]))
  }

  /** appendProjectionPageTx. */
  function Append(c: Calendar, claim: Claim, attemptId: string, d: Delivery, now: int): Result<Archive>
  {
    var a := c.archive;
    if c.sync.None? then Err(LeaseLost)
    else if !Holds(c.sync.value, claim, now) then Err(LeaseLost)
    else if !ValidMutationId(attemptId) || !WellFormed(c.id, d) then Err(PageStage)
    else if claim.generation !in a.attempts || a.attempts[claim.generation].id != attemptId then Err(PageStage)
    else
      var t := a.attempts[claim.generation];
      if t.owner != claim.owner then Err(PageStage)
      else if !SourceMatches(c.source, c.sync.value, t.timezone, t.baseCursor, t.lo, t.hi) then Err(PageStage)
      else if !Guarded(a, t.epoch, t.baseRevision) then Err(SnapshotStale)
      else
        var staged := PageChain.Stage(c.id, t, d);
        if staged.Err? then Err(staged.error) else Ok(a.(attempts := a.attempts[claim.generation := staged.value]))
  }

  // --- applying staged pages to the cache ----------------------------------------------

  function CachedUpserts(upserts: seq<Upsert>): (r: seq<CachedUpsert>)
    ensures |r| == |upserts|
    ensures forall i | 0 <= i < |r| :: r[i] == CachedUpsert(upserts[i].objectId, upserts[i].event)
  {
    seq(|upserts|, i requires 0 <= i < |upserts| => CachedUpsert(upserts[i].objectId, upserts[i].event))
  }

  /** The batch a staged page becomes, both when it is staged and when it is replayed. */
  function PageBatch(p: Page): Batch
  {
    Batch(false, CachedUpserts(p.upserts), p.deletedIds, [], [], [], false, true, "", None)
  }

  function Replay(c: Cache, calendar: string, pages: seq<Page>, generation: nat, now: int): Cache
  {
    if pages == [] then c
    else ApplyBatch(Replay(c, calendar, pages[..|pages| - 1], generation, now), calendar,
                    PageBatch(pages[|pages| - 1]), generation, now)
  }

  predicate Replayable(calendar: string, pages: seq<Page>)
  {
    forall i | 0 <= i < |pages| :: ValidBatch(calendar, PageBatch(pages[i]))
  }

  // --- finalization -----------------------------------------------------------------------

  function ObservationSize(observations: seq<Observation>): nat
  {
    if observations == [] then 2
    else
      var last := observations[|observations| - 1];
      ObservationSize(observations[..|observations| - 1]) + |last.removal.objectId| + |last.removal.seriesId| + |last.previousIdentity| + 1
  }

  /** retireSourceSnapshotTx deletes the revision: nothing persisted refers to it. */
  predicate Retirable(a: Archive, revision: nat)
  {
    && (forall p | p in a.pins :: a.pins[p].revision != revision)
    && revision !in a.references
    && (a.stage.Some? ==> a.stage.value.base != revision)
    && (forall g | g in a.attempts :: a.attempts[g].baseRevision != revision)
  }

  function DropPins(a: Archive): Archive
  {
    a.(pins := map p | p in a.pins && !a.pins[p].disposable :: a.pins[p])
  }

  /** releaseRetainedSourceCapacityTx: older verified revisions whose observations are all carried forward. */
  function ReleaseRetained(a: Archive, current: nat, observations: seq<Observation>): Archive
  {
    var free := DropPins(a);
    free.(snapshots := map r | r in free.snapshots
            && !(r < current && free.snapshots[r].verified
                 && ObservationSize(free.snapshots[r].observations) <= OBSERVATION_SIZE_LIMIT
                 && multiset(free.snapshots[r].observations) <= multiset(observations) && Retirable(free, r))
          :: free.snapshots[r])
  }

  function Retire(a: Archive, revision: nat): Archive
  {
    if Retirable(a, revision) then a.(snapshots := a.snapshots - {revision}) else a
  }

  datatype Candidate = Candidate(pages: seq<Page>, result: Materialized, payload: Json, observations: seq<Observation>)

  function BaseEvents(c: Calendar, t: Attempt): Result<seq<Event>>
  {
    if t.mode.Replacement? then if t.baseCursor == "" then Ok([]) else Err(PageStage)
    else if !MatchingBase(c.archive, t.baseRevision, t.baseCursor, t.timezone, t.lo, t.hi, t.epoch) then Err(PageStage)
    else DecodeSnapshotPayload(c.archive.snapshots[t.baseRevision].payload, c.id)
  }

  /** The observations carried forward from the base revision. */
  function Carried(a: Archive, base: nat): Result<seq<Observation>>
  {
    if base == 0 then Ok([])
    else if base !in a.snapshots || !a.snapshots[base].verified
            || ObservationSize(a.snapshots[base].observations) > OBSERVATION_SIZE_LIMIT
            || exists i | 0 <= i < |a.snapshots[base].observations| :: !a.snapshots[base].observations[i].removal.Valid() then
      Err(PageStage)
    else Ok(a.snapshots[base].observations)
  }

  function MaterializeInput(zones: Zones, c: Calendar, t: Attempt, base: seq<Event>, pages: seq<Page>): Input
  {
    Input(c.id, t.timezone, zones(t.timezone), t.lo, t.hi, t.mode, base, t.mode.Incremental?, pages)
  }

  /** prepareProjectionFinalizationTx, with the payload and provenance the finalizer derives from it. */
  ghost function Prepare(zones: Zones, c: Calendar, claim: Claim, t: Attempt): Result<Candidate>
    requires c.sync.Some?
  {
    if t.owner != claim.owner || !t.complete || !(1 <= t.nextOrdinal <= PAGE_LIMIT) then Err(PageStage)
    else if AnyActive(c.cache.quarantine)
            || !SourceMatches(c.source, c.sync.value, t.timezone, t.baseCursor, t.lo, t.hi) then Err(PageStage)
    else if !Guarded(c.archive, t.epoch, t.baseRevision) then Err(SnapshotStale)
    else
      var base := BaseEvents(c, t);
      if base.Err? || |t.pages| != t.nextOrdinal then Err(PageStage) else
      var pages := ReadChain(c.id, t.timezone, t.finalCursor, t.nextToken, t.total, t.pages);
      if pages.Err? then Err(PageStage) else
      var result := Materialize(MaterializeInput(zones, c, t, base.value, pages.value));
      if result.Err? then Err(Rejected) else
      var payload := EncodeSnapshotPayload(result.value.events, c.id);
      if payload.Err? || Size(payload.value) > SNAPSHOT_SIZE_LIMIT then Err(PageStage) else
      var carried := Carried(c.archive, t.baseRevision);
      if carried.Err? || ObservationSize(carried.value + result.value.observations) > OBSERVATION_SIZE_LIMIT then Err(PageStage)
      else Ok(Candidate(pages.value, result.value, payload.value, carried.value + result.value.observations))
  }

  function NewSnapshot(t: Attempt, completed: int, payload: Json, observations: seq<Observation>): Snapshot
  {
    Snapshot(t.id, t.epoch, t.baseRevision, t.lo, t.hi, completed, t.timezone, t.finalCursor, payload, true, observations)
  }

  /** The new revision becomes current and its attempt is used up. */
  function Store(a: Archive, generation: nat, revision: nat, s: Snapshot): Archive
  {
    a.(snapshots := a.snapshots[revision := s], revision := revision, attempts := a.attempts - {generation})
  }

  /** The archive writes of the finalizer: retention, the new revision, the guard, the attempt and the old base. */
  function Archived(a: Archive, generation: nat, t: Attempt, completed: int, payload: Json, observations: seq<Observation>): Result<Archive>
  {
    var free := ReleaseRetained(a, t.baseRevision, observations);
    if |free.snapshots| >= SNAPSHOT_LIMIT then Err(SnapshotLimit)
    else if t.baseRevision + 1 in free.snapshots || StageIdUsed(free, t.id) then Err(Rejected)
    else
      var stored := Store(free, generation, t.baseRevision + 1, NewSnapshot(t, completed, payload, observations));
      Ok(if t.baseRevision > 0 then Retire(stored, t.baseRevision) else stored)
  }

  datatype Clocks = Clocks(start: int, completed: int, applied: int, committed: int)

  /** finalizeProjectionTxWithClock on the attempt that holds the complete chain. */
  ghost function Finalize(zones: Zones, c: Calendar, claim: Claim, nextSync: int, clocks: Clocks): Result<Calendar>
    requires c.sync.Some? && claim.generation in c.archive.attempts
  {
    var t := c.archive.attempts[claim.generation];
    if nextSync <= clocks.start then Err(PageStage)
    else if !Holds(c.sync.value, claim, clocks.applied) || !Holds(c.sync.value, claim, clocks.committed)
            || nextSync <= clocks.committed then Err(LeaseLost)
    else
      var candidate := Prepare(zones, c, claim, t);
      if candidate.Err? then Err(candidate.error) else
      var archive := Archived(c.archive, claim.generation, t, clocks.completed, candidate.value.payload, candidate.value.observations);
      if archive.Err? then Err(archive.error)
      else if !Replayable(c.id, candidate.value.pages) then Err(Rejected)
      else
        var cache := Replay(c.cache, c.id, candidate.value.pages, claim.generation, clocks.applied);
        var rows := if t.mode.Replacement? then Swept(cache, claim.generation) else cache.rows;
        var sync := SyncLease.Finish(c.sync.value, claim, AnyActive(cache.quarantine), t.finalCursor, Some(nextSync), clocks.applied);
        if sync.Err? then Err(sync.error)
        else Ok(c.(sync := Some(sync.value), cache := cache.(rows := rows), archive := archive.value))
  }

  // --- the other cache transactions ---------------------------------------------------------

  function ApplyPage(c: Calendar, claim: Claim, b: Batch, final: bool, now: int): Result<Calendar>
  {
    if c.sync.None? || !Holds(c.sync.value, claim, now) then Err(LeaseLost)
    else if !ValidBatch(c.id, b) then Err(Rejected)
    else
      var cache := ApplyBatch(c.cache, c.id, b, claim.generation, now);
      if !final then Ok(c.(cache := cache))
      else
        var rows := if b.fullSync then Swept(cache, claim.generation) else cache.rows;
        var sync := Finish(c.sync.value, claim, b.degraded || AnyActive(cache.quarantine), b.nextCursor, b.nextSync, now);
        if sync.Err? then Err(sync.error) else Ok(c.(sync := Some(sync.value), cache := cache.(rows := rows)))
  }

  datatype Outcome = ReplaceMembership | Absent | StillQuarantined

  datatype RepairBatch = RepairBatch(
    objectId: string, outcome: Outcome, upserts: seq<CachedUpsert>, warning: Option<Warning>, nextRepair: Option<int>)

  predicate ValidRepair(r: RepairBatch)
  {
    && r.objectId != ""
    && match r.outcome
       case ReplaceMembership =>
         && r.upserts != []
         && forall i | 0 <= i < |r.upserts| ::
              && (r.upserts[i].objectId == "" || r.upserts[i].objectId == r.objectId)
              && r.upserts[i].event.id != "" && ValidRange(r.upserts[i].event.start, r.upserts[i].event.end)
       case Absent => true
       case StillQuarantined =>
         r.warning.Some? && r.warning.value.objectId == r.objectId && r.warning.value.protocol
  }

  /** A replacement repair is a one-object batch; an absence deletes the object; otherwise the warning stays. */
  function RepairedCache(c: Cache, calendar: string, r: RepairBatch, generation: nat, now: int): Cache
  {
    match r.outcome
    case ReplaceMembership => ApplyBatch(c, calendar, RepairAsBatch(calendar, r), generation, now)
    case Absent => ObjectsDeleted(c, [r.objectId], generation)
    case StillQuarantined =>
      if r.warning.None? then c else
      var q := Warn(c.quarantine, r.objectId, r.warning.value.etag, now);
      c.(quarantine := if r.nextRepair.None? then q
                       else q[r.objectId := q[r.objectId].(nextRepair := r.nextRepair.value, attempts := q[r.objectId].attempts + 1)])
  }

  function RepairAsBatch(calendar: string, r: RepairBatch): Batch
  {
    var owned := seq(|r.upserts|, i requires 0 <= i < |r.upserts| =>
      CachedUpsert(r.objectId, r.upserts[i].event.(calendarId := calendar)));
    Batch(false, owned, [], [], [r.objectId], [], false, true, "", None)
  }

  function Repair(c: Calendar, claim: Claim, r: RepairBatch, now: int): Result<Calendar>
  {
    if c.sync.None? || !Holds(c.sync.value, claim, now) then Err(LeaseLost)
    else if !ValidRepair(r) then Err(Rejected)
    else Ok(c.(cache := RepairedCache(c.cache, c.id, r, claim.generation, now)))
  }

  /** The operator grants one mutation of this object version and makes its repair due. */
  function Grant(c: Calendar, objectId: string, etag: string, now: int): Result<Calendar>
  {
    if objectId == "" || etag == "" || !ActiveObject(c.cache.quarantine, objectId) then Err(NotFound)
    else
      var row := c.cache.quarantine[objectId];
      if row.etag != etag then Err(ETagMismatch)
      else
        var due := row.(authorized := etag, nextRepair := if row.nextRepair > now then now else row.nextRepair);
        var sync := if c.sync.Some? && c.sync.value.nextSync > now && (c.sync.value.owner.None? || c.sync.value.Unleased(now))
                    then Some(c.sync.value.(nextSync := now)) else c.sync;
        Ok(c.(sync := sync, cache := c.cache.(quarantine := c.cache.quarantine[objectId := due])))
  }

  /** The authorization row the consuming statement matches. */
  predicate Spends(c: Calendar, objectId: string, etag: string)
  {
    ActiveObject(c.cache.quarantine, objectId)
    && c.cache.quarantine[objectId].etag == etag && c.cache.quarantine[objectId].authorized == etag
  }

  function Consume(c: Calendar, claim: Claim, objectId: string, etag: string, now: int): Result<Calendar>
  {
    if objectId == "" || etag == "" || c.sync.None? || !Holds(c.sync.value, claim, now) then Err(LeaseLost)
    else if !Spends(c, objectId, etag) then Ok(c)
    else Ok(c.(cache := c.cache.(quarantine :=
           c.cache.quarantine[objectId := c.cache.quarantine[objectId].(authorized := "")])))
  }

  function WriteThrough(c: Calendar, e: Event): Result<Calendar>
  {
    if e.calendarId != c.id || e.id == "" || !ValidRange(e.start, e.end) then Err(Rejected)
    else if c.sync.None? then Err(NotFound)
    else Ok(c.(cache := c.cache.(rows := PutRow(c.cache.rows, e.id, e, c.sync.value.generation))))
  }

  function WriteDelete(c: Calendar, id: string): Result<Calendar>
  {
    if id == "" then Err(Rejected)
    else if c.sync.None? then Err(NotFound)
    else Ok(c.(cache := c.cache.(rows := Bury(c.cache.rows, id, c.sync.value.generation))))
  }

  /** ApplyProjectionStagedPage: stage a page that is not the last and apply it to the cache in one transaction. */
  function ApplyStaged(c: Calendar, claim: Claim, attemptId: string, d: Delivery, now: int): Result<Calendar>
  {
    if d.page.complete then Err(Rejected)
    else
      var archive := Append(c, claim, attemptId, d, now);
      if archive.Err? then Err(archive.error)
      else if !ValidBatch(c.id, PageBatch(d.page)) then Err(Rejected)
      else Ok(c.(archive := archive.value, cache := ApplyBatch(c.cache, c.id, PageBatch(d.page), claim.generation, now)))
  }

  /** finalizeSourceProjectionPage: stage the last page and finalize, in one transaction. */
  ghost function FinalPage(zones: Zones, c: Calendar, claim: Claim, attemptId: string, d: Delivery, nextSync: int, clocks: Clocks): Result<Calendar>
  {
    if !d.page.complete then Err(PageStage)
    else
      var archive := Append(c, claim, attemptId, d, clocks.start);
      if archive.Err? then Err(archive.error) else Finalize(zones, c.(archive := archive.value), claim, nextSync, clocks)
  }

  /** DeferCalendarSyncForReservation restores ready only when the published snapshot still matches. */
  predicate StillPublished(c: Calendar)
    requires c.sync.Some?
  {
    var a, s := c.archive, c.sync.value;
    && a.revision in a.snapshots && a.intents == {}
    && var p := a.snapshots[a.revision];
       && p.verified && p.epoch == a.epoch && p.cursor == s.cursor != "" && p.lo == s.lo && p.hi == s.hi
       && p.timezone == c.source.timezone && c.source.Usable() && c.source.provider == "google"
       && s.lastSuccess.Some? && p.completed <= s.lastSuccess.value
  }

  // --- the transition function -----------------------------------------------------------------

  datatype Action =
    | Configure(source: Source)
    | VerifyConnection(connected: bool, now: int)
    | SetEnabled(enabled: bool, now: int)
    | EnsureState(lo: int, hi: int, now: int, fenced: bool)
    | ClaimSync(worker: string, now: int, until: int, fenced: bool)
    | RenewLease(claim: Claim, now: int, until: int)
    | ResetSync(claim: Claim, now: int)
    | FailSync(claim: Claim, code: string, now: int, next: int)
    | ParkSync(claim: Claim, code: string, now: int)
    | ScheduleSync(now: int, resetCursor: bool)
    | DeferSync(claim: Claim, now: int, next: int)
    | SyncPage(claim: Claim, batch: Batch, final: bool, now: int)
    | RepairObject(claim: Claim, repair: RepairBatch, now: int)
    | GrantRepair(objectId: string, etag: string, now: int)
    | ConsumeGrant(claim: Claim, objectId: string, etag: string, now: int)
    | PutEvent(event: Event)
    | DeleteEvent(eventId: string)
    | StartPages(claim: Claim, input: AttemptInput, now: int)
    | AppendPage(claim: Claim, attemptId: string, delivery: Delivery, now: int)
    | StagePage(claim: Claim, attemptId: string, delivery: Delivery, now: int)
    | FinishPages(claim: Claim, attemptId: string, delivery: Delivery, nextSync: int, clocks: Clocks)
    | BeginMutation(mutation: string)
    | ResolveMutation(mutation: string)
    | FenceMutation(operation: string)
    | UnfenceMutation(operation: string, now: int)
    | StageCandidate(stage: Stage)
    | PublishCandidate(stageId: string)
    | DiscardCandidate(stageId: string)
    | ReferTo(pins: map<string, Pin>, references: set<nat>)

  /** Intents of shared operations carry a prefix no single mutation ID may contain. */
  function OperationIntent(operation: string): string
  {
    ":" + operation
  }

  function WithSync(c: Calendar, r: Result<SyncState>): Result<Calendar>
  {
    if r.Err? then Err(r.error) else Ok(c.(sync := Some(r.value)))
  }

  function WithArchive(c: Calendar, r: Result<Archive>): Result<Calendar>
  {
    if r.Err? then Err(r.error) else Ok(c.(archive := r.value))
  }

  /** UpdateConnectionVerification, as far as one calendar of the connection is concerned. */
  function Verify(c: Calendar, connected: bool, now: int): Calendar
  {
    var sync := if connected && c.sync.Some? then Some(Reconnected(c.sync.value, now)) else c.sync;
    c.(source := c.source.(connected := connected), sync := sync)
  }

  /** SetCalendarEnabled; a repeated choice changes nothing. */
  function SelectCalendar(c: Calendar, enabled: bool, now: int): Calendar
  {
    if c.source.enabled == enabled then c
    else
      var sync := if c.sync.Some? then Some(Reselected(c.sync.value, enabled, now)) else None;
      c.(source := c.source.(enabled := enabled), sync := sync)
  }

  function SyncStep(c: Calendar, a: Action): Result<Calendar>
    requires c.sync.Some?
  {
    var s := c.sync.value;
    match a
    case ClaimSync(worker, now, until, fenced) => WithSync(c, ClaimDue(s, c.source, worker, now, until, fenced))
    case RenewLease(claim, now, until) => WithSync(c, Renew(s, claim, now, until))
    case ResetSync(claim, now) => WithSync(c, Reset(s, claim, now))
    case FailSync(claim, code, now, next) => WithSync(c, Fail(s, claim, code, now, next))
    case ParkSync(claim, code, now) => WithSync(c, Park(s, c.source, claim, code, now))
    case ScheduleSync(now, resetCursor) => WithSync(c, Schedule(s, c.source, now, resetCursor))
    case DeferSync(claim, now, next) =>
      WithSync(c, Defer(s, claim, now, next, AnyActive(c.cache.quarantine), StillPublished(c)))
    case _ => Err(Rejected)
  }

  /** A shared operation fences this calendar. */
  function Fence(c: Calendar, operation: string): Result<Calendar>
  {
    WithArchive(c, Begin(c.archive, OperationIntent(operation)))
  }

  /** The shared operation is over: its intent goes and an existing sync row starts from scratch. */
  function Unfence(c: Calendar, operation: string, now: int): Result<Calendar>
  {
    var ended := WithArchive(c, End(c.archive, OperationIntent(operation)));
    if ended.Err? || c.sync.None? then ended else Ok(ended.value.(sync := Some(Invalidate(c.sync.value, now))))
  }

  ghost function Next(zones: Zones, c: Calendar, a: Action): Result<Calendar>
  {
    match a
    case Configure(source) => Ok(c.(source := source))
    case VerifyConnection(connected, now) => Ok(Verify(c, connected, now))
    case SetEnabled(enabled, now) => Ok(SelectCalendar(c, enabled, now))
    case EnsureState(lo, hi, now, fenced) => WithSync(c, Ensure(c.sync, c.source, lo, hi, now, fenced))
    case SyncPage(claim, batch, final, now) => ApplyPage(c, claim, batch, final, now)
    case RepairObject(claim, repair, now) => Repair(c, claim, repair, now)
    case GrantRepair(objectId, etag, now) => Grant(c, objectId, etag, now)
    case ConsumeGrant(claim, objectId, etag, now) => Consume(c, claim, objectId, etag, now)
    case PutEvent(event) => WriteThrough(c, event)
    case DeleteEvent(id) => WriteDelete(c, id)
    case StartPages(claim, input, now) => WithArchive(c, StartAttempt(zones, c, claim, input, now))
    case AppendPage(claim, attemptId, delivery, now) => WithArchive(c, Append(c, claim, attemptId, delivery, now))
    case StagePage(claim, attemptId, delivery, now) => ApplyStaged(c, claim, attemptId, delivery, now)
    case FinishPages(claim, attemptId, delivery, nextSync, clocks) =>
      FinalPage(zones, c, claim, attemptId, delivery, nextSync, clocks)
    case BeginMutation(m) => if ValidMutationId(m) then WithArchive(c, Begin(c.archive, m)) else Err(Rejected)
    case ResolveMutation(m) => if ValidMutationId(m) then WithArchive(c, End(c.archive, m)) else Err(Rejected)
    case FenceMutation(op) => Fence(c, op)
    case UnfenceMutation(op, now) => Unfence(c, op, now)
    case StageCandidate(stage) => WithArchive(c, StageSnapshot(zones, c.archive, stage))
    case PublishCandidate(stageId) => if ValidMutationId(stageId) then WithArchive(c, Publish(c.archive, stageId)) else Err(Rejected)
    case DiscardCandidate(stageId) => if ValidMutationId(stageId) then WithArchive(c, Discard(c.archive, stageId)) else Err(Rejected)
    case ReferTo(pins, references) => WithArchive(c, Refer(c.archive, pins, references))
    case _ => if c.sync.None? then Err(LeaseLost) else SyncStep(c, a)
  }

  /** A refused transaction rolls back. */
  ghost function Apply(zones: Zones, c: Calendar, a: Action): Calendar
  {
    var r := Next(zones, c, a);
    if r.Ok? then r.value else c
  }

  // --- the read gate --------------------------------------------------------------------------------

  /** InspectProjectionSnapshotCandidate returns the guard's current snapshot. */
  predicate Inspects(zones: Zones, c: Calendar, lo: int, hi: int, now: int, maxAge: int)
  {
    var a := c.archive;
    && lo < hi && maxAge > 0 && c.sync.Some? && a.revision in a.snapshots
    && var p, s := a.snapshots[a.revision], c.sync.value;
       && p.verified && LoadableZone(zones, c.source.timezone) && c.source.timezone == p.timezone && c.source.Usable()
       && s.status == Ready && a.intents == {} && !AnyActive(c.cache.quarantine) && a.epoch == p.epoch
       && p.cursor != "" && s.cursor == p.cursor && s.lastSuccess.Some? && p.completed <= s.lastSuccess.value
       && p.lo == s.lo && p.hi == s.hi && p.lo <= lo && hi <= p.hi && p.completed <= now && now - p.completed <= maxAge
  }
}
