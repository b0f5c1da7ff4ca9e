/** Safety over every run of one calendar's transactions: arbitrary actions, claims and clock samples. */
module CalendarRuns {
  import opened Base
  import opened Strings
  import opened Events
  import opened Materializer
  import opened Payload
  import opened PageChain
  import opened EventCache
  import opened SyncLease
  import opened Calendars

  /** One committed or refused transaction. */
  ghost predicate Step(zones: Zones, c: Calendar, a: Action, e: Calendar)
  {
    e == Apply(zones, c, a)
  }

  /** A run: the rows before, between and after a sequence of actions. */
  ghost predicate Run(zones: Zones, tr: seq<Calendar>, acts: seq<Action>)
  {
    && |tr| == |acts| + 1
    && forall k | 0 <= k < |acts| :: Step(zones, tr[k], acts[k], tr[k + 1])
  }

  // --- what one step does to the archive -----------------------------------------

  ghost predicate StartEffect(a: Archive, b: Archive, g: nat, inp: AttemptInput)
  {
    && b == a.(attempts := b.attempts) && Guarded(b, inp.epoch, inp.baseRevision)
    && g !in a.attempts
    && (forall h | h in b.attempts && h != g :: h in a.attempts && b.attempts[h] == a.attempts[h])
    && g in b.attempts && Fresh(b.attempts[g])
    && b.attempts[g].id == inp.id && b.attempts[g].epoch == inp.epoch
    && b.attempts[g].baseRevision == inp.baseRevision && b.attempts[g].mode == inp.mode
  }

  lemma StartedAttempt(zones: Zones, c: Calendar, claim: Claim, inp: AttemptInput, now: int)
    requires StartAttempt(zones, c, claim, inp, now).Ok?
    ensures StartEffect(c.archive, StartAttempt(zones, c, claim, inp, now).value, claim.generation, inp)
    ensures c.sync.Some? && Holds(c.sync.value, claim, now)
  {
    hide LoadableZone, SourceMatches, MatchingBase, Holds, ValidMutationId;
  }

  ghost predicate AppendEffect(calendar: string, a: Archive, b: Archive, g: nat, d: Delivery)
  {
    && WellFormed(calendar, d) && g in a.attempts && g in b.attempts
    && b == a.(attempts := a.attempts[g := b.attempts[g]])
    && PageChain.Stage(calendar, a.attempts[g], d) == Ok(b.attempts[g])
    && Guarded(a, a.attempts[g].epoch, a.attempts[g].baseRevision)
    && b.attempts[g] == a.attempts[g].(
         nextOrdinal := b.attempts[g].nextOrdinal, nextToken := b.attempts[g].nextToken, total := b.attempts[g].total,
         complete := d.page.complete, finalCursor := d.page.nextCursor,
         pages := a.attempts[g].pages + [RecordOf(calendar, d)])
  }

  lemma Appended(c: Calendar, claim: Claim, attemptId: string, d: Delivery, now: int)
    requires Append(c, claim, attemptId, d, now).Ok?
    ensures AppendEffect(c.id, c.archive, Append(c, claim, attemptId, d, now).value, claim.generation, d)
    ensures c.sync.Some? && Holds(c.sync.value, claim, now)
  {
    hide WellFormed, RecordOf, Holds, SourceMatches, ValidMutationId, Size;
  }

  ghost predicate FinalEffect(a: Archive, b: Archive, g: nat, t: Attempt, completed: int, payload: Json, observations: seq<Observation>)
  {
    && b.epoch == a.epoch && b.intents == a.intents && b.revision == t.baseRevision + 1
    && b.attempts == a.attempts - {g} && b.stage == a.stage
    && Extended(a.snapshots, b.snapshots, b.revision, NewSnapshot(t, completed, payload, observations))
    && |b.snapshots| <= SNAPSHOT_LIMIT
  }

  /** One new revision; of the others, only older ones may have gone. */
  ghost predicate Extended(x: map<nat, Snapshot>, y: map<nat, Snapshot>, revision: nat, s: Snapshot)
  {
    && revision in y && y[revision] == s
    && (forall q | q in y && q != revision :: q in x && y[q] == x[q])
    && (forall q | q in x && q !in y :: q < revision)
  }

  lemma ArchivedFacts(a: Archive, g: nat, t: Attempt, completed: int, payload: Json, observations: seq<Observation>)
    requires Archived(a, g, t, completed, payload, observations).Ok?
    ensures FinalEffect(a, Archived(a, g, t, completed, payload, observations).value, g, t, completed, payload, observations)
  {
    hide ReleaseRetained, Retirable, StageIdUsed, Store, Retire, FinalEffect, Released;
    ReleasedFacts(a, t.baseRevision, observations);
    var free := ReleaseRetained(a, t.baseRevision, observations);
    StoredFacts(a, free, g, t, completed, payload, observations);
    RetiredFacts(a, Store(free, g, t.baseRevision + 1, NewSnapshot(t, completed, payload, observations)),
                 g, t, completed, payload, observations);
  }

  lemma StoredFacts(a: Archive, free: Archive, g: nat, t: Attempt, completed: int, payload: Json, observations: seq<Observation>)
    requires Released(a, free, t.baseRevision)
    requires t.baseRevision + 1 !in free.snapshots && |free.snapshots| < SNAPSHOT_LIMIT
    ensures FinalEffect(a, Store(free, g, t.baseRevision + 1, NewSnapshot(t, completed, payload, observations)),
                        g, t, completed, payload, observations)
  {
    var s, r := NewSnapshot(t, completed, payload, observations), t.baseRevision + 1;
    SnapshotsExtended(a.snapshots, free.snapshots, t.baseRevision, s);
    hide NewSnapshot, Extended, FinalEffect;
    FinalEffectIs(a, Store(free, g, r, s), g, t, completed, payload, observations);
  }

  lemma RetiredFacts(a: Archive, b: Archive, g: nat, t: Attempt, completed: int, payload: Json, observations: seq<Observation>)
    requires FinalEffect(a, b, g, t, completed, payload, observations)
    ensures FinalEffect(a, Retire(b, t.baseRevision), g, t, completed, payload, observations)
  {
    hide Retirable, NewSnapshot;
    var less := b.snapshots - {t.baseRevision};
    assert less.Keys == b.snapshots.Keys - {t.baseRevision};
    SubsetSize(less.Keys, b.snapshots.Keys);
    hide FinalEffect;
    FinalEffectIs(a, b.(snapshots := less), g, t, completed, payload, observations);
  }

  lemma FinalEffectIs(a: Archive, b: Archive, g: nat, t: Attempt, completed: int, payload: Json, observations: seq<Observation>)
    requires b.epoch == a.epoch && b.intents == a.intents && b.revision == t.baseRevision + 1
    requires b.attempts == a.attempts - {g} && b.stage == a.stage
    requires Extended(a.snapshots, b.snapshots, b.revision, NewSnapshot(t, completed, payload, observations))
    requires |b.snapshots| <= SNAPSHOT_LIMIT
    ensures FinalEffect(a, b, g, t, completed, payload, observations)
  {
    hide Extended, NewSnapshot;
  }

  lemma SnapshotsExtended(x: map<nat, Snapshot>, free: map<nat, Snapshot>, base: nat, s: Snapshot)
    requires base + 1 !in free && |free| < SNAPSHOT_LIMIT
    requires forall q | q in free :: q in x && free[q] == x[q]
    requires forall q | q in x && q !in free :: q < base
    ensures Extended(x, free[base + 1 := s], base + 1, s) && |free[base + 1 := s]| <= SNAPSHOT_LIMIT
  {
    assert free[base + 1 := s].Keys == free.Keys + {base + 1};
  }

  ghost predicate Released(a: Archive, b: Archive, current: nat)
  {
    && b.epoch == a.epoch && b.revision == a.revision && b.intents == a.intents && b.attempts == a.attempts
    && b.stage == a.stage && b.references == a.references
    && (forall q | q in b.snapshots :: q in a.snapshots && b.snapshots[q] == a.snapshots[q])
    && (forall q | q in a.snapshots && q !in b.snapshots :: q < current)
  }

  lemma ReleasedFacts(a: Archive, current: nat, observations: seq<Observation>)
    ensures Released(a, ReleaseRetained(a, current, observations), current)
  {
    hide ObservationSize, Retirable;
  }

  /** The decisions of a committed finalization. */
  lemma Finalized(zones: Zones, c: Calendar, claim: Claim, attemptId: string, d: Delivery, nextSync: int, clocks: Clocks)
    requires FinalPage(zones, c, claim, attemptId, d, nextSync, clocks).Ok?
    ensures Append(c, claim, attemptId, d, clocks.start).Ok?
    ensures var mid := c.(archive := Append(c, claim, attemptId, d, clocks.start).value);
            var e := FinalPage(zones, c, claim, attemptId, d, nextSync, clocks).value;
            && mid.sync.Some? && claim.generation in mid.archive.attempts
            && var t := mid.archive.attempts[claim.generation];
               && Prepare(zones, mid, claim, t).Ok?
               && var p := Prepare(zones, mid, claim, t).value;
                  && Archived(mid.archive, claim.generation, t, clocks.completed, p.payload, p.observations) == Ok(e.archive)
                  && Replayable(c.id, p.pages)
                  && var cache := Replay(c.cache, c.id, p.pages, claim.generation, clocks.applied);
                     && e.cache == cache.(rows := if t.mode.Replacement? then Swept(cache, claim.generation) else cache.rows)
                     && e.sync.Some? && e.id == c.id && e.source == c.source
                     && Finish(c.sync.value, claim, AnyActive(cache.quarantine), t.finalCursor, Some(nextSync), clocks.applied)
                        == Ok(e.sync.value)
  {
    hide Prepare, Archived, Replay, Swept, Finish, Replayable, AnyActive;
    Appended(c, claim, attemptId, d, clocks.start);
  }

  lemma Prepared(zones: Zones, c: Calendar, claim: Claim, t: Attempt)
    requires c.sync.Some? && Prepare(zones, c, claim, t).Ok?
    ensures var p := Prepare(zones, c, claim, t).value;
            && Guarded(c.archive, t.epoch, t.baseRevision) && !AnyActive(c.cache.quarantine)
            && t.complete && t.owner == claim.owner
            && Carried(c.archive, t.baseRevision).Ok?
            && p.observations == Carried(c.archive, t.baseRevision).value + p.result.observations
            && BaseEvents(c, t).Ok?
            && ReadChain(c.id, t.timezone, t.finalCursor, t.nextToken, t.total, t.pages) == Ok(p.pages)
            && Materialize(MaterializeInput(zones, c, t, BaseEvents(c, t).value, p.pages)) == Ok(p.result)
            && EncodeSnapshotPayload(p.result.events, c.id) == Ok(p.payload)
            && Size(p.payload) <= SNAPSHOT_SIZE_LIMIT
  {
    hide Materialize, ReadChain, EncodeSnapshotPayload, BaseEvents, Carried, ObservationSize, SourceMatches, AnyActive, Size;
  }

  /** The attempt of this generation, under its identity and epoch. */
  ghost predicate HasAttempt(c: Calendar, g: nat, id: string, epoch: nat)
  {
    g in c.archive.attempts && c.archive.attempts[g].id == id && c.archive.attempts[g].epoch == epoch
  }

  /** The step stored this attempt, which was not there before, under an undisturbed guard. */
  ghost predicate Begins(c: Calendar, a: Action, e: Calendar, g: nat, id: string, epoch: nat)
  {
    && a.StartPages? && a.claim.generation == g && a.input.id == id && g !in c.archive.attempts
    && HasAttempt(e, g, id, epoch) && e.archive.epoch == epoch && e.archive.intents == {}
  }

  /** The step used up this attempt and stored the snapshot as the current revision. */
  ghost predicate PublishesAttempt(c: Calendar, a: Action, e: Calendar, g: nat, r: nat, s: Snapshot)
  {
    && a.FinishPages? && a.claim.generation == g && HasAttempt(c, g, s.stageId, s.epoch) && g !in e.archive.attempts
    && e.archive.revision == r && r in e.archive.snapshots && e.archive.snapshots[r] == s
  }

  /** Every attempt and every verified snapshot of the next state was there before, or the step made it. */
  ghost predicate Inherits(c: Calendar, a: Action, e: Calendar)
  {
    && (forall g | g in e.archive.attempts ::
          || HasAttempt(c, g, e.archive.attempts[g].id, e.archive.attempts[g].epoch)
          || Begins(c, a, e, g, e.archive.attempts[g].id, e.archive.attempts[g].epoch))
    && (forall r | r in e.archive.snapshots && e.archive.snapshots[r].verified ::
          || (r in c.archive.snapshots && c.archive.snapshots[r] == e.archive.snapshots[r])
          || (a.FinishPages? && PublishesAttempt(c, a, e, a.claim.generation, r, e.archive.snapshots[r])))
  }

  ghost predicate EpochLaw(c: Calendar, e: Calendar)
  {
    c.archive.epoch <= e.archive.epoch && (c.archive.epoch == e.archive.epoch ==> c.archive.intents == e.archive.intents)
  }

  predicate TouchesArchive(a: Action)
  {
    ChangesAttempts(a) || a.FinishPages? || ChangesIntents(a) || ChangesCandidates(a)
  }

  predicate ChangesAttempts(a: Action) { a.StartPages? || a.AppendPage? || a.StagePage? }

  predicate ChangesIntents(a: Action) { a.BeginMutation? || a.ResolveMutation? || a.FenceMutation? || a.UnfenceMutation? }

  predicate ChangesCandidates(a: Action) { a.StageCandidate? || a.PublishCandidate? || a.DiscardCandidate? || a.ReferTo? }

  lemma ArchiveUntouched(zones: Zones, c: Calendar, a: Action, e: Calendar)
    requires Step(zones, c, a, e) && !TouchesArchive(a)
    ensures e.archive == c.archive
  {
    hide ApplyBatch, Swept, Finish, Holds, ValidBatch, Ensure, ClaimDue, Renew, Reset, Fail, Park, Schedule, Defer,
         StillPublished, ValidRepair, RepairedCache, AnyActive;
  }

  /** Begin and resolve: the epoch rises by one and only the intents change with it. */
  lemma IntentEffect(zones: Zones, c: Calendar, a: Action, e: Calendar)
    requires Step(zones, c, a, e) && ChangesIntents(a) && e != c
    ensures e.archive == c.archive.(epoch := c.archive.epoch + 1, intents := e.archive.intents)
  {
    hide ValidMutationId, Invalidate, SyncStep, ApplyPage, Repair, Grant, Consume, WriteThrough, WriteDelete, StartAttempt, Append,
         ApplyStaged, FinalPage, StageSnapshot, Publish, Discard, Refer, Ensure, OperationIntent;
  }

  /** Staged candidates and references: no verified row is added and none is lost. */
  ghost predicate CandidateEffect(x: Archive, y: Archive)
  {
    && x.attempts == y.attempts && x.epoch == y.epoch && x.intents == y.intents
    && ((y.revision == x.revision && y.snapshots == x.snapshots)
        || exists s: Snapshot :: !s.verified && y.revision == x.revision + 1 && y.revision !in x.snapshots
             && |x.snapshots| < SNAPSHOT_LIMIT && y.snapshots == x.snapshots[y.revision := s])
  }

  lemma CandidateEffects(zones: Zones, c: Calendar, a: Action, e: Calendar)
    requires Step(zones, c, a, e) && ChangesCandidates(a)
    ensures CandidateEffect(c.archive, e.archive)
  {
    hide Size, LoadableZone, StageIdUsed, ValidMutationId;
    if a.PublishCandidate? {
      PublishEffect(c.archive, a.stageId);
    }
    hide CandidateEffect;
  }

  lemma PublishEffect(a: Archive, stageId: string)
    ensures CandidateEffect(a, a)
    ensures Publish(a, stageId).Ok? ==> CandidateEffect(a, Publish(a, stageId).value)
  {
    hide StageIdUsed;
  }

  /** Attempts only start fresh or grow by one page, and only under the guard they were started with. */
  ghost predicate AttemptEffect(c: Calendar, a: Action, e: Calendar)
  {
    || e.archive == c.archive
    || (a.StartPages? && StartEffect(c.archive, e.archive, a.claim.generation, a.input))
    || ((a.AppendPage? || a.StagePage?) && AppendEffect(c.id, c.archive, e.archive, a.claim.generation, a.delivery))
  }

  lemma AttemptEffects(zones: Zones, c: Calendar, a: Action, e: Calendar)
    requires Step(zones, c, a, e) && ChangesAttempts(a)
    ensures AttemptEffect(c, a, e)
  {
    hide StartAttempt, Append, ApplyBatch, ValidBatch, PageBatch, StartEffect, AppendEffect;
    if Next(zones, c, a).Ok? {
      match a {
        case StartPages(claim, input, now) => StartedAttempt(zones, c, claim, input, now);
        case AppendPage(claim, id, d, now) => Appended(c, claim, id, d, now);
        case StagePage(claim, id, d, now) => Appended(c, claim, id, d, now);
        case _ =>
      }
    }
  }

  /** A committed finalization: the last page is appended and the attempt becomes the current revision. */
  ghost predicate FinishEffect(c: Calendar, a: Action, e: Calendar)
    requires a.FinishPages?
  {
    exists mid: Archive, t: Attempt, payload: Json, observations: seq<Observation> ::
      && AppendEffect(c.id, c.archive, mid, a.claim.generation, a.delivery)
      && t == mid.attempts[a.claim.generation]
      && FinalEffect(mid, e.archive, a.claim.generation, t, a.clocks.completed, payload, observations)
      && Carried(mid, t.baseRevision).Ok? && Carried(mid, t.baseRevision).value <= observations
  }

  lemma FinishEffects(zones: Zones, c: Calendar, a: Action, e: Calendar)
    requires Step(zones, c, a, e) && a.FinishPages?
    ensures e.archive == c.archive || FinishEffect(c, a, e)
  {
    hide FinalPage, AppendEffect, FinalEffect, Append, Archived;
    if Next(zones, c, a).Ok? {
      FinalPageEffect(zones, c, a, e);
    }
    hide FinishEffect;
  }

  lemma FinalPageEffect(zones: Zones, c: Calendar, a: Action, e: Calendar)
    requires a.FinishPages?
    requires FinalPage(zones, c, a.claim, a.attemptId, a.delivery, a.nextSync, a.clocks) == Ok(e)
    ensures FinishEffect(c, a, e)
  {
    hide FinalPage, Append, Archived, AppendEffect, FinalEffect, Prepare, Carried, Replay, Swept, Finish, Replayable, AnyActive;
    Finalized(zones, c, a.claim, a.attemptId, a.delivery, a.nextSync, a.clocks);
    Appended(c, a.claim, a.attemptId, a.delivery, a.clocks.start);
    var mid := c.(archive := Append(c, a.claim, a.attemptId, a.delivery, a.clocks.start).value);
    var t := mid.archive.attempts[a.claim.generation];
    var p := Prepare(zones, mid, a.claim, t).value;
    Prepared(zones, mid, a.claim, t);
    ArchivedFacts(mid.archive, a.claim.generation, t, a.clocks.completed, p.payload, p.observations);
  }

  /** Every begin and every resolve raises the epoch; nothing else changes it or the pending intents. */
  lemma StepLaws(zones: Zones, c: Calendar, a: Action, e: Calendar)
    requires Step(zones, c, a, e)
    ensures EpochLaw(c, e) && Inherits(c, a, e)
  {
    hide Step;
    if !TouchesArchive(a) {
      ArchiveUntouched(zones, c, a, e);
    } else if ChangesIntents(a) {
      if e != c {
        IntentEffect(zones, c, a, e);
      }
    } else if ChangesCandidates(a) {
      CandidateEffects(zones, c, a, e);
    } else if ChangesAttempts(a) {
      AttemptEffects(zones, c, a, e);
      AttemptInherits(c, a, e);
    } else {
      FinishEffects(zones, c, a, e);
      if e.archive != c.archive {
        FinishInherits(c, a, e);
      }
    }
  }

  lemma AttemptInherits(c: Calendar, a: Action, e: Calendar)
    requires AttemptEffect(c, a, e)
    ensures EpochLaw(c, e) && Inherits(c, a, e)
  {
    hide WellFormed, RecordOf, PageChain.Stage, Fresh;
  }

  lemma FinishInherits(c: Calendar, a: Action, e: Calendar)
    requires a.FinishPages? && FinishEffect(c, a, e)
    ensures EpochLaw(c, e) && Inherits(c, a, e)
  {
    hide WellFormed, RecordOf, PageChain.Stage, Carried;
    var mid, t, payload, observations :|
      && AppendEffect(c.id, c.archive, mid, a.claim.generation, a.delivery)
      && t == mid.attempts[a.claim.generation]
      && FinalEffect(mid, e.archive, a.claim.generation, t, a.clocks.completed, payload, observations);
    assert c.archive.attempts[a.claim.generation].id == t.id && c.archive.attempts[a.claim.generation].epoch == t.epoch;
  }

  // --- no mutation between an attempt's start and the read -------------------------------

  lemma {:induction false} EpochsGrow(zones: Zones, tr: seq<Calendar>, acts: seq<Action>, i: nat, j: nat)
    requires Run(zones, tr, acts) && i <= j < |tr|
    ensures EpochLaw(tr[i], tr[j])
    decreases j
  {
    hide Step, Inherits;
    if i < j {
      EpochsGrow(zones, tr, acts, i, j - 1);
      StepLaws(zones, tr[j - 1], acts[j - 1], tr[j]);
    }
  }

  /** Step i stored the attempt, and it is still the same attempt at every moment up to k. */
  ghost predicate OpenSince(tr: seq<Calendar>, acts: seq<Action>, i: nat, k: nat, g: nat, id: string, epoch: nat)
  {
    && i < k < |tr| && i < |acts| && Begins(tr[i], acts[i], tr[i + 1], g, id, epoch)
    && forall m | i < m <= k :: HasAttempt(tr[m], g, id, epoch)
  }

  /** Step f published the snapshot from the attempt of generation g, and it is stored ever since, up to k. */
  ghost predicate StoredSince(tr: seq<Calendar>, acts: seq<Action>, f: nat, k: nat, g: nat, r: nat, s: Snapshot)
  {
    && f < k < |tr| && f < |acts| && PublishesAttempt(tr[f], acts[f], tr[f + 1], g, r, s)
    && forall m | f < m <= k :: r in tr[m].archive.snapshots && tr[m].archive.snapshots[r] == s
  }

  /** The snapshot was published at f from the very attempt that step i stored. */
  ghost predicate BuiltBy(tr: seq<Calendar>, acts: seq<Action>, i: nat, f: nat, k: nat, g: nat, r: nat, s: Snapshot)
  {
    OpenSince(tr, acts, i, f, g, s.stageId, s.epoch) && StoredSince(tr, acts, f, k, g, r, s)
  }

  ghost predicate Empty(c: Calendar)
  {
    c.archive.attempts == map[] && c.archive.snapshots == map[]
  }

  ghost predicate AttemptsSourced(tr: seq<Calendar>, acts: seq<Action>, k: nat)
    requires k < |tr|
  {
    forall g | g in tr[k].archive.attempts ::
      exists i: nat :: OpenSince(tr, acts, i, k, g, tr[k].archive.attempts[g].id, tr[k].archive.attempts[g].epoch)
  }

  ghost predicate SnapshotsSourced(tr: seq<Calendar>, acts: seq<Action>, k: nat)
    requires k < |tr|
  {
    forall r | r in tr[k].archive.snapshots && tr[k].archive.snapshots[r].verified ::
      exists i: nat, f: nat, g: nat :: BuiltBy(tr, acts, i, f, k, g, r, tr[k].archive.snapshots[r])
  }

  /**
   * Every stored attempt was stored by a start under its epoch with nothing pending and has been there since;
   * every verified snapshot was published from such an attempt and has been there since.
   */
  lemma {:induction false} EverythingSourced(zones: Zones, tr: seq<Calendar>, acts: seq<Action>, k: nat)
    requires Run(zones, tr, acts) && Empty(tr[0]) && k < |tr|
    ensures AttemptsSourced(tr, acts, k) && SnapshotsSourced(tr, acts, k)
  {
    hide Step, EpochLaw, Inherits, AttemptsSourced, SnapshotsSourced;
    if k == 0 {
      NothingSourced(tr, acts);
    } else {
      EverythingSourced(zones, tr, acts, k - 1);
      StepLaws(zones, tr[k - 1], acts[k - 1], tr[k]);
      AttemptsStep(tr, acts, k);
      SnapshotsStep(tr, acts, k);
    }
  }

  lemma NothingSourced(tr: seq<Calendar>, acts: seq<Action>)
    requires |tr| > 0 && Empty(tr[0])
    ensures AttemptsSourced(tr, acts, 0) && SnapshotsSourced(tr, acts, 0)
  {
  }

  lemma AttemptsStep(tr: seq<Calendar>, acts: seq<Action>, k: nat)
    requires 0 < k < |tr| == |acts| + 1
    requires AttemptsSourced(tr, acts, k - 1) && Inherits(tr[k - 1], acts[k - 1], tr[k])
    ensures AttemptsSourced(tr, acts, k)
  {
    var c, e := tr[k - 1], tr[k];
    forall g | g in e.archive.attempts
      ensures exists i: nat :: OpenSince(tr, acts, i, k, g, e.archive.attempts[g].id, e.archive.attempts[g].epoch)
    {
      var id, epoch := e.archive.attempts[g].id, e.archive.attempts[g].epoch;
      hide Inherits;
      InheritedAttempt(c, acts[k - 1], e, g);
      if HasAttempt(c, g, id, epoch) {
        var i: nat :| OpenSince(tr, acts, i, k - 1, g, id, epoch);
        assert OpenSince(tr, acts, i, k, g, id, epoch);
      } else {
        assert OpenSince(tr, acts, k - 1, k, g, id, epoch);
      }
    }
  }

  lemma InheritedAttempt(c: Calendar, a: Action, e: Calendar, g: nat)
    requires Inherits(c, a, e) && g in e.archive.attempts
    ensures HasAttempt(c, g, e.archive.attempts[g].id, e.archive.attempts[g].epoch)
         || Begins(c, a, e, g, e.archive.attempts[g].id, e.archive.attempts[g].epoch)
  {
  }

  lemma SnapshotsStep(tr: seq<Calendar>, acts: seq<Action>, k: nat)
    requires 0 < k < |tr| == |acts| + 1
    requires AttemptsSourced(tr, acts, k - 1) && SnapshotsSourced(tr, acts, k - 1) && Inherits(tr[k - 1], acts[k - 1], tr[k])
    ensures SnapshotsSourced(tr, acts, k)
  {
    var c, a, e := tr[k - 1], acts[k - 1], tr[k];
    forall r | r in e.archive.snapshots && e.archive.snapshots[r].verified
      ensures exists i: nat, f: nat, g: nat :: BuiltBy(tr, acts, i, f, k, g, r, e.archive.snapshots[r])
    {
      var s := e.archive.snapshots[r];
      if r in c.archive.snapshots && c.archive.snapshots[r] == s {
        var i: nat, f: nat, g: nat :| BuiltBy(tr, acts, i, f, k - 1, g, r, s);
        StoredOn(tr, acts, i, f, k, g, r, s);
      } else {
        var g := a.claim.generation;
        assert PublishesAttempt(c, a, e, g, r, s);
        var i: nat :| OpenSince(tr, acts, i, k - 1, g, c.archive.attempts[g].id, c.archive.attempts[g].epoch);
        assert StoredSince(tr, acts, k - 1, k, g, r, s);
        assert BuiltBy(tr, acts, i, k - 1, k, g, r, s);
      }
    }
  }

  lemma StoredOn(tr: seq<Calendar>, acts: seq<Action>, i: nat, f: nat, k: nat, g: nat, r: nat, s: Snapshot)
    requires 0 < k < |tr| && BuiltBy(tr, acts, i, f, k - 1, g, r, s)
    requires r in tr[k].archive.snapshots && tr[k].archive.snapshots[r] == s
    ensures BuiltBy(tr, acts, i, f, k, g, r, s)
  {
    hide OpenSince, PublishesAttempt;
  }

  /** No mutation was pending at any moment after step i up to k, and none began or ended in between. */
  ghost predicate NoMutation(tr: seq<Calendar>, i: nat, k: nat, epoch: nat)
  {
    forall m | i < m <= k && m < |tr| :: tr[m].archive.intents == {} && tr[m].archive.epoch == epoch
  }

  /**
   * In every run, a verified snapshot that the read gate accepts was published from an attempt that some step
   * stored, and from that step to the read no mutation intent was pending, begun or resolved.
   */
  lemma AcceptedSnapshotSawNoMutation(zones: Zones, tr: seq<Calendar>, acts: seq<Action>, n: nat, lo: int, hi: int, now: int, maxAge: int)
    requires Run(zones, tr, acts) && Empty(tr[0]) && n < |tr|
    requires Inspects(zones, tr[n], lo, hi, now, maxAge)
    ensures exists i: nat, f: nat, g: nat ::
              && BuiltBy(tr, acts, i, f, n, g, tr[n].archive.revision, tr[n].archive.snapshots[tr[n].archive.revision])
              && NoMutation(tr, i, n, tr[n].archive.epoch)
  {
    hide Step, Inspects, BuiltBy, EpochLaw;
    InspectedGuard(zones, tr[n], lo, hi, now, maxAge);
    EverythingSourced(zones, tr, acts, n);
    var r := tr[n].archive.revision;
    var i: nat, f: nat, g: nat :| BuiltBy(tr, acts, i, f, n, g, r, tr[n].archive.snapshots[r]);
    SinceStart(zones, tr, acts, i, f, n, g, r, tr[n].archive.snapshots[r]);
  }

  /** What the read gate checks of the guard. */
  lemma InspectedGuard(zones: Zones, c: Calendar, lo: int, hi: int, now: int, maxAge: int)
    requires Inspects(zones, c, lo, hi, now, maxAge)
    ensures c.archive.revision in c.archive.snapshots && c.archive.intents == {}
    ensures c.archive.snapshots[c.archive.revision].verified && c.archive.snapshots[c.archive.revision].epoch == c.archive.epoch
  {
  }

  lemma SinceStart(zones: Zones, tr: seq<Calendar>, acts: seq<Action>, i: nat, f: nat, n: nat, g: nat, r: nat, s: Snapshot)
    requires Run(zones, tr, acts) && n < |tr| && BuiltBy(tr, acts, i, f, n, g, r, s) && tr[n].archive.epoch == s.epoch
    ensures NoMutation(tr, i, n, tr[n].archive.epoch)
  {
    hide Step, PublishesAttempt;
    forall m | i < m <= n ensures tr[m].archive.intents == {} && tr[m].archive.epoch == s.epoch {
      EpochsGrow(zones, tr, acts, i + 1, m);
      EpochsGrow(zones, tr, acts, m, n);
    }
  }
}
