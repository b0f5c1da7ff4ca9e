/** Leases, generations and the cursor over every run. */
module LeaseRuns {
  import opened Base
  import opened Events
  import opened PageChain
  import opened EventCache
  import opened SyncLease
  import opened Calendars
  import opened CalendarRuns

  /** The claim an action acts under. */
  function ClaimOf(a: Action): Option<Claim>
  {
    match a
    case RenewLease(claim, _, _) => Some(claim)
    case ResetSync(claim, _) => Some(claim)
    case FailSync(claim, _, _, _) => Some(claim)
    case ParkSync(claim, _, _) => Some(claim)
    case DeferSync(claim, _, _) => Some(claim)
    case SyncPage(claim, _, _, _) => Some(claim)
    case RepairObject(claim, _, _) => Some(claim)
    case ConsumeGrant(claim, _, _, _) => Some(claim)
    case StartPages(claim, _, _) => Some(claim)
    case AppendPage(claim, _, _, _) => Some(claim)
    case StagePage(claim, _, _, _) => Some(claim)
    case FinishPages(claim, _, _, _, _) => Some(claim)
    case _ => None
  }

  /** Some clock sample under which the claim passes the lease check. */
  ghost predicate Passes(c: Calendar, claim: Claim)
  {
    c.sync.Some? && exists now :: Holds(c.sync.value, claim, now)
  }

  predicate Claims(a: Action)
  {
    a.ClaimSync? || a.ResetSync?
  }

  /** What one committed step may do to the sync row. */
  ghost predicate RowLaw(c: Calendar, a: Action, e: Calendar)
  {
    && (c.sync.Some? ==> e.sync.Some? && c.sync.value.generation <= e.sync.value.generation)
    && (e.sync != c.sync && e.sync.Some? ==> KindOf(c, a, e.sync.value))
  }

  /** A changed row: a new claim, a renewal, a rescheduling, a reconnection, an invalidation, or the end of the acting claim. */
  ghost predicate KindOf(c: Calendar, a: Action, s: SyncState)
  {
    || (c.sync.None? && s.status == Pending && s.owner.None?)
    || (c.sync.Some? && var r := c.sync.value;
        || (Claims(a) && s.generation == r.generation + 1 && s.status == Syncing && s.owner.Some? && (s.cursor == r.cursor || s.cursor == ""))
        || (a.RenewLease? && s == r.(until := s.until))
        || (a.GrantRepair? && s == r.(nextSync := s.nextSync))
        || (a.VerifyConnection? && r.status == Status.Parked && s == r.(status := Pending, nextSync := a.now, lastError := None))
        || (s.owner.None? && s.status != Syncing && ClaimOf(a).None? && (s.cursor == r.cursor || (s.cursor == "" && s.generation == r.generation + 1))
            && s.status != Ready)
        || (s.owner.None? && s.generation == r.generation && ClaimOf(a).Some? && Passes(c, ClaimOf(a).value)
            && s.status != Syncing && EndCursor(a, r, s)))
  }

  /** The cursor a claim leaves behind: the final page's on a clean end, otherwise the claim's or the row's own. */
  ghost predicate EndCursor(a: Action, r: SyncState, s: SyncState)
  {
    || s.cursor == r.cursor
    || (ClaimOf(a).Some? && s.cursor == ClaimOf(a).value.cursor)
    || (s.status == Ready && ((a.SyncPage? && a.final && !a.batch.degraded && s.cursor == a.batch.nextCursor) || (a.FinishPages? && s.cursor == a.delivery.page.nextCursor)))
  }

  lemma PageRow(c: Calendar, a: Action, e: Calendar)
    requires a.SyncPage? && ApplyPage(c, a.claim, a.batch, a.final, a.now) == Ok(e)
    ensures RowLaw(c, a, e)
  {
    hide ApplyBatch, Swept, ValidBatch, AnyActive;
  }

  lemma FinishRow(zones: Zones, c: Calendar, a: Action, e: Calendar)
    requires a.FinishPages? && FinalPage(zones, c, a.claim, a.attemptId, a.delivery, a.nextSync, a.clocks) == Ok(e)
    ensures RowLaw(c, a, e) && Passes(c, a.claim)
  {
    Finalized(zones, c, a.claim, a.attemptId, a.delivery, a.nextSync, a.clocks);
    hide FinalPage, Append, Archived, Prepare, Replay, Swept, Replayable, AnyActive;
    var mid := c.(archive := Append(c, a.claim, a.attemptId, a.delivery, a.clocks.start).value);
    var t := mid.archive.attempts[a.claim.generation];
    var p := Prepare(zones, mid, a.claim, t).value;
    var cache := Replay(c.cache, c.id, p.pages, a.claim.generation, a.clocks.applied);
    Appended(c, a.claim, a.attemptId, a.delivery, a.clocks.start);
    hide WellFormed, RecordOf, PageChain.Stage;
    EndedRow(c, a, e, AnyActive(cache.quarantine), t.finalCursor);
  }

  lemma EndedRow(c: Calendar, a: Action, e: Calendar, degraded: bool, cursor: string)
    requires a.FinishPages? && cursor == a.delivery.page.nextCursor && c.sync.Some? && e.sync.Some?
    requires Finish(c.sync.value, a.claim, degraded, cursor, Some(a.nextSync), a.clocks.applied) == Ok(e.sync.value)
    ensures RowLaw(c, a, e) && Passes(c, a.claim)
  {
    assert Holds(c.sync.value, a.claim, a.clocks.applied);
  }

  lemma SyncRow(c: Calendar, a: Action, e: Calendar)
    requires c.sync.Some? && SyncStep(c, a) == Ok(e)
    ensures RowLaw(c, a, e)
  {
    hide AnyActive, StillPublished, SafeCode;
    match a {
      case RenewLease(claim, now, until) => assert Holds(c.sync.value, claim, now);
      case FailSync(claim, code, now, next) => assert Holds(c.sync.value, claim, now);
      case ParkSync(claim, code, now) => assert Holds(c.sync.value, claim, now);
      case DeferSync(claim, now, next) => assert Holds(c.sync.value, claim, now);
      case _ =>
    }
  }

  lemma OtherRow(zones: Zones, c: Calendar, a: Action, e: Calendar)
    requires Step(zones, c, a, e) && !a.SyncPage? && !a.FinishPages?
    requires a.EnsureState? || a.GrantRepair? || a.UnfenceMutation? || a.VerifyConnection? || a.SetEnabled?
    ensures RowLaw(c, a, e)
  {
    hide Begin, End, ActiveObject;
  }

  lemma RowUntouched(zones: Zones, c: Calendar, a: Action, e: Calendar)
    requires Step(zones, c, a, e)
    requires a.Configure? || a.RepairObject? || a.ConsumeGrant? || a.PutEvent? || a.DeleteEvent? || a.StartPages? || a.AppendPage?
             || a.StagePage? || a.BeginMutation? || a.ResolveMutation? || a.FenceMutation? || ChangesCandidates(a)
    ensures e.sync == c.sync
  {
    hide StartAttempt, Append, ApplyBatch, RepairedCache, ValidRepair, ValidBatch, Begin, End, StageSnapshot, Publish, Discard,
         Refer, Spends, Holds, ValidMutationId;
  }

  lemma RowLaws(zones: Zones, c: Calendar, a: Action, e: Calendar)
    requires Step(zones, c, a, e)
    ensures RowLaw(c, a, e)
  {
    if e != c {
      if a.SyncPage? {
        PageRow(c, a, e);
      } else if a.FinishPages? {
        FinishRow(zones, c, a, e);
      } else if a.EnsureState? || a.GrantRepair? || a.UnfenceMutation? || a.VerifyConnection? || a.SetEnabled? {
        OtherRow(zones, c, a, e);
      } else if a.ClaimSync? || a.RenewLease? || a.ResetSync? || a.FailSync? || a.ParkSync? || a.ScheduleSync? || a.DeferSync? {
        SyncRow(c, a, e);
      } else {
        RowUntouched(zones, c, a, e);
      }
      hide Step;
    }
  }

  lemma {:induction false} GenerationsGrow(zones: Zones, tr: seq<Calendar>, acts: seq<Action>, i: nat, j: nat)
    requires Run(zones, tr, acts) && i <= j < |tr| && tr[i].sync.Some?
    ensures tr[j].sync.Some? && tr[i].sync.value.generation <= tr[j].sync.value.generation
    decreases j
  {
    hide Step, KindOf;
    if i < j {
      GenerationsGrow(zones, tr, acts, i, j - 1);
      RowLaws(zones, tr[j - 1], acts[j - 1], tr[j]);
    }
  }

  // --- a superseded claim changes nothing --------------------------------------------

  lemma LeaseCheckRequired(zones: Zones, c: Calendar, a: Action, e: Calendar)
    requires Step(zones, c, a, e) && ClaimOf(a).Some? && e != c
    ensures Passes(c, ClaimOf(a).value)
  {
    if a.FinishPages? {
      FinishRow(zones, c, a, e);
    } else if a.StartPages? || a.AppendPage? || a.StagePage? {
      AttemptHolds(zones, c, a, e);
    } else {
      ClaimHolds(zones, c, a, e);
    }
    hide Step;
  }

  lemma AttemptHolds(zones: Zones, c: Calendar, a: Action, e: Calendar)
    requires Step(zones, c, a, e) && e != c && (a.StartPages? || a.AppendPage? || a.StagePage?)
    ensures Passes(c, a.claim)
  {
    hide StartAttempt, Append, ApplyBatch, ValidBatch, Holds, StartEffect, AppendEffect;
    match a {
      case StartPages(claim, input, now) => StartedAttempt(zones, c, claim, input, now);
      case AppendPage(claim, id, d, now) => Appended(c, claim, id, d, now);
      case StagePage(claim, id, d, now) => Appended(c, claim, id, d, now);
      case _ =>
    }
  }

  lemma ClaimHolds(zones: Zones, c: Calendar, a: Action, e: Calendar)
    requires Step(zones, c, a, e) && e != c && ClaimOf(a).Some?
    requires !a.FinishPages? && !a.StartPages? && !a.AppendPage? && !a.StagePage?
    ensures Passes(c, ClaimOf(a).value)
  {
    hide Holds, ApplyBatch, Swept, ValidBatch, AnyActive, StillPublished, SafeCode, RepairedCache, ValidRepair, Spends, Finish;
    match a {
      case RenewLease(claim, now, until) => assert Holds(c.sync.value, claim, now);
      case ResetSync(claim, now) => assert Holds(c.sync.value, claim, now);
      case FailSync(claim, code, now, next) => assert Holds(c.sync.value, claim, now);
      case ParkSync(claim, code, now) => assert Holds(c.sync.value, claim, now);
      case DeferSync(claim, now, next) => assert Holds(c.sync.value, claim, now);
      case SyncPage(claim, batch, final, now) => assert Holds(c.sync.value, claim, now);
      case RepairObject(claim, repair, now) => assert Holds(c.sync.value, claim, now);
      case ConsumeGrant(claim, objectId, etag, now) => assert Holds(c.sync.value, claim, now);
      case _ =>
    }
  }

  /**
   * Once the generation has moved past a claim, nothing that claim does afterwards changes any row, whatever
   * clock samples it presents.
   */
  lemma SupersededClaimIsInert(zones: Zones, tr: seq<Calendar>, acts: seq<Action>, j: nat, k: nat)
    requires Run(zones, tr, acts) && j <= k < |acts| && ClaimOf(acts[k]).Some?
    requires tr[j].sync.Some? && ClaimOf(acts[k]).value.generation < tr[j].sync.value.generation
    ensures tr[k + 1] == tr[k]
  {
    hide KindOf;
    GenerationsGrow(zones, tr, acts, j, k);
    assert Step(zones, tr[k], acts[k], tr[k + 1]);
    hide Step;
    if tr[k + 1] != tr[k] {
      LeaseCheckRequired(zones, tr[k], acts[k], tr[k + 1]);
    }
  }

  /** Step k handed this claim to a worker. */
  ghost predicate IssuedAt(tr: seq<Calendar>, acts: seq<Action>, k: nat, claim: Claim)
  {
    && k < |acts| && k + 1 < |tr| && Claims(acts[k]) && tr[k + 1].sync != tr[k].sync
    && tr[k + 1].sync.Some? && tr[k + 1].sync.value.owner.Some? && claim == Issued(tr[k + 1].sync.value)
  }

  /** Issuing a claim raises the generation, so at most one issued claim can ever pass the lease check. */
  lemma OneClaimPasses(zones: Zones, tr: seq<Calendar>, acts: seq<Action>, i: nat, x: Claim, j: nat, y: Claim, k: nat)
    requires Run(zones, tr, acts) && i < j < k < |tr|
    requires IssuedAt(tr, acts, i, x) && IssuedAt(tr, acts, j, y)
    ensures x.generation < y.generation && !Passes(tr[k], x)
  {
    hide Step;
    RowLaws(zones, tr[j], acts[j], tr[j + 1]);
    GenerationsGrow(zones, tr, acts, i + 1, j);
    GenerationsGrow(zones, tr, acts, j + 1, k);
  }

  // --- the cursor --------------------------------------------------------------------

  /** Workers only act under claims that were handed out. */
  ghost predicate Honest(tr: seq<Calendar>, acts: seq<Action>)
  {
    forall k | 0 <= k < |acts| && ClaimOf(acts[k]).Some? :: exists i :: 0 <= i < k && IssuedAt(tr, acts, i, ClaimOf(acts[k]).value)
  }

  /** The current claim, if one was issued at this generation, still carries the row's cursor. */
  lemma {:induction false} ClaimKeepsCursor(zones: Zones, tr: seq<Calendar>, acts: seq<Action>, i: nat, claim: Claim, k: nat)
    requires Run(zones, tr, acts) && i < k < |tr| && IssuedAt(tr, acts, i, claim)
    ensures tr[k].sync.Some? && claim.generation <= tr[k].sync.value.generation
    ensures tr[k].sync.value.generation == claim.generation && tr[k].sync.value.status == Syncing ==>
              tr[k].sync.value.cursor == claim.cursor
    decreases k
  {
    hide Step, Passes, RowLaw;
    GenerationsGrow(zones, tr, acts, i + 1, k);
    if i + 1 < k {
      ClaimKeepsCursor(zones, tr, acts, i, claim, k - 1);
      RowLaws(zones, tr[k - 1], acts[k - 1], tr[k]);
      CursorKept(tr[k - 1], acts[k - 1], tr[k], claim);
    }
  }

  /** A row that is syncing in this generation was so before, with the same cursor. */
  lemma CursorKept(c: Calendar, a: Action, e: Calendar, claim: Claim)
    requires RowLaw(c, a, e) && c.sync.Some? && e.sync.Some? && claim.generation <= c.sync.value.generation
    requires c.sync.value.generation == claim.generation && c.sync.value.status == Syncing ==> c.sync.value.cursor == claim.cursor
    ensures e.sync.value.generation == claim.generation && e.sync.value.status == Syncing ==> e.sync.value.cursor == claim.cursor
  {
  }

  /**
   * With claims that were really issued, the cursor only moves by a clean final page (which leaves the calendar
   * ready), or is cleared together with a new generation.
   */
  lemma CursorAdvancesOnlyOnCleanEnd(zones: Zones, tr: seq<Calendar>, acts: seq<Action>, k: nat)
    requires Run(zones, tr, acts) && Honest(tr, acts) && k < |acts|
    requires tr[k].sync.Some? && tr[k + 1].sync.Some? && tr[k + 1].sync.value.cursor != tr[k].sync.value.cursor
    ensures var s, r := tr[k + 1].sync.value, tr[k].sync.value;
            || (s.cursor == "" && s.generation == r.generation + 1)
            || (s.status == Ready && s.generation == r.generation
                && ((acts[k].FinishPages? && s.cursor == acts[k].delivery.page.nextCursor)
                    || (acts[k].SyncPage? && acts[k].final && !acts[k].batch.degraded
                        && s.cursor == acts[k].batch.nextCursor)))
  {
    hide Step;
    var c, a, e := tr[k], acts[k], tr[k + 1];
    RowLaws(zones, c, a, e);
    if ClaimOf(a).Some? && Passes(c, ClaimOf(a).value) {
      var i :| 0 <= i < k && IssuedAt(tr, acts, i, ClaimOf(a).value);
      ClaimKeepsCursor(zones, tr, acts, i, ClaimOf(a).value, k);
    }
  }
}
