/** What claims, renewals, resets and the ends of a claim mean for whoever comes next (internal/storage/event_cache.go). */
module SyncEnds {
  import opened Base
  import opened PageChain
  import opened EventCache
  import opened SyncLease
  import opened Calendars
  import opened CalendarRuns
  import opened LeaseRuns

  /** No claim passes the lease check, at any time. */
  ghost predicate Idle(s: SyncState)
  {
    forall claim, now :: !Holds(s, claim, now)
  }

  /** The progress of the calendar is the same: cursor, window, generation and last success. */
  predicate SameProgress(s: SyncState, e: SyncState)
  {
    s.cursor == e.cursor && s.lo == e.lo && s.hi == e.hi && s.generation == e.generation && s.lastSuccess == e.lastSuccess
  }

  /** From this instant on, and not before, the calendar may be claimed. */
  ghost predicate DueFrom(s: SyncState, at: int)
  {
    forall source: Source, now, fenced :: Claimable(s, source, now, fenced) <==> source.Usable() && at <= now && (fenced || !source.copySource)
  }

  /** The claims that pass are those of this generation and owner, exactly until the deadline. */
  ghost predicate HeldUntil(s: SyncState, generation: nat, owner: string, until: int)
  {
    forall claim, now :: Holds(s, claim, now) <==> claim.generation == generation && claim.owner == owner && now < until
  }

  /** Until the deadline nobody else can claim, start over or change the window of the calendar. */
  ghost predicate Exclusive(s: SyncState, until: int)
  {
    forall source: Source, now, fenced | now < until :: Closed(s, source, now, fenced)
  }

  ghost predicate Closed(s: SyncState, source: Source, now: int, fenced: bool)
  {
    && !Claimable(s, source, now, fenced)
    && (forall reset :: Schedule(s, source, now, reset).Err?)
    && (forall lo, hi :: Ensure(Some(s), source, lo, hi, now, fenced).Err? || Ensure(Some(s), source, lo, hi, now, fenced) == Ok(s))
  }

  lemma LeaseExcludes(s: SyncState)
    requires s.until.Some?
    ensures Exclusive(s, s.until.value)
  {
    forall source: Source, now, fenced | now < s.until.value ensures Closed(s, source, now, fenced) {
      assert !s.Unleased(now);
    }
  }

  /** A claim succeeds only where none passes any more; the claim it issues passes until its deadline, and no other does. */
  lemma ClaimTakesOver(s: SyncState, source: Source, worker: string, now: int, until: int, fenced: bool)
    requires ClaimDue(s, source, worker, now, until, fenced).Ok?
    ensures var e := ClaimDue(s, source, worker, now, until, fenced).value;
            && (forall claim, later | now <= later :: !Holds(s, claim, later))
            && e.owner == Some(worker) && Issued(e) == Claim(s.generation + 1, worker, s.cursor, s.nextSync)
            && HeldUntil(e, s.generation + 1, worker, until) && Exclusive(e, until)
            && SameProgress(s, e.(generation := s.generation))
  {
    LeaseExcludes(ClaimDue(s, source, worker, now, until, fenced).value);
  }

  /** A renewal succeeds exactly for a passing claim and a later deadline, and moves only the deadline, forward. */
  lemma RenewExtends(s: SyncState, claim: Claim, now: int, until: int)
    ensures Renew(s, claim, now, until).Ok? <==> Holds(s, claim, now) && s.until.value < until
    ensures Renew(s, claim, now, until).Ok? ==>
              var e := Renew(s, claim, now, until).value;
              && e == s.(until := Some(until)) && HeldUntil(e, claim.generation, claim.owner, until) && Exclusive(e, until)
              && (forall c, t | Holds(s, c, t) :: Holds(e, c, t))
  {
    if Renew(s, claim, now, until).Ok? {
      assert Holds(s, claim, now);
      LeaseExcludes(Renew(s, claim, now, until).value);
      forall c, t | Holds(s, c, t) ensures Holds(Renew(s, claim, now, until).value, c, t) {
        assert t < s.until.value < until;
      }
    }
  }

  /** A reset kills the claim that asked for it; its replacement, with an empty cursor, passes for the rest of the lease. */
  lemma ResetReplaces(s: SyncState, claim: Claim, now: int)
    requires Reset(s, claim, now).Ok?
    ensures var e := Reset(s, claim, now).value;
            && s.until.Some? && e.owner == Some(claim.owner)
            && Issued(e) == Claim(claim.generation + 1, claim.owner, "", s.nextSync)
            && HeldUntil(e, claim.generation + 1, claim.owner, s.until.value) && (forall t :: !Holds(e, claim, t))
            && e == s.(cursor := "", generation := e.generation)
  {
  }

  /** A failed claim leaves the calendar idle, with its progress, and due from the chosen time. */
  lemma FailLeaves(s: SyncState, claim: Claim, code: string, now: int, next: int)
    requires Fail(s, claim, code, now, next).Ok?
    ensures var e := Fail(s, claim, code, now, next).value;
            && Holds(s, claim, now) && Idle(e) && SameProgress(s, e) && DueFrom(e, next)
            && e.status == Status.Failed && (code != "" ==> e.lastError == Some(code))
  {
  }

  /** A deferred claim likewise; degraded and ready are told apart by what its caller saw. */
  lemma DeferLeaves(s: SyncState, claim: Claim, now: int, next: int, quarantined: bool, published: bool)
    requires Defer(s, claim, now, next, quarantined, published).Ok?
    ensures var e := Defer(s, claim, now, next, quarantined, published).value;
            && now < next && Holds(s, claim, now) && Idle(e) && SameProgress(s, e) && DueFrom(e, next) && e.lastError == s.lastError
            && (e.status == Ready <==> !quarantined && published) && e.status != Status.Parked
  {
  }

  /** A parked calendar is idle, with its progress; no clock makes it due, except for Apple after an authentication failure. */
  lemma ParkLeaves(s: SyncState, source: Source, claim: Claim, code: string, now: int)
    requires Park(s, source, claim, code, now).Ok?
    ensures var e := Park(s, source, claim, code, now).value;
            && Holds(s, claim, now) && SafeCode(code) && Idle(e) && SameProgress(s, e) && ParkedFor(e, code)
            && (code == "auth" && source.provider == "apple" ==> e.nextSync == now + 15 * 60 * 1_000_000_000)
  {
  }

  ghost predicate ParkedFor(s: SyncState, code: string)
  {
    && s.status == Status.Parked && s.lastError == Some(code)
    && forall source: Source, now, fenced ::
         Claimable(s, source, now, fenced) <==>
           code == "auth" && source.provider == "apple" && source.Usable() && s.nextSync <= now && (fenced || !source.copySource)
  }

  /** Scheduling never takes a live claim away; it makes any other calendar, parked ones included, due at once. */
  lemma ScheduleMakesDue(s: SyncState, source: Source, now: int, resetCursor: bool)
    ensures Schedule(s, source, now, resetCursor).Ok? ==>
              var e := Schedule(s, source, now, resetCursor).value;
              && (forall claim, t | now <= t :: !Holds(s, claim, t)) && Idle(e) && DueFrom(e, now)
              && (if resetCursor then e.cursor == "" && s.generation < e.generation else SameProgress(s, e))
    ensures (exists claim :: Holds(s, claim, now)) ==> Schedule(s, source, now, resetCursor).Err?
  {
  }

  /** When a final page says the calendar is next due; without a time, when its claim was. */
  function NextDue(a: Action): int
    requires IsFinalPage(a)
  {
    if a.FinishPages? then a.nextSync else if a.batch.nextSync.Some? then a.batch.nextSync.value else a.claim.nextSync
  }

  function EndedAt(a: Action): int
    requires IsFinalPage(a)
  {
    if a.FinishPages? then a.clocks.applied else a.now
  }

  /** The page itself was degraded, or it leaves something quarantined. */
  predicate EndsDegraded(a: Action, e: Calendar)
    requires IsFinalPage(a)
  {
    (a.SyncPage? && a.batch.degraded) || AnyActive(e.cache.quarantine)
  }

  function PageCursor(a: Action): string
    requires IsFinalPage(a)
  {
    if a.FinishPages? then a.delivery.page.nextCursor else a.batch.nextCursor
  }

  /** The row a final page leaves, degraded or not. */
  ghost predicate LeftByPage(s: SyncState, a: Action, e: Calendar)
    requires IsFinalPage(a)
  {
    && e.sync.Some?
    && var r := e.sync.value;
       && Holds(s, a.claim, EndedAt(a)) && Idle(r) && r.owner.None? && DueFrom(r, NextDue(a)) && r.lastSuccess == Some(EndedAt(a))
       && r.lo == s.lo && r.hi == s.hi && r.generation == s.generation
       && (if EndsDegraded(a, e) then r.status == Status.Degraded && r.lastError == Some("protocol") && r.cursor == a.claim.cursor
           else r.status == Ready && r.lastError.None? && r.cursor == PageCursor(a))
  }

  lemma FinishLeaves(c: Calendar, a: Action, e: Calendar, degraded: bool)
    requires IsFinalPage(a) && c.sync.Some? && e.sync.Some? && degraded == EndsDegraded(a, e)
    requires Finish(c.sync.value, a.claim, degraded, PageCursor(a), if a.FinishPages? then Some(a.nextSync) else a.batch.nextSync, EndedAt(a))
             == Ok(e.sync.value)
    ensures LeftByPage(c.sync.value, a, e)
  {
    hide AnyActive;
  }

  /**
   * A committed final page, ordinary or finalizing, degraded or clean, leaves no claim that passes and makes the
   * calendar claimable exactly from the time it names, in the same window and generation. The error is the protocol
   * code and the cursor the claim's own exactly when the end was degraded.
   */
  lemma FinalPageLeaves(zones: Zones, c: Calendar, a: Action, e: Calendar)
    requires Step(zones, c, a, e) && IsFinalPage(a) && e != c
    ensures c.sync.Some? && LeftByPage(c.sync.value, a, e)
  {
    hide Step;
    FinalCommits(zones, c, a, e);
    if a.SyncPage? {
      PageEnds(c, a, e);
    } else {
      FinishEnds(zones, c, a, e);
    }
  }

  lemma FinalCommits(zones: Zones, c: Calendar, a: Action, e: Calendar)
    requires Step(zones, c, a, e) && IsFinalPage(a) && e != c
    ensures a.SyncPage? ==> ApplyPage(c, a.claim, a.batch, a.final, a.now) == Ok(e)
    ensures a.FinishPages? ==> FinalPage(zones, c, a.claim, a.attemptId, a.delivery, a.nextSync, a.clocks) == Ok(e)
  {
    hide ApplyPage, FinalPage;
  }

  lemma PageEnds(c: Calendar, a: Action, e: Calendar)
    requires a.SyncPage? && a.final && ApplyPage(c, a.claim, a.batch, a.final, a.now) == Ok(e)
    ensures c.sync.Some? && LeftByPage(c.sync.value, a, e)
  {
    hide ApplyBatch, Swept, ValidBatch, AnyActive, LeftByPage;
    FinishLeaves(c, a, e, a.batch.degraded || AnyActive(e.cache.quarantine));
  }

  lemma FinishEnds(zones: Zones, c: Calendar, a: Action, e: Calendar)
    requires a.FinishPages? && FinalPage(zones, c, a.claim, a.attemptId, a.delivery, a.nextSync, a.clocks) == Ok(e)
    ensures c.sync.Some? && LeftByPage(c.sync.value, a, e)
  {
    Finalized(zones, c, a.claim, a.attemptId, a.delivery, a.nextSync, a.clocks);
    Appended(c, a.claim, a.attemptId, a.delivery, a.clocks.start);
    hide FinalPage, Append, Archived, Prepare, Replay, Swept, Replayable, AnyActive, Finish, LeftByPage, WellFormed, RecordOf, PageChain.Stage;
    FinishLeaves(c, a, e, AnyActive(e.cache.quarantine));
  }

  /**
   * Ensuring a window creates a row that is due at once, leaves a row with that window or with a lease as it is, and
   * otherwise starts the calendar over in the new window; a parked one stays parked.
   */
  lemma EnsureMeans(s: Option<SyncState>, source: Source, lo: int, hi: int, now: int, fenced: bool)
    requires Ensure(s, source, lo, hi, now, fenced).Ok?
    ensures var e := Ensure(s, source, lo, hi, now, fenced).value;
            && lo < hi && source.Usable() && (fenced || !source.copySource)
            && (s.None? ==> e.lo == lo && e.hi == hi && e.cursor == "" && e.generation == 0 && e.lastSuccess.None? && e.lastError.None?
                            && Idle(e) && DueFrom(e, now))
            && (s.Some? && ((s.value.lo == lo && s.value.hi == hi) || !s.value.Unleased(now)) ==> e == s.value)
            && (s.Some? && (s.value.lo != lo || s.value.hi != hi) && s.value.Unleased(now) ==> StartedOver(s.value, e, lo, hi, now))
  {
  }

  ghost predicate StartedOver(s: SyncState, e: SyncState, lo: int, hi: int, now: int)
  {
    && e.lo == lo && e.hi == hi && e.cursor == "" && e.generation == s.generation + 1 && e.lastSuccess == s.lastSuccess && Idle(e)
    && if s.status == Status.Parked then e.status == Status.Parked && e.nextSync == s.nextSync && e.lastError == s.lastError
       else DueFrom(e, now) && e.lastError.None?
  }

  /** After a mutation was resolved the calendar is idle and due at once, from scratch under a new generation. */
  lemma InvalidateRestarts(s: SyncState, now: int)
    ensures var e := Invalidate(s, now);
            && Idle(e) && DueFrom(e, now) && e.cursor == "" && e.generation == s.generation + 1
            && e.lo == s.lo && e.hi == s.hi && e.lastSuccess == s.lastSuccess && e.lastError.None?
  {
  }

  // --- over runs ------------------------------------------------------------------------------

  ghost predicate IdleRow(c: Calendar)
  {
    c.sync.Some? && c.sync.value.owner.None?
  }

  /** Nothing but a new claim ends the idleness of a calendar. */
  lemma IdleStep(zones: Zones, c: Calendar, a: Action, e: Calendar)
    requires Step(zones, c, a, e) && IdleRow(c) && !a.ClaimSync?
    ensures IdleRow(e) && (ClaimOf(a).Some? ==> e == c)
  {
    RowLaws(zones, c, a, e);
    if ClaimOf(a).Some? && e != c {
      LeaseCheckRequired(zones, c, a, e);
    }
    hide Step;
  }

  /** Once a claim ended by a failure, a parking, a deferral or a final page, no worker changes anything until the next claim. */
  lemma {:induction false} IdleUntilClaimed(zones: Zones, tr: seq<Calendar>, acts: seq<Action>, i: nat, k: nat)
    requires Run(zones, tr, acts) && i <= k < |tr| && IdleRow(tr[i])
    requires forall m | i <= m < k :: !acts[m].ClaimSync?
    ensures IdleRow(tr[k]) && Idle(tr[k].sync.value)
    ensures k < |acts| && ClaimOf(acts[k]).Some? ==> tr[k + 1] == tr[k]
    decreases k
  {
    hide Step;
    if i < k {
      IdleUntilClaimed(zones, tr, acts, i, k - 1);
      IdleStep(zones, tr[k - 1], acts[k - 1], tr[k]);
    }
    if k < |acts| && ClaimOf(acts[k]).Some? {
      IdleStep(zones, tr[k], acts[k], tr[k + 1]);
    }
  }

  ghost predicate ParkedRow(c: Calendar)
  {
    c.sync.Some? && c.sync.value.status == Status.Parked && c.sync.value.owner.None? && c.sync.value.lastError != Some("auth")
  }

  /**
   * The steps that unpark a parked calendar: an accepted rescheduling, the end of a shared mutation of it, a successful
   * verification of its connection, and enabling it.
   */
  predicate Unparks(c: Calendar, a: Action)
    requires c.sync.Some?
  {
    match a
    case ScheduleSync(now, _) => c.sync.value.Unleased(now) && c.source.Usable()
    case UnfenceMutation(operation, _) => OperationIntent(operation) in c.archive.intents
    case VerifyConnection(connected, now) => connected && c.sync.value.Unleased(now)
    case SetEnabled(enabled, _) => enabled && !c.source.enabled
    case _ => false
  }

  predicate MayUnpark(a: Action)
  {
    a.ScheduleSync? || a.UnfenceMutation? || a.VerifyConnection? || a.SetEnabled?
  }

  /** A calendar parked for anything but authentication leaves that state by one of these steps and by no other. */
  lemma UnparksExactly(zones: Zones, c: Calendar, a: Action, e: Calendar)
    requires Step(zones, c, a, e) && ParkedRow(c)
    ensures ParkedRow(e) <==> !Unparks(c, a)
  {
    if MayUnpark(a) {
      RestartExactly(zones, c, a, e);
    } else if a.EnsureState? || a.GrantRepair? {
      ParkedRowKept(zones, c, a, e);
    } else if a.ClaimSync? {
      ClaimRefused(zones, c, a, e);
    } else if ClaimOf(a).Some? {
      IdleStep(zones, c, a, e);
    } else {
      RowUntouched(zones, c, a, e);
    }
    hide Step;
  }

  lemma RestartExactly(zones: Zones, c: Calendar, a: Action, e: Calendar)
    requires Step(zones, c, a, e) && ParkedRow(c) && MayUnpark(a)
    ensures ParkedRow(e) <==> !Unparks(c, a)
  {
    hide OperationIntent;
  }

  lemma ClaimRefused(zones: Zones, c: Calendar, a: Action, e: Calendar)
    requires Step(zones, c, a, e) && ParkedRow(c) && a.ClaimSync?
    ensures e == c
  {
  }

  lemma ParkedRowKept(zones: Zones, c: Calendar, a: Action, e: Calendar)
    requires Step(zones, c, a, e) && ParkedRow(c) && (a.EnsureState? || a.GrantRepair?)
    ensures ParkedRow(e)
  {
    hide ActiveObject;
  }

  ghost predicate NoneUnparks(tr: seq<Calendar>, acts: seq<Action>, i: nat, k: nat)
  {
    forall m | i <= m < k && m < |tr| && m < |acts| && tr[m].sync.Some? :: !Unparks(tr[m], acts[m])
  }

  /** In every run such a calendar is parked until, and only until, the first step that unparks it. */
  lemma {:induction false} ParkedStays(zones: Zones, tr: seq<Calendar>, acts: seq<Action>, i: nat, k: nat)
    requires Run(zones, tr, acts) && i <= k < |tr| && ParkedRow(tr[i]) && NoneUnparks(tr, acts, i, k)
    ensures ParkedRow(tr[k])
    ensures k < |acts| ==> (ParkedRow(tr[k + 1]) <==> !Unparks(tr[k], acts[k]))
    decreases k
  {
    hide Step, ParkedRow, Unparks;
    if i < k {
      ParkedStays(zones, tr, acts, i, k - 1);
      assert tr[k - 1].sync.Some? by { ParkedSync(tr[k - 1]); }
    }
    ParkedSync(tr[k]);
    if k < |acts| {
      UnparksExactly(zones, tr[k], acts[k], tr[k + 1]);
    }
  }

  lemma ParkedSync(c: Calendar)
    ensures ParkedRow(c) ==> c.sync.Some?
  {
  }

  /**
   * A changed selection takes even a live claim away and clears the progress; whatever was published before, the
   * read gate is closed.
   */
  lemma SelectionInvalidates(zones: Zones, c: Calendar, enabled: bool, now: int, e: Calendar)
    requires Step(zones, c, SetEnabled(enabled, now), e) && c.sync.Some?
    ensures e != c <==> c.source.enabled != enabled
    ensures e != c ==> e.sync.Some? && Idle(e.sync.value) && e.sync.value.cursor == "" && e.sync.value.lastSuccess.None?
                       && e.sync.value.generation == c.sync.value.generation + 1 && e.cache == c.cache && e.archive == c.archive
    ensures e != c ==> forall lo, hi, at, maxAge :: !Inspects(zones, e, lo, hi, at, maxAge)
    ensures e != c && enabled ==> DueFrom(e.sync.value, now)
  {
  }

  ghost predicate NeverSucceeded(c: Calendar)
  {
    c.sync.Some? && c.sync.value.lastSuccess.None?
  }

  /** The step is a final page. */
  predicate IsFinalPage(a: Action)
  {
    a.FinishPages? || (a.SyncPage? && a.final)
  }

  lemma SuccessStep(zones: Zones, c: Calendar, a: Action, e: Calendar)
    requires Step(zones, c, a, e) && NeverSucceeded(c) && !IsFinalPage(a)
    ensures NeverSucceeded(e)
  {
    if a.SyncPage? {
      hide ApplyBatch, ValidBatch;
      assert e.sync == c.sync;
    } else if a.EnsureState? || a.GrantRepair? || MayUnpark(a) {
      SuccessRow(zones, c, a, e);
    } else if a.ClaimSync? || a.RenewLease? || a.ResetSync? || a.FailSync? || a.ParkSync? || a.DeferSync? {
      SuccessSync(zones, c, a, e);
    } else {
      RowUntouched(zones, c, a, e);
    }
    hide Step;
  }

  lemma SuccessRow(zones: Zones, c: Calendar, a: Action, e: Calendar)
    requires Step(zones, c, a, e) && NeverSucceeded(c) && (a.EnsureState? || a.GrantRepair? || MayUnpark(a))
    ensures NeverSucceeded(e)
  {
    hide ActiveObject, OperationIntent;
  }

  lemma SuccessSync(zones: Zones, c: Calendar, a: Action, e: Calendar)
    requires Step(zones, c, a, e) && NeverSucceeded(c)
    requires a.ClaimSync? || a.RenewLease? || a.ResetSync? || a.FailSync? || a.ParkSync? || a.DeferSync?
    ensures NeverSucceeded(e)
  {
    hide AnyActive, StillPublished, SafeCode, Claimable;
  }

  /** In every run, after a changed selection the read gate stays closed until a final page ends a later claim. */
  lemma {:induction false} GateStaysClosed(zones: Zones, tr: seq<Calendar>, acts: seq<Action>, i: nat, k: nat)
    requires Run(zones, tr, acts) && i < k < |tr| && acts[i].SetEnabled? && tr[i].sync.Some? && tr[i + 1] != tr[i]
    requires forall m | i < m < k :: !IsFinalPage(acts[m])
    ensures NeverSucceeded(tr[k]) && forall lo, hi, at, maxAge :: !Inspects(zones, tr[k], lo, hi, at, maxAge)
    decreases k
  {
    if k == i + 1 {
      SelectionInvalidates(zones, tr[i], acts[i].enabled, acts[i].now, tr[k]);
    } else {
      GateStaysClosed(zones, tr, acts, i, k - 1);
      SuccessStep(zones, tr[k - 1], acts[k - 1], tr[k]);
    }
    hide Step;
  }

  /** A verified connection changes nothing but a parked calendar without a lease, which it makes due with its progress kept. */
  lemma VerificationRevives(zones: Zones, c: Calendar, connected: bool, now: int, e: Calendar)
    requires Step(zones, c, VerifyConnection(connected, now), e)
    ensures e.source == c.source.(connected := connected) && e.cache == c.cache && e.archive == c.archive
    ensures e.sync != c.sync <==>
              connected && c.sync.Some? && c.sync.value.status == Status.Parked && c.sync.value.Unleased(now)
    ensures e.sync != c.sync ==> c.sync.Some? && e.sync.Some? && SameProgress(c.sync.value, e.sync.value)
                                 && e.sync.value.status == Status.Pending && RevivedAt(e.sync.value, now)
  {
  }

  /** Due at this instant, to whoever claims it then or later. */
  ghost predicate RevivedAt(s: SyncState, at: int)
  {
    forall source: Source, now, fenced | at <= now :: Claimable(s, source, now, fenced) <==> source.Usable() && (fenced || !source.copySource)
  }

  // --- what a deferral leaves readable -----------------------------------------------------------

  /** The window and age the reader asks for fit the current snapshot. */
  predicate Fits(zones: Zones, c: Calendar, lo: int, hi: int, now: int, maxAge: int)
  {
    && lo < hi && maxAge > 0 && LoadableZone(zones, c.source.timezone) && c.archive.revision in c.archive.snapshots
    && var p := c.archive.snapshots[c.archive.revision];
       p.lo <= lo && hi <= p.hi && p.completed <= now && now - p.completed <= maxAge
  }

  /** A deferred calendar is readable exactly while its publication still stands and nothing is quarantined. */
  lemma DeferredReadable(zones: Zones, c: Calendar, claim: Claim, now: int, next: int, e: Calendar, lo: int, hi: int, at: int, maxAge: int)
    requires Step(zones, c, DeferSync(claim, now, next), e) && e != c
    ensures c.sync.Some?
    ensures Inspects(zones, e, lo, hi, at, maxAge) <==> Fits(zones, c, lo, hi, at, maxAge) && StillPublished(c) && !AnyActive(c.cache.quarantine)
  {
    hide AnyActive, LoadableZone;
  }
}
