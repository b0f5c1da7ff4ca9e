/** What every lawful run of the coordinator amounts to. */
module CoordinatorRuns {
  import opened Base
  import opened Events
  import opened EventCache
  import opened ProviderPages
  import opened Coordinator

  lemma ReplyKeeps(d: Progress, mode: Mode, reply: Reply)
    ensures var e := TrackReply(d, mode, reply);
            e.asks == d.asks && e.resets == d.resets && e.ended == d.ended && e.capturing == d.capturing && e.fix == d.fix
  {
    hide ValidSyncPage;
  }

  lemma RepairKeeps(d: Progress, allowed: bool, outcome: RepairReply)
    ensures var e := TrackRepair(d, allowed, outcome);
            e.asks == d.asks && e.resets == d.resets && e.ended == d.ended
            && e.capturing == d.capturing && e.page == d.page && e.stored == d.stored && e.fix == AfterRepair(d.fix, allowed, outcome)
  {
  }

  /** The clauses of the law that bound calls, ends and mutations. */
  lemma LawBounds(w: Surroundings, p: Policy, d: Progress, s: Step)
    requires Law(w, p, d, s)
    ensures !d.ended && (s.Asked? ==> d.asks < p.maxPages) && (s.ResetHonoured? ==> d.resets < p.maxResets)
    ensures s.Repaired? && s.allowed ==> d.fix.grant.Some?
  {
    hide FailDelay, ToBatch;
  }

  lemma CountsKept(w: Surroundings, p: Policy, d: Progress, s: Step)
    requires Law(w, p, d, s) && d.asks <= p.maxPages && d.resets <= p.maxResets
    ensures Track(d, s).asks <= p.maxPages && Track(d, s).resets <= p.maxResets
  {
    hide Law, TrackReply, TrackRepair;
    LawBounds(w, p, d, s);
    if s.Asked? {
      ReplyKeeps(d.(asks := d.asks + 1, mode := s.mode, tokens := d.tokens + {s.token}), s.mode, s.reply);
    } else if s.Repaired? {
      RepairKeeps(d, s.allowed, s.outcome);
    }
  }

  lemma EndKept(w: Surroundings, p: Policy, d: Progress, s: Step)
    requires Law(w, p, d, s)
    ensures !d.ended && (Track(d, s).ended <==> s.Ends())
  {
    hide Law, TrackReply, TrackRepair;
    LawBounds(w, p, d, s);
    if s.Asked? {
      ReplyKeeps(d.(asks := d.asks + 1, mode := s.mode, tokens := d.tokens + {s.token}), s.mode, s.reply);
    } else if s.Repaired? {
      RepairKeeps(d, s.allowed, s.outcome);
    }
  }

  lemma GrantsKept(w: Surroundings, p: Policy, d: Progress, s: Step)
    requires Law(w, p, d, s) && d.fix.Covered()
    ensures Track(d, s).fix.Covered()
  {
    LawBounds(w, p, d, s);
    hide Law, TrackReply, TrackRepair;
    if s.Asked? {
      ReplyKeeps(d.(asks := d.asks + 1, mode := s.mode, tokens := d.tokens + {s.token}), s.mode, s.reply);
    } else if s.Repaired? {
      RepairKeeps(d, s.allowed, s.outcome);
    }
  }

  /** At most maxPages page calls and maxResets honoured resets. */
  lemma {:induction false} CallsBounded(w: Surroundings, p: Policy, log: seq<Step>)
    requires Lawful(w, p, log) && p.maxPages >= 0 && p.maxResets >= 0
    ensures ProgressOf(log).asks <= p.maxPages && ProgressOf(log).resets <= p.maxResets
  {
    hide Law, Track, Lawful;
    if log != [] {
      LawfulFront(w, p, log);
      CallsBounded(w, p, log[..|log| - 1]);
      CountsKept(w, p, ProgressOf(log[..|log| - 1]), log[|log| - 1]);
    }
  }

  /** Nothing follows the step that ends the claim, so there is at most one such step. */
  lemma {:induction false} EndsLast(w: Surroundings, p: Policy, log: seq<Step>)
    requires Lawful(w, p, log)
    ensures forall i | 0 <= i < |log| - 1 :: !log[i].Ends()
    ensures ProgressOf(log).ended <==> log != [] && log[|log| - 1].Ends()
  {
    hide Law, Track, Lawful;
    if log != [] {
      var front := log[..|log| - 1];
      LawfulFront(w, p, log);
      EndsLast(w, p, front);
      EndKept(w, p, ProgressOf(front), log[|log| - 1]);
    }
  }

  /**
   * A claim that failed for a reason the provider gave is retried after exactly the delay the provider asked for, if
   * it did; otherwise after a positive delay of at most RetryMax. It fails without such a reason only at a limit or
   * in trouble with the store, a plan or a zone.
   */
  lemma RetryAfterHonoured(w: Surroundings, raw: Policy, log: seq<Step>, i: nat)
    requires Lawful(w, Settled(raw), log) && i < |log| && log[i].FailedClaim?
    ensures var d := ProgressOf(log[..i]);
            if d.reason.Some? && d.reason.value.retryAfter > 0 then log[i].delay == d.reason.value.retryAfter
            else 0 < log[i].delay <= Settled(raw).retryMax
    ensures var d := ProgressOf(log[..i]); if d.reason.Some? then !Parks(d.reason.value.kind) else GivesUp(w, Settled(raw), d)
    ensures i > 0 && log[i - 1].Asked? && log[i - 1].reply.Failure? ==>
              ProgressOf(log[..i]).reason == Some(Reason(log[i - 1].reply.kind, log[i - 1].reply.retryAfter))
  {
    hide ProgressOf, GivesUp, FailDelay;
    LawAt(w, Settled(raw), log, i);
    var d := ProgressOf(log[..i]);
    var reason := if d.reason.Some? then d.reason.value else STORAGE;
    DelayPositive(raw, reason.retryAfter, w.repeatedError(reason.kind));
    if i > 0 {
      assert log[..i] == log[..i - 1] + [log[i - 1]];
      ProgressStep(log[..i - 1], log[i - 1]);
    }
  }

  lemma DelayPositive(raw: Policy, retryAfter: int, repeated: bool)
    ensures var delay := FailDelay(Settled(raw), retryAfter, repeated);
            if retryAfter > 0 then delay == retryAfter else 0 < delay <= Settled(raw).retryMax
  {
    if retryAfter <= 0 {
      DelayBounds(raw, retryAfter);
    }
  }

  /** In a lawful run every repair allowed to mutate the provider used up a grant of its own. */
  lemma {:induction false} GrantsCoverRepairs(w: Surroundings, p: Policy, log: seq<Step>)
    requires Lawful(w, p, log)
    ensures ProgressOf(log).fix.Covered()
  {
    hide Law, Track, Lawful;
    if log != [] {
      LawfulFront(w, p, log);
      GrantsCoverRepairs(w, p, log[..|log| - 1]);
      GrantsKept(w, p, ProgressOf(log[..|log| - 1]), log[|log| - 1]);
    }
  }

  /** The step stores this page, or answers its request to start over. */
  ghost predicate Keeps(w: Surroundings, s: Step, page: Page)
  {
    match s
    case Applied(b, final) => Carries(b, page, w.calendar) && final == page.complete
    case Staged(p) => p == page
    case Finalized(p) => p == page
    case ResetHonoured => page.resetRequired
    case _ => false
  }

  /**
   * A page stored as an ordinary batch: the batch does to any cache what the page says; it is a full sync exactly in
   * replacement mode, degraded exactly when a page since the last reset carried a warning, and only the last page
   * brings a next poll, at the clock plus the poll interval, and, unless degraded, a cursor.
   */
  ghost predicate StoresPage(w: Surroundings, p: Policy, d: Progress, b: Batch, page: Page)
  {
    && Carries(b, page, w.calendar)
    && b.fullSync == d.mode.Replacement? && b.degraded == d.warned
    && (if page.complete then exists n: nat :: b.nextSync == Some(w.now(n) + p.pollInterval) else b.nextSync.None?)
    && b.nextCursor == (if page.complete && !d.warned then page.nextCursor else "")
    && (page.complete && !d.warned && d.mode.Incremental? ==> b.nextCursor != "")
  }

  /** Transient and rate-limited failures are retried, all others park; a failed repair ends the run only for the account's sake. */
  lemma KindsExactly(w: Surroundings, p: Policy, kind: Class, retryAfter: int)
    ensures Ending(w, p, Reason(kind, retryAfter)).FailedClaim? <==> kind.Transient? || kind.RateLimited?
    ensures Ending(w, p, Reason(kind, retryAfter)).ParkedClaim? ==> Ending(w, p, Reason(kind, retryAfter)) == ParkedClaim(kind)
    ensures RepairReason(RepairFailure(kind, retryAfter)).None? <==> kind.Transient? || kind.RateLimited? || kind.Protocol?
    ensures RepairReason(RepairFailure(kind, retryAfter)).Some? ==>
              RepairReason(RepairFailure(kind, retryAfter)) == Some(Reason(kind, retryAfter)) && Ending(w, p, Reason(kind, retryAfter)) == ParkedClaim(kind)
  {
  }

  lemma AppliedMeans(w: Surroundings, p: Policy, d: Progress, s: Step)
    requires Law(w, p, d, s) && s.Applied?
    ensures d.page.Some? && s.final == d.page.value.complete && StoresPage(w, p, d, s.batch, d.page.value)
  {
    hide ValidSyncPage, Carries;
    var page := d.page.value;
    if page.complete && d.mode.Incremental? {
      FinalCursor(d.mode, page);
    }
    var n: nat :| s.batch == ToBatch(page, w.calendar, d.mode.Replacement?, d.warned, w.now(n) + p.pollInterval);
    PageCarried(page, w.calendar, d.mode.Replacement?, d.warned, w.now(n) + p.pollInterval);
  }

  lemma FinalCursor(mode: Mode, page: Page)
    requires ValidSyncPage(mode, page) && !page.resetRequired && page.complete && mode.Incremental?
    ensures page.nextCursor != ""
  {
  }

  /** In a lawful run every ordinary batch stores the last page received as it is. */
  lemma BatchesCarry(w: Surroundings, p: Policy, log: seq<Step>, i: nat)
    requires Lawful(w, p, log) && i < |log| && log[i].Applied?
    ensures var d := ProgressOf(log[..i]); d.page.Some? && StoresPage(w, p, d, log[i].batch, d.page.value)
  {
    hide Law, Lawful, ProgressOf, StoresPage;
    LawAt(w, p, log, i);
    AppliedMeans(w, p, ProgressOf(log[..i]), log[i]);
  }

  /** A page that was received and not kept yet is still the last one, and not stored. */
  lemma PageWaits(w: Surroundings, p: Policy, d: Progress, s: Step, page: Page)
    requires Law(w, p, d, s) && d.page == Some(page) && !d.stored && !Keeps(w, s, page)
    ensures Track(d, s).page == Some(page) && !Track(d, s).stored
  {
    hide ValidSyncPage, FailDelay, Carries, GivesUp;
    if s.Applied? {
      AppliedMeans(w, p, d, s);
    }
    hide Law;
  }

  lemma {:induction false} PageStays(w: Surroundings, p: Policy, log: seq<Step>, i: nat)
    requires Lawful(w, p, log) && i < |log| && log[i].Asked? && log[i].reply.Success?
    requires forall k | i < k < |log| :: !Keeps(w, log[k], log[i].reply.page)
    ensures ProgressOf(log).page == Some(log[i].reply.page) && !ProgressOf(log).stored
  {
    hide Law, Lawful, Keeps;
    var n := |log| - 1;
    if i < n {
      LawfulFront(w, p, log);
      PageStays(w, p, log[..n], i);
      PageWaits(w, p, ProgressOf(log[..n]), log[n], log[i].reply.page);
    }
  }

  /** No page is skipped: between two requests the first one's page was stored, or its reset honoured. */
  lemma NothingSkipped(w: Surroundings, p: Policy, log: seq<Step>, i: nat, j: nat)
    requires Lawful(w, p, log) && i < j < |log| && log[i].Asked? && log[i].reply.Success? && log[j].Asked?
    ensures exists k :: i < k < j && Keeps(w, log[k], log[i].reply.page)
  {
    hide Law, Lawful, ProgressOf, Keeps;
    if forall k | i < k < j :: !Keeps(w, log[k], log[i].reply.page) {
      LawfulPrefix(w, p, log, j);
      PageStays(w, p, log[..j], i);
      LawAt(w, p, log, j);
      AsksAfterStoring(w, p, ProgressOf(log[..j]), log[j]);
      assert false;
    }
  }

  lemma AsksAfterStoring(w: Surroundings, p: Policy, d: Progress, s: Step)
    requires Law(w, p, d, s) && s.Asked?
    ensures d.stored
  {
  }

  /** The capture was opened at c, before the first request since the last reset, and nothing went another way since. */
  ghost predicate CapturedSince(log: seq<Step>, c: nat, n: nat)
  {
    && c < n <= |log| && log[c].CaptureStarted? && ProgressOf(log[..c]).tokens == {}
    && forall k | c < k < n :: !log[k].Applied? && !log[k].ResetHonoured? && !log[k].CaptureReset?
  }

  lemma {:induction false} CaptureOpened(w: Surroundings, p: Policy, log: seq<Step>, n: nat)
    requires Lawful(w, p, log) && n <= |log| && ProgressOf(log[..n]).capturing
    ensures exists c: nat :: CapturedSince(log, c, n)
  {
    hide Law, Lawful, Track, CapturedSince;
    NotAtStart(log);
    if n > 0 {
      var s, d := log[n - 1], ProgressOf(log[..n - 1]);
      assert log[..n] == log[..n - 1] + [s];
      ProgressStep(log[..n - 1], s);
      if s.CaptureStarted? {
        LawAt(w, p, log, n - 1);
        CaptureEarly(w, p, d, s);
        CaptureStarts(log, n);
      } else {
        CaptureKept(d, s);
        CaptureOpened(w, p, log, n - 1);
        var c: nat :| CapturedSince(log, c, n - 1);
        CaptureGrows(log, c, n);
      }
    }
  }

  lemma NotAtStart(log: seq<Step>)
    ensures !ProgressOf(log[..0]).capturing
  {
  }

  lemma CaptureStarts(log: seq<Step>, n: nat)
    requires 0 < n <= |log| && log[n - 1].CaptureStarted? && ProgressOf(log[..n - 1]).tokens == {}
    ensures CapturedSince(log, n - 1, n)
  {
    hide ProgressOf;
  }

  lemma CaptureGrows(log: seq<Step>, c: nat, n: nat)
    requires 0 < n <= |log| && CapturedSince(log, c, n - 1)
    requires !log[n - 1].Applied? && !log[n - 1].ResetHonoured? && !log[n - 1].CaptureReset?
    ensures CapturedSince(log, c, n)
  {
    hide ProgressOf;
  }

  lemma CaptureEarly(w: Surroundings, p: Policy, d: Progress, s: Step)
    requires Law(w, p, d, s) && s.CaptureStarted?
    ensures d.tokens == {}
  {
  }

  lemma CaptureKept(d: Progress, s: Step)
    requires Track(d, s).capturing && !s.CaptureStarted?
    ensures d.capturing && !s.Applied? && !s.ResetHonoured? && !s.CaptureReset?
  {
    hide TrackReply, TrackRepair;
    if s.Asked? {
      ReplyKeeps(d.(asks := d.asks + 1, mode := s.mode, tokens := d.tokens + {s.token}), s.mode, s.reply);
    } else if s.Repaired? {
      RepairKeeps(d, s.allowed, s.outcome);
    }
  }

  /**
   * A published capture is whole: it was opened before the first request since the last reset, and every page
   * received between the two was staged in it.
   */
  lemma CaptureWhole(w: Surroundings, p: Policy, log: seq<Step>, n: nat)
    requires Lawful(w, p, log) && n < |log| && (log[n].Finalized? || log[n].Staged?)
    ensures exists c: nat :: CapturedSince(log, c, n) && StagedBetween(log, c, n)
  {
    hide Law, Lawful, ProgressOf, CapturedSince;
    LawAt(w, p, log, n);
    CapturesOpen(w, p, ProgressOf(log[..n]), log[n]);
    CaptureOpened(w, p, log, n);
    var c :| CapturedSince(log, c, n);
    StagedAll(w, p, log, c, n);
  }

  /** Every page received in between, but the last, was staged before the next request. */
  predicate StagedBetween(log: seq<Step>, c: nat, n: nat)
    requires n <= |log|
  {
    forall i, j | c < i < j < n && log[i].Asked? && log[i].reply.Success? && log[j].Asked? ::
      exists k :: i < k < j && log[k] == Staged(log[i].reply.page)
  }

  lemma CapturesOpen(w: Surroundings, p: Policy, d: Progress, s: Step)
    requires Law(w, p, d, s) && (s.Finalized? || s.Staged?)
    ensures d.capturing
  {
  }

  lemma StagedAll(w: Surroundings, p: Policy, log: seq<Step>, c: nat, n: nat)
    requires Lawful(w, p, log) && CapturedSince(log, c, n) && n < |log|
    ensures StagedBetween(log, c, n)
  {
    hide Law, Lawful, ProgressOf;
    forall i, j | c < i < j < n && log[i].Asked? && log[i].reply.Success? && log[j].Asked?
      ensures exists k :: i < k < j && log[k] == Staged(log[i].reply.page)
    {
      NothingSkipped(w, p, log, i, j);
      var k :| i < k < j && Keeps(w, log[k], log[i].reply.page);
      LawfulPrefix(w, p, log, j + 1);
      NotLast(w, p, log, k, j);
      assert log[k] == Staged(log[i].reply.page);
    }
  }

  lemma NotLast(w: Surroundings, p: Policy, log: seq<Step>, k: nat, j: nat)
    requires Lawful(w, p, log) && k < j < |log|
    ensures !log[k].Finalized?
  {
    hide Lawful, ProgressOf;
    EndsLast(w, p, log);
  }

  /** After a mutating repair: it waits for its record, no fence is held, or its result was recorded. */
  ghost predicate FenceState(log: seq<Step>, i: nat, n: nat, outcome: RepairReply)
    requires n <= |log|
  {
    || (ProgressOf(log[..n]).fix.unsettled && ProgressOf(log[..n]).fix.repair == Some(outcome))
    || !ProgressOf(log[..n]).fix.held
    || (outcome == RepairResult(true) && RecordedBetween(log, i, n))
  }

  predicate RecordedBetween(log: seq<Step>, i: nat, n: nat)
    requires n <= |log|
  {
    exists k :: i < k < n && log[k].RepairApplied?
  }

  /** A waiting repair is recorded as what it was; its fence is not given back before. */
  lemma WaitingStep(w: Surroundings, p: Policy, d: Progress, s: Step, outcome: RepairReply)
    requires Law(w, p, d, s) && d.fix.unsettled && d.fix.repair == Some(outcome) && !s.Reserved?
    ensures || (Track(d, s).fix.unsettled && Track(d, s).fix.repair == Some(outcome)) || !Track(d, s).fix.held
            || (s.RepairApplied? && outcome == RepairResult(true))
  {
    hide ValidSyncPage, FailDelay, ToBatch;
  }

  lemma HeldStep(w: Surroundings, p: Policy, d: Progress, s: Step)
    requires Law(w, p, d, s) && !d.fix.held && !s.Reserved?
    ensures !Track(d, s).fix.held && !s.Released?
  {
    hide ValidSyncPage, FailDelay, ToBatch;
  }

  lemma ReleaseSettled(w: Surroundings, p: Policy, d: Progress, s: Step)
    requires Law(w, p, d, s) && s.Released?
    ensures d.fix.held && !d.fix.unsettled
  {
  }

  lemma RepairWaits(d: Progress, s: Step)
    requires s.Repaired? && s.allowed
    ensures Track(d, s).fix.unsettled && Track(d, s).fix.repair == Some(s.outcome)
  {
  }

  lemma {:induction false} FenceTracked(w: Surroundings, p: Policy, log: seq<Step>, i: nat, n: nat)
    requires Lawful(w, p, log) && i < n <= |log| && log[i].Repaired? && log[i].allowed
    requires forall k | i < k < n :: !log[k].Reserved?
    ensures FenceState(log, i, n, log[i].outcome)
    decreases n
  {
    hide Law, Lawful, Track, ProgressOf, RecordedBetween;
    var s, d := log[n - 1], ProgressOf(log[..n - 1]);
    assert log[..n] == log[..n - 1] + [s];
    ProgressStep(log[..n - 1], s);
    if n == i + 1 {
      RepairWaits(d, s);
    } else {
      FenceTracked(w, p, log, i, n - 1);
      LawAt(w, p, log, n - 1);
      if RecordedBetween(log, i, n - 1) {
        RecordGrows(log, i, n);
      }
      if !d.fix.held {
        HeldStep(w, p, d, s);
      } else if d.fix.unsettled && d.fix.repair == Some(log[i].outcome) {
        WaitingStep(w, p, d, s, log[i].outcome);
        if s.RepairApplied? {
          RecordGrows(log, i, n);
        }
      }
    }
  }

  lemma RecordGrows(log: seq<Step>, i: nat, n: nat)
    requires i + 1 < n <= |log| && (RecordedBetween(log, i, n - 1) || log[n - 1].RepairApplied?)
    ensures RecordedBetween(log, i, n)
  {
  }

  /**
   * The fence of a repair allowed to mutate is given back only after the repair brought a sound result and that
   * result was recorded; after a failed or malformed repair it is kept.
   */
  lemma FenceKeptUntilRecorded(w: Surroundings, p: Policy, log: seq<Step>, i: nat, j: nat)
    requires Lawful(w, p, log) && i < j < |log| && log[i].Repaired? && log[i].allowed && log[j].Released?
    requires forall k | i < k < j :: !log[k].Reserved?
    ensures log[i].outcome == RepairResult(true) && RecordedBetween(log, i, j)
  {
    hide Law, Lawful, ProgressOf, RecordedBetween;
    FenceTracked(w, p, log, i, j);
    LawAt(w, p, log, j);
    ReleaseSettled(w, p, ProgressOf(log[..j]), log[j]);
  }

  // --- a calm run --------------------------------------------------------------------------------

  /** Nothing is cancelled and every store call commits; no plan, zone or repair is in trouble. */
  ghost predicate Calm(w: Surroundings)
  {
    && (forall n: nat :: !w.cancelled(n) && w.outcomes(n).Done?)
    && !PlanTrouble(w) && !ZoneTrouble(w)
    && forall k: nat | k < |w.due| :: Harmless(w.repairs(k))
  }

  predicate Harmless(r: RepairReply)
  {
    match r
    case RepairFailure(kind, _) => !Fatal(kind)
    case RepairResult(valid) => valid
  }

  /** Request i is answered with a sound page that goes on. */
  predicate GoesOn(w: Surroundings, i: nat)
  {
    w.replies(i).Success? && ValidSyncPage(Incremental, w.replies(i).page) && !w.replies(i).page.complete && !w.replies(i).page.resetRequired
  }

  function PageAt(w: Surroundings, i: nat): Option<Page>
  {
    if w.replies(i).Success? then Some(w.replies(i).page) else None
  }

  function TokenAt(w: Surroundings, i: nat): string
  {
    if w.replies(i).Success? then w.replies(i).page.nextToken else ""
  }

  /** The first n requests are answered with pages that go on, each with a token of its own. */
  ghost predicate Feed(w: Surroundings, n: nat)
  {
    && (forall i: nat | i < n :: GoesOn(w, i))
    && (forall i: nat, j: nat | i < j < n :: TokenAt(w, i) != TokenAt(w, j))
  }

  predicate Repeated(w: Surroundings, n: nat)
  {
    exists i | 0 <= i < n :: TokenAt(w, i) == TokenAt(w, n)
  }

  /** At most n pages of the feed came, the last of them is at hand, and nothing is wrong. */
  ghost predicate Feeding(w: Surroundings, n: nat, d: Progress)
  {
    && d.reason.None? && d.resets == 0 && d.asks <= n && !d.ended
    && (if d.asks == 0 then d.page.None? else d.page == PageAt(w, d.asks - 1))
    && (d.tokens == {} <==> d.asks == 0)
    && forall t :: t in d.received <==> exists i | 0 <= i < d.asks :: TokenAt(w, i) == t
  }

  /** Reply n came: the run must end for it, or has a last page to store. */
  ghost predicate Answered(w: Surroundings, n: nat, d: Progress)
  {
    && d.asks == n + 1 && d.tokens != {} && !d.ended
    && match w.replies(n)
       case Failure(kind, retryAfter) => d.reason == Some(Reason(kind, retryAfter))
       case Success(page) =>
         && d.page == Some(page)
         && (!ValidSyncPage(Replacement, page) || (!page.resetRequired && !page.complete && Repeated(w, n)) ==> d.reason == Some(Reason(Protocol, 0)))
         && (ValidSyncPage(Incremental, page) && page.complete ==> d.reason.None? && !d.stored)
  }

  lemma SoundInEveryMode(mode: Mode, page: Page)
    ensures ValidSyncPage(Incremental, page) ==> ValidSyncPage(mode, page)
    ensures ValidSyncPage(mode, page) ==> ValidSyncPage(Replacement, page)
    ensures ValidSyncPage(mode, page) && page.complete ==> !page.resetRequired
  {
  }

  lemma AskedFeeds(w: Surroundings, p: Policy, n: nat, d: Progress, s: Step)
    requires Feed(w, n) && Feeding(w, n, d) && Law(w, p, d, s) && s.Asked?
    ensures if d.asks < n then Feeding(w, n, Track(d, s)) else Answered(w, n, Track(d, s))
  {
    assert s.reply == w.replies(d.asks) && d.asks <= n;
    hide Law, GivesUp;
    if s.reply.Success? {
      SoundInEveryMode(s.mode, s.reply.page);
    }
    if d.asks < n {
      assert GoesOn(w, d.asks);
      assert TokenAt(w, d.asks) !in d.received;
    }
    hide ValidSyncPage;
  }

  /** While the feed goes on, a calm run can neither end nor stray, except at the page limit. */
  lemma FeedStep(w: Surroundings, p: Policy, n: nat, d: Progress, s: Step)
    requires Calm(w) && Feed(w, n) && n <= p.maxPages && Feeding(w, n, d) && Law(w, p, d, s) && !s.Asked?
    ensures if s.Ends() then n == d.asks == p.maxPages && s == Ending(w, p, STORAGE) else Feeding(w, n, Track(d, s))
  {
    if d.asks > 0 {
      assert GoesOn(w, d.asks - 1);
    }
    if s.Repaired? {
      assert Harmless(w.repairs(d.fix.done));
    }
    assert !StoreTrouble(w);
    hide ValidSyncPage, FailDelay, PlanTrouble, StoreTrouble, ToBatch, TrackReply;
  }

  /** Once reply n came the only step left is the one that ends the claim for it. */
  lemma AnsweredStep(w: Surroundings, p: Policy, n: nat, d: Progress, s: Step)
    requires Calm(w) && Answered(w, n, d) && Law(w, p, d, s) && Decided(w, n)
    ensures EndsAs(w, p, n, s)
  {
    assert !StoreTrouble(w);
    hide FailDelay, PlanTrouble, StoreTrouble, Carries, ValidSyncPage;
    if w.replies(n).Success? {
      SoundInEveryMode(Replacement, w.replies(n).page);
    }
    if s.Applied? {
      AppliedMeans(w, p, d, s);
    }
  }

  /** Reply n is a failure, an unsound or repeated page, or a sound last page. */
  predicate Decided(w: Surroundings, n: nat)
  {
    match w.replies(n)
    case Failure(_, _) => true
    case Success(page) =>
      || !ValidSyncPage(Replacement, page) || (!page.resetRequired && !page.complete && Repeated(w, n))
      || (ValidSyncPage(Incremental, page) && page.complete)
  }

  /** The step ends the claim as reply n demands. */
  ghost predicate EndsAs(w: Surroundings, p: Policy, n: nat, s: Step)
  {
    && s.Ends()
    && match w.replies(n)
       case Failure(kind, retryAfter) => s == Ending(w, p, Reason(kind, retryAfter))
       case Success(page) =>
         if ValidSyncPage(Incremental, page) && page.complete then Keeps(w, s, page) else s == ParkedClaim(Protocol)
  }

  lemma NothingFed(w: Surroundings, n: nat)
    ensures Feeding(w, n, NOTHING)
  {
  }

  lemma {:induction false} FeedState(w: Surroundings, p: Policy, log: seq<Step>, n: nat)
    requires Lawful(w, p, log) && Calm(w) && Feed(w, n) && n < p.maxPages && Decided(w, n) && !ProgressOf(log).ended
    ensures Feeding(w, n, ProgressOf(log)) || Answered(w, n, ProgressOf(log))
  {
    hide Law, Lawful, Track, Calm, Feed, Feeding, Answered, Decided, EndsAs;
    if log == [] {
      NothingFed(w, n);
    } else {
      var front, s := log[..|log| - 1], log[|log| - 1];
      LawfulFront(w, p, log);
      EndKept(w, p, ProgressOf(front), s);
      FeedState(w, p, front, n);
      NextState(w, p, n, ProgressOf(front), s);
    }
  }

  lemma NextState(w: Surroundings, p: Policy, n: nat, d: Progress, s: Step)
    requires Calm(w) && Feed(w, n) && n < p.maxPages && Decided(w, n) && Law(w, p, d, s)
    requires Feeding(w, n, d) || Answered(w, n, d)
    ensures if s.Ends() then Answered(w, n, d) && EndsAs(w, p, n, s) else Feeding(w, n, Track(d, s)) || Answered(w, n, Track(d, s))
  {
    hide Law, Calm, Feed, Decided, EndsAs, Answered;
    if Feeding(w, n, d) {
      if s.Asked? {
        AskedFeeds(w, p, n, d, s);
      } else {
        FeedStep(w, p, n, d, s);
      }
    } else {
      AnsweredStep(w, p, n, d, s);
      assert EndsAs(w, p, n, s) ==> s.Ends() by { EndsAsEnds(w, p, n, s); }
    }
  }

  lemma EndsAsEnds(w: Surroundings, p: Policy, n: nat, s: Step)
    ensures EndsAs(w, p, n, s) ==> s.Ends()
  {
  }

  /**
   * In a calm run that ended, after n pages that go on, reply n decides: a sound last page is stored as such, an
   * unsound or repeated page parks the claim, and a failure parks or fails it for what it was.
   */
  lemma FeedDecides(w: Surroundings, p: Policy, log: seq<Step>, n: nat)
    requires Lawful(w, p, log) && ProgressOf(log).ended && Calm(w) && Feed(w, n) && n < p.maxPages && Decided(w, n)
    ensures log != [] && EndsAs(w, p, n, log[|log| - 1])
  {
    hide Law, Lawful, Track, Calm, Feed, Feeding, Answered, Decided, EndsAs;
    EndsLast(w, p, log);
    var front, s := log[..|log| - 1], log[|log| - 1];
    LawfulFront(w, p, log);
    EndKept(w, p, ProgressOf(front), s);
    FeedState(w, p, front, n);
    NextState(w, p, n, ProgressOf(front), s);
  }

  /** What the feed demands of a whole run. */
  ghost predicate FeedObeyed(w: Surroundings, p: Policy, log: seq<Step>)
  {
    forall n: nat | Feed(w, n) && n < p.maxPages && Decided(w, n) :: log != [] && EndsAs(w, p, n, log[|log| - 1])
  }

  lemma CalmObeys(w: Surroundings, p: Policy, log: seq<Step>)
    requires Lawful(w, p, log)
    ensures Calm(w) && ProgressOf(log).ended ==> FeedObeyed(w, p, log)
  {
    hide Lawful, ProgressOf, Calm, Feed, Decided, EndsAs;
    if Calm(w) && ProgressOf(log).ended {
      forall n: nat | Feed(w, n) && n < p.maxPages && Decided(w, n) ensures log != [] && EndsAs(w, p, n, log[|log| - 1]) {
        FeedDecides(w, p, log, n);
      }
    }
  }

  lemma {:induction false} LimitState(w: Surroundings, p: Policy, log: seq<Step>, n: nat)
    requires Lawful(w, p, log) && Calm(w) && Feed(w, n) && n == p.maxPages && !ProgressOf(log).ended
    ensures Feeding(w, n, ProgressOf(log))
  {
    hide Law, Lawful, Track, Calm, Feed, Feeding;
    if log == [] {
      NothingFed(w, n);
    } else {
      var front, s := log[..|log| - 1], log[|log| - 1];
      LawfulFront(w, p, log);
      EndKept(w, p, ProgressOf(front), s);
      LimitState(w, p, front, n);
      LimitStep(w, p, n, ProgressOf(front), s);
    }
  }

  lemma LimitStep(w: Surroundings, p: Policy, n: nat, d: Progress, s: Step)
    requires Calm(w) && Feed(w, n) && n == p.maxPages && Feeding(w, n, d) && Law(w, p, d, s)
    ensures if s.Ends() then d.asks == n && s == Ending(w, p, STORAGE) else Feeding(w, n, Track(d, s))
  {
    LawBounds(w, p, d, s);
    hide Law, Calm, Feed;
    if s.Asked? {
      AskedFeeds(w, p, n, d, s);
    } else {
      FeedStep(w, p, n, d, s);
    }
  }

  /** A calm run whose pages never end asks for all it may and fails the claim for a retry. */
  lemma FeedExhausts(w: Surroundings, p: Policy, log: seq<Step>)
    requires Lawful(w, p, log) && ProgressOf(log).ended && p.maxPages >= 0 && Calm(w) && Feed(w, p.maxPages)
    ensures log != [] && log[|log| - 1] == Ending(w, p, STORAGE) && ProgressOf(log[..|log| - 1]).asks == p.maxPages
  {
    hide Law, Lawful, Track, Calm, Feed, Feeding, Ending;
    EndsLast(w, p, log);
    var front, s := log[..|log| - 1], log[|log| - 1];
    LawfulFront(w, p, log);
    EndKept(w, p, ProgressOf(front), s);
    LimitState(w, p, front, p.maxPages);
    LimitStep(w, p, p.maxPages, ProgressOf(front), s);
  }
}
