/** Service.RunOne and its helpers (internal/eventsync/service.go), for any provider, store, planner and context. */
module EventSync {
  import opened Base
  import opened Events
  import opened EventCache
  import opened ProviderPages
  import opened Coordinator
  import opened CoordinatorRuns

  /**
   * How a call returns: the run goes on, the claim was ended, the context was cancelled, the lease was lost, the
   * write fence could not be taken, or not be given back, or the transition that ends the claim did not commit.
   */
  datatype Exit = GoOn | Closed | Cancelled | LeaseLost | Blocked | Stuck | NotClosed

  /** What TakeGrant adds to the log when the run goes on. */
  function GrantSteps(guarded: bool, allowed: bool, objectId: string): seq<Step>
  {
    if guarded then [Reserved, if allowed then Consumed(objectId) else Released]
    else if allowed then [Consumed(objectId)] else []
  }

  /** The run stopped while taking a grant: the fence was not taken, is stuck, or was given back; at most the claim failed. */
  predicate Abandoned(before: seq<Step>, after: seq<Step>, failed: Step)
  {
    || after == before || after == before + [Reserved] || after == before + [Reserved, Released]
    || after == before + [failed] || after == before + [Reserved, Released, failed]
  }

  /** The pages and the reason to end are as before. */
  predicate SamePages(d: Progress, e: Progress)
  {
    e == d.(fix := e.fix)
  }

  /** No request and no repair is open. */
  predicate Settles(d: Progress)
  {
    d.reason.None? && d.fix.repair.None? && !d.fix.held
  }

  /** The variables of the page loop. */
  datatype Loop = Loop(mode: Mode, token: string, seen: set<string>, degraded: bool, capture: bool, pages: nat, resets: nat)

  /** One claim at work; the counters number the calls into the surroundings. */
  class Runner {
    const world: Surroundings
    const policy: Policy
    var log: seq<Step>
    var outcomes: nat
    var plans: nat
    var checks: nat
    var clock: nat

    ghost function Now(): Progress
      reads this
    {
      ProgressOf(log)
    }

    ghost predicate Valid()
      reads this
    {
      Lawful(world, policy, log) && !Now().ended
    }

    /** The last store call did not commit. */
    predicate Denied()
      reads this
    {
      outcomes > 0 && !world.outcomes(outcomes - 1).Done?
    }

    /** What each way to return requires. */
    ghost predicate Explained(exit: Exit)
      reads this
    {
      && Lawful(world, policy, log) && (exit.Closed? ==> Now().ended) && (Now().ended ==> exit.Closed? || exit.Cancelled?)
      && match exit
         case GoOn => true
         case Closed => true
         case Cancelled => checks > 0 && world.cancelled(checks - 1)
         case LeaseLost => exists n: nat :: n < outcomes && world.outcomes(n).Lost?
         case Blocked => world.guarded && Denied()
         case Stuck => world.guarded && Denied()
         case NotClosed => Denied()
    }

    constructor (w: Surroundings, p: Policy)
      ensures world == w && policy == Settled(p) && log == [] && Valid() && policy.maxPages > 0 && policy.maxResets > 0
    {
      world, policy, log := w, Settled(p), [];
      outcomes, plans, checks, clock := 0, 0, 0, 0;
    }

    method Check() returns (stop: bool)
      modifies this`checks
      ensures stop == world.cancelled(old(checks)) && checks == old(checks) + 1
    {
      stop := world.cancelled(checks);
      checks := checks + 1;
    }

    method Commit() returns (r: Outcome)
      modifies this`outcomes
      ensures r == world.outcomes(old(outcomes)) && outcomes == old(outcomes) + 1
    {
      r := world.outcomes(outcomes);
      outcomes := outcomes + 1;
    }

    method Record(s: Step)
      requires Valid() && Law(world, policy, Now(), s)
      modifies this`log
      ensures log == old(log) + [s] && Lawful(world, policy, log) && Now() == Track(old(Now()), s)
    {
      hide Law, Track, ProgressOf, Lawful;
      LawfulStep(world, policy, log, s);
      ProgressStep(log, s);
      log := log + [s];
    }

    /**
     * Service.fail: parked or with a retry, for the reason at hand. The claim ends unless the context is cancelled or
     * the transition does not commit.
     */
    method Fail(kind: Class, retryAfter: int) returns (exit: Exit)
      requires Valid()
      requires Now().reason == Some(Reason(kind, retryAfter))
               || (Now().reason.None? && Reason(kind, retryAfter) == STORAGE && GivesUp(world, policy, Now()))
      modifies this`log, this`outcomes, this`checks
      ensures Explained(exit) && !exit.GoOn?
      ensures exit.Closed? <==> !world.cancelled(old(checks)) && world.outcomes(old(outcomes)).Done?
      ensures log == if exit.Closed? then old(log) + [Ending(world, policy, Reason(kind, retryAfter))] else old(log)
    {
      hide Lawful, ProgressOf, Track, FailDelay, GivesUp;
      var stop := Check();
      if stop {
        return Cancelled;
      }
      var r := Commit();
      if r.Done? {
        if Parks(kind) {
          EndingStep(ParkedClaim(kind));
        } else {
          EndingStep(FailedClaim(FailDelay(policy, retryAfter, world.repeatedError(kind))));
        }
        return Closed;
      }
      return if r.Lost? then Exit.LeaseLost else NotClosed;
    }

    method EndingStep(s: Step)
      requires Valid() && Law(world, policy, Now(), s) && s.Ends()
      modifies this`log
      ensures log == old(log) + [s] && Lawful(world, policy, log) && Now().ended
    {
      hide Lawful, ProgressOf, Track, Law;
      EndKept(world, policy, Now(), s);
      Record(s);
    }

    /** The claim is handed back while another run holds the fence. */
    method Defer() returns (exit: Exit)
      requires Valid() && Now().reason.None? && exists n: nat :: world.outcomes(n).Busy?
      modifies this`log, this`outcomes
      ensures Explained(exit) && !exit.GoOn?
      ensures exit.Closed? <==> world.outcomes(old(outcomes)).Done?
      ensures log == if exit.Closed? then old(log) + [DeferredClaim] else old(log)
    {
      hide Lawful, ProgressOf, Track;
      var r := Commit();
      if r.Done? {
        EndingStep(DeferredClaim);
        return Closed;
      }
      return NotClosed;
    }

    /** What RunOne does with a call that did not commit: nothing for a lost lease, hand back while it is busy, or fail. */
    method Refused(r: Outcome) returns (exit: Exit)
      requires Valid() && !r.Done? && Now().reason.None?
      requires r.Lost? || r.Busy? ==> exists n: nat :: n < outcomes && world.outcomes(n) == r
      requires r.Broken? ==> StoreTrouble(world) || PlanTrouble(world)
      modifies this`log, this`outcomes, this`checks
      ensures Explained(exit) && !exit.GoOn?
      ensures r.Lost? ==> exit.LeaseLost? && log == old(log)
      ensures r.Busy? ==> (exit.Closed? <==> world.outcomes(old(outcomes)).Done?) && log == if exit.Closed? then old(log) + [DeferredClaim] else old(log)
      ensures r.Broken? ==>
                && (exit.Closed? <==> !world.cancelled(old(checks)) && world.outcomes(old(outcomes)).Done?)
                && log == if exit.Closed? then old(log) + [Ending(world, policy, STORAGE)] else old(log)
    {
      hide Lawful, ProgressOf, Ending;
      if r.Busy? {
        exit := Defer();
      } else if r.Broken? {
        exit := Fail(Transient, 0);
      } else {
        exit := Exit.LeaseLost;
      }
    }

    /** Gives the write fence back once nothing is in doubt. */
    method Release() returns (ok: bool)
      requires Valid() && Now().asks == 0 && Now().reason.None? && Now().fix.held && !Now().fix.unsettled
      modifies this`log, this`outcomes
      ensures Valid() && Now() == old(Now()).(fix := old(Now()).fix.(held := !ok)) && log == old(log) + (if ok then [Released] else [])
      ensures outcomes == old(outcomes) + 1 && ok == world.outcomes(old(outcomes)).Done?
    {
      hide Lawful, ProgressOf;
      var r := Commit();
      if r.Done? {
        Record(Released);
      }
      return r.Done?;
    }

    /**
     * The fence, then the operator's grant for one object, before its repair. The run goes on with the grant
     * spent, or without one and the fence given back; otherwise at most the claim was failed.
     */
    method TakeGrant(item: Item, k: nat) returns (exit: Exit, allowed: bool, reserved: bool)
      requires Valid() && Now().asks == 0 && Settles(Now())
      modifies this`log, this`outcomes, this`checks
      ensures Explained(exit) && (allowed ==> exit.GoOn? && world.granted(k))
      ensures exit.GoOn? ==> Now().fix.done == old(Now()).fix.done
      ensures exit.GoOn? ==> Now().fix.repair.None? && Now().fix.held == reserved && reserved == (world.guarded && allowed)
      ensures exit.GoOn? ==> log == old(log) + GrantSteps(world.guarded, allowed, item.objectId) && SamePages(old(Now()), Now())
      ensures exit.GoOn? ==> (allowed ==> Now().fix.grant == Some(item.objectId)) && (reserved ==> !Now().fix.unsettled)
      ensures exit.GoOn? ==> allowed == world.granted(k)
      ensures !exit.GoOn? ==> Abandoned(old(log), log, Ending(world, policy, STORAGE))
    {
      hide Lawful, ProgressOf, Ending, FailDelay, ValidSyncPage, ToBatch, TrackReply, TrackRepair;
      allowed, reserved := false, false;
      if world.guarded {
        var begun := Commit();
        if !begun.Done? {
          return Blocked, false, false;
        }
        Record(Reserved);
        reserved := true;
      }
      var r := Commit();
      assert world.outcomes(outcomes - 1) == r;
      if r.Done? && world.granted(k) {
        Record(Consumed(item.objectId));
        return GoOn, true, reserved;
      }
      if reserved {
        var freed := Release();
        if !freed {
          return Stuck, false, false;
        }
      }
      if r.Done? {
        return GoOn, false, false;
      }
      if r.Lost? {
        return Exit.LeaseLost, false, false;
      }
      exit := Fail(Transient, 0);
      return exit, false, false;
    }

    /** repairObject: when the run goes on, the answer was recorded, and no fence is left that a result would free. */
    method RepairObject(k: nat) returns (exit: Exit)
      requires Valid() && Now().asks == 0 && Settles(Now()) && Now().fix.done == k < |world.due|
      modifies this`log, this`outcomes, this`checks
      ensures Explained(exit)
      ensures exit.GoOn? ==> SamePages(old(Now()), Now()) && Settles(Now()) && Now().fix.done == k + 1
    {
      hide Lawful, ProgressOf, Track, Ending, FailDelay, ValidSyncPage, ToBatch, GrantSteps, GivesUp, RepairReason;
      var item := world.due[k];
      if item.zone.None? {
        assert GivesUp(world, policy, Now()) by { ZoneGivesUp(world, policy, Now(), k); }
        exit := Fail(Transient, 0);
        return;
      }
      var allowed, reserved := false, false;
      if item.zone.value && item.authorized {
        exit, allowed, reserved := TakeGrant(item, k);
        if !exit.GoOn? {
          return;
        }
      }
      var reply := AskRepair(k, allowed);
      var stop := Check();
      if stop {
        return Cancelled;
      }
      exit := RecordOutcome(reply, reserved);
    }

    /** The repair call itself. */
    method AskRepair(k: nat, allowed: bool) returns (reply: RepairReply)
      requires Valid() && Now().asks == 0 && Now().reason.None? && Now().fix.repair.None? && Now().fix.done == k < |world.due|
      requires allowed ==> world.due[k].authorized && world.due[k].zone == Some(true) && world.granted(k)
      requires allowed ==> Now().fix.grant == Some(world.due[k].objectId)
      modifies this`log
      ensures Valid() && reply == world.repairs(k) && log == old(log) + [Repaired(world.due[k].objectId, allowed, reply)]
      ensures Now() == old(Now()).(fix := AfterRepair(old(Now()).fix, allowed, reply), reason := RepairReason(reply))
    {
      hide Lawful, ProgressOf, AfterRepair;
      reply := world.repairs(k);
      assert RepairedAt(world, k, world.due[k].objectId, allowed, reply);
      Record(Repaired(world.due[k].objectId, allowed, reply));
    }

    /** What follows a repair call: the run ends, or the outcome is stored and a fence still held is given back. */
    method RecordOutcome(reply: RepairReply, reserved: bool) returns (exit: Exit)
      requires Valid() && Now().asks == 0 && Now().fix.repair == Some(reply) && Now().fix.held == reserved && (reserved ==> world.guarded)
      requires Now().reason == RepairReason(reply)
      modifies this`log, this`outcomes, this`checks
      ensures Explained(exit)
      ensures exit.GoOn? ==> SamePages(old(Now()), Now()) && Settles(Now()) && Now().fix.done == old(Now()).fix.done
    {
      hide Lawful, ProgressOf, Ending, FailDelay, ValidSyncPage, ToBatch, GivesUp;
      if reply.RepairFailure? && Fatal(reply.kind) {
        exit := Fail(reply.kind, reply.retryAfter);
        return;
      }
      if reply.RepairResult? && !reply.valid {
        exit := Fail(Protocol, 0);
        return;
      }
      var r := Commit();
      assert world.outcomes(outcomes - 1) == r;
      if r.Lost? {
        return Exit.LeaseLost;
      }
      if !r.Done? {
        assert GivesUp(world, policy, Now()) by { StoreGivesUp(world, policy, Now(), outcomes - 1); }
        exit := Fail(Transient, 0);
        return;
      }
      Record(if reply.RepairFailure? then RepairNoted else RepairApplied);
      if reply.RepairResult? && reserved {
        var ok := Release();
        return if ok then GoOn else Stuck;
      }
      return GoOn;
    }

    /**
     * beginCapture: plan, possibly start over from an empty cursor, and open a page attempt. A capture that is
     * not planned or cannot be opened is given up without stopping the run.
     */
    method BeginCapture() returns (r: Outcome, enabled: bool, restarted: bool)
      requires Valid() && Now().tokens == {} && Now().fix.repair.None? && Now().reason.None?
      modifies this`log, this`outcomes, this`plans
      ensures Valid()
      ensures log == old(log) + (if restarted then [CaptureReset] else []) + (if enabled then [CaptureStarted] else [])
      ensures Now() == old(Now()).(replacing := restarted || old(Now()).replacing,
                                   capturing := enabled || (!restarted && old(Now()).capturing))
      ensures enabled ==> r.Done? && world.plans(old(plans)).enabled
      ensures restarted ==> world.plans(old(plans)).enabled && world.plans(old(plans)).reset
      ensures world.plans(old(plans)).ok && !world.plans(old(plans)).enabled ==> r.Done? && log == old(log)
      ensures r.Lost? || r.Busy? ==> exists n: nat :: n < outcomes && world.outcomes(n) == r
      ensures r.Broken? ==> StoreTrouble(world) || PlanTrouble(world)
      ensures Calm(world) && world.plans(old(plans)).enabled ==> enabled && (restarted <==> world.plans(old(plans)).reset)
      ensures old(outcomes) <= outcomes
    {
      hide Lawful, ProgressOf;
      restarted := false;
      var plan := world.plans(plans);
      plans := plans + 1;
      if !plan.ok || !plan.enabled {
        return if plan.ok then Done else Broken, false, false;
      }
      if plan.reset {
        r := Commit();
        assert world.outcomes(outcomes - 1) == r;
        if !r.Done? {
          return r, false, false;
        }
        Record(CaptureReset);
        restarted := true;
        plan := world.plans(plans);
        plans := plans + 1;
        if !plan.ok || !plan.enabled || plan.reset {
          assert PlanTrouble(world) by { assert world.plans(plans - 2).enabled && world.plans(plans - 2 + 1) == plan; }
          return Broken, false, true;
        }
      }
      r := Commit();
      assert world.outcomes(outcomes - 1) == r;
      if r.Lost? || r.Busy? {
        return r, false, restarted;
      }
      if r.Broken? {
        return Done, false, restarted;
      }
      Record(CaptureStarted);
      return Done, true, restarted;
    }

    /**
     * Stores one page: through the capture, or as an ordinary batch that carries it, never both. A capture that fails
     * is given up and the page goes the ordinary way.
     */
    method Store(page: Page, full: bool, degraded: bool, captured: bool) returns (r: Outcome, capture: bool)
      requires Valid() && Storable(Now(), page) && (captured ==> Now().capturing && !degraded)
      requires full == Now().mode.Replacement? && degraded == Now().warned
      modifies this`log, this`outcomes, this`checks, this`clock
      ensures Lawful(world, policy, log) && (capture ==> captured) && (Now().ended <==> r.Done? && page.complete)
      ensures r.Done? && capture ==> log == old(log) + [if page.complete then Finalized(page) else Staged(page)]
      ensures r.Done? && !capture ==>
                exists b :: log == old(log) + [Applied(b, page.complete)] && StoresPage(world, policy, old(Now()), b, page)
      ensures !r.Done? ==> log == old(log)
      ensures r.Done? ==> Now() == old(Now()).(stored := true, ended := page.complete, capturing := capture && old(Now()).capturing)
      ensures old(outcomes) < outcomes && (!r.Done? ==> r == world.outcomes(outcomes - 1))
      ensures world.outcomes(old(outcomes)).Done? ==> r.Done? && capture == captured
    {
      hide Lawful, ProgressOf, ToBatch, StoresPage;
      var next := 0;
      if page.complete {
        next := world.now(clock) + policy.pollInterval;
        clock := clock + 1;
      }
      capture := captured;
      if captured {
        r := Commit();
        if r.Done? {
          Record(if page.complete then Finalized(page) else Staged(page));
          return r, true;
        }
        if r.Lost? || r.Busy? {
          return r, true;
        }
        var stop := Check();
        if stop {
          return r, true;
        }
        capture := false;
      }
      r := Commit();
      if r.Done? {
        ghost var at: nat := if page.complete then clock - 1 else 0;
        ghost var before := Now();
        var batch := ToBatch(page, world.calendar, full, degraded, next);
        BatchLaw(page, world.calendar, full, degraded, next, world.now(at) + policy.pollInterval);
        AppliedMeans(world, policy, before, Applied(batch, page.complete));
        Record(Applied(batch, page.complete));
      }
    }

    /** The loop's variables say what the log says. */
    ghost predicate InLoop(l: Loop)
      reads this
    {
      var d := Now();
      && d.asks == l.pages <= policy.maxPages && d.resets == l.resets <= policy.maxResets && d.reason.None?
      && l.degraded == d.warned && l.token == d.next && l.seen == d.received && (l.capture ==> d.capturing)
      && l.mode == (if d.replacing || world.cursor == "" then Replacement else Incremental)
      && d.stored && d.fix.repair.None? && d.fix.done == |world.due|
      && d.tokens <= l.seen + {""} && l.token !in d.tokens && (l.token == "" || l.token in l.seen)
    }

    /** A page that asks for a reset: honoured from an empty cursor and with a new capture, or the run ends. */
    method HonourReset(l: Loop) returns (exit: Exit, next: Loop)
      requires Valid() && Now().reason.None? && Now().asks == l.pages <= policy.maxPages && Now().resets == l.resets <= policy.maxResets
      requires Now().page.Some? && Now().page.value.resetRequired && ValidSyncPage(Now().mode, Now().page.value)
      requires !Now().stored && Now().fix.repair.None? && Now().fix.done == |world.due|
      modifies this
      ensures Explained(exit)
      ensures exit.GoOn? ==> InLoop(next) && next.pages == l.pages && next.resets == l.resets + 1 && next.mode.Replacement?
    {
      hide Lawful, ProgressOf, Ending, StoreTrouble, PlanTrouble;
      if l.resets + 1 > policy.maxResets {
        exit := Fail(Transient, 0);
        return exit, l;
      }
      var r := Commit();
      assert world.outcomes(outcomes - 1) == r;
      if r.Done? {
        Record(ResetHonoured);
      }
      var stop := Check();
      if stop {
        return Cancelled, l;
      }
      if !r.Done? {
        BrokenTrouble(world, outcomes - 1);
        exit := Refused(r);
        return exit, l;
      }
      var begun, capture, restarted := BeginCapture();
      if !begun.Done? {
        exit := Refused(begun);
        return exit, l;
      }
      return GoOn, Loop(Replacement, "", {}, false, capture, l.pages, l.resets + 1);
    }

    /** A page with content: stored unless its continuation was seen before; the run goes on after any but the last. */
    method KeepPage(l: Loop, page: Page) returns (exit: Exit, next: Loop)
      requires Valid() && Now().page == Some(page) && !Now().stored && !page.resetRequired
      requires ValidSyncPage(Now().mode, page) && Now().fix.repair.None? && Now().fix.done == |world.due|
      requires Now().asks == l.pages <= policy.maxPages && Now().resets == l.resets <= policy.maxResets
      requires l.mode == Now().mode == (if Now().replacing || world.cursor == "" then Replacement else Incremental)
      requires l.degraded == Now().warned && (l.capture ==> Now().capturing) && page.nextToken == Now().next
      requires Now().tokens <= l.seen + {""} && (!page.complete ==> page.nextToken != "")
      requires Now().reason == (if !page.complete && page.nextToken in l.seen then Some(Reason(Protocol, 0)) else None)
      requires !page.complete && page.nextToken !in l.seen ==> Now().received == l.seen + {page.nextToken}
      modifies this
      ensures Explained(exit)
      ensures exit.GoOn? ==> InLoop(next) && next.pages == l.pages && !page.complete
    {
      hide Lawful, ProgressOf, Ending, ToBatch, StoresPage, StoreTrouble, PlanTrouble;
      if !page.complete && page.nextToken in l.seen {
        exit := Fail(Protocol, 0);
        return exit, l;
      }
      var r, capture := Store(page, l.mode.Replacement?, l.degraded, l.capture && !l.degraded);
      var stop := Check();
      if stop {
        return Cancelled, l;
      }
      if r.Done? && page.complete {
        return Closed, l;
      }
      if !r.Done? {
        BrokenTrouble(world, outcomes - 1);
        exit := Refused(r);
        return exit, l;
      }
      return GoOn, l.(token := page.nextToken, seen := l.seen + {page.nextToken}, capture := capture);
    }

    /** One request and what its answer leads to. */
    method Turn(l: Loop) returns (exit: Exit, next: Loop)
      requires Valid() && InLoop(l) && l.pages < policy.maxPages
      modifies this
      ensures Explained(exit)
      ensures exit.GoOn? ==> InLoop(next) && next.pages == l.pages + 1
      ensures !exit.Cancelled? && world.replies(l.pages).Failure? ==> !exit.GoOn?
    {
      hide Lawful, ProgressOf, ValidSyncPage, ToBatch, Ending;
      var reply := world.replies(l.pages);
      Record(Asked(l.mode, l.token, reply));
      var stop := Check();
      if stop {
        return Cancelled, l;
      }
      if reply.Failure? {
        exit := Fail(reply.kind, reply.retryAfter);
        return exit, l;
      }
      var page := reply.page;
      var ok := ValidatePage(l.mode, page);
      if !ok {
        exit := Fail(Protocol, 0);
        return exit, l;
      }
      if !page.resetRequired {
        Continuation(l.mode, page);
      }
      var asked := l.(pages := l.pages + 1, degraded := l.degraded || page.warnings != []);
      if page.resetRequired {
        exit, next := HonourReset(asked);
      } else {
        exit, next := KeepPage(asked, page);
      }
    }

    /**
     * RunOne. Whatever the provider and the store answer, the run is lawful and returns only with its claim ended, or
     * because the context was cancelled, the lease was lost, the fence could not be taken or given back, or the
     * transition that ends the claim did not commit. Without any of these the claim is ended, and in a calm run it is
     * ended as the first reply that does not go on demands.
     */
    method RunOne() returns (exit: Exit)
      requires log == [] && policy.maxPages > 0 && policy.maxResets > 0
      modifies this
      ensures Lawful(world, policy, log)
      ensures Explained(exit) && !exit.GoOn?
      ensures (forall n: nat :: !world.cancelled(n) && world.outcomes(n).Done?) ==> exit.Closed? && Now().ended
      ensures Calm(world) ==> exit.Closed? && FeedObeyed(world, policy, log)
    {
      hide Lawful, ProgressOf, Ending, GivesUp, StoreTrouble, PlanTrouble, FeedObeyed;
      Nothing(world, policy);
      exit := GoOn;
      for i := 0 to |world.due|
        invariant Explained(exit) && (exit.GoOn? ==> SamePages(NOTHING, Now()) && Settles(Now()) && Now().fix.done == i)
      {
        if exit.GoOn? {
          exit := RepairObject(i);
        }
      }
      if exit.GoOn? {
        exit := Drain();
      }
      CalmObeys(world, policy, log);
    }

    /** The capture and the page loop, once the repairs are done. */
    method Drain() returns (exit: Exit)
      requires Valid() && SamePages(NOTHING, Now()) && Settles(Now()) && Now().fix.done == |world.due|
      requires policy.maxPages > 0 && policy.maxResets > 0
      modifies this
      ensures Explained(exit) && !exit.GoOn?
    {
      hide Lawful, ProgressOf, Ending, GivesUp, StoreTrouble, PlanTrouble;
      var r, capture, restarted := BeginCapture();
      if !r.Done? {
        exit := Refused(r);
        return;
      }
      var cursor := if restarted then "" else world.cursor;
      var l := Loop(if cursor == "" then Replacement else Incremental, "", {}, false, capture, 0, 0);
      exit := GoOn;
      while exit.GoOn?
        invariant Explained(exit) && (exit.GoOn? ==> InLoop(l))
        decreases exit.GoOn?, policy.maxPages - l.pages
      {
        var stop := Check();
        if stop {
          return Cancelled;
        }
        if l.pages >= policy.maxPages {
          LimitGivesUp(world, policy, Now());
          exit := Fail(Transient, 0);
          return;
        }
        exit, l := Turn(l);
      }
    }
  }

  lemma ZoneGivesUp(w: Surroundings, p: Policy, d: Progress, k: nat)
    requires k < |w.due| && w.due[k].zone.None?
    ensures GivesUp(w, p, d)
  {
  }

  lemma StoreGivesUp(w: Surroundings, p: Policy, d: Progress, n: nat)
    requires w.outcomes(n).Busy? || w.outcomes(n).Broken?
    ensures GivesUp(w, p, d)
  {
  }

  lemma LimitGivesUp(w: Surroundings, p: Policy, d: Progress)
    requires d.asks >= p.maxPages && d.stored
    ensures GivesUp(w, p, d)
  {
  }

  lemma BrokenTrouble(w: Surroundings, n: nat)
    ensures w.outcomes(n).Broken? ==> StoreTrouble(w)
  {
  }

  /** A sound page that does not ask for a reset either ends or continues with a token. */
  lemma Continuation(mode: Mode, page: Page)
    requires ValidSyncPage(mode, page) && !page.resetRequired
    ensures page.complete ==> page.nextToken == ""
    ensures !page.complete ==> page.nextToken != ""
  {
  }

  /** The time of the next poll matters on the last page alone. */
  lemma BatchLaw(page: Page, calendar: string, full: bool, degraded: bool, next: int, other: int)
    requires page.complete ==> next == other
    ensures ToBatch(page, calendar, full, degraded, next) == ToBatch(page, calendar, full, degraded, other)
    ensures var b := ToBatch(page, calendar, full, degraded, next);
            b.degraded == degraded && b.nextCursor == if page.complete && !degraded then page.nextCursor else ""
  {
  }

  lemma Nothing(w: Surroundings, p: Policy)
    ensures Lawful(w, p, []) && ProgressOf([]) == NOTHING
  {
  }
}
