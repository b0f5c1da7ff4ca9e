/** The coordinator that drains provider pages under one claim (internal/eventsync/service.go). */
module Coordinator {
  import opened Base
  import opened Events
  import opened EventCache
  import opened ProviderPages

  // --- retries ----------------------------------------------------------------------------

  datatype Policy = Policy(pollInterval: int, retryBase: int, retryMax: int, maxPages: int, maxResets: int)

  const MINUTE := 60_000_000_000

  /** Service.policy: defaults for what the adapter left out, and a maximum that is not below the base. */
  function Settled(p: Policy): Policy
  {
    var base := if p.retryBase <= 0 then MINUTE else p.retryBase;
    var most := if p.retryMax <= 0 then 15 * MINUTE else p.retryMax;
    Policy(if p.pollInterval <= 0 then 5 * MINUTE else p.pollInterval, base, if most < base then base else most,
           if p.maxPages <= 0 then 1000 else p.maxPages, if p.maxResets <= 0 then 2 else p.maxResets)
  }

  function Min(a: int, b: int): int { if a < b then a else b }

  function Max(a: int, b: int): int { if a > b then a else b }

  function RetryDelay(p: Policy, retryAfter: int): int
  {
    if retryAfter > 0 then retryAfter
    else Min(p.retryBase, if 0 < p.pollInterval < p.retryMax then p.pollInterval else p.retryMax)
  }

  /** The delay Service.fail schedules; a repeated error waits for the poll interval. */
  function FailDelay(p: Policy, retryAfter: int, repeated: bool): int
  {
    var delay := RetryDelay(p, retryAfter);
    if retryAfter <= 0 && repeated then Min(Max(delay, p.pollInterval), p.retryMax) else delay
  }

  /**
   * Under any configuration a delay without RetryAfter is the least of base, poll interval and maximum, and after a
   * repeated error the lesser of the last two; it is positive. What the adapter configured is kept.
   */
  lemma DelayBounds(raw: Policy, retryAfter: int)
    requires retryAfter <= 0
    ensures var p := Settled(raw);
            && 0 < FailDelay(p, retryAfter, false) <= FailDelay(p, retryAfter, true) <= p.retryMax
            && FailDelay(p, retryAfter, false) == Min(p.retryBase, Min(p.pollInterval, p.retryMax))
            && FailDelay(p, retryAfter, true) == Min(p.pollInterval, p.retryMax)
    ensures var p := Settled(raw);
            && (raw.retryBase > 0 ==> p.retryBase == raw.retryBase) && (raw.pollInterval > 0 ==> p.pollInterval == raw.pollInterval)
            && (raw.maxPages > 0 ==> p.maxPages == raw.maxPages) && (raw.maxResets > 0 ==> p.maxResets == raw.maxResets)
            && (0 < raw.retryBase <= raw.retryMax ==> p.retryMax == raw.retryMax)
            && p.retryBase <= p.retryMax && p.maxPages > 0 && p.maxResets > 0
    ensures raw == Policy(0, 0, 0, 0, 0) ==> Settled(raw) == Policy(5 * MINUTE, MINUTE, 15 * MINUTE, 1000, 2)
  {
  }

  // --- one run --------------------------------------------------------------------------------

  datatype Class = Transient | RateLimited | Auth | Permission | Unsupported | Protocol

  predicate Parks(kind: Class)
  {
    kind.Auth? || kind.Permission? || kind.Unsupported? || kind.Protocol?
  }

  datatype Reply = Failure(kind: Class, retryAfter: int) | Success(page: Page)

  /** How a store call ended: committed, lease lost, refused by the dispatch fence, or failed. */
  datatype Outcome = Done | Lost | Busy | Broken

  datatype Plan = Plan(ok: bool, enabled: bool, reset: bool)

  /** A quarantined object that is due; zone is the check of its calendar's time zone, None when it cannot be read. */
  datatype Item = Item(objectId: string, authorized: bool, zone: Option<bool>)

  /** A failed repair, or a result and whether it is well formed. */
  datatype RepairReply = RepairFailure(kind: Class, retryAfter: int) | RepairResult(valid: bool)

  /** The provider, the store, the capture planner and the context, whatever they do; each by call number. */
  datatype Surroundings = Surroundings(
    replies: nat -> Reply, outcomes: nat -> Outcome, plans: nat -> Plan, cancelled: nat -> bool, calendar: string, cursor: string,
    repeatedError: Class -> bool, now: nat -> int,
    due: seq<Item>, guarded: bool, repairs: nat -> RepairReply, granted: nat -> bool)

  /** What the run did, in order; store calls appear only when they committed. */
  datatype Step =
    | Asked(mode: Mode, token: string, reply: Reply)
    | ResetHonoured
    | CaptureReset
    | CaptureStarted
    | Applied(batch: Batch, final: bool)
    | Staged(page: Page)
    | Finalized(page: Page)
    | FailedClaim(delay: int)
    | ParkedClaim(kind: Class)
    | DeferredClaim
    | Reserved
    | Released
    | Consumed(objectId: string)
    | Repaired(objectId: string, allowed: bool, outcome: RepairReply)
    | RepairApplied
    | RepairNoted
  {
    /** The transition gives the claim up. */
    predicate Ends() { FailedClaim? || ParkedClaim? || DeferredClaim? || Finalized? || (Applied? && final) }
  }

  /** Why a claim would end now: the class of the last failure, and the delay the provider asked for. */
  datatype Reason = Reason(kind: Class, retryAfter: int)

  /** The reason of a run that gives up by itself: the store, a plan or a limit. */
  const STORAGE := Reason(Transient, 0)

  /**
   * What is known of the repairs: the grant at hand, the last repair's answer until it is recorded, whether a write
   * fence is still to be given back, whether a repair may have mutated the provider without a record, and how many
   * grants were consumed, repairs allowed to mutate, and due objects repaired.
   */
  datatype Repairs = Repairs(
    grant: Option<string>, repair: Option<RepairReply>, held: bool, unsettled: bool, grants: nat, mutations: nat, done: nat)
  {
    /** Every repair allowed to mutate used up a grant of its own. */
    predicate Covered() { mutations + (if grant.Some? then 1 else 0) <= grants }
  }

  function AfterRepair(x: Repairs, allowed: bool, outcome: RepairReply): Repairs
  {
    x.(grant := None, repair := Some(outcome), unsettled := allowed || x.unsettled,
       mutations := if allowed then x.mutations + 1 else x.mutations, done := x.done + 1)
  }

  /**
   * What a run's steps so far amount to. warned, tokens, received and next restart with every honoured reset:
   * whether a page carried a warning, the tokens asked for, the tokens pages continued with, the token to ask
   * for. stored says whether the last page was; replacing whether the cursor was cleared; capturing whether the
   * page attempt is still complete; reason why the claim has to end, if it has.
   */
  datatype Progress = Progress(
    asks: nat, resets: nat, warned: bool, page: Option<Page>, mode: Mode, replacing: bool, tokens: set<string>, received: set<string>,
    next: string, stored: bool, capturing: bool, fix: Repairs, reason: Option<Reason>, ended: bool)
  {
    /** The page continues with a token some page since the last reset already continued with. */
    predicate Repeats(p: Page) { !p.resetRequired && !p.complete && p.nextToken in received }
  }

  const NOTHING := Progress(0, 0, false, None, Incremental, false, {}, {}, "", true, false, Repairs(None, None, false, false, 0, 0, 0), None, false)

  /** Repair failures that end the whole run. */
  predicate Fatal(kind: Class)
  {
    kind.Auth? || kind.Permission? || kind.Unsupported?
  }

  function TrackReply(d: Progress, mode: Mode, reply: Reply): Progress
  {
    match reply
    case Failure(kind, retryAfter) => d.(reason := Some(Reason(kind, retryAfter)))
    case Success(p) =>
      var sound := ValidSyncPage(mode, p) && !d.Repeats(p);
      d.(page := Some(p), warned := d.warned || p.warnings != [], next := p.nextToken, stored := false,
         received := if sound && !p.resetRequired && !p.complete then d.received + {p.nextToken} else d.received,
         reason := if sound then None else Some(Reason(Protocol, 0)))
  }

  function TrackRepair(d: Progress, allowed: bool, outcome: RepairReply): Progress
  {
    d.(fix := AfterRepair(d.fix, allowed, outcome), reason := RepairReason(outcome))
  }

  /** Why a repair's answer ends the claim, if it does; other failures concern the one object. */
  function RepairReason(outcome: RepairReply): Option<Reason>
  {
    match outcome
    case RepairFailure(kind, retryAfter) => if Fatal(kind) then Some(Reason(kind, retryAfter)) else None
    case RepairResult(valid) => if valid then None else Some(Reason(Protocol, 0))
  }

  function Track(d: Progress, s: Step): Progress
  {
    match s
    case Asked(mode, token, reply) =>
      TrackReply(d.(asks := d.asks + 1, mode := mode, tokens := d.tokens + {token}), mode, reply)
    case ResetHonoured =>
      d.(resets := d.resets + 1, page := None, stored := true, warned := false, tokens := {}, received := {}, next := "", capturing := false, replacing := true)
    case CaptureReset => d.(capturing := false, replacing := true)
    case CaptureStarted => d.(capturing := true)
    case Applied(_, final) => d.(stored := true, capturing := false, ended := final)
    case Staged(_) => d.(stored := true)
    case Finalized(_) => d.(stored := true, ended := true)
    case FailedClaim(_) => d.(ended := true)
    case ParkedClaim(_) => d.(ended := true)
    case DeferredClaim => d.(ended := true)
    case Reserved => d.(fix := d.fix.(held := true, unsettled := false))
    case Released => d.(fix := d.fix.(held := false))
    case Consumed(objectId) => d.(fix := d.fix.(grant := Some(objectId), grants := d.fix.grants + 1))
    case Repaired(_, allowed, outcome) => TrackRepair(d, allowed, outcome)
    case RepairApplied => d.(fix := d.fix.(repair := None, unsettled := false))
    case RepairNoted => d.(fix := d.fix.(repair := None, held := false))
  }

  function ProgressOf(log: seq<Step>): Progress
  {
    if log == [] then NOTHING else Track(ProgressOf(log[..|log| - 1]), log[|log| - 1])
  }

  lemma ProgressStep(log: seq<Step>, s: Step)
    ensures ProgressOf(log + [s]) == Track(ProgressOf(log), s)
  {
    hide Track;
    assert (log + [s])[..|log|] == log;
  }

  /** The last page received is this one, it is sound, and it has not been stored yet. */
  predicate Storable(d: Progress, page: Page)
  {
    d.page == Some(page) && !d.stored && ValidSyncPage(d.mode, page) && !page.resetRequired && d.reason.None?
  }

  /** Some plan cannot be read, or changes its mind after the reset it asked for. */
  ghost predicate PlanTrouble(w: Surroundings)
  {
    exists n: nat :: !w.plans(n).ok || (w.plans(n).enabled && w.plans(n).reset && (!w.plans(n + 1).enabled || w.plans(n + 1).reset))
  }

  /** Some store call is refused or fails, though not for a lost lease. */
  ghost predicate StoreTrouble(w: Surroundings)
  {
    exists n: nat :: w.outcomes(n).Busy? || w.outcomes(n).Broken?
  }

  predicate ZoneTrouble(w: Surroundings)
  {
    exists k | 0 <= k < |w.due| :: w.due[k].zone.None?
  }

  /** What lets a run give up although the provider gave no reason: a limit, or trouble with the store, a plan or a zone. */
  ghost predicate GivesUp(w: Surroundings, p: Policy, d: Progress)
  {
    || (d.asks >= p.maxPages && d.stored)
    || (d.page.Some? && !d.stored && d.page.value.resetRequired && d.resets >= p.maxResets)
    || StoreTrouble(w) || PlanTrouble(w) || ZoneTrouble(w)
  }

  /** The k-th due object was repaired with this answer; only an authorized and granted one may mutate. */
  predicate RepairedAt(w: Surroundings, k: nat, objectId: string, allowed: bool, outcome: RepairReply)
  {
    && k < |w.due| && w.due[k].objectId == objectId && outcome == w.repairs(k)
    && (allowed ==> w.due[k].authorized && w.due[k].zone == Some(true) && w.granted(k))
  }

  /**
   * When a step may follow. Every due object is repaired, in order, before the first request. A request continues where the last page left off, once that page was stored, and in
   * replacement mode once the cursor was cleared; a stored page is the sound one just received, stored once,
   * captured only by an attempt that was opened before the first request since the last reset, has every page
   * since and no warning; the cursor moves only on a clean end; a claim ends once, parked or failed for the last
   * reason, with that reason's delay, and without one only at a limit or in trouble; a repair mutates only with its own grant, taken under the fence, its answer
   * is recorded as what it was before anything else happens, and its fence goes only once a result is recorded.
   */
  ghost predicate Law(w: Surroundings, p: Policy, d: Progress, s: Step)
  {
    && !d.ended
    && match s
       case Asked(mode, token, reply) =>
         && d.asks < p.maxPages && reply == w.replies(d.asks) && d.stored && d.fix.repair.None? && d.reason.None? && d.fix.done == |w.due|
         && mode == (if d.replacing || w.cursor == "" then Replacement else Incremental)
         && token == d.next && token !in d.tokens
       case ResetHonoured =>
         && d.resets < p.maxResets && d.page.Some? && !d.stored
         && d.page.value.resetRequired && ValidSyncPage(d.mode, d.page.value) && d.reason.None?
       case CaptureReset => d.tokens == {} && d.fix.repair.None? && d.reason.None?
       case CaptureStarted => d.tokens == {} && d.fix.repair.None? && d.reason.None?
       case Applied(b, final) =>
         && d.page.Some? && Storable(d, d.page.value) && final == d.page.value.complete
         && b.degraded == d.warned && b.nextCursor == (if final && !d.warned then d.page.value.nextCursor else "")
         && exists n: nat :: b == ToBatch(d.page.value, w.calendar, d.mode.Replacement?, d.warned, w.now(n) + p.pollInterval)
       case Staged(page) => Storable(d, page) && d.capturing && !d.warned && !page.complete
       case Finalized(page) => Storable(d, page) && d.capturing && !d.warned && page.complete
       case FailedClaim(delay) =>
         var reason := if d.reason.Some? then d.reason.value else STORAGE;
         && (d.reason.None? ==> GivesUp(w, p, d)) && !Parks(reason.kind)
         && delay == FailDelay(p, reason.retryAfter, w.repeatedError(reason.kind))
       case ParkedClaim(kind) => d.reason.Some? && kind == d.reason.value.kind && Parks(kind)
       case DeferredClaim => d.reason.None? && exists n: nat :: w.outcomes(n).Busy?
       case Reserved => d.asks == 0 && d.fix.repair.None? && d.reason.None?
       case Consumed(_) => d.asks == 0 && d.fix.repair.None? && d.reason.None? && (w.guarded ==> d.fix.held)
       case Repaired(objectId, allowed, outcome) =>
         && d.asks == 0 && d.fix.repair.None? && d.reason.None? && (allowed ==> d.fix.grant == Some(objectId))
         && RepairedAt(w, d.fix.done, objectId, allowed, outcome)
       case RepairApplied => d.asks == 0 && d.fix.repair == Some(RepairResult(true))
       case RepairNoted => d.asks == 0 && d.fix.repair.Some? && d.fix.repair.value.RepairFailure? && !Fatal(d.fix.repair.value.kind)
       case Released => d.asks == 0 && d.reason.None? && d.fix.held && !d.fix.unsettled
  }

  ghost predicate Lawful(w: Surroundings, p: Policy, log: seq<Step>)
  {
    forall i | 0 <= i < |log| :: Law(w, p, ProgressOf(log[..i]), log[i])
  }

  lemma LawfulStep(w: Surroundings, p: Policy, log: seq<Step>, s: Step)
    requires Lawful(w, p, log) && Law(w, p, ProgressOf(log), s)
    ensures Lawful(w, p, log + [s])
  {
    hide Law;
    var after := log + [s];
    forall i | 0 <= i < |after| ensures Law(w, p, ProgressOf(after[..i]), after[i]) {
      assert after[..i] == if i < |log| then log[..i] else log;
    }
  }

  lemma LawfulFront(w: Surroundings, p: Policy, log: seq<Step>)
    requires Lawful(w, p, log) && log != []
    ensures Lawful(w, p, log[..|log| - 1]) && Law(w, p, ProgressOf(log[..|log| - 1]), log[|log| - 1])
  {
    hide Law;
    var n := |log| - 1;
    forall i | 0 <= i < n ensures Law(w, p, ProgressOf(log[..n][..i]), log[..n][i]) {
      assert log[..n][..i] == log[..i];
    }
  }

  lemma LawfulPrefix(w: Surroundings, p: Policy, log: seq<Step>, j: nat)
    requires Lawful(w, p, log) && j <= |log|
    ensures Lawful(w, p, log[..j])
  {
    hide Law;
    forall i | 0 <= i < j ensures Law(w, p, ProgressOf(log[..j][..i]), log[..j][i]) {
      assert log[..j][..i] == log[..i];
    }
  }

  lemma LawAt(w: Surroundings, p: Policy, log: seq<Step>, i: nat)
    requires Lawful(w, p, log) && i < |log|
    ensures Law(w, p, ProgressOf(log[..i]), log[i])
  {
    hide Law;
  }

  /** How a claim given up for this reason ends. */
  function Ending(w: Surroundings, p: Policy, reason: Reason): Step
  {
    if Parks(reason.kind) then ParkedClaim(reason.kind)
    else FailedClaim(FailDelay(p, reason.retryAfter, w.repeatedError(reason.kind)))
  }
}
