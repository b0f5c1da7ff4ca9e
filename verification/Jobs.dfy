/** The job queue: rules, jobs and their runs (internal/storage/operations.go, internal/storage/sync_control.go). */
module Jobs {
  import opened Base

  const JOB_LEASE := 900_000_000_000

  datatype Kind = Scheduled | Manual | DryRun

  /** Job states and run outcomes share their names. */
  datatype State = Pending | Running | Succeeded | Failed | Stopped | Cancelled | Unknown

  datatype RuleState = Enabled | Paused | Archived

  /** usable: both calendars of the rule are enabled. */
  datatype Rule = Rule(state: RuleState, usable: bool, interval: nat, nextRun: Option<int>)

  datatype Job = Job(
    rule: string, kind: Kind, state: State, available: int, claimedAt: Option<int>, claimedBy: Option<string>,
    lease: Option<int>, attempt: nat, created: int, finished: Option<int>, stop: bool)
  {
    predicate Stale(staleBefore: int, now: int)
    {
      state.Running? && claimedAt.Some? && claimedAt.value < staleBefore && (lease.None? || lease.value <= now)
    }

    /** A stale claim goes back to the queue, unless a stop was requested: then its outcome is unknown. */
    function Recovered(now: int): Job
    {
      this.(state := if stop then Unknown else Pending, available := now, claimedAt := None, claimedBy := None, lease := None,
            finished := if stop then Some(now) else finished)
    }
  }

  datatype Run = Run(job: string, outcome: State, finished: Option<int>)

  datatype Queue = Queue(rules: map<string, Rule>, jobs: map<string, Job>, runs: map<string, Run>)

  /** The copy of the claim a worker holds; the attempt number is its fencing token. */
  datatype Token = Token(job: string, worker: string, attempt: nat)

  predicate HasUnknown(jobs: map<string, Job>, rule: string)
  {
    exists j | j in jobs :: jobs[j].rule == rule && jobs[j].state.Unknown?
  }

  predicate HasRunning(jobs: map<string, Job>, rule: string)
  {
    exists j | j in jobs :: jobs[j].rule == rule && jobs[j].state.Running?
  }

  // --- scheduling ----------------------------------------------------------------------

  predicate Due(q: Queue, rule: string, now: int, reserved: bool)
  {
    && rule in q.rules && !reserved
    && q.rules[rule].state.Enabled? && (q.rules[rule].nextRun.None? || q.rules[rule].nextRun.value <= now)
    && q.rules[rule].usable && !HasUnknown(q.jobs, rule)
  }

  function ScheduledJob(rule: string, now: int): Job
  {
    Job(rule, Scheduled, Pending, now, None, None, None, 0, now, None, false)
  }

  /** Fresh job IDs for some rules. */
  predicate FreshIds(jobs: map<string, Job>, ids: map<string, string>)
  {
    (forall r | r in ids :: ids[r] !in jobs) && forall r, s | r in ids && s in ids && ids[r] == ids[s] :: r == s
  }

  function NewJobs(due: set<string>, ids: map<string, string>, now: int): map<string, Job>
    requires due <= ids.Keys && forall r, s | r in ids && s in ids && ids[r] == ids[s] :: r == s
  {
    map r | r in due :: ids[r] := ScheduledJob(r, now)
  }

  /** Every due rule gets exactly one job, pending under its own ID. */
  lemma OneJobEach(due: set<string>, ids: map<string, string>, now: int)
    requires due <= ids.Keys && forall r, s | r in ids && s in ids && ids[r] == ids[s] :: r == s
    ensures var m := NewJobs(due, ids, now);
            && (forall j | j in m :: m[j].state.Pending? && m[j].rule in due && ids[m[j].rule] == j)
            && (forall r | r in due :: ids[r] in m && m[ids[r]] == ScheduledJob(r, now))
            && (forall j | j in m :: m[j].kind.Scheduled? && m[j].available == m[j].created == now && m[j].attempt == 0 && !m[j].stop
                                     && m[j].claimedBy.None? && m[j].lease.None? && m[j].finished.None?)
  {
  }

  function Rescheduled(rules: map<string, Rule>, due: set<string>, now: int): map<string, Rule>
  {
    map r | r in rules :: if r in due then rules[r].(nextRun := Some(now + rules[r].interval * 1_000_000_000)) else rules[r]
  }

  /** The jobs and rules after every rule in due was scheduled once, under the job ID drawn for it. */
  function Schedule(q: Queue, due: set<string>, ids: map<string, string>, now: int): Queue
    requires due <= ids.Keys && FreshIds(q.jobs, ids)
  {
    q.(jobs := q.jobs + NewJobs(due, ids, now), rules := Rescheduled(q.rules, due, now))
  }

  function Enqueue(q: Queue, id: string, job: Job, reserved: bool): Result<Queue>
  {
    if job.rule !in q.rules then Err(Ineligible)
    else
      var rule := q.rules[job.rule];
      if !rule.state.Enabled? && !(rule.state.Paused? && job.kind.DryRun?) then Err(Ineligible)
      else if !job.kind.DryRun? && (HasUnknown(q.jobs, job.rule) || reserved) then Err(Ineligible)
      else if !rule.usable then Err(Ineligible)
      else if id in q.jobs || (job.state.Running? && HasRunning(q.jobs, job.rule)) then Err(Rejected)
      else Ok(q.(jobs := q.jobs[id := Queued(job)]))
  }

  /** The columns the insert leaves to their defaults. */
  function Queued(job: Job): Job
  {
    job.(lease := None, stop := false)
  }

  // --- claims ----------------------------------------------------------------------------

  predicate Claimable(q: Queue, id: string, now: int)
  {
    && id in q.jobs && q.jobs[id].state.Pending? && q.jobs[id].available <= now
    && q.jobs[id].rule in q.rules
    && var rule := q.rules[q.jobs[id].rule];
       && rule.usable && (rule.state.Enabled? || (rule.state.Paused? && q.jobs[id].kind.DryRun?))
       && !HasRunning(q.jobs, q.jobs[id].rule)
  }

  predicate Sooner(a: Job, b: Job)
  {
    a.available < b.available || (a.available == b.available && a.created <= b.created)
  }

  /** The claimable job that comes first; ties may fall either way. */
  predicate First(q: Queue, id: string, now: int)
  {
    Claimable(q, id, now) && forall other | other in q.jobs && Claimable(q, other, now) :: Sooner(q.jobs[id], q.jobs[other])
  }

  function Claimed(job: Job, worker: string, at: int): Job
  {
    job.(state := Running, claimedAt := Some(at), claimedBy := Some(worker), lease := Some(at + JOB_LEASE), attempt := job.attempt + 1)
  }

  /** ClaimJob on the job it selected: claimed at one clock sample and still live at the last one before the commit. */
  function Claim(q: Queue, id: string, worker: string, now: int, at: int, commit: int): Result<Queue>
  {
    if !First(q, id, now) then Err(NotFound)
    else if at + JOB_LEASE <= commit then Err(LeaseLost)
    else Ok(q.(jobs := q.jobs[id := Claimed(q.jobs[id], worker, at)]))
  }

  /** lockJobLeaseForUpdate finds the row. */
  predicate Holds(q: Queue, t: Token)
  {
    && t.job in q.jobs && q.jobs[t.job].state.Running?
    && q.jobs[t.job].claimedBy == Some(t.worker) && q.jobs[t.job].attempt == t.attempt
  }

  function Renew(q: Queue, t: Token, locked: int, commit: int): Result<Queue>
  {
    if !Holds(q, t) then Err(LeaseLost)
    else
      var job := q.jobs[t.job];
      if job.claimedAt.None? || locked < job.claimedAt.value then Err(LeaseLost)
      else if job.lease.Some? && (job.lease.value <= locked || job.lease.value <= commit) then Err(LeaseLost)
      else Ok(q.(jobs := q.jobs[t.job := job.(claimedAt := Some(locked),
                                             lease := if job.lease.None? then None else Some(locked + JOB_LEASE))]))
  }

  /** RecoverStaleJobs: every stale claim ends, and so does every unfinished run of its job. */
  function Recover(q: Queue, staleBefore: int, now: int): Queue
  {
    q.(jobs := map j | j in q.jobs :: if q.jobs[j].Stale(staleBefore, now) then q.jobs[j].Recovered(now) else q.jobs[j],
       runs := map r | r in q.runs ::
         if q.runs[r].outcome.Running? && q.runs[r].job in q.jobs && q.jobs[q.runs[r].job].Stale(staleBefore, now)
         then q.runs[r].(outcome := if q.jobs[q.runs[r].job].stop then Unknown else Failed, finished := Some(now))
         else q.runs[r])
  }

  /** StartRun is a bare insert: nothing ties it to the claim. */
  function StartRun(q: Queue, run: string, job: string): Result<Queue>
  {
    if run in q.runs || job !in q.jobs then Err(Rejected)
    else Ok(q.(runs := q.runs[run := Run(job, Running, None)]))
  }

  /** A failure after a stop request counts as stopped only when nothing was dispatched. */
  function FinalOutcome(job: Job, outcome: State, dispatched: bool): State
  {
    if job.stop && outcome.Failed? then if dispatched then Unknown else Stopped else outcome
  }

  function Finish(q: Queue, run: string, t: Token, outcome: State, finished: int, dispatched: bool, lockedAt: int, commit: int): Result<Queue>
  {
    if !Holds(q, t) then Err(LeaseLost)
    else
      var job := q.jobs[t.job];
      if job.lease.Some? && job.lease.value <= lockedAt then Err(LeaseLost)
      else if run !in q.runs || q.runs[run].job != t.job || !q.runs[run].outcome.Running? then Err(NotFound)
      else if job.lease.Some? && job.lease.value <= commit then Err(LeaseLost)
      else
        var final := FinalOutcome(job, outcome, dispatched);
        Ok(q.(jobs := q.jobs[t.job := job.(state := final, finished := Some(finished), lease := None)],
              runs := q.runs[run := q.runs[run].(outcome := final, finished := Some(finished))]))
  }

  // --- control ------------------------------------------------------------------------------

  function PausedJob(job: Job, rule: string, now: int): Job
  {
    if job.rule != rule || job.kind.DryRun? then job
    else if job.state.Pending? then job.(state := Cancelled, finished := Some(now))
    else if job.state.Running? then job.(stop := true)
    else job
  }

  function Pause(q: Queue, rule: string, now: int): Result<Queue>
  {
    if rule !in q.rules || !q.rules[rule].state.Enabled? then Err(Conflict)
    else Ok(q.(rules := q.rules[rule := q.rules[rule].(state := Paused, nextRun := None)],
               jobs := map j | j in q.jobs :: PausedJob(q.jobs[j], rule, now)))
  }

  function RequestStop(q: Queue, id: string, now: int): Result<Queue>
  {
    if id !in q.jobs || q.jobs[id].stop || !(q.jobs[id].state.Pending? || q.jobs[id].state.Running?) then Err(Conflict)
    else
      var job := q.jobs[id];
      Ok(q.(jobs := q.jobs[id := if job.state.Pending? then job.(state := Cancelled, finished := Some(now), stop := true)
                                 else job.(stop := true)]))
  }

  datatype Action =
    | ScheduleDue(now: int, ids: map<string, string>, reserved: bool)
    | EnqueueJob(id: string, row: Job, reserved: bool)
    | ClaimJob(id: string, worker: string, now: int, at: int, commit: int)
    | RenewJob(token: Token, locked: int, commit: int)
    | RecoverStale(staleBefore: int, now: int)
    | Start(run: string, token: Token)
    | FinishRun(run: string, token: Token, outcome: State, finished: int, dispatched: bool, locked: int, commit: int)
    | PauseRule(rule: string, now: int)
    | StopJob(id: string, now: int)
    | SetRule(id: string, config: Rule)

  function DueRules(q: Queue, now: int, reserved: bool): set<string>
  {
    set r | r in q.rules && Due(q, r, now, reserved)
  }

  /** What the worker reports. */
  predicate FinalState(s: State)
  {
    s.Succeeded? || s.Failed?
  }

  /** Nothing more happens to a job in such a state. */
  predicate Ended(s: State)
  {
    !s.Pending? && !s.Running?
  }

  function Next(q: Queue, a: Action): Result<Queue>
  {
    match a
    case ScheduleDue(now, ids, reserved) =>
      if DueRules(q, now, reserved) <= ids.Keys && FreshIds(q.jobs, ids) then Ok(Schedule(q, DueRules(q, now, reserved), ids, now))
      else Err(Rejected)
    case EnqueueJob(id, job, reserved) => Enqueue(q, id, job, reserved)
    case ClaimJob(id, worker, now, at, commit) => Claim(q, id, worker, now, at, commit)
    case RenewJob(t, locked, commit) => Renew(q, t, locked, commit)
    case RecoverStale(staleBefore, now) => Ok(Recover(q, staleBefore, now))
    case Start(run, t) => StartRun(q, run, t.job)
    case FinishRun(run, t, outcome, finished, dispatched, locked, commit) =>
      if FinalState(outcome) then Finish(q, run, t, outcome, finished, dispatched, locked, commit) else Err(Rejected)
    case PauseRule(rule, now) => Pause(q, rule, now)
    case StopJob(id, now) => RequestStop(q, id, now)
    case SetRule(id, rule) => Ok(q.(rules := q.rules[id := rule]))
  }
}
/** What every interleaving of schedulers, workers and operators keeps. */
module JobRuns {
  import opened Base
  import opened Jobs

  predicate Step(q: Queue, a: Action, after: Queue)
  {
    after == if Next(q, a).Ok? then Next(q, a).value else q
  }

  predicate Trace(tr: seq<Queue>, acts: seq<Action>)
  {
    |tr| == |acts| + 1 && forall k | 0 <= k < |acts| :: Step(tr[k], acts[k], tr[k + 1])
  }

  // --- one running job per rule ------------------------------------------------------------

  predicate OneRunning(q: Queue)
  {
    forall i, j | i in q.jobs && j in q.jobs && q.jobs[i].state.Running? && q.jobs[j].state.Running? && q.jobs[i].rule == q.jobs[j].rule ::
      i == j
  }

  /** What any step may do to a job. */
  predicate JobLaw(a: Action, before: Job, after: Job)
  {
    && after.rule == before.rule && before.attempt <= after.attempt
    && (after.state.Running? && !before.state.Running? ==> a.ClaimJob? && after.attempt == before.attempt + 1)
    && (after.state.Running? && before.state.Running? ==> after.attempt == before.attempt && after.claimedBy == before.claimedBy)
    && (!after.state.Running? ==> after.attempt == before.attempt)
  }

  lemma StepLaw(q: Queue, a: Action, after: Queue, j: string)
    requires Step(q, a, after) && j in q.jobs
    ensures j in after.jobs && JobLaw(a, q.jobs[j], after.jobs[j])
    ensures after.jobs[j].state.Running? && !q.jobs[j].state.Running? ==> a.id == j && !HasRunning(q.jobs, q.jobs[j].rule)
  {
    hide Due, HasUnknown;
  }

  /** A job that was not there before is running only where no other job of its rule was. */
  lemma NewJob(q: Queue, a: Action, after: Queue, j: string)
    requires Step(q, a, after) && j !in q.jobs && j in after.jobs
    ensures after.jobs[j].state.Running? ==> a.EnqueueJob? && a.id == j && !HasRunning(q.jobs, after.jobs[j].rule)
  {
    hide Due, HasUnknown, HasRunning;
    if a.ScheduleDue? {
      OneJobEach(DueRules(q, a.now, a.reserved), a.ids, a.now);
    }
  }

  lemma OneRunningStep(q: Queue, a: Action, after: Queue)
    requires Step(q, a, after) && OneRunning(q)
    ensures OneRunning(after)
  {
    forall i, j | i in after.jobs && j in after.jobs && after.jobs[i].state.Running? && after.jobs[j].state.Running?
                  && after.jobs[i].rule == after.jobs[j].rule
      ensures i == j
    {
      Origin(q, a, after, i);
      Origin(q, a, after, j);
    }
  }

  /** A running job was running already, or the step was the one that may add a running job to its rule. */
  lemma Origin(q: Queue, a: Action, after: Queue, j: string)
    requires Step(q, a, after) && j in after.jobs && after.jobs[j].state.Running?
    ensures (j in q.jobs && q.jobs[j].state.Running? && q.jobs[j].rule == after.jobs[j].rule)
         || ((a.ClaimJob? || a.EnqueueJob?) && a.id == j && !HasRunning(q.jobs, after.jobs[j].rule))
  {
    if j in q.jobs {
      StepLaw(q, a, after, j);
    } else {
      NewJob(q, a, after, j);
    }
  }

  /** In every interleaving at most one job of a rule is running. */
  lemma {:induction false} OneRunningPerRule(tr: seq<Queue>, acts: seq<Action>, k: nat)
    requires Trace(tr, acts) && OneRunning(tr[0]) && k < |tr|
    ensures OneRunning(tr[k])
  {
    hide Step, OneRunning;
    if k > 0 {
      OneRunningPerRule(tr, acts, k - 1);
      OneRunningStep(tr[k - 1], acts[k - 1], tr[k]);
    }
  }

  // --- attempts as fencing tokens --------------------------------------------------------------

  /** The claim is over for good: the job is not running under it, and attempts have reached it. */
  predicate Over(q: Queue, t: Token)
  {
    t.job in q.jobs && (t.attempt < q.jobs[t.job].attempt || (t.attempt == q.jobs[t.job].attempt && !q.jobs[t.job].state.Running?))
  }

  lemma {:induction false} OverStays(tr: seq<Queue>, acts: seq<Action>, i: nat, j: nat, t: Token)
    requires Trace(tr, acts) && i <= j < |tr| && Over(tr[i], t)
    ensures Over(tr[j], t)
    decreases j
  {
    hide Step;
    if i < j {
      OverStays(tr, acts, i, j - 1, t);
      StepLaw(tr[j - 1], acts[j - 1], tr[j], t.job);
    }
  }

  /** A worker acts under this claim. */
  predicate Uses(a: Action, t: Token)
  {
    (a.RenewJob? || a.FinishRun?) && a.token == t
  }

  /** Once a claim was recovered, retaken or finished, no renewal or finish its worker still sends changes anything. */
  lemma LostClaimIsInert(tr: seq<Queue>, acts: seq<Action>, i: nat, k: nat, t: Token)
    requires Trace(tr, acts) && i <= k < |acts| && Over(tr[i], t) && Uses(acts[k], t)
    ensures tr[k + 1] == tr[k]
  {
    OverStays(tr, acts, i, k, t);
    assert Step(tr[k], acts[k], tr[k + 1]);
    assert !Holds(tr[k], t);
  }

  /** Recovery, a finish and the next claim each end the claim they meet. */
  lemma ClaimsEnd(q: Queue, a: Action, after: Queue, t: Token)
    requires Step(q, a, after) && Holds(q, t) && !Holds(after, t)
    ensures Over(after, t)
  {
    hide Step;
    StepLaw(q, a, after, t.job);
  }

  predicate ClaimedAt(tr: seq<Queue>, acts: seq<Action>, k: nat, id: string)
  {
    k < |acts| && k + 1 < |tr| && acts[k].ClaimJob? && acts[k].id == id && tr[k + 1] != tr[k]
  }

  lemma {:induction false} AttemptsGrow(tr: seq<Queue>, acts: seq<Action>, i: nat, j: nat, id: string)
    requires Trace(tr, acts) && i <= j < |tr| && id in tr[i].jobs
    ensures id in tr[j].jobs && tr[i].jobs[id].attempt <= tr[j].jobs[id].attempt
    decreases j
  {
    hide Step;
    if i < j {
      AttemptsGrow(tr, acts, i, j - 1, id);
      StepLaw(tr[j - 1], acts[j - 1], tr[j], id);
    }
  }

  /** Attempts strictly increase from one claim of a job to the next. */
  lemma AttemptsIncrease(tr: seq<Queue>, acts: seq<Action>, i: nat, j: nat, id: string)
    requires Trace(tr, acts) && i < j && ClaimedAt(tr, acts, i, id) && ClaimedAt(tr, acts, j, id)
    ensures id in tr[i + 1].jobs && id in tr[j + 1].jobs && tr[i + 1].jobs[id].attempt < tr[j + 1].jobs[id].attempt
  {
    assert Step(tr[i], acts[i], tr[i + 1]) && Step(tr[j], acts[j], tr[j + 1]);
    AttemptsGrow(tr, acts, i + 1, j, id);
  }

  // --- jobs and their runs -----------------------------------------------------------------------

  /**
   * A finished job and its run end in the same step with the reported outcome, except that a failure after a stop
   * request counts as unknown or, when nothing was dispatched, as stopped. Nothing else changes.
   */
  lemma EndTogether(q: Queue, a: Action, after: Queue)
    requires Step(q, a, after) && a.FinishRun? && after != q
    ensures Holds(q, a.token) && a.run in q.runs && q.runs[a.run] == Run(a.token.job, Running, q.runs[a.run].finished)
    ensures after.runs.Keys == q.runs.Keys && after.jobs.Keys == q.jobs.Keys && after.rules == q.rules
    ensures after.runs[a.run].outcome == after.jobs[a.token.job].state && !after.runs[a.run].outcome.Running?
    ensures after.runs[a.run].finished == after.jobs[a.token.job].finished == Some(a.finished)
    ensures forall r | r in q.runs && r != a.run :: after.runs[r] == q.runs[r]
    ensures forall j | j in q.jobs && j != a.token.job :: after.jobs[j] == q.jobs[j]
    ensures a.outcome.Succeeded? || a.outcome.Failed?
    ensures !q.jobs[a.token.job].stop || a.outcome.Succeeded? ==> after.jobs[a.token.job].state == a.outcome
    ensures q.jobs[a.token.job].stop && a.outcome.Failed? ==> after.jobs[a.token.job].state == if a.dispatched then Unknown else Stopped
    ensures after.jobs[a.token.job] ==
            q.jobs[a.token.job].(state := after.jobs[a.token.job].state, finished := Some(a.finished), lease := None)
  {
  }

  /** Every open run belongs to a running job, which has no other open run. */
  predicate Paired(q: Queue)
  {
    && (forall r | r in q.runs && q.runs[r].outcome.Running? :: q.runs[r].job in q.jobs && q.jobs[q.runs[r].job].state.Running?)
    && (forall r, s | r in q.runs && s in q.runs && q.runs[r].outcome.Running? && q.runs[s].outcome.Running? && q.runs[r].job == q.runs[s].job ::
          r == s)
  }

  predicate HasOpenRun(q: Queue, job: string)
  {
    exists r | r in q.runs :: q.runs[r].outcome.Running? && q.runs[r].job == job
  }

  /** A run that starts finds its job running and without an open run. */
  predicate StartsAlone(q: Queue, a: Action)
  {
    a.Start? ==> a.token.job in q.jobs && q.jobs[a.token.job].state.Running? && !HasOpenRun(q, a.token.job)
  }

  lemma PairedKept(q: Queue, a: Action, after: Queue)
    requires Step(q, a, after) && Paired(q) && !a.Start? && !a.RecoverStale? && !a.FinishRun?
    ensures Paired(after)
  {
    hide Due, HasUnknown, HasRunning, First;
    forall r | r in after.runs && after.runs[r].outcome.Running?
      ensures after.runs[r].job in after.jobs && after.jobs[after.runs[r].job].state.Running?
    {
      assert after.runs == q.runs;
      OpenJobStays(q, a, after, q.runs[r].job);
    }
  }

  lemma OpenJobStays(q: Queue, a: Action, after: Queue, j: string)
    requires Step(q, a, after) && !a.RecoverStale? && !a.FinishRun? && j in q.jobs && q.jobs[j].state.Running?
    ensures j in after.jobs && after.jobs[j].state.Running?
  {
    hide Due, HasUnknown, First;
  }

  lemma PairedEnds(q: Queue, a: Action, after: Queue)
    requires Step(q, a, after) && Paired(q) && (a.RecoverStale? || a.FinishRun?)
    ensures Paired(after)
  {
  }

  /**
   * Jobs and open runs stay paired through every step except a start, and through a start exactly when its job is
   * running and has no open run yet. Whose claim the job is running under makes no difference here.
   */
  lemma PairingExact(q: Queue, a: Action, after: Queue)
    requires Step(q, a, after) && Paired(q) && (a.Start? ==> Next(q, a).Ok?)
    ensures Paired(after) <==> StartsAlone(q, a)
  {
    if a.Start? {
      assert after.runs == q.runs[a.run := Run(a.token.job, Running, None)] && a.run !in q.runs;
      if HasOpenRun(q, a.token.job) {
        var s :| s in q.runs && q.runs[s].outcome.Running? && q.runs[s].job == a.token.job;
        assert after.runs[s] == q.runs[s] && s != a.run;
      }
      assert after.runs[a.run].outcome.Running?;
    } else if a.RecoverStale? || a.FinishRun? {
      PairedEnds(q, a, after);
    } else {
      PairedKept(q, a, after);
    }
  }

  // --- runs started inside their claims ----------------------------------------------------------

  /** A run was inserted at k. */
  predicate StartedAt(tr: seq<Queue>, acts: seq<Action>, k: nat)
  {
    k < |acts| && k + 1 < |tr| && acts[k].Start? && tr[k + 1] != tr[k]
  }

  /** Every run starts under a claim that still holds, and no claim starts two. */
  ghost predicate StartsInClaim(tr: seq<Queue>, acts: seq<Action>)
  {
    && (forall k: nat | StartedAt(tr, acts, k) :: Holds(tr[k], acts[k].token))
    && (forall i: nat, k: nat | StartedAt(tr, acts, i) && StartedAt(tr, acts, k) && acts[i].token == acts[k].token :: i == k)
  }

  /** The run was started at i, under a claim that still holds in q. */
  predicate OpenUnder(tr: seq<Queue>, acts: seq<Action>, i: nat, q: Queue, r: string)
  {
    && StartedAt(tr, acts, i) && acts[i].run == r && Holds(q, acts[i].token)
    && r in q.runs && q.runs[r].job == acts[i].token.job
  }

  predicate RunsOwned(tr: seq<Queue>, acts: seq<Action>, k: nat, q: Queue)
  {
    forall r | r in q.runs && q.runs[r].outcome.Running? :: exists i: nat :: i < k && OpenUnder(tr, acts, i, q, r)
  }

  /** Two open runs of one job are one: their claims both hold, so they are the same claim. */
  lemma OneOwner(tr: seq<Queue>, acts: seq<Action>, i: nat, k: nat, q: Queue, r: string, s: string)
    requires Trace(tr, acts) && StartsInClaim(tr, acts)
    requires OpenUnder(tr, acts, i, q, r) && OpenUnder(tr, acts, k, q, s) && q.runs[r].job == q.runs[s].job
    ensures r == s && i == k
  {
    assert acts[i].token == acts[k].token;
  }

  /** A claim stops holding only by a recovery, which closes the runs of its job, or by its own finish. */
  lemma ClaimLost(q: Queue, a: Action, after: Queue, t: Token, r: string)
    requires Step(q, a, after) && Holds(q, t) && !Holds(after, t)
    requires r in q.runs && q.runs[r].job == t.job && r in after.runs && after.runs[r].outcome.Running?
    ensures a.FinishRun? && a.token == t && a.run != r && a.run in q.runs && q.runs[a.run].outcome.Running? && q.runs[a.run].job == t.job
  {
    hide Due, HasUnknown, First, HasRunning;
    StepLaw(q, a, after, t.job);
    if !a.FinishRun? && !a.RecoverStale? {
      OpenJobStays(q, a, after, t.job);
    }
  }

  /** What a step does to an open run: only a start opens one. */
  lemma OpenBefore(q: Queue, a: Action, after: Queue, r: string)
    requires Step(q, a, after) && r in after.runs && after.runs[r].outcome.Running?
    ensures if r in q.runs then q.runs[r].outcome.Running? && q.runs[r].job == after.runs[r].job
            else a.Start? && a.run == r && after != q && after.runs[r].job == a.token.job && after.jobs == q.jobs
  {
    hide Due, HasUnknown, First, HasRunning;
  }

  lemma {:induction false} OwnedStep(tr: seq<Queue>, acts: seq<Action>, k: nat)
    requires Trace(tr, acts) && StartsInClaim(tr, acts) && k < |acts| && RunsOwned(tr, acts, k, tr[k])
    ensures RunsOwned(tr, acts, k + 1, tr[k + 1])
  {
    hide Step, Holds;
    var q, a, after := tr[k], acts[k], tr[k + 1];
    forall r | r in after.runs && after.runs[r].outcome.Running?
      ensures exists i: nat :: i < k + 1 && OpenUnder(tr, acts, i, after, r)
    {
      OpenBefore(q, a, after, r);
      if r in q.runs {
        var i: nat :| i < k && OpenUnder(tr, acts, i, q, r);
        if !Holds(after, acts[i].token) {
          ClaimLost(q, a, after, acts[i].token, r);
          var n: nat :| n < k && OpenUnder(tr, acts, n, q, a.run);
          OneOwner(tr, acts, i, n, q, r, a.run);
        }
        assert OpenUnder(tr, acts, i, after, r);
      } else {
        assert StartedAt(tr, acts, k);
        SameHolds(q, after, a.token);
        assert OpenUnder(tr, acts, k, after, r);
      }
    }
  }

  lemma SameHolds(q: Queue, after: Queue, t: Token)
    requires q.jobs == after.jobs
    ensures Holds(q, t) == Holds(after, t)
  {
  }

  lemma {:induction false} OwnedThroughout(tr: seq<Queue>, acts: seq<Action>, k: nat)
    requires Trace(tr, acts) && StartsInClaim(tr, acts) && k < |tr|
    requires forall r | r in tr[0].runs :: !tr[0].runs[r].outcome.Running?
    ensures RunsOwned(tr, acts, k, tr[k])
  {
    hide Step, RunsOwned, StartsInClaim;
    if k > 0 {
      OwnedThroughout(tr, acts, k - 1);
      OwnedStep(tr, acts, k - 1);
    } else {
      NoneOwned(tr, acts, tr[0]);
    }
  }

  lemma NoneOwned(tr: seq<Queue>, acts: seq<Action>, q: Queue)
    requires forall r | r in q.runs :: !q.runs[r].outcome.Running?
    ensures RunsOwned(tr, acts, 0, q)
  {
  }

  /**
   * When every run starts under a claim that holds at that moment, and no claim starts two, every open run belongs
   * in every state to a running job, and is its only open run.
   */
  lemma PairedThroughout(tr: seq<Queue>, acts: seq<Action>, k: nat)
    requires Trace(tr, acts) && StartsInClaim(tr, acts) && k < |tr|
    requires forall r | r in tr[0].runs :: !tr[0].runs[r].outcome.Running?
    ensures Paired(tr[k])
  {
    hide Step, StartsInClaim;
    OwnedThroughout(tr, acts, k);
    var q := tr[k];
    forall r, s | r in q.runs && s in q.runs && q.runs[r].outcome.Running? && q.runs[s].outcome.Running? && q.runs[r].job == q.runs[s].job
      ensures r == s
    {
      var i: nat :| i < k && OpenUnder(tr, acts, i, q, r);
      var n: nat :| n < k && OpenUnder(tr, acts, n, q, s);
      OneOwner(tr, acts, i, n, q, r, s);
    }
  }

  // --- runs started outside their claims -----------------------------------------------------------

  /** An open run closes in exactly two ways: its job is recovered as stale, or a finish that names it commits. */
  lemma ClosedExactly(q: Queue, a: Action, after: Queue, r: string)
    requires Step(q, a, after) && r in q.runs && q.runs[r].outcome.Running?
    ensures r in after.runs && after.runs[r].job == q.runs[r].job
    ensures !after.runs[r].outcome.Running? <==>
            || (a.RecoverStale? && q.runs[r].job in q.jobs && q.jobs[q.runs[r].job].Stale(a.staleBefore, a.now))
            || (a.FinishRun? && a.run == r && Next(q, a).Ok?)
  {
    hide Due, HasUnknown, First, HasRunning;
  }

  /** An ended job stays as it is. */
  lemma {:induction false} EndedStays(tr: seq<Queue>, acts: seq<Action>, i: nat, j: nat, id: string)
    requires Trace(tr, acts) && i <= j < |tr| && id in tr[i].jobs && Ended(tr[i].jobs[id].state)
    ensures id in tr[j].jobs && tr[j].jobs[id] == tr[i].jobs[id]
    decreases j
  {
    hide Step;
    if i < j {
      EndedStays(tr, acts, i, j - 1, id);
      EndedKept(tr[j - 1], acts[j - 1], tr[j], id);
    }
  }

  lemma EndedKept(q: Queue, a: Action, after: Queue, id: string)
    requires Step(q, a, after) && id in q.jobs && Ended(q.jobs[id].state)
    ensures id in after.jobs && after.jobs[id] == q.jobs[id]
  {
    hide Due, HasUnknown, HasRunning;
  }

  /** An open run whose job has ended stays open in every later state of every run: neither way to close it is left. */
  lemma {:induction false} LeftOpen(tr: seq<Queue>, acts: seq<Action>, i: nat, j: nat, r: string)
    requires Trace(tr, acts) && i <= j < |tr| && r in tr[i].runs && tr[i].runs[r].outcome.Running?
    requires tr[i].runs[r].job in tr[i].jobs && Ended(tr[i].jobs[tr[i].runs[r].job].state)
    ensures r in tr[j].runs && tr[j].runs[r].outcome.Running? && tr[j].runs[r].job == tr[i].runs[r].job
    decreases j
  {
    hide Step;
    if i < j {
      LeftOpen(tr, acts, i, j - 1, r);
      EndedStays(tr, acts, i, j - 1, tr[i].runs[r].job);
      assert !Holds(tr[j - 1], Token(tr[i].runs[r].job, "", 0));
      ClosedExactly(tr[j - 1], acts[j - 1], tr[j], r);
      if acts[j - 1].FinishRun? && acts[j - 1].run == r {
        NotFinished(tr[j - 1], acts[j - 1]);
      }
    }
  }

  lemma NotFinished(q: Queue, a: Action)
    requires a.FinishRun? && a.run in q.runs && q.runs[a.run].job in q.jobs && Ended(q.jobs[q.runs[a.run].job].state)
    ensures Next(q, a).Err?
  {
  }

  /**
   * Such runs are reachable. A slow worker starts its run after its claim was recovered; the job is claimed again,
   * run and finished under the second claim, and the first run is still open. By LeftOpen it stays so for good.
   */
  lemma StrayRun()
    ensures exists tr: seq<Queue>, acts: seq<Action> :: StrayHistory(tr, acts)
  {
    hide Step, Trace, LeftBehind, Over;
    var q0, q1, q2, q3 := LateStart();
    var q4, q5, q6 := SecondClaim(q3);
    Chain(q0, ClaimJob("j", "w", 0, 0, 0), q1, RecoverStale(1, JOB_LEASE), q2, Start("r", Token("j", "w", 1)), q3,
          ClaimJob("j", "v", JOB_LEASE, JOB_LEASE, JOB_LEASE), q4, Start("s", Token("j", "v", 2)), q5,
          FinishRun("s", Token("j", "v", 2), Succeeded, JOB_LEASE, false, JOB_LEASE, JOB_LEASE), q6);
    assert StrayHistory([q0, q1, q2, q3, q4, q5, q6],
                        [ClaimJob("j", "w", 0, 0, 0), RecoverStale(1, JOB_LEASE), Start("r", Token("j", "w", 1)),
                         ClaimJob("j", "v", JOB_LEASE, JOB_LEASE, JOB_LEASE), Start("s", Token("j", "v", 2)),
                         FinishRun("s", Token("j", "v", 2), Succeeded, JOB_LEASE, false, JOB_LEASE, JOB_LEASE)]);
  }

  /** The job is back in the queue, and the run of its lost first claim is open. */
  predicate Requeued(q: Queue)
  {
    && q.rules == map["rule" := Rule(Enabled, true, 60, None)] && q.runs == map["r" := Run("j", Running, None)]
    && q.jobs == map["j" := Claimed(ScheduledJob("rule", 0), "w", 0).Recovered(JOB_LEASE)]
  }

  lemma LateStart() returns (q0: Queue, q1: Queue, q2: Queue, q3: Queue)
    ensures q0.runs == map[] && Over(q2, Token("j", "w", 1)) && Requeued(q3)
    ensures Step(q0, ClaimJob("j", "w", 0, 0, 0), q1) && Step(q1, RecoverStale(1, JOB_LEASE), q2)
    ensures Step(q2, Start("r", Token("j", "w", 1)), q3)
  {
    hide Step, Claimable;
    q0 := Queue(map["rule" := Rule(Enabled, true, 60, None)], map["j" := ScheduledJob("rule", 0)], map[]);
    q1 := q0.(jobs := map["j" := Claimed(ScheduledJob("rule", 0), "w", 0)]);
    q2 := q0.(jobs := map["j" := Claimed(ScheduledJob("rule", 0), "w", 0).Recovered(JOB_LEASE)]);
    q3 := q2.(runs := map["r" := Run("j", Running, None)]);
    NoneRunning(q0, "j", 0);
    ClaimStep(q0, "j", "w", 0, q1);
    RecoverStep(q1, "j", JOB_LEASE, q2);
    StartStep(q2, "r", Token("j", "w", 1), q3);
  }

  lemma SecondClaim(q: Queue) returns (q4: Queue, q5: Queue, q6: Queue)
    requires Requeued(q)
    ensures Step(q, ClaimJob("j", "v", JOB_LEASE, JOB_LEASE, JOB_LEASE), q4) && Step(q4, Start("s", Token("j", "v", 2)), q5)
    ensures Step(q5, FinishRun("s", Token("j", "v", 2), Succeeded, JOB_LEASE, false, JOB_LEASE, JOB_LEASE), q6)
    ensures LeftBehind(q6, "r", "j")
  {
    hide Step, Claimable;
    q4 := q.(jobs := map["j" := Claimed(q.jobs["j"], "v", JOB_LEASE)]);
    q5 := q4.(runs := q4.runs["s" := Run("j", Running, None)]);
    q6 := q5.(jobs := q5.jobs["j" := q5.jobs["j"].(state := Succeeded, finished := Some(JOB_LEASE), lease := None)],
              runs := q5.runs["s" := Run("j", Succeeded, Some(JOB_LEASE))]);
    NoneRunning(q, "j", JOB_LEASE);
    ClaimStep(q, "j", "v", JOB_LEASE, q4);
    StartStep(q4, "s", Token("j", "v", 2), q5);
    FinishStep(q5, "s", Token("j", "v", 2), JOB_LEASE, q6);
  }

  predicate StrayHistory(tr: seq<Queue>, acts: seq<Action>)
  {
    && Trace(tr, acts) && |acts| == 6 && tr[0].runs == map[]
    && acts[0].ClaimJob? && acts[1].RecoverStale? && acts[2] == Start("r", Token("j", "w", 1)) && Over(tr[2], Token("j", "w", 1))
    && acts[3].ClaimJob? && acts[4] == Start("s", Token("j", "v", 2)) && acts[5].FinishRun?
    && LeftBehind(tr[6], "r", "j")
  }

  lemma Chain(q0: Queue, a0: Action, q1: Queue, a1: Action, q2: Queue, a2: Action, q3: Queue, a3: Action, q4: Queue, a4: Action,
              q5: Queue, a5: Action, q6: Queue)
    requires Step(q0, a0, q1) && Step(q1, a1, q2) && Step(q2, a2, q3) && Step(q3, a3, q4) && Step(q4, a4, q5) && Step(q5, a5, q6)
    ensures Trace([q0, q1, q2, q3, q4, q5, q6], [a0, a1, a2, a3, a4, a5])
  {
    hide Step;
  }

  lemma RecoverStep(q: Queue, id: string, now: int, after: Queue)
    requires q.jobs.Keys == {id} && q.jobs[id].Stale(1, now) && q.runs == map[] && after == q.(jobs := map[id := q.jobs[id].Recovered(now)])
    ensures Step(q, RecoverStale(1, now), after)
  {
  }

  lemma StartStep(q: Queue, r: string, t: Token, after: Queue)
    requires r !in q.runs && t.job in q.jobs && after == q.(runs := q.runs[r := Run(t.job, Running, None)])
    ensures Step(q, Start(r, t), after)
  {
  }

  lemma FinishStep(q: Queue, r: string, t: Token, at: int, after: Queue)
    requires Holds(q, t) && !q.jobs[t.job].stop && q.jobs[t.job].lease.Some? && at < q.jobs[t.job].lease.value && r in q.runs && q.runs[r] == Run(t.job, Running, None)
    requires after == q.(jobs := q.jobs[t.job := q.jobs[t.job].(state := Succeeded, finished := Some(at), lease := None)],
                         runs := q.runs[r := Run(t.job, Succeeded, Some(at))])
    ensures Step(q, FinishRun(r, t, Succeeded, at, false, at, at), after)
  {
  }

  predicate LeftBehind(q: Queue, r: string, j: string)
  {
    r in q.runs && q.runs[r] == Run(j, Running, None) && j in q.jobs && q.jobs[j].state.Succeeded?
  }

  lemma NoneRunning(q: Queue, id: string, now: int)
    requires q.jobs.Keys == {id} && q.jobs[id].state.Pending? && q.jobs[id].available <= now
    requires q.jobs[id].rule in q.rules && q.rules[q.jobs[id].rule].usable && q.rules[q.jobs[id].rule].state.Enabled?
    ensures Claimable(q, id, now)
  {
  }

  /** The only job of a queue is claimed. */
  lemma ClaimStep(q: Queue, id: string, worker: string, now: int, after: Queue)
    requires q.jobs.Keys == {id} && Claimable(q, id, now)
    requires after == q.(jobs := map[id := Claimed(q.jobs[id], worker, now)])
    ensures Step(q, ClaimJob(id, worker, now, now, now), after)
  {
  }

  // --- unknown outcomes, stop requests and renewals ---------------------------------------------------

  /** Once a rule has a job of unknown outcome it keeps it, and every job added to the rule afterwards is a dry run. */
  lemma {:induction false} UnknownHolds(tr: seq<Queue>, acts: seq<Action>, i: nat, j: nat, rule: string)
    requires Trace(tr, acts) && i <= j < |tr| && HasUnknown(tr[i].jobs, rule)
    ensures HasUnknown(tr[j].jobs, rule)
    ensures forall id | id in tr[j].jobs && id !in tr[i].jobs && tr[j].jobs[id].rule == rule :: tr[j].jobs[id].kind.DryRun?
    decreases j
  {
    hide Step;
    if i < j {
      UnknownHolds(tr, acts, i, j - 1, rule);
      var u :| u in tr[j - 1].jobs && tr[j - 1].jobs[u].rule == rule && tr[j - 1].jobs[u].state.Unknown?;
      EndedKept(tr[j - 1], acts[j - 1], tr[j], u);
      forall id | id in tr[j].jobs && id !in tr[i].jobs && tr[j].jobs[id].rule == rule ensures tr[j].jobs[id].kind.DryRun? {
        if id in tr[j - 1].jobs {
          KindKept(tr[j - 1], acts[j - 1], tr[j], id);
        } else {
          AddedUnderUnknown(tr[j - 1], acts[j - 1], tr[j], id);
        }
      }
    }
  }

  lemma KindKept(q: Queue, a: Action, after: Queue, id: string)
    requires Step(q, a, after) && id in q.jobs
    ensures id in after.jobs && after.jobs[id].kind == q.jobs[id].kind && after.jobs[id].rule == q.jobs[id].rule
  {
    hide Due, HasUnknown, HasRunning;
  }

  lemma AddedUnderUnknown(q: Queue, a: Action, after: Queue, id: string)
    requires Step(q, a, after) && id !in q.jobs && id in after.jobs && HasUnknown(q.jobs, after.jobs[id].rule)
    ensures after.jobs[id].kind.DryRun?
  {
    hide HasUnknown, HasRunning, Due;
    if a.ScheduleDue? {
      ScheduledWasDue(q, a, after, id);
    }
  }

  lemma ScheduledWasDue(q: Queue, a: Action, after: Queue, id: string)
    requires Step(q, a, after) && a.ScheduleDue? && id !in q.jobs && id in after.jobs
    ensures !HasUnknown(q.jobs, after.jobs[id].rule)
  {
    hide HasUnknown;
    OneJobEach(DueRules(q, a.now, a.reserved), a.ids, a.now);
  }

  /** What may become of a job asked to stop while it ran. */
  predicate Stopping(job: Job, attempt: nat)
  {
    job.stop && job.attempt == attempt && (job.state.Running? || job.state.Succeeded? || job.state.Stopped? || job.state.Unknown?)
  }

  /** A running job that was asked to stop is never queued or claimed again, and never ends as an ordinary failure. */
  lemma {:induction false} StopHonoured(tr: seq<Queue>, acts: seq<Action>, i: nat, j: nat, id: string)
    requires Trace(tr, acts) && i <= j < |tr| && id in tr[i].jobs && tr[i].jobs[id].state.Running? && tr[i].jobs[id].stop
    ensures id in tr[j].jobs && Stopping(tr[j].jobs[id], tr[i].jobs[id].attempt)
    decreases j
  {
    hide Step;
    if i < j {
      StopHonoured(tr, acts, i, j - 1, id);
      StopKept(tr[j - 1], acts[j - 1], tr[j], id);
    }
  }

  lemma StopKept(q: Queue, a: Action, after: Queue, id: string)
    requires Step(q, a, after) && id in q.jobs && Stopping(q.jobs[id], q.jobs[id].attempt)
    ensures id in after.jobs && Stopping(after.jobs[id], q.jobs[id].attempt)
  {
    hide Due, HasUnknown, HasRunning;
  }

  /** It is reported as stopped only by a finish that dispatched nothing. */
  lemma StoppedMeansIdle(q: Queue, a: Action, after: Queue, id: string)
    requires Step(q, a, after) && id in q.jobs && !q.jobs[id].state.Stopped? && id in after.jobs && after.jobs[id].state.Stopped?
    ensures a.FinishRun? && a.token.job == id && Holds(q, a.token) && q.jobs[id].stop && a.outcome.Failed? && !a.dispatched
  {
    hide Due, HasUnknown, HasRunning;
  }

  /** The lease of a claim: no recovery touches it while this instant is to come. */
  ghost predicate SafeUntil(q: Queue, t: Token, deadline: int)
  {
    && Holds(q, t)
    && forall staleBefore, now | now < deadline :: Holds(Recover(q, staleBefore, now), t) && Recover(q, staleBefore, now).jobs[t.job] == q.jobs[t.job]
  }

  /** A renewal keeps the claim safe until a full lease after the clock was read, and changes no other row. */
  lemma RenewalProtects(q: Queue, t: Token, locked: int, commit: int)
    requires Renew(q, t, locked, commit).Ok? && q.jobs[t.job].lease.Some?
    ensures var after := Renew(q, t, locked, commit).value;
            && SafeUntil(after, t, locked + JOB_LEASE)
            && after.rules == q.rules && after.runs == q.runs && after.jobs == q.jobs[t.job := after.jobs[t.job]]
            && locked < q.jobs[t.job].lease.value && commit < q.jobs[t.job].lease.value
  {
  }

  /** A claim nobody acts on, such as one that expired while it was being committed, is open to recovery from its deadline on. */
  lemma ExpiredIsRecovered(q: Queue, id: string, worker: string, now: int, at: int, commit: int, staleBefore: int, later: int)
    requires Claim(q, id, worker, now, at, commit).Ok? && at < staleBefore
    ensures var after := Claim(q, id, worker, now, at, commit).value;
            && Holds(after, Token(id, worker, q.jobs[id].attempt + 1))
            && (at + JOB_LEASE <= later <==> !Holds(Recover(after, staleBefore, later), Token(id, worker, q.jobs[id].attempt + 1)))
            && (at + JOB_LEASE <= later && !q.jobs[id].stop ==> Recover(after, staleBefore, later).jobs[id].state.Pending?)
  {
    hide Due, HasUnknown, HasRunning;
  }

  // --- what the decisions mean --------------------------------------------------------------------------

  /** A scheduled rule is not due again before its interval has passed; every other rule keeps its schedule. */
  lemma ScheduleMoves(q: Queue, a: Action, after: Queue, r: string, later: int)
    requires Step(q, a, after) && a.ScheduleDue? && after != q && r in q.rules
    ensures r in after.rules
    ensures if Due(q, r, a.now, a.reserved)
            then after.rules[r] == q.rules[r].(nextRun := Some(a.now + q.rules[r].interval * 1_000_000_000))
                 && (later < a.now + q.rules[r].interval * 1_000_000_000 ==> !Due(after, r, later, false))
            else after.rules[r] == q.rules[r]
  {
    hide HasUnknown;
  }

  /**
   * A job is added only for a known rule with usable calendars; one that may write only while the rule is enabled, no
   * reservation is held and no job of the rule has an unknown outcome.
   */
  lemma AddedSafely(q: Queue, a: Action, after: Queue, id: string)
    requires Step(q, a, after) && id !in q.jobs && id in after.jobs
    ensures a.ScheduleDue? || (a.EnqueueJob? && a.id == id)
    ensures var rule := after.jobs[id].rule;
            && rule in q.rules && q.rules[rule].usable
            && (if after.jobs[id].kind.DryRun? then q.rules[rule].state.Enabled? || q.rules[rule].state.Paused?
                else q.rules[rule].state.Enabled? && !a.reserved && !HasUnknown(q.jobs, rule))
  {
    hide HasRunning, HasUnknown;
    if a.ScheduleDue? {
      OneJobEach(DueRules(q, a.now, a.reserved), a.ids, a.now);
    }
  }

  /**
   * A claimed job was pending and due, its rule had no running job and could run it, and no claimable job was due
   * earlier or, due at the same time, created earlier. The claim is safe for fifteen minutes.
   */
  lemma ClaimMeans(q: Queue, a: Action, after: Queue)
    requires Step(q, a, after) && a.ClaimJob? && after != q
    ensures a.id in q.jobs && q.jobs[a.id].state.Pending? && q.jobs[a.id].available <= a.now && !HasRunning(q.jobs, q.jobs[a.id].rule)
    ensures var job := q.jobs[a.id];
            && job.rule in q.rules && q.rules[job.rule].usable
            && (q.rules[job.rule].state.Enabled? || (q.rules[job.rule].state.Paused? && job.kind.DryRun?))
    ensures forall other | other in q.jobs && Claimable(q, other, a.now) ::
              q.jobs[a.id].available < q.jobs[other].available
              || (q.jobs[a.id].available == q.jobs[other].available && q.jobs[a.id].created <= q.jobs[other].created)
    ensures a.id in after.jobs && SafeUntil(after, Token(a.id, a.worker, q.jobs[a.id].attempt + 1), a.at + 15 * 60 * 1_000_000_000)
    ensures after == q.(jobs := q.jobs[a.id := after.jobs[a.id]])
  {
    hide HasRunning, HasUnknown;
  }

  /**
   * Pausing leaves no writing job of the rule in the queue and asks the running ones to stop; the rule is not scheduled
   * while it is paused; dry runs, ended jobs and other rules are as before.
   */
  lemma PauseMeans(q: Queue, a: Action, after: Queue, later: int, reserved: bool)
    requires Step(q, a, after) && a.PauseRule? && after != q
    ensures a.rule in q.rules && q.rules[a.rule].state.Enabled? && a.rule in after.rules
    ensures after.rules == q.rules[a.rule := q.rules[a.rule].(state := Paused, nextRun := None)] && !Due(after, a.rule, later, reserved)
    ensures after.runs == q.runs && after.jobs.Keys == q.jobs.Keys
    ensures forall j | j in q.jobs ::
              var job := q.jobs[j];
              if job.rule == a.rule && !job.kind.DryRun? && job.state.Pending?
              then after.jobs[j] == job.(state := Cancelled, finished := Some(a.now))
              else if job.rule == a.rule && !job.kind.DryRun? && job.state.Running? then after.jobs[j] == job.(stop := true)
              else after.jobs[j] == job
  {
    hide HasUnknown;
  }

  /** Recovery ends exactly the stale claims: such a job is due again at once, or its outcome is unknown if it was asked to stop. */
  lemma RecoveryMeans(q: Queue, a: Action, after: Queue, j: string)
    requires Step(q, a, after) && a.RecoverStale? && j in q.jobs
    ensures j in after.jobs
    ensures var job, e := q.jobs[j], after.jobs[j];
            if job.Stale(a.staleBefore, a.now)
            then e == job.(state := e.state, available := a.now, claimedAt := None, claimedBy := None, lease := None, finished := e.finished)
                 && (if job.stop then e.state.Unknown? && e.finished == Some(a.now) else e.state.Pending? && e.finished == job.finished)
            else e == job
    ensures forall r | r in q.runs && q.runs[r].job == j && q.jobs[j].Stale(a.staleBefore, a.now) && q.runs[r].outcome.Running? ::
              r in after.runs && after.runs[r] == Run(j, if q.jobs[j].stop then Unknown else Failed, Some(a.now))
  {
  }
}
