/** The job transactions row by row (internal/storage/operations.go, internal/storage/sync_control.go). */
module JobStore {
  import opened Base
  import opened Strings
  import opened Jobs
  import opened JobRuns

  function StaleJobs(q: Queue, staleBefore: int, now: int): set<string>
  {
    set j | j in q.jobs && q.jobs[j].Stale(staleBefore, now)
  }

  /** Recovery of the listed jobs, without their runs. */
  function RecoverJobs(jobs: map<string, Job>, listed: set<string>, now: int): map<string, Job>
  {
    map j | j in jobs :: if j in listed then jobs[j].Recovered(now) else jobs[j]
  }

  /** The open runs of the listed jobs end: unknown if their job is, failed otherwise. */
  function CloseRuns(runs: map<string, Run>, jobs: map<string, Job>, listed: set<string>, now: int): map<string, Run>
  {
    map r | r in runs ::
      if runs[r].outcome.Running? && runs[r].job in listed && runs[r].job in jobs
      then runs[r].(outcome := if jobs[runs[r].job].state.Unknown? then Unknown else Failed, finished := Some(now))
      else runs[r]
  }

  lemma PrefixSet(ids: seq<string>, i: nat)
    requires i < |ids| && Ascending(ids)
    ensures Elements(ids[..i + 1]) == Elements(ids[..i]) + {ids[i]} && ids[i] !in Elements(ids[..i]) && ids[i] in Elements(ids)
  {
    assert ids[..i + 1] == ids[..i] + [ids[i]];
  }

  lemma NewJobsNext(due: seq<string>, ids: map<string, string>, now: int, i: nat)
    requires i < |due| && Ascending(due) && Elements(due) <= ids.Keys
    requires forall r, s | r in ids && s in ids && ids[r] == ids[s] :: r == s
    ensures Elements(due[..i]) <= ids.Keys && Elements(due[..i + 1]) <= ids.Keys && due[i] in ids
    ensures NewJobs(Elements(due[..i + 1]), ids, now) == NewJobs(Elements(due[..i]), ids, now)[ids[due[i]] := ScheduledJob(due[i], now)]
  {
    PrefixSet(due, i);
    hide Ascending, Elements, NewJobs;
    NewJobsPlus(Elements(due[..i]), due[i], ids, now);
  }

  lemma NewJobsPlus(due: set<string>, rule: string, ids: map<string, string>, now: int)
    requires due <= ids.Keys && rule in ids && rule !in due
    requires forall r, s | r in ids && s in ids && ids[r] == ids[s] :: r == s
    ensures NewJobs(due + {rule}, ids, now) == NewJobs(due, ids, now)[ids[rule] := ScheduledJob(rule, now)]
  {
    var before, after := NewJobs(due, ids, now), NewJobs(due + {rule}, ids, now);
    assert after.Keys == before.Keys + {ids[rule]};
  }

  lemma RescheduledNext(rules: map<string, Rule>, due: seq<string>, now: int, i: nat)
    requires i < |due| && Ascending(due) && due[i] in rules
    ensures var done := Rescheduled(rules, Elements(due[..i]), now);
            && done.Keys == rules.Keys && done[due[i]] == rules[due[i]]
            && Rescheduled(rules, Elements(due[..i + 1]), now) ==
               done[due[i] := done[due[i]].(nextRun := Some(now + done[due[i]].interval * 1_000_000_000))]
  {
    PrefixSet(due, i);
    hide Ascending;
  }

  lemma RecoverNext(jobs: map<string, Job>, stale: seq<string>, now: int, i: nat)
    requires i < |stale| && Ascending(stale) && stale[i] in jobs
    ensures var done := RecoverJobs(jobs, Elements(stale[..i]), now);
            && done.Keys == jobs.Keys
            && RecoverJobs(jobs, Elements(stale[..i + 1]), now) == done[stale[i] := done[stale[i]].Recovered(now)]
  {
    PrefixSet(stale, i);
    hide Ascending;
  }

  /** One job's open runs end. */
  function CloseJob(runs: map<string, Run>, job: string, outcome: State, now: int): map<string, Run>
  {
    map r | r in runs ::
      if runs[r].outcome.Running? && runs[r].job == job then runs[r].(outcome := outcome, finished := Some(now)) else runs[r]
  }

  lemma CloseNext(runs: map<string, Run>, jobs: map<string, Job>, stale: seq<string>, now: int, i: nat)
    requires i < |stale| && Ascending(stale) && stale[i] in jobs
    ensures CloseRuns(runs, jobs, Elements(stale[..i + 1]), now) ==
            CloseJob(CloseRuns(runs, jobs, Elements(stale[..i]), now), stale[i],
                     if jobs[stale[i]].state.Unknown? then Unknown else Failed, now)
  {
    PrefixSet(stale, i);
    hide Ascending;
  }

  lemma RecoveryInParts(q: Queue, staleBefore: int, now: int)
    ensures var listed := StaleJobs(q, staleBefore, now);
            var jobs := RecoverJobs(q.jobs, listed, now);
            Recover(q, staleBefore, now) == q.(jobs := jobs, runs := CloseRuns(q.runs, jobs, listed, now))
  {
  }

  function CancelPending(jobs: map<string, Job>, rule: string, now: int): map<string, Job>
  {
    map j | j in jobs ::
      if jobs[j].rule == rule && jobs[j].state.Pending? && !jobs[j].kind.DryRun?
      then jobs[j].(state := Cancelled, finished := Some(now)) else jobs[j]
  }

  function StopRunning(jobs: map<string, Job>, rule: string): map<string, Job>
  {
    map j | j in jobs ::
      if jobs[j].rule == rule && jobs[j].state.Running? && !jobs[j].kind.DryRun? then jobs[j].(stop := true) else jobs[j]
  }

  lemma PauseInParts(jobs: map<string, Job>, rule: string, now: int)
    ensures StopRunning(CancelPending(jobs, rule, now), rule) == map j | j in jobs :: PausedJob(jobs[j], rule, now)
  {
  }

  lemma SoonerOrder()
    ensures forall a: Job :: Sooner(a, a)
    ensures forall a: Job, b: Job :: Sooner(a, b) || Sooner(b, a)
    ensures forall a: Job, b: Job, c: Job :: Sooner(a, b) && Sooner(b, c) ==> Sooner(a, c)
  {
  }

  lemma NothingDue(q: Queue, ids: map<string, string>, now: int)
    requires FreshIds(q.jobs, ids)
    ensures Elements([]) <= ids.Keys && q.jobs + NewJobs(Elements([]), ids, now) == q.jobs
    ensures Rescheduled(q.rules, Elements([]), now) == q.rules
  {
  }

  lemma NothingStale(q: Queue, now: int)
    ensures RecoverJobs(q.jobs, Elements([]), now) == q.jobs
  {
  }

  lemma NoRuns(runs: map<string, Run>, jobs: map<string, Job>, now: int)
    ensures CloseRuns(runs, jobs, Elements([]), now) == runs
  {
  }

  lemma RecoveredKeys(jobs: map<string, Job>, listed: set<string>, now: int)
    ensures RecoverJobs(jobs, listed, now).Keys == jobs.Keys
  {
  }

  lemma InElements(ids: seq<string>, i: nat)
    requires i < |ids|
    ensures ids[i] in Elements(ids)
  {
  }

  class JobStore {
    var rules: map<string, Rule>
    var jobs: map<string, Job>
    var runs: map<string, Run>

    function State(): Queue
      reads this
    {
      Queue(rules, jobs, runs)
    }

    /** Inserts one job and moves one schedule for each listed rule. */
    method ScheduleEach(due: seq<string>, ids: map<string, string>, now: int)
      requires Ascending(due) && Elements(due) <= rules.Keys && Elements(due) <= ids.Keys && FreshIds(jobs, ids)
      modifies this`jobs, this`rules
      ensures jobs == old(jobs) + NewJobs(Elements(due), ids, now)
      ensures rules == Rescheduled(old(rules), Elements(due), now)
    {
      hide Ascending, NewJobs, Rescheduled, Elements;
      assert due[..0] == [] && due[..|due|] == due;
      NothingDue(State(), ids, now);
      for i := 0 to |due|
        invariant Elements(due[..i]) <= ids.Keys
        invariant jobs == old(jobs) + NewJobs(Elements(due[..i]), ids, now)
        invariant rules == Rescheduled(old(rules), Elements(due[..i]), now)
      {
        InElements(due, i);
        NewJobsNext(due, ids, now, i);
        RescheduledNext(old(rules), due, now, i);
        jobs := jobs[ids[due[i]] := ScheduledJob(due[i], now)];
        rules := rules[due[i] := rules[due[i]].(nextRun := Some(now + rules[due[i]].interval * 1_000_000_000))];
      }
    }

    /** One scheduled job for every due rule, under freshly drawn IDs. */
    method ScheduleDueJobs(now: int, reserved: bool, ids: map<string, string>) returns (count: nat)
      requires DueRules(State(), now, reserved) <= ids.Keys && FreshIds(jobs, ids)
      modifies this
      ensures State() == Schedule(old(State()), DueRules(old(State()), now, reserved), ids, now)
      ensures count == |DueRules(old(State()), now, reserved)|
    {
      hide NewJobs, Rescheduled, Due, FreshIds;
      var due := Sorted(DueRules(State(), now, reserved));
      ScheduleEach(due, ids, now);
      return |due|;
    }

    /**
     * The earliest claimable job becomes the worker's. The clock is read again before and after the commit: a lease
     * used up before it undoes the claim, one used up by it is reported as lost while the row stays claimed.
     */
    method ClaimJob(worker: string, now: int, at: int, commit: int, returned: int) returns (t: Option<Token>, failure: Option<Error>)
      modifies this`jobs
      ensures t.Some? ==> failure.None? && returned < at + JOB_LEASE
                          && Claim(old(State()), t.value.job, worker, now, at, commit) == Ok(State()) && Holds(State(), t.value)
      ensures t.None? && failure.None? ==> State() == old(State()) && forall j | j in jobs :: !Claimable(State(), j, now)
      ensures failure.Some? ==> t.None? && failure.value == LeaseLost
      ensures failure.Some? && at + JOB_LEASE <= commit ==> State() == old(State()) && exists j | j in jobs :: Claimable(State(), j, now)
      ensures failure.Some? && commit < at + JOB_LEASE ==>
                returned >= at + JOB_LEASE && exists j | j in jobs :: Claim(old(State()), j, worker, now, at, commit) == Ok(State())
    {
      hide Claimable, Sooner, Ascending;
      SoonerOrder();
      var ids := Sorted(jobs.Keys);
      var best: Option<string> := None;
      for i := 0 to |ids|
        invariant best.None? ==> forall k | 0 <= k < i :: !Claimable(State(), ids[k], now)
        invariant best.Some? ==> best.value in jobs && Claimable(State(), best.value, now)
                                 && forall k | 0 <= k < i && ids[k] in jobs && Claimable(State(), ids[k], now) ::
                                      Sooner(jobs[best.value], jobs[ids[k]])
      {
        assert ids[i] in Elements(ids);
        if Claimable(State(), ids[i], now) && (best.None? || !Sooner(jobs[best.value], jobs[ids[i]])) {
          best := Some(ids[i]);
        }
      }
      assert forall j | j in jobs :: j in Elements(ids);
      if best.None? {
        return None, None;
      }
      if at + JOB_LEASE <= commit {
        return None, Some(LeaseLost);
      }
      assert First(State(), best.value, now);
      jobs := jobs[best.value := Claimed(jobs[best.value], worker, at)];
      assert Claim(old(State()), best.value, worker, now, at, commit) == Ok(State());
      if at + JOB_LEASE <= returned {
        return None, Some(LeaseLost);
      }
      return Some(Token(best.value, worker, jobs[best.value].attempt)), None;
    }

    method RecoverEach(stale: seq<string>, now: int)
      requires Ascending(stale) && Elements(stale) <= jobs.Keys
      modifies this`jobs
      ensures jobs == RecoverJobs(old(jobs), Elements(stale), now)
    {
      hide Ascending, RecoverJobs, Elements;
      assert stale[..0] == [] && stale[..|stale|] == stale;
      NothingStale(State(), now);
      for i := 0 to |stale|
        invariant jobs == RecoverJobs(old(jobs), Elements(stale[..i]), now)
      {
        InElements(stale, i);
        RecoverNext(old(jobs), stale, now, i);
        jobs := jobs[stale[i] := jobs[stale[i]].Recovered(now)];
      }
    }

    method CloseEach(stale: seq<string>, now: int)
      requires Ascending(stale) && Elements(stale) <= jobs.Keys
      modifies this`runs
      ensures runs == CloseRuns(old(runs), jobs, Elements(stale), now)
    {
      hide Ascending, CloseRuns, Elements;
      assert stale[..0] == [] && stale[..|stale|] == stale;
      NoRuns(runs, jobs, now);
      for i := 0 to |stale|
        invariant runs == CloseRuns(old(runs), jobs, Elements(stale[..i]), now)
      {
        InElements(stale, i);
        CloseNext(old(runs), jobs, stale, now, i);
        runs := CloseJob(runs, stale[i], if jobs[stale[i]].state.Unknown? then Unknown else Failed, now);
      }
    }

    /** Expired claims first, then the runs they left open. */
    method RecoverStaleJobs(staleBefore: int, now: int) returns (count: nat)
      modifies this
      ensures State() == Recover(old(State()), staleBefore, now)
      ensures count == |StaleJobs(old(State()), staleBefore, now)|
    {
      hide RecoverJobs, CloseRuns, Recover;
      RecoveryInParts(State(), staleBefore, now);
      var stale := Sorted(StaleJobs(State(), staleBefore, now));
      RecoveredKeys(jobs, Elements(stale), now);
      RecoverEach(stale, now);
      CloseEach(stale, now);
      return |stale|;
    }

    /** EnqueueJob: refused while the rule cannot run, or while an outcome is unknown anywhere that matters. */
    method EnqueueJob(id: string, job: Job, reserved: bool) returns (failure: Option<Error>)
      modifies this`jobs
      ensures var r := Enqueue(old(State()), id, job, reserved);
              && (r.Ok? ==> failure == None && State() == r.value)
              && (r.Err? ==> failure == Some(r.error) && State() == old(State()))
      ensures failure.None? ==> jobs.Keys == old(jobs.Keys) + {id} && id !in old(jobs)
                                && (job.kind.DryRun? || (!reserved && !HasUnknown(old(jobs), job.rule)))
    {
      hide HasUnknown, HasRunning;
      if job.rule !in rules {
        return Some(Ineligible);
      }
      var rule := rules[job.rule];
      if !rule.state.Enabled? && (!rule.state.Paused? || !job.kind.DryRun?) {
        return Some(Ineligible);
      }
      if !job.kind.DryRun? {
        if reserved || HasUnknown(jobs, job.rule) {
          return Some(Ineligible);
        }
      }
      if !rule.usable {
        return Some(Ineligible);
      }
      if id in jobs || (job.state.Running? && HasRunning(jobs, job.rule)) {
        return Some(Rejected);
      }
      jobs := jobs[id := Queued(job)];
      return None;
    }

    /** RequestRulePause: the rule first, then its pending and its running jobs. */
    method RequestRulePause(rule: string, now: int) returns (failure: Option<Error>)
      modifies this`rules, this`jobs
      ensures var r := Pause(old(State()), rule, now);
              && (r.Ok? ==> failure == None && State() == r.value)
              && (r.Err? ==> failure == Some(r.error) && State() == old(State()))
    {
      if rule !in rules || !rules[rule].state.Enabled? {
        return Some(Conflict);
      }
      rules := rules[rule := rules[rule].(state := Paused, nextRun := None)];
      PauseInParts(jobs, rule, now);
      hide CancelPending, StopRunning, PausedJob;
      jobs := CancelPending(jobs, rule, now);
      jobs := StopRunning(jobs, rule);
      return None;
    }

    /** RequestJobStop: a queued job is cancelled, a running one asked to stop; a second request is refused. */
    method RequestJobStop(id: string, now: int) returns (failure: Option<Error>)
      modifies this`jobs
      ensures var r := RequestStop(old(State()), id, now);
              && (r.Ok? ==> failure == None && State() == r.value)
              && (r.Err? ==> failure == Some(r.error) && State() == old(State()))
      ensures failure.None? ==> id in jobs && jobs[id].stop && (jobs[id].state.Running? || jobs[id].state.Cancelled?)
                                && jobs == old(jobs)[id := jobs[id]]
    {
      if id !in jobs || jobs[id].stop || (!jobs[id].state.Pending? && !jobs[id].state.Running?) {
        return Some(Conflict);
      }
      var job := jobs[id].(stop := true);
      if job.state.Pending? {
        job := job.(state := Cancelled, finished := Some(now));
      }
      jobs := jobs[id := job];
      return None;
    }

    /** A renewal that commits but has used up the new lease by then leaves it in the row and still reports it as lost. */
    method RenewJobLease(t: Token, locked: int, commit: int, returned: int) returns (ok: bool)
      modifies this`jobs
      ensures var r := Renew(old(State()), t, locked, commit);
              && State() == (if r.Ok? then r.value else old(State()))
              && (ok <==> r.Ok? && (old(State()).jobs[t.job].lease.None? || returned < locked + JOB_LEASE))
      ensures ok ==> Holds(State(), t)
      ensures ok && old(State()).jobs[t.job].lease.Some? ==> SafeUntil(State(), t, locked + JOB_LEASE)
    {
      ghost var before := State();
      if !Holds(State(), t) {
        return false;
      }
      var job := jobs[t.job];
      if job.claimedAt.None? || locked < job.claimedAt.value || (job.lease.Some? && job.lease.value <= locked) {
        return false;
      }
      if job.lease.Some? && job.lease.value <= commit {
        return false;
      }
      jobs := jobs[t.job := job.(claimedAt := Some(locked), lease := if job.lease.None? then None else Some(locked + JOB_LEASE))];
      if job.lease.Some? {
        RenewalProtects(before, t, locked, commit);
      }
      return job.lease.None? || returned < locked + JOB_LEASE;
    }

    /** The job row and its run row end together; a failure on the second undoes the first. */
    method FinishRun(run: string, t: Token, outcome: State, finished: int, dispatched: bool, locked: int, commit: int)
      returns (failure: Option<Error>)
      modifies this`jobs, this`runs
      ensures var r := Finish(old(State()), run, t, outcome, finished, dispatched, locked, commit);
              && (r.Ok? ==> failure == None && State() == r.value)
              && (r.Err? ==> failure == Some(r.error) && State() == old(State()))
    {
      if !Holds(State(), t) || (jobs[t.job].lease.Some? && jobs[t.job].lease.value <= locked) {
        return Some(LeaseLost);
      }
      var saved := jobs;
      var deadline := jobs[t.job].lease;
      var final := FinalOutcome(jobs[t.job], outcome, dispatched);
      jobs := jobs[t.job := jobs[t.job].(state := final, finished := Some(finished), lease := None)];
      if run !in runs || runs[run].job != t.job || !runs[run].outcome.Running? {
        jobs := saved;
        return Some(NotFound);
      }
      if deadline.Some? && deadline.value <= commit {
        jobs := saved;
        return Some(LeaseLost);
      }
      runs := runs[run := runs[run].(outcome := final, finished := Some(finished))];
      return None;
    }
  }
}
