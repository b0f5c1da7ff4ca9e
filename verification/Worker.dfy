/** The worker that runs a claimed job under the global fence (internal/runtime/worker.go). */
module Worker {
  import opened WriteGuard
  import Jobs

  /** What the steps of one job returned; sent lists the fates of the provider mutations. */
  datatype Execution = Execution(
    dryRun: bool, reserved: bool, eligible: bool, prepared: bool, engineFails: bool, heartbeatFails: bool,
    releaseFails: bool, sent: seq<Fate>)
  {
    /** The engine ran. */
    predicate Ran() { (dryRun || (reserved && eligible)) && prepared }

    /** Nothing failed up to the release. */
    predicate Clean() { Ran() && !engineFails && !heartbeatFails }

    /** A clean engine run committed every mutation; nothing is sent unless it runs, and a dry run sends nothing. */
    predicate Sound()
    {
      (!engineFails ==> Sure(sent)) && (!Ran() || dryRun ==> sent == [])
    }
  }

  datatype Report = Report(releases: bool, outcome: Jobs.State, dispatched: bool)

  /** How a job may return to the fence: confirmed after a clean run, marked when it failed without a dispatch. */
  predicate JobReturns(x: Execution, r: Return)
  {
    (r == Value(true) <==> x.Clean()) && (r.Marked? <==> !x.Clean() && !(x.Ran() && x.sent != [])) && r != Value(false)
  }

  lemma JobHonest(x: Execution, r: Return)
    requires x.Sound() && JobReturns(x, r)
    ensures Honest(r, x.sent)
  {
  }

  /** executeJob, from the reservation to the reported outcome. */
  method ExecuteJob(x: Execution) returns (r: Report, ret: Return)
    ensures JobReturns(x, ret) && (x.Sound() ==> Honest(ret, x.sent))
    ensures r.releases <==> x.reserved && !x.dryRun && (x.Clean() || !r.dispatched)
    ensures r.releases <==> x.reserved && !x.dryRun && ret.Releases()
    ensures x.Sound() && r.releases ==> Settles(x.sent)
    ensures r.outcome.Succeeded? <==> x.Clean() && !(r.releases && x.releaseFails)
    ensures r.outcome.Succeeded? || r.outcome.Failed?
    ensures r.dispatched <==> x.Ran() && x.sent != []
  {
    var failed, reserved, dispatched := false, false, false;
    if !x.dryRun {
      reserved := x.reserved;
      failed := !x.reserved || !x.eligible;
    }
    failed := failed || !x.prepared;
    if !failed {
      dispatched := x.sent != [];
      failed := x.engineFails;
    }
    failed := failed || x.heartbeatFails;
    ret := if !failed then Value(true) else if !dispatched then Marked else Error;
    var releases := reserved && (!failed || !dispatched);
    if releases && x.releaseFails {
      failed := true;
    }
    r := Report(releases, if failed then Jobs.Failed else Jobs.Succeeded, dispatched);
  }
}
