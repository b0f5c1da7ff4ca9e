/**
 * Guarded calls among all other transactions: what a call sends, how it returns and when its reservation goes are
 * those of the workflows of internal/application/following.go, internal/calendar/registry.go and
 * internal/runtime/worker.go.
 */
module GuardRuns {
  import opened Base
  import opened Calendars
  import opened CalendarRuns
  import opened DispatchFence
  import opened FenceRuns
  import opened WriteGuard
  import Worker

  /** What runs inside a guarded call, with the answers it will get. */
  datatype Work =
    | Single(x: Exchange)
    | Update(preflight: Preflight, create: Exchange, trim: Exchange)
    | Delete(preflight: Preflight, trim: Exchange)
    | Job(run: Worker.Execution)
  {
    /** The adapters tell the truth; a job holds its reservation, and its engine reports a clean run only when it was one. */
    predicate Trusted()
    {
      match this
      case Single(x) => x.Truthful()
      case Update(_, create, trim) => create.Truthful() && trim.Truthful()
      case Delete(_, trim) => trim.Truthful()
      case Job(run) => run.Sound() && run.reserved && !run.dryRun
    }

    /** The mutations the workflow sends, in order. */
    function Sends(): seq<Fate>
    {
      match this
      case Single(x) => [x.fate]
      case Update(p, create, trim) => UpdateSends(p, create, trim)
      case Delete(p, trim) => DeleteSends(p, trim)
      case Job(run) => run.sent
    }

    /** What SingleWrite, UpdateFollowing, DeleteFollowing and ExecuteJob promise of their return value. */
    predicate Returns(r: Return)
    {
      match this
      case Single(x) => SingleReturns(x, r)
      case Update(p, create, trim) => UpdateReturns(p, create, trim, r)
      case Delete(p, trim) => DeleteReturns(p, trim, r)
      case Job(run) => Worker.JobReturns(run, r)
    }
  }

  /** Under truthful adapters every workflow returns honestly: a return that releases leaves nothing in doubt. */
  lemma ReturnsHonestly(work: Work, r: Return)
    requires work.Trusted() && work.Returns(r)
    ensures Honest(r, work.Sends()) && (r.Releases() ==> Settles(work.Sends()))
  {
    match work {
      case Single(x) => SingleHonest(x, r);
      case Update(p, create, trim) => UpdateHonest(p, create, trim, r);
      case Delete(p, trim) => DeleteHonest(p, trim, r);
      case Job(run) => Worker.JobHonest(run, r);
    }
    if r.Releases() {
      HonestSettles(r, work.Sends());
    }
  }

  /** GuardedWrite between its begin and its return, or after it. */
  datatype Phase = Running | Settled | Parked

  datatype Call = Call(calendars: seq<string>, work: Work, sent: seq<Fate>, phase: Phase)

  datatype World = World(db: Db, calls: map<string, Call>)

  datatype Event =
    | Open(request: Request, work: Work)
    | Send(operation: string)
    | Return(operation: string, ret: Return)
    | GiveBack(operation: string, now: int)
    | Elsewhere(action: DbAction)

  ghost function After(zones: Zones, db: Db, a: DbAction): Db
  {
    if DbNext(zones, db, a).Ok? then DbNext(zones, db, a).value else db
  }

  /**
   * Which events can happen: a running call sends its workflow's next mutation, or returns once all are sent, as the
   * workflow may. The identifier of a reservation is known to its call alone, so nobody else asks for its release.
   */
  ghost predicate Allowed(w: World, e: Event)
  {
    match e
    case Open(q, work) => q.target == GLOBAL_KEY && work.Trusted()
    case Send(op) => op in w.calls && w.calls[op].phase.Running? && |w.calls[op].sent| < |w.calls[op].work.Sends()|
    case Return(op, ret) =>
      op in w.calls && w.calls[op].phase.Running? && |w.calls[op].sent| == |w.calls[op].work.Sends()| && w.calls[op].work.Returns(ret)
    case GiveBack(op, _) => op in w.calls && w.calls[op].phase.Settled?
    case Elsewhere(a) => !(a.ReleaseRun? && a.operation in w.calls)
  }

  ghost function WorldNext(zones: Zones, w: World, e: Event): World
    requires Allowed(w, e)
  {
    match e
    case Open(q, work) =>
      var after := After(zones, w.db, Reserve(q));
      if after == w.db then w else World(after, w.calls[q.operation := Call(q.calendars, work, [], Running)])
    case Send(op) =>
      var call := w.calls[op];
      w.(calls := w.calls[op := call.(sent := call.sent + [call.work.Sends()[|call.sent|]])])
    case Return(op, ret) => w.(calls := w.calls[op := w.calls[op].(phase := if ret.Releases() then Settled else Parked)])
    case GiveBack(op, now) => w.(db := After(zones, w.db, ReleaseRun(op, w.calls[op].calendars, now)))
    case Elsewhere(a) => w.(db := After(zones, w.db, a))
  }

  predicate CallLaw(db: Db, op: string, c: Call)
  {
    && op in db.reservations && op in db.ledger && db.reservations[op].target == GLOBAL_KEY
    && ValidMutationId(op) && Normalize(c.calendars) == Ok(db.ledger[op].calendars)
    && (db.reservations[op].released ==> c.phase.Settled?)
    && c.work.Trusted() && c.sent <= c.work.Sends()
    && (c.phase.Settled? ==> c.sent == c.work.Sends() && Settles(c.sent))
  }

  ghost predicate WorldInv(w: World)
  {
    FenceInv(w.db) && forall op | op in w.calls :: CallLaw(w.db, op, w.calls[op])
  }

  lemma CallKept(zones: Zones, db: Db, a: DbAction, op: string, c: Call)
    requires FenceInv(db) && CallLaw(db, op, c)
    requires a.ReleaseRun? && a.operation == op ==> c.phase.Settled?
    ensures CallLaw(After(zones, db, a), op, c)
  {
    var after := After(zones, db, a);
    hide FenceInv, Normalize, ValidMutationId, Settles, Work.Trusted, Work.Sends;
    assert DbStep(zones, db, a, after);
    if db.reservations[op].released {
      hide DbNext;
      ReleasedStays(zones, db, a, after, op);
    } else if a.ReleaseRun? && a.operation == op {
      hide Release;
      if after != db {
        ReleaseFacts(db, op, a.calendars, a.now);
      }
    } else {
      hide DbNext;
      ReservationStays(zones, db, a, after, op);
    }
  }

  lemma ReleasedStays(zones: Zones, db: Db, a: DbAction, after: Db, op: string)
    requires FenceInv(db) && DbStep(zones, db, a, after) && op in db.reservations && op in db.ledger && db.reservations[op].released
    ensures op in after.reservations && op in after.ledger && after.reservations[op] == db.reservations[op]
    ensures after.ledger[op].calendars == db.ledger[op].calendars
  {
    hide BeginExclusive, BeginMany, Release, ResolveMany, Next, AllListed, Identified, IntentsMatch, OneReservation, Normalize, Fenced,
         Unfenced, FenceFailure, Reserved;
    if after != db {
      match a {
        case Reserve(q) => ReserveFacts(db, q);
        case BeginShared(o, ids) => SharedFacts(db, o, ids);
        case ReleaseRun(o, ids, now) => ReleaseFacts(db, o, ids, now);
        case ResolveShared(o, ids, now) => ResolveFacts(db, o, ids, now);
        case OnCalendar(_, _) =>
      }
    }
  }

  lemma WorldStep(zones: Zones, w: World, e: Event)
    requires WorldInv(w) && Allowed(w, e)
    ensures WorldInv(WorldNext(zones, w, e))
  {
    hide FenceInv, CallLaw, After, Work.Trusted, Work.Sends, Work.Returns;
    match e {
      case Open(q, work) => OpenStep(zones, w, q, work);
      case Send(op) => SendStep(w.db, op, w.calls[op]);
      case Return(op, ret) => ReturnStep(w.db, op, w.calls[op], ret);
      case GiveBack(op, now) => TransactionStep(zones, w, ReleaseRun(op, w.calls[op].calendars, now));
      case Elsewhere(a) => TransactionStep(zones, w, a);
    }
  }

  lemma SendStep(db: Db, op: string, c: Call)
    requires CallLaw(db, op, c) && c.phase.Running? && |c.sent| < |c.work.Sends()|
    ensures CallLaw(db, op, c.(sent := c.sent + [c.work.Sends()[|c.sent|]]))
  {
    hide Normalize, ValidMutationId, Settles, Work.Trusted, Work.Sends;
  }

  lemma ReturnStep(db: Db, op: string, c: Call, ret: Return)
    requires CallLaw(db, op, c) && c.phase.Running? && |c.sent| == |c.work.Sends()| && c.work.Returns(ret)
    ensures CallLaw(db, op, c.(phase := if ret.Releases() then Settled else Parked))
  {
    ReturnsHonestly(c.work, ret);
    hide Normalize, ValidMutationId, Settles, Work.Trusted, Work.Sends, Work.Returns;
  }

  lemma TransactionStep(zones: Zones, w: World, a: DbAction)
    requires WorldInv(w)
    requires a.ReleaseRun? && a.operation in w.calls ==> w.calls[a.operation].phase.Settled?
    ensures WorldInv(w.(db := After(zones, w.db, a)))
  {
    hide FenceInv, CallLaw, After;
    var after := After(zones, w.db, a);
    StepOf(zones, w.db, a);
    FenceStep(zones, w.db, a, after);
    forall op | op in w.calls ensures CallLaw(after, op, w.calls[op]) {
      CallKept(zones, w.db, a, op, w.calls[op]);
    }
  }

  lemma StepOf(zones: Zones, db: Db, a: DbAction)
    ensures DbStep(zones, db, a, After(zones, db, a))
  {
    hide DbNext;
  }

  lemma OpenStep(zones: Zones, w: World, q: Request, work: Work)
    requires WorldInv(w) && q.target == GLOBAL_KEY && work.Trusted()
    ensures WorldInv(WorldNext(zones, w, Open(q, work)))
  {
    hide FenceInv, CallLaw, After;
    TransactionStep(zones, w, Reserve(q));
    if After(zones, w.db, Reserve(q)) != w.db {
      OpenedCall(zones, w.db, q, work);
    }
  }

  lemma OpenedCall(zones: Zones, db: Db, q: Request, work: Work)
    requires q.target == GLOBAL_KEY && work.Trusted() && After(zones, db, Reserve(q)) != db
    ensures CallLaw(After(zones, db, Reserve(q)), q.operation, Call(q.calendars, work, [], Running))
  {
    hide BeginExclusive, Normalize, ValidMutationId, ValidKey, TargetDigest;
    ReserveFacts(db, q);
    ReserveValid(db, q);
  }

  lemma ReserveValid(db: Db, q: Request)
    requires BeginExclusive(db, q).Ok?
    ensures q.Valid()
  {
    hide Normalize, FenceFailure, Fenced;
  }

  // --- over runs --------------------------------------------------------------------------------

  ghost predicate WorldRun(zones: Zones, tr: seq<World>, evs: seq<Event>)
  {
    && |tr| == |evs| + 1
    && forall k | 0 <= k < |evs| :: Allowed(tr[k], evs[k]) && tr[k + 1] == WorldNext(zones, tr[k], evs[k])
  }

  lemma {:induction false} WorldHolds(zones: Zones, tr: seq<World>, evs: seq<Event>, k: nat)
    requires WorldRun(zones, tr, evs) && WorldInv(tr[0]) && k < |tr|
    ensures WorldInv(tr[k])
  {
    hide WorldInv, WorldNext, Allowed;
    if k > 0 {
      WorldHolds(zones, tr, evs, k - 1);
      WorldStep(zones, tr[k - 1], evs[k - 1]);
    }
  }

  /** In every run a released guarded call has sent all it was going to send, and leaves none of it in doubt. */
  lemma ReleasedMeansKnown(zones: Zones, tr: seq<World>, evs: seq<Event>, k: nat, op: string)
    requires WorldRun(zones, tr, evs) && WorldInv(tr[0]) && k < |tr| && op in tr[k].calls
    ensures !Unreleased(tr[k].db, op) ==> tr[k].calls[op].sent == tr[k].calls[op].work.Sends() && Settles(tr[k].calls[op].sent)
  {
    hide WorldNext, Allowed, FenceInv;
    WorldHolds(zones, tr, evs, k);
  }

  predicate Doubtful(sent: seq<Fate>)
  {
    exists i | 0 <= i < |sent| :: sent[i].Unknown?
  }

  lemma SentGrows(zones: Zones, w: World, e: Event, op: string)
    requires WorldInv(w) && Allowed(w, e) && op in w.calls
    ensures op in WorldNext(zones, w, e).calls && w.calls[op].sent <= WorldNext(zones, w, e).calls[op].sent
  {
    hide FenceInv, DbNext, FenceFailure, Fenced, Normalize;
    if e.Open? && WorldNext(zones, w, e) != w {
      OpenedFresh(zones, w.db, e.request);
      assert CallLaw(w.db, op, w.calls[op]);
    }
  }

  lemma OpenedFresh(zones: Zones, db: Db, q: Request)
    requires After(zones, db, Reserve(q)) != db
    ensures q.operation !in db.reservations
  {
    hide BeginExclusive;
    ReserveFacts(db, q);
  }

  lemma {:induction false} DoubtStays(zones: Zones, tr: seq<World>, evs: seq<Event>, i: nat, j: nat, op: string)
    requires WorldRun(zones, tr, evs) && WorldInv(tr[0]) && i <= j < |tr|
    requires op in tr[i].calls && Doubtful(tr[i].calls[op].sent)
    ensures op in tr[j].calls && Doubtful(tr[j].calls[op].sent)
    decreases j
  {
    hide WorldInv, WorldNext, Allowed;
    if i < j {
      DoubtStays(zones, tr, evs, i, j - 1, op);
      WorldHolds(zones, tr, evs, j - 1);
      SentGrows(zones, tr[j - 1], evs[j - 1], op);
      var n :| 0 <= n < |tr[j - 1].calls[op].sent| && tr[j - 1].calls[op].sent[n].Unknown?;
      assert tr[j].calls[op].sent[n].Unknown?;
    }
  }

  lemma DoubtHolds(zones: Zones, tr: seq<World>, evs: seq<Event>, i: nat, j: nat, op: string)
    requires WorldRun(zones, tr, evs) && WorldInv(tr[0]) && i <= j < |tr|
    requires op in tr[i].calls && Doubtful(tr[i].calls[op].sent)
    ensures FenceInv(tr[j].db) && Unreleased(tr[j].db, op) && tr[j].db.reservations[op].target == GLOBAL_KEY
  {
    hide WorldNext, Allowed, FenceInv, WorldRun;
    DoubtStays(zones, tr, evs, i, j, op);
    WorldHolds(zones, tr, evs, j);
    var w := tr[j];
    assert CallLaw(w.db, op, w.calls[op]);
  }

  /**
   * Once a guarded call has sent a write whose outcome is unknown, its reservation is never released: from then
   * on every other guarded call is refused, nothing is published and no snapshot of its calendars is readable.
   */
  lemma UnknownOutcomeBlocks(zones: Zones, tr: seq<World>, evs: seq<Event>, i: nat, j: nat, op: string)
    requires WorldRun(zones, tr, evs) && WorldInv(tr[0]) && i <= j < |tr|
    requires op in tr[i].calls && Doubtful(tr[i].calls[op].sent)
    ensures Unreleased(tr[j].db, op) && Blocked(zones, tr[j].db, op, GLOBAL_KEY)
  {
    hide WorldNext, Allowed, FenceInv, WorldRun, WorldInv, Blocked;
    DoubtHolds(zones, tr, evs, i, j, op);
    UnreleasedBlocks(zones, tr[j].db, op);
  }

  /** The other way round: a settled call's release can only fail because it already happened. */
  lemma SettledCanRelease(w: World, op: string, now: int)
    requires WorldInv(w) && op in w.calls && w.calls[op].phase.Settled? && Unreleased(w.db, op)
    ensures Release(w.db, op, w.calls[op].calendars, now).Ok?
  {
    hide FenceInv, Release, Normalize, ValidMutationId;
    assert CallLaw(w.db, op, w.calls[op]);
    ReleaseSucceeds(w.db, op, w.calls[op].calendars, now);
  }
}
