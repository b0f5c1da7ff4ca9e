/** Runs of the whole database seen from one calendar: everything proved of a calendar's runs holds in them. */
module DatabaseRuns {
  import opened Base
  import opened Strings
  import opened SyncLease
  import opened Calendars
  import opened CalendarRuns
  import opened DispatchFence
  import opened FenceRuns

  /** A transaction that is always refused. */
  const REFUSED := DiscardCandidate("")

  /** What a database step does to one calendar. */
  ghost function Seen(db: Db, a: DbAction, id: string): Action
  {
    match a
    case Reserve(q) => if BeginExclusive(db, q).Ok? && id in q.calendars then FenceMutation(q.operation) else REFUSED
    case BeginShared(op, ids) => if BeginMany(db, op, ids).Ok? && id in ids then FenceMutation(op) else REFUSED
    case ReleaseRun(op, ids, now) => if Release(db, op, ids, now).Ok? && id in ids then UnfenceMutation(op, now) else REFUSED
    case ResolveShared(op, ids, now) => if ResolveMany(db, op, ids, now).Ok? && id in ids then UnfenceMutation(op, now) else REFUSED
    case OnCalendar(other, action) => if other == id && Admitted(db, action) then action else REFUSED
  }

  lemma RefusedStays(zones: Zones, c: Calendar)
    ensures Step(zones, c, REFUSED, c)
  {
  }

  lemma FenceSeen(zones: Zones, c: Calendar, operation: string)
    requires Fence(c, operation).Ok?
    ensures Step(zones, c, FenceMutation(operation), Fence(c, operation).value)
  {
    hide Fence;
  }

  lemma UnfenceSeen(zones: Zones, c: Calendar, operation: string, now: int)
    requires Unfence(c, operation, now).Ok?
    ensures Step(zones, c, UnfenceMutation(operation, now), Unfence(c, operation, now).value)
  {
    hide Unfence;
  }

  lemma BeginSeen(zones: Zones, db: Db, a: DbAction, after: Db, id: string)
    requires id in db.calendars
    requires (a.Reserve? && BeginExclusive(db, a.request) == Ok(after)) || (a.BeginShared? && BeginMany(db, a.operation, a.calendars) == Ok(after))
    ensures id in after.calendars && Step(zones, db.calendars[id], Seen(db, a, id), after.calendars[id])
  {
    hide BeginExclusive, BeginMany, Step, Fence, FenceFailure, Normalize;
    var op := if a.Reserve? then a.request.operation else a.operation;
    var ids := if a.Reserve? then a.request.calendars else a.calendars;
    if a.Reserve? {
      ReserveFacts(db, a.request);
    } else {
      SharedFacts(db, a.operation, a.calendars);
    }
    NormalizedAscends(ids);
    AllFence(db.calendars, op, Normalize(ids).value);
    assert id in Elements(ids) <==> id in Normalize(ids).value;
    if id in ids {
      FenceSeen(zones, db.calendars[id], op);
    } else {
      RefusedStays(zones, db.calendars[id]);
    }
  }

  lemma EndSeen(zones: Zones, db: Db, a: DbAction, after: Db, id: string)
    requires FenceInv(db) && id in db.calendars
    requires (a.ReleaseRun? && Release(db, a.operation, a.calendars, a.now) == Ok(after))
             || (a.ResolveShared? && ResolveMany(db, a.operation, a.calendars, a.now) == Ok(after))
    ensures id in after.calendars && Step(zones, db.calendars[id], Seen(db, a, id), after.calendars[id])
  {
    hide Release, ResolveMany, Step, Unfence, Normalize, HasIntent, AllListed, OneReservation;
    if a.ReleaseRun? {
      ReleaseFacts(db, a.operation, a.calendars, a.now);
    } else {
      ResolveFacts(db, a.operation, a.calendars, a.now);
    }
    NormalizedAscends(a.calendars);
    assert id in Elements(a.calendars) <==> id in Normalize(a.calendars).value;
    UnfenceIntents(db.calendars[id], a.operation, a.now);
    assert HasIntent(db.calendars[id], a.operation) <==> id in Held(db.ledger[a.operation]);
    if id in a.calendars {
      UnfenceSeen(zones, db.calendars[id], a.operation, a.now);
    } else {
      RefusedStays(zones, db.calendars[id]);
    }
  }

  lemma OwnSeen(zones: Zones, db: Db, a: DbAction, after: Db, id: string)
    requires a.OnCalendar? && DbNext(zones, db, a) == Ok(after) && id in db.calendars
    ensures id in after.calendars && Step(zones, db.calendars[id], Seen(db, a, id), after.calendars[id])
  {
    hide Next, BeginExclusive, BeginMany, Release, ResolveMany;
    if a.id != id {
      RefusedStays(zones, db.calendars[id]);
    }
  }

  lemma RefusalSeen(zones: Zones, db: Db, a: DbAction, id: string)
    requires DbNext(zones, db, a).Err? && id in db.calendars
    ensures Step(zones, db.calendars[id], Seen(db, a, id), db.calendars[id])
  {
    hide Next, BeginExclusive, BeginMany, Release, ResolveMany;
    RefusedStays(zones, db.calendars[id]);
  }

  lemma StepSeen(zones: Zones, db: Db, a: DbAction, after: Db, id: string)
    requires FenceInv(db) && DbStep(zones, db, a, after) && id in db.calendars
    ensures id in after.calendars && Step(zones, db.calendars[id], Seen(db, a, id), after.calendars[id])
  {
    hide FenceInv, BeginExclusive, BeginMany, Release, ResolveMany, Next, Step, Seen;
    if DbNext(zones, db, a).Err? {
      RefusalSeen(zones, db, a, id);
    } else if a.OnCalendar? {
      OwnSeen(zones, db, a, after, id);
    } else if a.Reserve? || a.BeginShared? {
      BeginSeen(zones, db, a, after, id);
    } else {
      EndSeen(zones, db, a, after, id);
    }
  }

  lemma {:induction false} CalendarStays(zones: Zones, tr: seq<Db>, acts: seq<DbAction>, k: nat, id: string)
    requires DbRun(zones, tr, acts) && FenceInv(tr[0]) && k < |tr| && id in tr[0].calendars
    ensures id in tr[k].calendars
  {
    hide FenceInv, DbStep, Step, Seen;
    if k > 0 {
      CalendarStays(zones, tr, acts, k - 1, id);
      FenceHolds(zones, tr, acts, k - 1);
      StepSeen(zones, tr[k - 1], acts[k - 1], tr[k], id);
    }
  }

  /** The run of one calendar inside a run of the database. */
  ghost predicate Projects(zones: Zones, tr: seq<Db>, acts: seq<DbAction>, id: string, ctr: seq<Calendar>, cacts: seq<Action>)
  {
    && |tr| == |ctr| == |acts| + 1 && |cacts| == |acts| && Run(zones, ctr, cacts)
    && (forall k | 0 <= k < |tr| :: id in tr[k].calendars && ctr[k] == tr[k].calendars[id])
    && (forall k | 0 <= k < |acts| :: cacts[k] == Seen(tr[k], acts[k], id))
  }

  /** Every run of the database is, calendar by calendar, a run of that calendar's own transactions and fences. */
  lemma RunProjects(zones: Zones, tr: seq<Db>, acts: seq<DbAction>, id: string) returns (ctr: seq<Calendar>, cacts: seq<Action>)
    requires DbRun(zones, tr, acts) && FenceInv(tr[0]) && id in tr[0].calendars
    ensures Projects(zones, tr, acts, id, ctr, cacts)
  {
    hide FenceInv, DbStep, Step, Seen;
    forall k | 0 <= k < |tr| ensures id in tr[k].calendars {
      CalendarStays(zones, tr, acts, k, id);
    }
    ctr := seq(|tr|, k requires 0 <= k < |tr| => tr[k].calendars[id]);
    cacts := seq(|acts|, k requires 0 <= k < |acts| => Seen(tr[k], acts[k], id));
    forall k | 0 <= k < |acts| ensures Step(zones, ctr[k], cacts[k], ctr[k + 1]) {
      FenceHolds(zones, tr, acts, k);
      StepSeen(zones, tr[k], acts[k], tr[k + 1], id);
    }
  }

  /** The steps of the database that stored an attempt for this calendar and published the snapshot from it. */
  ghost predicate BuiltIn(zones: Zones, tr: seq<Db>, acts: seq<DbAction>, id: string, i: nat, f: nat, n: nat, g: nat, r: nat, s: Snapshot)
  {
    && i < |acts| && f < |acts| && acts[i].OnCalendar? && acts[i].id == id && acts[f].OnCalendar? && acts[f].id == id
    && exists ctr: seq<Calendar>, cacts: seq<Action> ::
         Projects(zones, tr, acts, id, ctr, cacts) && BuiltBy(ctr, cacts, i, f, n, g, r, s) && NoMutation(ctr, i, n, s.epoch)
  }

  /**
   * In every run of the whole database, a snapshot the read gate accepts for a calendar was published from an
   * attempt some step stored, and from that step to the read neither a single mutation nor a shared or exclusive
   * operation on that calendar was pending, begun or resolved.
   */
  lemma AcceptedAcrossDatabase(zones: Zones, tr: seq<Db>, acts: seq<DbAction>, id: string, n: nat, lo: int, hi: int, now: int, maxAge: int)
    requires DbRun(zones, tr, acts) && FenceInv(tr[0]) && n < |tr| && id in tr[0].calendars && Empty(tr[0].calendars[id])
    requires id in tr[n].calendars && Inspects(zones, tr[n].calendars[id], lo, hi, now, maxAge)
    ensures var a := tr[n].calendars[id].archive;
            exists i: nat, f: nat, g: nat :: BuiltIn(zones, tr, acts, id, i, f, n, g, a.revision, a.snapshots[a.revision])
  {
    hide FenceInv, DbStep, Step, Inspects, BuiltBy, NoMutation;
    var ctr, cacts := RunProjects(zones, tr, acts, id);
    InspectedGuard(zones, ctr[n], lo, hi, now, maxAge);
    AcceptedSnapshotSawNoMutation(zones, ctr, cacts, n, lo, hi, now, maxAge);
    var r := ctr[n].archive.revision;
    var s := ctr[n].archive.snapshots[r];
    var i: nat, f: nat, g: nat :| BuiltBy(ctr, cacts, i, f, n, g, r, s) && NoMutation(ctr, i, n, ctr[n].archive.epoch);
    BuiltActs(zones, tr, acts, id, ctr, cacts, i, f, n, g, r, s);
  }

  lemma BuiltActs(zones: Zones, tr: seq<Db>, acts: seq<DbAction>, id: string, ctr: seq<Calendar>, cacts: seq<Action>,
                  i: nat, f: nat, n: nat, g: nat, r: nat, s: Snapshot)
    requires Projects(zones, tr, acts, id, ctr, cacts) && BuiltBy(ctr, cacts, i, f, n, g, r, s) && NoMutation(ctr, i, n, s.epoch)
    ensures BuiltIn(zones, tr, acts, id, i, f, n, g, r, s)
  {
    hide Run, Step, NoMutation, BeginExclusive, BeginMany, Release, ResolveMany;
    assert cacts[i] == Seen(tr[i], acts[i], id) && cacts[f] == Seen(tr[f], acts[f], id);
  }
}
