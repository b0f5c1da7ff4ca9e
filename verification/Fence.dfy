/**
 * The exclusive dispatch fence (internal/storage/exclusive_dispatch_fence.go, experimental_exclusive_release.go,
 * projection_mutations_many.go, projection_mutations_reconcile.go): one ledger row per operation, with a
 * reservation, member rows and a pending intent in every calendar it may write to.
 */
module DispatchFence {
  import opened Base
  import opened Strings
  import opened SyncLease
  import opened Calendars

  const GLOBAL_KEY := "calendar-sync-engine-global-v1"
  const CALENDAR_LIMIT := 32

  /** A ledger row with the calendars recorded when the operation began. */
  datatype Operation = Operation(calendars: seq<string>, resolved: bool)

  datatype Reservation = Reservation(target: string, kind: string, released: bool)

  type Ledger = map<string, Operation>

  type Reservations = map<string, Reservation>

  /** Member rows grouped by operation. */
  type Members = map<string, set<string>>

  datatype Db = Db(
    calendars: map<string, Calendar>, ledger: Ledger, reservations: Reservations, members: Members, guards: Members)

  // --- arguments -----------------------------------------------------------------------

  predicate BadId(id: string)
  {
    id == "" || |id| > 1024 || '\0' in id
  }

  predicate ValidKey(key: string)
  {
    key != "" && |key| <= 512 && '\0' !in key
  }

  /** 64 lower-case hexadecimal digits. */
  predicate TargetDigest(hash: string)
  {
    |hash| == 64 && forall i | 0 <= i < |hash| :: '0' <= hash[i] <= '9' || 'a' <= hash[i] <= 'f'
  }

  /** The canonical calendar list of a request: its distinct IDs in ascending order. */
  function Normalize(ids: seq<string>): (r: Result<seq<string>>)
  {
    if ids == [] || |ids| > 128 || (exists i | 0 <= i < |ids| :: BadId(ids[i])) || |Elements(ids)| > CALENDAR_LIMIT then Err(Conflict)
    else Ok(Sorted(Elements(ids)))
  }

  /** normalizeMutationCalendars. */
  method NormalizeMutationCalendars(ids: seq<string>) returns (r: Result<seq<string>>)
    ensures r == Normalize(ids)
  {
    if ids == [] || |ids| > 128 {
      return Err(Conflict);
    }
    var seen: set<string> := {};
    for i := 0 to |ids|
      invariant seen == Elements(ids[..i])
      invariant forall k | 0 <= k < i :: !BadId(ids[k])
    {
      if BadId(ids[i]) {
        return Err(Conflict);
      }
      seen := seen + {ids[i]};
    }
    assert ids[..|ids|] == ids;
    if |seen| > CALENDAR_LIMIT {
      return Err(Conflict);
    }
    return Ok(Sorted(seen));
  }

  /** Two accepted requests have the same canonical list exactly when they name the same calendars. */
  lemma NormalizedEqual(a: seq<string>, b: seq<string>)
    requires Normalize(a).Ok? && Normalize(b).Ok?
    ensures Normalize(a) == Normalize(b) <==> Elements(a) == Elements(b)
  {
    assert Elements(Normalize(a).value) == Elements(a) && Elements(Normalize(b).value) == Elements(b);
  }

  datatype Request = Request(operation: string, target: string, hash: string, kind: string, calendars: seq<string>)
  {
    predicate Valid()
    {
      && Normalize(calendars).Ok? && ValidMutationId(operation) && ValidKey(target) && TargetDigest(hash)
      && (kind == "create" || kind == "update" || kind == "delete" || kind == "run")
    }
  }

  // --- what the transactions mean ----------------------------------------------------------

  /** The row the unique index on unreleased target keys would collide with. */
  predicate Reserved(r: Reservations, target: string)
  {
    exists o | o in r :: !r[o].released && r[o].target == target
  }

  function RowsOf(m: Members, operation: string): set<string>
  {
    if operation in m then m[operation] else {}
  }

  /** The first calendar in order that cannot be fenced decides the error. */
  function FenceFailure(calendars: map<string, Calendar>, operation: string, ids: seq<string>): Option<Error>
  {
    if ids == [] then None
    else
      var front, last := ids[..|ids| - 1], ids[|ids| - 1];
      var earlier := FenceFailure(calendars, operation, front);
      if earlier.Some? then earlier
      else if last !in calendars then Some(Conflict)
      else if Fence(calendars[last], operation).Err? then Some(Fence(calendars[last], operation).error)
      else None
  }

  function Fenced(calendars: map<string, Calendar>, operation: string, ids: set<string>): map<string, Calendar>
  {
    map id | id in calendars ::
      if id in ids && Fence(calendars[id], operation).Ok? then Fence(calendars[id], operation).value else calendars[id]
  }

  function Unfenced(calendars: map<string, Calendar>, operation: string, ids: set<string>, now: int): map<string, Calendar>
  {
    map id | id in calendars ::
      if id in ids && Unfence(calendars[id], operation, now).Ok? then Unfence(calendars[id], operation, now).value else calendars[id]
  }

  function BeginExclusive(db: Db, q: Request): Result<Db>
  {
    if !q.Valid() then Err(Conflict)
    else
      var ids := Normalize(q.calendars).value;
      if q.operation in db.ledger || q.operation in db.reservations || Reserved(db.reservations, q.target) then Err(Conflict)
      else if exists i | 0 <= i < |ids| :: ids[i] !in db.calendars then Err(Conflict)
      else
        var failure := FenceFailure(db.calendars, q.operation, ids);
        if failure.Some? then Err(failure.value)
        else Ok(Db(Fenced(db.calendars, q.operation, Elements(ids)),
                   db.ledger[q.operation := Operation(ids, false)],
                   db.reservations[q.operation := Reservation(q.target, q.kind, false)],
                   db.members[q.operation := Elements(ids)], db.guards[q.operation := Elements(ids)]))
  }

  predicate HasIntent(c: Calendar, operation: string)
  {
    OperationIntent(operation) in c.archive.intents
  }

  /** The calendars with a pending intent of the operation. */
  function Fencing(calendars: map<string, Calendar>, operation: string): set<string>
  {
    set id | id in calendars && HasIntent(calendars[id], operation)
  }

  /** ReleaseExclusiveAfterConfirmedRun, with every row count it checks. */
  function Release(db: Db, operation: string, calendars: seq<string>, now: int): Result<Db>
  {
    var n := Normalize(calendars);
    if n.Err? || !ValidMutationId(operation) then Err(Conflict)
    else if operation !in db.ledger || operation !in db.reservations then Err(Conflict)
    else if db.ledger[operation].calendars != n.value || db.ledger[operation].resolved || db.reservations[operation].released then Err(Conflict)
    else if exists i | 0 <= i < |n.value| :: n.value[i] !in db.calendars then Err(Conflict)
    else if |RowsOf(db.guards, operation)| != |n.value| || |RowsOf(db.members, operation)| != |n.value| then Err(Conflict)
    else if exists i | 0 <= i < |n.value| :: !HasIntent(db.calendars[n.value[i]], operation) then Err(Conflict)
    else Ok(Db(Unfenced(db.calendars, operation, Elements(n.value), now),
               db.ledger[operation := db.ledger[operation].(resolved := true)],
               db.reservations[operation := db.reservations[operation].(released := true)],
               db.members - {operation}, db.guards - {operation}))
  }

  /** BeginProjectionMutationMany: the same fence without a reservation. */
  function BeginMany(db: Db, operation: string, calendars: seq<string>): Result<Db>
  {
    var n := Normalize(calendars);
    if n.Err? || !ValidMutationId(operation) then Err(Conflict)
    else if operation in db.ledger then Err(Rejected)
    else if exists i | 0 <= i < |n.value| :: n.value[i] !in db.calendars then Err(Conflict)
    else if Fencing(db.calendars, operation) != {} then Err(Conflict)
    else
      var failure := FenceFailure(db.calendars, operation, n.value);
      if failure.Some? then Err(failure.value)
      else Ok(db.(calendars := Fenced(db.calendars, operation, Elements(n.value)),
                  ledger := db.ledger[operation := Operation(n.value, false)],
                  members := db.members[operation := Elements(n.value)]))
  }

  /** ResolveProjectionMutationManyAndSchedule; guard members keep its member rows from being deleted. */
  function ResolveMany(db: Db, operation: string, calendars: seq<string>, now: int): Result<Db>
  {
    var n := Normalize(calendars);
    if n.Err? || !ValidMutationId(operation) then Err(Conflict)
    else if operation !in db.ledger || db.ledger[operation].calendars != n.value || db.ledger[operation].resolved then Err(Conflict)
    else if exists i | 0 <= i < |n.value| :: n.value[i] !in db.calendars then Err(Conflict)
    else if exists i | 0 <= i < |n.value| ::
              !db.calendars[n.value[i]].source.Usable() || db.calendars[n.value[i]].sync.None? then Err(Ineligible)
    else if |Fencing(db.calendars, operation)| != |n.value| then Err(Conflict)
    else if RowsOf(db.guards, operation) != {} then Err(Rejected)
    else if |RowsOf(db.members, operation)| != |n.value| then Err(Conflict)
    else if exists i | 0 <= i < |n.value| :: !HasIntent(db.calendars[n.value[i]], operation) then Err(Conflict)
    else Ok(db.(calendars := Unfenced(db.calendars, operation, Elements(n.value), now),
                ledger := db.ledger[operation := db.ledger[operation].(resolved := true)],
                members := db.members - {operation}))
  }

  /** What a calendar's own transactions may not do while the global key is reserved. */
  predicate Admitted(db: Db, a: Action)
  {
    && !a.FenceMutation? && !a.UnfenceMutation?
    && (a.FinishPages? ==> !Reserved(db.reservations, GLOBAL_KEY))
    && (a.ClaimSync? ==> a.fenced == !Reserved(db.reservations, GLOBAL_KEY))
    && (a.EnsureState? ==> a.fenced == !Reserved(db.reservations, GLOBAL_KEY))
  }

  datatype DbAction =
    | Reserve(request: Request)
    | ReleaseRun(operation: string, calendars: seq<string>, now: int)
    | BeginShared(operation: string, calendars: seq<string>)
    | ResolveShared(operation: string, calendars: seq<string>, now: int)
    | OnCalendar(id: string, action: Action)

  ghost function DbNext(zones: Zones, db: Db, a: DbAction): Result<Db>
  {
    match a
    case Reserve(q) => BeginExclusive(db, q)
    case ReleaseRun(op, calendars, now) => Release(db, op, calendars, now)
    case BeginShared(op, calendars) => BeginMany(db, op, calendars)
    case ResolveShared(op, calendars, now) => ResolveMany(db, op, calendars, now)
    case OnCalendar(id, action) =>
      if id !in db.calendars || !Admitted(db, action) then Err(Rejected)
      else
        var r := Next(zones, db.calendars[id], action);
        if r.Err? then Err(r.error) else Ok(db.(calendars := db.calendars[id := r.value]))
  }
}
