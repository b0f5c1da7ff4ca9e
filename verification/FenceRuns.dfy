/** What every run of the dispatch fence keeps, and what a release can and cannot do. */
module FenceRuns {
  import opened Base
  import opened Strings
  import opened SyncLease
  import opened PageChain
  import opened Calendars
  import opened CalendarRuns
  import opened PublicationRuns
  import opened DispatchFence

  /** The calendars an unresolved operation still holds. */
  function Held(o: Operation): set<string>
  {
    if o.resolved then {} else Elements(o.calendars)
  }

  predicate Listed(db: Db, o: string)
    requires o in db.ledger
  {
    && Ascending(db.ledger[o].calendars) && Elements(db.ledger[o].calendars) <= db.calendars.Keys
    && RowsOf(db.members, o) == Held(db.ledger[o])
    && RowsOf(db.guards, o) == (if o in db.reservations then Held(db.ledger[o]) else {})
    && (o in db.reservations ==> db.reservations[o].released == db.ledger[o].resolved)
  }

  /** An intent of a shared operation is pending exactly where its ledger row still holds the calendar. */
  ghost predicate IntentsMatch(db: Db)
  {
    forall id, o | id in db.calendars :: HasIntent(db.calendars[id], o) <==> o in db.ledger && id in Held(db.ledger[o])
  }

  predicate OneReservation(db: Db)
  {
    forall o, p | o in db.reservations && p in db.reservations && !db.reservations[o].released && !db.reservations[p].released
                  && db.reservations[o].target == db.reservations[p].target :: o == p
  }

  predicate Identified(db: Db)
  {
    forall id | id in db.calendars :: db.calendars[id].id == id
  }

  predicate Nested(db: Db)
  {
    db.reservations.Keys <= db.ledger.Keys && db.members.Keys <= db.ledger.Keys && db.guards.Keys <= db.reservations.Keys
  }

  predicate AllListed(db: Db)
  {
    forall o | o in db.ledger :: Listed(db, o)
  }

  /** Ledger, members, guard members and intents of every operation name the same calendars. */
  ghost predicate FenceInv(db: Db)
  {
    Identified(db) && Nested(db) && AllListed(db) && IntentsMatch(db) && OneReservation(db)
  }

  // --- intents -----------------------------------------------------------------------------

  lemma IntentNames(o: string, p: string)
    ensures OperationIntent(o) == OperationIntent(p) <==> o == p
    ensures !ValidMutationId(OperationIntent(o))
  {
    assert OperationIntent(o)[1..] == o && OperationIntent(p)[1..] == p;
    assert OperationIntent(o)[0] == ':';
  }

  lemma FenceIntents(c: Calendar, operation: string)
    requires Fence(c, operation).Ok?
    ensures var e := Fence(c, operation).value;
            && e.id == c.id && e.archive.epoch == c.archive.epoch + 1
            && !HasIntent(c, operation) && forall o :: HasIntent(e, o) <==> o == operation || HasIntent(c, o)
  {
    var e := Fence(c, operation).value;
    forall o ensures HasIntent(e, o) <==> o == operation || HasIntent(c, o) {
      IntentNames(o, operation);
    }
  }

  lemma UnfenceIntents(c: Calendar, operation: string, now: int)
    ensures Unfence(c, operation, now).Ok? <==> HasIntent(c, operation)
    ensures HasIntent(c, operation) ==>
              var e := Unfence(c, operation, now).value;
              && e.id == c.id && e.archive.epoch == c.archive.epoch + 1
              && forall o :: HasIntent(e, o) <==> o != operation && HasIntent(c, o)
  {
    if HasIntent(c, operation) {
      var e := Unfence(c, operation, now).value;
      forall o ensures HasIntent(e, o) <==> o != operation && HasIntent(c, o) {
        IntentNames(o, operation);
      }
    }
  }

  lemma {:induction false} AllFence(calendars: map<string, Calendar>, operation: string, ids: seq<string>)
    requires FenceFailure(calendars, operation, ids).None?
    ensures forall id | id in ids :: id in calendars && Fence(calendars[id], operation).Ok?
  {
    hide Fence;
    if ids != [] {
      AllFence(calendars, operation, ids[..|ids| - 1]);
    }
  }

  /** A calendar's own transactions never touch the intents of shared operations. */
  lemma OwnIntents(zones: Zones, c: Calendar, a: Action, e: Calendar, o: string)
    requires Step(zones, c, a, e) && !a.FenceMutation? && !a.UnfenceMutation?
    ensures e.id == c.id && (HasIntent(e, o) <==> HasIntent(c, o))
  {
    SameId(zones, c, a, e);
    if a.BeginMutation? || a.ResolveMutation? {
      MutationIntents(zones, c, a, e, o);
    } else if !TouchesArchive(a) {
      hide Step;
      ArchiveUntouched(zones, c, a, e);
    } else if ChangesCandidates(a) {
      hide Step;
      CandidateEffects(zones, c, a, e);
    } else if ChangesAttempts(a) {
      hide Step, WellFormed, RecordOf, PageChain.Stage, Fresh;
      AttemptEffects(zones, c, a, e);
    } else {
      hide Step, WellFormed, RecordOf, PageChain.Stage, Carried, Extended, NewSnapshot;
      FinishEffects(zones, c, a, e);
    }
  }

  lemma MutationIntents(zones: Zones, c: Calendar, a: Action, e: Calendar, o: string)
    requires Step(zones, c, a, e) && (a.BeginMutation? || a.ResolveMutation?)
    ensures HasIntent(e, o) <==> HasIntent(c, o)
  {
    hide SyncStep, ApplyPage, Repair, Grant, Consume, WriteThrough, WriteDelete, StartAttempt, Append, ApplyStaged, FinalPage,
         StageSnapshot, Publish, Discard, Refer, Ensure, OperationIntent, ValidMutationId;
    IntentNames(o, o);
  }

  // --- each transaction keeps the invariant ----------------------------------------------------

  lemma FencedFacts(db: Db, operation: string, ids: seq<string>)
    requires FenceFailure(db.calendars, operation, ids).None?
    requires FenceInv(db) && operation !in db.ledger
    ensures var after := Fenced(db.calendars, operation, Elements(ids));
            && after.Keys == db.calendars.Keys && Elements(ids) <= after.Keys
            && (forall id | id in after :: after[id].id == id)
            && (forall id, o | id in after :: HasIntent(after[id], o) <==> (o == operation && id in ids) || HasIntent(db.calendars[id], o))
  {
    hide Fence, HasIntent, FenceFailure;
    AllFence(db.calendars, operation, ids);
    var after := Fenced(db.calendars, operation, Elements(ids));
    forall id | id in after
      ensures after[id].id == id
      ensures forall o :: HasIntent(after[id], o) <==> (o == operation && id in ids) || HasIntent(db.calendars[id], o)
    {
      if id in ids {
        FenceIntents(db.calendars[id], operation);
      }
    }
  }

  lemma UnfencedFacts(db: Db, operation: string, ids: seq<string>, now: int)
    requires FenceInv(db) && operation in db.ledger && !db.ledger[operation].resolved && db.ledger[operation].calendars == ids
    ensures var after := Unfenced(db.calendars, operation, Elements(ids), now);
            && after.Keys == db.calendars.Keys
            && (forall id | id in after :: after[id].id == id)
            && (forall id, o | id in after :: HasIntent(after[id], o) <==> o != operation && HasIntent(db.calendars[id], o))
  {
    hide Unfence, HasIntent;
    var after := Unfenced(db.calendars, operation, Elements(ids), now);
    forall id | id in after
      ensures after[id].id == id
      ensures forall o :: HasIntent(after[id], o) <==> o != operation && HasIntent(db.calendars[id], o)
    {
      UnfenceIntents(db.calendars[id], operation, now);
      assert HasIntent(db.calendars[id], operation) <==> id in Held(db.ledger[operation]);
    }
  }

  lemma NormalizedAscends(ids: seq<string>)
    requires Normalize(ids).Ok?
    ensures Ascending(Normalize(ids).value) && Elements(Normalize(ids).value) == Elements(ids)
    ensures |Elements(ids)| == |Normalize(ids).value| && Normalize(ids).value != []
  {
    assert ids[0] in Elements(ids);
  }

  // Pieces of the invariant after an operation begins or ends.

  ghost predicate IntentsBegun(db: Db, after: Db, operation: string, ids: seq<string>)
  {
    && after.calendars.Keys == db.calendars.Keys && Elements(ids) <= after.calendars.Keys
    && Identified(after)
    && (forall id, o | id in after.calendars ::
          HasIntent(after.calendars[id], o) <==> (o == operation && id in ids) || HasIntent(db.calendars[id], o))
  }

  lemma BegunIntents(db: Db, after: Db, operation: string, ids: seq<string>)
    requires IntentsMatch(db) && operation !in db.ledger && IntentsBegun(db, after, operation, ids)
    requires after.ledger == db.ledger[operation := Operation(ids, false)]
    ensures IntentsMatch(after)
  {
    hide HasIntent;
  }

  lemma BegunRow(db: Db, after: Db, operation: string, ids: seq<string>, o: string)
    requires Nested(db) && operation !in db.ledger && Ascending(ids) && Elements(ids) <= after.calendars.Keys
    requires o in after.ledger && (o != operation ==> o in db.ledger && Listed(db, o))
    requires after.calendars.Keys == db.calendars.Keys && after.ledger == db.ledger[operation := Operation(ids, false)]
    requires after.members == db.members[operation := Elements(ids)]
    requires (after.reservations == db.reservations && after.guards == db.guards)
             || (operation in after.reservations && !after.reservations[operation].released
                 && after.reservations == db.reservations[operation := after.reservations[operation]]
                 && after.guards == db.guards[operation := Elements(ids)])
    ensures Listed(after, o)
  {
    hide Ascending;
  }

  lemma BegunRows(db: Db, after: Db, operation: string, ids: seq<string>)
    requires Nested(db) && AllListed(db) && operation !in db.ledger && Ascending(ids) && Elements(ids) <= after.calendars.Keys
    requires after.calendars.Keys == db.calendars.Keys && after.ledger == db.ledger[operation := Operation(ids, false)]
    requires after.members == db.members[operation := Elements(ids)]
    requires (after.reservations == db.reservations && after.guards == db.guards)
             || (operation in after.reservations && !after.reservations[operation].released
                 && after.reservations == db.reservations[operation := after.reservations[operation]]
                 && after.guards == db.guards[operation := Elements(ids)])
    ensures AllListed(after) && Nested(after)
  {
    hide Ascending, Listed;
    forall o | o in after.ledger ensures Listed(after, o) {
      BegunRow(db, after, operation, ids, o);
    }
  }

  lemma BegunReservation(r: Reservations, operation: string, row: Reservation, db: Db, after: Db)
    requires db.reservations == r && after.reservations == r[operation := row]
    requires OneReservation(db) && operation !in r && !Reserved(r, row.target)
    ensures OneReservation(after)
  {
  }

  lemma EndedRow(db: Db, after: Db, operation: string, o: string)
    requires operation in db.ledger && o in db.ledger && o in after.ledger && Listed(db, o) && after.calendars.Keys == db.calendars.Keys
    requires after.ledger == db.ledger[operation := db.ledger[operation].(resolved := true)]
    requires after.members == db.members - {operation} && after.guards == db.guards - {operation}
    requires (operation !in db.reservations && after.reservations == db.reservations)
             || (operation in db.reservations
                 && after.reservations == db.reservations[operation := db.reservations[operation].(released := true)])
    ensures Listed(after, o)
  {
    hide Ascending;
  }

  lemma EndedRows(db: Db, after: Db, operation: string)
    requires Nested(db) && AllListed(db) && operation in db.ledger && after.calendars.Keys == db.calendars.Keys
    requires after.ledger == db.ledger[operation := db.ledger[operation].(resolved := true)]
    requires after.members == db.members - {operation} && after.guards == db.guards - {operation}
    requires (operation !in db.reservations && after.reservations == db.reservations)
             || (operation in db.reservations
                 && after.reservations == db.reservations[operation := db.reservations[operation].(released := true)])
    ensures AllListed(after) && Nested(after)
  {
    hide Listed;
    forall o | o in after.ledger ensures Listed(after, o) {
      EndedRow(db, after, operation, o);
    }
  }

  ghost predicate IntentsEnded(db: Db, after: Db, operation: string)
  {
    && after.calendars.Keys == db.calendars.Keys
    && Identified(after)
    && (forall id, o | id in after.calendars ::
          HasIntent(after.calendars[id], o) <==> o != operation && HasIntent(db.calendars[id], o))
  }

  lemma EndedIntents(db: Db, after: Db, operation: string)
    requires IntentsMatch(db) && operation in db.ledger && IntentsEnded(db, after, operation)
    requires after.ledger == db.ledger[operation := db.ledger[operation].(resolved := true)]
    ensures IntentsMatch(after)
  {
    hide HasIntent;
  }

  lemma ReserveFacts(db: Db, q: Request)
    requires BeginExclusive(db, q).Ok?
    ensures Normalize(q.calendars).Ok?
    ensures var ids, after := Normalize(q.calendars).value, BeginExclusive(db, q).value;
            && q.operation !in db.ledger && q.operation !in db.reservations && !Reserved(db.reservations, q.target)
            && FenceFailure(db.calendars, q.operation, ids).None?
            && after == Db(Fenced(db.calendars, q.operation, Elements(ids)),
                           db.ledger[q.operation := Operation(ids, false)],
                           db.reservations[q.operation := Reservation(q.target, q.kind, false)],
                           db.members[q.operation := Elements(ids)], db.guards[q.operation := Elements(ids)])
  {
    hide FenceFailure, Fenced, HasIntent, BadId, TargetDigest, ValidMutationId, ValidKey, Normalize;
  }

  lemma ReserveKeeps(db: Db, q: Request)
    requires FenceInv(db) && BeginExclusive(db, q).Ok?
    ensures FenceInv(BeginExclusive(db, q).value)
  {
    ReserveFacts(db, q);
    NormalizedAscends(q.calendars);
    hide FenceFailure, Fenced, Normalize, BeginExclusive, IntentsMatch, OneReservation, Ascending, AllListed, Reserved, Identified;
    var ids, after := Normalize(q.calendars).value, BeginExclusive(db, q).value;
    FencedFacts(db, q.operation, ids);
    BegunIntents(db, after, q.operation, ids);
    BegunRows(db, after, q.operation, ids);
    BegunReservation(db.reservations, q.operation, Reservation(q.target, q.kind, false), db, after);
  }

  lemma SharedFacts(db: Db, operation: string, calendars: seq<string>)
    requires BeginMany(db, operation, calendars).Ok?
    ensures Normalize(calendars).Ok?
    ensures var ids, after := Normalize(calendars).value, BeginMany(db, operation, calendars).value;
            && operation !in db.ledger && FenceFailure(db.calendars, operation, ids).None?
            && after == db.(calendars := Fenced(db.calendars, operation, Elements(ids)),
                            ledger := db.ledger[operation := Operation(ids, false)],
                            members := db.members[operation := Elements(ids)])
  {
    hide FenceFailure, Fenced, HasIntent, BadId, ValidMutationId, Normalize;
  }

  lemma SharedKeeps(db: Db, operation: string, calendars: seq<string>)
    requires FenceInv(db) && BeginMany(db, operation, calendars).Ok?
    ensures FenceInv(BeginMany(db, operation, calendars).value)
  {
    SharedFacts(db, operation, calendars);
    NormalizedAscends(calendars);
    hide FenceFailure, Fenced, Normalize, BeginMany, IntentsMatch, OneReservation, Ascending, AllListed, Identified;
    var ids, after := Normalize(calendars).value, BeginMany(db, operation, calendars).value;
    FencedFacts(db, operation, ids);
    BegunIntents(db, after, operation, ids);
    BegunRows(db, after, operation, ids);
    SameReservations(db, after);
  }

  lemma SameReservations(db: Db, after: Db)
    requires OneReservation(db)
    requires forall o | o in after.reservations && !after.reservations[o].released ::
               o in db.reservations && after.reservations[o] == db.reservations[o]
    ensures OneReservation(after)
  {
  }

  lemma ReleaseFacts(db: Db, operation: string, calendars: seq<string>, now: int)
    requires Release(db, operation, calendars, now).Ok?
    ensures operation in db.ledger && operation in db.reservations && Normalize(calendars).Ok?
    ensures var ids, after := Normalize(calendars).value, Release(db, operation, calendars, now).value;
            && db.ledger[operation].calendars == ids && !db.ledger[operation].resolved && !db.reservations[operation].released
            && after == Db(Unfenced(db.calendars, operation, Elements(ids), now),
                           db.ledger[operation := db.ledger[operation].(resolved := true)],
                           db.reservations[operation := db.reservations[operation].(released := true)],
                           db.members - {operation}, db.guards - {operation})
  {
    hide Unfenced, HasIntent, ValidMutationId, Normalize;
  }

  lemma ReleaseKeeps(db: Db, operation: string, calendars: seq<string>, now: int)
    requires FenceInv(db) && Release(db, operation, calendars, now).Ok?
    ensures FenceInv(Release(db, operation, calendars, now).value)
  {
    ReleaseFacts(db, operation, calendars, now);
    hide Unfenced, Normalize, Release, IntentsMatch, OneReservation, AllListed, Identified;
    var after := Release(db, operation, calendars, now).value;
    UnfencedFacts(db, operation, Normalize(calendars).value, now);
    EndedIntents(db, after, operation);
    EndedRows(db, after, operation);
    SameReservations(db, after);
  }

  lemma ResolveFacts(db: Db, operation: string, calendars: seq<string>, now: int)
    requires ResolveMany(db, operation, calendars, now).Ok?
    ensures operation in db.ledger && Normalize(calendars).Ok? && calendars != []
    ensures var ids, after := Normalize(calendars).value, ResolveMany(db, operation, calendars, now).value;
            && db.ledger[operation].calendars == ids && !db.ledger[operation].resolved && RowsOf(db.guards, operation) == {}
            && after == db.(calendars := Unfenced(db.calendars, operation, Elements(ids), now),
                            ledger := db.ledger[operation := db.ledger[operation].(resolved := true)],
                            members := db.members - {operation})
  {
    hide Unfenced, HasIntent, ValidMutationId, BadId;
  }

  /** Unguarded member rows mean that the operation never reserved anything. */
  lemma Unguarded(db: Db, operation: string, ids: seq<string>)
    requires Nested(db) && AllListed(db) && operation in db.ledger && !db.ledger[operation].resolved && RowsOf(db.guards, operation) == {}
    requires db.ledger[operation].calendars == ids && Elements(ids) != {}
    ensures operation !in db.reservations && db.guards == db.guards - {operation}
  {
    hide Ascending;
    assert Listed(db, operation);
  }

  lemma ResolveKeeps(db: Db, operation: string, calendars: seq<string>, now: int)
    requires FenceInv(db) && ResolveMany(db, operation, calendars, now).Ok?
    ensures operation !in db.reservations
    ensures FenceInv(ResolveMany(db, operation, calendars, now).value)
  {
    ResolveFacts(db, operation, calendars, now);
    NormalizedAscends(calendars);
    hide Unfenced, Normalize, ResolveMany, IntentsMatch, OneReservation, Identified, AllListed, Listed, Ascending, RowsOf, Nested;
    assert calendars[0] in Elements(calendars);
    Unguarded(db, operation, Normalize(calendars).value);
    ResolveRest(db, ResolveMany(db, operation, calendars, now).value, operation, Normalize(calendars).value, now);
  }

  lemma ResolveRest(db: Db, after: Db, operation: string, ids: seq<string>, now: int)
    requires FenceInv(db) && operation in db.ledger && db.ledger[operation] == Operation(ids, false)
    requires operation !in db.reservations && db.guards == db.guards - {operation}
    requires after == db.(calendars := Unfenced(db.calendars, operation, Elements(ids), now),
                          ledger := db.ledger[operation := db.ledger[operation].(resolved := true)],
                          members := db.members - {operation})
    ensures FenceInv(after)
  {
    hide Unfenced, IntentsMatch, OneReservation, AllListed, Nested, HasIntent;
    UnfencedFacts(db, operation, ids, now);
    EndedIntents(db, after, operation);
    EndedRows(db, after, operation);
    SameReservations(db, after);
  }

  ghost predicate DbStep(zones: Zones, db: Db, a: DbAction, after: Db)
  {
    after == if DbNext(zones, db, a).Ok? then DbNext(zones, db, a).value else db
  }

  lemma CalendarKeeps(zones: Zones, db: Db, a: DbAction, after: Db)
    requires FenceInv(db) && a.OnCalendar? && DbStep(zones, db, a, after)
    ensures FenceInv(after)
  {
    hide HasIntent, Next, FenceInv;
    if after != db {
      var c, e := db.calendars[a.id], after.calendars[a.id];
      assert Step(zones, c, a.action, e);
      hide Step;
      OwnIntents(zones, c, a.action, e, "");
      forall o ensures HasIntent(e, o) <==> HasIntent(c, o) {
        OwnIntents(zones, c, a.action, e, o);
      }
      OtherRows(db, after, a.id);
    }
  }

  lemma OtherRows(db: Db, after: Db, id: string)
    requires FenceInv(db) && id in db.calendars && id in after.calendars && after == db.(calendars := db.calendars[id := after.calendars[id]])
    requires after.calendars[id].id == db.calendars[id].id
    requires forall o :: HasIntent(after.calendars[id], o) <==> HasIntent(db.calendars[id], o)
    ensures FenceInv(after)
  {
    hide HasIntent;
    assert after.calendars.Keys == db.calendars.Keys;
    assert AllListed(after) by {
      hide IntentsMatch, OneReservation;
      forall o | o in after.ledger ensures Listed(after, o) {
        assert Listed(db, o);
      }
    }
  }

  lemma FenceStep(zones: Zones, db: Db, a: DbAction, after: Db)
    requires FenceInv(db) && DbStep(zones, db, a, after)
    ensures FenceInv(after)
  {
    hide FenceInv, BeginExclusive, Release, BeginMany, ResolveMany, Next;
    match a {
      case Reserve(q) => if after != db { ReserveKeeps(db, q); }
      case ReleaseRun(op, calendars, now) => if after != db { ReleaseKeeps(db, op, calendars, now); }
      case BeginShared(op, calendars) => if after != db { SharedKeeps(db, op, calendars); }
      case ResolveShared(op, calendars, now) => if after != db { ResolveKeeps(db, op, calendars, now); }
      case OnCalendar(_, _) => CalendarKeeps(zones, db, a, after);
    }
  }

  // --- over runs --------------------------------------------------------------------------------

  ghost predicate DbRun(zones: Zones, tr: seq<Db>, acts: seq<DbAction>)
  {
    && |tr| == |acts| + 1
    && forall k | 0 <= k < |acts| :: DbStep(zones, tr[k], acts[k], tr[k + 1])
  }

  /**
   * In every run at most one reservation per target key is unreleased, and its ledger row, members, guard
   * members and pending intents name the same calendars.
   */
  lemma {:induction false} FenceHolds(zones: Zones, tr: seq<Db>, acts: seq<DbAction>, k: nat)
    requires DbRun(zones, tr, acts) && FenceInv(tr[0]) && k < |tr|
    ensures FenceInv(tr[k])
  {
    hide FenceInv, DbStep;
    if k > 0 {
      FenceHolds(zones, tr, acts, k - 1);
      FenceStep(zones, tr[k - 1], acts[k - 1], tr[k]);
    }
  }

  /** The database before anything was ever fenced. */
  lemma FreshFence(db: Db)
    requires db.ledger == map[] && db.reservations == map[] && db.members == map[] && db.guards == map[]
    requires forall id | id in db.calendars :: db.calendars[id].id == id
    requires forall id, o | id in db.calendars :: !HasIntent(db.calendars[id], o)
    ensures FenceInv(db)
  {
  }

  // --- release ------------------------------------------------------------------------------------

  /** Under the invariant no row count of a release can ever be wrong: only the caller's arguments decide. */
  lemma ReleaseSucceeds(db: Db, operation: string, calendars: seq<string>, now: int)
    requires FenceInv(db)
    ensures Release(db, operation, calendars, now).Ok?
       <==> && ValidMutationId(operation) && operation in db.reservations && !db.reservations[operation].released
            && Normalize(calendars) == Ok(db.ledger[operation].calendars)
  {
    hide Unfenced, HasIntent, BadId, ValidMutationId, Normalize;
    if operation in db.reservations && !db.reservations[operation].released
       && Normalize(calendars) == Ok(db.ledger[operation].calendars) {
      var ids := db.ledger[operation].calendars;
      NormalizedAscends(calendars);
      assert Listed(db, operation);
      forall i | 0 <= i < |ids| ensures ids[i] in db.calendars && HasIntent(db.calendars[ids[i]], operation) {
        assert ids[i] in Elements(ids);
        assert HasIntent(db.calendars[ids[i]], operation) <==> ids[i] in Held(db.ledger[operation]);
      }
    }
  }

  /** A calendar after its shared operation ended. */
  predicate Freed(c: Calendar, e: Calendar, operation: string, now: int)
  {
    && e.archive == c.archive.(epoch := c.archive.epoch + 1, intents := c.archive.intents - {OperationIntent(operation)})
    && e.cache == c.cache && e.source == c.source
    && e.sync == if c.sync.None? then None else Some(Invalidate(c.sync.value, now))
  }

  /** A release removes exactly the rows its reservation put there and starts those calendars' syncs over. */
  lemma ReleaseExact(db: Db, operation: string, calendars: seq<string>, now: int)
    requires FenceInv(db) && Release(db, operation, calendars, now).Ok?
    ensures operation in db.ledger && operation in db.reservations
    ensures var after, ids := Release(db, operation, calendars, now).value, db.ledger[operation].calendars;
            && after.members == db.members - {operation} && after.guards == db.guards - {operation}
            && after.reservations == db.reservations[operation := db.reservations[operation].(released := true)]
            && after.ledger == db.ledger[operation := Operation(ids, true)]
            && after.calendars.Keys == db.calendars.Keys
            && (forall id | id in db.calendars && id !in ids :: after.calendars[id] == db.calendars[id])
            && (forall id | id in ids ::
                  id in db.calendars && HasIntent(db.calendars[id], operation)
                  && Freed(db.calendars[id], after.calendars[id], operation, now))
  {
    ReleaseFacts(db, operation, calendars, now);
    hide Normalize, Release, HasIntent, Freed, OneReservation, Unfence;
    var ids := db.ledger[operation].calendars;
    var after := Release(db, operation, calendars, now).value;
    assert Listed(db, operation);
    forall id | id in ids
      ensures id in db.calendars && HasIntent(db.calendars[id], operation)
      ensures Freed(db.calendars[id], after.calendars[id], operation, now)
    {
      assert id in Elements(ids);
      assert HasIntent(db.calendars[id], operation) <==> id in Held(db.ledger[operation]);
      UnfenceFrees(db.calendars[id], operation, now);
    }
  }

  lemma UnfenceFrees(c: Calendar, operation: string, now: int)
    requires HasIntent(c, operation)
    ensures Unfence(c, operation, now).Ok? && Freed(c, Unfence(c, operation, now).value, operation, now)
  {
    hide Invalidate, OperationIntent;
  }

  /** A shared operation that holds a reservation cannot be resolved around it. */
  lemma ResolveRefused(db: Db, operation: string, calendars: seq<string>, now: int)
    requires FenceInv(db) && operation in db.reservations
    ensures ResolveMany(db, operation, calendars, now).Err?
  {
    if ResolveMany(db, operation, calendars, now).Ok? {
      ResolveKeeps(db, operation, calendars, now);
    }
  }

  // --- an unreleased reservation ---------------------------------------------------------------------

  predicate Unreleased(db: Db, operation: string)
  {
    operation in db.reservations && !db.reservations[operation].released
  }

  /** The reservation and its ledger row are the same in both states. */
  predicate SameReservation(db: Db, after: Db, operation: string)
  {
    && Unreleased(db, operation) && Unreleased(after, operation) && after.reservations[operation] == db.reservations[operation]
    && operation in db.ledger && operation in after.ledger && after.ledger[operation] == db.ledger[operation]
  }

  lemma BeginStays(db: Db, a: DbAction, after: Db, operation: string)
    requires Nested(db) && Unreleased(db, operation)
    requires (a.Reserve? && BeginExclusive(db, a.request) == Ok(after))
             || (a.BeginShared? && BeginMany(db, a.operation, a.calendars) == Ok(after))
    ensures SameReservation(db, after, operation)
  {
    hide BeginExclusive, BeginMany, FenceFailure, Fenced, Normalize, Reserved;
    if a.Reserve? {
      ReserveFacts(db, a.request);
    } else {
      SharedFacts(db, a.operation, a.calendars);
    }
  }

  lemma EndStays(db: Db, a: DbAction, after: Db, operation: string)
    requires FenceInv(db) && Unreleased(db, operation)
    requires (a.ReleaseRun? && a.operation != operation && Release(db, a.operation, a.calendars, a.now) == Ok(after))
             || (a.ResolveShared? && ResolveMany(db, a.operation, a.calendars, a.now) == Ok(after))
    ensures SameReservation(db, after, operation)
  {
    hide Release, ResolveMany, Unfenced, Normalize, AllListed, Identified, IntentsMatch, OneReservation;
    if a.ReleaseRun? {
      ReleaseFacts(db, a.operation, a.calendars, a.now);
    } else {
      ResolveKeeps(db, a.operation, a.calendars, a.now);
      ResolveFacts(db, a.operation, a.calendars, a.now);
    }
  }

  /** Only its own release ends a reservation. */
  lemma ReservationStays(zones: Zones, db: Db, a: DbAction, after: Db, operation: string)
    requires FenceInv(db) && DbStep(zones, db, a, after) && Unreleased(db, operation)
    requires !(a.ReleaseRun? && a.operation == operation)
    ensures SameReservation(db, after, operation)
  {
    hide BeginExclusive, BeginMany, Release, ResolveMany, Next, AllListed, Identified, IntentsMatch, OneReservation;
    if a.OnCalendar? || after == db {
      assert operation in db.ledger;
    } else if a.Reserve? || a.BeginShared? {
      BeginStays(db, a, after, operation);
    } else {
      EndStays(db, a, after, operation);
    }
  }

  lemma {:induction false} ReservationHolds(zones: Zones, tr: seq<Db>, acts: seq<DbAction>, i: nat, j: nat, operation: string)
    requires DbRun(zones, tr, acts) && FenceInv(tr[0]) && i <= j < |tr| && Unreleased(tr[i], operation)
    requires forall k | i <= k < j :: !(acts[k].ReleaseRun? && acts[k].operation == operation)
    ensures SameReservation(tr[i], tr[j], operation)
    decreases j
  {
    hide DbStep;
    FenceHolds(zones, tr, acts, i);
    if i < j {
      ReservationHolds(zones, tr, acts, i, j - 1, operation);
      FenceHolds(zones, tr, acts, j - 1);
      hide FenceInv;
      ReservationStays(zones, tr[j - 1], acts[j - 1], tr[j], operation);
    }
  }

  /**
   * No reservation for the key can begin, no source can publish when it is the global key, and the read gate
   * refuses every snapshot of the operation's calendars.
   */
  ghost predicate Blocked(zones: Zones, db: Db, operation: string, key: string)
  {
    && (forall q: Request | q.target == key :: BeginExclusive(db, q).Err?)
    && (key == GLOBAL_KEY ==> forall a: Action | a.FinishPages? :: !Admitted(db, a))
    && operation in db.ledger
    && (forall id, lo, hi, now, age | id in db.ledger[operation].calendars ::
          id in db.calendars && !Inspects(zones, db.calendars[id], lo, hi, now, age))
  }

  /** While a reservation is unreleased it blocks its key and its calendars. */
  lemma UnreleasedBlocks(zones: Zones, db: Db, operation: string)
    requires FenceInv(db) && Unreleased(db, operation)
    ensures Blocked(zones, db, operation, db.reservations[operation].target)
  {
    hide FenceFailure, Fenced, Normalize;
    assert Reserved(db.reservations, db.reservations[operation].target);
    assert Listed(db, operation);
    var ids := db.ledger[operation].calendars;
    forall id | id in ids ensures id in db.calendars && db.calendars[id].archive.intents != {} {
      assert id in Elements(ids);
      assert HasIntent(db.calendars[id], operation) <==> id in Held(db.ledger[operation]);
    }
  }

  /**
   * While the global key is reserved no calendar that rules copy from is created, moved to another window or claimed;
   * while it is free nothing keeps such a calendar's own steps out.
   */
  lemma CopySourcesWait(zones: Zones, db: Db, id: string, a: Action, after: Db)
    requires id in db.calendars && db.calendars[id].source.copySource && (a.ClaimSync? || a.EnsureState?)
    ensures Reserved(db.reservations, GLOBAL_KEY) && DbStep(zones, db, OnCalendar(id, a), after) ==> after == db
    ensures !Reserved(db.reservations, GLOBAL_KEY) && a.fenced ==> Admitted(db, a)
  {
  }
}
