/** The fence transactions as the storage layer runs them: row by row, rolled back as a whole on any failure. */
module FenceStore {
  import opened Base
  import opened Strings
  import opened SyncLease
  import opened Calendars
  import opened DispatchFence
  import opened FenceRuns

  /** One update applied to every listed calendar. */
  function MapIn(calendars: map<string, Calendar>, ids: set<string>, f: Calendar -> Calendar): map<string, Calendar>
  {
    map id | id in calendars :: if id in ids then f(calendars[id]) else calendars[id]
  }

  function StartOver(c: Calendar, now: int): Calendar
  {
    if c.sync.None? then c else c.(sync := Some(Invalidate(c.sync.value, now)))
  }

  function Advance(c: Calendar): Calendar
  {
    c.(archive := c.archive.(epoch := c.archive.epoch + 1))
  }

  function DropIntent(c: Calendar, operation: string): Calendar
  {
    c.(archive := c.archive.(intents := c.archive.intents - {OperationIntent(operation)}))
  }

  /** The three updates of a release together are the end of the fence. */
  lemma UnfencedInParts(calendars: map<string, Calendar>, operation: string, ids: set<string>, now: int,
                        reset: Calendar -> Calendar, advance: Calendar -> Calendar, drop: Calendar -> Calendar)
    requires forall id | id in ids :: id in calendars && HasIntent(calendars[id], operation)
    requires forall c :: reset(c) == StartOver(c, now)
    requires forall c :: advance(c) == Advance(c)
    requires forall c :: drop(c) == DropIntent(c, operation)
    ensures MapIn(MapIn(MapIn(calendars, ids, reset), ids, advance), ids, drop) == Unfenced(calendars, operation, ids, now)
  {
    hide OperationIntent;
    var parts := MapIn(MapIn(MapIn(calendars, ids, reset), ids, advance), ids, drop);
    forall id | id in calendars ensures parts[id] == Unfenced(calendars, operation, ids, now)[id] {
    }
  }

  lemma PrefixElements(ids: seq<string>, i: nat)
    requires i < |ids| && Ascending(ids)
    ensures Elements(ids[..i + 1]) == Elements(ids[..i]) + {ids[i]} && ids[i] !in Elements(ids[..i])
  {
    assert ids[..i + 1] == ids[..i] + [ids[i]];
  }

  lemma MapInNext(calendars: map<string, Calendar>, ids: seq<string>, i: nat, f: Calendar -> Calendar)
    requires i < |ids| && Ascending(ids) && ids[i] in calendars
    ensures var done := MapIn(calendars, Elements(ids[..i]), f);
            && done[ids[i]] == calendars[ids[i]]
            && MapIn(calendars, Elements(ids[..i + 1]), f) == done[ids[i] := f(done[ids[i]])]
  {
    hide Ascending;
    PrefixElements(ids, i);
  }

  lemma MapInKeys(calendars: map<string, Calendar>, ids: set<string>, f: Calendar -> Calendar)
    ensures MapIn(calendars, ids, f).Keys == calendars.Keys
  {
  }

  lemma ResetIntents(calendars: map<string, Calendar>, operation: string, ids: set<string>, now: int, reset: Calendar -> Calendar)
    requires forall c :: reset(c) == StartOver(c, now)
    ensures Fencing(MapIn(calendars, ids, reset), operation) == Fencing(calendars, operation)
  {
  }

  /** What is left of a release once its sync rows, epochs and intents are written. */
  lemma EndedInParts(calendars: map<string, Calendar>, operation: string, ids: seq<string>, now: int,
                     reset: Calendar -> Calendar, advance: Calendar -> Calendar)
    requires forall i | 0 <= i < |ids| :: ids[i] in calendars
    requires forall c :: reset(c) == StartOver(c, now)
    requires forall c :: advance(c) == Advance(c)
    ensures var started := MapIn(MapIn(calendars, Elements(ids), reset), Elements(ids), advance);
            && started.Keys == calendars.Keys
            && (forall id | id in ids :: HasIntent(started[id], operation) <==> HasIntent(calendars[id], operation))
            && ((forall i | 0 <= i < |ids| :: HasIntent(calendars[ids[i]], operation)) ==>
                  Dropped(started, operation, Elements(ids)) == Unfenced(calendars, operation, Elements(ids), now))
  {
    var started := MapIn(MapIn(calendars, Elements(ids), reset), Elements(ids), advance);
    if forall i | 0 <= i < |ids| :: HasIntent(calendars[ids[i]], operation) {
      var drop := (c: Calendar) => DropIntent(c, operation);
      UnfencedInParts(calendars, operation, Elements(ids), now, reset, advance, drop);
      assert Dropped(started, operation, Elements(ids)) == MapIn(started, Elements(ids), drop);
    }
  }

  function Dropped(calendars: map<string, Calendar>, operation: string, ids: set<string>): map<string, Calendar>
  {
    map id | id in calendars :: if id in ids then DropIntent(calendars[id], operation) else calendars[id]
  }

  // --- the fencing loop ------------------------------------------------------------------

  lemma {:induction false} FailureStays(calendars: map<string, Calendar>, operation: string, ids: seq<string>, i: nat)
    requires i <= |ids| && FenceFailure(calendars, operation, ids[..i]).Some?
    ensures FenceFailure(calendars, operation, ids) == FenceFailure(calendars, operation, ids[..i])
    decreases |ids|
  {
    if i == |ids| {
      assert ids[..i] == ids;
    } else {
      assert ids[..|ids| - 1][..i] == ids[..i];
      FailureStays(calendars, operation, ids[..|ids| - 1], i);
    }
  }

  lemma FenceNone(calendars: map<string, Calendar>, operation: string)
    ensures FenceFailure(calendars, operation, []).None? && Fenced(calendars, operation, Elements([])) == calendars
  {
  }

  lemma FenceNext(calendars: map<string, Calendar>, operation: string, ids: seq<string>, i: nat)
    requires i < |ids| && Ascending(ids) && ids[i] in calendars && FenceFailure(calendars, operation, ids[..i]).None?
    ensures var done, fenced := Fenced(calendars, operation, Elements(ids[..i])), Fence(calendars[ids[i]], operation);
            && done.Keys == calendars.Keys && done[ids[i]] == calendars[ids[i]]
            && (fenced.Ok? ==>
                  && FenceFailure(calendars, operation, ids[..i + 1]).None?
                  && Fenced(calendars, operation, Elements(ids[..i + 1])) == done[ids[i] := fenced.value])
            && (fenced.Err? ==> FenceFailure(calendars, operation, ids) == Some(fenced.error))
  {
    hide Fence;
    PrefixElements(ids, i);
    assert ids[..i + 1][..i] == ids[..i] && ids[..i + 1][i] == ids[i];
    if Fence(calendars[ids[i]], operation).Err? {
      FailureStays(calendars, operation, ids, i + 1);
    }
  }

  class DispatchStore {
    var calendars: map<string, Calendar>
    var ledger: Ledger
    var reservations: Reservations
    var members: Members
    var guards: Members

    function State(): Db
      reads this
    {
      Db(calendars, ledger, reservations, members, guards)
    }

    /** tx.Rollback. */
    method Rollback(saved: Db)
      modifies this
      ensures State() == saved
    {
      calendars, ledger, reservations, members, guards :=
        saved.calendars, saved.ledger, saved.reservations, saved.members, saved.guards;
    }

    /** lockMutationCalendars: every calendar row exists. */
    method LockCalendars(ids: seq<string>) returns (ok: bool)
      ensures ok <==> forall i | 0 <= i < |ids| :: ids[i] in calendars
    {
      for i := 0 to |ids|
        invariant forall k | 0 <= k < i :: ids[k] in calendars
      {
        if ids[i] !in calendars {
          return false;
        }
      }
      return true;
    }

    /** The fencing loop shared by both begin transactions; without a reservation no guard members are written. */
    method FenceEach(operation: string, ids: seq<string>, reserved: bool) returns (failure: Option<Error>)
      requires Ascending(ids) && ids != [] && forall i | 0 <= i < |ids| :: ids[i] in calendars
      requires operation !in members && operation !in guards
      modifies this`calendars, this`members, this`guards
      ensures failure == FenceFailure(old(calendars), operation, ids)
      ensures failure.None? ==>
                && calendars == Fenced(old(calendars), operation, Elements(ids))
                && members == old(members)[operation := Elements(ids)]
                && guards == if reserved then old(guards)[operation := Elements(ids)] else old(guards)
    {
      hide Fence, Fenced, FenceFailure, Ascending;
      ghost var before, rows, links := calendars, members, guards;
      assert ids[..0] == [];
      FenceNone(before, operation);
      for i := 0 to |ids|
        invariant calendars == Fenced(before, operation, Elements(ids[..i]))
        invariant FenceFailure(before, operation, ids[..i]).None?
        invariant RowsOf(members, operation) == Elements(ids[..i]) && members - {operation} == rows
        invariant reserved ==> RowsOf(guards, operation) == Elements(ids[..i]) && guards - {operation} == links
        invariant !reserved ==> guards == links
      {
        PrefixElements(ids, i);
        FenceNext(before, operation, ids, i);
        var fenced := Fence(calendars[ids[i]], operation);
        if fenced.Err? {
          return Some(fenced.error);
        }
        calendars := calendars[ids[i] := fenced.value];
        members := members[operation := RowsOf(members, operation) + {ids[i]}];
        if reserved {
          guards := guards[operation := RowsOf(guards, operation) + {ids[i]}];
        }
      }
      assert ids[..|ids|] == ids;
      assert ids[0] in Elements(ids);
      return None;
    }

    /** BeginExclusiveDispatch. */
    method BeginExclusiveDispatch(q: Request) returns (failure: Option<Error>)
      requires FenceInv(State())
      modifies this
      ensures var r := BeginExclusive(old(State()), q);
              && (r.Ok? ==> failure == None && State() == r.value)
              && (r.Err? ==> failure == Some(r.error) && State() == old(State()))
    {
      hide Normalize, FenceFailure, Fenced, AllListed, IntentsMatch, OneReservation, Identified, ValidKey, TargetDigest;
      var n := NormalizeMutationCalendars(q.calendars);
      if !q.Valid() {
        return Some(Conflict);
      }
      var ids, saved := n.value, State();
      NormalizedAscends(q.calendars);
      if q.operation in ledger {
        return Some(Conflict);
      }
      ledger := ledger[q.operation := Operation(ids, false)];
      if q.operation in reservations || Reserved(reservations, q.target) {
        Rollback(saved);
        return Some(Conflict);
      }
      reservations := reservations[q.operation := Reservation(q.target, q.kind, false)];
      var found := LockCalendars(ids);
      if !found {
        Rollback(saved);
        return Some(Conflict);
      }
      failure := FenceEach(q.operation, ids, true);
      if failure.Some? {
        Rollback(saved);
      }
    }

    /** BeginProjectionMutationMany. */
    method BeginProjectionMutationMany(operation: string, ids: seq<string>) returns (failure: Option<Error>)
      requires FenceInv(State())
      modifies this
      ensures var r := BeginMany(old(State()), operation, ids);
              && (r.Ok? ==> failure == None && State() == r.value)
              && (r.Err? ==> failure == Some(r.error) && State() == old(State()))
    {
      hide Normalize, FenceFailure, Fenced, AllListed, IntentsMatch, OneReservation, Identified;
      var n := NormalizeMutationCalendars(ids);
      if n.Err? || !ValidMutationId(operation) {
        return Some(Conflict);
      }
      NormalizedAscends(ids);
      var saved := State();
      if operation in ledger {
        return Some(Rejected);
      }
      ledger := ledger[operation := Operation(n.value, false)];
      var found := LockCalendars(n.value);
      if !found || Fencing(calendars, operation) != {} {
        Rollback(saved);
        return Some(Conflict);
      }
      failure := FenceEach(operation, n.value, false);
      if failure.Some? {
        Rollback(saved);
      }
    }

    method UpdateEach(ids: seq<string>, f: Calendar -> Calendar)
      requires Ascending(ids) && forall i | 0 <= i < |ids| :: ids[i] in calendars
      modifies this`calendars
      ensures calendars == MapIn(old(calendars), Elements(ids), f)
    {
      for i := 0 to |ids|
        invariant calendars == MapIn(old(calendars), Elements(ids[..i]), f)
      {
        MapInNext(old(calendars), ids, i, f);
        calendars := calendars[ids[i] := f(calendars[ids[i]])];
      }
      assert ids[..|ids|] == ids;
    }

    /** Deletes the operation's intents one calendar at a time, each of which must still be there. */
    method DropEach(operation: string, ids: seq<string>) returns (ok: bool)
      requires Ascending(ids) && forall i | 0 <= i < |ids| :: ids[i] in calendars
      modifies this`calendars
      ensures ok <==> forall i | 0 <= i < |ids| :: HasIntent(old(calendars)[ids[i]], operation)
      ensures ok ==> calendars == Dropped(old(calendars), operation, Elements(ids))
    {
      hide HasIntent;
      var drop := (c: Calendar) => DropIntent(c, operation);
      for i := 0 to |ids|
        invariant calendars == MapIn(old(calendars), Elements(ids[..i]), drop)
        invariant forall k | 0 <= k < i :: HasIntent(old(calendars)[ids[k]], operation)
      {
        MapInNext(old(calendars), ids, i, drop);
        if !HasIntent(calendars[ids[i]], operation) {
          return false;
        }
        calendars := calendars[ids[i] := drop(calendars[ids[i]])];
      }
      assert ids[..|ids|] == ids;
      assert MapIn(old(calendars), Elements(ids), drop) == Dropped(old(calendars), operation, Elements(ids));
      return true;
    }

    /** Every calendar may be rescheduled: enabled, readable, connected, with a sync row. */
    method CheckEligible(ids: seq<string>) returns (ok: bool)
      requires forall i | 0 <= i < |ids| :: ids[i] in calendars
      ensures ok <==> forall i | 0 <= i < |ids| :: calendars[ids[i]].source.Usable() && calendars[ids[i]].sync.Some?
    {
      for i := 0 to |ids|
        invariant forall k | 0 <= k < i :: calendars[ids[k]].source.Usable() && calendars[ids[k]].sync.Some?
      {
        if !calendars[ids[i]].source.Usable() || calendars[ids[i]].sync.None? {
          return false;
        }
      }
      return true;
    }

    /** ReleaseExclusiveAfterConfirmedRun. */
    method ReleaseExclusive(operation: string, calendarIds: seq<string>, now: int) returns (failure: Option<Error>)
      modifies this
      ensures var r := Release(old(State()), operation, calendarIds, now);
              && (r.Ok? ==> failure == None && State() == r.value)
              && (r.Err? ==> failure == Some(r.error) && State() == old(State()))
    {
      hide Normalize, Unfenced, HasIntent, MapIn, Dropped, Fencing, Ascending, StartOver, Advance;
      var n := NormalizeMutationCalendars(calendarIds);
      if n.Err? || !ValidMutationId(operation) {
        return Some(Conflict);
      }
      var ids, saved := n.value, State();
      NormalizedAscends(calendarIds);
      if operation !in ledger || operation !in reservations || ledger[operation].calendars != ids
         || ledger[operation].resolved || reservations[operation].released {
        return Some(Conflict);
      }
      var found := LockCalendars(ids);
      if !found {
        return Some(Conflict);
      }
      var reset := (c: Calendar) => StartOver(c, now);
      var advance := (c: Calendar) => Advance(c);
      MapInKeys(calendars, Elements(ids), reset);
      UpdateEach(ids, reset);
      MapInKeys(calendars, Elements(ids), advance);
      UpdateEach(ids, advance);
      var links, rows := RowsOf(guards, operation), RowsOf(members, operation);
      guards := guards - {operation};
      members := members - {operation};
      var dropped := DropEach(operation, ids);
      EndedInParts(saved.calendars, operation, ids, now, reset, advance);
      if |links| != |ids| || |rows| != |ids| || !dropped {
        Rollback(saved);
        return Some(Conflict);
      }
      ledger := ledger[operation := ledger[operation].(resolved := true)];
      reservations := reservations[operation := reservations[operation].(released := true)];
      return None;
    }

    /** ResolveProjectionMutationManyAndSchedule; deleting member rows that guard members refer to fails. */
    method ResolveAndSchedule(operation: string, calendarIds: seq<string>, now: int) returns (failure: Option<Error>)
      modifies this
      ensures var r := ResolveMany(old(State()), operation, calendarIds, now);
              && (r.Ok? ==> failure == None && State() == r.value)
              && (r.Err? ==> failure == Some(r.error) && State() == old(State()))
    {
      hide Normalize, Unfenced, HasIntent, MapIn, Dropped, Fencing, Ascending, StartOver, Advance;
      var n := NormalizeMutationCalendars(calendarIds);
      if n.Err? || !ValidMutationId(operation) {
        return Some(Conflict);
      }
      var ids, saved := n.value, State();
      NormalizedAscends(calendarIds);
      if operation !in ledger || ledger[operation].calendars != ids || ledger[operation].resolved {
        return Some(Conflict);
      }
      var found := LockCalendars(ids);
      if !found {
        return Some(Conflict);
      }
      var eligible := CheckEligible(ids);
      if !eligible {
        return Some(Ineligible);
      }
      var reset := (c: Calendar) => StartOver(c, now);
      var advance := (c: Calendar) => Advance(c);
      MapInKeys(calendars, Elements(ids), reset);
      UpdateEach(ids, reset);
      ResetIntents(saved.calendars, operation, Elements(ids), now, reset);
      if |Fencing(calendars, operation)| != |ids| {
        Rollback(saved);
        return Some(Conflict);
      }
      MapInKeys(calendars, Elements(ids), advance);
      UpdateEach(ids, advance);
      if RowsOf(guards, operation) != {} {
        Rollback(saved);
        return Some(Rejected);
      }
      var rows := RowsOf(members, operation);
      members := members - {operation};
      var dropped := DropEach(operation, ids);
      EndedInParts(saved.calendars, operation, ids, now, reset, advance);
      if |rows| != |ids| || !dropped {
        Rollback(saved);
        return Some(Conflict);
      }
      ledger := ledger[operation := ledger[operation].(resolved := true)];
      return None;
    }
  }
}
