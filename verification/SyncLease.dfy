/** The calendar sync row: claims, leases, generations and the opaque cursor (internal/storage/event_cache.go). */
module SyncLease {
  import opened Base

  datatype Status = Pending | Ready | Failed | Degraded | Syncing | Parked

  datatype SyncState = SyncState(
    cursor: string, lo: int, hi: int, generation: nat, status: Status, nextSync: int,
    lastSuccess: Option<int>, lastError: Option<string>, owner: Option<string>, until: Option<int>)
  {
    /** No lease, or one that has run out. */
    predicate Unleased(now: int) { until.None? || until.value <= now }

    function Released(): SyncState { this.(owner := None, until := None) }
  }

  /** The copy of the row a worker holds. */
  datatype Claim = Claim(generation: nat, owner: string, cursor: string, nextSync: int)

  datatype Source = Source(
    provider: string, connected: bool, enabled: bool, readable: bool, timezone: string, copySource: bool)
  {
    predicate Usable() { connected && enabled && readable }
  }

  const APPLE_AUTH_RECHECK := 900_000_000_000

  /** lockCalendarSyncLease finds the row. */
  predicate Holds(s: SyncState, claim: Claim, now: int)
  {
    && claim.owner != ""
    && s.generation == claim.generation && s.status == Syncing
    && s.owner == Some(claim.owner) && s.until.Some? && now < s.until.value
  }

  predicate SafeCode(code: string)
  {
    0 < |code| <= 64 && forall i | 0 <= i < |code| :: 'a' <= code[i] <= 'z' || '0' <= code[i] <= '9' || code[i] == '_'
  }

  /** One calendar of EnsureCalendarSyncStates. */
  function Ensure(s: Option<SyncState>, source: Source, lo: int, hi: int, now: int, fenced: bool): Result<SyncState>
  {
    if hi <= lo then Err(Rejected)
    else if !source.Usable() || (source.copySource && !fenced) then Err(Unavailable)
    else
      var row := if s.Some? then s.value else SyncState("", lo, hi, 0, Pending, now, None, None, None, None);
      if row.lo == lo && row.hi == hi then Ok(row)
      else if !row.Unleased(now) then Ok(row)
      else
        var reset := row.Released().(cursor := "", lo := lo, hi := hi, generation := row.generation + 1);
        Ok(if row.status == Parked then reset else reset.(status := Pending, nextSync := now, lastError := None))
  }

  predicate Claimable(s: SyncState, source: Source, now: int, fenced: bool)
  {
    && (s.status != Parked || (s.lastError == Some("auth") && source.provider == "apple"))
    && source.Usable() && s.nextSync <= now && s.Unleased(now)
    && (fenced || !source.copySource)
  }

  function ClaimDue(s: SyncState, source: Source, worker: string, now: int, until: int, fenced: bool): Result<SyncState>
  {
    if worker == "" || until <= now then Err(Rejected)
    else if !Claimable(s, source, now, fenced) then Err(Unavailable)
    else Ok(s.(generation := s.generation + 1, status := Syncing, owner := Some(worker), until := Some(until)))
  }

  /** The copy ClaimDueCalendarSync and ResetCalendarSync hand to the worker. */
  function Issued(s: SyncState): Claim
    requires s.owner.Some?
  {
    Claim(s.generation, s.owner.value, s.cursor, s.nextSync)
  }

  function Renew(s: SyncState, claim: Claim, now: int, until: int): Result<SyncState>
  {
    if until <= now || !Holds(s, claim, now) || until <= s.until.value then Err(LeaseLost)
    else Ok(s.(until := Some(until)))
  }

  function Reset(s: SyncState, claim: Claim, now: int): Result<SyncState>
  {
    if !Holds(s, claim, now) then Err(LeaseLost) else Ok(s.(cursor := "", generation := s.generation + 1))
  }

  function Fail(s: SyncState, claim: Claim, code: string, now: int, next: int): Result<SyncState>
  {
    if !Holds(s, claim, now) then Err(LeaseLost)
    else Ok(s.Released().(status := Failed, nextSync := next, lastError := if code == "" then None else Some(code)))
  }

  function Park(s: SyncState, source: Source, claim: Claim, code: string, now: int): Result<SyncState>
  {
    if !SafeCode(code) then Err(InvalidCode)
    else if !Holds(s, claim, now) then Err(LeaseLost)
    else Ok(s.Released().(
        status := Parked, lastError := Some(code),
        nextSync := if code == "auth" && source.provider == "apple" then now + APPLE_AUTH_RECHECK else s.nextSync))
  }

  function Schedule(s: SyncState, source: Source, now: int, resetCursor: bool): Result<SyncState>
  {
    if !s.Unleased(now) || !source.Usable() then Err(Ineligible)
    else
      var due := s.Released().(status := Pending, nextSync := now, lastError := None);
      Ok(if resetCursor then due.(cursor := "", generation := s.generation + 1) else due)
  }

  function Defer(s: SyncState, claim: Claim, now: int, next: int, quarantined: bool, published: bool): Result<SyncState>
  {
    if next <= now || !Holds(s, claim, now) then Err(LeaseLost)
    else Ok(s.Released().(nextSync := next,
                          status := if quarantined then Degraded else if published then Ready else Pending))
  }

  /** The last statement of a final page: ready with the new cursor, or degraded with the claim's own cursor. */
  function Finish(s: SyncState, claim: Claim, degraded: bool, cursor: string, next: Option<int>, now: int): Result<SyncState>
  {
    if !Holds(s, claim, now) then Err(LeaseLost)
    else
      var done := s.Released().(nextSync := if next.Some? then next.value else claim.nextSync, lastSuccess := Some(now));
      Ok(if degraded then done.(cursor := claim.cursor, status := Degraded, lastError := Some("protocol"))
         else done.(cursor := cursor, status := Ready, lastError := None))
  }

  /** The connection works again: a parked calendar is due at once, unless a lease is still running. */
  function Reconnected(s: SyncState, now: int): SyncState
  {
    if s.status == Parked && s.Unleased(now) then s.(status := Pending, nextSync := now, lastError := None) else s
  }

  /** The user changed the selection: a live lease goes, progress is cleared, and only disabling leaves a parked calendar parked. */
  function Reselected(s: SyncState, enabled: bool, now: int): SyncState
  {
    var cleared := s.Released().(generation := s.generation + 1, cursor := "", lastSuccess := None);
    if enabled || s.status != Parked then cleared.(status := Pending, nextSync := now, lastError := None) else cleared
  }

  /** A provider mutation was resolved: whatever the row held is replaced from scratch. */
  function Invalidate(s: SyncState, now: int): SyncState
  {
    s.Released().(cursor := "", generation := s.generation + 1, status := Pending, nextSync := now, lastError := None)
  }
}
