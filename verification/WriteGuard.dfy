/**
 * Guarded provider writes (internal/calendar/write_dispatch.go) and the composite workflow that splits a series
 * (internal/application/following.go): the shared fence is given back only when the outcome is known.
 */
module WriteGuard {
  import opened Base
  import opened DispatchFence
  import opened FenceStore

  /** What really happened to one provider mutation. */
  datatype Fate = Applied | NotSent | Unknown

  /** What the provider adapter reported: a marked failure claims that nothing was sent. */
  datatype Reply = Completed | Incomplete | Empty | Failed(marked: bool)

  datatype Exchange = Exchange(reply: Reply, fate: Fate)
  {
    /** Adapters report completion and definitive failures truthfully. */
    predicate Truthful()
    {
      (reply.Completed? ==> fate.Applied?) && (reply == Failed(true) ==> fate.NotSent?)
    }
  }

  /** What the guarded call hands back: a value, an error with the no-dispatch marker on top, or another error. */
  datatype Return = Value(completed: bool) | Marked | Error
  {
    /** GuardedWrite releases the reservation. */
    predicate Releases() { Marked? || (Value? && completed) }
  }

  predicate Sure(sent: seq<Fate>)
  {
    forall i | 0 <= i < |sent| :: sent[i].Applied?
  }

  /** A return value that may release the fence is backed by what was sent. */
  predicate Honest(ret: Return, sent: seq<Fate>)
  {
    (ret.Marked? ==> forall i | 0 <= i < |sent| :: sent[i].NotSent?) && (ret == Value(true) ==> Sure(sent))
  }

  /** Nothing that was sent is still in doubt: all applied, or none sent at all. */
  predicate Settles(sent: seq<Fate>)
  {
    Sure(sent) || forall i | 0 <= i < |sent| :: sent[i].NotSent?
  }

  lemma HonestSettles(ret: Return, sent: seq<Fate>)
    requires Honest(ret, sent) && ret.Releases()
    ensures Settles(sent)
  {
  }

  /** MaskNoDispatch: after a dispatch no marker survives. */
  function MaskNoDispatch(r: Return): Return
  {
    if r.Marked? then Error else r
  }

  /** DefinitiveNoDispatch. */
  function DefinitiveNoDispatch(r: Return): Return
  {
    if r.Value? then r else Marked
  }

  /** followingOutcomeError. */
  function FollowingOutcome(dispatched: bool, r: Return): Return
  {
    if r.Value? then r else if dispatched then MaskNoDispatch(r) else DefinitiveNoDispatch(r)
  }

  /** How a single write may return. */
  predicate SingleReturns(x: Exchange, r: Return)
  {
    (r.Marked? <==> x.reply == Failed(true)) && (r == Value(true) <==> x.reply.Completed?) && (r.Error? <==> x.reply == Failed(false))
  }

  lemma SingleHonest(x: Exchange, r: Return)
    requires x.Truthful() && SingleReturns(x, r)
    ensures Honest(r, [x.fate])
  {
  }

  /** The single-write operations: one provider mutation inside the guard. */
  method SingleWrite(x: Exchange) returns (r: Return, sent: seq<Fate>)
    ensures SingleReturns(x, r) && sent == [x.fate]
    ensures x.Truthful() ==> Honest(r, sent)
  {
    sent := [x.fate];
    r := match x.reply
      case Completed => Value(true)
      case Incomplete => Value(false)
      case Empty => Value(false)
      case Failed(marked) => if marked then Marked else Error;
  }

  /** What the reads before the first write found. */
  datatype Preflight = Preflight(
    readable: bool, preview: bool, safe: bool, existing: bool, named: bool, finished: bool, alreadyTrimmed: bool, versionChanged: bool)

  /** The workflow gets as far as its writes; without an existing replacement the first one creates it. */
  predicate Writes(p: Preflight, creating: bool)
  {
    p.readable && !(p.existing && p.finished) && !p.preview && p.safe && p.existing != creating
  }

  /** The original is trimmed only over a replacement that is known to exist. */
  predicate TrimFollows(p: Preflight, create: Exchange)
  {
    && !p.alreadyTrimmed
    && (if p.existing then Writes(p, false) && p.named && !p.versionChanged else Writes(p, true) && create.reply.Completed?)
  }

  /** The replacement is known to exist. */
  predicate Replaced(p: Preflight, create: Exchange)
  {
    if p.existing then Writes(p, false) && p.named else Writes(p, true) && create.reply.Completed?
  }

  function UpdateSends(p: Preflight, create: Exchange, trim: Exchange): seq<Fate>
  {
    (if Writes(p, true) then [create.fate] else []) + (if TrimFollows(p, create) then [trim.fate] else [])
  }

  /**
   * How updateFollowing may return: marked only when nothing was sent, confirmed only when the split is complete,
   * either before the call or by a confirmed trim over a replacement known to exist. A preview, a changed original
   * and an unconfirmed or failed trim are partial results; everything else is an error.
   */
  predicate UpdateReturns(p: Preflight, create: Exchange, trim: Exchange, r: Return)
  {
    && (r.Marked? <==> !Writes(p, true) && !Replaced(p, create) && (!p.readable || (!(p.existing && p.finished) && !p.preview)))
    && (r == Value(true) <==>
         || (p.readable && p.existing && p.finished)
         || (Replaced(p, create) && (p.alreadyTrimmed || (TrimFollows(p, create) && trim.reply.Completed?))))
    && (r == Value(false) <==>
         || (p.readable && !(p.existing && p.finished) && p.preview)
         || (Replaced(p, create) && !p.alreadyTrimmed && p.existing && p.versionChanged)
         || (TrimFollows(p, create) && (trim.reply.Incomplete? || trim.reply.Failed?)))
  }

  lemma UpdateHonest(p: Preflight, create: Exchange, trim: Exchange, r: Return)
    requires create.Truthful() && trim.Truthful() && UpdateReturns(p, create, trim, r)
    ensures Honest(r, UpdateSends(p, create, trim))
  {
  }

  /** updateFollowing: create the replacement series, then trim the original. */
  method UpdateFollowing(p: Preflight, create: Exchange, trim: Exchange) returns (r: Return, sent: seq<Fate>)
    ensures UpdateReturns(p, create, trim, r) && sent == UpdateSends(p, create, trim)
    ensures create.Truthful() && trim.Truthful() ==> Honest(r, sent)
    ensures Writes(p, true) && !create.reply.Completed? ==> !r.Releases()
    ensures TrimFollows(p, create) ==> (r.Releases() <==> trim.reply.Completed?)
  {
    var dispatched := false;
    sent := [];
    r := Error;
    if !p.readable {
      return FollowingOutcome(dispatched, Error), sent;
    }
    if p.existing && p.finished {
      return FollowingOutcome(dispatched, Value(true)), sent;
    }
    if p.preview {
      return FollowingOutcome(dispatched, Value(false)), sent;
    }
    if !p.safe {
      return FollowingOutcome(dispatched, Error), sent;
    }
    var named := p.existing && p.named;
    if !p.existing {
      dispatched := true;
      sent := sent + [create.fate];
      if create.reply.Failed? {
        return FollowingOutcome(dispatched, if create.reply.marked then Marked else Error), sent;
      }
      named := create.reply.Completed?;
    }
    if !named {
      return FollowingOutcome(dispatched, Error), sent;
    }
    if p.alreadyTrimmed {
      return FollowingOutcome(dispatched, Value(true)), sent;
    }
    if p.existing && p.versionChanged {
      return FollowingOutcome(dispatched, Value(false)), sent;
    }
    dispatched := true;
    sent := sent + [trim.fate];
    match trim.reply {
      case Completed => r := Value(true);
      case Incomplete => r := Value(false);
      case Empty => r := Error;
      case Failed(_) => r := Value(false);
    }
    r := FollowingOutcome(dispatched, r);
  }

  function DeleteSends(p: Preflight, trim: Exchange): seq<Fate>
  {
    if p.readable && !p.preview && p.safe then [trim.fate] else []
  }

  predicate DeleteReturns(p: Preflight, trim: Exchange, r: Return)
  {
    && (r.Marked? <==> !p.readable || (!p.preview && !p.safe))
    && (r == Value(true) <==> p.readable && !p.preview && p.safe && trim.reply.Completed?)
    && (r == Value(false) <==> p.readable && (p.preview || (p.safe && trim.reply.Incomplete?)))
  }

  lemma DeleteHonest(p: Preflight, trim: Exchange, r: Return)
    requires trim.Truthful() && DeleteReturns(p, trim, r)
    ensures Honest(r, DeleteSends(p, trim))
  {
  }

  /** deleteFollowing: one trimming write. */
  method DeleteFollowing(p: Preflight, trim: Exchange) returns (r: Return, sent: seq<Fate>)
    ensures DeleteReturns(p, trim, r) && sent == DeleteSends(p, trim)
    ensures trim.Truthful() ==> Honest(r, sent)
    ensures sent != [] ==> (r.Releases() <==> trim.reply.Completed?)
  {
    var dispatched := false;
    sent := [];
    if !p.readable {
      return FollowingOutcome(dispatched, Error), sent;
    }
    if p.preview {
      return FollowingOutcome(dispatched, Value(false)), sent;
    }
    if !p.safe {
      return FollowingOutcome(dispatched, Error), sent;
    }
    dispatched := true;
    sent := sent + [trim.fate];
    match trim.reply {
      case Completed => r := Value(true);
      case Incomplete => r := Value(false);
      case Empty => r := Error;
      case Failed(marked) => r := if marked then Marked else Error;
    }
    r := FollowingOutcome(dispatched, r);
  }

  /** What GuardedWrite answers its caller. */
  datatype Answer = Delivered(completed: bool) | NothingSent | OutcomeUnknown

  /** GuardedWrite once its call has returned: the reservation goes exactly when the return value settles it. */
  method ConcludeGuarded(store: DispatchStore, operation: string, calendars: seq<string>, ret: Return, now: int) returns (answer: Answer)
    modifies store
    ensures var r := Release(old(store.State()), operation, calendars, now);
            && store.State() == (if ret.Releases() && r.Ok? then r.value else old(store.State()))
            && (answer == Delivered(true) <==> ret == Value(true) && r.Ok?)
            && (answer.NothingSent? <==> ret.Marked? && r.Ok?)
            && (answer == Delivered(false) <==> ret == Value(false))
  {
    if ret.Error? {
      return OutcomeUnknown;
    }
    if ret.Value? && !ret.completed {
      return Delivered(false);
    }
    var failure := store.ReleaseExclusive(operation, calendars, now);
    if failure.Some? {
      return OutcomeUnknown;
    }
    return if ret.Marked? then NothingSent else Delivered(true);
  }
}
