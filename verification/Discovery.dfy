/** The single-flight cache of the CalDAV home set (internal/apple/discovery.go). */
module Discovery {
  import opened Base

  const TTL := 600_000_000_000

  /** What a discovery or a lookup answers: an error may come with the home set it found. */
  datatype Answer = Answer(home: string, generation: nat, failed: bool)

  /** One discovery: open until its answer is published, then immutable. */
  datatype Flight = InFlight | Landed(answer: Answer, finished: int)

  /** The mutex-protected fields; flights are named by their position. */
  datatype Cache = Cache(home: string, expires: int, generation: nat, flight: Option<nat>, flights: seq<Flight>)

  /** What the critical section of a lookup decides. */
  datatype Ticket = Served(answer: Answer) | Join(flight: nat) | Lead(flight: nat)

  function Enter(c: Cache, now: int): (Cache, Ticket)
  {
    if c.home != "" && now < c.expires then (c, Served(Answer(c.home, c.generation, false)))
    else if c.flight.Some? then (c, Join(c.flight.value))
    else (c.(flight := Some(|c.flights|), flights := c.flights + [InFlight]), Lead(|c.flights|))
  }

  /** The leader publishes what it found; a failure also empties the cache. */
  function Land(c: Cache, home: string, failed: bool, finished: int): (Cache, Answer)
    requires c.flight.Some? && c.flight.value < |c.flights|
  {
    var answer := Answer(home, c.generation + 1, failed);
    (Cache(if failed then "" else home, if failed then 0 else finished + TTL, c.generation + 1, None,
           c.flights[c.flight.value := Landed(answer, finished)]), answer)
  }

  function Invalidate(c: Cache, generation: nat): Cache
  {
    if c.generation == generation then c.(home := "", expires := 0, generation := c.generation + 1) else c
  }

  /** The last discovery that finished. */
  predicate LastLanded(c: Cache, i: nat)
  {
    && i < |c.flights| && c.flights[i].Landed?
    && (i == |c.flights| - 1 || (i == |c.flights| - 2 && c.flight == Some(i + 1)))
  }

  /** A cached home set is what the last discovery found, not expired early and not invalidated since. */
  ghost predicate CacheInv(c: Cache)
  {
    && (forall i | 0 <= i < |c.flights| :: c.flights[i].InFlight? <==> c.flight == Some(i))
    && (c.flight.Some? ==> c.flight.value == |c.flights| - 1)
    && (forall i | 0 <= i < |c.flights| && c.flights[i].Landed? :: c.flights[i].answer.generation <= c.generation)
    && (forall i, j | 0 <= i < j < |c.flights| && c.flights[i].Landed? && c.flights[j].Landed? ::
          c.flights[i].answer.generation < c.flights[j].answer.generation)
    && (c.home != "" ==> exists i :: FoundBy(c, i))
  }

  predicate FoundBy(c: Cache, i: nat)
  {
    LastLanded(c, i) && c.flights[i].answer == Answer(c.home, c.generation, false) && c.expires == c.flights[i].finished + TTL
  }

  /** The last finished discovery succeeded with this answer, less than ten minutes ago. */
  predicate FreshlyFound(c: Cache, i: nat, answer: Answer, now: int)
  {
    LastLanded(c, i) && c.flights[i].answer == answer && !answer.failed && now < c.flights[i].finished + 10 * 60 * 1_000_000_000
  }

  lemma EnterKeeps(c: Cache, now: int)
    requires CacheInv(c)
    ensures CacheInv(Enter(c, now).0)
  {
    var after := Enter(c, now).0;
    if after.home != "" {
      var i :| FoundBy(c, i);
      assert FoundBy(after, i);
    }
  }

  /** A home set served from the cache was found by the last finished discovery, before its expiry. */
  lemma ServedFresh(c: Cache, now: int)
    requires CacheInv(c) && Enter(c, now).1.Served?
    ensures exists i: nat :: FreshlyFound(c, i, Enter(c, now).1.answer, now)
  {
    var i :| FoundBy(c, i);
    assert FreshlyFound(c, i, Enter(c, now).1.answer, now);
  }

  lemma LandKeeps(c: Cache, home: string, failed: bool, finished: int)
    requires CacheInv(c) && c.flight.Some? && c.flight.value < |c.flights|
    ensures CacheInv(Land(c, home, failed, finished).0)
  {
    var after := Land(c, home, failed, finished).0;
    if after.home != "" {
      assert FoundBy(after, c.flight.value);
    }
  }

  lemma InvalidateKeeps(c: Cache, generation: nat)
    requires CacheInv(c)
    ensures CacheInv(Invalidate(c, generation))
  {
    if Invalidate(c, generation).home != "" {
      var i :| FoundBy(c, i);
      assert FoundBy(Invalidate(c, generation), i);
    }
  }

  /** The lookups of this cache at this time are served from it. */
  predicate Serves(c: Cache, now: int)
  {
    Enter(c, now).1.Served?
  }

  /** The cache object: every method is one critical section. */
  class DiscoveryCache {
    var home: string
    var expires: int
    var generation: nat
    var flight: Option<nat>
    var flights: seq<Flight>

    function State(): Cache
      reads this
    {
      Cache(home, expires, generation, flight, flights)
    }

    ghost predicate Valid()
      reads this
    {
      CacheInv(State())
    }

    constructor ()
      ensures Valid() && State() == Cache("", 0, 0, None, [])
    {
      home, expires, generation, flight, flights := "", 0, 0, None, [];
    }

    /** A fresh home set is served, an open flight joined; otherwise the caller leads, and no other flight is open. */
    method EnterLookup(now: int) returns (t: Ticket)
      requires Valid()
      modifies this`flight, this`flights
      ensures Valid() && (State(), t) == Enter(old(State()), now)
      ensures t.Served? ==> exists i: nat :: FreshlyFound(State(), i, t.answer, now)
      ensures t.Join? ==> t.flight < |flights| && flights[t.flight].InFlight?
      ensures t.Lead? <==> flights != old(flights)
      ensures t.Lead? ==> flights == old(flights) + [InFlight] && t.flight == |old(flights)| && forall i | 0 <= i < t.flight :: flights[i].Landed?
    {
      ghost var before := State();
      EnterKeeps(before, now);
      if home != "" && now < expires {
        ServedFresh(before, now);
        return Served(Answer(home, generation, false));
      }
      if flight.Some? {
        return Join(flight.value);
      }
      flight := Some(|flights|);
      flights := flights + [InFlight];
      return Lead(flight.value);
    }

    /**
     * The open flight lands with the answer, newer than every earlier one; lookups are served it exactly until it
     * expires, and after a failure not at all.
     */
    method LandFlight(found: string, failed: bool, finished: int) returns (answer: Answer)
      requires Valid() && flight.Some?
      modifies this
      ensures Valid() && (State(), answer) == Land(old(State()), found, failed, finished)
      ensures flight.None? && flights == old(flights)[old(flight).value := Landed(answer, finished)]
      ensures answer.home == found && answer.failed == failed
      ensures forall i | 0 <= i < |flights| && i != old(flight).value :: flights[i].Landed? && flights[i].answer.generation < answer.generation
      ensures forall now :: Serves(State(), now) <==> !failed && found != "" && now < finished + TTL
      ensures forall now :: Serves(State(), now) ==> Enter(State(), now).1 == Served(answer)
    {
      ghost var before := State();
      LandKeeps(before, found, failed, finished);
      generation := generation + 1;
      if !failed {
        home := found;
        expires := finished + TTL;
      } else {
        home := "";
        expires := 0;
      }
      answer := Answer(found, generation, failed);
      flights := flights[flight.value := Landed(answer, finished)];
      flight := None;
    }

    /** The named generation is not served again and every other one as before; an open flight goes on. */
    method InvalidateDiscovery(stale: nat)
      requires Valid()
      modifies this`home, this`expires, this`generation
      ensures Valid() && State() == Invalidate(old(State()), stale)
      ensures forall now :: Serves(State(), now) <==> Serves(old(State()), now) && old(generation) != stale
      ensures forall now :: Serves(State(), now) ==> Enter(State(), now).1 == Enter(old(State()), now).1
    {
      ghost var before := State();
      InvalidateKeeps(before, stale);
      if generation == stale {
        home := "";
        expires := 0;
        generation := generation + 1;
      }
    }
  }
}

/** What concurrent callers of the cache can observe. */
module DiscoveryRuns {
  import opened Base
  import opened Discovery

  datatype Caller = Outside | Waiting(flight: nat) | Leading(flight: nat) | Answered(answer: Answer)

  datatype System = System(cache: Cache, callers: map<string, Caller>)

  datatype Event =
    | Look(caller: string, now: int)
    | Finish(caller: string, home: string, failed: bool, finished: int)
    | Wake(caller: string)
    | GiveUp(caller: string)
    | Forget(generation: nat)

  /** A flight that failed to find anything is an error, so a successful one has a home set. */
  predicate Allowed(s: System, e: Event)
  {
    match e
    case Look(c, _) => c !in s.callers || s.callers[c].Outside? || s.callers[c].Answered?
    case Finish(c, home, failed, _) =>
      c in s.callers && s.callers[c].Leading? && s.cache.flight == Some(s.callers[c].flight) && s.callers[c].flight < |s.cache.flights|
      && (!failed ==> home != "")
    case Wake(c) =>
      c in s.callers && s.callers[c].Waiting? && s.callers[c].flight < |s.cache.flights| && s.cache.flights[s.callers[c].flight].Landed?
    case GiveUp(c) => c in s.callers && s.callers[c].Waiting?
    case Forget(_) => true
  }

  function Next(s: System, e: Event): System
    requires Allowed(s, e)
  {
    match e
    case Look(c, now) =>
      var (cache, t) := Enter(s.cache, now);
      System(cache, s.callers[c := match t
                                   case Served(answer) => Answered(answer)
                                   case Join(f) => Waiting(f)
                                   case Lead(f) => Leading(f)])
    case Finish(c, home, failed, finished) =>
      var (cache, answer) := Land(s.cache, home, failed, finished);
      System(cache, s.callers[c := Answered(answer)])
    case Wake(c) => s.(callers := s.callers[c := Answered(s.cache.flights[s.callers[c].flight].answer)])
    case GiveUp(c) => s.(callers := s.callers[c := Answered(Answer("", 0, true))])
    case Forget(generation) => s.(cache := Invalidate(s.cache, generation))
  }

  ghost predicate SystemInv(s: System)
  {
    && CacheInv(s.cache)
    && (forall c | c in s.callers && s.callers[c].Leading? :: s.cache.flight == Some(s.callers[c].flight))
    && (forall c, d | c in s.callers && d in s.callers && s.callers[c].Leading? && s.callers[d].Leading? :: c == d)
    && (forall c | c in s.callers && s.callers[c].Waiting? :: s.callers[c].flight < |s.cache.flights|)
  }

  lemma StepKeeps(s: System, e: Event)
    requires SystemInv(s) && Allowed(s, e)
    ensures SystemInv(Next(s, e))
  {
    hide CacheInv;
    match e {
      case Look(c, now) =>
        EnterKeeps(s.cache, now);
        if s.cache.flight.None? {
          NoLeader(s);
        }
      case Finish(c, home, failed, finished) => LandKeeps(s.cache, home, failed, finished);
      case Wake(c) =>
      case GiveUp(c) =>
      case Forget(generation) => InvalidateKeeps(s.cache, generation);
    }
  }

  lemma NoLeader(s: System)
    requires SystemInv(s) && s.cache.flight.None?
    ensures forall c | c in s.callers :: !s.callers[c].Leading?
  {
  }

  ghost predicate Trace(tr: seq<System>, evs: seq<Event>)
  {
    && |tr| == |evs| + 1
    && forall k | 0 <= k < |evs| :: Allowed(tr[k], evs[k]) && tr[k + 1] == Next(tr[k], evs[k])
  }

  lemma {:induction false} SystemHolds(tr: seq<System>, evs: seq<Event>, k: nat)
    requires Trace(tr, evs) && SystemInv(tr[0]) && k < |tr|
    ensures SystemInv(tr[k])
  {
    hide SystemInv, Allowed, Next;
    if k > 0 {
      SystemHolds(tr, evs, k - 1);
      StepKeeps(tr[k - 1], evs[k - 1]);
    }
  }

  /** In every interleaving at most one discovery is in flight. */
  lemma OneDiscovery(tr: seq<System>, evs: seq<Event>, k: nat, c: string, d: string)
    requires Trace(tr, evs) && SystemInv(tr[0]) && k < |tr|
    requires c in tr[k].callers && d in tr[k].callers && tr[k].callers[c].Leading? && tr[k].callers[d].Leading?
    ensures c == d
  {
    hide Allowed, Next, CacheInv;
    SystemHolds(tr, evs, k);
  }

  /** What a landed flight answered never changes, and a flight that was open lands at its leader's finish. */
  lemma {:induction false} FlightFixed(tr: seq<System>, evs: seq<Event>, i: nat, j: nat, f: nat)
    requires Trace(tr, evs) && SystemInv(tr[0]) && i <= j < |tr| && f < |tr[i].cache.flights|
    ensures f < |tr[j].cache.flights|
    ensures tr[i].cache.flights[f].Landed? ==> tr[j].cache.flights[f] == tr[i].cache.flights[f]
    ensures tr[i].cache.flights[f].InFlight? && tr[j].cache.flights[f].Landed? ==>
              LandedBetween(tr, evs, i, j, f, tr[j].cache.flights[f].answer)
    decreases j
  {
    hide Allowed, Next;
    if i < j {
      FlightFixed(tr, evs, i, j - 1, f);
      SystemHolds(tr, evs, j - 1);
      FlightStep(tr[j - 1], evs[j - 1], f);
      if tr[j - 1].cache.flights[f].InFlight? && tr[j].cache.flights[f].Landed? {
        assert LandsAt(tr, evs, j - 1, f, tr[j].cache.flights[f].answer);
      }
    }
  }

  lemma FlightStep(s: System, e: Event, f: nat)
    requires SystemInv(s) && Allowed(s, e) && f < |s.cache.flights|
    ensures var t := Next(s, e);
            && f < |t.cache.flights|
            && (s.cache.flights[f].Landed? ==> t.cache.flights[f] == s.cache.flights[f])
            && (s.cache.flights[f].InFlight? && t.cache.flights[f].Landed? ==>
                  e.Finish? && e.caller in s.callers && s.callers[e.caller] == Leading(f) && e.caller in t.callers && t.callers[e.caller] == Answered(t.cache.flights[f].answer))
  {
  }

  /** Step k ended flight f, handing its leader this answer. */
  ghost predicate LandsAt(tr: seq<System>, evs: seq<Event>, k: nat, f: nat, answer: Answer)
  {
    && k < |evs| && k + 1 < |tr| && evs[k].Finish? && evs[k].caller in tr[k].callers && tr[k].callers[evs[k].caller] == Leading(f)
    && evs[k].caller in tr[k + 1].callers && tr[k + 1].callers[evs[k].caller] == Answered(answer)
  }

  ghost predicate LandedBetween(tr: seq<System>, evs: seq<Event>, i: nat, j: nat, f: nat, answer: Answer)
  {
    exists k :: i <= k < j && LandsAt(tr, evs, k, f, answer)
  }

  /** A caller that joined a flight still open gets what that flight's leader got. */
  lemma WaiterGetsItsFlight(tr: seq<System>, evs: seq<Event>, i: nat, j: nat, c: string, f: nat)
    requires Trace(tr, evs) && SystemInv(tr[0]) && i <= j < |evs| && evs[j] == Wake(c)
    requires c in tr[j].callers && tr[j].callers[c] == Waiting(f) && f < |tr[i].cache.flights| && tr[i].cache.flights[f].InFlight?
    ensures c in tr[j + 1].callers && tr[j + 1].callers[c].Answered?
    ensures LandedBetween(tr, evs, i, j, f, tr[j + 1].callers[c].answer)
  {
    assert Allowed(tr[j], evs[j]);
    FlightFixed(tr, evs, i, j, f);
  }

  /** In every run, a home set served from the cache was found by the last finished discovery, before its expiry. */
  lemma ServedIsFresh(tr: seq<System>, evs: seq<Event>, k: nat)
    requires Trace(tr, evs) && SystemInv(tr[0]) && k < |evs| && evs[k].Look?
    ensures var t := Enter(tr[k].cache, evs[k].now).1;
            t.Served? ==> exists i :: FreshlyFound(tr[k].cache, i, t.answer, evs[k].now)
  {
    hide Allowed, Next;
    SystemHolds(tr, evs, k);
    if Enter(tr[k].cache, evs[k].now).1.Served? {
      ServedFresh(tr[k].cache, evs[k].now);
    }
  }

  /** An invalidation discards the home set exactly when it names the generation it was found in. */
  lemma InvalidateExact(c: Cache, generation: nat)
    requires CacheInv(c) && c.home != ""
    ensures Invalidate(c, generation) != c <==> exists i: nat :: FoundBy(c, i) && c.flights[i].answer.generation == generation
    ensures Invalidate(c, generation) != c ==> Invalidate(c, generation).home == ""
  {
    var i :| FoundBy(c, i);
  }

  lemma {:induction false} GenerationsGrow(tr: seq<System>, evs: seq<Event>, i: nat, j: nat)
    requires Trace(tr, evs) && i <= j < |tr|
    ensures tr[i].cache.generation <= tr[j].cache.generation
    decreases j
  {
    if i < j {
      GenerationsGrow(tr, evs, i, j - 1);
      assert Allowed(tr[j - 1], evs[j - 1]) && tr[j] == Next(tr[j - 1], evs[j - 1]);
    }
  }

  /** Once a generation was invalidated the cache never serves it again. */
  lemma InvalidatedStaysGone(tr: seq<System>, evs: seq<Event>, i: nat, k: nat, generation: nat)
    requires Trace(tr, evs) && i < k < |evs| && evs[i] == Forget(generation) && evs[k].Look? && generation <= tr[i].cache.generation
    ensures var (cache, t) := Enter(tr[k].cache, evs[k].now); t.Served? ==> generation < t.answer.generation
  {
    GenerationsGrow(tr, evs, i + 1, k);
    assert tr[i + 1] == Next(tr[i], evs[i]);
  }
}
