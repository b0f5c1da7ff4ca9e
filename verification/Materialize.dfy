/**
 * Source projection: candidate selection and materialization of staged pages
 * (internal/calendarprojection/candidates.go and materialize.go).
 */
module Materializer {
  import opened Base
  import opened Strings
  import opened Events
  import opened OccurrenceIdentity

  /** Local midnight of a day in the calendar zone, when the zone has one. */
  type Zone = int -> Option<int>

  // --- candidates --------------------------------------------------------------

  function From(e: Event, zone: Zone): (t: Option<int>)
  {
    if e.start.AllDay? then zone(e.start.day) else e.start.Instant()
  }

  function Until(e: Event, zone: Zone): (t: Option<int>)
  {
    if e.end.AllDay? then zone(e.end.day) else e.end.Instant()
  }

  predicate ValidCandidate(source: string, e: Event, zone: Zone)
  {
    && !e.Cancelled() && !e.Unexpanded()
    && ValidRange(e.start, e.end)
    && (e.originalStart.Some? && e.originalStart.value.AllDay? ==> zone(e.originalStart.value.day).Some?)
    && Identity(source, e).Ok?
    && From(e, zone).Some? && Until(e, zone).Some?
    && From(e, zone).value < Until(e, zone).value
  }

  predicate InWindow(e: Event, zone: Zone, lo: int, hi: int)
  {
    && From(e, zone).Some? && Until(e, zone).Some?
    && From(e, zone).value < hi && lo < Until(e, zone).value
  }

  predicate UsableSource(source: string)
  {
    source != "" && NUL !in source
  }

  ghost predicate ValidCandidates(source: string, events: seq<Event>, lo: int, hi: int, zone: Zone)
  {
    && UsableSource(source) && lo < hi
    && (forall i | 0 <= i < |events| :: ValidCandidate(source, events[i], zone))
    && (forall i, j | 0 <= i < j < |events| :: Identity(source, events[i]) != Identity(source, events[j]))
  }

  /** The events overlapping the window, in order. */
  function Select(events: seq<Event>, lo: int, hi: int, zone: Zone): (r: seq<Event>)
    ensures |r| <= |events|
    ensures |r| == |events| <==> forall i | 0 <= i < |events| :: InWindow(events[i], zone, lo, hi)
  {
    if events == [] then []
    else
      var last := events[|events| - 1];
      Select(events[..|events| - 1], lo, hi, zone) + (if InWindow(last, zone, lo, hi) then [last] else [])
  }

  lemma SelectNone(lo: int, hi: int, zone: Zone)
    ensures Select([], lo, hi, zone) == []
  {
  }

  lemma SelectAppend(events: seq<Event>, e: Event, lo: int, hi: int, zone: Zone)
    ensures Select(events + [e], lo, hi, zone)
         == Select(events, lo, hi, zone) + (if InWindow(e, zone, lo, hi) then [e] else [])
  {
    hide InWindow;
    assert (events + [e])[..|events|] == events;
  }

  /** Candidates: fails on the first malformed or repeated instance, otherwise keeps the overlapping ones. */
  method Candidates(source: string, events: seq<Event>, lo: int, hi: int, zone: Zone)
    returns (r: Result<seq<Event>>)
    ensures r.Ok? <==> ValidCandidates(source, events, lo, hi, zone)
    ensures r.Ok? ==> r.value == Select(events, lo, hi, zone)
  {
    hide Identity, From, Until, ValidRange, InWindow, UsableSource, Select;
    if !UsableSource(source) || hi <= lo {
      return Err(Rejected);
    }
    var seen: set<string> := {};
    var result: seq<Event> := [];
    ghost var keys: seq<string> := [];
    SelectNone(lo, hi, zone);
    for i := 0 to |events|
      invariant forall k | 0 <= k < i :: ValidCandidate(source, events[k], zone)
      invariant |keys| == i && seen == Elements(keys) && Distinct(keys)
      invariant forall k | 0 <= k < i :: Identity(source, events[k]) == Ok(keys[k])
      invariant result == Select(events[..i], lo, hi, zone)
    {
      var event := events[i];
      if !ValidCandidate(source, event, zone) {
        return Err(Rejected);
      }
      var identity := Identity(source, event).value;
      DistinctExtend(keys, identity);
      if identity in seen {
        assert exists k :: 0 <= k < i && keys[k] == identity;
        return Err(Rejected);
      }
      keys := keys + [identity];
      seen := seen + {identity};
      if InWindow(event, zone, lo, hi) {
        result := result + [event];
      }
      SelectAppend(events[..i], event, lo, hi, zone);
      assert events[..i + 1] == events[..i] + [event];
    }
    assert events[..|events|] == events;
    return Ok(result);
  }

  // --- the specification of Materialize -----------------------------------------

  datatype Input = Input(
    source: string, timezone: string, zone: Option<Zone>, lo: int, hi: int,
    mode: Mode, base: seq<Event>, baseAvailable: bool, pages: seq<Page>)

  datatype Observation = Observation(removal: Removal, previousIdentity: string, unresolved: bool)

  datatype Materialized = Materialized(events: seq<Event>, observations: seq<Observation>)

  type Projection = map<string, Event>

  function ById(events: seq<Event>): (m: Projection)
  {
    if events == [] then map[]
    else
      var last := events[|events| - 1];
      ById(events[..|events| - 1])[last.id := last]
  }

  lemma {:induction false} ByIdSource(events: seq<Event>)
    ensures ById(events).Keys == Elements(EventIds(events))
    ensures forall id | id in ById(events) :: ById(events)[id].id == id && ById(events)[id] in events
  {
    if events != [] {
      var front := events[..|events| - 1];
      ByIdSource(front);
      assert EventIds(events) == EventIds(front) + [events[|events| - 1].id];
    }
  }

  /** Every ID a page changes, deletions before upserts. */
  function PageChanges(page: Page): seq<string>
  {
    page.deletedIds + UpsertIds(page.upserts)
  }

  function Changes(pages: seq<Page>): seq<string>
  {
    if pages == [] then []
    else Changes(pages[..|pages| - 1]) + PageChanges(pages[|pages| - 1])
  }

  function Removed(pages: seq<Page>): (s: set<string>)
    ensures forall id :: id in s <==> exists k :: 0 <= k < |pages| && id in pages[k].deletedIds
  {
    set k, id | 0 <= k < |pages| && id in pages[k].deletedIds :: id
  }

  function PutAll(m: Projection, upserts: seq<Upsert>): (r: Projection)
  {
    if upserts == [] then m
    else
      var last := upserts[|upserts| - 1].event;
      PutAll(m, upserts[..|upserts| - 1])[last.id := last]
  }

  /** Deletions, then upserts, page by page. */
  function After(m: Projection, pages: seq<Page>): (r: Projection)
  {
    if pages == [] then m
    else
      var last := pages[|pages| - 1];
      PutAll(After(m, pages[..|pages| - 1]) - Elements(last.deletedIds), last.upserts)
  }

  function FindRemoval(removals: seq<Removal>, id: string): (r: Option<Removal>)
    ensures r.Some? <==> exists i :: 0 <= i < |removals| && removals[i].objectId == id
    ensures r.Some? ==> r.value in removals && r.value.objectId == id
  {
    if removals == [] then None
    else if removals[|removals| - 1].objectId == id then Some(removals[|removals| - 1])
    else FindRemoval(removals[..|removals| - 1], id)
  }

  /** matchesCancelledInstance: the cancellation names exactly the previously materialized instance. */
  predicate MatchesCancelledInstance(source: string, previous: Event, removal: Removal, identity: string)
  {
    && previous.id == removal.objectId
    && !previous.Unexpanded()
    && !removal.recurrencePresent
    && (removal.seriesId == "" || removal.seriesId == previous.seriesId)
    && (removal.originalStart.Some? ==>
          && previous.originalStart.Some?
          && Identity(source, previous.(originalStart := removal.originalStart)) == Ok(identity))
  }

  function Observe(source: string, base: Projection, removal: Removal): Observation
  {
    if removal.objectId in base && Identity(source, base[removal.objectId]).Ok? then
      var previous := base[removal.objectId];
      var identity := Identity(source, previous).value;
      Observation(removal, identity,
                  removal.reason.ProviderCancellation? && !MatchesCancelledInstance(source, previous, removal, identity))
    else
      Observation(removal, "", true)
  }

  function ObserveIds(source: string, base: Projection, removals: seq<Removal>, ids: seq<string>): (r: seq<Observation>)
  {
    if ids == [] then []
    else
      var found := FindRemoval(removals, ids[|ids| - 1]);
      ObserveIds(source, base, removals, ids[..|ids| - 1])
      + (if found.Some? then [Observe(source, base, found.value)] else [])
  }

  /** One observation for each deletion, always read against the base. */
  function Observations(source: string, base: Projection, pages: seq<Page>): seq<Observation>
  {
    if pages == [] then []
    else
      var last := pages[|pages| - 1];
      Observations(source, base, pages[..|pages| - 1]) + ObserveIds(source, base, last.removals, last.deletedIds)
  }

  predicate ValidRemovals(removals: seq<Removal>)
  {
    && (forall i | 0 <= i < |removals| :: removals[i].Valid())
    && Distinct(RemovalIds(removals))
  }

  predicate ValidUpsert(source: string, u: Upsert)
  {
    && u.event.id != "" && u.event.calendarId == source && u.objectId == u.event.id
    && !u.event.Cancelled() && !u.event.Unexpanded()
    && Identity(source, u.event).Ok?
  }

  predicate ValidPage(inp: Input, i: nat)
    requires i < |inp.pages|
  {
    var page := inp.pages[i];
    && page.timezone == inp.timezone && !page.resetRequired && page.warnings == []
    && (page.complete <==> i == |inp.pages| - 1)
    && page.deletedObjects == [] && page.replacedObjects == [] && page.inventory == []
    && |page.deletedIds| == |page.removals|
    && ValidRemovals(page.removals)
    && (forall k | 0 <= k < |page.deletedIds| :: FindRemoval(page.removals, page.deletedIds[k]).Some?)
    && (forall k | 0 <= k < |page.upserts| :: ValidUpsert(inp.source, page.upserts[k]))
  }

  predicate ValidAttempt(inp: Input)
  {
    && UsableSource(inp.source) && inp.timezone != "" && inp.timezone != "Local" && inp.zone.Some?
    && inp.lo < inp.hi && inp.pages != []
    && (inp.mode.Incremental? ==> inp.baseAvailable)
    && (inp.mode.Replacement? ==> inp.base == [])
  }

  ghost predicate ValidBase(inp: Input)
    requires inp.zone.Some?
  {
    && (forall i | 0 <= i < |inp.base| :: inp.base[i].id != "" && inp.base[i].calendarId == inp.source)
    && Distinct(EventIds(inp.base))
    && ValidCandidates(inp.source, inp.base, inp.lo, inp.hi, inp.zone.value)
    && (forall i | 0 <= i < |inp.base| :: InWindow(inp.base[i], inp.zone.value, inp.lo, inp.hi))
  }

  function Listing(m: Projection): (r: seq<Event>)
    ensures |r| == |m|
  {
    var ids := Sorted(m.Keys);
    assert forall i | 0 <= i < |ids| :: ids[i] in Elements(ids);
    seq(|ids|, i requires 0 <= i < |ids| => m[ids[i]])
  }

  ghost predicate Admissible(inp: Input)
  {
    && ValidAttempt(inp) && ValidBase(inp)
    && (forall i | 0 <= i < |inp.pages| :: ValidPage(inp, i))
    && Distinct(Changes(inp.pages))
    && var events := Listing(After(ById(inp.base), inp.pages));
       && ValidCandidates(inp.source, events, inp.lo, inp.hi, inp.zone.value)
       && (forall i | 0 <= i < |events| :: InWindow(events[i], inp.zone.value, inp.lo, inp.hi))
  }

  ghost function Materialize(inp: Input): (r: Result<Materialized>)
  {
    if Admissible(inp) then
      Ok(Materialized(Listing(After(ById(inp.base), inp.pages)),
                      Observations(inp.source, ById(inp.base), inp.pages)))
    else Err(Rejected)
  }

  // --- the loops ------------------------------------------------------------------

  lemma ByIdEmpty()
    ensures ById([]) == map[]
  {
  }

  lemma ByIdAppend(events: seq<Event>, e: Event)
    ensures ById(events + [e]) == ById(events)[e.id := e]
  {
    assert (events + [e])[..|events|] == events;
  }

  predicate BaseEvent(source: string, e: Event)
  {
    e.id != "" && e.calendarId == source && !e.Cancelled()
  }

  /** The first loop of Materialize: index the base by ID, refusing foreign, cancelled and repeated events. */
  method IndexBase(source: string, base: seq<Event>) returns (ok: bool, byId: Projection)
    ensures ok <==> (forall i | 0 <= i < |base| :: BaseEvent(source, base[i])) && Distinct(EventIds(base))
    ensures ok ==> byId == ById(base)
  {
    hide BaseEvent, ById;
    byId := map[];
    assert base[..0] == [];
    ByIdEmpty();
    ghost var ids := EventIds(base);
    for i := 0 to |base|
      invariant forall k | 0 <= k < i :: BaseEvent(source, base[k])
      invariant Distinct(ids[..i]) && byId.Keys == Elements(ids[..i])
      invariant byId == ById(base[..i])
    {
      var event := base[i];
      DistinctExtend(ids[..i], ids[i]);
      assert ids[..i + 1] == ids[..i] + [ids[i]];
      if !BaseEvent(source, event) || event.id in byId {
        assert ids == ids[..i + 1] + ids[i + 1..];
        if event.id in byId {
          RepeatsStay(ids[..i + 1], ids[i + 1..]);
        }
        return false, byId;
      }
      byId := byId[event.id := event];
      ByIdAppend(base[..i], event);
      assert base[..i + 1] == base[..i] + [event];
    }
    assert base[..|base|] == base && ids[..|ids|] == ids;
    ok := true;
  }

  method CheckBase(inp: Input) returns (ok: bool, byId: Projection)
    requires ValidAttempt(inp)
    ensures ok <==> ValidBase(inp)
    ensures ok ==> byId == ById(inp.base)
  {
    hide Identity, From, Until, ValidRange, InWindow;
    ok, byId := IndexBase(inp.source, inp.base);
    if ok {
      var selected := Candidates(inp.source, inp.base, inp.lo, inp.hi, inp.zone.value);
      ok := selected.Ok? && |selected.value| == |inp.base|;
    }
    assert ValidBase(inp) ==> forall i | 0 <= i < |inp.base| ::
        ValidCandidate(inp.source, inp.base[i], inp.zone.value) && BaseEvent(inp.source, inp.base[i]);
  }

  function RemovalIds(removals: seq<Removal>): (ids: seq<string>)
    ensures |ids| == |removals|
    ensures forall i | 0 <= i < |ids| :: ids[i] == removals[i].objectId
  {
    seq(|removals|, i requires 0 <= i < |removals| => removals[i].objectId)
  }

  /** Removal provenance: well formed and one entry per object. */
  method IndexRemovals(removals: seq<Removal>) returns (ok: bool, known: set<string>)
    ensures ok <==> ValidRemovals(removals)
    ensures ok ==> known == Elements(RemovalIds(removals))
  {
    known := {};
    ghost var ids := RemovalIds(removals);
    for k := 0 to |removals|
      invariant forall j | 0 <= j < k :: removals[j].Valid()
      invariant Distinct(ids[..k]) && known == Elements(ids[..k])
    {
      DistinctExtend(ids[..k], ids[k]);
      assert ids[..k + 1] == ids[..k] + [ids[k]];
      if !removals[k].Valid() || removals[k].objectId in known {
        assert ids == ids[..k + 1] + ids[k + 1..];
        if removals[k].objectId in known {
          RepeatsStay(ids[..k + 1], ids[k + 1..]);
        }
        return false, known;
      }
      known := known + {removals[k].objectId};
    }
    assert ids[..|ids|] == ids;
    ok := true;
  }

  /** The checks on one page that do not depend on other pages. */
  method CheckPage(inp: Input, i: nat) returns (ok: bool)
    requires i < |inp.pages|
    ensures ok <==> ValidPage(inp, i)
  {
    hide ValidUpsert, FindRemoval, ValidRemovals;
    var page := inp.pages[i];
    if page.timezone != inp.timezone || page.resetRequired || page.warnings != []
       || page.complete != (i == |inp.pages| - 1)
       || page.deletedObjects != [] || page.replacedObjects != [] || page.inventory != []
       || |page.deletedIds| != |page.removals| {
      return false;
    }
    var valid, known := IndexRemovals(page.removals);
    if !valid {
      return false;
    }
    for k := 0 to |page.deletedIds|
      invariant forall j | 0 <= j < k :: FindRemoval(page.removals, page.deletedIds[j]).Some?
    {
      KnownRemoval(page.removals, page.deletedIds[k]);
      if page.deletedIds[k] !in known {
        return false;
      }
    }
    for k := 0 to |page.upserts|
      invariant forall j | 0 <= j < k :: ValidUpsert(inp.source, page.upserts[j])
    {
      if !ValidUpsert(inp.source, page.upserts[k]) {
        return false;
      }
    }
    return true;
  }

  lemma KnownRemoval(removals: seq<Removal>, id: string)
    ensures id in RemovalIds(removals) <==> FindRemoval(removals, id).Some?
  {
  }

  /** Checking a list of changes against the set already seen, one by one. */
  method Mark(seen: set<string>, ghost past: seq<string>, ids: seq<string>) returns (ok: bool, all: set<string>)
    requires seen == Elements(past) && Distinct(past)
    ensures ok <==> Distinct(past + ids)
    ensures ok ==> all == Elements(past + ids)
  {
    all := seen;
    for k := 0 to |ids|
      invariant Distinct(past + ids[..k]) && all == Elements(past + ids[..k])
    {
      DistinctExtend(past + ids[..k], ids[k]);
      assert past + ids[..k + 1] == (past + ids[..k]) + [ids[k]];
      assert past + ids == (past + ids[..k + 1]) + ids[k + 1..];
      if ids[k] in all {
        RepeatsStay(past + ids[..k + 1], ids[k + 1..]);
        return false, all;
      }
      all := all + {ids[k]};
    }
    assert ids[..|ids|] == ids;
    ok := true;
  }

  lemma AfterUntouched(m: Projection, pages: seq<Page>, id: string)
    requires id !in Changes(pages)
    ensures id in After(m, pages) <==> id in m
    ensures id in m ==> After(m, pages)[id] == m[id]
  {
    if pages != [] {
      var last := pages[|pages| - 1];
      assert id !in Changes(pages[..|pages| - 1]) && id !in PageChanges(last);
      AfterUntouched(m, pages[..|pages| - 1], id);
      assert forall k | 0 <= k < |last.upserts| :: UpsertIds(last.upserts)[k] in PageChanges(last);
      PutAllUntouched(After(m, pages[..|pages| - 1]) - Elements(last.deletedIds), last.upserts, id);
    }
  }

  lemma PutAllUntouched(m: Projection, upserts: seq<Upsert>, id: string)
    requires forall k | 0 <= k < |upserts| :: upserts[k].event.id != id
    ensures id in PutAll(m, upserts) <==> id in m
    ensures id in m ==> PutAll(m, upserts)[id] == m[id]
  {
  }

  lemma BaseIdentities(inp: Input)
    requires inp.zone.Some? && ValidBase(inp)
    ensures forall e | e in inp.base :: Identity(inp.source, e).Ok?
  {
    forall e | e in inp.base ensures Identity(inp.source, e).Ok? {
      var i :| 0 <= i < |inp.base| && inp.base[i] == e;
      assert ValidCandidate(inp.source, inp.base[i], inp.zone.value);
    }
  }

  /** A page's deletions name distinct IDs that no earlier page changed, so they read the base itself. */
  lemma DeletionsReadBase(m: Projection, past: seq<Page>, page: Page)
    requires Distinct(Changes(past) + PageChanges(page))
    ensures Distinct(page.deletedIds)
    ensures forall k | 0 <= k < |page.deletedIds| ::
              && (page.deletedIds[k] in After(m, past) <==> page.deletedIds[k] in m)
              && (page.deletedIds[k] in m ==> After(m, past)[page.deletedIds[k]] == m[page.deletedIds[k]])
  {
    hide After, Changes;
    var changed, ids := Changes(past), page.deletedIds;
    var all := changed + PageChanges(page);
    assert forall k | 0 <= k < |ids| :: all[|changed| + k] == ids[k];
    assert forall j | 0 <= j < |changed| :: all[j] == changed[j];
    forall k | 0 <= k < |ids|
      ensures ids[k] in After(m, past) <==> ids[k] in m
      ensures ids[k] in m ==> After(m, past)[ids[k]] == m[ids[k]]
    {
      assert ids[k] !in changed;
      AfterUntouched(m, past, ids[k]);
    }
  }

  lemma ObserveAppend(source: string, base: Projection, removals: seq<Removal>, ids: seq<string>, id: string)
    requires FindRemoval(removals, id).Some?
    ensures ObserveIds(source, base, removals, ids + [id])
         == ObserveIds(source, base, removals, ids) + [Observe(source, base, FindRemoval(removals, id).value)]
  {
    hide Observe, FindRemoval;
    assert (ids + [id])[..|ids|] == ids;
  }

  lemma ObserveNone(source: string, base: Projection, removals: seq<Removal>)
    ensures ObserveIds(source, base, removals, []) == []
  {
  }

  lemma RemoveAppend(m: Projection, ids: seq<string>, id: string)
    ensures m - Elements(ids) - {id} == m - Elements(ids + [id])
  {
    assert Elements(ids) + {id} == Elements(ids + [id]);
  }

  /** Deletions of one page: remove the IDs and record what the base held for each. */
  method ApplyDeletions(inp: Input, i: nat, byId: Projection) returns (after: Projection, seen: seq<Observation>)
    requires ValidAttempt(inp) && ValidBase(inp) && i < |inp.pages| && ValidPage(inp, i)
    requires byId == After(ById(inp.base), inp.pages[..i])
    requires Distinct(Changes(inp.pages[..i]) + PageChanges(inp.pages[i]))
    ensures after == byId - Elements(inp.pages[i].deletedIds)
    ensures seen == ObserveIds(inp.source, ById(inp.base), inp.pages[i].removals, inp.pages[i].deletedIds)
  {
    hide ValidCandidate, InWindow, MatchesCancelledInstance, ValidUpsert, Identity, After, ValidCandidates,
         ById, ObserveIds;
    var page := inp.pages[i];
    var ids := page.deletedIds;
    ghost var base := ById(inp.base);
    BaseIdentities(inp);
    ByIdSource(inp.base);
    DeletionsReadBase(base, inp.pages[..i], page);
    after, seen := byId, [];
    assert ids[..0] == [] && byId - Elements([]) == byId;
    assert ObserveIds(inp.source, base, page.removals, []) == [] by {
      hide *;
      ObserveNone(inp.source, base, page.removals);
    }
    for k := 0 to |ids|
      invariant after == byId - Elements(ids[..k])
      invariant seen == ObserveIds(inp.source, base, page.removals, ids[..k])
    {
      var id := ids[k];
      var removal := FindRemoval(page.removals, id).value;
      var observation := Observation(removal, "", true);
      assert id !in ids[..k];
      if id in after {
        var previous := after[id];
        var identity := Identity(inp.source, previous).value;
        observation := Observation(removal, identity,
          removal.reason.ProviderCancellation? && !MatchesCancelledInstance(inp.source, previous, removal, identity));
      }
      assert observation == Observe(inp.source, base, removal);
      after := after - {id};
      seen := seen + [observation];
      ObserveAppend(inp.source, base, page.removals, ids[..k], id);
      RemoveAppend(byId, ids[..k], id);
      assert ids[..k + 1] == ids[..k] + [id];
    }
    assert ids[..|ids|] == ids;
  }

  method ApplyUpserts(byId: Projection, upserts: seq<Upsert>) returns (after: Projection)
    ensures after == PutAll(byId, upserts)
  {
    after := byId;
    for k := 0 to |upserts|
      invariant after == PutAll(byId, upserts[..k])
    {
      after := after[upserts[k].event.id := upserts[k].event];
      assert upserts[..k + 1][..k] == upserts[..k];
    }
    assert upserts[..|upserts|] == upserts;
  }

  lemma {:induction false} ChangesPrefix(pages: seq<Page>, k: nat)
    requires k <= |pages|
    ensures Changes(pages[..k]) <= Changes(pages)
  {
    if k == |pages| {
      assert pages[..k] == pages;
    } else {
      ChangesPrefix(pages[..|pages| - 1], k);
      assert pages[..|pages| - 1][..k] == pages[..k];
    }
  }

  /** Materialize as the source runs it: succeeds exactly on admissible attempts, with the specified result. */
  method MaterializeAttempt(inp: Input) returns (r: Result<Materialized>)
    ensures r == Materialize(inp)
  {
    hide ValidBase, ValidPage, ValidCandidates, Identity, PutAll, ObserveIds, Select, Listing, InWindow;
    if !ValidAttempt(inp) {
      return Err(Rejected);
    }
    var ok, byId := CheckBase(inp);
    if !ok {
      return Err(Rejected);
    }
    ghost var base := ById(inp.base);
    var seen: set<string> := {};
    var observations: seq<Observation> := [];
    for i := 0 to |inp.pages|
      invariant forall k | 0 <= k < i :: ValidPage(inp, k)
      invariant Distinct(Changes(inp.pages[..i])) && seen == Elements(Changes(inp.pages[..i]))
      invariant byId == After(base, inp.pages[..i])
      invariant observations == Observations(inp.source, base, inp.pages[..i])
    {
      var page := inp.pages[i];
      ok := CheckPage(inp, i);
      if !ok {
        return Err(Rejected);
      }
      ok, seen := Mark(seen, Changes(inp.pages[..i]), PageChanges(page));
      assert inp.pages[..i + 1][..i] == inp.pages[..i];
      ChangesPrefix(inp.pages, i + 1);
      if !ok {
        ghost var all, front := Changes(inp.pages), Changes(inp.pages[..i + 1]);
        assert all == front + all[|front|..];
        RepeatsStay(front, all[|front|..]);
        return Err(Rejected);
      }
      var seenNow;
      byId, seenNow := ApplyDeletions(inp, i, byId);
      observations := observations + seenNow;
      byId := ApplyUpserts(byId, page.upserts);
    }
    assert inp.pages[..|inp.pages|] == inp.pages;
    var events := Listing(byId);
    var selected := Candidates(inp.source, events, inp.lo, inp.hi, inp.zone.value);
    if selected.Err? || |selected.value| != |events| {
      return Err(Rejected);
    }
    return Ok(Materialized(events, observations));
  }
}
