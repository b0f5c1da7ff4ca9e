/** What a successful materialization means, independently of the order in which pages are applied. */
module MaterializerTheorems {
  import opened Base
  import opened Strings
  import opened Events
  import opened OccurrenceIdentity
  import opened Materializer

  /** The upserts of all pages together. */
  function Puts(pages: seq<Page>): Projection
  {
    if pages == [] then map[] else PutAll(Puts(pages[..|pages| - 1]), pages[|pages| - 1].upserts)
  }

  lemma {:induction false} PutAllIsUnion(m: Projection, upserts: seq<Upsert>)
    ensures PutAll(m, upserts) == m + PutAll(map[], upserts)
  {
    if upserts != [] {
      PutAllIsUnion(m, upserts[..|upserts| - 1]);
    }
  }

  lemma {:induction false} PutAllKeys(upserts: seq<Upsert>)
    ensures PutAll(map[], upserts).Keys == Elements(UpsertIds(upserts))
  {
    if upserts != [] {
      var front := upserts[..|upserts| - 1];
      PutAllKeys(front);
      assert UpsertIds(upserts) == UpsertIds(front) + [upserts[|upserts| - 1].event.id];
    }
  }

  lemma {:induction false} PutsKeys(pages: seq<Page>)
    ensures Puts(pages).Keys <= Elements(Changes(pages))
    ensures Removed(pages) <= Elements(Changes(pages))
  {
    if pages != [] {
      var front, last := pages[..|pages| - 1], pages[|pages| - 1];
      PutsKeys(front);
      PutAllIsUnion(Puts(front), last.upserts);
      PutAllKeys(last.upserts);
      RemovedAppend(front, last);
      assert pages == front + [last];
    }
  }

  lemma RemovedAppend(front: seq<Page>, last: Page)
    ensures Removed(front + [last]) == Removed(front) + Elements(last.deletedIds)
  {
    var pages := front + [last];
    forall id ensures id in Removed(pages) <==> id in Removed(front) || id in last.deletedIds {
      if id in Removed(front) {
        var k :| 0 <= k < |front| && id in front[k].deletedIds;
        assert pages[k] == front[k];
      }
      if id in last.deletedIds {
        assert pages[|front|] == last;
      }
    }
  }

  lemma MapAlgebra(m: Projection, r: set<string>, d: set<string>, p: Projection, u: Projection)
    requires p.Keys !! d
    ensures ((m - r) + p) - d + u == (m - (r + d)) + (p + u)
  {
    assert ((m - r) + p) - d == (m - (r + d)) + p;
  }

  /** The projection after the pages is the base without the removed IDs, plus the upserts. */
  lemma {:induction false} AfterIsDifferencePlus(m: Projection, pages: seq<Page>)
    requires Distinct(Changes(pages))
    ensures After(m, pages) == (m - Removed(pages)) + Puts(pages)
  {
    hide PutAll, PageChanges, Removed;
    if pages == [] {
      RemovedNone();
    } else {
      var front, last := pages[..|pages| - 1], pages[|pages| - 1];
      var d, u := Elements(last.deletedIds), PutAll(map[], last.upserts);
      DistinctPrefix(Changes(front), PageChanges(last));
      AfterIsDifferencePlus(m, front);
      PutsKeys(front);
      DisjointChanges(Changes(front), last);
      MapAlgebra(m, Removed(front), d, Puts(front), u);
      PutAllIsUnion(After(m, front) - d, last.upserts);
      PutAllIsUnion(Puts(front), last.upserts);
      RemovedAppend(front, last);
      assert pages == front + [last];
    }
  }

  lemma RemovedNone()
    ensures Removed([]) == {}
  {
  }

  lemma DisjointChanges(past: seq<string>, last: Page)
    requires Distinct(past + PageChanges(last))
    ensures Elements(past) !! Elements(last.deletedIds)
  {
    var all := past + PageChanges(last);
    forall i, k | 0 <= i < |past| && 0 <= k < |last.deletedIds| ensures past[i] != last.deletedIds[k] {
      assert all[i] == past[i] && all[|past| + k] == last.deletedIds[k];
    }
  }

  /** Upserts found anywhere in the pages. */
  ghost predicate UpsertedBy(pages: seq<Page>, e: Event)
  {
    exists k, i :: 0 <= k < |pages| && 0 <= i < |pages[k].upserts| && pages[k].upserts[i].event == e
  }

  lemma {:induction false} PutAllContents(upserts: seq<Upsert>, i: nat)
    requires Distinct(UpsertIds(upserts)) && i < |upserts|
    ensures upserts[i].event.id in PutAll(map[], upserts)
    ensures PutAll(map[], upserts)[upserts[i].event.id] == upserts[i].event
  {
    var front := upserts[..|upserts| - 1];
    if i < |front| {
      var ids := UpsertIds(upserts);
      assert ids[i] != ids[|front|];
      assert forall j | 0 <= j < |front| :: UpsertIds(front)[j] == ids[j];
      PutAllContents(front, i);
    }
  }

  lemma {:induction false} PutAllSource(upserts: seq<Upsert>, id: string)
    requires id in PutAll(map[], upserts)
    ensures exists i :: 0 <= i < |upserts| && upserts[i].event == PutAll(map[], upserts)[id] && upserts[i].event.id == id
  {
    var front := upserts[..|upserts| - 1];
    if upserts[|front|].event.id != id {
      PutAllSource(front, id);
      var i :| 0 <= i < |front| && front[i].event == PutAll(map[], front)[id] && front[i].event.id == id;
      assert upserts[i] == front[i];
    }
  }

  lemma UpsertedAppend(front: seq<Page>, last: Page, e: Event)
    ensures UpsertedBy(front + [last], e) <==>
            UpsertedBy(front, e) || InPage(last.upserts, e)
  {
    var pages := front + [last];
    if UpsertedBy(front, e) {
      var k, i :| 0 <= k < |front| && 0 <= i < |front[k].upserts| && front[k].upserts[i].event == e;
      assert pages[k].upserts[i].event == e;
    }
    if i :| 0 <= i < |last.upserts| && last.upserts[i].event == e {
      assert pages[|front|].upserts[i].event == e;
    }
  }

  ghost predicate InPage(upserts: seq<Upsert>, e: Event)
  {
    exists i :: 0 <= i < |upserts| && upserts[i].event == e
  }

  /** One page's upserts as a map: each of them is what the map holds for its ID, and nothing else is. */
  lemma PagePuts(upserts: seq<Upsert>, e: Event)
    requires Distinct(UpsertIds(upserts))
    ensures InPage(upserts, e) <==> (e.id in PutAll(map[], upserts) && PutAll(map[], upserts)[e.id] == e)
    ensures e.id in UpsertIds(upserts) <==> e.id in PutAll(map[], upserts)
  {
    hide PutAll, Distinct;
    PutAllKeys(upserts);
    if InPage(upserts, e) {
      var i :| 0 <= i < |upserts| && upserts[i].event == e;
      PutAllContents(upserts, i);
    } else if e.id in PutAll(map[], upserts) {
      PutAllSource(upserts, e.id);
    }
  }

  /** Each upsert of each page is what the union of upserts holds for its ID, and nothing else is in it. */
  lemma {:induction false} PutsContents(pages: seq<Page>, e: Event)
    requires Distinct(Changes(pages))
    ensures UpsertedBy(pages, e) <==> (e.id in Puts(pages) && Puts(pages)[e.id] == e)
  {
    hide PutAll, UpsertedBy, InPage;
    if pages == [] {
      NoUpserts(e);
    } else {
      var front, last := pages[..|pages| - 1], pages[|pages| - 1];
      var past := Changes(front);
      var ids := UpsertIds(last.upserts);
      DistinctPrefix(past, PageChanges(last));
      PutsContents(front, e);
      PutsKeys(front);
      PutAllIsUnion(Puts(front), last.upserts);
      UpsertsDistinct(past, last);
      PagePuts(last.upserts, e);
      UpsertedAppend(front, last, e);
      assert pages == front + [last];
      assert e.id in ids ==> e.id !in Puts(front);
    }
  }

  lemma NoUpserts(e: Event)
    ensures !UpsertedBy([], e)
  {
  }

  lemma UpsertsDistinct(past: seq<string>, last: Page)
    requires Distinct(past + PageChanges(last))
    ensures Distinct(UpsertIds(last.upserts))
    ensures Elements(past) !! Elements(UpsertIds(last.upserts))
  {
    var all, ids := past + PageChanges(last), UpsertIds(last.upserts);
    var offset := |past| + |last.deletedIds|;
    assert forall i | 0 <= i < |ids| :: all[offset + i] == ids[i];
    assert forall j | 0 <= j < |past| :: all[j] == past[j];
  }

  lemma ListingIds(m: Projection)
    requires forall id | id in m :: m[id].id == id
    ensures EventIds(Listing(m)) == Sorted(m.Keys)
  {
    hide ById;
    var ids := Sorted(m.Keys);
    assert forall i | 0 <= i < |ids| :: ids[i] in Elements(ids);
  }

  lemma ListingContents(m: Projection)
    requires forall id | id in m :: m[id].id == id
    ensures Ascending(EventIds(Listing(m)))
    ensures Elements(EventIds(Listing(m))) == m.Keys
    ensures ById(Listing(m)) == m
  {
    ListingIds(m);
    var ids, events := Sorted(m.Keys), Listing(m);
    assert forall i | 0 <= i < |ids| :: ids[i] in Elements(ids);
    assert forall i | 0 <= i < |events| :: events[i] == m[ids[i]] && events[i].id == ids[i];
    hide Listing, ById, Sorted, Leq;
    ListedMap(m, ids, events);
  }

  lemma {:induction false} ByIdAt(events: seq<Event>, i: nat)
    requires Distinct(EventIds(events)) && i < |events|
    ensures events[i].id in ById(events) && ById(events)[events[i].id] == events[i]
  {
    var front := events[..|events| - 1];
    if i < |front| {
      assert EventIds(events)[i] != EventIds(events)[|front|];
      assert EventIds(events) == EventIds(front) + [events[|front|].id];
      DistinctPrefix(EventIds(front), [events[|front|].id]);
      ByIdAt(front, i);
    }
  }

  lemma ListedMap(m: Projection, ids: seq<string>, events: seq<Event>)
    requires Elements(ids) == m.Keys && Distinct(ids) && EventIds(events) == ids
    requires forall i | 0 <= i < |events| :: ids[i] in m && events[i] == m[ids[i]]
    ensures ById(events) == m
  {
    hide ById, Distinct, EventIds;
    ByIdSource(events);
    forall id | id in m ensures ById(events)[id] == m[id] {
      assert id in Elements(ids);
      var i :| 0 <= i < |ids| && ids[i] == id;
      ByIdAt(events, i);
    }
  }

  lemma ProjectionKeys(m: Projection, pages: seq<Page>)
    requires forall id | id in m :: m[id].id == id
    ensures forall id | id in After(m, pages) :: After(m, pages)[id].id == id
  {
    if pages != [] {
      ProjectionKeys(m, pages[..|pages| - 1]);
      PutAllProjection(After(m, pages[..|pages| - 1]) - Elements(pages[|pages| - 1].deletedIds),
                       pages[|pages| - 1].upserts);
    }
  }

  lemma PutAllProjection(m: Projection, upserts: seq<Upsert>)
    requires forall id | id in m :: m[id].id == id
    ensures forall id | id in PutAll(m, upserts) :: PutAll(m, upserts)[id].id == id
  {
  }

  lemma MaterializeShape(inp: Input)
    requires Materialize(inp).Ok?
    ensures Distinct(Changes(inp.pages))
    ensures Materialize(inp).value.events == Listing(After(ById(inp.base), inp.pages))
    ensures inp.zone.Some?
    ensures ValidCandidates(inp.source, Materialize(inp).value.events, inp.lo, inp.hi, inp.zone.value)
    ensures forall i | 0 <= i < |Materialize(inp).value.events| ::
              InWindow(Materialize(inp).value.events[i], inp.zone.value, inp.lo, inp.hi)
  {
    hide ValidPage, ValidBase, ValidCandidates, InWindow, Listing, After, ById, Observations;
  }

  lemma ObjectsDistinct(source: string, events: seq<Event>, lo: int, hi: int, zone: Zone)
    requires ValidCandidates(source, events, lo, hi, zone)
    ensures forall i, j | 0 <= i < j < |events| :: ObjectOf(events[i]) != ObjectOf(events[j])
  {
    hide Identity, ObjectOf, From, Until, ValidRange;
    forall i, j | 0 <= i < j < |events| ensures ObjectOf(events[i]) != ObjectOf(events[j]) {
      assert ValidCandidate(source, events[i], zone) && ValidCandidate(source, events[j], zone);
      IdentityInjective(source, events[i], source, events[j]);
    }
  }

  /** Where each listed event comes from, read off the difference-plus form. */
  lemma ListedFrom(base: seq<Event>, pages: seq<Page>, events: seq<Event>)
    requires Distinct(Changes(pages)) && Distinct(EventIds(events))
    requires ById(events) == (ById(base) - Removed(pages)) + Puts(pages)
    ensures forall e | e in events :: UpsertedBy(pages, e) || (e in base && e.id !in Removed(pages))
    ensures forall e | UpsertedBy(pages, e) :: e in events
  {
    hide ById, Removed, Puts, UpsertedBy, Distinct, Changes;
    ByIdSource(base);
    ByIdSource(events);
    forall e | e in events ensures UpsertedBy(pages, e) || (e in base && e.id !in Removed(pages)) {
      var i :| 0 <= i < |events| && events[i] == e;
      ByIdAt(events, i);
      PutsContents(pages, e);
    }
    forall e | UpsertedBy(pages, e) ensures e in events {
      PutsContents(pages, e);
      assert ById(events)[e.id] == e;
    }
  }

  /** One dated instance of the source: neither cancelled nor a series; its span, whole days from midnight to midnight of the calendar's zone, meets the window. */
  predicate Instance(inp: Input, e: Event)
    requires inp.zone.Some?
  {
    && e.calendarId == inp.source && e.id != "" && !e.Cancelled() && !e.Unexpanded() && ValidRange(e.start, e.end)
    && var from := if e.start.AllDay? then inp.zone.value(e.start.day) else e.start.Instant();
       var until := if e.end.AllDay? then inp.zone.value(e.end.day) else e.end.Instant();
       && from.Some? && until.Some? && from.value < until.value && from.value < inp.hi && inp.lo < until.value
  }

  lemma InstancesOnly(inp: Input)
    requires Materialize(inp).Ok?
    ensures inp.zone.Some? && forall e | e in Materialize(inp).value.events :: Instance(inp, e)
  {
    MaterializeShape(inp);
    hide Materialize, ValidRange;
    var events := Materialize(inp).value.events;
    forall e | e in events ensures Instance(inp, e) {
      var i :| 0 <= i < |events| && events[i] == e;
      assert ValidCandidate(inp.source, events[i], inp.zone.value) && InWindow(events[i], inp.zone.value, inp.lo, inp.hi);
    }
  }

  /**
   * A materialized projection is exactly the base without the removed IDs plus the upserts, sorted by ID,
   * inside the window, one dated instance per source object.
   */
  lemma MaterializeExact(inp: Input)
    requires Materialize(inp).Ok?
    ensures var m := Materialize(inp).value;
            && ById(m.events) == (ById(inp.base) - Removed(inp.pages)) + Puts(inp.pages)
            && Ascending(EventIds(m.events))
            && (forall i | 0 <= i < |m.events| :: InWindow(m.events[i], inp.zone.value, inp.lo, inp.hi))
            && (forall i, j | 0 <= i < j < |m.events| :: ObjectOf(m.events[i]) != ObjectOf(m.events[j]))
            && (forall e | e in m.events ::
                  UpsertedBy(inp.pages, e) || (e in inp.base && e.id !in Removed(inp.pages)))
            && (forall e | UpsertedBy(inp.pages, e) :: e in m.events)
            && (forall e | e in m.events :: Instance(inp, e))
  {
    MaterializeShape(inp);
    InstancesOnly(inp);
    hide Materialize, ValidCandidates, InWindow, Listing, After, ById, Removed, Puts, UpsertedBy, ObjectOf, Changes, Leq, Instance;
    var events := Materialize(inp).value.events;
    ByIdSource(inp.base);
    ProjectionKeys(ById(inp.base), inp.pages);
    ListingContents(After(ById(inp.base), inp.pages));
    AfterIsDifferencePlus(ById(inp.base), inp.pages);
    ObjectsDistinct(inp.source, events, inp.lo, inp.hi, inp.zone.value);
    ListedFrom(inp.base, inp.pages, events);
  }

  /** The data of a page without its position in the attempt. */
  datatype Delta = Delta(deletedIds: seq<string>, upserts: seq<Upsert>)

  function Deltas(pages: seq<Page>): (s: seq<Delta>)
    ensures |s| == |pages|
    ensures forall i | 0 <= i < |s| :: s[i] == Delta(pages[i].deletedIds, pages[i].upserts)
  {
    seq(|pages|, i requires 0 <= i < |pages| => Delta(pages[i].deletedIds, pages[i].upserts))
  }

  lemma SameDelta(p: seq<Page>, q: seq<Page>, k: nat) returns (l: nat)
    requires multiset(Deltas(p)) == multiset(Deltas(q)) && k < |p|
    ensures l < |q| && q[l].deletedIds == p[k].deletedIds && q[l].upserts == p[k].upserts
  {
    assert Deltas(p)[k] in multiset(Deltas(p));
    assert Deltas(p)[k] in Deltas(q);
    l :| 0 <= l < |q| && Deltas(q)[l] == Deltas(p)[k];
  }

  lemma SameUpserts(p: seq<Page>, q: seq<Page>, e: Event)
    requires multiset(Deltas(p)) == multiset(Deltas(q)) && UpsertedBy(p, e)
    ensures UpsertedBy(q, e)
  {
    var k, i :| 0 <= k < |p| && 0 <= i < |p[k].upserts| && p[k].upserts[i].event == e;
    var l := SameDelta(p, q, k);
    assert q[l].upserts[i].event == e;
  }

  lemma SameRemoved(p: seq<Page>, q: seq<Page>)
    requires multiset(Deltas(p)) == multiset(Deltas(q))
    ensures Removed(p) <= Removed(q)
  {
    forall id | id in Removed(p) ensures id in Removed(q) {
      var k :| 0 <= k < |p| && id in p[k].deletedIds;
      var l := SameDelta(p, q, k);
      assert id in q[l].deletedIds;
    }
  }

  lemma SameAfter(base: Projection, p: seq<Page>, q: seq<Page>)
    requires multiset(Deltas(p)) == multiset(Deltas(q))
    requires Distinct(Changes(p)) && Distinct(Changes(q))
    ensures After(base, p) == After(base, q)
  {
    hide *;
    assert Removed(p) == Removed(q) by {
      SameRemoved(p, q);
      SameRemoved(q, p);
    }
    assert Puts(p) == Puts(q) by {
      SamePuts(p, q);
      SamePuts(q, p);
      SameProjection(Puts(p), Puts(q));
    }
    AfterIsDifferencePlus(base, p);
    AfterIsDifferencePlus(base, q);
  }

  lemma SameProjection(p: Projection, q: Projection)
    requires forall id | id in p :: id in q && q[id] == p[id]
    requires forall id | id in q :: id in p && p[id] == q[id]
    ensures p == q
  {
  }

  lemma SamePuts(p: seq<Page>, q: seq<Page>)
    requires multiset(Deltas(p)) == multiset(Deltas(q))
    requires Distinct(Changes(p)) && Distinct(Changes(q))
    ensures forall id | id in Puts(p) :: id in Puts(q) && Puts(q)[id] == Puts(p)[id]
  {
    PutsIds(p);
    forall id | id in Puts(p) ensures id in Puts(q) && Puts(q)[id] == Puts(p)[id] {
      var e := Puts(p)[id];
      PutsContents(p, e);
      SameUpserts(p, q, e);
      PutsContents(q, e);
    }
  }

  lemma PutsIds(pages: seq<Page>)
    ensures forall id | id in Puts(pages) :: Puts(pages)[id].id == id
  {
    if pages != [] {
      PutsIds(pages[..|pages| - 1]);
      PutAllProjection(Puts(pages[..|pages| - 1]), pages[|pages| - 1].upserts);
    }
  }

  function AllDeleted(pages: seq<Page>): (ids: seq<string>)
  {
    if pages == [] then [] else AllDeleted(pages[..|pages| - 1]) + pages[|pages| - 1].deletedIds
  }

  lemma {:induction false} ObserveIdsMeaning(source: string, base: Projection, removals: seq<Removal>, ids: seq<string>)
    requires forall k | 0 <= k < |ids| :: FindRemoval(removals, ids[k]).Some?
    ensures var r := ObserveIds(source, base, removals, ids);
            |r| == |ids| && forall k | 0 <= k < |ids| :: r[k] == Observe(source, base, FindRemoval(removals, ids[k]).value)
  {
    hide Observe;
    if ids != [] {
      ObserveIdsMeaning(source, base, removals, ids[..|ids| - 1]);
    }
  }

  /** The observation names this ID, is read against the base alone, and gives the base event's identity if there is one. */
  predicate Explains(source: string, base: Projection, id: string, o: Observation)
  {
    && o.removal.objectId == id && o == Observe(source, base, o.removal)
    && (id !in base ==> o.unresolved && o.previousIdentity == "")
    && (id in base && Identity(source, base[id]).Ok? ==> Identity(source, base[id]) == Ok(o.previousIdentity))
  }

  lemma ObserveExplains(source: string, base: Projection, removal: Removal)
    ensures Explains(source, base, removal.objectId, Observe(source, base, removal))
  {
    hide MatchesCancelledInstance, Identity;
  }

  /** The observations list every deleted ID once, in page order, each read against the base alone. */
  lemma {:induction false} ObservationsExact(source: string, base: Projection, pages: seq<Page>)
    requires forall i, k | 0 <= i < |pages| && 0 <= k < |pages[i].deletedIds| ::
               FindRemoval(pages[i].removals, pages[i].deletedIds[k]).Some?
    ensures var r, ids := Observations(source, base, pages), AllDeleted(pages);
            |r| == |ids| && forall k | 0 <= k < |ids| :: Explains(source, base, ids[k], r[k])
  {
    hide Explains, Observe, ObserveIds;
    if pages != [] {
      var front, last := pages[..|pages| - 1], pages[|pages| - 1];
      assert forall i | 0 <= i < |front| :: front[i] == pages[i];
      ObservationsExact(source, base, front);
      ObserveIdsMeaning(source, base, last.removals, last.deletedIds);
      forall k | 0 <= k < |last.deletedIds|
        ensures Explains(source, base, last.deletedIds[k], ObserveIds(source, base, last.removals, last.deletedIds)[k])
      {
        ObserveExplains(source, base, FindRemoval(last.removals, last.deletedIds[k]).value);
      }
    }
  }

  /** The cancellation names exactly the instance the base holds under its ID. */
  predicate NamesInstance(previous: Event, removal: Removal)
  {
    && previous.id == removal.objectId && !previous.Unexpanded() && !removal.recurrencePresent
    && (removal.seriesId == "" || removal.seriesId == previous.seriesId)
    && (removal.originalStart.Some? ==>
          previous.originalStart.Some? && ObjectOf(previous.(originalStart := removal.originalStart)) == ObjectOf(previous))
  }

  /**
   * A removal is resolved exactly when the base holds its ID and, for a provider's cancellation, the cancellation names
   * that very instance: the same series and the same occurrence.
   */
  lemma ResolvedExactly(source: string, base: Projection, removal: Removal)
    requires removal.objectId in base ==> Identity(source, base[removal.objectId]).Ok?
    requires removal.originalStart.Some? ==> !removal.originalStart.value.Malformed?
    ensures var o := Observe(source, base, removal);
            && o.removal == removal
            && (!o.unresolved <==> removal.objectId in base
                                   && (removal.reason.ProviderCancellation? ==> NamesInstance(base[removal.objectId], removal)))
  {
    if removal.objectId in base && removal.originalStart.Some? && base[removal.objectId].originalStart.Some? {
      var previous := base[removal.objectId];
      var moved := previous.(originalStart := removal.originalStart);
      if previous.seriesId != "" {
        assert Identity(source, moved).Ok?;
      }
      if Identity(source, moved).Ok? {
        IdentityInjective(source, moved, source, previous);
      }
      hide Identity, ObjectOf;
    }
  }
}
