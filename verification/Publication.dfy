/** The cache and the snapshot a finalization publishes, compared as plain mirrors. */
module Publication {
  import opened Base
  import opened Strings
  import opened Events
  import opened Materializer
  import opened MaterializerTheorems
  import opened Payload
  import opened PageChain
  import opened EventCache
  import opened SyncLease
  import opened Calendars
  import opened CalendarRuns

  /** A projection as a mirror: every event is its own object, in its stored form. */
  function MirrorOf(p: Projection): Mirror
  {
    map id | id in p :: Entry(id, p[id].Plain())
  }

  /** The pages applied to a mirror one after the other. */
  function FoldPages(m: Mirror, calendar: string, pages: seq<Page>): Mirror
  {
    if pages == [] then m
    else MirrorBatch(FoldPages(m, calendar, pages[..|pages| - 1]), calendar, PageBatch(pages[|pages| - 1]))
  }

  lemma {:induction false} ReplayFolds(c: Cache, calendar: string, pages: seq<Page>, g: nat, now: int, view: Option<nat>)
    requires Watches(view, g)
    ensures View(Replay(c, calendar, pages, g, now).rows, view) == FoldPages(View(c.rows, view), calendar, pages)
  {
    hide View, ApplyBatch, MirrorBatch, PageBatch;
    if pages != [] {
      var n := |pages| - 1;
      ReplayFolds(c, calendar, pages[..n], g, now, view);
      BatchMirrors(Replay(c, calendar, pages[..n], g, now), calendar, PageBatch(pages[n]), g, now, view);
    }
  }

  lemma {:induction false} ReplayActivatesNone(c: Cache, calendar: string, pages: seq<Page>, g: nat, now: int)
    ensures forall o | ActiveObject(Replay(c, calendar, pages, g, now).quarantine, o) :: ActiveObject(c.quarantine, o)
  {
    hide ApplyBatch;
    if pages != [] {
      var n := |pages| - 1;
      ReplayActivatesNone(c, calendar, pages[..n], g, now);
      NoNewActive(Replay(c, calendar, pages[..n], g, now), calendar, PageBatch(pages[n]), g, now);
    }
  }

  // --- what one page does to a mirror --------------------------------------------------

  predicate OwnUpserts(calendar: string, upserts: seq<Upsert>)
  {
    forall i | 0 <= i < |upserts| ::
      upserts[i].event.id != "" && upserts[i].event.calendarId == calendar && upserts[i].objectId == upserts[i].event.id
  }

  lemma {:induction false} PutEntriesIsUnion(m: Mirror, calendar: string, upserts: seq<Upsert>)
    requires OwnUpserts(calendar, upserts)
    ensures PutEntries(m, calendar, CachedUpserts(upserts)) == m + MirrorOf(PutAll(map[], upserts))
  {
    hide MirrorOf, CachedUpserts, PutEntries, PutAll;
    if upserts == [] {
      NothingEntered(m, calendar);
    } else {
      var n := |upserts| - 1;
      PutEntriesIsUnion(m, calendar, upserts[..n]);
      LastEntered(m, calendar, upserts);
      MirrorPut(PutAll(map[], upserts[..n]), upserts[n].event);
    }
  }

  lemma NothingEntered(m: Mirror, calendar: string)
    ensures PutEntries(m, calendar, CachedUpserts([])) == m && MirrorOf(PutAll(map[], [])) == map[]
  {
  }

  lemma LastEntered(m: Mirror, calendar: string, upserts: seq<Upsert>)
    requires upserts != [] && OwnUpserts(calendar, upserts)
    ensures var n := |upserts| - 1;
            var e := upserts[n].event;
            && PutEntries(m, calendar, CachedUpserts(upserts))
               == PutEntries(m, calendar, CachedUpserts(upserts[..n]))[e.id := Entry(e.id, e.Plain())]
            && PutAll(map[], upserts) == PutAll(map[], upserts[..n])[e.id := e]
  {
    var n := |upserts| - 1;
    assert CachedUpserts(upserts)[..n] == CachedUpserts(upserts[..n]);
    assert CachedUpserts(upserts)[n] == CachedUpsert(upserts[n].event.id, upserts[n].event);
  }

  lemma MirrorPut(p: Projection, e: Event)
    ensures MirrorOf(p[e.id := e]) == MirrorOf(p)[e.id := Entry(e.id, e.Plain())]
  {
  }

  predicate Own(calendar: string, pages: seq<Page>)
  {
    forall i | 0 <= i < |pages| :: OwnUpserts(calendar, pages[i].upserts)
  }

  lemma PageFold(m: Mirror, calendar: string, page: Page)
    requires OwnUpserts(calendar, page.upserts) && Elements(UpsertIds(page.upserts)) !! Elements(page.deletedIds)
    ensures MirrorBatch(m, calendar, PageBatch(page))
         == (m - Elements(page.deletedIds)) + MirrorOf(PutAll(map[], page.upserts))
  {
    hide PutAll, PutEntries, OwnUpserts;
    var puts := MirrorOf(PutAll(map[], page.upserts));
    assert Retained(m, [], CachedUpserts(page.upserts)) == m;
    PutEntriesIsUnion(m, calendar, page.upserts);
    PutAllKeys(page.upserts);
    assert puts.Keys == Elements(UpsertIds(page.upserts));
    assert Without(m + puts, page.deletedIds) == (m - Elements(page.deletedIds)) + puts;
    assert WithoutObjects(Without(m + puts, page.deletedIds), []) == Without(m + puts, page.deletedIds);
  }

  lemma MirrorAlgebra(m: Mirror, r: set<string>, d: set<string>, p: Mirror, u: Mirror)
    requires p.Keys !! d
    ensures ((m - r) + p) - d + u == (m - (r + d)) + (p + u)
  {
    assert ((m - r) + p) - d == (m - (r + d)) + p;
  }

  lemma MirrorUnion(p: Projection, q: Projection)
    ensures MirrorOf(p + q) == MirrorOf(p) + MirrorOf(q)
  {
  }

  /** The pages replace whatever the mirror held under their IDs and leave the rest. */
  lemma {:induction false} FoldIsDifferencePlus(m: Mirror, calendar: string, pages: seq<Page>)
    requires Distinct(Changes(pages)) && Own(calendar, pages)
    ensures FoldPages(m, calendar, pages) == (m - Removed(pages)) + MirrorOf(Puts(pages))
  {
    hide PutAll, PageChanges, Removed, MirrorBatch, PageBatch, MirrorOf, OwnUpserts;
    if pages == [] {
      RemovedNone();
      NothingPut();
    } else {
      var front, last := pages[..|pages| - 1], pages[|pages| - 1];
      var d, u := Elements(last.deletedIds), PutAll(map[], last.upserts);
      DistinctPrefix(Changes(front), PageChanges(last));
      FoldIsDifferencePlus(m, calendar, front);
      PutsKeys(front);
      DisjointChanges(Changes(front), last);
      DisjointPage(Changes(front), last);
      PageFold(FoldPages(m, calendar, front), calendar, last);
      MirrorKeys(Puts(front));
      MirrorAlgebra(m, Removed(front), d, MirrorOf(Puts(front)), MirrorOf(u));
      PutAllIsUnion(Puts(front), last.upserts);
      MirrorUnion(Puts(front), u);
      RemovedAppend(front, last);
      assert pages == front + [last];
    }
  }

  lemma NothingPut()
    ensures MirrorOf(Puts([])) == map[]
  {
  }

  lemma MirrorKeys(p: Projection)
    ensures MirrorOf(p).Keys == p.Keys
  {
  }

  lemma DisjointPage(past: seq<string>, last: Page)
    requires Distinct(past + PageChanges(last))
    ensures Elements(UpsertIds(last.upserts)) !! Elements(last.deletedIds)
  {
    var all, d, u := past + PageChanges(last), last.deletedIds, UpsertIds(last.upserts);
    forall i, k | 0 <= i < |u| && 0 <= k < |d| ensures u[i] != d[k] {
      assert all[|past| + k] == d[k] && all[|past| + |d| + i] == u[i];
    }
  }

  lemma {:induction false} ChangedIds(pages: seq<Page>)
    ensures Elements(Changes(pages)) == Removed(pages) + Puts(pages).Keys
  {
    hide Removed, PutAll;
    if pages == [] {
      RemovedNone();
    } else {
      var front, last := pages[..|pages| - 1], pages[|pages| - 1];
      ChangedIds(front);
      RemovedAppend(front, last);
      PutAllIsUnion(Puts(front), last.upserts);
      PutAllKeys(last.upserts);
      assert pages == front + [last];
    }
  }

  // --- agreement -------------------------------------------------------------------------

  /** Two mirrors hold the same entries outside a set of IDs. */
  predicate AgreeOutside(m: Mirror, n: Mirror, ids: set<string>)
  {
    && (forall id | id in m && id !in ids :: id in n && n[id] == m[id])
    && (forall id | id in n && id !in ids :: id in m)
  }

  lemma AgreementDecides(m: Mirror, n: Mirror, r: set<string>, p: Mirror)
    ensures (m - r) + p == (n - r) + p <==> AgreeOutside(m, n, r + p.Keys)
  {
    var x, y := (m - r) + p, (n - r) + p;
    if x == y {
      forall id | id in m && id !in r + p.Keys ensures id in n && n[id] == m[id] {
        assert id in x;
      }
      forall id | id in n && id !in r + p.Keys ensures id in m {
        assert id in y;
      }
    }
  }

  /** Replaying the pages yields the projection's mirror exactly when the starting points agree outside their IDs. */
  lemma FoldMatches(m: Mirror, calendar: string, base: Projection, pages: seq<Page>)
    requires Distinct(Changes(pages)) && Own(calendar, pages)
    ensures FoldPages(m, calendar, pages) == MirrorOf(After(base, pages))
       <==> AgreeOutside(m, MirrorOf(base), Elements(Changes(pages)))
  {
    hide Removed, Puts, After, AgreeOutside, MirrorOf, Distinct, Changes, Own, FoldPages;
    FoldIsDifferencePlus(m, calendar, pages);
    AfterIsDifferencePlus(base, pages);
    MirrorUnion(base - Removed(pages), Puts(pages));
    MirrorLess(base, Removed(pages));
    AgreementDecides(m, MirrorOf(base), Removed(pages), MirrorOf(Puts(pages)));
    MirrorKeys(Puts(pages));
    ChangedIds(pages);
  }

  lemma MirrorLess(p: Projection, r: set<string>)
    ensures MirrorOf(p - r) == MirrorOf(p) - r
  {
  }

  /** One page changes nothing outside the IDs it names. */
  lemma PageAgrees(m: Mirror, n: Mirror, ids: set<string>, calendar: string, page: Page)
    requires AgreeOutside(m, n, ids)
    ensures AgreeOutside(MirrorBatch(m, calendar, PageBatch(page)), n, ids + Elements(PageChanges(page)))
  {
    var upserts := CachedUpserts(page.upserts);
    assert Retained(m, [], upserts) == m;
    PutEntriesOutside(m, calendar, upserts);
    var put := PutEntries(m, calendar, upserts);
    hide PutEntries;
    assert UpsertIds(page.upserts) == seq(|upserts|, i requires 0 <= i < |upserts| => upserts[i].event.id);
    forall id | exists i :: 0 <= i < |upserts| && upserts[i].event.id == id ensures id in PageChanges(page) {
      var i :| 0 <= i < |upserts| && upserts[i].event.id == id;
      assert UpsertIds(page.upserts)[i] == id;
    }
  }

  lemma {:induction false} PutEntriesOutside(m: Mirror, calendar: string, upserts: seq<CachedUpsert>)
    ensures forall id | forall i | 0 <= i < |upserts| :: upserts[i].event.id != id ::
              (id in PutEntries(m, calendar, upserts) <==> id in m) && (id in m ==> PutEntries(m, calendar, upserts)[id] == m[id])
  {
    if upserts != [] {
      PutEntriesOutside(m, calendar, upserts[..|upserts| - 1]);
    }
  }
}
