/** The order in which an attempt's pages arrive changes neither whether it is accepted nor what it publishes. */
module PageOrder {
  import opened Base
  import opened Strings
  import opened Events
  import opened OccurrenceIdentity
  import opened Materializer
  import opened MaterializerTheorems

  // --- lists put together in another order ------------------------------------------------------

  function Flat<A, T>(f: A -> seq<T>, parts: seq<A>): seq<T>
  {
    if parts == [] then [] else Flat(f, parts[..|parts| - 1]) + f(parts[|parts| - 1])
  }

  function Without<A>(s: seq<A>, k: nat): (r: seq<A>)
    requires k < |s|
    ensures |r| == |s| - 1
  {
    s[..k] + s[k + 1..]
  }

  lemma {:induction false} FlatWithout<A, T>(f: A -> seq<T>, parts: seq<A>, k: nat)
    requires k < |parts|
    ensures multiset(Flat(f, parts)) == multiset(Flat(f, Without(parts, k))) + multiset(f(parts[k]))
  {
    var n := |parts| - 1;
    if k == n {
      assert Without(parts, k) == parts[..n];
    } else {
      FlatWithout(f, parts[..n], k);
      var rest := Without(parts, k);
      assert rest[..|rest| - 1] == Without(parts[..n], k);
      assert rest[|rest| - 1] == parts[n];
    }
  }

  lemma WithoutOne<A>(parts: seq<A>, k: nat)
    requires k < |parts|
    ensures multiset(Without(parts, k)) == multiset(parts) - multiset{parts[k]}
  {
    assert parts == parts[..k] + [parts[k]] + parts[k + 1..];
  }

  lemma Nothing<A>(s: seq<A>)
    requires multiset(s) == multiset([])
    ensures s == []
  {
    assert |multiset(s)| == |s|;
  }

  /** Reordering the parts permutes the whole. */
  lemma {:induction false} FlatPermutes<A, T>(f: A -> seq<T>, s: seq<A>, t: seq<A>)
    requires multiset(s) == multiset(t)
    ensures multiset(Flat(f, s)) == multiset(Flat(f, t))
    decreases |s|
  {
    hide Flat, Without;
    if s == [] {
      Nothing(t);
    } else {
      assert s[0] in multiset(t);
      var k :| 0 <= k < |t| && t[k] == s[0];
      WithoutOne(s, 0);
      WithoutOne(t, k);
      FlatPermutes(f, Without(s, 0), Without(t, k));
      FlatWithout(f, s, 0);
      FlatWithout(f, t, k);
    }
  }

  lemma {:induction false} CountsOne<T>(s: seq<T>)
    ensures Distinct(s) <==> forall x :: multiset(s)[x] <= 1
  {
    if s != [] {
      var n := |s| - 1;
      assert s == s[..n] + [s[n]];
      CountsOne(s[..n]);
      if Distinct(s) {
        assert s[n] !in s[..n];
      } else if Distinct(s[..n]) {
        assert s[n] in s[..n];
        assert multiset(s)[s[n]] >= 2;
      } else {
        var x :| multiset(s[..n])[x] > 1;
        assert multiset(s)[x] > 1;
      }
    }
  }

  // --- pages without their place in the chain --------------------------------------------------

  /** A page without the flag and the tokens that give its place in the chain. */
  function Content(p: Page): Page
  {
    p.(complete := false, nextToken := "", nextCursor := "")
  }

  function Contents(pages: seq<Page>): (s: seq<Page>)
    ensures |s| == |pages| && forall i | 0 <= i < |s| :: s[i] == Content(pages[i])
  {
    seq(|pages|, i requires 0 <= i < |pages| => Content(pages[i]))
  }

  lemma ContentsFront(pages: seq<Page>)
    requires pages != []
    ensures Contents(pages)[..|pages| - 1] == Contents(pages[..|pages| - 1])
  {
  }

  lemma {:induction false} ChangesFlat(pages: seq<Page>)
    ensures Changes(pages) == Flat(PageChanges, Contents(pages))
  {
    if pages != [] {
      ChangesFlat(pages[..|pages| - 1]);
      ContentsFront(pages);
    }
  }

  function PageDelta(p: Page): seq<Delta>
  {
    [Delta(p.deletedIds, p.upserts)]
  }

  lemma {:induction false} DeltasFlat(pages: seq<Page>)
    ensures Deltas(pages) == Flat(PageDelta, Contents(pages))
  {
    if pages != [] {
      DeltasFlat(pages[..|pages| - 1]);
      ContentsFront(pages);
      assert Deltas(pages) == Deltas(pages[..|pages| - 1]) + PageDelta(pages[|pages| - 1]);
    }
  }

  function PageObservations(source: string, base: Projection): Page -> seq<Observation>
  {
    (p: Page) => ObserveIds(source, base, p.removals, p.deletedIds)
  }

  lemma {:induction false} ObservationsFlat(source: string, base: Projection, pages: seq<Page>)
    ensures Observations(source, base, pages) == Flat(PageObservations(source, base), Contents(pages))
  {
    hide ObserveIds;
    if pages != [] {
      ObservationsFlat(source, base, pages[..|pages| - 1]);
      ContentsFront(pages);
    }
  }

  /** The last page of the list, and no other, is marked complete. */
  predicate LastCompletes(pages: seq<Page>)
  {
    forall i | 0 <= i < |pages| :: pages[i].complete <==> i == |pages| - 1
  }

  lemma PagesStayValid(a: Input, b: Input, i: nat)
    requires b == a.(pages := b.pages) && multiset(Contents(a.pages)) == multiset(Contents(b.pages))
    requires LastCompletes(b.pages) && i < |b.pages|
    requires forall k | 0 <= k < |a.pages| :: ValidPage(a, k)
    ensures ValidPage(b, i)
  {
    hide ValidRemovals, FindRemoval, ValidUpsert;
    assert Contents(b.pages)[i] in multiset(Contents(a.pages));
    var k :| 0 <= k < |a.pages| && Contents(a.pages)[k] == Contents(b.pages)[i];
    assert ValidPage(a, k);
  }

  lemma SameSize(a: seq<Page>, b: seq<Page>)
    requires multiset(Contents(a)) == multiset(Contents(b))
    ensures |a| == |b|
  {
    assert |multiset(Contents(a))| == |a| && |multiset(Contents(b))| == |b|;
  }

  lemma ReorderedAccepted(a: Input, b: Input)
    requires b == a.(pages := b.pages) && multiset(Contents(a.pages)) == multiset(Contents(b.pages))
    requires LastCompletes(b.pages) && Admissible(a)
    ensures Admissible(b) && After(ById(a.base), a.pages) == After(ById(b.base), b.pages)
  {
    hide ValidPage, ValidCandidates, InWindow, Listing, After, ById, Changes, ValidBase, Distinct;
    SameSize(a.pages, b.pages);
    forall i | 0 <= i < |b.pages| ensures ValidPage(b, i) {
      PagesStayValid(a, b, i);
    }
    SameChanges(a.pages, b.pages);
    SameAfter(ById(a.base), a.pages, b.pages);
    SameBase(a, b);
  }

  lemma SameBase(a: Input, b: Input)
    requires b == a.(pages := b.pages) && a.zone.Some? && ValidBase(a)
    ensures ValidBase(b)
  {
    hide ValidCandidates, InWindow;
  }

  lemma SameChanges(p: seq<Page>, q: seq<Page>)
    requires multiset(Contents(p)) == multiset(Contents(q)) && Distinct(Changes(p))
    ensures Distinct(Changes(q)) && multiset(Deltas(p)) == multiset(Deltas(q))
  {
    hide *;
    ChangesFlat(p);
    ChangesFlat(q);
    FlatPermutes(PageChanges, Contents(p), Contents(q));
    CountsOne(Changes(p));
    CountsOne(Changes(q));
    DeltasFlat(p);
    DeltasFlat(q);
    FlatPermutes(PageDelta, Contents(p), Contents(q));
  }

  /**
   * Two attempts with the same page contents in any two orders, each ending with its one complete page, are both
   * accepted or both refused; accepted, they publish the same events and the same observations up to order.
   */
  lemma OrderIrrelevant(a: Input, b: Input)
    requires b == a.(pages := b.pages) && multiset(Contents(a.pages)) == multiset(Contents(b.pages))
    requires LastCompletes(a.pages) && LastCompletes(b.pages)
    ensures Materialize(a).Ok? <==> Materialize(b).Ok?
    ensures Materialize(a).Ok? ==> Materialize(a).value.events == Materialize(b).value.events
    ensures Materialize(a).Ok? ==> multiset(Materialize(a).value.observations) == multiset(Materialize(b).value.observations)
  {
    hide Admissible, Listing, After, ById, Observations, LastCompletes, Contents;
    assert a == b.(pages := a.pages);
    if Admissible(a) {
      ReorderedAccepted(a, b);
      SameObservations(a.source, ById(a.base), a.pages, b.pages);
    } else if Admissible(b) {
      ReorderedAccepted(b, a);
    }
  }

  lemma SameObservations(source: string, base: Projection, p: seq<Page>, q: seq<Page>)
    requires multiset(Contents(p)) == multiset(Contents(q))
    ensures multiset(Observations(source, base, p)) == multiset(Observations(source, base, q))
  {
    hide *;
    ObservationsFlat(source, base, p);
    ObservationsFlat(source, base, q);
    FlatPermutes(PageObservations(source, base), Contents(p), Contents(q));
  }
}
