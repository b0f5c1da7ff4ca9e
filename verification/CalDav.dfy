/** Expanding a recurring CalDAV object into a window (internal/apple/recurrence_v2.go). */
module CalDav {
  import opened Base
  import opened Events

  datatype Window = Window(start: int, end: int)

  /** appleIntervalOverlaps: a zero-length event belongs to the half-open window that contains its start. */
  predicate Overlaps(start: int, end: int, w: Window)
  {
    if end == start then w.start <= start < w.end else w.start < end && start < w.end
  }

  /** An all-day interval whose time zone could move it across the window's boundary. */
  predicate Ambiguous(start: int, end: int, w: Window)
  {
    Overlaps(start, end, Window(w.start - DAY, w.end + DAY))
  }

  predicate Shares(start: int, end: int, w: Window, t: int)
  {
    w.start <= t < w.end && (start <= t < end || t == start == end)
  }

  /** An interval overlaps a window when they share an instant; an empty one counts as the instant it starts at. */
  lemma OverlapsMeans(start: int, end: int, w: Window)
    requires start <= end && w.start < w.end
    ensures Overlaps(start, end, w) <==> exists t :: Shares(start, end, w, t)
  {
    if Overlaps(start, end, w) {
      assert Shares(start, end, w, if start < w.start then w.start else start);
    }
  }

  predicate OverlapsShifted(start: int, end: int, w: Window, shift: int)
  {
    -DAY <= shift <= DAY && Overlaps(start + shift, end + shift, w)
  }

  /** An all-day interval is in doubt when some zone, at most a day away, would have it overlap the window. */
  lemma AmbiguousMeans(start: int, end: int, w: Window)
    requires start <= end && w.start < w.end
    ensures Ambiguous(start, end, w) <==> exists shift :: OverlapsShifted(start, end, w, shift)
  {
    if Ambiguous(start, end, w) {
      var least := if start == end then w.start - start else w.start - end + 1;
      var most := w.end - 1 - start;
      assert OverlapsShifted(start, end, w, if least > 0 then least else if most < 0 then most else 0);
    }
  }

  /** A component with a RECURRENCE-ID. */
  datatype Change = Change(
    range: bool, sameUid: bool, original: Option<int>, cancelled: bool, start: Option<int>, end: Option<int>, allDay: bool)
  {
    /** The replaced instance takes place inside the window. */
    predicate Inside(w: Window) { start.Some? && end.Some? && Overlaps(start.value, end.value, w) }
  }

  /** An EXDATE value: the instant it excludes and the original start it is reported under. */
  datatype ExDate = ExDate(instant: int, original: int)

  /** generated holds the instants of DTSTART, RRULE and RDATE together. */
  datatype Series = Series(
    start: int, end: int, allDay: bool, generated: int -> bool, exdates: seq<ExDate>, changes: seq<Change>)
  {
    function Duration(): int { end - start }

    predicate Excludes(t: int) { exists i | 0 <= i < |exdates| :: exdates[i].instant == t }

    predicate Reports(t: int) { exists i | 0 <= i < |exdates| :: exdates[i].original == t }

    predicate Recurs(t: int) { generated(t) && !Excludes(t) }

    /** EXDATE values have the value type of DTSTART (section 3.8.5.1 of RFC 5545). */
    predicate Matching() { forall i | 0 <= i < |exdates| :: exdates[i].instant == exdates[i].original }
  }

  type Changes = map<int, Change>

  function ChangesOf(changes: seq<Change>): Changes
    requires forall i | 0 <= i < |changes| :: changes[i].original.Some?
  {
    if changes == [] then map[]
    else
      var last := changes[|changes| - 1];
      ChangesOf(changes[..|changes| - 1])[last.original.value := last]
  }

  function OriginalsOf(changes: seq<Change>): (r: seq<Option<int>>)
    ensures |r| == |changes| && forall i | 0 <= i < |r| :: r[i] == changes[i].original
  {
    seq(|changes|, i requires 0 <= i < |changes| => changes[i].original)
  }

  predicate ValidChange(x: Change, w: Window, check: bool)
  {
    && !x.range && x.sameUid && x.original.Some?
    && (!x.cancelled ==>
          && x.start.Some? && x.end.Some? && x.start.value <= x.end.value
          && !(check && x.allDay && Ambiguous(x.start.value, x.end.value, w)))
  }

  /** The object can be expanded: its exceptions are sound and no all-day boundary is in doubt. */
  ghost predicate Expandable(s: Series, w: Window, check: bool)
  {
    && s.start <= s.end
    && (forall i | 0 <= i < |s.changes| :: ValidChange(s.changes[i], w, check))
    && Distinct(OriginalsOf(s.changes))
    && (check && s.allDay ==> forall t | s.Recurs(t) :: !Ambiguous(t, t + s.Duration(), w))
  }

  /** What the recurrence library answers for a closed range: every recurring instant, once. */
  ghost predicate IsScan(scan: seq<int>, s: Series, lo: int, hi: int)
  {
    Distinct(scan) && forall t :: t in scan <==> lo <= t <= hi && s.Recurs(t)
  }

  datatype Item = Occurrence(original: int, start: int, end: int) | Moved(original: int, start: int, end: int) | Cancelled(original: int)

  function OriginalStarts(items: seq<Item>): (r: seq<int>)
    ensures |r| == |items| && forall i | 0 <= i < |r| :: r[i] == items[i].original
  {
    seq(|items|, i requires 0 <= i < |items| => items[i].original)
  }

  // --- what must be shown --------------------------------------------------------------------

  /** The unchanged occurrence overlaps the window. */
  predicate Hits(s: Series, w: Window, t: int)
  {
    s.Recurs(t) && Overlaps(t, t + s.Duration(), w)
  }

  predicate InWindow(w: Window, t: int)
  {
    w.start <= t < w.end
  }

  /** The items the three loops add, in turn. */
  predicate ShownHit(s: Series, w: Window, x: Changes, item: Item)
  {
    && Hits(s, w, item.original)
    && if item.original !in x then item == Occurrence(item.original, item.original, item.original + s.Duration())
       else ShownChange(x[item.original], item) && (item.Cancelled? || x[item.original].Inside(w))
  }

  predicate ShownChange(change: Change, item: Item)
  {
    if change.cancelled then item.Cancelled?
    else change.start.Some? && change.end.Some? && item == Moved(item.original, change.start.value, change.end.value)
  }

  predicate ShownExcluded(s: Series, w: Window, rest: Changes, item: Item)
  {
    item.Cancelled? && s.Reports(item.original) && item.original !in rest && InWindow(w, item.original)
  }

  predicate ShownRest(w: Window, rest: Changes, item: Item)
  {
    && item.original in rest && ShownChange(rest[item.original], item)
    && (if item.Cancelled? then InWindow(w, item.original) else rest[item.original].Inside(w))
  }

  /** The changes whose original start was not hit. */
  function Rest(s: Series, w: Window, x: Changes): Changes
  {
    map t | t in x && !Hits(s, w, t) :: x[t]
  }

  predicate Shown(s: Series, w: Window, x: Changes, item: Item)
  {
    ShownHit(s, w, x, item) || ShownExcluded(s, w, Rest(s, w, x), item) || ShownRest(w, Rest(s, w, x), item)
  }

  /** An excluded instant that is reported under an original start still shown by itself. */
  predicate Clash(s: Series, w: Window, x: Changes, t: int)
  {
    s.Reports(t) && InWindow(w, t) && Hits(s, w, t) && (t in x ==> x[t].cancelled || x[t].Inside(w))
  }

  // --- the loops ---------------------------------------------------------------------------

  lemma {:induction false} ChangesKeys(changes: seq<Change>)
    requires forall i | 0 <= i < |changes| :: changes[i].original.Some?
    ensures forall t :: t in ChangesOf(changes) <==> Some(t) in OriginalsOf(changes)
    ensures forall t | t in ChangesOf(changes) :: ChangesOf(changes)[t].original == Some(t) && ChangesOf(changes)[t] in changes
  {
    if changes != [] {
      var front := changes[..|changes| - 1];
      ChangesKeys(front);
      assert OriginalsOf(changes) == OriginalsOf(front) + [changes[|changes| - 1].original];
    }
  }

  /** Reading one more component. */
  lemma ChangeRead(changes: seq<Change>, i: nat)
    requires i < |changes| && forall k | 0 <= k <= i :: changes[k].original.Some?
    ensures ChangesOf(changes[..i + 1]) == ChangesOf(changes[..i])[changes[i].original.value := changes[i]]
    ensures changes[i].original.value in ChangesOf(changes[..i]) <==> changes[i].original in OriginalsOf(changes[..i])
  {
    hide OriginalsOf;
    assert changes[..i + 1][..i] == changes[..i] && changes[..i + 1][i] == changes[i];
    var v := changes[i].original.value;
    ChangesKeys(changes[..i]);
    assert v in ChangesOf(changes[..i]) <==> Some(v) in OriginalsOf(changes[..i]);
  }

  lemma OriginalsRead(changes: seq<Change>, i: nat)
    requires i < |changes|
    ensures OriginalsOf(changes[..i + 1]) == OriginalsOf(changes[..i]) + [changes[i].original]
    ensures OriginalsOf(changes) == OriginalsOf(changes[..i + 1]) + OriginalsOf(changes)[i + 1..]
  {
    var all, part := OriginalsOf(changes), OriginalsOf(changes[..i + 1]);
    assert forall k | 0 <= k <= i :: part[k] == all[k];
    assert all[..i + 1] == part;
  }

  method ReadChanges(s: Series, w: Window, check: bool) returns (r: Option<Changes>)
    ensures r.Some? <==> (forall i | 0 <= i < |s.changes| :: ValidChange(s.changes[i], w, check)) && Distinct(OriginalsOf(s.changes))
    ensures r.Some? ==> (forall i | 0 <= i < |s.changes| :: s.changes[i].original.Some?) && r.value == ChangesOf(s.changes)
  {
    hide Ambiguous, ChangesOf, OriginalsOf, Distinct;
    var x: Changes := map[];
    NoChanges(s.changes);
    for i := 0 to |s.changes|
      invariant forall k | 0 <= k < i :: ValidChange(s.changes[k], w, check) && s.changes[k].original.Some?
      invariant Distinct(OriginalsOf(s.changes[..i])) && x == ChangesOf(s.changes[..i])
    {
      var change := s.changes[i];
      if !ValidChange(change, w, check) {
        return None;
      }
      ChangeRead(s.changes, i);
      OriginalsRead(s.changes, i);
      DistinctExtend(OriginalsOf(s.changes[..i]), change.original);
      if change.original.value in x {
        RepeatsStay(OriginalsOf(s.changes[..i + 1]), OriginalsOf(s.changes)[i + 1..]);
        return None;
      }
      x := x[change.original.value := change];
    }
    assert s.changes[..|s.changes|] == s.changes;
    return Some(x);
  }

  lemma NoChanges(changes: seq<Change>)
    ensures ChangesOf(changes[..0]) == map[] && Distinct(OriginalsOf(changes[..0]))
  {
  }

  lemma ItemAdded(items: seq<Item>, item: Item)
    requires Distinct(OriginalStarts(items)) && forall k | 0 <= k < |items| :: items[k].original != item.original
    ensures Distinct(OriginalStarts(items + [item]))
  {
    assert OriginalStarts(items + [item]) == OriginalStarts(items) + [item.original];
    DistinctExtend(OriginalStarts(items), item.original);
  }

  function ItemOf(t: int, change: Change): Item
    requires !change.cancelled ==> change.start.Some? && change.end.Some?
  {
    if change.cancelled then Cancelled(t) else Moved(t, change.start.value, change.end.value)
  }

  /** The first loop, over the scanned occurrences; it uses up the changes whose original start is hit. */
  method ScanOccurrences(s: Series, w: Window, x: Changes, scan: seq<int>) returns (items: seq<Item>, rest: Changes)
    requires s.start <= s.end && IsScan(scan, s, w.start - s.Duration(), w.end)
    requires forall t | t in x :: x[t].cancelled || (x[t].start.Some? && x[t].end.Some?)
    ensures forall item :: item in items <==> ShownHit(s, w, x, item)
    ensures Distinct(OriginalStarts(items)) && rest == Rest(s, w, x)
  {
    hide Overlaps;
    items, rest := [], x;
    for i := 0 to |scan|
      invariant forall item :: item in items <==> ShownHit(s, w, x, item) && item.original in scan[..i]
      invariant Distinct(OriginalStarts(items))
      invariant rest == map t | t in x && !(Hits(s, w, t) && t in scan[..i]) :: x[t]
    {
      var t := scan[i];
      assert scan[..i + 1] == scan[..i] + [t] && t !in scan[..i];
      assert t in scan && s.Recurs(t);
      if Overlaps(t, t + s.Duration(), w) {
        if t in rest {
          if rest[t].cancelled || rest[t].Inside(w) {
            ItemAdded(items, ItemOf(t, rest[t]));
            items := items + [ItemOf(t, rest[t])];
          }
          rest := rest - {t};
        } else {
          ItemAdded(items, Occurrence(t, t, t + s.Duration()));
          items := items + [Occurrence(t, t, t + s.Duration())];
        }
      }
    }
    assert scan[..|scan|] == scan;
    HitsScanned(s, w, scan);
  }

  /** The scan, widened by the duration, misses no overlapping occurrence. */
  lemma HitsScanned(s: Series, w: Window, scan: seq<int>)
    requires s.start <= s.end && IsScan(scan, s, w.start - s.Duration(), w.end)
    ensures forall t | Hits(s, w, t) :: t in scan
  {
  }

  function ReportedOriginals(s: Series): (r: set<int>)
    ensures forall t :: t in r <==> s.Reports(t)
  {
    set i | 0 <= i < |s.exdates| :: s.exdates[i].original
  }

  lemma Inhabited(s: set<int>)
    requires s != {}
    ensures exists t :: t in s
  {
    assert (forall t :: t !in s) ==> s == {};
  }

  /** The second loop, over the excluded original starts in any order. */
  method ReportExcluded(s: Series, w: Window, rest: Changes) returns (items: seq<Item>)
    ensures forall item :: item in items <==> ShownExcluded(s, w, rest, item)
    ensures Distinct(OriginalStarts(items))
  {
    items := [];
    var todo := ReportedOriginals(s);
    while todo != {}
      invariant todo <= ReportedOriginals(s) && Distinct(OriginalStarts(items))
      invariant forall item :: item in items <==> ShownExcluded(s, w, rest, item) && item.original !in todo
      decreases |todo|
    {
      Inhabited(todo);
      var t :| t in todo;
      todo := todo - {t};
      if t !in rest && InWindow(w, t) {
        ItemAdded(items, Cancelled(t));
        items := items + [Cancelled(t)];
      }
    }
  }

  /** The third loop, over the changes that are left, in any order. */
  method ReportRest(w: Window, rest: Changes) returns (items: seq<Item>)
    requires forall t | t in rest :: rest[t].cancelled || (rest[t].start.Some? && rest[t].end.Some?)
    ensures forall item :: item in items <==> ShownRest(w, rest, item)
    ensures Distinct(OriginalStarts(items))
  {
    items := [];
    var todo := rest.Keys;
    while todo != {}
      invariant todo <= rest.Keys && Distinct(OriginalStarts(items))
      invariant forall item :: item in items <==> ShownRest(w, rest, item) && item.original !in todo
      decreases |todo|
    {
      Inhabited(todo);
      var t :| t in todo;
      todo := todo - {t};
      if (rest[t].cancelled && InWindow(w, t)) || (!rest[t].cancelled && rest[t].Inside(w)) {
        ItemAdded(items, ItemOf(t, rest[t]));
        items := items + [ItemOf(t, rest[t])];
      }
    }
  }

  /** appleEventsFromObjectWithBoundary on a recurring object, up to the final sort by start. */
  method Expand(s: Series, w: Window, check: bool, scan: seq<int>, wide: seq<int>) returns (r: Result<seq<Item>>)
    requires IsScan(scan, s, w.start - s.Duration(), w.end)
    requires IsScan(wide, s, w.start - s.Duration() - DAY, w.end + DAY)
    ensures r.Ok? <==> Expandable(s, w, check)
    ensures r.Ok? ==> forall item :: item in r.value <==> Shown(s, w, ChangesOf(s.changes), item)
    ensures r.Ok? ==> (Distinct(OriginalStarts(r.value)) <==> forall t :: !Clash(s, w, ChangesOf(s.changes), t))
  {
    if s.end < s.start {
      return Err(Rejected);
    }
    var x := ReadChanges(s, w, check);
    if x.None? {
      return Err(Rejected);
    }
    ChangesKeys(s.changes);
    if check && s.allDay {
      for i := 0 to |wide|
        invariant forall k | 0 <= k < i :: !Ambiguous(wide[k], wide[k] + s.Duration(), w)
      {
        if Ambiguous(wide[i], wide[i] + s.Duration(), w) {
          assert wide[i] in wide && s.Recurs(wide[i]);
          return Err(Rejected);
        }
      }
      assert forall t | s.Recurs(t) && Ambiguous(t, t + s.Duration(), w) :: t in wide;
    }
    assert forall t | t in x.value :: ValidChange(x.value[t], w, check);
    var hits, rest := ScanOccurrences(s, w, x.value, scan);
    var excluded := ReportExcluded(s, w, rest);
    var others := ReportRest(w, rest);
    Combined(s, w, x.value, hits, excluded, others);
    return Ok(hits + excluded + others);
  }

  lemma Combined(s: Series, w: Window, x: Changes, hits: seq<Item>, excluded: seq<Item>, others: seq<Item>)
    requires forall item :: item in hits <==> ShownHit(s, w, x, item)
    requires forall item :: item in excluded <==> ShownExcluded(s, w, Rest(s, w, x), item)
    requires forall item :: item in others <==> ShownRest(w, Rest(s, w, x), item)
    requires Distinct(OriginalStarts(hits)) && Distinct(OriginalStarts(excluded)) && Distinct(OriginalStarts(others))
    requires forall t | t in x :: x[t].cancelled || (x[t].start.Some? && x[t].end.Some?)
    ensures forall item :: item in hits + excluded + others <==> Shown(s, w, x, item)
    ensures Distinct(OriginalStarts(hits + excluded + others)) <==> forall t :: !Clash(s, w, x, t)
  {
    var all := hits + excluded + others;
    if t :| Clash(s, w, x, t) {
      var item := if t in x then ItemOf(t, x[t]) else Occurrence(t, t, t + s.Duration());
      assert ShownHit(s, w, x, item) && ShownExcluded(s, w, Rest(s, w, x), Cancelled(t));
      assert item in hits && Cancelled(t) in excluded;
      var i :| 0 <= i < |hits| && hits[i] == item;
      var j :| 0 <= j < |excluded| && excluded[j] == Cancelled(t);
      assert OriginalStarts(all)[i] == OriginalStarts(all)[|hits| + j] == t;
    } else {
      forall i, j | 0 <= i < j < |all| ensures all[i].original != all[j].original {
        SameOriginal(s, w, x, hits, excluded, others, i, j);
      }
    }
  }

  lemma SameOriginal(s: Series, w: Window, x: Changes, hits: seq<Item>, excluded: seq<Item>, others: seq<Item>, i: nat, j: nat)
    requires forall item :: item in hits <==> ShownHit(s, w, x, item)
    requires forall item :: item in excluded <==> ShownExcluded(s, w, Rest(s, w, x), item)
    requires forall item :: item in others <==> ShownRest(w, Rest(s, w, x), item)
    requires Distinct(OriginalStarts(hits)) && Distinct(OriginalStarts(excluded)) && Distinct(OriginalStarts(others))
    requires i < j < |hits + excluded + others| && forall t :: !Clash(s, w, x, t)
    ensures (hits + excluded + others)[i].original != (hits + excluded + others)[j].original
  {
    var all := hits + excluded + others;
    var h, e := |hits|, |hits| + |excluded|;
    if i < h {
      assert all[i] in hits;
      if j < h {
        assert OriginalStarts(hits)[i] != OriginalStarts(hits)[j];
      } else if j < e {
        assert all[j] in excluded && !Clash(s, w, x, all[i].original);
      } else {
        assert all[j] in others;
      }
    } else if i < e {
      assert all[i] in excluded;
      if j < e {
        assert OriginalStarts(excluded)[i - h] != OriginalStarts(excluded)[j - h];
      } else {
        assert all[j] in others;
      }
    } else {
      assert OriginalStarts(others)[i - e] != OriginalStarts(others)[j - e];
    }
  }

  // --- what it amounts to ---------------------------------------------------------------------

  /** The instance that takes place for an original start: its exception, or the occurrence itself. */
  function Resolve(s: Series, x: Changes, t: int): Option<(int, int)>
  {
    if t in x then
      if x[t].cancelled || x[t].start.None? || x[t].end.None? then None else Some((x[t].start.value, x[t].end.value))
    else if s.generated(t) && !s.Excludes(t) then Some((t, t + (s.end - s.start)))
    else None
  }

  /** The item shows this instance as taking place. */
  predicate Shows(item: Item, t: int, start: int, end: int)
  {
    item == Occurrence(t, start, end) || item == Moved(t, start, end)
  }

  ghost predicate IsExpansion(s: Series, w: Window, items: seq<Item>)
    requires forall i | 0 <= i < |s.changes| :: s.changes[i].original.Some?
  {
    forall item :: item in items <==> Shown(s, w, ChangesOf(s.changes), item)
  }

  /**
   * The instances shown as taking place are precisely the resolved instances that overlap the window; with
   * matching value types no original start appears twice.
   */
  lemma ExpansionExact(s: Series, w: Window, items: seq<Item>)
    requires forall i | 0 <= i < |s.changes| :: s.changes[i].original.Some?
    requires IsExpansion(s, w, items)
    ensures forall t, start, end ::
              (exists item :: item in items && Shows(item, t, start, end))
              <==> Resolve(s, ChangesOf(s.changes), t) == Some((start, end)) && Overlaps(start, end, w)
    ensures s.Matching() ==> forall t :: !Clash(s, w, ChangesOf(s.changes), t)
  {
    var x := ChangesOf(s.changes);
    forall t, start, end
      ensures (exists item :: item in items && Shows(item, t, start, end))
              <==> Resolve(s, x, t) == Some((start, end)) && Overlaps(start, end, w)
    {
      InstanceShown(s, w, x, t, start, end);
      var item := if t in x then Moved(t, start, end) else Occurrence(t, start, end);
      if Resolve(s, x, t) == Some((start, end)) && Overlaps(start, end, w) {
        assert item in items && Shows(item, t, start, end);
      }
    }
  }

  lemma InstanceShown(s: Series, w: Window, x: Changes, t: int, start: int, end: int)
    ensures Resolve(s, x, t) == Some((start, end)) && Overlaps(start, end, w) ==>
              Shown(s, w, x, if t in x then Moved(t, start, end) else Occurrence(t, start, end))
    ensures (Shown(s, w, x, Moved(t, start, end)) || Shown(s, w, x, Occurrence(t, start, end))) ==>
              Resolve(s, x, t) == Some((start, end)) && Overlaps(start, end, w)
  {
  }

  /** No shown instance ends before it starts, and no exception of another object or for a range of instances is shown. */
  lemma ShownForward(s: Series, w: Window, check: bool, item: Item)
    requires Expandable(s, w, check) && (forall i | 0 <= i < |s.changes| :: s.changes[i].original.Some?)
    requires Shown(s, w, ChangesOf(s.changes), item) && !item.Cancelled?
    ensures item.start <= item.end
    ensures item.Moved? ==>
              exists x | x in s.changes :: x.original == Some(item.original) && x.sameUid && !x.range && !x.cancelled
                                           && x.start == Some(item.start) && x.end == Some(item.end)
  {
    ChangesKeys(s.changes);
    var x := ChangesOf(s.changes);
    if item.Moved? {
      assert item.original in x && x[item.original] in s.changes;
      var i :| 0 <= i < |s.changes| && s.changes[i] == x[item.original];
      assert ValidChange(s.changes[i], w, check);
    }
    hide Ambiguous, ChangesOf;
  }

  /** An EXDATE of the other value type: the day is reported as cancelled and still occurs. */
  lemma MismatchClashes()
    ensures var s, w := Series(0, DAY, true, t => t == 0, [ExDate(DAY / 2, 0)], []), Window(0, DAY);
            !s.Matching() && Clash(s, w, map[], 0)
  {
    var s := Series(0, DAY, true, t => t == 0, [ExDate(DAY / 2, 0)], []);
    assert s.exdates[0].original == 0;
  }
}
