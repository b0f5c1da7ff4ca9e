/** Provider-neutral events and sync pages (internal/calendar). */
module Events {
  import opened Base

  const DAY := 86_400_000_000_000

  /** A date, an instant in nanoseconds, or text that neither parser accepts. */
  datatype EventTime =
    | AllDay(day: int)
    | Timed(instant: int, zone: string)
    | Malformed(raw: string)
  {
    /** EventTime.Instant: a date counts as its UTC midnight. */
    function Instant(): Option<int>
    {
      match this
      case AllDay(day) => Some(day * DAY)
      case Timed(instant, _) => Some(instant)
      case Malformed(_) => None
    }
  }

  /**
   * The fields the projection inspects, with the remaining serialised fields as one text.
   * attendeesKnown and attendeesComplete are the two fields JSON leaves out.
   */
  datatype Event = Event(
    id: string, calendarId: string, etag: string, status: string, kind: string,
    start: EventTime, end: EventTime,
    originalStart: Option<EventTime>, seriesId: string, recurrence: seq<string>,
    properties: map<string, string>, content: string,
    attendeesKnown: bool, attendeesComplete: bool)
  {
    predicate Cancelled() { status == "cancelled" || kind == "cancelled" }

    /** A series master or an event that still carries recurrence rules. */
    predicate Unexpanded() { kind == "seriesMaster" || recurrence != [] }

    /** What reading the event back from plain JSON gives. */
    function Plain(): Event { this.(attendeesKnown := false, attendeesComplete := false) }
  }

  /** ValidateEventTimeRangeV2. */
  predicate ValidRange(start: EventTime, end: EventTime)
  {
    && start.Instant().Some? && end.Instant().Some?
    && start.AllDay? == end.AllDay?
    && start.Instant().value < end.Instant().value
  }

  datatype Reason = ProviderCancellation | WindowEviction | OtherReason

  datatype Removal = Removal(
    objectId: string, reason: Reason, seriesId: string,
    originalStart: Option<EventTime>, recurrencePresent: bool)
  {
    predicate Valid() { objectId != "" && !reason.OtherReason? }
  }

  datatype Upsert = Upsert(objectId: string, etag: string, event: Event)

  datatype Warning = Warning(objectId: string, etag: string, protocol: bool)

  datatype Mode = Incremental | Replacement

  datatype Page = Page(
    timezone: string, upserts: seq<Upsert>, deletedIds: seq<string>, removals: seq<Removal>,
    deletedObjects: seq<string>, replacedObjects: seq<string>, inventory: seq<string>,
    nextToken: string, nextCursor: string, resetRequired: bool, complete: bool, warnings: seq<Warning>)

  function UpsertIds(upserts: seq<Upsert>): (ids: seq<string>)
    ensures |ids| == |upserts|
    ensures forall i | 0 <= i < |ids| :: ids[i] == upserts[i].event.id
  {
    seq(|upserts|, i requires 0 <= i < |upserts| => upserts[i].event.id)
  }

  function EventIds(events: seq<Event>): (ids: seq<string>)
    ensures |ids| == |events|
    ensures forall i | 0 <= i < |ids| :: ids[i] == events[i].id
  {
    seq(|events|, i requires 0 <= i < |events| => events[i].id)
  }

  predicate Distinct<T(==)>(s: seq<T>)
  {
    forall i, j | 0 <= i < j < |s| :: s[i] != s[j]
  }

  lemma DistinctExtend<T>(s: seq<T>, x: T)
    requires Distinct(s)
    ensures Distinct(s + [x]) <==> x !in s
  {
    var t := s + [x];
    if x in s {
      var i :| 0 <= i < |s| && s[i] == x;
      assert t[i] == t[|s|];
    }
  }

  lemma DistinctPrefix<T>(a: seq<T>, b: seq<T>)
    requires Distinct(a + b)
    ensures Distinct(a)
  {
    forall i, j | 0 <= i < j < |a| ensures a[i] != a[j] {
      assert (a + b)[i] == a[i] && (a + b)[j] == a[j];
    }
  }

  lemma RepeatsStay<T>(a: seq<T>, b: seq<T>)
    requires !Distinct(a)
    ensures !Distinct(a + b)
  {
    var i, j :| 0 <= i < j < |a| && a[i] == a[j];
    assert (a + b)[i] == (a + b)[j];
  }
}
