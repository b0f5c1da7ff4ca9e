/** Occurrence identity (internal/calendarprojection/identity.go). */
module OccurrenceIdentity {
  import opened Base
  import opened Strings
  import opened Events

  const NUL := '\0'

  function MappingKey(id: string, original: string): string
  {
    id + [NUL] + original
  }

  /** The original start as text; the decimal number stands for the RFC 3339 or ISO date rendering. */
  function Canonical(t: EventTime): (s: string)
    requires !t.Malformed?
  {
    if t.AllDay? then "date:" + Itoa(t.day) else "instant:" + Itoa(t.instant)
  }

  function Identity(source: string, event: Event): Result<string>
  {
    if source == "" || NUL in source then Err(Rejected)
    else if event.calendarId != source then Err(Rejected)
    else if event.id == "" || NUL in event.id || NUL in event.seriesId then Err(Rejected)
    else if event.seriesId == "" then
      if event.originalStart.Some? then Err(Rejected)
      else Ok(MappingKey(source, MappingKey(event.id, "")))
    else if event.originalStart.None? then Err(Rejected)
    else if event.originalStart.value.Malformed? then Err(Rejected)
    else Ok(MappingKey(source, MappingKey("series:" + event.seriesId, Canonical(event.originalStart.value))))
  }

  /** The source object an identity stands for. */
  datatype SourceObject =
    | Standalone(calendar: string, id: string)
    | OccurrenceOnDate(calendar: string, series: string, day: int)
    | OccurrenceAt(calendar: string, series: string, instant: int)

  function ObjectOf(event: Event): SourceObject
  {
    if event.seriesId == "" then Standalone(event.calendarId, event.id)
    else match event.originalStart
      case Some(AllDay(day)) => OccurrenceOnDate(event.calendarId, event.seriesId, day)
      case Some(Timed(instant, _)) => OccurrenceAt(event.calendarId, event.seriesId, instant)
      case _ => Standalone(event.calendarId, event.id)
  }

  lemma CanonicalInjective(a: EventTime, b: EventTime)
    requires !a.Malformed? && !b.Malformed?
    requires Canonical(a) == Canonical(b)
    ensures a.AllDay? == b.AllDay?
    ensures a.AllDay? ==> a.day == b.day
    ensures a.Timed? ==> a.instant == b.instant
  {
    assert Canonical(a)[0] == Canonical(b)[0];
    if a.AllDay? {
      assert Canonical(a)[5..] == Itoa(a.day) && Canonical(b)[5..] == Itoa(b.day);
      ItoaInjective(a.day, b.day);
    } else {
      assert Canonical(a)[8..] == Itoa(a.instant) && Canonical(b)[8..] == Itoa(b.instant);
      ItoaInjective(a.instant, b.instant);
    }
  }

  /** Two identities are the same text exactly when they stand for the same source object. */
  lemma IdentityInjective(s1: string, e1: Event, s2: string, e2: Event)
    requires Identity(s1, e1).Ok? && Identity(s2, e2).Ok?
    ensures Identity(s1, e1) == Identity(s2, e2) <==> ObjectOf(e1) == ObjectOf(e2)
  {
    if Identity(s1, e1) == Identity(s2, e2) {
      var k1 := if e1.seriesId == "" then e1.id else "series:" + e1.seriesId;
      var k2 := if e2.seriesId == "" then e2.id else "series:" + e2.seriesId;
      var o1 := if e1.seriesId == "" then "" else Canonical(e1.originalStart.value);
      var o2 := if e2.seriesId == "" then "" else Canonical(e2.originalStart.value);
      CutAtSeparator(s1, MappingKey(k1, o1), s2, MappingKey(k2, o2), NUL);
      CutAtSeparator(k1, o1, k2, o2, NUL);
      if e1.seriesId != "" && e2.seriesId != "" {
        CanonicalInjective(e1.originalStart.value, e2.originalStart.value);
        assert k1[7..] == e1.seriesId && k2[7..] == e2.seriesId;
      }
    }
  }
}
