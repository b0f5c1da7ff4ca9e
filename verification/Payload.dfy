/**
 * The stored envelopes of staged pages and snapshots (internal/storage/projection_payload.go).
 * JSON text is modelled by its tree: a struct's keys are its fixed field names, so only the free-form
 * property maps can carry keys that collide when letter case is ignored.
 */
module Payload {
  import opened Base
  import opened Strings
  import opened Events

  datatype Json =
    | Null
    | Text(s: string)
    | Flag(b: bool)
    | Number(n: int)
    | When(t: EventTime)
    | List(items: seq<Json>)
    | Struct(fields: seq<Json>)
    | Dict(members: seq<(string, string)>)

  /** A length for the size limits: one unit a node, plus the text it carries. */
  function Size(j: Json): (n: nat)
    ensures n > 0
    decreases j, 1
  {
    match j
    case Text(s) => 1 + |s|
    case List(items) => 1 + SizeAll(items)
    case Struct(fields) => 1 + SizeAll(fields)
    case Dict(members) => 1 + |members|
    case _ => 1
  }

  function SizeAll(items: seq<Json>): nat
    decreases items, 0
  {
    if items == [] then 0 else Size(items[0]) + SizeAll(items[1..])
  }

  // --- the duplicate-key walk -------------------------------------------------

  function FoldedKeys(members: seq<(string, string)>): (r: seq<string>)
    ensures |r| == |members|
    ensures forall i | 0 <= i < |r| :: r[i] == ToLower(members[i].0)
  {
    seq(|members|, i requires 0 <= i < |members| => ToLower(members[i].0))
  }

  /** rejectProjectionDuplicateKeys accepts the value. */
  predicate DuplicateFree(j: Json)
    decreases j, 1
  {
    match j
    case List(items) => AllDuplicateFree(items)
    case Struct(fields) => AllDuplicateFree(fields)
    case Dict(members) => Distinct(FoldedKeys(members))
    case _ => true
  }

  predicate AllDuplicateFree(items: seq<Json>)
    decreases items, 0
  {
    items == [] || (DuplicateFree(items[0]) && AllDuplicateFree(items[1..]))
  }

  // --- lists and maps -----------------------------------------------------------

  function EncodeAll<T>(xs: seq<T>, enc: T -> Json): (r: seq<Json>)
    ensures |r| == |xs|
  {
    if xs == [] then [] else [enc(xs[0])] + EncodeAll(xs[1..], enc)
  }

  function DecodeAll<T>(items: seq<Json>, dec: Json -> Option<T>): Option<seq<T>>
  {
    if items == [] then Some([])
    else
      var head := dec(items[0]);
      var rest := DecodeAll(items[1..], dec);
      if head.None? || rest.None? then None else Some([head.value] + rest.value)
  }

  function DecodeList<T>(j: Json, dec: Json -> Option<T>): Option<seq<T>>
  {
    if j.List? then DecodeAll(j.items, dec) else None
  }

  function MapAll<T, U>(xs: seq<T>, f: T -> U): (r: seq<U>)
    ensures |r| == |xs|
    ensures forall i | 0 <= i < |xs| :: r[i] == f(xs[i])
  {
    if xs == [] then [] else [f(xs[0])] + MapAll(xs[1..], f)
  }

  /** A codec that restores each element up to norm restores a list up to norm. */
  lemma {:induction false} ListRoundTrip<T(!new)>(xs: seq<T>, enc: T -> Json, dec: Json -> Option<T>, norm: T -> T)
    requires forall x :: dec(enc(x)) == Some(norm(x))
    ensures DecodeAll(EncodeAll(xs, enc), dec) == Some(MapAll(xs, norm))
  {
    if xs != [] {
      ListRoundTrip(xs[1..], enc, dec, norm);
      assert EncodeAll(xs, enc)[1..] == EncodeAll(xs[1..], enc);
    }
  }

  lemma {:induction false} ListDuplicateFree<T(!new)>(xs: seq<T>, enc: T -> Json)
    ensures AllDuplicateFree(EncodeAll(xs, enc)) <==> forall i | 0 <= i < |xs| :: DuplicateFree(enc(xs[i]))
  {
    if xs != [] {
      ListDuplicateFree(xs[1..], enc);
      assert EncodeAll(xs, enc)[1..] == EncodeAll(xs[1..], enc);
      assert forall i | 0 < i < |xs| :: xs[i] == xs[1..][i - 1];
    }
  }

  /** A Go map marshals with its keys sorted. */
  function Members(m: map<string, string>): (r: seq<(string, string)>)
  {
    var keys := Sorted(m.Keys);
    assert forall i | 0 <= i < |keys| :: keys[i] in Elements(keys);
    seq(|keys|, i requires 0 <= i < |keys| => (keys[i], m[keys[i]]))
  }

  function FromMembers(members: seq<(string, string)>): map<string, string>
  {
    if members == [] then map[]
    else
      var last := members[|members| - 1];
      FromMembers(members[..|members| - 1])[last.0 := last.1]
  }

  lemma {:induction false} FromMembersOf(m: map<string, string>, members: seq<(string, string)>, keys: seq<string>)
    requires |members| == |keys| && Distinct(keys)
    requires forall i | 0 <= i < |keys| :: keys[i] in m && members[i] == (keys[i], m[keys[i]])
    ensures FromMembers(members) == map k | k in m && k in keys :: m[k]
  {
    if members != [] {
      var n := |members| - 1;
      assert forall i, j | 0 <= i < j < n :: keys[..n][i] == keys[i] && keys[..n][j] == keys[j];
      FromMembersOf(m, members[..n], keys[..n]);
      assert keys == keys[..n] + [keys[n]];
    }
  }

  lemma MapRoundTrip(m: map<string, string>)
    ensures FromMembers(Members(m)) == m
  {
    hide Leq;
    var keys := Sorted(m.Keys);
    assert forall i | 0 <= i < |keys| :: keys[i] in Elements(keys);
    FromMembersOf(m, Members(m), keys);
    assert forall k | k in m :: k in Elements(keys);
  }

  /** No two keys of the map differ only by letter case. */
  predicate NoCaseCollision(m: map<string, string>)
  {
    forall a, b | a in m && b in m && a != b :: ToLower(a) != ToLower(b)
  }

  lemma KeyAt(m: map<string, string>, a: string) returns (i: nat)
    requires a in m
    ensures i < |Members(m)| && Members(m)[i].0 == a
  {
    var keys := Sorted(m.Keys);
    hide Sorted, Leq;
    assert a in Elements(keys);
    i :| 0 <= i < |keys| && keys[i] == a;
  }

  lemma MembersDuplicateFree(m: map<string, string>)
    ensures Distinct(FoldedKeys(Members(m))) <==> NoCaseCollision(m)
  {
    if Distinct(FoldedKeys(Members(m))) {
      hide Members, ToLower;
      forall a, b | a in m && b in m && a != b ensures ToLower(a) != ToLower(b) {
        var i := KeyAt(m, a);
        var j := KeyAt(m, b);
        assert FoldedKeys(Members(m))[i] != FoldedKeys(Members(m))[j];
      }
    }
    if NoCaseCollision(m) {
      MembersKeys(m);
      hide Members, ToLower;
      forall i, j | 0 <= i < j < |Members(m)| ensures FoldedKeys(Members(m))[i] != FoldedKeys(Members(m))[j] {
        assert Members(m)[i].0 != Members(m)[j].0;
      }
    }
  }

  lemma MembersKeys(m: map<string, string>)
    ensures forall i | 0 <= i < |Members(m)| :: Members(m)[i].0 in m
    ensures forall i, j | 0 <= i < j < |Members(m)| :: Members(m)[i].0 != Members(m)[j].0
  {
    var keys := Sorted(m.Keys);
    hide Sorted, Leq;
    assert forall i | 0 <= i < |keys| :: keys[i] in Elements(keys);
  }

  // --- events and pages ---------------------------------------------------------

  function EncodeTime(t: Option<EventTime>): Json
  {
    if t.None? then Null else When(t.value)
  }

  function DecodeTime(j: Json): Option<Option<EventTime>>
  {
    match j
    case Null => Some(None)
    case When(t) => Some(Some(t))
    case _ => None
  }

  function EncodeText(s: string): Json { Text(s) }

  function DecodeText(j: Json): Option<string>
  {
    if j.Text? then Some(j.s) else None
  }

  /** json.Marshal of an event; the two attendee flags have no JSON form. */
  function EncodeEvent(e: Event): Json
  {
    Struct([Text(e.id), Text(e.calendarId), Text(e.etag), Text(e.status), Text(e.kind),
            When(e.start), When(e.end), EncodeTime(e.originalStart), Text(e.seriesId),
            List(EncodeAll(e.recurrence, EncodeText)), Dict(Members(e.properties)), Text(e.content)])
  }

  function DecodeEvent(j: Json): Option<Event>
  {
    if j.Struct? && |j.fields| == 12
       && j.fields[0].Text? && j.fields[1].Text? && j.fields[2].Text? && j.fields[3].Text? && j.fields[4].Text?
       && j.fields[5].When? && j.fields[6].When? && DecodeTime(j.fields[7]).Some? && j.fields[8].Text?
       && DecodeList(j.fields[9], DecodeText).Some? && j.fields[10].Dict? && j.fields[11].Text? then
      Some(Event(j.fields[0].s, j.fields[1].s, j.fields[2].s, j.fields[3].s, j.fields[4].s,
                 j.fields[5].t, j.fields[6].t, DecodeTime(j.fields[7]).value, j.fields[8].s,
                 DecodeList(j.fields[9], DecodeText).value, FromMembers(j.fields[10].members), j.fields[11].s,
                 false, false))
    else None
  }

  lemma EventRoundTrip(e: Event)
    ensures DecodeEvent(EncodeEvent(e)) == Some(e.Plain())
  {
    hide Members, FromMembers;
    TextsRoundTrip(e.recurrence);
    MapRoundTrip(e.properties);
  }

  lemma EventDuplicateFree(e: Event)
    ensures DuplicateFree(EncodeEvent(e)) <==> NoCaseCollision(e.properties)
  {
    hide Members, NoCaseCollision, FoldedKeys, AllDuplicateFree, EncodeAll, Distinct;
    MembersDuplicateFree(e.properties);
    ListDuplicateFree(e.recurrence, EncodeText);
    var fields := EncodeEvent(e).fields;
    UnfoldFree(fields, 12);
    assert DuplicateFree(fields[9]) == AllDuplicateFree(EncodeAll(e.recurrence, EncodeText));
    assert DuplicateFree(fields[10]) == Distinct(FoldedKeys(Members(e.properties)));
    assert DuplicateFree(fields[0]) && DuplicateFree(fields[1]) && DuplicateFree(fields[2]) && DuplicateFree(fields[3])
        && DuplicateFree(fields[4]) && DuplicateFree(fields[5]) && DuplicateFree(fields[6]) && DuplicateFree(fields[7])
        && DuplicateFree(fields[8]) && DuplicateFree(fields[11]);
  }

  /** The walk over a sequence is the walk over each element. */
  lemma {:induction false} UnfoldFree(items: seq<Json>, n: nat)
    requires n == |items|
    ensures AllDuplicateFree(items) <==> forall i | 0 <= i < n :: DuplicateFree(items[i])
    decreases n
  {
    if n > 0 {
      UnfoldFree(items[1..], n - 1);
      assert forall i | 0 < i < n :: items[i] == items[1..][i - 1];
    }
  }

  function EncodeReason(r: Reason): Json
  {
    match r case ProviderCancellation => Number(1) case WindowEviction => Number(2) case OtherReason => Number(3)
  }

  function DecodeReason(j: Json): Option<Reason>
  {
    if j == Number(1) then Some(ProviderCancellation)
    else if j == Number(2) then Some(WindowEviction)
    else if j == Number(3) then Some(OtherReason)
    else None
  }

  function EncodeRemoval(r: Removal): Json
  {
    Struct([Text(r.objectId), EncodeReason(r.reason), Text(r.seriesId), EncodeTime(r.originalStart),
            Flag(r.recurrencePresent)])
  }

  function DecodeRemoval(j: Json): Option<Removal>
  {
    if j.Struct? && |j.fields| == 5 && j.fields[0].Text? && DecodeReason(j.fields[1]).Some?
       && j.fields[2].Text? && DecodeTime(j.fields[3]).Some? && j.fields[4].Flag? then
      Some(Removal(j.fields[0].s, DecodeReason(j.fields[1]).value, j.fields[2].s,
                   DecodeTime(j.fields[3]).value, j.fields[4].b))
    else None
  }

  function EncodeUpsert(u: Upsert): Json
  {
    Struct([Text(u.objectId), Text(u.etag), EncodeEvent(u.event)])
  }

  function DecodeUpsert(j: Json): Option<Upsert>
  {
    if j.Struct? && |j.fields| == 3 && j.fields[0].Text? && j.fields[1].Text? && DecodeEvent(j.fields[2]).Some? then
      Some(Upsert(j.fields[0].s, j.fields[1].s, DecodeEvent(j.fields[2]).value))
    else None
  }

  function EncodeWarning(w: Warning): Json
  {
    Struct([Text(w.objectId), Text(w.etag), Flag(w.protocol)])
  }

  function DecodeWarning(j: Json): Option<Warning>
  {
    if j.Struct? && |j.fields| == 3 && j.fields[0].Text? && j.fields[1].Text? && j.fields[2].Flag? then
      Some(Warning(j.fields[0].s, j.fields[1].s, j.fields[2].b))
    else None
  }

  function EncodePage(p: Page): Json
  {
    Struct([Text(p.timezone), List(EncodeAll(p.upserts, EncodeUpsert)), List(EncodeAll(p.deletedIds, EncodeText)),
            List(EncodeAll(p.removals, EncodeRemoval)), List(EncodeAll(p.deletedObjects, EncodeText)),
            List(EncodeAll(p.replacedObjects, EncodeText)), List(EncodeAll(p.inventory, EncodeText)),
            Text(p.nextToken), Text(p.nextCursor), Flag(p.resetRequired), Flag(p.complete),
            List(EncodeAll(p.warnings, EncodeWarning))])
  }

  function DecodePage(j: Json): Option<Page>
  {
    if j.Struct? && |j.fields| == 12 && j.fields[0].Text? && j.fields[7].Text? && j.fields[8].Text?
       && j.fields[9].Flag? && j.fields[10].Flag? then
      var f := j.fields;
      var upserts, deleted, removals := DecodeList(f[1], DecodeUpsert), DecodeList(f[2], DecodeText), DecodeList(f[3], DecodeRemoval);
      var objects, replaced, inventory := DecodeList(f[4], DecodeText), DecodeList(f[5], DecodeText), DecodeList(f[6], DecodeText);
      var warnings := DecodeList(f[11], DecodeWarning);
      if upserts.None? || deleted.None? || removals.None? || objects.None? || replaced.None? || inventory.None? || warnings.None? then None
      else Some(Page(f[0].s, upserts.value, deleted.value, removals.value, objects.value, replaced.value,
                     inventory.value, f[7].s, f[8].s, f[9].b, f[10].b, warnings.value))
    else None
  }

  function PlainUpsert(u: Upsert): Upsert
  {
    u.(event := u.event.Plain())
  }

  lemma MapAllIdentity<T(!new)>(xs: seq<T>, f: T -> T)
    requires forall x :: f(x) == x
    ensures MapAll(xs, f) == xs
  {
  }

  lemma TextsRoundTrip(xs: seq<string>)
    ensures DecodeAll(EncodeAll(xs, EncodeText), DecodeText) == Some(xs)
  {
    var same := (s: string) => s;
    ListRoundTrip(xs, EncodeText, DecodeText, same);
    MapAllIdentity(xs, same);
  }

  lemma RemovalsRoundTrip(xs: seq<Removal>)
    ensures DecodeAll(EncodeAll(xs, EncodeRemoval), DecodeRemoval) == Some(xs)
  {
    hide EncodeAll, DecodeAll;
    forall x: Removal ensures DecodeRemoval(EncodeRemoval(x)) == Some(x) {
    }
    hide EncodeRemoval, DecodeRemoval;
    var same := (x: Removal) => x;
    ListRoundTrip(xs, EncodeRemoval, DecodeRemoval, same);
    MapAllIdentity(xs, same);
  }

  lemma WarningsRoundTrip(xs: seq<Warning>)
    ensures DecodeAll(EncodeAll(xs, EncodeWarning), DecodeWarning) == Some(xs)
  {
    var same := (x: Warning) => x;
    ListRoundTrip(xs, EncodeWarning, DecodeWarning, same);
    MapAllIdentity(xs, same);
  }

  lemma UpsertsRoundTrip(xs: seq<Upsert>)
    ensures DecodeAll(EncodeAll(xs, EncodeUpsert), DecodeUpsert) == Some(MapAll(xs, PlainUpsert))
  {
    hide EncodeEvent, DecodeEvent;
    forall u: Upsert ensures DecodeUpsert(EncodeUpsert(u)) == Some(PlainUpsert(u)) {
      EventRoundTrip(u.event);
    }
    ListRoundTrip(xs, EncodeUpsert, DecodeUpsert, PlainUpsert);
  }

  lemma PageRoundTrip(p: Page)
    ensures DecodePage(EncodePage(p)) == Some(p.(upserts := MapAll(p.upserts, PlainUpsert)))
  {
    hide EncodeAll, DecodeAll, MapAll, EncodeUpsert, DecodeUpsert;
    UpsertsRoundTrip(p.upserts);
    TextsRoundTrip(p.deletedIds);
    RemovalsRoundTrip(p.removals);
    TextsRoundTrip(p.deletedObjects);
    TextsRoundTrip(p.replacedObjects);
    TextsRoundTrip(p.inventory);
    WarningsRoundTrip(p.warnings);
  }

  predicate NoCollisions(upserts: seq<Upsert>)
  {
    forall i | 0 <= i < |upserts| :: NoCaseCollision(upserts[i].event.properties)
  }

  lemma UpsertsDuplicateFree(xs: seq<Upsert>)
    ensures AllDuplicateFree(EncodeAll(xs, EncodeUpsert)) <==> NoCollisions(xs)
  {
    hide EncodeEvent, NoCaseCollision;
    ListDuplicateFree(xs, EncodeUpsert);
    forall i | 0 <= i < |xs| ensures DuplicateFree(EncodeUpsert(xs[i])) <==> NoCaseCollision(xs[i].event.properties) {
      EventDuplicateFree(xs[i].event);
      var fields := EncodeUpsert(xs[i]).fields;
      UnfoldFree(fields, 3);
      assert DuplicateFree(fields[2]) == NoCaseCollision(xs[i].event.properties);
    }
  }

  lemma PageDuplicateFree(p: Page)
    ensures DuplicateFree(EncodePage(p)) <==> NoCollisions(p.upserts)
  {
    hide EncodeAll, EncodeUpsert, EncodeText, EncodeRemoval, EncodeWarning, NoCollisions, AllDuplicateFree;
    UpsertsDuplicateFree(p.upserts);
    TextsFree(p.deletedIds);
    RemovalsFree(p.removals);
    TextsFree(p.deletedObjects);
    TextsFree(p.replacedObjects);
    TextsFree(p.inventory);
    WarningsFree(p.warnings);
    var fields := EncodePage(p).fields;
    UnfoldFree(fields, 12);
    assert DuplicateFree(fields[1]) == NoCollisions(p.upserts);
    assert DuplicateFree(fields[0]) && DuplicateFree(fields[2]) && DuplicateFree(fields[3]) && DuplicateFree(fields[4])
        && DuplicateFree(fields[5]) && DuplicateFree(fields[6]) && DuplicateFree(fields[7]) && DuplicateFree(fields[8])
        && DuplicateFree(fields[9]) && DuplicateFree(fields[10]) && DuplicateFree(fields[11]);
  }

  lemma TextsFree(xs: seq<string>)
    ensures AllDuplicateFree(EncodeAll(xs, EncodeText))
  {
    ListDuplicateFree(xs, EncodeText);
  }

  lemma RemovalsFree(xs: seq<Removal>)
    ensures AllDuplicateFree(EncodeAll(xs, EncodeRemoval))
  {
    ListDuplicateFree(xs, EncodeRemoval);
    forall i | 0 <= i < |xs| ensures DuplicateFree(EncodeRemoval(xs[i])) {
      UnfoldFree(EncodeRemoval(xs[i]).fields, 5);
    }
  }

  lemma WarningsFree(xs: seq<Warning>)
    ensures AllDuplicateFree(EncodeAll(xs, EncodeWarning))
  {
    ListDuplicateFree(xs, EncodeWarning);
    forall i | 0 <= i < |xs| ensures DuplicateFree(EncodeWarning(xs[i])) {
      UnfoldFree(EncodeWarning(xs[i]).fields, 3);
    }
  }

  // --- attendee evidence ----------------------------------------------------------

  datatype Evidence = Evidence(eventId: string, complete: bool)

  function EncodeEvidence(v: Evidence): Json
  {
    Struct([Text(v.eventId), Flag(v.complete)])
  }

  function DecodeEvidence(j: Json): Option<Evidence>
  {
    if j.Struct? && |j.fields| == 2 && j.fields[0].Text? && j.fields[1].Flag? then
      Some(Evidence(j.fields[0].s, j.fields[1].b))
    else None
  }

  predicate OwnEvents(events: seq<Event>, source: string)
  {
    && source != ""
    && (forall i | 0 <= i < |events| :: events[i].id != "" && events[i].calendarId == source)
    && Distinct(EventIds(events))
  }

  function EvidenceOf(events: seq<Event>): (r: seq<Evidence>)
    ensures |r| == |events|
    ensures forall i | 0 <= i < |r| :: r[i] == Evidence(events[i].id, events[i].attendeesComplete)
  {
    seq(|events|, i requires 0 <= i < |events| => Evidence(events[i].id, events[i].attendeesComplete))
  }

  function EvidenceIds(evidence: seq<Evidence>): (ids: seq<string>)
    ensures |ids| == |evidence|
    ensures forall i | 0 <= i < |ids| :: ids[i] == evidence[i].eventId
  {
    seq(|evidence|, i requires 0 <= i < |evidence| => evidence[i].eventId)
  }

  function Lookup(evidence: seq<Evidence>, id: string): Option<bool>
  {
    if evidence == [] then None
    else if evidence[|evidence| - 1].eventId == id then Some(evidence[|evidence| - 1].complete)
    else Lookup(evidence[..|evidence| - 1], id)
  }

  predicate ValidEvidence(events: seq<Event>, evidence: seq<Evidence>, source: string)
  {
    && |evidence| == |events| && OwnEvents(events, source)
    && (forall i | 0 <= i < |evidence| :: evidence[i].eventId != "")
    && Distinct(EvidenceIds(evidence))
    && (forall i | 0 <= i < |events| :: Lookup(evidence, events[i].id).Some?)
  }

  function Restored(events: seq<Event>, evidence: seq<Evidence>): (r: seq<Event>)
    requires forall i | 0 <= i < |events| :: Lookup(evidence, events[i].id).Some?
    ensures |r| == |events|
  {
    seq(|events|, i requires 0 <= i < |events| =>
      events[i].(attendeesComplete := Lookup(evidence, events[i].id).value))
  }

  /** projectionEvidence on the events: named, owned by the source, no ID twice. */
  method CheckOwned(events: seq<Event>, source: string) returns (ok: bool)
    ensures ok <==> OwnEvents(events, source)
  {
    if source == "" {
      return false;
    }
    var seen: set<string> := {};
    ghost var ids := EventIds(events);
    for i := 0 to |events|
      invariant forall k | 0 <= k < i :: events[k].id != "" && events[k].calendarId == source
      invariant Distinct(ids[..i]) && seen == Elements(ids[..i])
    {
      DistinctExtend(ids[..i], ids[i]);
      assert ids[..i + 1] == ids[..i] + [ids[i]];
      if events[i].id == "" || events[i].calendarId != source || events[i].id in seen {
        assert ids == ids[..i + 1] + ids[i + 1..];
        if events[i].id in seen {
          RepeatsStay(ids[..i + 1], ids[i + 1..]);
        }
        return false;
      }
      seen := seen + {events[i].id};
    }
    assert ids[..|ids|] == ids;
    return true;
  }

  predicate SoundEvidence(evidence: seq<Evidence>)
  {
    (forall i | 0 <= i < |evidence| :: evidence[i].eventId != "") && Distinct(EvidenceIds(evidence))
  }

  /** The map holds what a lookup in these entries finds. */
  predicate Indexes(byId: map<string, bool>, evidence: seq<Evidence>)
  {
    && (forall id | id in byId :: Lookup(evidence, id) == Some(byId[id]))
    && (forall i | 0 <= i < |evidence| :: evidence[i].eventId in byId)
  }

  lemma {:induction false} LookupListed(evidence: seq<Evidence>, id: string)
    ensures Lookup(evidence, id).Some? <==> id in EvidenceIds(evidence)
  {
    if evidence != [] {
      var n := |evidence| - 1;
      LookupListed(evidence[..n], id);
      assert EvidenceIds(evidence) == EvidenceIds(evidence[..n]) + [evidence[n].eventId];
    }
  }

  lemma IndexesAppend(byId: map<string, bool>, evidence: seq<Evidence>, item: Evidence)
    requires Indexes(byId, evidence) && item.eventId !in byId
    ensures Indexes(byId[item.eventId := item.complete], evidence + [item])
  {
    assert (evidence + [item])[..|evidence|] == evidence;
  }

  lemma NoneIndexed()
    ensures Indexes(map[], []) && forall ids: seq<string> :: Distinct(ids[..0])
  {
  }

  /** The map of the evidence, unless an entry is unnamed or repeated. */
  method IndexEvidence(evidence: seq<Evidence>) returns (ok: bool, byId: map<string, bool>)
    ensures ok <==> SoundEvidence(evidence)
    ensures ok ==> Indexes(byId, evidence)
  {
    hide Lookup, Indexes, Distinct;
    byId := map[];
    NoneIndexed();
    ghost var ids := EvidenceIds(evidence);
    for i := 0 to |evidence|
      invariant forall k | 0 <= k < i :: evidence[k].eventId != ""
      invariant Distinct(ids[..i]) && byId.Keys == Elements(ids[..i])
      invariant Indexes(byId, evidence[..i])
    {
      var item := evidence[i];
      DistinctExtend(ids[..i], ids[i]);
      assert ids[..i + 1] == ids[..i] + [ids[i]];
      if item.eventId == "" || item.eventId in byId {
        assert ids == ids[..i + 1] + ids[i + 1..];
        if item.eventId in byId {
          RepeatsStay(ids[..i + 1], ids[i + 1..]);
        }
        return false, byId;
      }
      IndexesAppend(byId, evidence[..i], item);
      assert evidence[..i + 1] == evidence[..i] + [item];
      byId := byId[item.eventId := item.complete];
    }
    assert ids[..|ids|] == ids && evidence[..|evidence|] == evidence;
    ok := true;
  }

  /** The flags of the first n events are restored, the other events as they were. */
  predicate RestoredUpTo(before: seq<Event>, evidence: seq<Evidence>, n: nat, after: seq<Event>)
  {
    && |after| == |before| && n <= |before| && after[n..] == before[n..]
    && forall k | 0 <= k < n ::
         Lookup(evidence, before[k].id).Some? && after[k] == before[k].(attendeesComplete := Lookup(evidence, before[k].id).value)
  }

  /**
   * restoreProjectionEvidence writes each flag into the event slice. It fails without a write when lengths, events or
   * evidence are malformed; when an event has no evidence, the flags of the events before it are already written.
   */
  method RestoreEvidence(events: array<Event>, evidence: seq<Evidence>, source: string) returns (ok: bool)
    modifies events
    ensures ok <==> ValidEvidence(old(events[..]), evidence, source)
    ensures ok ==> events[..] == Restored(old(events[..]), evidence)
    ensures !ok ==>
              if |evidence| == events.Length && OwnEvents(old(events[..]), source) && SoundEvidence(evidence)
              then exists n: nat :: n < events.Length && Lookup(evidence, old(events[..])[n].id).None?
                                    && RestoredUpTo(old(events[..]), evidence, n, events[..])
              else events[..] == old(events[..])
  {
    hide Lookup, OwnEvents, Distinct;
    ghost var before := events[..];
    if |evidence| != events.Length {
      return false;
    }
    var owned := CheckOwned(events[..], source);
    if !owned {
      return false;
    }
    var sound, byId := IndexEvidence(evidence);
    if !sound {
      return false;
    }
    for i := 0 to events.Length
      invariant RestoredUpTo(before, evidence, i, events[..])
    {
      assert events[..][i] == before[i];
      LookupListed(evidence, events[i].id);
      if events[i].id !in byId {
        return false;
      }
      events[i] := events[i].(attendeesComplete := byId[events[i].id]);
    }
    assert events[..] == Restored(before, evidence);
    return true;
  }

  // --- the two envelopes ------------------------------------------------------------

  const PAGE_SIZE_LIMIT := 33554432
  const SNAPSHOT_SIZE_LIMIT := 33554432

  function PageEvents(p: Page): (r: seq<Event>)
    ensures |r| == |p.upserts|
    ensures forall i | 0 <= i < |r| :: r[i] == p.upserts[i].event
  {
    seq(|p.upserts|, i requires 0 <= i < |p.upserts| => p.upserts[i].event)
  }

  function Envelope(body: Json, evidence: seq<Evidence>): Json
  {
    Struct([Number(1), body, List(EncodeAll(evidence, EncodeEvidence))])
  }

  function EncodePagePayload(p: Page, source: string): (r: Result<Json>)
  {
    if OwnEvents(PageEvents(p), source) then Ok(Envelope(EncodePage(p), EvidenceOf(PageEvents(p))))
    else Err(PageStage)
  }

  /** decodeProjectionPayload and the envelope's own shape. */
  function OpenEnvelope(j: Json, limit: nat): Option<(Json, seq<Evidence>)>
  {
    if Size(j) <= limit && DuplicateFree(j) && j.Struct? && |j.fields| == 3 && j.fields[0] == Number(1)
       && DecodeList(j.fields[2], DecodeEvidence).Some? then
      Some((j.fields[1], DecodeList(j.fields[2], DecodeEvidence).value))
    else None
  }

  function WithEvents(upserts: seq<Upsert>, events: seq<Event>): (r: seq<Upsert>)
    requires |events| == |upserts|
    ensures |r| == |upserts|
    ensures forall i | 0 <= i < |r| :: r[i] == upserts[i].(event := events[i])
  {
    seq(|upserts|, i requires 0 <= i < |upserts| => upserts[i].(event := events[i]))
  }

  predicate BarePage(p: Page)
  {
    && p.nextToken == "" && p.nextCursor == "" && !p.resetRequired && p.warnings == []
    && (forall i | 0 <= i < |p.upserts| :: p.upserts[i].objectId == p.upserts[i].event.id)
  }

  function DecodePagePayload(j: Json, source: string): (r: Result<Page>)
  {
    var envelope := OpenEnvelope(j, PAGE_SIZE_LIMIT);
    if envelope.None? then Err(PageStage) else
    var page := DecodePage(envelope.value.0);
    if page.None? || !BarePage(page.value)
       || !ValidEvidence(PageEvents(page.value), envelope.value.1, source) then Err(PageStage)
    else Ok(page.value.(upserts := WithEvents(page.value.upserts, Restored(PageEvents(page.value), envelope.value.1))))
  }

  function EncodeSnapshotPayload(events: seq<Event>, source: string): (r: Result<Json>)
  {
    if OwnEvents(events, source) then
      Ok(Envelope(List(EncodeAll(events, EncodeEvent)), EvidenceOf(events)))
    else Err(PageStage)
  }

  function DecodeSnapshotPayload(j: Json, source: string): (r: Result<seq<Event>>)
  {
    var envelope := OpenEnvelope(j, SNAPSHOT_SIZE_LIMIT);
    if envelope.None? then Err(PageStage) else
    var events := DecodeList(envelope.value.0, DecodeEvent);
    if events.None? || !ValidEvidence(events.value, envelope.value.1, source) then Err(PageStage)
    else Ok(Restored(events.value, envelope.value.1))
  }

  // --- what reading back gives -------------------------------------------------------

  /** A stored event keeps its attendee completeness but loses the other unserialised flag. */
  function Reread(e: Event): Event
  {
    e.(attendeesKnown := false)
  }

  lemma {:induction false} LookupOwn(events: seq<Event>, i: nat)
    requires i < |events| && Distinct(EventIds(events))
    ensures Lookup(EvidenceOf(events), events[i].id) == Some(events[i].attendeesComplete)
  {
    hide EvidenceOf, EventIds;
    var n := |events| - 1;
    var front := events[..n];
    forall k | 0 <= k < n ensures EvidenceOf(events)[..n][k] == EvidenceOf(front)[k] {
      assert front[k] == events[k];
    }
    assert EvidenceOf(events)[..n] == EvidenceOf(front);
    if i < n {
      assert EventIds(events)[i] != EventIds(events)[n];
      assert EventIds(front) == EventIds(events)[..n];
      LookupOwn(front, i);
    }
  }

  lemma EvidenceRestores(events: seq<Event>, source: string)
    requires OwnEvents(events, source)
    ensures var plain := MapAll(events, (e: Event) => e.Plain());
            && ValidEvidence(plain, EvidenceOf(events), source)
            && Restored(plain, EvidenceOf(events)) == MapAll(events, Reread)
  {
    hide Lookup;
    var plain := MapAll(events, (e: Event) => e.Plain());
    forall i | 0 <= i < |events| ensures Lookup(EvidenceOf(events), plain[i].id) == Some(events[i].attendeesComplete) {
      LookupOwn(events, i);
    }
    assert EventIds(plain) == EventIds(events) == EvidenceIds(EvidenceOf(events));
  }

  lemma EvidenceListRoundTrip(evidence: seq<Evidence>)
    ensures DecodeAll(EncodeAll(evidence, EncodeEvidence), DecodeEvidence) == Some(evidence)
    ensures AllDuplicateFree(EncodeAll(evidence, EncodeEvidence))
  {
    var same := (v: Evidence) => v;
    ListRoundTrip(evidence, EncodeEvidence, DecodeEvidence, same);
    MapAllIdentity(evidence, same);
    ListDuplicateFree(evidence, EncodeEvidence);
    forall i | 0 <= i < |evidence| ensures DuplicateFree(EncodeEvidence(evidence[i])) {
      UnfoldFree(EncodeEvidence(evidence[i]).fields, 2);
    }
  }

  lemma EnvelopeOpens(body: Json, evidence: seq<Evidence>, limit: nat)
    ensures OpenEnvelope(Envelope(body, evidence), limit)
         == if Size(Envelope(body, evidence)) <= limit && DuplicateFree(body) then Some((body, evidence)) else None
  {
    hide EncodeAll, DecodeAll, AllDuplicateFree, Size;
    EvidenceListRoundTrip(evidence);
    UnfoldFree(Envelope(body, evidence).fields, 3);
  }

  /**
   * The page reader accepts what the page writer stored exactly when the payload fits, the page was stored
   * bare, and no property map has keys that differ only by letter case; it then returns the page itself,
   * with the unserialised attendeesKnown flag cleared.
   */
  lemma PagePayloadRoundTrip(p: Page, source: string)
    requires EncodePagePayload(p, source).Ok?
    ensures var j := EncodePagePayload(p, source).value;
            DecodePagePayload(j, source) ==
              if Size(j) <= PAGE_SIZE_LIMIT && BarePage(p) && NoCollisions(p.upserts)
              then Ok(p.(upserts := WithEvents(p.upserts, MapAll(PageEvents(p), Reread))))
              else Err(PageStage)
  {
    hide Size, EncodePage, DecodePage, ValidEvidence, OwnEvents, NoCollisions, EvidenceOf, OpenEnvelope, Envelope,
         Restored, DuplicateFree;
    var body, evidence := EncodePage(p), EvidenceOf(PageEvents(p));
    EnvelopeOpens(body, evidence, PAGE_SIZE_LIMIT);
    PageDuplicateFree(p);
    PageRoundTrip(p);
    EvidenceRestores(PageEvents(p), source);
    var plain := p.(upserts := MapAll(p.upserts, PlainUpsert));
    assert PageEvents(plain) == MapAll(PageEvents(p), (e: Event) => e.Plain());
    assert BarePage(plain) == BarePage(p);
    assert WithEvents(plain.upserts, MapAll(PageEvents(p), Reread))
        == WithEvents(p.upserts, MapAll(PageEvents(p), Reread));
  }

  predicate NoEventCollisions(events: seq<Event>)
  {
    forall i | 0 <= i < |events| :: NoCaseCollision(events[i].properties)
  }

  /** The same for snapshots. */
  lemma SnapshotPayloadRoundTrip(events: seq<Event>, source: string)
    requires EncodeSnapshotPayload(events, source).Ok?
    ensures var j := EncodeSnapshotPayload(events, source).value;
            DecodeSnapshotPayload(j, source) ==
              if Size(j) <= SNAPSHOT_SIZE_LIMIT && NoEventCollisions(events)
              then Ok(MapAll(events, Reread)) else Err(PageStage)
  {
    hide Size, ValidEvidence, OwnEvents, EvidenceOf, Restored, EncodeEvent, DecodeEvent, NoCaseCollision,
         OpenEnvelope, Envelope;
    var body := List(EncodeAll(events, EncodeEvent));
    EnvelopeOpens(body, EvidenceOf(events), SNAPSHOT_SIZE_LIMIT);
    EventsFree(events);
    forall e: Event ensures DecodeEvent(EncodeEvent(e)) == Some(e.Plain()) {
      EventRoundTrip(e);
    }
    ListRoundTrip(events, EncodeEvent, DecodeEvent, (e: Event) => e.Plain());
    EvidenceRestores(events, source);
  }

  lemma EventsFree(events: seq<Event>)
    ensures AllDuplicateFree(EncodeAll(events, EncodeEvent)) <==> NoEventCollisions(events)
  {
    hide EncodeEvent, NoCaseCollision;
    ListDuplicateFree(events, EncodeEvent);
    forall i | 0 <= i < |events| ensures DuplicateFree(EncodeEvent(events[i])) <==> NoCaseCollision(events[i].properties) {
      EventDuplicateFree(events[i]);
    }
  }
}
