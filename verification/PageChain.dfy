/**
 * Staged page chains: the writer (internal/storage/projection_page_staging.go) and the reader that checks
 * every record again (internal/storage/projection_page_chain.go).
 */
module PageChain {
  import opened Base
  import opened Strings
  import opened Events
  import opened Materializer
  import opened Payload

  const PAGE_LIMIT := 250
  const ATTEMPT_SIZE_LIMIT := 33554432
  const CURSOR_LIMIT := 4096

  /** SHA-256 modelled by its input; NotADigest is stored text that is not 64 lower-case hex digits. */
  datatype Digest =
    | TokenDigest(token: string)
    | PageDigest(payload: Json, previous: Digest, next: Digest, cursor: string)
    | NotADigest(raw: string)

  const EMPTY_TOKEN := TokenDigest("")

  datatype StagedPage = StagedPage(ordinal: int, digest: Digest, previous: Digest, next: Digest, payload: Json)

  datatype Attempt = Attempt(
    id: string, owner: string, mode: Mode, baseRevision: nat, baseCursor: string, epoch: nat,
    lo: int, hi: int, timezone: string,
    nextOrdinal: int, nextToken: Digest, total: nat, complete: bool, finalCursor: string, pages: seq<StagedPage>)

  // --- structural page checks ------------------------------------------------------

  predicate ContinuationFields(p: Page)
  {
    if p.complete then p.nextToken == "" && p.nextCursor != "" else p.nextToken != "" && p.nextCursor == ""
  }

  predicate StagedUpsert(calendar: string, deleted: seq<string>, u: Upsert)
  {
    && u.event.id != "" && u.event.calendarId == calendar && u.objectId == u.event.id
    && !u.event.Cancelled() && !u.event.Unexpanded()
    && u.event.id !in deleted
  }

  /** validateProjectionGooglePage. */
  predicate GooglePage(calendar: string, p: Page)
  {
    && !p.resetRequired && p.warnings == [] && |p.upserts| <= 2500 && |p.deletedIds| <= 2500
    && p.deletedObjects == [] && p.replacedObjects == [] && p.inventory == []
    && ContinuationFields(p)
    && Deletions(p)
    && (forall i | 0 <= i < |p.upserts| :: StagedUpsert(calendar, p.deletedIds, p.upserts[i]))
    && Distinct(UpsertIds(p.upserts))
  }

  lemma {:induction false} DistinctSize(ids: seq<string>)
    requires Distinct(ids)
    ensures |Elements(ids)| == |ids|
  {
    if ids != [] {
      var front := ids[..|ids| - 1];
      DistinctExtend(front, ids[|ids| - 1]);
      assert ids == front + [ids[|ids| - 1]];
      assert Elements(ids) == Elements(front) + {ids[|ids| - 1]};
      DistinctPrefix(front, [ids[|ids| - 1]]);
      DistinctSize(front);
    }
  }

  /** Deleted IDs are named once, and removals describe exactly them. */
  predicate Deletions(p: Page)
  {
    && (forall i | 0 <= i < |p.deletedIds| :: p.deletedIds[i] != "") && Distinct(p.deletedIds)
    && (forall i | 0 <= i < |p.removals| :: p.removals[i].Valid() && p.removals[i].objectId in p.deletedIds)
    && Distinct(RemovalIds(p.removals)) && |p.removals| == |p.deletedIds|
  }

  method CheckDeletions(p: Page) returns (ok: bool)
    ensures ok <==> Deletions(p)
  {
    hide Distinct, Elements;
    NothingSeen();
    for i := 0 to |p.deletedIds|
      invariant forall k | 0 <= k < i :: p.deletedIds[k] != ""
    {
      if p.deletedIds[i] == "" {
        return false;
      }
    }
    assert [] + p.deletedIds == p.deletedIds;
    var once, deleted := Mark({}, [], p.deletedIds);
    var valid, named := IndexRemovals(p.removals);
    if !once || !valid {
      return false;
    }
    for i := 0 to |p.removals|
      invariant forall k | 0 <= k < i :: p.removals[k].objectId in p.deletedIds
    {
      if p.removals[i].objectId !in deleted {
        return false;
      }
    }
    DistinctSize(p.deletedIds);
    DistinctSize(RemovalIds(p.removals));
    return |named| == |deleted|;
  }

  /** The same checks as the source makes them, over sets of the IDs seen so far. */
  method ValidateGooglePage(calendar: string, p: Page) returns (ok: bool)
    ensures ok <==> GooglePage(calendar, p)
  {
    hide Distinct, Elements, StagedUpsert, ContinuationFields;
    if p.resetRequired || p.warnings != [] || |p.upserts| > 2500 || |p.deletedIds| > 2500
       || p.deletedObjects != [] || p.replacedObjects != [] || p.inventory != [] || !ContinuationFields(p) {
      return false;
    }
    ok := CheckDeletions(p);
    if !ok {
      return false;
    }
    for i := 0 to |p.upserts|
      invariant forall k | 0 <= k < i :: StagedUpsert(calendar, p.deletedIds, p.upserts[k])
    {
      if !StagedUpsert(calendar, p.deletedIds, p.upserts[i]) {
        return false;
      }
    }
    NothingSeen();
    assert [] + UpsertIds(p.upserts) == UpsertIds(p.upserts);
    var unique, upserted := Mark({}, [], UpsertIds(p.upserts));
    return unique;
  }

  lemma NothingSeen()
    ensures Elements<string>([]) == {} && Distinct<string>([])
  {
  }

  /** Tokens and cursors are never stored in the payload. */
  function Bare(p: Page): Page
  {
    p.(nextToken := "", nextCursor := "")
  }

  // --- the writer --------------------------------------------------------------------

  datatype Delivery = Delivery(ordinal: int, previousToken: string, zone: string, page: Page)

  /** The checks of appendProjectionPageTx that need no stored row. */
  predicate WellFormed(calendar: string, d: Delivery)
  {
    && 0 <= d.ordinal < PAGE_LIMIT
    && |d.previousToken| <= CURSOR_LIMIT && |d.page.nextToken| <= CURSOR_LIMIT && |d.page.nextCursor| <= CURSOR_LIMIT
    && d.page.timezone != "" && d.page.timezone == d.zone
    && GooglePage(calendar, d.page)
    && EncodePagePayload(Bare(d.page), calendar).Ok?
    && Size(EncodePagePayload(Bare(d.page), calendar).value) <= PAGE_SIZE_LIMIT
  }

  function RecordOf(calendar: string, d: Delivery): StagedPage
    requires EncodePagePayload(Bare(d.page), calendar).Ok?
  {
    var payload := EncodePagePayload(Bare(d.page), calendar).value;
    var previous, next := TokenDigest(d.previousToken), TokenDigest(d.page.nextToken);
    StagedPage(d.ordinal, PageDigest(payload, previous, next, d.page.nextCursor), previous, next, payload)
  }

  /** The part of appendProjectionPageTx that reads and extends the attempt row and its pages. */
  function Stage(calendar: string, a: Attempt, d: Delivery): (r: Result<Attempt>)
    requires WellFormed(calendar, d)
    ensures r.Ok? ==> r.value.pages == a.pages + [RecordOf(calendar, d)]
  {
    var record := RecordOf(calendar, d);
    if d.zone != a.timezone then Err(PageStage)
    else if d.ordinal < a.nextOrdinal then
      if d.ordinal < |a.pages| && a.pages[d.ordinal].digest == record.digest then Err(AlreadyStaged) else Err(PageStage)
    else if a.complete || d.ordinal != a.nextOrdinal || a.nextToken != record.previous
            || a.total + Size(record.payload) > ATTEMPT_SIZE_LIMIT then Err(PageStage)
    else if !d.page.complete
            && (record.next == record.previous || exists i | 0 <= i < |a.pages| :: a.pages[i].next == record.next) then
      Err(PageStage)
    else Ok(a.(nextOrdinal := d.ordinal + 1, nextToken := record.next, total := a.total + Size(record.payload),
               complete := d.page.complete, finalCursor := d.page.nextCursor, pages := a.pages + [record]))
  }

  predicate Fresh(a: Attempt)
  {
    a.nextOrdinal == 0 && a.nextToken == EMPTY_TOKEN && a.total == 0 && !a.complete && a.finalCursor == "" && a.pages == []
  }

  /** A sequence of appends that all succeed. */
  function StageAll(calendar: string, a: Attempt, ds: seq<Delivery>): Result<Attempt>
  {
    if ds == [] then Ok(a)
    else
      var last := ds[|ds| - 1];
      var before := StageAll(calendar, a, ds[..|ds| - 1]);
      if before.Err? || !WellFormed(calendar, last) then Err(PageStage) else Stage(calendar, before.value, last)
  }

  function TotalSize(pages: seq<StagedPage>): nat
  {
    if pages == [] then 0 else TotalSize(pages[..|pages| - 1]) + Size(pages[|pages| - 1].payload)
  }

  // --- the reader --------------------------------------------------------------------

  function PreviousOf(pages: seq<StagedPage>, i: nat): Digest
    requires i <= |pages|
  {
    if i == 0 then EMPTY_TOKEN else pages[i - 1].next
  }

  /** The page as the reader checks it again, with stand-ins for the values that were not stored. */
  function WithStandIns(p: Page, finalCursor: string): Page
  {
    if p.complete then p.(nextCursor := finalCursor) else p.(nextToken := "validated-token-placeholder")
  }

  /** The record's place in the chain: its ordinal, the token it continues and a token not used before. */
  predicate ValidLink(pages: seq<StagedPage>, i: nat)
    requires i < |pages|
  {
    && pages[i].ordinal == i && pages[i].previous == PreviousOf(pages, i) && !pages[i].next.NotADigest?
    && (pages[i].next == EMPTY_TOKEN || forall j | 0 <= j < i :: pages[j].next != pages[i].next)
  }

  /** The record's payload against its digest, the frozen zone and the structural checks. */
  predicate ValidContent(source: string, timezone: string, finalCursor: string, record: StagedPage, last: bool)
  {
    && Size(record.payload) <= PAGE_SIZE_LIMIT
    && DecodePagePayload(record.payload, source).Ok?
    && var page := DecodePagePayload(record.payload, source).value;
       && page.timezone == timezone && page.complete == last && (record.next == EMPTY_TOKEN) == last
       && record.digest == PageDigest(record.payload, record.previous, record.next, if last then finalCursor else "")
       && GooglePage(source, WithStandIns(page, finalCursor))
  }

  predicate ValidRecord(source: string, timezone: string, finalCursor: string, pages: seq<StagedPage>, i: nat)
    requires i < |pages|
  {
    ValidLink(pages, i) && ValidContent(source, timezone, finalCursor, pages[i], i == |pages| - 1)
  }

  predicate ValidBounds(source: string, timezone: string, finalCursor: string, total: nat, pages: seq<StagedPage>)
  {
    && source != "" && timezone != "" && finalCursor != "" && |finalCursor| <= CURSOR_LIMIT
    && 0 < |pages| <= PAGE_LIMIT && total <= ATTEMPT_SIZE_LIMIT
  }

  predicate ValidChain(source: string, timezone: string, finalCursor: string, last: Digest, total: nat, pages: seq<StagedPage>)
  {
    && ValidBounds(source, timezone, finalCursor, total, pages)
    && (forall i | 0 <= i < |pages| :: ValidRecord(source, timezone, finalCursor, pages, i))
    && PreviousOf(pages, |pages|) == last && TotalSize(pages) == total
  }

  function DecodedPages(source: string, pages: seq<StagedPage>): (r: seq<Page>)
    requires forall i | 0 <= i < |pages| :: DecodePagePayload(pages[i].payload, source).Ok?
    ensures |r| == |pages|
    ensures forall i | 0 <= i < |r| :: Ok(r[i]) == DecodePagePayload(pages[i].payload, source)
  {
    seq(|pages|, i requires 0 <= i < |pages| => DecodePagePayload(pages[i].payload, source).value)
  }

  function ReadChain(source: string, timezone: string, finalCursor: string, last: Digest, total: nat, pages: seq<StagedPage>): (r: Result<seq<Page>>)
  {
    if ValidChain(source, timezone, finalCursor, last, total, pages) then
      assert forall i | 0 <= i < |pages| ::
          ValidRecord(source, timezone, finalCursor, pages, i) && DecodePagePayload(pages[i].payload, source).Ok?;
      Ok(DecodedPages(source, pages))
    else Err(PageStage)
  }

  lemma TotalSizePrefix(pages: seq<StagedPage>, k: nat)
    requires k <= |pages|
    ensures TotalSize(pages[..k]) <= TotalSize(pages)
  {
    if k < |pages| {
      TotalSizePrefix(pages[..|pages| - 1], k);
      assert pages[..|pages| - 1][..k] == pages[..k];
    } else {
      assert pages[..k] == pages;
    }
  }

  method ReadRecord(source: string, timezone: string, finalCursor: string, record: StagedPage, last: bool)
    returns (page: Option<Page>)
    ensures page.Some? <==> ValidContent(source, timezone, finalCursor, record, last)
    ensures page.Some? ==> DecodePagePayload(record.payload, source) == Ok(page.value)
  {
    hide DecodePagePayload, GooglePage, Size;
    if Size(record.payload) > PAGE_SIZE_LIMIT {
      return None;
    }
    var decoded := DecodePagePayload(record.payload, source);
    if decoded.Err? || decoded.value.timezone != timezone || decoded.value.complete != last {
      return None;
    }
    if (record.next == EMPTY_TOKEN) != last {
      return None;
    }
    var cursor := if last then finalCursor else "";
    if record.digest != PageDigest(record.payload, record.previous, record.next, cursor)
       || !GooglePage(source, WithStandIns(decoded.value, finalCursor)) {
      return None;
    }
    return Some(decoded.value);
  }

  /** validateProjectionPageChain: one pass over the records in ordinal order. */
  method ValidatePageChain(source: string, timezone: string, finalCursor: string, last: Digest, total: nat, pages: seq<StagedPage>)
    returns (r: Result<seq<Page>>)
    ensures r == ReadChain(source, timezone, finalCursor, last, total, pages)
  {
    hide DecodePagePayload, GooglePage, Size, ValidContent;
    if !ValidBounds(source, timezone, finalCursor, total, pages) {
      return Err(PageStage);
    }
    var expected := EMPTY_TOKEN;
    var seen := {EMPTY_TOKEN};
    var size := 0;
    var out: seq<Page> := [];
    for i := 0 to |pages|
      invariant forall k | 0 <= k < i :: ValidRecord(source, timezone, finalCursor, pages, k)
      invariant expected == PreviousOf(pages, i)
      invariant seen == {EMPTY_TOKEN} + (set k | 0 <= k < i :: pages[k].next)
      invariant size == TotalSize(pages[..i]) && size <= ATTEMPT_SIZE_LIMIT
      invariant |out| == i && forall k | 0 <= k < i :: Ok(out[k]) == DecodePagePayload(pages[k].payload, source)
    {
      var record := pages[i];
      if record.ordinal != i || record.previous != expected || record.next.NotADigest?
         || (record.next != EMPTY_TOKEN && record.next in seen) {
        assert !ValidLink(pages, i) && !ValidRecord(source, timezone, finalCursor, pages, i);
        return Err(PageStage);
      }
      seen := seen + {record.next};
      var page := ReadRecord(source, timezone, finalCursor, record, i == |pages| - 1);
      if page.None? {
        assert !ValidRecord(source, timezone, finalCursor, pages, i);
        return Err(PageStage);
      }
      size := size + Size(record.payload);
      assert pages[..i + 1][..i] == pages[..i] && pages[..i + 1][i] == record;
      assert size == TotalSize(pages[..i + 1]);
      TotalSizePrefix(pages, i + 1);
      if size > ATTEMPT_SIZE_LIMIT {
        return Err(PageStage);
      }
      expected := record.next;
      out := out + [page.value];
    }
    assert pages[..|pages|] == pages;
    if expected != last || size != total {
      return Err(PageStage);
    }
    assert out == DecodedPages(source, pages);
    return Ok(out);
  }

  // --- writer and reader agree ---------------------------------------------------------

  /** What the reader gives back for a delivered page. */
  function ReadBack(p: Page): Page
  {
    Bare(p).(upserts := WithEvents(p.upserts, MapAll(PageEvents(p), Reread)))
  }

  /** The rows after a successful sequence of appends. */
  lemma {:induction false} StagedRows(calendar: string, a: Attempt, ds: seq<Delivery>)
    requires Fresh(a) && StageAll(calendar, a, ds).Ok?
    ensures var b := StageAll(calendar, a, ds).value;
            && b.timezone == a.timezone && |b.pages| == |ds| == b.nextOrdinal
            && b.total == TotalSize(b.pages) <= ATTEMPT_SIZE_LIMIT
            && b.nextToken == PreviousOf(b.pages, |ds|)
            && (ds == [] ==> !b.complete)
            && (ds != [] ==> b.complete == ds[|ds| - 1].page.complete && b.finalCursor == ds[|ds| - 1].page.nextCursor)
    ensures var b := StageAll(calendar, a, ds).value;
            forall i | 0 <= i < |ds| :: Linked(calendar, a.timezone, b.pages, ds, i)
  {
    hide WellFormed, RecordOf, Size;
    if ds != [] {
      var n := |ds| - 1;
      var before := StageAll(calendar, a, ds[..n]).value;
      var b := StageAll(calendar, a, ds).value;
      StagedRows(calendar, a, ds[..n]);
      assert b.pages[..n] == before.pages;
      forall i | 0 <= i < n ensures Linked(calendar, a.timezone, b.pages, ds, i) {
        assert Linked(calendar, a.timezone, before.pages, ds[..n], i);
        LinkedStays(calendar, a.timezone, before.pages, ds[..n], b.pages, ds, i);
      }
      LinkedLast(calendar, before, ds[n], b, ds);
    }
  }

  /** How the record of the i-th delivery sits in the chain. */
  predicate Linked(calendar: string, timezone: string, pages: seq<StagedPage>, ds: seq<Delivery>, i: nat)
    requires i < |pages| && i < |ds|
  {
    && WellFormed(calendar, ds[i]) && ds[i].zone == timezone && ds[i].ordinal == i
    && pages[i] == RecordOf(calendar, ds[i])
    && pages[i].previous == PreviousOf(pages, i)
    && (i < |ds| - 1 ==> !ds[i].page.complete)
    && (!ds[i].page.complete ==> pages[i].next != pages[i].previous
                                 && forall j | 0 <= j < i :: pages[j].next != pages[i].next)
  }

  lemma LinkedStays(calendar: string, timezone: string, p: seq<StagedPage>, d: seq<Delivery>, q: seq<StagedPage>, e: seq<Delivery>, i: nat)
    requires |p| == |d| && |q| == |e| == |p| + 1 && i < |p| && p == q[..|p|] && d == e[..|d|]
    requires Linked(calendar, timezone, p, d, i)
    requires i == |d| - 1 ==> !d[i].page.complete
    ensures Linked(calendar, timezone, q, e, i)
  {
    hide WellFormed, RecordOf;
    assert forall j | 0 <= j < |p| :: q[j] == p[j];
  }

  lemma LinkedLast(calendar: string, before: Attempt, d: Delivery, b: Attempt, ds: seq<Delivery>)
    requires WellFormed(calendar, d) && Stage(calendar, before, d) == Ok(b)
    requires before.nextOrdinal == |before.pages| && before.nextToken == PreviousOf(before.pages, |before.pages|)
    requires |ds| == |b.pages| && ds[|ds| - 1] == d
    ensures Linked(calendar, before.timezone, b.pages, ds, |ds| - 1)
  {
    PlainFields(calendar, d);
    hide WellFormed, Size, Bare, EncodePagePayload;
    var n := |before.pages|;
    assert forall j | 0 <= j < n :: b.pages[j] == before.pages[j];
    assert b.pages[n] == RecordOf(calendar, d);
  }

  lemma ReadOne(calendar: string, p: Page)
    requires EncodePagePayload(Bare(p), calendar).Ok?
    requires Size(EncodePagePayload(Bare(p), calendar).value) <= PAGE_SIZE_LIMIT
    requires forall i | 0 <= i < |p.upserts| :: p.upserts[i].objectId == p.upserts[i].event.id
    requires !p.resetRequired && p.warnings == []
    ensures DecodePagePayload(EncodePagePayload(Bare(p), calendar).value, calendar)
         == if NoCollisions(p.upserts) then Ok(ReadBack(p)) else Err(PageStage)
  {
    hide EncodePagePayload, DecodePagePayload, NoCollisions, Size;
    PagePayloadRoundTrip(Bare(p), calendar);
    assert PageEvents(Bare(p)) == PageEvents(p);
  }

  /** Reading back changes nothing the structural checks look at. */
  lemma StandInsPass(calendar: string, p: Page, finalCursor: string)
    requires GooglePage(calendar, p) && finalCursor != ""
    requires p.complete ==> finalCursor == p.nextCursor
    ensures GooglePage(calendar, WithStandIns(ReadBack(p), finalCursor))
  {
    var q := WithStandIns(ReadBack(p), finalCursor);
    assert forall i | 0 <= i < |p.upserts| :: q.upserts[i] == p.upserts[i].(event := Reread(p.upserts[i].event));
    assert UpsertIds(q.upserts) == UpsertIds(p.upserts);
    forall i | 0 <= i < |q.upserts| ensures StagedUpsert(calendar, q.deletedIds, q.upserts[i]) {
      assert StagedUpsert(calendar, p.deletedIds, p.upserts[i]);
    }
  }

  /** One delivered page in its record: what the reader decodes and whether it passes the page checks again. */
  lemma RecordReads(calendar: string, d: Delivery, finalCursor: string)
    requires WellFormed(calendar, d) && finalCursor != ""
    requires d.page.complete ==> finalCursor == d.page.nextCursor
    ensures EncodePagePayload(Bare(d.page), calendar).Ok?
    ensures var payload := EncodePagePayload(Bare(d.page), calendar).value;
            && Size(payload) <= PAGE_SIZE_LIMIT
            && DecodePagePayload(payload, calendar) ==
                 (if NoCollisions(d.page.upserts) then Ok(ReadBack(d.page)) else Err(PageStage))
            && GooglePage(calendar, WithStandIns(ReadBack(d.page), finalCursor))
  {
    PlainFields(calendar, d);
    hide WellFormed, GooglePage, EncodePagePayload, DecodePagePayload, NoCollisions, Size, ReadBack, WithStandIns;
    ReadOne(calendar, d.page);
    StandInsPass(calendar, d.page, finalCursor);
  }

  lemma LinkedContent(calendar: string, timezone: string, finalCursor: string, d: Delivery, last: bool)
    requires WellFormed(calendar, d) && d.zone == timezone && d.page.complete == last && finalCursor != ""
    requires last ==> finalCursor == d.page.nextCursor
    ensures EncodePagePayload(Bare(d.page), calendar).Ok?
    ensures ValidContent(calendar, timezone, finalCursor, RecordOf(calendar, d), last) <==> NoCollisions(d.page.upserts)
  {
    PlainFields(calendar, d);
    RecordReads(calendar, d, finalCursor);
    BareKeeps(d.page);
    hide WellFormed, GooglePage, EncodePagePayload, DecodePagePayload, NoCollisions, Size, Bare, WithStandIns, ReadBack;
  }

  lemma LinkedIsValid(calendar: string, timezone: string, finalCursor: string, pages: seq<StagedPage>, ds: seq<Delivery>, i: nat)
    requires |pages| == |ds| && i < |ds|
    requires Linked(calendar, timezone, pages, ds, i)
    requires ds[|ds| - 1].page.complete && ds[|ds| - 1].page.nextCursor == finalCursor != ""
    ensures ValidRecord(calendar, timezone, finalCursor, pages, i) <==> NoCollisions(ds[i].page.upserts)
    ensures NoCollisions(ds[i].page.upserts) ==> DecodePagePayload(pages[i].payload, calendar) == Ok(ReadBack(ds[i].page))
  {
    hide WellFormed, GooglePage, EncodePagePayload, DecodePagePayload, NoCollisions, Bare, ReadBack, ValidContent, PreviousOf;
    assert ds[i].page.complete <==> i == |ds| - 1;
    LinkedContent(calendar, timezone, finalCursor, ds[i], i == |ds| - 1);
    RecordReads(calendar, ds[i], finalCursor);
    PlainFields(calendar, ds[i]);
  }

  lemma BareKeeps(p: Page)
    ensures ReadBack(p).timezone == p.timezone && ReadBack(p).complete == p.complete
  {
  }

  lemma PlainFields(calendar: string, d: Delivery)
    requires WellFormed(calendar, d)
    ensures !d.page.resetRequired && d.page.warnings == [] && GooglePage(calendar, d.page)
    ensures d.page.complete ==> d.page.nextToken == ""
    ensures !d.page.complete ==> d.page.nextToken != "" && d.page.nextCursor == ""
    ensures d.zone != "" && d.zone == d.page.timezone && |d.page.nextCursor| <= CURSOR_LIMIT
    ensures EncodePagePayload(Bare(d.page), calendar).Ok?
    ensures Size(EncodePagePayload(Bare(d.page), calendar).value) <= PAGE_SIZE_LIMIT
    ensures forall i | 0 <= i < |d.page.upserts| :: d.page.upserts[i].objectId == d.page.upserts[i].event.id
    ensures d.ordinal < PAGE_LIMIT && (d.page.complete ==> d.page.nextCursor != "")
  {
    hide EncodePagePayload, Size;
    forall i | 0 <= i < |d.page.upserts| ensures d.page.upserts[i].objectId == d.page.upserts[i].event.id {
      assert StagedUpsert(calendar, d.page.deletedIds, d.page.upserts[i]);
    }
  }

  /**
   * After any sequence of successful appends ending in a complete page, the reader accepts the stored chain
   * exactly when no page has property keys differing only by letter case, and it returns the delivered
   * pages in order (without tokens, and with the unserialised attendeesKnown flag cleared).
   */
  lemma WriterReaderAgree(calendar: string, a: Attempt, ds: seq<Delivery>)
    requires calendar != "" && Fresh(a) && ds != []
    requires StageAll(calendar, a, ds).Ok? && ds[|ds| - 1].page.complete
    ensures var b := StageAll(calendar, a, ds).value;
            ReadChain(calendar, b.timezone, b.finalCursor, b.nextToken, b.total, b.pages)
              == if forall i | 0 <= i < |ds| :: NoCollisions(ds[i].page.upserts)
                 then Ok(seq(|ds|, i requires 0 <= i < |ds| => ReadBack(ds[i].page)))
                 else Err(PageStage)
  {
    var b := StageAll(calendar, a, ds).value;
    StagedRows(calendar, a, ds);
    AllLinkedValid(calendar, b, ds);
    hide *;
    ChainOutcome(calendar, b, ds);
  }

  lemma AllLinkedValid(calendar: string, b: Attempt, ds: seq<Delivery>)
    requires calendar != "" && ds != [] && |b.pages| == |ds| && b.total <= ATTEMPT_SIZE_LIMIT
    requires forall i | 0 <= i < |ds| :: Linked(calendar, b.timezone, b.pages, ds, i)
    requires ds[|ds| - 1].page.complete && b.finalCursor == ds[|ds| - 1].page.nextCursor
    ensures ValidBounds(calendar, b.timezone, b.finalCursor, b.total, b.pages)
    ensures forall i | 0 <= i < |ds| ::
              && (ValidRecord(calendar, b.timezone, b.finalCursor, b.pages, i) <==> NoCollisions(ds[i].page.upserts))
              && (NoCollisions(ds[i].page.upserts) ==> DecodePagePayload(b.pages[i].payload, calendar) == Ok(ReadBack(ds[i].page)))
  {
    hide WellFormed, ValidRecord, NoCollisions, DecodePagePayload, ReadBack, RecordOf, PreviousOf;
    assert Linked(calendar, b.timezone, b.pages, ds, |ds| - 1);
    PlainFields(calendar, ds[|ds| - 1]);
    hide Linked;
    forall i | 0 <= i < |ds|
      ensures ValidRecord(calendar, b.timezone, b.finalCursor, b.pages, i) <==> NoCollisions(ds[i].page.upserts)
      ensures NoCollisions(ds[i].page.upserts) ==> DecodePagePayload(b.pages[i].payload, calendar) == Ok(ReadBack(ds[i].page))
    {
      LinkedIsValid(calendar, b.timezone, b.finalCursor, b.pages, ds, i);
    }
  }

  lemma ChainOutcome(calendar: string, b: Attempt, ds: seq<Delivery>)
    requires |b.pages| == |ds| && b.nextToken == PreviousOf(b.pages, |ds|) && b.total == TotalSize(b.pages)
    requires ValidBounds(calendar, b.timezone, b.finalCursor, b.total, b.pages)
    requires forall i | 0 <= i < |ds| ::
               && (ValidRecord(calendar, b.timezone, b.finalCursor, b.pages, i) <==> NoCollisions(ds[i].page.upserts))
               && (NoCollisions(ds[i].page.upserts) ==> DecodePagePayload(b.pages[i].payload, calendar) == Ok(ReadBack(ds[i].page)))
    ensures ReadChain(calendar, b.timezone, b.finalCursor, b.nextToken, b.total, b.pages)
              == if forall i | 0 <= i < |ds| :: NoCollisions(ds[i].page.upserts)
                 then Ok(seq(|ds|, i requires 0 <= i < |ds| => ReadBack(ds[i].page)))
                 else Err(PageStage)
  {
    hide ValidRecord, NoCollisions, DecodePagePayload, ReadBack, TotalSize, ValidBounds;
    if forall i | 0 <= i < |ds| :: NoCollisions(ds[i].page.upserts) {
      assert DecodedPages(calendar, b.pages) == seq(|ds|, i requires 0 <= i < |ds| => ReadBack(ds[i].page));
    } else {
      var i :| 0 <= i < |ds| && !NoCollisions(ds[i].page.upserts);
      assert !ValidRecord(calendar, b.timezone, b.finalCursor, b.pages, i);
    }
  }

  /**
   * Appending an ordinal that is already staged never changes the attempt: it is recognised exactly when the
   * tokens, the cursor and the encoded page are those stored, and rejected otherwise.
   */
  lemma ReplayRecognised(calendar: string, a: Attempt, ds: seq<Delivery>, d: Delivery)
    requires Fresh(a) && StageAll(calendar, a, ds).Ok?
    requires WellFormed(calendar, d) && d.zone == a.timezone && 0 <= d.ordinal < |ds|
    ensures var b, was := StageAll(calendar, a, ds).value, ds[d.ordinal];
            && EncodePagePayload(Bare(was.page), calendar).Ok?
            && Stage(calendar, b, d) ==
                 (if d.previousToken == was.previousToken && d.page.nextToken == was.page.nextToken
                     && d.page.nextCursor == was.page.nextCursor
                     && EncodePagePayload(Bare(d.page), calendar) == EncodePagePayload(Bare(was.page), calendar)
                  then Err(AlreadyStaged) else Err(PageStage))
  {
    StagedRows(calendar, a, ds);
    var b := StageAll(calendar, a, ds).value;
    assert Linked(calendar, a.timezone, b.pages, ds, d.ordinal);
    hide StageAll, WellFormed, EncodePagePayload, Bare;
    PlainFields(calendar, ds[d.ordinal]);
  }

  // --- the IDs a staged payload touches -------------------------------------------------

  /** The stored page as written, read without the duplicate-key walk. */
  function Unpack(j: Json): Option<Page>
  {
    if j.Struct? && |j.fields| == 3 then DecodePage(j.fields[1]) else None
  }

  function PayloadChanges(j: Json): seq<string>
  {
    if Unpack(j).Some? then PageChanges(Unpack(j).value) else []
  }

  /** Every event ID named by some staged page of the attempt. */
  function Touched(pages: seq<StagedPage>): (s: set<string>)
  {
    if pages == [] then {} else Touched(pages[..|pages| - 1]) + Elements(PayloadChanges(pages[|pages| - 1].payload))
  }

  lemma PayloadChangesWritten(p: Page, source: string)
    requires EncodePagePayload(p, source).Ok?
    ensures PayloadChanges(EncodePagePayload(p, source).value) == PageChanges(p)
  {
    hide EncodePage, DecodePage, OwnEvents, EvidenceOf;
    PageRoundTrip(p);
    assert UpsertIds(MapAll(p.upserts, PlainUpsert)) == UpsertIds(p.upserts);
  }

  lemma PayloadChangesRead(j: Json, source: string)
    requires DecodePagePayload(j, source).Ok?
    ensures PayloadChanges(j) == PageChanges(DecodePagePayload(j, source).value)
  {
    hide DecodePage, ValidEvidence, DuplicateFree, Size, Restored, Lookup;
    var page, back := Unpack(j).value, DecodePagePayload(j, source).value;
    RestoredIds(PageEvents(page), OpenEnvelope(j, PAGE_SIZE_LIMIT).value.1, source);
    assert forall i | 0 <= i < |page.upserts| :: back.upserts[i].event.id == page.upserts[i].event.id;
    assert UpsertIds(back.upserts) == UpsertIds(page.upserts);
  }

  lemma RestoredIds(events: seq<Event>, evidence: seq<Evidence>, source: string)
    requires ValidEvidence(events, evidence, source)
    ensures forall i | 0 <= i < |events| :: Restored(events, evidence)[i].id == events[i].id
  {
    hide Lookup, OwnEvents, Distinct;
  }

  lemma {:induction false} TouchedIsChanges(source: string, pages: seq<StagedPage>)
    requires forall i | 0 <= i < |pages| :: DecodePagePayload(pages[i].payload, source).Ok?
    ensures Touched(pages) == Elements(Changes(DecodedPages(source, pages)))
  {
    hide DecodePagePayload, PayloadChanges, PageChanges;
    if pages != [] {
      var n := |pages| - 1;
      TouchedIsChanges(source, pages[..n]);
      PayloadChangesRead(pages[n].payload, source);
      assert DecodedPages(source, pages)[..n] == DecodedPages(source, pages[..n]);
    }
  }
}
