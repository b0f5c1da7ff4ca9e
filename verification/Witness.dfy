/** A run that ends with an accepted snapshot: the results about accepted and finalized snapshots are not empty. */
module ReachableRun {
  import opened Base
  import opened Strings
  import opened Events
  import opened Materializer
  import opened Payload
  import opened PageChain
  import opened EventCache
  import opened SyncLease
  import opened Calendars
  import opened CalendarRuns
  import opened Retention

  const ID := "calendar"
  const ATTEMPT := "attempt-attempt-"
  const CLAIM := Claim(1, "worker", "", 0)
  const GOOGLE := Source("google", true, true, true, "UTC", false)

  function Midnight(day: int): Option<int> { Some(day * DAY) }

  function UtcOnly(name: string): Option<Zone> { if name == "UTC" then Some(Midnight) else None }

  /** A source with no events: one complete, empty page. */
  const EMPTY_PAGE := Page("UTC", [], [], [], [], [], [], "", "cursor", false, true, [])
  const DELIVERY := Delivery(0, "", "UTC", EMPTY_PAGE)
  const CLOCKS := Clocks(1, 2, 3, 4)

  const FRESH := Archive(0, 0, {}, map[], None, map[], map[], {})
  const START := Calendar(ID, GOOGLE, Some(SyncState("", 0, 10, 0, Pending, 0, None, None, None, None)), Cache(map[], map[]), FRESH)
  const CLAIMED := START.(sync := Some(SyncState("", 0, 10, 1, Syncing, 0, None, None, Some("worker"), Some(100))))
  const OPENED := Attempt(ATTEMPT, "worker", Replacement, 0, "", 0, 0, 10, "UTC", 0, EMPTY_TOKEN, 0, false, "", [])
  const STARTED := CLAIMED.(archive := FRESH.(attempts := map[1 := OPENED]))

  const CLAIM_SYNC := ClaimSync("worker", 0, 100, true)
  const START_PAGES := StartPages(CLAIM, AttemptInput(ATTEMPT, "UTC", 1, 0, 0, Replacement, "", 0, 10), 1)
  const FINISH := FinishPages(CLAIM, ATTEMPT, DELIVERY, 50, CLOCKS)

  lemma Claims()
    ensures Step(UtcOnly, START, CLAIM_SYNC, CLAIMED)
  {
  }

  lemma Starts()
    ensures Step(UtcOnly, CLAIMED, START_PAGES, STARTED)
  {
  }

  lemma {:induction false} SmallSum(items: seq<Json>, n: nat)
    requires forall i | 0 <= i < |items| :: Size(items[i]) <= n
    ensures SizeAll(items) <= n * |items|
  {
    hide Size;
    if items != [] {
      SmallSum(items[1..], n);
      assert n * |items| == n + n * |items[1..]|;
    }
  }

  lemma SmallPage()
    ensures var j := EncodePage(Bare(EMPTY_PAGE)); j.Struct? && |j.fields| == 12 && forall i | 0 <= i < 12 :: Size(j.fields[i]) <= 4
  {
  }

  lemma SmallRecord()
    ensures EncodePagePayload(Bare(EMPTY_PAGE), ID).Ok? && Size(EncodePagePayload(Bare(EMPTY_PAGE), ID).value) <= 200
  {
    hide EncodePage, Size;
    assert EncodePagePayload(Bare(EMPTY_PAGE), ID).Ok?;
    var body := EncodePage(Bare(EMPTY_PAGE));
    assert EncodePagePayload(Bare(EMPTY_PAGE), ID).value == Struct([Number(1), body, List([])]);
    SmallPage();
    StructSize(body, 4);
    EnvelopeSize(body, 49);
  }

  lemma StructSize(j: Json, n: nat)
    requires j.Struct? && |j.fields| == 12 && forall i | 0 <= i < |j.fields| :: Size(j.fields[i]) <= n
    ensures Size(j) <= 1 + 12 * n
  {
    SmallSum(j.fields, n);
  }

  lemma EnvelopeSize(body: Json, n: nat)
    requires Size(body) <= n
    ensures Size(Struct([Number(1), body, List([])])) <= n + 3
  {
    hide Size;
    SizeCons(Number(1), [body, List([])]);
    SizeCons(body, [List([])]);
    SizeCons(List([]), []);
    assert [Number(1), body, List([])] == [Number(1)] + [body, List([])] && [body, List([])] == [body] + [List([])];
    LeafSizes(body);
  }

  lemma SizeCons(x: Json, rest: seq<Json>)
    ensures SizeAll([x] + rest) == Size(x) + SizeAll(rest)
  {
    hide Size;
    assert ([x] + rest)[1..] == rest;
  }

  lemma LeafSizes(body: Json)
    ensures Size(Number(1)) == 1 && Size(List([])) == 1 && SizeAll([]) == 0
    ensures Size(Struct([Number(1), body, List([])])) == 1 + SizeAll([Number(1), body, List([])])
  {
  }

  /** The terminal page is well formed, and small. */
  lemma PageFits()
    ensures WellFormed(ID, DELIVERY) && Size(RecordOf(ID, DELIVERY).payload) <= 200
  {
    hide EncodePagePayload, Size;
    SmallRecord();
    assert RemovalIds([]) == [] && UpsertIds([]) == [];
  }

  function Complete(): Attempt
    requires WellFormed(ID, DELIVERY) && PageChain.Stage(ID, OPENED, DELIVERY).Ok?
  {
    PageChain.Stage(ID, OPENED, DELIVERY).value
  }

  lemma Stages()
    ensures WellFormed(ID, DELIVERY) && PageChain.Stage(ID, OPENED, DELIVERY).Ok?
    ensures Complete() == OPENED.(nextOrdinal := 1, nextToken := TokenDigest(""), total := Size(RecordOf(ID, DELIVERY).payload),
                                  complete := true, finalCursor := "cursor", pages := [RecordOf(ID, DELIVERY)])
  {
    hide Size, EncodePagePayload, WellFormed;
    PageFits();
    RecordShape();
  }

  lemma RecordShape()
    requires WellFormed(ID, DELIVERY)
    ensures var r := RecordOf(ID, DELIVERY); r.previous == EMPTY_TOKEN && r.next == TokenDigest("") && r.ordinal == 0
  {
  }

  /** What the append checks of the claim, the source and the guard. */
  lemma Admits()
    ensures Holds(CLAIMED.sync.value, CLAIM, 1) && ValidMutationId(ATTEMPT)
    ensures SourceMatches(GOOGLE, CLAIMED.sync.value, "UTC", "", 0, 10) && Guarded(STARTED.archive, 0, 0)
  {
  }

  function Staged(): Archive
    requires WellFormed(ID, DELIVERY) && PageChain.Stage(ID, OPENED, DELIVERY).Ok?
  {
    STARTED.archive.(attempts := STARTED.archive.attempts[1 := Complete()])
  }

  lemma Appends()
    ensures WellFormed(ID, DELIVERY) && PageChain.Stage(ID, OPENED, DELIVERY).Ok?
    ensures Append(STARTED, CLAIM, ATTEMPT, DELIVERY, 1) == Ok(Staged())
  {
    hide PageChain.Stage, WellFormed, Holds, ValidMutationId, SourceMatches, Guarded, Append;
    Stages();
    Admits();
    AppendTo(STARTED, OPENED);
  }

  lemma AppendTo(c: Calendar, t: Attempt)
    requires c.sync.Some? && Holds(c.sync.value, CLAIM, 1) && ValidMutationId(ATTEMPT) && WellFormed(c.id, DELIVERY)
    requires 1 in c.archive.attempts && c.archive.attempts[1] == t && t.id == ATTEMPT && t.owner == "worker"
    requires SourceMatches(c.source, c.sync.value, t.timezone, t.baseCursor, t.lo, t.hi) && Guarded(c.archive, t.epoch, t.baseRevision)
    requires PageChain.Stage(c.id, t, DELIVERY).Ok?
    ensures Append(c, CLAIM, ATTEMPT, DELIVERY, 1)
         == Ok(c.archive.(attempts := c.archive.attempts[1 := PageChain.Stage(c.id, t, DELIVERY).value]))
  {
    hide PageChain.Stage, WellFormed, Holds, ValidMutationId, SourceMatches, Guarded;
  }

  /** The chain reads back as the one page. */
  lemma Reads()
    requires WellFormed(ID, DELIVERY) && PageChain.Stage(ID, OPENED, DELIVERY).Ok?
    ensures var t := Complete();
            ReadChain(ID, t.timezone, t.finalCursor, t.nextToken, t.total, t.pages) == Ok([EMPTY_PAGE.(nextCursor := "")])
  {
    hide PageChain.Stage, WellFormed, ReadChain, RecordOf;
    assert StageAll(ID, OPENED, [DELIVERY]) == PageChain.Stage(ID, OPENED, DELIVERY) by { StagesOne(); }
    WriterReaderAgree(ID, OPENED, [DELIVERY]);
    assert ReadBack(EMPTY_PAGE) == EMPTY_PAGE.(nextCursor := "") by { EmptyBack(); }
    assert seq(1, i requires 0 <= i < 1 => ReadBack([DELIVERY][i].page)) == [ReadBack(EMPTY_PAGE)];
  }

  lemma StagesOne()
    requires WellFormed(ID, DELIVERY)
    ensures StageAll(ID, OPENED, [DELIVERY]) == PageChain.Stage(ID, OPENED, DELIVERY)
  {
    hide WellFormed, PageChain.Stage;
    assert [DELIVERY][..0] == [];
    assert StageAll(ID, OPENED, []) == Ok(OPENED);
  }

  lemma EmptyBack()
    ensures ReadBack(EMPTY_PAGE) == EMPTY_PAGE.(nextCursor := "")
  {
    assert WithEvents([], MapAll(PageEvents(EMPTY_PAGE), Reread)) == [];
  }

  // --- the candidate ----------------------------------------------------------------------

  const READ := EMPTY_PAGE.(nextCursor := "")
  const INPUT := Input(ID, "UTC", Some(Midnight), 0, 10, Replacement, [], false, [READ])

  lemma NothingListed()
    ensures Listing(map[]) == [] && ById([]) == map[] && After(map[], [READ]) == map[] && Changes([READ]) == []
    ensures Observations(ID, map[], [READ]) == []
  {
    assert [READ][..0] == [];
  }

  lemma Materializes()
    ensures Materialize(INPUT) == Ok(Materialized([], []))
  {
    hide Listing, ById, After, Changes, Observations;
    NothingListed();
  }

  lemma EmptySnapshot()
    ensures EncodeSnapshotPayload([], ID).Ok? && Size(EncodeSnapshotPayload([], ID).value) <= 10
  {
    hide Size;
    assert EncodeSnapshotPayload([], ID).value == Struct([Number(1), List([]), List([])]);
    LeafSizes(List([]));
    EnvelopeSize(List([]), 1);
  }

  function Ready(): Calendar
    requires WellFormed(ID, DELIVERY) && PageChain.Stage(ID, OPENED, DELIVERY).Ok?
  {
    STARTED.(archive := Staged())
  }

  function Published(): Candidate
    requires EncodeSnapshotPayload([], ID).Ok?
  {
    Candidate([READ], Materialized([], []), EncodeSnapshotPayload([], ID).value, [])
  }

  lemma Prepares()
    requires WellFormed(ID, DELIVERY) && PageChain.Stage(ID, OPENED, DELIVERY).Ok?
    ensures EncodeSnapshotPayload([], ID).Ok?
    ensures Prepare(UtcOnly, Ready(), CLAIM, Complete()) == Ok(Published())
  {
    hide PageChain.Stage, WellFormed, ReadChain, Materialize, EncodeSnapshotPayload, Size, RecordOf;
    Stages();
    Reads();
    Materializes();
    EmptySnapshot();
    assert MaterializeInput(UtcOnly, Ready(), Complete(), [], [READ]) == INPUT;
  }

  // --- publication ---------------------------------------------------------------------------

  lemma Archives(t: Attempt, payload: Json)
    requires t == OPENED.(nextOrdinal := t.nextOrdinal, nextToken := t.nextToken, total := t.total, complete := true,
                          finalCursor := "cursor", pages := t.pages)
    ensures var r := Archived(STARTED.archive.(attempts := STARTED.archive.attempts[1 := t]), 1, t, 2, payload, []);
            && r.Ok? && r.value.snapshots == map[1 := NewSnapshot(t, 2, payload, [])]
            && r.value.revision == 1 && r.value.epoch == 0 && r.value.intents == {}
  {
    hide ObservationSize, Retirable;
    var a := STARTED.archive.(attempts := STARTED.archive.attempts[1 := t]);
    assert ReleaseRetained(a, 0, []).snapshots == map[];
    assert |ReleaseRetained(a, 0, []).snapshots| == 0;
  }

  lemma Replays()
    ensures Replay(Cache(map[], map[]), ID, [READ], 1, 3) == Cache(map[], map[])
    ensures Swept(Cache(map[], map[]), 1) == map[] && !AnyActive(map[]) && Replayable(ID, [READ])
  {
    assert [READ][..0] == [] && CachedUpserts([]) == [];
    assert PageBatch(READ) == Batch(false, [], [], [], [], [], false, true, "", None);
    assert ApplyBatch(Cache(map[], map[]), ID, PageBatch(READ), 1, 3) == Cache(map[], map[]);
  }

  /** What the finalization checks of the clocks and the lease, and how it leaves the sync row. */
  lemma Ends()
    ensures Holds(CLAIMED.sync.value, CLAIM, 3) && Holds(CLAIMED.sync.value, CLAIM, 4)
    ensures Finish(CLAIMED.sync.value, CLAIM, false, "cursor", Some(50), 3)
         == Ok(SyncState("cursor", 0, 10, 1, SyncLease.Ready, 50, Some(3), None, None, None))
  {
  }

  lemma Finalizes() returns (e: Calendar)
    requires WellFormed(ID, DELIVERY) && PageChain.Stage(ID, OPENED, DELIVERY).Ok?
    ensures Finalize(UtcOnly, Ready(), CLAIM, 50, CLOCKS) == Ok(e)
    ensures e.sync == Some(SyncState("cursor", 0, 10, 1, SyncLease.Ready, 50, Some(3), None, None, None))
    ensures e.source == GOOGLE && e.cache == Cache(map[], map[])
    ensures EncodeSnapshotPayload([], ID).Ok?
    ensures e.archive.snapshots == map[1 := NewSnapshot(Complete(), 2, EncodeSnapshotPayload([], ID).value, [])]
    ensures e.archive.revision == 1 && e.archive.epoch == 0 && e.archive.intents == {}
  {
    hide PageChain.Stage, WellFormed, Prepare, Archived, Replay, Swept, Replayable, AnyActive, Finish, Holds, EncodeSnapshotPayload, NewSnapshot,
         RecordOf, Size;
    Stages();
    Prepares();
    Archives(Complete(), EncodeSnapshotPayload([], ID).value);
    Replays();
    Ends();
    e := Finalize(UtcOnly, Ready(), CLAIM, 50, CLOCKS).value;
  }

  lemma Accepted(e: Calendar)
    requires WellFormed(ID, DELIVERY) && PageChain.Stage(ID, OPENED, DELIVERY).Ok? && EncodeSnapshotPayload([], ID).Ok?
    requires e.sync == Some(SyncState("cursor", 0, 10, 1, SyncLease.Ready, 50, Some(3), None, None, None))
    requires e.source == GOOGLE && e.cache == Cache(map[], map[])
    requires e.archive.snapshots == map[1 := NewSnapshot(Complete(), 2, EncodeSnapshotPayload([], ID).value, [])]
    requires e.archive.revision == 1 && e.archive.epoch == 0 && e.archive.intents == {}
    ensures Inspects(UtcOnly, e, 0, 10, 3, 10)
  {
    hide PageChain.Stage, WellFormed, EncodeSnapshotPayload, RecordOf, Size;
    Stages();
  }

  lemma Closes() returns (e: Calendar)
    ensures Step(UtcOnly, STARTED, FINISH, e) && Inspects(UtcOnly, e, 0, 10, 3, 10)
  {
    hide PageChain.Stage, WellFormed, Append, Finalize, EncodeSnapshotPayload, Inspects, NewSnapshot, Complete;
    Appends();
    e := Finalizes();
    Accepted(e);
    assert FinalPage(UtcOnly, STARTED, CLAIM, ATTEMPT, DELIVERY, 50, CLOCKS) == Ok(e);
  }

  /** A claim, a start and a terminal page lead from empty tables to a snapshot that the read gate accepts. */
  lemma AcceptanceReachable()
    ensures exists tr: seq<Calendar>, acts: seq<Action> ::
              Run(UtcOnly, tr, acts) && Initial(tr[0]) && tr[0].cache.rows == map[] && |acts| == 3
              && acts[1].StartPages? && acts[2].FinishPages? && Inspects(UtcOnly, tr[3], 0, 10, 3, 10)
  {
    hide Step, Inspects;
    Claims();
    Starts();
    var e := Closes();
    var tr, acts := [START, CLAIMED, STARTED, e], [CLAIM_SYNC, START_PAGES, FINISH];
    assert Run(UtcOnly, tr, acts);
  }
}
