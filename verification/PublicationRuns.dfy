/** The published snapshot and the live cache stay equal over runs of attempts. */
module PublicationRuns {
  import opened Base
  import opened Strings
  import opened Events
  import opened Materializer
  import opened MaterializerTheorems
  import opened Payload
  import opened PageChain
  import opened EventCache
  import opened SyncLease
  import opened Calendars
  import opened CalendarRuns
  import opened LeaseRuns
  import opened Retention
  import opened Publication
  import opened MirrorRuns

  predicate SyncingAt(c: Calendar, g: nat)
  {
    c.sync.Some? && c.sync.value.generation == g && c.sync.value.status == Syncing
  }

  function TouchedAt(a: Archive, g: nat): set<string>
  {
    if g in a.attempts then Touched(a.attempts[g].pages) else {}
  }

  /** While generation g is syncing, the watched rows differ from the mirror only under staged IDs. */
  ghost predicate Tracks(c: Calendar, g: nat, view: Option<nat>, m: Mirror, base: Option<nat>)
  {
    SyncingAt(c, g) ==>
      && (base.Some? ==> g in c.archive.attempts && c.archive.attempts[g].mode.Incremental?
                         && c.archive.attempts[g].baseRevision == base.value)
      && AgreeOutside(View(c.cache.rows, view), m, TouchedAt(c.archive, g))
  }

  /** A repair, write-through or unstaged page in generation g. */
  predicate Disturbs(c: Calendar, a: Action, g: nat)
  {
    Writes(a) && c.sync.Some? && c.sync.value.generation == g
  }

  lemma {:induction false} TouchedAppend(pages: seq<StagedPage>, record: StagedPage)
    ensures Touched(pages + [record]) == Touched(pages) + Elements(PayloadChanges(record.payload))
  {
    assert (pages + [record])[..|pages|] == pages;
  }

  lemma RecordTouches(calendar: string, d: Delivery)
    requires EncodePagePayload(Bare(d.page), calendar).Ok?
    ensures PayloadChanges(RecordOf(calendar, d).payload) == PageChanges(d.page)
  {
    hide EncodePagePayload;
    PayloadChangesWritten(Bare(d.page), calendar);
  }

  lemma AppendTouches(calendar: string, a: Archive, b: Archive, g: nat, d: Delivery)
    requires AppendEffect(calendar, a, b, g, d)
    ensures TouchedAt(b, g) == TouchedAt(a, g) + Elements(PageChanges(d.page))
  {
    hide PageChain.Stage, GooglePage, EncodePagePayload, Size, Guarded, RecordOf, Touched;
    RecordTouches(calendar, d);
    TouchedAppend(a.attempts[g].pages, RecordOf(calendar, d));
  }

  lemma AgreeMore(m: Mirror, n: Mirror, ids: set<string>, more: set<string>)
    requires AgreeOutside(m, n, ids) && ids <= more
    ensures AgreeOutside(m, n, more)
  {
  }

  /** Staging a page, in the archive alone or in the cache as well. */
  lemma StageTracks(zones: Zones, c: Calendar, a: Action, e: Calendar, g: nat, view: Option<nat>, m: Mirror, base: Option<nat>)
    requires Step(zones, c, a, e) && ChangesAttempts(a) && e != c && Watches(view, g)
    requires SyncingAt(c, g) && Tracks(c, g, view, m, base)
    ensures Tracks(e, g, view, m, base)
  {
    hide AgreeOutside, View, ApplyBatch, MirrorBatch, Touched, AppendEffect, StartEffect, PageBatch, PageChanges;
    LeaseCheckRequired(zones, c, a, e);
    AttemptEffects(zones, c, a, e);
    if a.StagePage? {
      StagedCache(zones, c, a, e);
      BatchMirrors(c.cache, c.id, PageBatch(a.delivery.page), g, a.now, view);
      PageAgrees(View(c.cache.rows, view), m, TouchedAt(c.archive, g), c.id, a.delivery.page);
    } else {
      RowsUntouched(zones, c, a, e);
    }
    hide Step;
    AttemptTracks(c, a, e, g, view, m, base);
  }

  lemma AttemptTracks(c: Calendar, a: Action, e: Calendar, g: nat, view: Option<nat>, m: Mirror, base: Option<nat>)
    requires ChangesAttempts(a) && AttemptEffect(c, a, e) && a.claim.generation == g
    requires SyncingAt(c, g) && Tracks(c, g, view, m, base)
    requires a.StagePage? ==>
               AgreeOutside(View(e.cache.rows, view), m, TouchedAt(c.archive, g) + Elements(PageChanges(a.delivery.page)))
    requires !a.StagePage? ==> e.cache.rows == c.cache.rows
    requires e.archive == c.archive ==> e.cache.rows == c.cache.rows
    ensures Tracks(e, g, view, m, base)
  {
    hide AgreeOutside, View, WellFormed, PageChain.Stage, RecordOf, PageChanges;
    if e.archive != c.archive {
      if a.StartPages? {
        assert Touched([]) == {};
      } else {
        AppendTouches(c.id, c.archive, e.archive, g, a.delivery);
        hide Touched;
        AgreeMore(View(c.cache.rows, view), m, TouchedAt(c.archive, g), TouchedAt(e.archive, g));
      }
    }
  }

  lemma FinishEnds(zones: Zones, c: Calendar, a: Action, e: Calendar)
    requires a.FinishPages? && FinalPage(zones, c, a.claim, a.attemptId, a.delivery, a.nextSync, a.clocks) == Ok(e)
    ensures c.sync.Some? && SyncingAt(c, a.claim.generation)
    ensures e.sync.Some? && e.sync.value.status != Syncing
  {
    Finalized(zones, c, a.claim, a.attemptId, a.delivery, a.nextSync, a.clocks);
    hide FinalPage, Append, Archived, Prepare, Replay, Replayable, AnyActive, Finish, Swept;
    var t := Mid(c, a).archive.attempts[a.claim.generation];
    var p := Prepare(zones, Mid(c, a), a.claim, t).value;
    var cache := Replay(c.cache, c.id, p.pages, a.claim.generation, a.clocks.applied);
    Ended(c.sync.value, a.claim, AnyActive(cache.quarantine), t.finalCursor, Some(a.nextSync), a.clocks.applied);
  }

  lemma AttemptsUntouched(zones: Zones, c: Calendar, a: Action, e: Calendar)
    requires Step(zones, c, a, e) && !ChangesAttempts(a) && !a.FinishPages?
    ensures e.archive.attempts == c.archive.attempts
  {
    hide Step;
    if !TouchesArchive(a) {
      ArchiveUntouched(zones, c, a, e);
    } else if ChangesIntents(a) {
      if e != c {
        IntentEffect(zones, c, a, e);
      }
    } else {
      CandidateEffects(zones, c, a, e);
    }
  }

  lemma TracksStep(zones: Zones, c: Calendar, a: Action, e: Calendar, g: nat, view: Option<nat>, m: Mirror, base: Option<nat>)
    requires Step(zones, c, a, e) && NotAhead(c) && Watches(view, g)
    requires Tracks(c, g, view, m, base) && !Disturbs(c, a, g)
    requires (view == Some(g) && m == map[] && base == None) || (c.sync.Some? && c.sync.value.generation >= g)
    ensures Tracks(e, g, view, m, base)
  {
    hide Step, AgreeOutside, View, Touched;
    if e != c && SyncingAt(e, g) {
      RowLaws(zones, c, a, e);
      if SyncingAt(c, g) {
        if ChangesAttempts(a) {
          StageTracks(zones, c, a, e, g, view, m, base);
        } else if a.FinishPages? {
          FinishCommits(zones, c, a, e);
          FinishEnds(zones, c, a, e);
        } else {
          RowsUntouched(zones, c, a, e);
          AttemptsUntouched(zones, c, a, e);
        }
      } else {
        OpensEmpty(zones, c, a, e, g);
        assert AgreeOutside(map[], map[], TouchedAt(e.archive, g)) by { NothingDiffers(TouchedAt(e.archive, g)); }
      }
    }
  }

  lemma NothingDiffers(ids: set<string>)
    ensures AgreeOutside(map[], map[], ids)
  {
  }

  /** A generation starts with no rows of its own. */
  lemma OpensEmpty(zones: Zones, c: Calendar, a: Action, e: Calendar, g: nat)
    requires Step(zones, c, a, e) && NotAhead(c) && SyncingAt(e, g)
    requires c.sync.None? || c.sync.value.generation < g
    ensures View(e.cache.rows, Some(g)) == map[]
  {
    hide Step;
    if Writes(a) || a.StagePage? || a.FinishPages? {
      WritesStamped(zones, c, a, e);
    } else {
      RowsUntouched(zones, c, a, e);
    }
  }

  // --- over runs -------------------------------------------------------------------------

  /** No repair, write-through or unstaged page lands in generation g between steps i and n. */
  predicate Undisturbed(tr: seq<Calendar>, acts: seq<Action>, i: nat, n: nat, g: nat)
    requires |tr| == |acts| + 1
  {
    forall k | i <= k < n && k < |acts| :: !Disturbs(tr[k], acts[k], g)
  }

  lemma {:induction false} NotAheadRun(zones: Zones, tr: seq<Calendar>, acts: seq<Action>, k: nat)
    requires Run(zones, tr, acts) && NotAhead(tr[0]) && k < |tr|
    ensures NotAhead(tr[k])
  {
    hide Step, NotAhead;
    if k > 0 {
      NotAheadRun(zones, tr, acts, k - 1);
      NotAheadStep(zones, tr[k - 1], acts[k - 1], tr[k]);
    }
  }

  lemma {:induction false} TracksRun(zones: Zones, tr: seq<Calendar>, acts: seq<Action>, i: nat, k: nat, g: nat, view: Option<nat>, m: Mirror, base: Option<nat>)
    requires Run(zones, tr, acts) && NotAhead(tr[0]) && i <= k < |tr| && Undisturbed(tr, acts, i, k, g) && Watches(view, g)
    requires Tracks(tr[i], g, view, m, base)
    requires (view == Some(g) && m == map[] && base == None) || (tr[i].sync.Some? && tr[i].sync.value.generation >= g)
    ensures Tracks(tr[k], g, view, m, base)
    decreases k
  {
    hide Step, NotAhead, Tracks, Disturbs;
    if i < k {
      TracksRun(zones, tr, acts, i, k - 1, g, view, m, base);
      NotAheadRun(zones, tr, acts, k - 1);
      if tr[i].sync.Some? {
        GenerationsGrow(zones, tr, acts, i, k - 1);
      }
      TracksStep(zones, tr[k - 1], acts[k - 1], tr[k], g, view, m, base);
    }
  }

  /** The live cache is the current verified snapshot: the same IDs with the same stored contents. */
  ghost predicate Mirrors(c: Calendar)
  {
    CurrentVerified(c.archive) && Publishes(c, c.archive.snapshots[c.archive.revision].payload)
  }

  ghost predicate Publishes(c: Calendar, payload: Json)
  {
    exists events :: EncodeSnapshotPayload(events, c.id) == Ok(payload) && Live(c.cache.rows) == MirrorOf(ById(events))
  }

  /** The pages replayed at the end are the staged ones, so their IDs are those of the stored records. */
  lemma ReplayedIds(zones: Zones, c: Calendar, a: Action, e: Calendar, t: Attempt, p: Candidate)
    requires Finalizes(zones, c, a, e, t, p)
    ensures a.claim.generation in c.archive.attempts
    ensures AppendEffect(c.id, c.archive, Mid(c, a).archive, a.claim.generation, a.delivery)
    ensures t.mode == c.archive.attempts[a.claim.generation].mode
    ensures t.baseRevision == c.archive.attempts[a.claim.generation].baseRevision
    ensures TouchedAt(c.archive, a.claim.generation) <= Elements(Changes(p.pages))
  {
    Prepared(zones, Mid(c, a), a.claim, t);
    Appended(c, a.claim, a.attemptId, a.delivery, a.clocks.start);
    hide FinalPage, Append, Prepare, BaseEvents, Materialize, EncodeSnapshotPayload, Carried, AnyActive, WellFormed, RecordOf,
         PageChain.Stage, DecodePagePayload;
    AppendTouchedPages(c.archive.attempts[a.claim.generation].pages, RecordOf(c.id, a.delivery));
    ChainIds(c.id, t, p.pages);
  }

  lemma AppendTouchedPages(pages: seq<StagedPage>, record: StagedPage)
    ensures Touched(pages) <= Touched(pages + [record])
  {
    TouchedAppend(pages, record);
  }

  lemma ChainIds(calendar: string, t: Attempt, pages: seq<Page>)
    requires ReadChain(calendar, t.timezone, t.finalCursor, t.nextToken, t.total, t.pages) == Ok(pages)
    ensures Touched(t.pages) == Elements(Changes(pages))
  {
    hide DecodePagePayload, Changes, Touched, GooglePage;
    assert forall i | 0 <= i < |t.pages| :: ValidRecord(calendar, t.timezone, t.finalCursor, t.pages, i);
    TouchedIsChanges(calendar, t.pages);
  }

  /** A finalization whose rows tracked its base publishes what the cache shows. */
  lemma TrackedMirrors(zones: Zones, c: Calendar, a: Action, e: Calendar, t: Attempt, p: Candidate)
    requires Finalizes(zones, c, a, e, t, p)
    requires BaseEvents(Mid(c, a), t).Ok? && a.claim.generation in c.archive.attempts
    requires AgreeOutside(View(c.cache.rows, Watched(t, a.claim.generation)),
                          MirrorOf(ById(BaseEvents(Mid(c, a), t).value)), TouchedAt(c.archive, a.claim.generation))
    ensures Mirrors(e)
  {
    FinalizationExact(zones, c, a, e, t, p);
    ReplayedIds(zones, c, a, e, t, p);
    hide View, MirrorOf, AgreeOutside, BaseEvents, Touched, Changes, ById;
    AgreeMore(View(c.cache.rows, Watched(t, a.claim.generation)), MirrorOf(ById(BaseEvents(Mid(c, a), t).value)),
              TouchedAt(c.archive, a.claim.generation), Elements(Changes(p.pages)));
    PublishedSnapshot(zones, c, a, e, t, p);
    hide Finalizes;
    assert Publishes(e, e.archive.snapshots[e.archive.revision].payload);
  }

  lemma PublishedSnapshot(zones: Zones, c: Calendar, a: Action, e: Calendar, t: Attempt, p: Candidate)
    requires Finalizes(zones, c, a, e, t, p)
    ensures CurrentVerified(e.archive) && e.id == c.id && e.archive.revision == t.baseRevision + 1
    ensures EncodeSnapshotPayload(p.result.events, c.id) == Ok(e.archive.snapshots[e.archive.revision].payload)
  {
    Finalized(zones, c, a.claim, a.attemptId, a.delivery, a.nextSync, a.clocks);
    Prepared(zones, Mid(c, a), a.claim, t);
    hide FinalPage, Append, Archived, Prepare, Replay, Replayable, AnyActive, Finish, Swept, EncodeSnapshotPayload, Materialize, ReadChain,
         BaseEvents, Carried;
    ArchivedFacts(Mid(c, a).archive, a.claim.generation, t, a.clocks.completed, p.payload, p.observations);
  }

  lemma NoBase(c: Calendar, a: Action, t: Attempt)
    requires AppendsLast(c, a) && t.mode.Replacement? && BaseEvents(Mid(c, a), t).Ok?
    ensures MirrorOf(ById(BaseEvents(Mid(c, a), t).value)) == map[]
  {
    hide Append;
  }

  lemma ReplacementStep(zones: Zones, c: Calendar, a: Action, e: Calendar, g: nat)
    requires a.FinishPages? && FinalPage(zones, c, a.claim, a.attemptId, a.delivery, a.nextSync, a.clocks) == Ok(e)
    requires g == a.claim.generation && Tracks(c, g, Some(g), map[], None)
    requires g in c.archive.attempts && c.archive.attempts[g].mode.Replacement?
    ensures Mirrors(e)
  {
    var t, p := Committed(zones, c, a, e);
    FinishEnds(zones, c, a, e);
    ReplayedIds(zones, c, a, e, t, p);
    PublishedEvents(zones, c, a, e, t, p);
    assert AppendsLast(c, a);
    hide Finalizes, FinalPage, AgreeOutside, View, Touched, ById, MirrorOf, BaseEvents, Append, Mirrors;
    NoBase(c, a, t);
    TrackedMirrors(zones, c, a, e, t, p);
  }

  /**
   * A replacement finalized in a generation that saw no repair, write-through or unstaged page leaves the live
   * cache equal to the snapshot it publishes, whatever other attempts and mutations ran before or alongside.
   */
  lemma ReplacementMirrors(zones: Zones, tr: seq<Calendar>, acts: seq<Action>, n: nat, g: nat)
    requires Run(zones, tr, acts) && tr[0].cache.rows == map[] && n < |acts|
    requires acts[n].FinishPages? && tr[n + 1] != tr[n] && g == acts[n].claim.generation
    requires Undisturbed(tr, acts, 0, n, g)
    requires g in tr[n].archive.attempts && tr[n].archive.attempts[g].mode.Replacement?
    ensures Mirrors(tr[n + 1])
  {
    hide Step, Mirrors, Undisturbed, AgreeOutside;
    FinishCommits(zones, tr[n], acts[n], tr[n + 1]);
    hide FinalPage;
    NothingDiffers(TouchedAt(tr[0].archive, g));
    assert View(tr[0].cache.rows, Some(g)) == map[];
    TracksRun(zones, tr, acts, 0, n, g, Some(g), map[], None);
    ReplacementStep(zones, tr[n], acts[n], tr[n + 1], g);
  }

  // --- incremental attempts ----------------------------------------------------------------

  lemma {:induction false} RereadById(events: seq<Event>)
    ensures MirrorOf(ById(MapAll(events, Reread))) == MirrorOf(ById(events))
  {
    if events != [] {
      var n := |events| - 1;
      RereadById(events[..n]);
      assert MapAll(events, Reread)[..n] == MapAll(events[..n], Reread);
      MirrorPut(ById(MapAll(events[..n], Reread)), Reread(events[n]));
      MirrorPut(ById(events[..n]), events[n]);
      assert Reread(events[n]).Plain() == events[n].Plain();
    }
  }

  /** The base an incremental attempt reads back is the snapshot that was stored. */
  lemma BaseMirror(c: Calendar, a: Action, t: Attempt, events: seq<Event>)
    requires AppendsLast(c, a) && t.mode.Incremental? && BaseEvents(Mid(c, a), t).Ok?
    requires t.baseRevision in c.archive.snapshots
    requires EncodeSnapshotPayload(events, c.id) == Ok(c.archive.snapshots[t.baseRevision].payload)
    ensures MirrorOf(ById(BaseEvents(Mid(c, a), t).value)) == MirrorOf(ById(events))
  {
    Appended(c, a.claim, a.attemptId, a.delivery, a.clocks.start);
    hide Append, EncodeSnapshotPayload, DecodeSnapshotPayload, MirrorOf, ById, WellFormed, RecordOf, PageChain.Stage, MapAll;
    SnapshotPayloadRoundTrip(events, c.id);
    RereadById(events);
  }

  lemma IncrementalStep(zones: Zones, c: Calendar, a: Action, e: Calendar, g: nat, base: nat, events: seq<Event>)
    requires a.FinishPages? && FinalPage(zones, c, a.claim, a.attemptId, a.delivery, a.nextSync, a.clocks) == Ok(e)
    requires g == a.claim.generation && Tracks(c, g, None, MirrorOf(ById(events)), Some(base))
    requires base in c.archive.snapshots && EncodeSnapshotPayload(events, c.id) == Ok(c.archive.snapshots[base].payload)
    ensures Mirrors(e)
  {
    var t, p := Committed(zones, c, a, e);
    FinishEnds(zones, c, a, e);
    ReplayedIds(zones, c, a, e, t, p);
    PublishedEvents(zones, c, a, e, t, p);
    assert AppendsLast(c, a);
    hide Finalizes, FinalPage, AgreeOutside, View, Touched, ById, MirrorOf, BaseEvents, Append, Mirrors, EncodeSnapshotPayload;
    BaseMirror(c, a, t, events);
    TrackedMirrors(zones, c, a, e, t, p);
  }

  /** A stored revision stays as it is while it remains the current one. */
  lemma {:induction false} CurrentFixed(zones: Zones, tr: seq<Calendar>, acts: seq<Action>, i: nat, j: nat)
    requires Run(zones, tr, acts) && Initial(tr[0]) && i <= j < |tr|
    requires tr[i].archive.revision == tr[j].archive.revision
    ensures tr[i].archive.snapshots == tr[j].archive.snapshots
    decreases j
  {
    hide Step, Initial;
    if i < j {
      RevisionsGrow(zones, tr, acts, i, j - 1);
      RevisionsGrow(zones, tr, acts, j - 1, j);
      CurrentFixed(zones, tr, acts, i, j - 1);
      SameRevision(zones, tr[j - 1], acts[j - 1], tr[j]);
    }
  }

  lemma SameRevision(zones: Zones, c: Calendar, a: Action, e: Calendar)
    requires Step(zones, c, a, e) && e.archive.revision == c.archive.revision
    ensures e.archive.snapshots == c.archive.snapshots
  {
    hide Step;
    if !TouchesArchive(a) {
      ArchiveUntouched(zones, c, a, e);
    } else if ChangesIntents(a) {
      if e != c {
        IntentEffect(zones, c, a, e);
      }
    } else if ChangesCandidates(a) {
      CandidateEffects(zones, c, a, e);
    } else if ChangesAttempts(a) {
      hide WellFormed, RecordOf, PageChain.Stage, Fresh;
      AttemptEffects(zones, c, a, e);
    } else {
      hide WellFormed, RecordOf, PageChain.Stage, Carried, Extended, NewSnapshot;
      FinishEffects(zones, c, a, e);
    }
  }

  lemma {:induction false} SameCalendar(zones: Zones, tr: seq<Calendar>, acts: seq<Action>, i: nat, j: nat)
    requires Run(zones, tr, acts) && i <= j < |tr|
    ensures tr[i].id == tr[j].id
    decreases j
  {
    hide Step;
    if i < j {
      SameCalendar(zones, tr, acts, i, j - 1);
      SameId(zones, tr[j - 1], acts[j - 1], tr[j]);
    }
  }

  lemma SameId(zones: Zones, c: Calendar, a: Action, e: Calendar)
    requires Step(zones, c, a, e)
    ensures e.id == c.id
  {
    hide Step;
    if Writes(a) || a.StagePage? || a.FinishPages? {
      if e != c {
        WritesStamped(zones, c, a, e);
      }
    } else {
      RowsUntouched(zones, c, a, e);
    }
  }

  /** The state right after an incremental attempt started over a mirrored base. */
  lemma StartTracks(zones: Zones, c: Calendar, a: Action, e: Calendar)
    requires Step(zones, c, a, e) && a.StartPages? && a.input.mode.Incremental? && e != c && Mirrors(c)
    ensures e.sync.Some? && e.sync.value.generation == a.claim.generation
    ensures e.archive.revision == a.input.baseRevision == c.archive.revision && e.archive.snapshots == c.archive.snapshots
    ensures a.input.baseRevision in e.archive.snapshots && e.id == c.id
    ensures exists events :: EncodeSnapshotPayload(events, e.id) == Ok(e.archive.snapshots[a.input.baseRevision].payload)
                             && Tracks(e, a.claim.generation, None, MirrorOf(ById(events)), Some(a.input.baseRevision))
  {
    RowsUntouched(zones, c, a, e);
    AttemptEffects(zones, c, a, e);
    RowUntouched(zones, c, a, e);
    LeaseCheckRequired(zones, c, a, e);
    StartChanges(zones, c, a, e);
    hide Step, StartEffect, EncodeSnapshotPayload, Fresh;
    var events :| EncodeSnapshotPayload(events, c.id) == Ok(c.archive.snapshots[c.archive.revision].payload)
                  && Live(c.cache.rows) == MirrorOf(ById(events));
    StartedTracks(c, a, e, events);
  }

  lemma StartChanges(zones: Zones, c: Calendar, a: Action, e: Calendar)
    requires Step(zones, c, a, e) && a.StartPages? && e != c
    ensures StartEffect(c.archive, e.archive, a.claim.generation, a.input) && e.cache == c.cache
  {
    hide StartAttempt, StartEffect;
    StartedAttempt(zones, c, a.claim, a.input, a.now);
  }

  lemma StartedTracks(c: Calendar, a: Action, e: Calendar, events: seq<Event>)
    requires a.StartPages? && a.input.mode.Incremental? && e.cache.rows == c.cache.rows
    requires StartEffect(c.archive, e.archive, a.claim.generation, a.input)
    requires Live(c.cache.rows) == MirrorOf(ById(events))
    ensures e.archive.revision == a.input.baseRevision == c.archive.revision && e.archive.snapshots == c.archive.snapshots
    ensures Tracks(e, a.claim.generation, None, MirrorOf(ById(events)), Some(a.input.baseRevision))
  {
    hide MirrorOf, ById;
  }

  /**
   * An incremental attempt started while the cache equalled its base publishes a snapshot that equals the cache
   * again, although its pages are applied once while staged and once more on replay.
   */
  lemma IncrementalMirrors(zones: Zones, tr: seq<Calendar>, acts: seq<Action>, i: nat, n: nat)
    requires Run(zones, tr, acts) && Initial(tr[0]) && tr[0].cache.rows == map[] && i < n < |acts|
    requires acts[i].StartPages? && acts[i].input.mode.Incremental? && tr[i + 1] != tr[i] && Mirrors(tr[i])
    requires acts[n].FinishPages? && tr[n + 1] != tr[n] && acts[n].claim.generation == acts[i].claim.generation
    requires Undisturbed(tr, acts, i + 1, n, acts[i].claim.generation)
    ensures Mirrors(tr[n + 1])
  {
    var g, base := acts[i].claim.generation, acts[i].input.baseRevision;
    assert Step(zones, tr[i], acts[i], tr[i + 1]) && Step(zones, tr[n], acts[n], tr[n + 1]);
    hide Step, Mirrors, Undisturbed, EncodeSnapshotPayload, MirrorOf, ById;
    StartTracks(zones, tr[i], acts[i], tr[i + 1]);
    var events :| EncodeSnapshotPayload(events, tr[i + 1].id) == Ok(tr[i + 1].archive.snapshots[base].payload)
                  && Tracks(tr[i + 1], g, None, MirrorOf(ById(events)), Some(base));
    hide Tracks;
    TracksRun(zones, tr, acts, i + 1, n, g, None, MirrorOf(ById(events)), Some(base));
    SameCalendar(zones, tr, acts, i + 1, n);
    FinishCommits(zones, tr[n], acts[n], tr[n + 1]);
    FinishBase(zones, tr[n], acts[n], tr[n + 1], g, MirrorOf(ById(events)), base);
    CurrentFixed(zones, tr, acts, i + 1, n);
    hide FinalPage;
    IncrementalStep(zones, tr[n], acts[n], tr[n + 1], g, base, events);
  }

  /** The base of a committed incremental attempt is still the current revision. */
  lemma FinishBase(zones: Zones, c: Calendar, a: Action, e: Calendar, g: nat, m: Mirror, base: nat)
    requires a.FinishPages? && FinalPage(zones, c, a.claim, a.attemptId, a.delivery, a.nextSync, a.clocks) == Ok(e)
    requires g == a.claim.generation && Tracks(c, g, None, m, Some(base))
    ensures c.archive.revision == base
  {
    var t, p := Committed(zones, c, a, e);
    FinishEnds(zones, c, a, e);
    ReplayedIds(zones, c, a, e, t, p);
    hide Finalizes, FinalPage, AgreeOutside, View, Touched, WellFormed, RecordOf, PageChain.Stage;
  }
}
