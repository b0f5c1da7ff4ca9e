# Calendar sync control plane: a verified model

The system keeps a local read model of provider calendars and copies events between calendars. Its durable state is a
set of database tables changed by short transactions, and its difficulty is in the protocols that let several workers
and writers change those tables at once without publishing a wrong snapshot, forgetting a deletion, or repeating a
provider write whose outcome is unknown. This project models those protocols as state machines whose steps are whole
transactions, with arbitrary clock samples, provider answers and interleavings, and proves what every run keeps. The
loops that compute on one page, one object or one graph are methods proved against a specification.

`dafny verify dfyconfig.toml` checks everything.

## How it is organised

| files | what they hold |
|---|---|
| `Base`, `Strings`, `Events` | results, ordered strings, decimal numbers, splitting, provider-neutral events and pages |
| `Identity`, `Materialize`, `MaterializeTheorems`, `PageOrder` | occurrence identity and the materialization of staged pages |
| `Payload`, `PageChain` | the stored JSON envelopes with attendee evidence, the staged page chain, its writer and its reader |
| `EventCache`, `SyncLease`, `Calendars` | one calendar's rows and the transactions on them, operator steps included, as one transition function |
| `CalendarStore` | the same transactions as a class over the tables: loops, early exits and rollback |
| `CalendarRuns`, `LeaseRuns`, `Retention`, `Publication`, `MirrorRuns`, `PublicationRuns`, `SweepRuns`, `GrantRuns`, `SyncEnds`, `CandidateRuns`, `LocalWrites`, `ReadGate`, `RepairEffects` | safety over every run of one calendar |
| `Witness` | a run that ends with an accepted snapshot |
| `Fence`, `FenceStore`, `FenceRuns`, `DatabaseRuns` | the exclusive dispatch fence and runs of the whole database |
| `WriteGuard`, `Worker`, `GuardRuns` | the workflows and the job worker that write under the fence, and guarded calls among all other transactions |
| `Jobs`, `JobStore` | the job queue and its runs |
| `ProviderPages`, `Coordinator`, `CoordinatorRuns`, `EventSync` | provider pages and what they do to the cache, the law of a run that drains them under one claim, what every lawful run amounts to, and the loops with repairs and retries |
| `RuleGraph`, `CalDav`, `Split`, `GraphRecurrence`, `GraphMeaning`, `Discovery` | the cycle search, CalDAV expansion, series splitting, the Microsoft translation and what it preserves, the single-flight cache |

A transaction is one function from the rows before it to the rows after it, or an error with nothing changed. The
classes `EventTables`, `DispatchStore`, `JobStore` and `DiscoveryCache` hold the same rows in fields; each of their
methods is proved to leave exactly what its function says. Properties of runs are stated over a sequence of states and
a sequence of actions, whatever the actions are.

## What is proved, and where the code falls short of its own description

- Page storage round trips only when no property map has keys that differ by letter case. The writer accepts such
  maps and the reader refuses them, so `PagePayloadRoundTrip` and `WriterReaderAgree` are equivalences with that
  condition. Reading back also clears the attendees-known flag, which is not serialised.
- A run row can stay open for good: `StartRun` is a bare insert, so a worker whose claim was recovered before it got
  there opens a run that no claim answers for. `ClosedExactly` says which steps close a run, `LeftOpen` that none is
  left once its job has ended, and `StrayRun` is a history that gets there. A stray run is still closed when its job is
  claimed again and recovered again. `PairedThroughout` shows that jobs and runs stay paired when every run starts
  under a claim that holds, once per claim.
- A job claim or renewal whose commit takes longer than the lease stays in the row and is reported as lost;
  `ClaimJob` and `RenewJobLease` say so, and `ExpiredIsRecovered` says when such a claim is recovered.
- `restoreProjectionEvidence` may have written some flags when it fails; its callers then drop the events.
- An EXDATE whose value type differs from DTSTART is reported as cancelled and still expanded. `Expand` says exactly
  when an original start appears twice, `MismatchClashes` gives an instance, and `ExpansionExact` shows that matching
  value types exclude it.
- A Graph recurrence survives the round trip exactly when its pattern is well formed and the zone of a timed event has
  a Windows name (`RoundTripExact`); unused pattern fields come back cleared.
- The translation to Graph does not look at every selector of a monthly or yearly rule: days of the month beside an
  ordinal weekday are dropped, and a yearly rule without a month gets the month of its start (`MonthDaysDropped`,
  `MonthsDropped`, `YearlyOrdinalMoves`). For all other rules it accepts, `ToGraphKeepsDays` holds.
- As shipped, `followingSeriesExceptionsVerified` (internal/application/following.go:553) always answers false, so the
  two workflows that split a series stop before their first write. The model leaves that answer open.

## Model

| member | source | states |
|---|---|---|
| CalendarRuns.AcceptedSnapshotSawNoMutation | internal/storage/projection_snapshot_inspection.go:28-64 | In every run of a calendar's transactions, a snapshot the read gate accepts was published, at some step, from the very attempt that an earlier committed start stored under the snapshot's identity and epoch; from that start to the read no mutation was pending, begun or resolved |
| DatabaseRuns.AcceptedAcrossDatabase | internal/storage/projection_snapshot_inspection.go:28-64 | The same over runs of the whole database, where intents also come from shared and exclusive operations on several calendars |
| DatabaseRuns.RunProjects | internal/storage/exclusive_dispatch_fence.go:42-97 | Every run of the database is, for each calendar, a run of that calendar's own transactions and fences, so the per-calendar results hold in it |
| ReachableRun.AcceptanceReachable | internal/storage/source_projection_final_page.go:17-75 | A claim, a start and a terminal page lead from empty tables to a verified snapshot the read gate accepts, so the results about such snapshots are about something |
| CalendarRuns.StepLaws | internal/storage/projection_mutations.go:27-86 | The epoch never falls; while it stays the same the pending intents stay the same; every attempt keeps its identity and epoch or is new in a committed start with nothing pending; every verified snapshot is unchanged or published by this step from the attempt it used up |
| CalendarRuns.EverythingSourced | internal/storage/projection_page_staging.go:39-126 | Every stored attempt was stored by a committed start and has been there ever since; every verified snapshot was published from such an attempt and has been there ever since |
| CalendarRuns.Finalized | internal/storage/projection_finalizer.go:37-160 | A committed final page appended its page, prepared a candidate, stored it, replayed its pages, swept a replacement and ended the claim, all from the same attempt |
| ReadGate.FinalizationOpensGate | internal/storage/projection_snapshot_inspection.go:28-64 | After a committed finalization the read gate is open for exactly the requests whose window and age the snapshot fits |
| ReadGate.FinalizationAgrees | internal/storage/projection_finalizer.go:37-160 | A committed finalization leaves row and snapshot with the same cursor, window and zone at an undisturbed epoch; an incremental snapshot continues a verified one that ended at the row's cursor in the same window, zone and epoch |
| ReadGate.FinalizationTimely | internal/storage/projection_finalizer.go:37-160 | A finalization commits only while its claim passes, from the last page to the commit, and before the next poll it sets |
| ReadGate.ReaderMayRely | internal/storage/projection_snapshot_inspection.go:28-64 | Behind the gate there is a verified snapshot of the asked window and age, of the source's zone, at the row's own cursor and window, while no claim passes, nothing is quarantined and no mutation is pending |
| ReadGate.StartFreezes | internal/storage/projection_page_staging.go:39-126 | A started attempt is frozen against row, source and guard as they are; a replacement starts from an empty cursor, an incremental attempt from a verified base that ends at the row's own; attempts of older generations are gone |
| ReadGate.PagesStayFrozen | internal/storage/projection_page_staging.go:128-291 | A page is added only under the attempt's own claim, while row, source and guard are those it was frozen against |
| MirrorRuns.FinalizationExact | internal/storage/projection_finalizer.go:95-154 | After a finalization the live cache equals the published snapshot if and only if the rows it built on agreed with its base outside the IDs its pages name |
| PublicationRuns.ReplacementMirrors | internal/storage/projection_finalizer.go:95-154 | Over every run, a replacement finalized in a generation without repair, write-through or unstaged page leaves the cache equal to the snapshot it publishes |
| PublicationRuns.IncrementalMirrors | internal/storage/projection_finalizer.go:95-154 | An incremental attempt started while the cache equalled its base publishes a snapshot equal to the cache again, although its pages are applied while staged and again on replay |
| PublicationRuns.TracksRun | internal/storage/projection_page_apply.go:21-72 | While a generation is syncing, the watched rows differ from the base only under IDs named by staged pages |
| Publication.FoldIsDifferencePlus | internal/storage/event_cache.go:566-687 | Applying the staged pages one after the other to the cache is one difference and one union, independent of what was there under their IDs |
| EventCache.BatchMirrors | internal/storage/event_cache.go:566-687 | The generation-stamped rows with tombstones behave like a plain map from event ID to content under any page batch, both for all live rows and for those of the batch's generation |
| SweepRuns.SweepExact | internal/storage/event_cache.go:689-722 | After any final replacement page the live rows whose object is not actively quarantined are exactly the live writes of that generation |
| SweepRuns.GenerationMirrors | internal/storage/event_cache.go:1039-1118 | Until a later generation opens, the live rows of a generation are the plain mirror of its writes |
| SweepRuns.QuarantineProtects | internal/storage/event_cache.go:703-722 | Rows of an actively quarantined object survive the sweep of an ordinary final page unchanged unless the page itself rewrote them |
| SweepRuns.FinalizationIsClean | internal/storage/projection_finalizer.go:37-160 | A finalization commits only where nothing is quarantined and quarantines nothing, so its sweep has nothing to protect |
| SweepRuns.ReadyIsClean | internal/storage/event_cache.go:689-752 | In every run a ready calendar has no active quarantine |
| LeaseRuns.OneClaimPasses | internal/storage/event_cache.go:446-538 | Of two claims handed out in a run the earlier one never passes the lease check again, for any clock sample |
| LeaseRuns.GenerationsGrow | internal/storage/event_cache.go:446-538 | The generation of a sync row never decreases |
| LeaseRuns.SupersededClaimIsInert | internal/storage/event_cache.go:1223-1254 | Once the generation moved past a claim, no page, repair, renewal, failure, park, reset, staging or finalization by it changes any row |
| LeaseRuns.CursorAdvancesOnlyOnCleanEnd | internal/storage/event_cache.go:723-752 | With claims that were really handed out, the cursor changes only to a clean terminal page's cursor, leaving the calendar ready, or is cleared together with a new generation |
| LeaseRuns.RowLaws | internal/storage/event_cache.go:758-909 | Every way a step may change a sync row, and that each ending needs a claim that passes the lease check |
| Retention.ArchiveHolds | internal/storage/projection_finalizer.go:54-149 | In every run at most two snapshots exist, the current nonzero revision is stored, and observations of older verified revisions are prefixes of newer ones |
| Retention.ObservationsSurvive | internal/storage/projection_retention.go:15-54 | The observations of any verified revision stored at one moment begin those of every verified revision current later |
| Retention.RetentionKeepsReferenced | internal/storage/projection_retention.go:73-82 | Retention keeps an older verified revision exactly when something persisted refers to it; its observation test never decides |
| Retention.RetentionTouches | internal/storage/projection_retention.go:15-54 | Retention takes disposable pins and snapshots, and nothing else |
| Retention.ObservationMultisetContains | internal/storage/projection_retention.go:55-72 | The count-map loop answers whether one list's multiset includes the other's |
| GrantRuns.OneGrantPerMutation | internal/storage/event_cache.go:148-250 | Between two consumed authorizations of one object there is always a new operator grant, for the version consumed second |
| GrantRuns.FirstMutationGranted | internal/storage/event_cache.go:225-250 | Every consumed authorization has an earlier grant unless the run began with one |
| GrantRuns.AuthorizationsCurrent | internal/storage/event_cache.go:1120-1137 | On active quarantine rows a nonempty authorization always equals the current ETag |
| Materializer.MaterializeAttempt | internal/calendarprojection/materialize.go:23-141 | The loops over pages succeed exactly on admissible attempts and compute the specified projection and observations |
| Materializer.Candidates | internal/calendarprojection/candidates.go:23-79 | The scan accepts exactly the event lists that are valid with pairwise distinct identities and returns those inside the window |
| Materializer.ApplyDeletions | internal/calendarprojection/materialize.go:70-91 | Deleting a page's IDs removes exactly them, and each observation is read against the base although the map has changed |
| Materializer.CheckPage | internal/calendarprojection/materialize.go:53-69 | One page's checks accept exactly the valid pages |
| Materializer.ApplyUpserts | internal/calendarprojection/materialize.go:92-105 | The loop stores exactly the page's upserts |
| MaterializerTheorems.MaterializeExact | internal/calendarprojection/materialize.go:53-141 | The result is exactly the base minus removed IDs plus the upserts, ascending by ID, inside the window, one dated instance per source object, none cancelled and none a series |
| PageOrder.OrderIrrelevant | internal/calendarprojection/materialize.go:53-141 | Two attempts with the same page contents in any two orders, each ending with its one complete page, are both accepted or both refused, and publish the same events and the same observations up to order |
| MaterializerTheorems.ObservationsExact | internal/calendarprojection/materialize.go:70-91 | Observations list every deleted ID once in page order, each with the identity of the base event, or unresolved without one |
| MaterializerTheorems.ResolvedExactly | internal/calendarprojection/materialize.go:146-165 | A removal is resolved exactly when the base holds its ID and a provider's cancellation names that very instance, the same series and the same occurrence |
| OccurrenceIdentity.IdentityInjective | internal/calendarprojection/identity.go:13-46 | Two identities are equal exactly when they stand for the same standalone event or the same series occurrence |
| Payload.PagePayloadRoundTrip | internal/storage/projection_payload.go:137-171 | Decoding an encoded page gives it back exactly when it fits, was stored bare and has no case-colliding property keys; otherwise it is refused |
| Payload.SnapshotPayloadRoundTrip | internal/storage/projection_payload.go:172-192 | The same for snapshots |
| Payload.RestoreEvidence | internal/storage/projection_payload.go:45-70 | The loops restore every flag exactly when events and evidence match; malformed input changes nothing, and when an event has no evidence exactly the flags before it are already written |
| PageChain.WriterReaderAgree | internal/storage/projection_page_staging.go:198-291 | Any successful sequence of appends that ends in a complete page yields records the reader accepts, giving those pages in order, unless a page has case-colliding keys |
| PageChain.ReplayRecognised | internal/storage/projection_page_staging.go:258-265 | Appending an ordinal again never changes the attempt: it is recognised exactly when tokens, cursor and payload are those stored |
| PageChain.ValidatePageChain | internal/storage/projection_page_chain.go:21-78 | The one-pass check accepts exactly the valid chains and returns their decoded pages in order |
| PageChain.ReadRecord | internal/storage/projection_page_chain.go:36-70 | One record is accepted exactly when its payload decodes, its tokens and digest match and its page is well formed |
| PageChain.ValidateGooglePage | internal/storage/projection_page_staging.go:293-345 | The set-building loops accept exactly the structurally valid pages |
| CalendarStore.EventTables.FinalizeProjection | internal/storage/projection_finalizer.go:37-160 | Prepare, retention, new revision, guard, replay, sweep and end of the claim leave exactly the specified rows, or nothing changes |
| CalendarStore.EventTables.FinalizeSourcePage | internal/storage/source_projection_final_page.go:17-75 | Appending the terminal page and finalizing is one transaction |
| CalendarStore.EventTables.PrepareCandidate | internal/storage/projection_finalization_prepare.go:32-136 | Re-reading and materializing an attempt gives the specified candidate or its error |
| CalendarStore.EventTables.ReleaseRetainedRevisions | internal/storage/projection_retention.go:15-54 | The loop over older revisions leaves exactly the retained ones |
| CalendarStore.EventTables.ApplyEventSyncPage | internal/storage/event_cache.go:542-752 | One page batch, row by row, then sweep and end of the claim, leaves exactly the specified rows, or nothing changes |
| CalendarStore.EventTables.WriteBatch | internal/storage/event_cache.go:592-688 | The five loops over a batch's lists have exactly the specified effect, in that order |
| CalendarStore.EventTables.EndClaim | internal/storage/event_cache.go:689-752 | Sweep and end of the claim: degraded with the claim's cursor when anything is quarantined, otherwise ready with the new one |
| CalendarStore.EventTables.ApplyStagedPage | internal/storage/projection_page_apply.go:21-72 | A page that is not the last is staged and applied together or not at all |
| CalendarStore.EventTables.ApplyObjectRepair | internal/storage/event_cache.go:277-352 | A repair replaces the object's members, deletes it or renews its warning |
| RepairEffects.ReplacementMeans | internal/storage/event_cache.go:277-352 | A replacement repair leaves of its object exactly the members it brings, as it last brought them, ends its quarantine, and touches no other event or object |
| RepairEffects.AbsenceMeans | internal/storage/event_cache.go:324-334 | An absent object loses its live events and its quarantine; no other event or object is touched |
| RepairEffects.StillQuarantinedMeans | internal/storage/event_cache.go:335-346 | An object still quarantined keeps its rows; at a known ETag it keeps attempts and authorization, at another it starts without either; setting the next repair counts one attempt |
| CalendarStore.EventTables.StartPageAttempt | internal/storage/projection_page_staging.go:39-126 | Older attempts go and a fresh one is stored, only under the claim, the frozen source and an undisturbed guard |
| CalendarStore.EventTables.PublishCandidate | internal/storage/projection_snapshots.go:86-145 | A staged candidate becomes the next, unverified, revision or nothing changes |
| CandidateRuns.StagedCandidate | internal/storage/projection_snapshots.go:47-145 | A staged candidate excludes any other; it is published exactly while there is room for its revision, with what it was staged with and never twice |
| CandidateRuns.PublishedAsStaged | internal/storage/projection_snapshots.go:47-172 | In every run a candidate is published only as some step staged it, with no mutation pending, begun or resolved and no discard in between |
| SyncEnds.ClaimTakesOver | internal/storage/event_cache.go:446-507 | A claim succeeds only where no other passes any more; the claim it issues passes exactly until its deadline, nobody else passes, and until then the calendar cannot be claimed, rescheduled or moved to another window |
| SyncEnds.RenewExtends | internal/storage/event_cache.go:509-538 | A renewal succeeds exactly for a passing claim and a later deadline, and changes nothing but the deadline; whatever passed still passes |
| SyncEnds.ResetReplaces | internal/storage/event_cache.go:878-909 | A reset ends the claim that asked for it at every time; its replacement has an empty cursor and passes for the rest of the same lease |
| SyncEnds.FailLeaves | internal/storage/event_cache.go:758-793 | After a failure no claim passes, cursor, window, generation and last success are as before, and the calendar can be claimed exactly from the chosen time |
| SyncEnds.IdleUntilClaimed | internal/storage/event_cache.go:1223-1254 | In every run, once a claim has ended no worker changes anything under any claim until the next one is taken |
| SyncEnds.ParkLeaves | internal/storage/event_cache.go:795-834 | After parking no claim passes and the progress is kept; no clock makes the calendar claimable, except for Apple after an authentication failure, at the recheck |
| SyncEnds.UnparksExactly | internal/storage/store.go:305-331 | A calendar parked for anything but authentication leaves that state exactly by an accepted rescheduling, the end of a shared mutation of it, a successful verification of its connection while no lease runs, or being enabled |
| SyncEnds.ParkedStays | internal/storage/event_cache.go:356-507 | In every run such a calendar stays parked, through new windows, repairs, claim attempts and being disabled, until the first of those steps, which unparks it |
| SyncEnds.VerificationRevives | internal/storage/store.go:305-331 | A verification changes a sync row exactly when it succeeds and the row is parked without a running lease; the calendar keeps its progress and is claimable at once |
| SyncEnds.SelectionInvalidates | internal/storage/store.go:460-490 | A changed selection ends even a live claim at every time, clears cursor and last success under a new generation, keeps the cached rows and closes the read gate; a repeated one changes nothing |
| SyncEnds.GateStaysClosed | internal/storage/store.go:460-490 | In every run the read gate stays closed from a changed selection until the final page of a later claim |
| CalendarStore.EventTables.EnsureSync | internal/storage/event_cache.go:359-444 | A missing row is created; a new window starts an unleased row over under a new generation, keeping a parked status |
| SyncEnds.EnsureMeans | internal/storage/event_cache.go:359-444 | A new row is due at once; a row with the window or with a lease stays as it is; otherwise the calendar starts over in the new window, and a parked one stays parked |
| SyncEnds.ScheduleMakesDue | internal/storage/event_cache.go:836-876 | Scheduling is refused while a claim passes; otherwise the calendar, parked or not, is claimable at once, from scratch under a new generation or with its progress kept |
| SyncEnds.DeferLeaves | internal/storage/source_sync_fence.go:43-83 | A deferral keeps cursor, window, generation and last success, leaves no claim that passes and makes the calendar claimable exactly from the chosen time |
| SyncEnds.FinalPageLeaves | internal/storage/event_cache.go:699-752 | After a committed final page, ordinary or finalizing, degraded or clean, no claim passes and the calendar is claimable exactly from the time the page names, or else the claim's, in the same window and generation; the error is the protocol code and the cursor the claim's own exactly when the end was degraded |
| SyncEnds.DeferredReadable | internal/storage/source_sync_fence.go:43-83 | A deferred calendar passes the read gate exactly when its publication still stands, nothing is quarantined and the request fits the snapshot |
| CalendarStore.EventTables.AuthorizeRepair | internal/storage/event_cache.go:148-223 | A grant goes only to an active object at its current ETag and makes its repair due |
| RepairEffects.GrantMeans | internal/storage/event_cache.go:148-221 | A grant authorizes the object at its ETag and makes its repair due; an idle calendar due later becomes due at once, a claimed one keeps its schedule |
| CalendarStore.EventTables.ConsumeAuthorization | internal/storage/event_cache.go:225-250 | True exactly when this call spent the grant, under the claim |
| LocalWrites.LocalWriteShows | internal/storage/event_cache.go:991-1011 | A local write is live at once under its own object, beside everything that was live before, and the sweep that ends the current generation keeps it |
| LocalWrites.LocalDeleteHides | internal/storage/event_cache.go:1013-1037 | A local deletion hides that event and no other, also after the sweep that ends the current generation, and its tombstone keeps the object it belonged to |
| LocalWrites.LocalRoundTrip | internal/storage/event_cache.go:991-1037 | Written and deleted, an event is gone and all else as before; deleted and written, it is exactly as if only written |
| CalendarStore.EventTables.BeginMutation | internal/storage/projection_mutations.go:27-56 | The epoch rises with the new intent, or nothing changes |
| CalendarStore.EventTables.ResolveMutation | internal/storage/projection_mutations.go:61-86 | The epoch rises as the intent goes, or nothing changes |
| DispatchFence.NormalizeMutationCalendars | internal/storage/projection_mutations_many.go:18-43 | The set-building loop yields the canonical list or a conflict |
| DispatchFence.NormalizedEqual | internal/storage/projection_mutations_many.go:18-43 | Two accepted requests have the same canonical list exactly when they name the same calendars |
| FenceStore.DispatchStore.BeginExclusiveDispatch | internal/storage/exclusive_dispatch_fence.go:42-97 | Ledger, reservation, epochs, intents, members and guard members are all written or all rolled back |
| FenceStore.DispatchStore.ReleaseExclusive | internal/storage/experimental_exclusive_release.go:26-137 | Sync rows, epochs, guard members, members, intents, ledger and reservation end together, or nothing changes |
| FenceStore.DispatchStore.BeginProjectionMutationMany | internal/storage/projection_mutations_many.go:50-98 | The shared fence without a reservation is written as a whole or not at all |
| FenceStore.DispatchStore.ResolveAndSchedule | internal/storage/projection_mutations_reconcile.go:16-137 | A shared operation ends and its calendars start over, or nothing changes |
| FenceRuns.FenceHolds | internal/storage/exclusive_dispatch_fence.go:42-97 | In every run at most one reservation per target key is unreleased, and ledger, members, guard members and intents of each operation name the same calendars |
| FenceRuns.FreshFence | internal/storage/migrations/postgres/024_exclusive_dispatch_fence.sql:1-15 | Tables on which nothing was ever fenced satisfy the invariant |
| FenceRuns.ReleaseSucceeds | internal/storage/experimental_exclusive_release.go:26-137 | A release succeeds exactly for an unreleased reservation named with its own calendars; none of its row counts can be wrong |
| FenceRuns.ReleaseExact | internal/storage/experimental_exclusive_release.go:80-133 | A release removes exactly its operation's rows, raises its calendars' epochs and starts their syncs over, and touches no other calendar |
| FenceRuns.ResolveRefused | internal/storage/projection_mutations_reconcile.go:94-117 | An operation that holds a reservation cannot be resolved around it |
| FenceRuns.UnreleasedBlocks | internal/storage/exclusive_dispatch_fence.go:104-117 | An unreleased reservation refuses every other one for its key, keeps sources from publishing under the global key and closes the read gate for its calendars |
| FenceRuns.CopySourcesWait | internal/storage/source_sync_fence.go:15-30 | While the global key is reserved no calendar that rules copy from is created, moved to another window or claimed; while it is free nothing keeps its steps out |
| SyncEnds.InvalidateRestarts | internal/storage/projection_mutations_reconcile.go:81-92 | After a release or a resolution a calendar is idle and due at once, from an empty cursor under a new generation |
| GuardRuns.ReleasedMeansKnown | internal/calendar/write_dispatch.go:44-70 | In every run a released guarded call has sent everything its workflow sends, and either none of it reached the provider or all of it was applied |
| GuardRuns.ReturnsHonestly | internal/calendar/write_dispatch.go:31-41 | Every way in which a single write, a series update, a series deletion or a job may return, as their loops are proved to return, backs a release with what was sent |
| GuardRuns.UnknownOutcomeBlocks | internal/calendar/write_dispatch.go:44-70 | Once a guarded call sent a write of unknown outcome, its reservation is never released and every later guarded call is refused |
| GuardRuns.SettledCanRelease | internal/calendar/write_dispatch.go:61-65 | The release of a settled call that is still reserved always succeeds |
| WriteGuard.ConcludeGuarded | internal/calendar/write_dispatch.go:50-70 | The reservation goes exactly when the return value is a confirmed result or carries the no-dispatch marker, and a failed release is reported as unknown |
| WriteGuard.UpdateFollowing | internal/application/following.go:46-189 | It sends what the split needs and nothing else; the marker appears exactly when nothing was sent and nothing was confirmed, success exactly when the split is complete, a partial result exactly for a preview, a changed original or an unconfirmed trim; the original is trimmed only over a replacement known to exist |
| WriteGuard.DeleteFollowing | internal/application/following.go:191-244 | The marker appears only when nothing was sent, and exactly a completed trim succeeds |
| WriteGuard.SingleWrite | internal/calendar/registry.go:243-287 | A single guarded write releases exactly on completion or a definitive no-dispatch failure |
| Jobs.OneJobEach | internal/storage/operations.go:63-71 | Every due rule gets one pending job under its own ID |
| JobRuns.ScheduleMoves | internal/storage/operations.go:20-76 | A scheduled rule is not due again before its interval has passed; every other rule keeps its schedule |
| JobRuns.AddedSafely | internal/storage/operations.go:20-127 | A job is added only for a known rule with usable calendars; one that may write only while the rule is enabled, no reservation is held and no job of the rule has an unknown outcome |
| JobRuns.ClaimMeans | internal/storage/operations.go:129-199 | A claimed job was due, its rule could run it and had no running job, none claimable was due earlier or created earlier; the claim is safe from recovery for fifteen minutes |
| JobRuns.OneRunningPerRule | internal/storage/operations.go:129-199 | In every interleaving at most one job of a rule is running |
| JobRuns.AttemptsIncrease | internal/storage/operations.go:129-199 | Attempt numbers strictly increase from one claim of a job to the next |
| JobRuns.LostClaimIsInert | internal/storage/operations.go:271-334 | Once a claim was recovered, retaken or finished, no renewal or finish its worker still sends changes anything |
| JobRuns.ClaimsEnd | internal/storage/operations.go:203-262 | Whatever step takes a claim away ends it for good |
| JobRuns.EndTogether | internal/storage/operations.go:353-441 | A finish ends its job and its run with the reported outcome, except that a failure after a stop request counts as unknown when something was dispatched and as stopped otherwise; nothing else changes |
| JobRuns.PairingExact | internal/storage/operations.go:336-346 | Open runs and running jobs stay paired through a step exactly when a run that starts finds its job running and without an open run, whoever holds the claim |
| JobRuns.PairedThroughout | internal/storage/operations.go:336-441 | When every run starts under a claim that holds at that moment and no claim starts two, every open run belongs in every state to a running job and is its only one |
| JobRuns.ClosedExactly | internal/storage/operations.go:203-441 | A step closes an open run exactly when it recovers its job as stale or is a committed finish that names it |
| JobRuns.LeftOpen | internal/storage/operations.go:203-441 | In every run, an open run whose job has ended stays open in every later state |
| JobRuns.StrayRun | internal/storage/operations.go:336-346 | A reachable history in which a run started after its claim was recovered is still open when its job has ended under the next claim |
| JobStore.JobStore.ScheduleDueJobs | internal/storage/operations.go:20-76 | The loop enqueues one job for exactly the due rules and moves their schedules |
| JobRuns.UnknownHolds | internal/storage/operations.go:20-127 | In every run, a rule with a job of unknown outcome keeps it, and every job queued for the rule from then on is a dry run |
| JobStore.JobStore.RequestRulePause | internal/storage/sync_control.go:15-39 | An enabled rule is paused, its pending jobs cancelled and its running ones asked to stop, dry runs excepted |
| JobRuns.PauseMeans | internal/storage/sync_control.go:15-39 | Pausing leaves no writing job of the rule in the queue, asks the running ones to stop and keeps the rule from being scheduled; dry runs, ended jobs and other rules are as before |
| JobRuns.StopHonoured | internal/storage/sync_control.go:44-57 | In every run, a running job asked to stop is never queued or claimed again and ends, if it ends, as succeeded, stopped or unknown |
| JobRuns.StoppedMeansIdle | internal/storage/operations.go:390-400 | A job becomes stopped only by a failed finish, of a job asked to stop, that dispatched nothing |
| JobStore.JobStore.ClaimJob | internal/storage/operations.go:129-199 | The first claimable job is claimed under a new attempt with a live lease, or there is none; a lease used up before the commit undoes the claim, and one used up by it is reported as lost while the row stays claimed |
| JobStore.JobStore.RecoverStaleJobs | internal/storage/operations.go:203-262 | The two loops end exactly the stale claims and the runs they left open |
| JobRuns.RecoveryMeans | internal/storage/operations.go:203-262 | Exactly the stale claims end: such a job is due again at once, or unknown if it was asked to stop, and its open runs end failed or unknown with it |
| JobStore.JobStore.RenewJobLease | internal/storage/operations.go:271-311 | Reported as renewed, a claim is safe from every recovery for a full lease from the locked clock; a renewal that used up its own lease while committing stays in the row and is reported as lost |
| JobRuns.ExpiredIsRecovered | internal/storage/operations.go:181-256 | A committed claim nobody acts on is recovered exactly from its deadline on, back into the queue unless a stop was requested |
| JobStore.JobStore.FinishRun | internal/storage/operations.go:353-441 | Job and run end together or neither does |
| Worker.ExecuteJob | internal/runtime/worker.go:252-389 | The reservation is released exactly when a real run was clean or dispatched nothing, and success is reported exactly for a clean run whose release, if any, succeeded |
| EventSync.Runner.RunOne | internal/eventsync/service.go:83-302 | For any provider and store the run is lawful and returns only with its claim ended, or for a cancellation, a lost lease, a fence that could not be taken or given back, or an ending that did not commit; with every call committed and nothing cancelled the claim is always ended; and in a calm run it is ended as the first reply that does not go on demands |
| CoordinatorRuns.FeedDecides | internal/eventsync/service.go:177-299 | In a calm run that ended, after pages that go on, the next reply decides the last step: a sound last page is stored as such, an unsound or repeated page parks the claim, a failure parks it or fails it with its own delay |
| CoordinatorRuns.FeedExhausts | internal/eventsync/service.go:177-183 | A calm run whose pages never end makes MaxPages calls and fails the claim for a retry |
| CoordinatorRuns.NothingSkipped | internal/eventsync/service.go:163-302 | In a lawful run, between a page received and the next request a batch that does to any cache what the page says was stored, or the page was staged, or its reset was honoured |
| CoordinatorRuns.BatchesCarry | internal/eventsync/service.go:235-299 | In a lawful run every ordinary batch does to any cache what the last page received says; it is a full sync exactly in replacement mode, degraded exactly after a warning, and only the last page sets a next poll, one interval after the clock, and unless degraded a cursor |
| CoordinatorRuns.CaptureWhole | internal/eventsync/service.go:248-292 | In a lawful run a page is staged or published only in a capture opened before the first request since the last reset, in which every page received before was staged |
| CoordinatorRuns.CallsBounded | internal/eventsync/service.go:83-302 | A lawful run makes at most MaxPages page calls and honours at most MaxResets resets |
| CoordinatorRuns.EndsLast | internal/eventsync/service.go:83-302 | In a lawful run at most one step ends the claim, and nothing follows it |
| EventSync.Runner.RepairObject | internal/eventsync/service.go:380-485 | The due object is repaired, and the run goes on only when the answer was recorded, as the failure or the result it was, and no fence is left that a result would free |
| CoordinatorRuns.FenceKeptUntilRecorded | internal/eventsync/service.go:396-485 | In a lawful run the fence of a repair allowed to mutate is given back only after the repair brought a sound result and that result was recorded; after a failed or malformed repair it is kept |
| EventSync.Runner.TakeGrant | internal/eventsync/service.go:396-434 | The fence is taken before the grant; the run goes on with the grant spent, or without one and the fence given back; otherwise at most the claim is failed |
| EventSync.Runner.BeginCapture | internal/eventsync/service.go:121-161 | A capture starts exactly as logged, after at most one restart from an empty cursor, and only when planned; one that cannot be opened is given up without stopping the run; in a calm run a planned capture is opened |
| EventSync.Runner.Fail | internal/eventsync/service.go:537-563 | A failure ends the claim exactly unless the context is cancelled or the transition does not commit: parked for a class that parks, otherwise failed with the delay of its class and RetryAfter |
| CoordinatorRuns.GrantsCoverRepairs | internal/eventsync/service.go:396-440 | In a run there are at least as many consumed grants as repairs allowed to mutate |
| EventSync.Runner.Store | internal/eventsync/service.go:248-292 | A stored page is logged exactly once: through the capture, staged or finalized, or as a batch that carries it; a page that was not stored is not logged, and a first call that commits stores it as asked |
| ProviderPages.ValidatePage | internal/eventsync/service.go:631-689 | The set-building loops accept exactly the well-formed pages |
| ProviderPages.ValidPageBatch | internal/eventsync/service.go:691-724 | A well-formed page becomes a batch that storage accepts exactly when every event's times are valid |
| ProviderPages.PageCarried | internal/eventsync/service.go:691-724 | Applied to any cache, the batch of a page leaves the page's events as it last brought them, only its members of a replaced object, none of a deleted object and every other event as it was; what the page brings or removes leaves quarantine, what it only warns of is quarantined at that ETag, and the rest of the quarantine stays |
| Coordinator.DelayBounds | internal/eventsync/service.go:324-355 | Under any configuration a delay without RetryAfter is the least of base, poll interval and maximum, and after a repeated error the lesser of the last two; it is positive, and what the adapter configured is kept |
| CoordinatorRuns.RetryAfterHonoured | internal/eventsync/service.go:324-355 | In every lawful run, a claim that fails for a reason the provider gave does so after exactly the delay the provider asked for, or else after a positive delay of at most RetryMax; without such a reason it fails only at a limit or in trouble with the store, a plan or a zone |
| CoordinatorRuns.KindsExactly | internal/eventsync/service.go:579-586 | Transient and rate-limited failures are retried and all others park; a failed repair ends the run exactly for authentication, permission and capability failures, which park |
| RuleGraph.CheckSyncTargetEligibility | internal/storage/cache_execution_eligibility.go:27-122 | The check passes exactly when the rule is ready, no relevant rule may write to the same Google target, and with cached rules no closed walk of relevant routes exists |
| RuleGraph.TargetsApart | internal/storage/cache_execution_eligibility.go:27-88 | An eligible rule shares its Google target with no rule that runs, has written before, or is cached beside a direct one, if either of the two is cached; a cached rule lies between two different written-out Google calendars |
| RuleGraph.NoFeedback | internal/storage/cache_execution_eligibility.go:89-122 | With a cached rule about, no event can travel from a calendar along such rules and come back to it |
| RuleGraph.HasCycle | internal/storage/cache_execution_eligibility.go:97-120 | For every finite graph and every order of keys, the search ends and answers whether there is a cycle |
| RuleGraph.CycleSearch.Visit | internal/storage/cache_execution_eligibility.go:99-115 | The recursive search returns true only with a cycle at hand; otherwise it leaves a finishing order of everything it visited |
| RuleGraph.BuildGraph | internal/storage/cache_execution_eligibility.go:89-96 | The successor lists have exactly the edges of the routes, unless one lacks a physical Google ID |
| RuleGraph.OrderedIsAcyclic | internal/storage/cache_execution_eligibility.go:97-120 | A graph all of whose nodes are in a finishing order has no cycle |
| RuleGraph.SameCycles | internal/storage/cache_execution_eligibility.go:89-96 | Cycles of the successor lists are closed walks along rule routes |
| CalDav.Expand | internal/apple/recurrence_v2.go:110-247 | The three loops succeed exactly on expandable objects, add exactly the specified items, and repeat an original start exactly on a clash |
| CalDav.ReadChanges | internal/apple/recurrence_v2.go:151-194 | The exceptions are accepted exactly when each is sound and no original start is repeated |
| CalDav.ReportExcluded | internal/apple/recurrence_v2.go:226-235 | In any order, exactly the excluded starts in the window without an exception left are reported as cancelled |
| CalDav.ReportRest | internal/apple/recurrence_v2.go:236-247 | In any order, exactly the exceptions left that belong to the window are shown |
| CalDav.ExpansionExact | internal/apple/recurrence_v2.go:203-247 | The instances shown as taking place are precisely the resolved ones that overlap the window; with matching value types nothing clashes |
| CalDav.ShownForward | internal/apple/recurrence_v2.go:151-194 | No shown instance ends before it starts, and every moved one is a sound exception of this object for that one instance |
| CalDav.OverlapsMeans | internal/apple/recurrence_v2.go:280-286 | An interval overlaps a window exactly when they share an instant, an empty one counting as its start |
| CalDav.AmbiguousMeans | internal/apple/recurrence_v2.go:288-294 | An all-day interval is in doubt exactly when some zone, at most a day away, would have it overlap the window |
| CalDav.MismatchClashes | internal/apple/recurrence_v2.go:139-150 | An EXDATE of the other value type is reported as cancelled and still occurs |
| CalDav.ScanOccurrences | internal/apple/recurrence_v2.go:203-225 | The scan widened by the duration misses no overlapping occurrence, and uses up exactly the exceptions it meets |
| SeriesSplit.SplitPartitions | internal/application/following.go:328-371 | Split at its elapsed-th occurrence, a rule's two halves have exactly the occurrences before it and from it on, and a COUNT is conserved (section 3.3.10 of RFC 5545) |
| SeriesSplit.OldHalfRecognised | internal/application/following.go:373-394 | The old half of every successful split is recognised as already trimmed |
| SeriesSplit.OriginalNotTrimmed | internal/application/following.go:373-394 | A rule that still has the split occurrence is never taken for a trimmed one |
| SeriesSplit.SplitRecurrence | internal/application/following.go:328-371 | The pass over both copies of the lines computes the specified halves or refuses |
| SeriesSplit.ReadParts | internal/application/following.go:335-349 | The loop over a rule's parts separates its pattern from its limits |
| SeriesSplit.HalfRules | internal/application/following.go:334-365 | Both halves of a split line are rules with the original pattern: the old one ends before the split or after the elapsed count, the new one keeps the rest of the count or the original limit |
| SeriesSplit.RecurrenceTrimmedBefore | internal/application/following.go:373-394 | The nested scan answers by the first limit of the first rule line that has one |
| GraphRecurrence.RoundTripExact | internal/microsoft/recurrence.go:15-252 | For an event in the recurrence zone, Graph to rule to Graph gives the same pattern and end exactly when the pattern is well formed and the zone of a timed event has a Windows name |
| GraphMeaning.ToRuleKeepsDays | internal/microsoft/recurrence.go:167-221 | The rule written for a Graph recurrence stands for exactly the days of its pattern, each read in its own terms: weekday names, ordinals, days of the month, months and intervals against BYDAY, BYMONTHDAY, BYMONTH, WKST and INTERVAL (section 3.3.10 of RFC 5545) |
| GraphMeaning.ToGraphKeepsDays | internal/microsoft/recurrence.go:15-157 | The pattern found for a rule stands for exactly the days of the rule, unless it has days of the month beside weekdays, or is yearly with a selector but no month |
| GraphMeaning.MonthDaysDropped | internal/microsoft/recurrence.go:102-157 | Beside an ordinal weekday the days of the month are dropped: the days of the rule are those of its pattern that fall on them |
| GraphMeaning.MonthsDropped | internal/microsoft/recurrence.go:127-157 | A yearly rule with a day of the month but no month becomes a pattern of the start's month alone |
| GraphMeaning.YearlyOrdinalMoves | internal/microsoft/recurrence.go:127-145 | A yearly rule with an ordinal weekday but no month counts within the year, its pattern within a month: a first weekday that is not the first of the year is no day of the rule |
| GraphMeaning.ToRuleKeepsEnd | internal/microsoft/recurrence.go:222-246 | A translated recurrence ends with the same count, on the same day, or never; a dated end is the last second of its day in the zone |
| GraphMeaning.ToGraphKeepsEnd | internal/microsoft/recurrence.go:158-164 | The range found for a rule has its count or the local day of its end, starts on the local day of the event and names its zone |
| GraphMeaning.SameEndAdmits | internal/microsoft/recurrence.go:158-246 | Two recurrences with the same end admit the same instants but for some of the last day |
| GraphMeaning.ZoneKept | internal/microsoft/recurrence.go:254-269 | The zone of a translated recurrence is UTC, the named zone, or the one its Windows name stands for, and can be loaded; it is refused exactly when none of these is found |
| GraphRecurrence.ReadGraphDays | internal/microsoft/recurrence.go:271-296 | The day loop computes the specified list or refuses |
| GraphRecurrence.ReadNames | internal/microsoft/recurrence.go:59-80 | The weekday loop computes the names and the index or refuses |
| Discovery.DiscoveryCache.EnterLookup | internal/apple/discovery.go:44-67 | A caller is served only what the last finished discovery found before its expiry, joins a flight that is open, or leads when no flight is |
| Discovery.DiscoveryCache.LandFlight | internal/apple/discovery.go:94-111 | The open flight lands with an answer newer than all earlier ones, which lookups are served exactly until it expires, and after a failure not at all |
| Discovery.DiscoveryCache.InvalidateDiscovery | internal/apple/discovery.go:114-123 | The named generation is not served again, every other one exactly as before |
| DiscoveryRuns.OneDiscovery | internal/apple/discovery.go:38-112 | In every interleaving at most one caller is discovering |
| DiscoveryRuns.WaiterGetsItsFlight | internal/apple/discovery.go:50-62 | A caller that joined a flight gets the answer that flight's leader got |
| DiscoveryRuns.ServedIsFresh | internal/apple/discovery.go:44-49 | A served home set was found by the last finished discovery, which succeeded, before its expiry |
| DiscoveryRuns.InvalidateExact | internal/apple/discovery.go:114-123 | An invalidation discards the cached home set exactly when it names the generation it was found in |
| DiscoveryRuns.InvalidatedStaysGone | internal/apple/discovery.go:114-123 | An invalidated generation is never served from the cache again |

## Left out

- JobStore.JobStore.ScheduleDueJobs: takes its job IDs as already fresh, as UUIDs are.
- CalDav.Expand: takes the recurrence library's answers for the two ranges as its scans.
- GuardRuns.ReleasedMeansKnown: only the call itself asks for the release of its reservation, as its operation ID is drawn at random and kept by that call alone.
- JobRuns.PairedThroughout: assumes what the worker does, one start for each claim it executes, while that claim holds.
- Worker.ExecuteJob: that a clean engine run committed every mutation is taken from the engine, which is not part of this model.
- WriteGuard.UpdateFollowing: the reads before the first write are one record of answers, and the adapters report completion and definitive failure truthfully.
- EventSync.Runner.RunOne: the checks of window, provider and capability before the first repair, and the listing of due repairs, each of which ends the claim through `Fail`, are not part of the run. The store's and the provider's answers are arbitrary; the effect of each store call is that of the transactions above and is not repeated here.
- GraphRecurrence.RoundTripExact: compares the pattern and the end, not the start date and zone, which come from the event.
- Payload.RestoreEvidence: an absent evidence list beside an empty page, and an entry without its flag, are refused by the source and cannot be written in the model, whose lists and flags are always present.
- SeriesSplit.SplitPartitions: speaks of one rule line, as every other line is copied to both halves.
- Provider HTTP clients, OAuth, CalDAV XML, token stores, web and API handlers, preview encryption and raw artifacts.
- The object inventory table, the provider corrections record and the diagnostics of quarantined objects; the quarantine itself is modelled.
- The update of an empty calendar time zone from a page; it is one instance of the arbitrary source changes a run may contain.
- SQL dialects and row locks: each transaction is one atomic step. On PostgreSQL a claim passes over rows another transaction has locked, so the first claimable job or calendar there is the first one not locked.
- Deleting a connection, which removes its calendars and all their rows; every other statement that writes a sync row belongs to a step of the model.
- The verification of a connection is one step for each of its calendars.
- Ambiguous commits: a transaction either commits or leaves the rows as they were.
- 64-bit limits of counters and sizes, text in other encodings, and letter-case folding beyond ASCII.
- The digits of dates: an instant or day is written as a decimal number wherever its only role is to be compared or read back.
- SHA-256: a digest is represented by what was hashed, so equal digests mean equal inputs.
- JSON numbers, whitespace and escapes: payloads are trees of named fields; the duplicate-key walk acts on those trees.
- Event fields that no check looks at are carried as one text.
- The missing guard row, which reads as epoch and revision zero, and times that were never set.
- The order in which due calendars are claimed, and the stored payload of a tombstone.
- `PlanSourceProjectionCapture`, `GetSourceProjectionForCopy` and the copy engine: their answers are arbitrary inputs of the coordinator and the worker.
- Pins, checkpoints, mappings and target intents beyond the fact that they refer to a stored revision.
- The final stable sort by start of expanded CalDAV instances, objects without a recurrence, and the master item of a series view.
- RRULE text parsing and expansion: occurrences come from a memoryless next-occurrence function, and the Microsoft translation works on parsed rules.
- Rules the translation to Graph refuses, and the number of days a month has: the civil calendar is given by its year, month and day functions.
- Field-by-field event mapping and patches, and pagination loops that only accumulate.
- Timers, heartbeats and context plumbing of the workers: cancellation is an arbitrary answer at each check.
