/** Unverified snapshot candidates: staged, then published or discarded (internal/storage/projection_snapshots.go). */
module CandidateRuns {
  import opened Base
  import opened Payload
  import opened Calendars
  import opened CalendarRuns

  /** The unverified revision a candidate becomes. */
  function Unverified(s: Stage): Snapshot
  {
    Snapshot(s.stageId, s.epoch, s.base, s.lo, s.hi, s.completed, s.timezone, s.cursor, s.payload, false, [])
  }

  /** The candidate is the next revision, with everything it was staged with, and nothing else changed. */
  predicate PublishedAs(a: Archive, b: Archive, s: Stage)
  {
    b == a.(stage := None, revision := a.revision + 1, snapshots := a.snapshots[a.revision + 1 := Unverified(s)])
  }

  /**
   * A staged candidate can be discarded, which restores the archive, or published, which succeeds exactly while
   * there is room for its revision; until then no other candidate can be staged, and a published one never again.
   */
  lemma StagedCandidate(zones: Zones, a: Archive, s: Stage, t: Stage)
    requires StageSnapshot(zones, a, s).Ok?
    ensures var b := StageSnapshot(zones, a, s).value;
            && Discard(b, s.stageId) == Ok(a) && StageSnapshot(zones, b, t).Err?
            && (Publish(b, s.stageId).Ok? <==> |a.snapshots| < SNAPSHOT_LIMIT && a.revision + 1 !in a.snapshots)
            && (Publish(b, s.stageId).Ok? ==>
                  var c := Publish(b, s.stageId).value;
                  && PublishedAs(a, c, s) && Publish(c, s.stageId) == Err(AlreadyPublished) && StageSnapshot(zones, c, s).Err?)
  {
    hide LoadableZone, ValidMutationId, Size;
    var b := a.(stage := Some(s));
    assert StageIdUsed(b, s.stageId) == StageIdUsed(a, s.stageId);
    if Publish(b, s.stageId).Ok? {
      var c := Publish(b, s.stageId).value;
      assert c.snapshots[a.revision + 1].stageId == s.stageId;
      assert StageIdUsed(c, s.stageId);
    }
  }

  /** A stored candidate was there before, or the step staged it under an undisturbed guard. */
  ghost predicate StageInherits(c: Calendar, a: Action, e: Calendar)
  {
    e.archive.stage.Some? ==>
      || e.archive.stage == c.archive.stage
      || (a.StageCandidate? && e.archive.stage == Some(a.stage) && Guarded(e.archive, a.stage.epoch, a.stage.base)
          && c.archive.stage.None?)
  }

  lemma StageStep(zones: Zones, c: Calendar, a: Action, e: Calendar)
    requires Step(zones, c, a, e)
    ensures StageInherits(c, a, e)
  {
    hide Step;
    if !TouchesArchive(a) {
      ArchiveUntouched(zones, c, a, e);
    } else if ChangesIntents(a) {
      if e != c {
        IntentEffect(zones, c, a, e);
      }
    } else if ChangesCandidates(a) {
      CandidateStages(zones, c, a, e);
    } else if ChangesAttempts(a) {
      AttemptEffects(zones, c, a, e);
      AttemptStages(c, a, e);
    } else {
      FinishEffects(zones, c, a, e);
      if e.archive != c.archive {
        FinishStages(c, a, e);
      }
    }
  }

  lemma CandidateStages(zones: Zones, c: Calendar, a: Action, e: Calendar)
    requires Step(zones, c, a, e) && ChangesCandidates(a)
    ensures StageInherits(c, a, e)
  {
    hide Size, LoadableZone, StageIdUsed, ValidMutationId;
  }

  lemma AttemptStages(c: Calendar, a: Action, e: Calendar)
    requires AttemptEffect(c, a, e)
    ensures StageInherits(c, a, e)
  {
  }

  lemma FinishStages(c: Calendar, a: Action, e: Calendar)
    requires a.FinishPages? && FinishEffect(c, a, e)
    ensures StageInherits(c, a, e)
  {
  }

  /** Step i staged this candidate, and it is still the staged one at every moment up to k. */
  ghost predicate StagedSince(tr: seq<Calendar>, acts: seq<Action>, i: nat, k: nat, s: Stage)
  {
    && i < k < |tr| && i < |acts| && acts[i] == StageCandidate(s) && Guarded(tr[i + 1].archive, s.epoch, s.base)
    && forall m | i < m <= k :: tr[m].archive.stage == Some(s)
  }

  lemma {:induction false} StageSourced(zones: Zones, tr: seq<Calendar>, acts: seq<Action>, k: nat)
    requires Run(zones, tr, acts) && tr[0].archive.stage.None? && k < |tr| && tr[k].archive.stage.Some?
    ensures exists i: nat :: StagedSince(tr, acts, i, k, tr[k].archive.stage.value)
  {
    hide Step;
    StageStep(zones, tr[k - 1], acts[k - 1], tr[k]);
    var s := tr[k].archive.stage.value;
    if tr[k].archive.stage == tr[k - 1].archive.stage {
      StageSourced(zones, tr, acts, k - 1);
      var i: nat :| StagedSince(tr, acts, i, k - 1, s);
      assert StagedSince(tr, acts, i, k, s);
    } else {
      assert StagedSince(tr, acts, k - 1, k, s);
    }
  }

  /** What a committed publication found and left. */
  lemma PublishedFacts(zones: Zones, c: Calendar, stageId: string, e: Calendar)
    requires Step(zones, c, PublishCandidate(stageId), e) && e != c
    ensures c.archive.stage.Some? && c.archive.stage.value.stageId == stageId
    ensures Guarded(c.archive, c.archive.stage.value.epoch, c.archive.stage.value.base)
    ensures PublishedAs(c.archive, e.archive, c.archive.stage.value) && e == c.(archive := e.archive)
  {
    hide StageIdUsed, ValidMutationId;
  }

  /**
   * In every run, a candidate is published only as it was staged, by a step since which no mutation was pending,
   * begun or resolved.
   */
  lemma PublishedAsStaged(zones: Zones, tr: seq<Calendar>, acts: seq<Action>, k: nat)
    requires Run(zones, tr, acts) && tr[0].archive.stage.None? && k < |acts|
    requires acts[k].PublishCandidate? && tr[k + 1] != tr[k]
    ensures tr[k].archive.stage.Some? && tr[k].archive.stage.value.stageId == acts[k].stageId
    ensures PublishedAs(tr[k].archive, tr[k + 1].archive, tr[k].archive.stage.value)
    ensures exists i: nat ::
              StagedSince(tr, acts, i, k, tr[k].archive.stage.value) && NoMutation(tr, i, k, tr[k].archive.stage.value.epoch)
  {
    assert Step(zones, tr[k], acts[k], tr[k + 1]);
    hide Step;
    PublishedFacts(zones, tr[k], acts[k].stageId, tr[k + 1]);
    StageSourced(zones, tr, acts, k);
    var s := tr[k].archive.stage.value;
    var i: nat :| StagedSince(tr, acts, i, k, s);
    forall m | i < m <= k ensures tr[m].archive.intents == {} && tr[m].archive.epoch == s.epoch {
      EpochsGrow(zones, tr, acts, i + 1, m);
      EpochsGrow(zones, tr, acts, m, k);
    }
    assert NoMutation(tr, i, k, s.epoch);
  }
}
