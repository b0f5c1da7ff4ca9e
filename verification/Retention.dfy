/**
 * Removal observations along chains of finalized revisions, and what retention may discard
 * (internal/storage/projection_retention.go).
 */
module Retention {
  import opened Base
  import opened Events
  import opened Materializer
  import opened Payload
  import opened PageChain
  import opened Calendars
  import opened CalendarRuns

  /** observationMultisetContains: a count map filled from one list and used up by the other. */
  method ObservationMultisetContains(all: seq<Observation>, prior: seq<Observation>) returns (contained: bool)
    ensures contained <==> multiset(prior) <= multiset(all)
  {
    var counts: map<Observation, nat> := map[];
    for i := 0 to |all|
      invariant Counted(counts, multiset(all[..i]))
    {
      assert all[..i + 1] == all[..i] + [all[i]];
      counts := counts[all[i] := (if all[i] in counts then counts[all[i]] else 0) + 1];
    }
    assert all[..|all|] == all;
    ghost var left := multiset(all);
    for i := 0 to |prior|
      invariant Counted(counts, left) && left + multiset(prior[..i]) == multiset(all)
    {
      assert prior[..i + 1] == prior[..i] + [prior[i]];
      if prior[i] !in counts || counts[prior[i]] == 0 {
        assert prior == prior[..i + 1] + prior[i + 1..];
        assert multiset(prior)[prior[i]] > multiset(all)[prior[i]];
        return false;
      }
      counts := counts[prior[i] := counts[prior[i]] - 1];
      left := left - multiset{prior[i]};
    }
    assert prior[..|prior|] == prior;
    return true;
  }

  /** The map holds each element's multiplicity; an absent key counts as zero. */
  ghost predicate Counted(counts: map<Observation, nat>, m: multiset<Observation>)
  {
    forall x :: m[x] == if x in counts then counts[x] else 0
  }

  // --- the archive invariant -----------------------------------------------------------

  predicate CurrentVerified(a: Archive)
  {
    a.revision in a.snapshots && a.snapshots[a.revision].verified
  }

  predicate CurrentStored(a: Archive)
  {
    && (a.revision > 0 ==> a.revision in a.snapshots)
    && (forall r | r in a.snapshots :: 0 < r <= a.revision)
    && |a.snapshots| <= SNAPSHOT_LIMIT
  }

  /** The observations of any verified revision start with those of every older one. */
  predicate Chained(a: Archive)
  {
    forall r, q | r in a.snapshots && q in a.snapshots && r <= q && a.snapshots[r].verified && a.snapshots[q].verified ::
      a.snapshots[r].observations <= a.snapshots[q].observations
  }

  /** What a step may do to the current revision's observations. */
  predicate Carries(a: Archive, b: Archive)
  {
    && a.revision <= b.revision
    && (CurrentVerified(b) ==>
          || a.revision == 0
          || (CurrentVerified(a) && a.snapshots[a.revision].observations <= b.snapshots[b.revision].observations))
  }

  ghost predicate ArchiveInv(a: Archive)
  {
    CurrentStored(a) && Chained(a)
  }

  lemma ExtendedChain(x: Archive, y: Archive, s: Snapshot)
    requires ArchiveInv(x) && y.revision == x.revision + 1 && Extended(x.snapshots, y.snapshots, y.revision, s)
    requires |y.snapshots| <= SNAPSHOT_LIMIT
    requires s.verified ==>
               if x.revision == 0 then true
               else CurrentVerified(x) && x.snapshots[x.revision].observations <= s.observations
    ensures ArchiveInv(y) && Carries(x, y)
  {
    forall r, q | r in y.snapshots && q in y.snapshots && r <= q && y.snapshots[r].verified && y.snapshots[q].verified
      ensures y.snapshots[r].observations <= y.snapshots[q].observations
    {
      if q == y.revision && r != q {
        assert x.snapshots[r].observations <= x.snapshots[x.revision].observations;
      }
    }
  }

  lemma PublishedChain(x: Archive, y: Archive)
    requires ArchiveInv(x) && CandidateEffect(x, y)
    ensures ArchiveInv(y) && Carries(x, y)
  {
    if y.revision != x.revision || y.snapshots != x.snapshots {
      var s: Snapshot :| !s.verified && y.revision == x.revision + 1 && y.revision !in x.snapshots
                         && |x.snapshots| < SNAPSHOT_LIMIT && y.snapshots == x.snapshots[y.revision := s];
      assert y.snapshots.Keys == x.snapshots.Keys + {y.revision};
      ExtendedChain(x, y, s);
    }
  }

  lemma FinishedChain(c: Calendar, a: Action, e: Calendar)
    requires a.FinishPages? && FinishEffect(c, a, e) && ArchiveInv(c.archive)
    ensures ArchiveInv(e.archive) && Carries(c.archive, e.archive)
  {
    hide WellFormed, RecordOf, PageChain.Stage, ArchiveInv, Carries, ObservationSize, Extended;
    var mid, t, payload, observations :|
      && AppendEffect(c.id, c.archive, mid, a.claim.generation, a.delivery)
      && t == mid.attempts[a.claim.generation]
      && FinalEffect(mid, e.archive, a.claim.generation, t, a.clocks.completed, payload, observations)
      && Carried(mid, t.baseRevision).Ok? && Carried(mid, t.baseRevision).value <= observations;
    ExtendedChain(c.archive, e.archive, NewSnapshot(t, a.clocks.completed, payload, observations));
  }

  lemma SameChain(x: Archive, y: Archive)
    requires ArchiveInv(x) && y.revision == x.revision && y.snapshots == x.snapshots
    ensures ArchiveInv(y) && Carries(x, y)
  {
  }

  lemma ArchiveStep(zones: Zones, c: Calendar, a: Action, e: Calendar)
    requires Step(zones, c, a, e) && ArchiveInv(c.archive)
    ensures ArchiveInv(e.archive) && Carries(c.archive, e.archive)
  {
    hide Step, ArchiveInv, Carries, FinishEffect, CandidateEffect;
    if !TouchesArchive(a) {
      ArchiveUntouched(zones, c, a, e);
      SameChain(c.archive, e.archive);
    } else if ChangesIntents(a) {
      if e != c {
        IntentEffect(zones, c, a, e);
      }
      SameChain(c.archive, e.archive);
    } else if ChangesCandidates(a) {
      CandidateEffects(zones, c, a, e);
      PublishedChain(c.archive, e.archive);
    } else if ChangesAttempts(a) {
      AttemptEffects(zones, c, a, e);
      hide WellFormed, RecordOf, PageChain.Stage, Fresh;
      SameChain(c.archive, e.archive);
    } else {
      FinishEffects(zones, c, a, e);
      if e.archive == c.archive {
        SameChain(c.archive, e.archive);
      } else {
        FinishedChain(c, a, e);
      }
    }
  }

  // --- over every run ---------------------------------------------------------------------

  ghost predicate Initial(c: Calendar)
  {
    Empty(c) && c.archive.revision == 0
  }

  /** At most two snapshots, the current nonzero revision always stored, observations nested. */
  lemma {:induction false} ArchiveHolds(zones: Zones, tr: seq<Calendar>, acts: seq<Action>, k: nat)
    requires Run(zones, tr, acts) && Initial(tr[0]) && k < |tr|
    ensures ArchiveInv(tr[k].archive)
  {
    hide Step, Carries;
    if k == 0 {
      assert tr[0].archive.snapshots.Keys == {};
    } else {
      ArchiveHolds(zones, tr, acts, k - 1);
      hide ArchiveInv;
      ArchiveStep(zones, tr[k - 1], acts[k - 1], tr[k]);
    }
  }

  /**
   * Nothing observed is ever forgotten: the observations of any verified revision stored at one moment are the
   * first observations of every verified revision that is current at a later one.
   */
  lemma {:induction false} ObservationsSurvive(zones: Zones, tr: seq<Calendar>, acts: seq<Action>, i: nat, r: nat, j: nat)
    requires Run(zones, tr, acts) && Initial(tr[0]) && i <= j < |tr|
    requires r in tr[i].archive.snapshots && tr[i].archive.snapshots[r].verified
    requires CurrentVerified(tr[j].archive)
    ensures r <= tr[j].archive.revision
    ensures tr[i].archive.snapshots[r].observations <= tr[j].archive.snapshots[tr[j].archive.revision].observations
    decreases j
  {
    hide Step;
    ArchiveHolds(zones, tr, acts, i);
    if i < j {
      ArchiveHolds(zones, tr, acts, j - 1);
      RevisionsGrow(zones, tr, acts, i, j - 1);
      ArchiveStep(zones, tr[j - 1], acts[j - 1], tr[j]);
      ObservationsSurvive(zones, tr, acts, i, r, j - 1);
    }
  }

  lemma {:induction false} RevisionsGrow(zones: Zones, tr: seq<Calendar>, acts: seq<Action>, i: nat, j: nat)
    requires Run(zones, tr, acts) && Initial(tr[0]) && i <= j < |tr|
    ensures tr[i].archive.revision <= tr[j].archive.revision
    decreases j
  {
    hide Step;
    if i < j {
      RevisionsGrow(zones, tr, acts, i, j - 1);
      ArchiveHolds(zones, tr, acts, j - 1);
      ArchiveStep(zones, tr[j - 1], acts[j - 1], tr[j]);
    }
  }

  // --- the retention decision ----------------------------------------------------------------

  lemma {:induction false} PrefixSize(a: seq<Observation>, b: seq<Observation>)
    requires a <= b
    ensures ObservationSize(a) <= ObservationSize(b)
    decreases |b|
  {
    if a != b {
      PrefixSize(a, b[..|b| - 1]);
    }
  }

  /** Something persisted refers to the revision: a pin still in use, a reference, the staged candidate or a page attempt. */
  predicate Referred(a: Archive, r: nat)
  {
    || (exists p | p in a.pins :: a.pins[p].revision == r && !a.pins[p].disposable)
    || r in a.references || (a.stage.Some? && a.stage.value.base == r)
    || (exists g | g in a.attempts :: a.attempts[g].baseRevision == r)
  }

  lemma RetirableMeans(a: Archive, r: nat)
    ensures Retirable(DropPins(a), r) <==> !Referred(a, r)
  {
    var pins := DropPins(a).pins;
    assert (exists p | p in pins :: pins[p].revision == r) <==> exists p | p in a.pins :: a.pins[p].revision == r && !a.pins[p].disposable by {
      if p :| p in a.pins && a.pins[p].revision == r && !a.pins[p].disposable {
        assert p in pins && pins[p].revision == r;
      }
    }
  }

  /** Retention takes disposable pins and snapshots, and nothing else. */
  lemma RetentionTouches(a: Archive, current: nat, observations: seq<Observation>)
    ensures var after := ReleaseRetained(a, current, observations);
            && after == a.(pins := after.pins, snapshots := after.snapshots)
            && (forall p :: p in after.pins <==> p in a.pins && !a.pins[p].disposable)
            && (forall p | p in after.pins :: after.pins[p] == a.pins[p])
            && (forall r | r in after.snapshots :: r in a.snapshots && after.snapshots[r] == a.snapshots[r])
  {
    hide Retirable, ObservationSize;
  }

  /**
   * Under the invariant the observation test of retention never keeps a revision: once the carried list fits, an
   * older verified revision survives exactly when something persisted still refers to it.
   */
  lemma RetentionKeepsReferenced(a: Archive, observations: seq<Observation>, r: nat)
    requires ArchiveInv(a) && Carried(a, a.revision).Ok? && Carried(a, a.revision).value <= observations
    requires ObservationSize(observations) <= OBSERVATION_SIZE_LIMIT
    requires r in a.snapshots && a.snapshots[r].verified && r < a.revision
    ensures r in ReleaseRetained(a, a.revision, observations).snapshots <==> Referred(a, r)
  {
    RetirableMeans(a, r);
    var prior := a.snapshots[r].observations;
    assert prior <= observations;
    hide Retirable, Referred;
    PrefixSize(prior, observations);
    assert observations == prior + observations[|prior|..];
    assert multiset(prior) <= multiset(observations);
  }
}
