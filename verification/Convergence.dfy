/**
 Re-running is a no-op (README.md: "change detection is provenance-based and idempotent").

 From any repository, two failure-free runs with one policy, source and clock reach a state
 a third run leaves alone: it imports, updates, signs, covers, deletes, marks and unmarks
 nothing, and its alias copies change nothing.
 */
module Convergence {
  import opened Wrappers
  import opened Sorting
  import opened Registry
  import opened Retention
  import opened Reconcile
  import opened Apply
  import opened Runs

  /** What an output designates once the import stage has run. */
  ghost function Designated(job: Job, build: Builder, r: Repo, v: Variant, s: Tag): Manifest
    requires IsOutput(job, v, s)
  {
    if Keeping(job, r, v, s) && s + v.suffix in r.tags then r.tags[s + v.suffix] else Placed(job, build, v, s)
  }

  /** No two selected tags designate one manifest. */
  ghost predicate OutputsApart(job: Job, build: Builder, r: Repo) {
    forall v, s, w, u | IsOutput(job, v, s) && IsOutput(job, w, u) && s + v.suffix != u + w.suffix ::
      Designated(job, build, r, v, s) != Designated(job, build, r, w, u)
  }

  /** No mirrored tag the policy has dropped names the manifest a selected tag designates. */
  ghost predicate DroppedApart(job: Job, build: Builder, r: Repo) {
    forall v, s, t | IsOutput(job, v, s) && Dropped(job, r, t) :: Designated(job, build, r, v, s) != r.tags[t]
  }

  /** A dropped tag that purge mode deletes anyway may share what it names. */
  ghost predicate Unshared(job: Job, build: Builder, r: Repo) {
    OutputsApart(job, build, r) && (job.mode == MarkOnly ==> DroppedApart(job, build, r))
  }

  // ---- after one run -----------------------------------------------------------------------------------------

  ghost predicate KeptAndCovered(job: Job, r: Repo, v: Variant, s: Tag)
    requires IsOutput(job, v, s)
  {
    Keeping(job, r, v, s) && IsMirrored(r, s + v.suffix) && Covered(job, r.attached, r.tags[s + v.suffix])
  }

  ghost predicate AliasesFollow(job: Job, r: Repo) {
    forall v, a | IsAlias(job, v, a) ::
      && a.name + v.suffix in r.tags && a.target + v.suffix in r.tags
      && r.tags[a.name + v.suffix] == r.tags[a.target + v.suffix]
  }

  /** Marks hang on manifests, so tags on one manifest are marked alike: are they to be marked alike? */
  ghost predicate Alike(job: Job, r: Repo) {
    forall t, u | IsMirrored(r, t) && IsMirrored(r, u) && r.tags[t] == r.tags[u] ::
      && (t in Desired(job) <==> u in Desired(job))
      && (t in RetentionExcess(job, MirrorOf(job, r)) <==> u in RetentionExcess(job, MirrorOf(job, r)))
  }

  /** What any failure-free run leaves, from anywhere. */
  ghost predicate Standing(job: Job, r: Repo) {
    && (forall v, s | IsOutput(job, v, s) :: KeptAndCovered(job, r, v, s))
    && AliasesFollow(job, r)
    && (forall t | Dropped(job, r, t) :: job.mode == MarkOnly)
  }

  ghost predicate Settled(job: Job, r: Repo) {
    && Standing(job, r)
    && Alike(job, r)
    && (forall t | Dropped(job, r, t) :: t !in MarkedOn(r, true))
  }

  /** The marks on every manifest are the ones the plan asks for. */
  ghost predicate MarksSettled(job: Job, r: Repo) {
    && MarkedOn(r, false) !! Desired(job)
    && MarkedOn(r, true) == RetentionExcess(job, MirrorOf(job, r))
    && (forall t | Dropped(job, r, t) :: t in MarkedOn(r, false) || t in MarkedOn(r, true))
  }

  ghost predicate Quiet(job: Job, r: Repo) {
    Settled(job, r) && MarksSettled(job, r)
  }

  // ---- reading back what was placed ------------------------------------------------------------------------------

  /**
   The version stamped on an output is the one the plan asks for: under a prefix if it is
   transformed, and without one of knock's own copied from upstream if it is not.
   */
  ghost predicate ReadsBack(job: Job, v: Variant, s: Tag)
    requires s in job.source
  {
    if v.steps != [] then job.prefix != ""
    else job.prefix == "" || Knock(job.prefix, Version) !in job.source[s].annotations
  }

  /** Every output is kept already, or is once placed. */
  ghost predicate Lasting(job: Job, r: Repo) {
    forall v, s | IsOutput(job, v, s) :: Keeping(job, r, v, s) || ReadsBack(job, v, s)
  }

  lemma PlacedReadsBack(job: Job, build: Builder, v: Variant, s: Tag)
    requires WellPlanned(job) && IsOutput(job, v, s)
    ensures var m := Placed(job, build, v, s);
            && BaseDigest in m.annotations && m.annotations[BaseDigest] == Text(job.source[s].digest)
            && (RecordedVersion(job, m) == DesiredVersion(job, v) <==> ReadsBack(job, v, s))
  {
    assert v in job.variants && s in job.source;
    assert Placed(job, build, v, s).annotations ==
           Unstamped(job, build, v, s).annotations + (OciStamp(job, s) + LineageStamp(job, v) + TransformStamp(job, v));
  }

  /** A tag just placed is kept by the next plan exactly when what is stamped is what is read back. */
  lemma PlacedIsKept(job: Job, build: Builder, r: Repo, v: Variant, s: Tag)
    requires WellPlanned(job) && IsOutput(job, v, s)
    requires s + v.suffix in r.tags && r.tags[s + v.suffix] == Placed(job, build, v, s)
    ensures IsMirrored(r, s + v.suffix)
    ensures Keeping(job, r, v, s) <==> ReadsBack(job, v, s)
  {
    hide Placed, RecordedVersion, DesiredVersion, ReadsBack;
    PlacedReadsBack(job, build, v, s);
    OutputConcrete(job, v, s);
    var m := r.tags[s + v.suffix];
    assert IsMirrored(r, s + v.suffix);
    assert MirrorOf(job, r)[s + v.suffix] == ToMirrorArtifact(job, m, Referrers(r, m)).value;
  }

  /** Whether a tag is kept depends on the manifest it names alone. */
  lemma StillKept(job: Job, r: Repo, r': Repo, v: Variant, s: Tag)
    requires Keeping(job, r, v, s)
    requires s + v.suffix in r.tags && s + v.suffix in r'.tags && r'.tags[s + v.suffix] == r.tags[s + v.suffix]
    ensures Keeping(job, r', v, s) && IsMirrored(r', s + v.suffix)
  {
  }

  lemma NoMarksAdded(job: Job, build: Builder, r: Repo)
    ensures forall p | p in TagDelta(job, build, r).pairs :: !p.1.Mark?
  {
    NoMarksFrom(job, build, r, ImportWorks(job, build, r, job.variants));
    NoMarksFrom(job, build, r, SignWorks(job, r, job.variants));
    NoMarksFrom(job, build, r, SbomWorks(job, r, job.variants));
  }

  /** Clearing marks takes nothing but marks away. */
  lemma CoverageSurvives(job: Job, before: Repo, pairs: set<(Manifest, Referrer)>, more: set<(Manifest, Referrer)>,
                         m: Manifest)
    requires Covered(job, pairs, m)
    ensures Covered(job, pairs + more - StaleMarks(job, before), m)
  {
    hide PlanOf;
    var left := pairs + more - StaleMarks(job, before);
    if job.signing {
      var x: Referrer :| x.Bundle? && (m, x) in pairs;
      assert (m, x) in left;
    }
    forall f | f in job.formats ensures exists x: Referrer :: x.Sbom? && x.format == f && (m, x) in left {
      var x: Referrer :| x.Sbom? && x.format == f && (m, x) in pairs;
      assert (m, x) in left;
    }
  }

  // ---- which marks a run clears -------------------------------------------------------------------------------------

  lemma UnmarkLists(job: Job, r: Repo)
    ensures forall t :: t in PlanOf(job, r).toUnmark <==> t in MarkedOn(r, false) && t in Desired(job)
    ensures forall t :: t in PlanOf(job, r).toUnmarkRetention <==>
              t in MarkedOn(r, true) && t !in RetentionExcess(job, MirrorOf(job, r))
  {
    hide Desired, RetentionExcess, MarkedOn, MirrorOf, VariantPlans;
    var p := PlanOf(job, r);
    assert Elements(p.toUnmark) == MarkedSelection(r) * Desired(job);
    assert Elements(p.toUnmarkRetention) == MarkedRetention(r) - RetentionExcess(job, MirrorOf(job, r));
    assert forall t :: t in p.toUnmark <==> t in Elements(p.toUnmark);
    assert forall t :: t in p.toUnmarkRetention <==> t in Elements(p.toUnmarkRetention);
  }

  /** A stale selection mark hangs on a desired tag's manifest, a stale retention mark on one no longer in excess. */
  ghost predicate StaleOn(job: Job, r: Repo, t: Tag, x: Referrer) {
    && IsMirrored(r, t) && x in MarksOf(r, t)
    && (if x.Mark? &&
        x.reason == RETENTION_EXCESS then t !in RetentionExcess(job, MirrorOf(job, r)) else t in Desired(job))
  }

  lemma StaleIff(job: Job, r: Repo, m: Manifest, x: Referrer)
    ensures (m, x) in StaleMarks(job, r) <==> exists t :: StaleOn(job, r, t, x) && r.tags[t] == m
  {
    hide Desired, RetentionExcess, MirrorOf, PlanOf;
    UnmarkLists(job, r);
    if t :| StaleOn(job, r, t, x) && r.tags[t] == m {
      assert OnAxis(MarksOf(r, t), x.reason == RETENTION_EXCESS);
    }
    if (m, x) in MarksOn(r, PlanOf(job, r).toUnmark, false) {
      var t :| t in r.tags && t in PlanOf(job, r).toUnmark && x in MarksOf(r, t) && r.tags[t] == m;
      assert StaleOn(job, r, t, x);
    }
    if (m, x) in MarksOn(r, PlanOf(job, r).toUnmarkRetention, true) {
      var t :| t in r.tags && t in PlanOf(job, r).toUnmarkRetention && x in MarksOf(r, t) && r.tags[t] == m;
      assert StaleOn(job, r, t, x);
    }
  }

  lemma MarkedIff(r: Repo, t: Tag, retention: bool)
    ensures t in MarkedOn(r, retention) <==>
              IsMirrored(r, t) && exists x: Referrer ::
                  x.Mark? && (x.reason == RETENTION_EXCESS) == retention && (r.tags[t], x) in r.attached
  {
    if IsMirrored(r, t) {
      if x: Referrer :| x.Mark? && (x.reason == RETENTION_EXCESS) == retention && (r.tags[t], x) in r.attached {
        assert x in MarksOf(r, t);
      }
      if OnAxis(MarksOf(r, t), retention) {
        var x :| x in MarksOf(r, t) && x.Mark? && (x.reason == RETENTION_EXCESS) == retention;
        assert (r.tags[t], x) in r.attached;
      }
    }
  }

  // ---- the first run ------------------------------------------------------------------------------------------------

  ghost function Added(job: Job, build: Builder, r: Repo, r': Repo): set<(Manifest, Referrer)> {
    SelectionPairs(job, r) + RetentionPairs(job, r, r')
  }

  ghost predicate PlacedAndCovered(job: Job, build: Builder, r: Repo, r': Repo, v: Variant, s: Tag)
    requires IsOutput(job, v, s)
  {
    && IsMirrored(r', s + v.suffix) && r'.tags[s + v.suffix] == Designated(job, build, r, v, s)
    && Covered(job, r'.attached, r'.tags[s + v.suffix])
    && (Keeping(job, r', v, s) <==> Keeping(job, r, v, s) || ReadsBack(job, v, s))
  }

  /** Whatever reads back, a run leaves every selected tag stamped and covered; kept is what was kept or reads back. */
  lemma OutputsAfterRun(job: Job, build: Builder, r: Repo, r': Repo)
    requires WellFormed(job) && RanTo(job, build, r, r')
    ensures forall v, s | IsOutput(job, v, s) :: PlacedAndCovered(job, build, r, r', v, s)
  {
    hide Placed, TagDelta, MirrorOf, Decide, DistinctNames, Covered, SelectionPairs, ReadsBack;
    hide RetentionPairs, StaleMarks, Desired;
    var d := TagDelta(job, build, r).pairs;
    forall v, s | IsOutput(job, v, s) ensures PlacedAndCovered(job, build, r, r', v, s) {
      if Placing(job, r, v, s) {
        PlacedIsKept(job, build, r', v, s);
        PlacedIsCovered(job, build, r, v, s);
        CoverageSurvives(job, r, d, r.attached + Added(job, build, r, r'), Placed(job, build, v, s));
        assert r'.attached == d + (r.attached + Added(job, build, r, r')) - StaleMarks(job, r);
      } else {
        StillKept(job, r, r', v, s);
        KeptIsCovered(job, build, r, v, s);
        CoverageSurvives(job, r, r.attached + d, Added(job, build, r, r'), r.tags[s + v.suffix]);
        assert r'.attached == r.attached + d + Added(job, build, r, r') - StaleMarks(job, r);
      }
    }
  }

  lemma OutputAfterRun(job: Job, build: Builder, r: Repo, r': Repo, v: Variant, s: Tag)
    requires WellFormed(job) && RanTo(job, build, r, r') && IsOutput(job, v, s)
    ensures s + v.suffix in r'.tags && IsMirrored(r', s + v.suffix)
    ensures r'.tags[s + v.suffix] == Designated(job, build, r, v, s)
    ensures Keeping(job, r', v, s) <==> Keeping(job, r, v, s) || ReadsBack(job, v, s)
    ensures Keeping(job, r', v, s) ==> KeptAndCovered(job, r', v, s)
  {
    hide WellFormed, RanTo, Designated, Covered, ReadsBack, Keeping;
    OutputsAfterRun(job, build, r, r');
    assert PlacedAndCovered(job, build, r, r', v, s);
  }

  lemma DroppedBefore(job: Job, build: Builder, r: Repo, r': Repo, t: Tag)
    requires RanTo(job, build, r, r') && Dropped(job, r', t)
    ensures Dropped(job, r, t) && r'.tags[t] == r.tags[t] && job.mode == MarkOnly
  {
  }

  lemma DroppedIsTag(job: Job, r: Repo, t: Tag)
    requires Dropped(job, r, t)
    ensures t in r.tags && t !in Desired(job) && IsMirrored(r, t)
  {
  }

  lemma DroppedLosesRetentionMarks(job: Job, build: Builder, r: Repo, r': Repo, t: Tag)
    requires WellFormed(job) && Alike(job, r') && RanTo(job, build, r, r') && Dropped(job, r', t)
    ensures t !in MarkedOn(r', true)
  {
    hide Placed, TagDelta, MirrorOf, Decide, DistinctNames, Covered, StaleMarks, Desired;
    hide Concrete, RetentionExcess, MarkedOn, Designated, Alike;
    DroppedBefore(job, build, r, r', t);
    DroppedIsTag(job, r, t);
    var m := r'.tags[t];
    NoMarksAdded(job, build, r);
    NotInExcess(job, r, t);
    forall v, s | IsOutput(job, v, s) ensures IsMirrored(r', s + v.suffix) {
      OutputAfterRun(job, build, r, r', v, s);
    }
    forall x: Referrer | x.Mark? && x.reason == RETENTION_EXCESS ensures (m, x) !in r'.attached {
      if (m, x) in r.attached {
        assert StaleOn(job, r, t, x);
        StaleIff(job, r, m, x);
      }
      NoRetentionPair(job, r, r', t, x);
    }
    MarkedIff(r', t, true);
  }

  lemma NotInExcess(job: Job, r: Repo, t: Tag)
    requires t !in Desired(job)
    ensures t !in RetentionExcess(job, MirrorOf(job, r))
  {
    if t in RetentionExcess(job, MirrorOf(job, r)) {
      ExcessIsConcrete(job, r, t);
    }
  }

  lemma NoRetentionPair(job: Job, r: Repo, r': Repo, t: Tag, x: Referrer)
    requires WellPlanned(job) && Alike(job, r') && Dropped(job, r', t)
    requires forall v, s | IsOutput(job, v, s) :: IsMirrored(r', s + v.suffix)
    ensures (r'.tags[t], x) !in RetentionPairs(job, r, r')
  {
    hide MirrorOf, RetentionExcess, Concrete, Keeping, Covered, Desired;
    forall u | u in RetentionExcess(job, MirrorOf(job, r)) && u in r'.tags ensures r'.tags[u] != r'.tags[t] {
      ExcessIsConcrete(job, r, u);
      var v, s := ConcreteOutput(job, u);
      assert IsMirrored(r', s + v.suffix);
      OutputConcrete(job, v, s);
    }
  }

  lemma AliasesAfterRun(job: Job, build: Builder, r: Repo, r': Repo)
    requires RanTo(job, build, r, r')
    ensures AliasesFollow(job, r')
  {
  }

  /**
   One run from anywhere leaves aliases following and in purge mode nothing dropped, and every
   selected tag covered and kept if those that are not kept before it read back.
   */
  lemma StandsAfterRun(job: Job, build: Builder, r: Repo)
    requires WellFormed(job)
    ensures Standing(job, Run(job, build, APPLY, NoOutage(), r)) <==> Lasting(job, r)
  {
    hide *;
    RunClosed(job, build, r);
    StandsIff(job, build, r, Run(job, build, APPLY, NoOutage(), r));
  }

  lemma StandsIff(job: Job, build: Builder, r: Repo, r': Repo)
    requires WellFormed(job) && RanTo(job, build, r, r')
    ensures Standing(job, r') <==> Lasting(job, r)
  {
    hide RanTo, KeptAndCovered, AliasesFollow, Dropped, WellFormed, Keeping, ReadsBack;
    AliasesAfterRun(job, build, r, r');
    forall v, s | IsOutput(job, v, s)
      ensures KeptAndCovered(job, r', v, s) <==> Keeping(job, r, v, s) || ReadsBack(job, v, s)
    {
      OutputAfterRun(job, build, r, r', v, s);
      CoveredIsKept(job, r', v, s);
    }
    forall t | Dropped(job, r', t) ensures job.mode == MarkOnly {
      DroppedBefore(job, build, r, r', t);
    }
  }

  lemma CoveredIsKept(job: Job, r: Repo, v: Variant, s: Tag)
    requires IsOutput(job, v, s)
    ensures KeptAndCovered(job, r, v, s) ==>
              Keeping(job, r, v, s) && s + v.suffix in r.tags && IsMirrored(r, s + v.suffix)
  {
  }

  /** ... and, where tags on one manifest are to be marked alike, everything unambiguously marked. */
  lemma FirstRun(job: Job, build: Builder, r: Repo)
    requires WellFormed(job) && Lasting(job, r) && Alike(job, Run(job, build, APPLY, NoOutage(), r))
    ensures Settled(job, Run(job, build, APPLY, NoOutage(), r))
  {
    hide Run, RanTo, Standing, Alike, Dropped, WellFormed, Lasting, MarkedOn, AfterTags, AfterMarks, AllOk;
    var r' := Run(job, build, APPLY, NoOutage(), r);
    RunClosed(job, build, r);
    StandsAfterRun(job, build, r);
    forall t | Dropped(job, r', t) ensures t !in MarkedOn(r', true) {
      DroppedLosesRetentionMarks(job, build, r, r', t);
    }
  }

  /** `r'` is what a run leaves of `r`, as far as tags go. */
  ghost predicate TagsAfter(job: Job, build: Builder, r: Repo, r': Repo) {
    && AliasesFollow(job, r')
    && (forall v, s | IsOutput(job, v, s) ::
          s + v.suffix in r'.tags && r'.tags[s + v.suffix] == Designated(job, build, r, v, s))
    && (forall t | Dropped(job, r', t) :: Dropped(job, r, t) && r'.tags[t] == r.tags[t] && job.mode == MarkOnly)
  }

  lemma TagsAfterRun(job: Job, build: Builder, r: Repo)
    requires WellFormed(job)
    ensures TagsAfter(job, build, r, Run(job, build, APPLY, NoOutage(), r))
  {
    hide *;
    RunClosed(job, build, r);
    TagsAfterOf(job, build, r, Run(job, build, APPLY, NoOutage(), r));
  }

  lemma TagsAfterOf(job: Job, build: Builder, r: Repo, r': Repo)
    requires WellFormed(job) && RanTo(job, build, r, r')
    ensures TagsAfter(job, build, r, r')
  {
    hide RanTo, WellFormed, Designated, AliasesFollow, KeptAndCovered, Dropped, Keeping, ReadsBack;
    AliasesAfterRun(job, build, r, r');
    forall v, s | IsOutput(job, v, s)
      ensures s + v.suffix in r'.tags && r'.tags[s + v.suffix] == Designated(job, build, r, v, s)
    {
      OutputAfterRun(job, build, r, r', v, s);
    }
    forall t | Dropped(job, r', t)
      ensures t in r'.tags && t in r.tags && Dropped(job, r, t) && r'.tags[t] == r.tags[t] && job.mode == MarkOnly
    {
      DroppedBefore(job, build, r, r', t);
      DroppedIsTag(job, r', t);
      DroppedIsTag(job, r, t);
    }
  }

  lemma SharersDesired(job: Job, build: Builder, r: Repo, r': Repo, t: Tag, u: Tag)
    requires WellFormed(job) && Unshared(job, build, r) && TagsAfter(job, build, r, r')
    requires t in r'.tags && IsMirrored(r', u) && r'.tags[t] == r'.tags[u] && t in Desired(job)
    ensures u in Desired(job)
  {
    hide DistinctNames, Designated, Desired, Concrete, OutputsApart, AliasesFollow;
    var v, s := OwnerOf(job, r', t);
    assert u in Desired(job) || Dropped(job, r', u);
  }

  lemma SharersInExcess(job: Job, build: Builder, r: Repo, r': Repo, t: Tag, u: Tag)
    requires WellFormed(job) && OutputsApart(job, build, r) && TagsAfter(job, build, r, r')
    requires u in r'.tags && t in r'.tags && r'.tags[t] == r'.tags[u] && u in Desired(job)
    requires t in RetentionExcess(job, MirrorOf(job, r'))
    ensures t == u
  {
    hide DistinctNames, Designated, Desired, Concrete, AliasesFollow, MirrorOf, RetentionExcess, IsMirrored;
    ExcessIsConcrete(job, r', t);
    var v, s := ConcreteOutput(job, t);
    var w, q := OwnerOf(job, r', u);
    assert s + v.suffix == q + w.suffix;
    if u != q + w.suffix {
      var a :| IsAlias(job, w, a) && a.target == q && u == a.name + w.suffix;
      TargetsNotExcess(job, r', w, a);
    }
  }

  /** The selected tag whose manifest a desired tag names. */
  lemma OwnerOf(job: Job, r: Repo, t: Tag) returns (v: Variant, s: Tag)
    requires WellPlanned(job) && AliasesFollow(job, r) && t in Desired(job) && t in r.tags
    requires forall w, u | IsOutput(job, w, u) :: u + w.suffix in r.tags
    ensures IsOutput(job, v, s) && s + v.suffix in r.tags && r.tags[s + v.suffix] == r.tags[t]
    ensures t == s + v.suffix || exists a :: IsAlias(job, v, a) && a.target == s && t == a.name + v.suffix
  {
    hide Concrete, AliasTags;
    if t in Concrete(job) {
      v, s := ConcreteOutput(job, t);
    } else {
      var a: Alias;
      v, a := AliasOf(job, t);
      AliasDesired(job, v, a);
      s := a.target;
    }
  }

  /** Whom a run leaves on one manifest: with outputs apart, an output and its aliases, or what was dropped. */
  lemma UnsharedIsAlike(job: Job, build: Builder, r: Repo)
    requires WellFormed(job) && Unshared(job, build, r)
    ensures Alike(job, Run(job, build, APPLY, NoOutage(), r))
  {
    hide Run, TagsAfter, WellFormed, MirrorOf, RetentionExcess, Desired, Stamped, OutputsApart, DroppedApart;
    var r' := Run(job, build, APPLY, NoOutage(), r);
    TagsAfterRun(job, build, r);
    forall t, u | IsMirrored(r', t) && IsMirrored(r', u) && r'.tags[t] == r'.tags[u]
      ensures t in Desired(job) ==> u in Desired(job)
      ensures t in RetentionExcess(job, MirrorOf(job, r')) ==> u in RetentionExcess(job, MirrorOf(job, r'))
    {
      if t in Desired(job) {
        SharersDesired(job, build, r, r', t, u);
        if t in RetentionExcess(job, MirrorOf(job, r')) {
          SharersInExcess(job, build, r, r', t, u);
        }
      } else {
        NotInExcess(job, r', t);
      }
    }
  }

  // ---- the second run -----------------------------------------------------------------------------------------------

  lemma StandingPlacesNothing(job: Job, build: Builder, r: Repo)
    requires WellFormed(job) && Standing(job, r)
    ensures forall v, s :: !Placing(job, r, v, s)
    ensures TagDelta(job, build, r) == Delta(map[], {})
  {
    hide Standing, Placing, TagDelta, ImportWorks, SignWorks, SbomWorks;
    StandingIsKept(job, r);
    NoWork(job, build, r);
    NothingAdded(job, build, r);
  }

  lemma NothingAdded(job: Job, build: Builder, r: Repo)
    requires ImportWorks(job, build, r, job.variants) == []
    requires SignWorks(job, r, job.variants) == []
    requires SbomWorks(job, r, job.variants) == []
    ensures TagDelta(job, build, r) == Delta(map[], {})
  {
    hide ImportWorks, SignWorks, SbomWorks;
    assert WorkDeltas(job, build, r, []) == [];
  }

  /** Such a repository plans no import, update, signature or SBOM. */
  lemma NoWork(job: Job, build: Builder, r: Repo)
    requires WellFormed(job) && Standing(job, r)
    ensures ImportWorks(job, build, r, job.variants) == []
    ensures SignWorks(job, r, job.variants) == []
    ensures SbomWorks(job, r, job.variants) == []
  {
    hide AliasesFollow, MarkedOn, Dropped, ImportWorks, SignWorks, SbomWorks, Standing, Placing, Keeping;
    ImportWorksAre(job, build, r, job.variants);
    StandingIsKept(job, r);
    SomeElement(ImportWorks(job, build, r, job.variants));
    NoBackfill(job, r, job.variants);
  }

  lemma StandingIsKept(job: Job, r: Repo)
    requires Standing(job, r)
    ensures forall v, s :: !Placing(job, r, v, s)
  {
    hide Covered, AliasesFollow, MarkedOn, Dropped;
    forall v, s ensures !Placing(job, r, v, s) {
      if IsOutput(job, v, s) {
        assert KeptAndCovered(job, r, v, s);
      }
    }
  }

  lemma CoveredNeedsNothing(job: Job, r: Repo, v: Variant, s: Tag)
    requires IsOutput(job, v, s) && KeptAndCovered(job, r, v, s)
    ensures !NeedsSignature(job, v, MirrorOf(job, r))(s) && !NeedsSbom(job, v, MirrorOf(job, r))(s)
  {
    hide Decide;
    var m := r.tags[s + v.suffix];
    forall f | f in job.formats ensures HasSbom(Referrers(r, m), f) {
      var x: Referrer :| x.Sbom? && x.format == f && (m, x) in r.attached;
      assert x in Referrers(r, m);
    }
    SomeElement(Absent(job.formats, Referrers(r, m)));
    if job.signing {
      var x: Referrer :| x.Bundle? && (m, x) in r.attached;
      assert x in Referrers(r, m);
    }
    assert MirrorOf(job, r)[s + v.suffix] == ToMirrorArtifact(job, m, Referrers(r, m)).value;
  }

  lemma {:induction false} NoBackfill(job: Job, r: Repo, variants: seq<Variant>)
    requires Consistent(job) && Standing(job, r) && forall v | v in variants :: v in job.variants
    ensures SignWorks(job, r, variants) == [] && SbomWorks(job, r, variants) == []
  {
    if variants != [] {
      var n := |variants| - 1;
      var v := variants[n];
      assert variants == variants[..n] + [v];
      NoBackfill(job, r, variants[..n]);
      NeedsNothing(job, r, v);
    }
  }

  lemma NeedsNothing(job: Job, r: Repo, v: Variant)
    requires Consistent(job) && Standing(job, r) && v in job.variants
    ensures VariantPlan(job, v, MirrorOf(job, r)).toSign == [] && VariantPlan(job, v, MirrorOf(job, r)).toSbom == []
  {
    hide Decide, AliasesFollow, Dropped, MarkedOn, MirrorOf, KeptAndCovered, NeedsSignature, NeedsSbom;
    var mirror := MirrorOf(job, r);
    forall s | s in v.tags ensures !NeedsSignature(job, v, mirror)(s) && !NeedsSbom(job, v, mirror)(s) {
      assert IsOutput(job, v, s);
      CoveredNeedsNothing(job, r, v, s);
    }
    var p := VariantPlan(job, v, mirror);
    assert p.toSign == Filter(v.tags, NeedsSignature(job, v, mirror)) &&
        p.toSbom == Filter(v.tags, NeedsSbom(job, v, mirror));
    assert forall s :: s !in p.toSign && s !in p.toSbom;
    SomeElement(p.toSign);
    SomeElement(p.toSbom);
  }

  lemma SomeElement<T>(l: seq<T>)
    ensures l != [] ==> exists s :: s in l
  {
    if l != [] {
      assert l[0] in l;
    }
  }

  /** The target of an alias is never in excess. */
  lemma TargetsNotExcess(job: Job, r: Repo, v: Variant, a: Alias)
    requires WellFormed(job) && IsAlias(job, v, a)
    ensures a.target + v.suffix !in RetentionExcess(job, MirrorOf(job, r))
  {
    hide MirrorOf;
    var t := a.target + v.suffix;
    assert IsOutput(job, v, a.target) && t in AliasTargets(v);
    forall w | w in job.variants ensures t !in VariantExcess(job, w, MirrorOf(job, r)) {
      InVariantExcess(job, r, w, t);
      if t in OutTags(w) {
        var u :| u in w.tags && t == u + w.suffix;
        OneOutput(job, v, a.target, w, u);
      }
    }
  }

  lemma InVariantExcess(job: Job, r: Repo, w: Variant, t: Tag)
    ensures t in VariantExcess(job, w, MirrorOf(job, r)) ==> t in OutTags(w) && t !in AliasTargets(w)
  {
    if job.retention.Some? {
      ExcessMember(KeptTimes(w, MirrorOf(job, r)), job.retention.value.keep, job.retention.value.olderThanDays * DAY,
                   job.now, AliasTargets(w), t);
    }
  }

  lemma MirrorAt(job: Job, r: Repo, t: Tag)
    ensures t in MirrorOf(job, r) <==> IsMirrored(r, t)
    ensures t in MirrorOf(job, r) ==> MirrorOf(job, r)[t].importedAt == TimeAt(r.tags[t].annotations, Created)
  {
  }

  ghost predicate SameOutputs(job: Job, r: Repo, r': Repo) {
    forall t | t in Concrete(job) :: (t in r.tags <==> t in r'.tags) && (t in r.tags ==> r.tags[t] == r'.tags[t])
  }

  lemma TimesFromTags(job: Job, v: Variant, r: Repo, r': Repo)
    requires SameOutputs(job, r, r') && v in job.variants
    ensures KeptTimes(v, MirrorOf(job, r)) == KeptTimes(v, MirrorOf(job, r'))
  {
    hide OutTags, MirrorOf, TimeAt, Stamped;
    forall t | t in OutTags(v)
      ensures t in MirrorOf(job, r) <==> t in MirrorOf(job, r')
      ensures t in MirrorOf(job, r) ==> MirrorOf(job, r)[t].importedAt == MirrorOf(job, r')[t].importedAt
    {
      assert t in Concrete(job);
      MirrorAt(job, r, t);
      MirrorAt(job, r', t);
    }
  }

  /** Retention looks at the output tags and when they were imported, at nothing else. */
  lemma ExcessFromTags(job: Job, r: Repo, r': Repo)
    requires SameOutputs(job, r, r')
    ensures RetentionExcess(job, MirrorOf(job, r)) == RetentionExcess(job, MirrorOf(job, r'))
  {
    hide MirrorOf, Excess, KeptTimes;
    forall v | v in job.variants
      ensures VariantExcess(job, v, MirrorOf(job, r)) == VariantExcess(job, v, MirrorOf(job, r'))
    {
      TimesFromTags(job, v, r, r');
    }
  }

  lemma AliasOf(job: Job, u: Tag) returns (v: Variant, a: Alias)
    requires u in AliasTags(job)
    ensures IsAlias(job, v, a) && u == a.name + v.suffix
  {
    v :| v in job.variants && u in AliasNames(v);
    a :| a in v.aliases && u == a.name + v.suffix;
  }

  lemma StandingTagsStay(job: Job, build: Builder, r: Repo, r': Repo)
    requires WellFormed(job) && Standing(job, r) && RanTo(job, build, r, r')
    ensures r'.tags == r.tags
  {
    hide KeptAndCovered, MarkedOn, DistinctNames, Concrete, AliasTags;
    hide TagDelta, SelectionPairs, RetentionPairs, StaleMarks, Placing, Keeping, Stamped;
    StandingIsKept(job, r);
    forall t ensures (t in r'.tags <==> t in r.tags) && (t in r.tags ==> r'.tags[t] == r.tags[t]) {
      if t in Concrete(job) {
        var v, s := ConcreteOutput(job, t);
        OutputStays(job, build, r, r', v, s);
      } else if t in AliasTags(job) {
        var v, a := AliasOf(job, t);
        AliasDesired(job, v, a);
        OutputStays(job, build, r, r', v, a.target);
      } else if t in r.tags && IsMirrored(r, t) {
        assert Dropped(job, r, t);
      }
    }
  }

  lemma OutputStays(job: Job, build: Builder, r: Repo, r': Repo, v: Variant, s: Tag)
    requires Standing(job, r) && RanTo(job, build, r, r') && IsOutput(job, v, s)
    ensures s + v.suffix in r.tags && s + v.suffix in r'.tags && r'.tags[s + v.suffix] == r.tags[s + v.suffix]
  {
    assert KeptAndCovered(job, r, v, s);
  }

  /** In a settled repository no retention mark of an excess tag is stale. */
  lemma ExcessMarksStay(job: Job, r: Repo, t: Tag, x: Referrer)
    requires Alike(job, r) && t in RetentionExcess(job, MirrorOf(job, r))
    requires x.Mark? && x.reason == RETENTION_EXCESS && t in r.tags
    ensures (r.tags[t], x) !in StaleMarks(job, r)
  {
    hide MirrorOf, RetentionExcess, Concrete, Desired, IsMirrored, StaleMarks;
    ExcessIsConcrete(job, r, t);
    StaleIff(job, r, r.tags[t], x);
  }

  /** ... and no selection mark of a dropped tag. */
  lemma DroppedMarksStay(job: Job, r: Repo, t: Tag, x: Referrer)
    requires Alike(job, r) && Dropped(job, r, t)
    requires x.Mark? && x.reason != RETENTION_EXCESS
    ensures (r.tags[t], x) !in StaleMarks(job, r)
  {
    hide MirrorOf, RetentionExcess, Desired, Stamped, StaleMarks;
    StaleIff(job, r, r.tags[t], x);
  }

  lemma SelectionAfterSecond(job: Job, build: Builder, r: Repo, r': Repo, t: Tag)
    requires WellFormed(job) && Settled(job, r) && RanTo(job, build, r, r') && t in Desired(job)
    ensures t !in MarkedOn(r', false)
  {
    hide WellFormed, Standing, Alike, RanTo, MarkedOn, StaleMarks, MirrorOf, RetentionExcess, Desired, RetentionPairs;
    hide SelectionPairs;
    StandingTagsStay(job, build, r, r');
    StandingPlacesNothing(job, build, r);
    MarksAfterSecond(job, build, r, r');
    MarkedIff(r', t, false);
    if IsMirrored(r', t) {
      var m := r'.tags[t];
      forall x: Referrer | x.Mark? && x.reason != RETENTION_EXCESS ensures (m, x) !in r'.attached {
        if (m, x) in r.attached {
          assert x in MarksOf(r, t);
          assert StaleOn(job, r, t, x);
          StaleIff(job, r, m, x);
        }
        NotASelectionPair(job, r, t, x);
        OnlyRetMarks(job, r, r', m, x);
      }
    }
  }

  lemma MarksAfterSecond(job: Job, build: Builder, r: Repo, r': Repo)
    requires WellFormed(job) && Standing(job, r) && RanTo(job, build, r, r')
    ensures r'.attached == r.attached + SelectionPairs(job, r) + RetentionPairs(job, r, r') - StaleMarks(job, r)
  {
    hide WellFormed, Standing, TagsSettled, TagDelta, StaleMarks, RetentionPairs, SelectionPairs, Desired;
    StandingPlacesNothing(job, build, r);
    assert r.attached + {} == r.attached;
  }

  lemma NotASelectionPair(job: Job, r: Repo, t: Tag, x: Referrer)
    requires Alike(job, r) && t in Desired(job) && IsMirrored(r, t)
    ensures (r.tags[t], x) !in SelectionPairs(job, r)
  {
    hide MirrorOf, RetentionExcess, Desired, MarkedOn;
  }

  lemma OnlyRetMarks(job: Job, r: Repo, r': Repo, m: Manifest, x: Referrer)
    ensures (m, x) in RetentionPairs(job, r, r') ==> x == RetMark(job)
  {
  }

  lemma RetentionAfterSecond(job: Job, build: Builder, r: Repo, r': Repo, t: Tag)
    requires WellFormed(job) && Settled(job, r) && RanTo(job, build, r, r')
    ensures t in MarkedOn(r', true) <==> t in RetentionExcess(job, MirrorOf(job, r))
  {
    hide WellFormed, Standing, Alike, RanTo, MarkedOn, StaleMarks, MirrorOf, RetentionExcess, Desired, SelectionPairs;
    hide RetentionPairs;
    StandingTagsStay(job, build, r, r');
    MarksAfterSecond(job, build, r, r');
    MarkedIff(r', t, true);
    if t in RetentionExcess(job, MirrorOf(job, r)) {
      ExcessIsConcrete(job, r, t);
      var x := ExcessGetsMark(job, r, r', t);
      ExcessMarksStay(job, r, t, x);
      assert (r'.tags[t], x) in r'.attached;
    } else if IsMirrored(r', t) {
      forall x: Referrer | x.Mark? && x.reason == RETENTION_EXCESS ensures (r'.tags[t], x) !in r'.attached {
        if (r.tags[t], x) in r.attached {
          assert x in MarksOf(r, t);
          assert StaleOn(job, r, t, x);
          StaleIff(job, r, r.tags[t], x);
        }
        NotSelMark(job, r, r.tags[t], x);
        NotARetentionPair(job, r, r', t, x);
      }
    }
  }

  lemma ExcessGetsMark(job: Job, r: Repo, r': Repo, t: Tag) returns (x: Referrer)
    requires t in RetentionExcess(job, MirrorOf(job, r)) && t in r.tags && r'.tags == r.tags
    ensures x.Mark? && x.reason == RETENTION_EXCESS && (r.tags[t], x) in r.attached + RetentionPairs(job, r, r')
  {
    hide MirrorOf, RetentionExcess, MarkedOn;
    MarkedIff(r, t, true);
    if t in MarkedOn(r, true) {
      x :| x.Mark? && x.reason == RETENTION_EXCESS && (r.tags[t], x) in r.attached;
    } else {
      x := RetMark(job);
    }
  }

  lemma NotSelMark(job: Job, r: Repo, m: Manifest, x: Referrer)
    requires x.Mark? && x.reason == RETENTION_EXCESS
    ensures (m, x) !in SelectionPairs(job, r)
  {
  }

  lemma NotARetentionPair(job: Job, r: Repo, r': Repo, t: Tag, x: Referrer)
    requires Alike(job, r) && r'.tags == r.tags
    requires IsMirrored(r, t) && t !in RetentionExcess(job, MirrorOf(job, r))
    ensures (r.tags[t], x) !in RetentionPairs(job, r, r')
  {
    hide MirrorOf, RetentionExcess, Concrete, Desired, Stamped;
    forall u | u in RetentionExcess(job, MirrorOf(job, r)) && u in r.tags ensures r.tags[u] != r.tags[t] {
      ExcessIsConcrete(job, r, u);
    }
  }

  lemma DroppedAfterSecond(job: Job, build: Builder, r: Repo, r': Repo, t: Tag)
    requires WellFormed(job) && Settled(job, r) && RanTo(job, build, r, r') && Dropped(job, r', t)
    ensures t in MarkedOn(r', false)
  {
    hide WellFormed, Standing, Alike, RanTo, MarkedOn, StaleMarks, MirrorOf, RetentionExcess, Desired, SelectionPairs;
    hide RetentionPairs;
    StandingTagsStay(job, build, r, r');
    MarksAfterSecond(job, build, r, r');
    MarkedIff(r', t, false);
    var x := DroppedGetsMark(job, r, t);
    DroppedMarksStay(job, r, t, x);
    assert (r'.tags[t], x) in r'.attached;
  }

  lemma DroppedGetsMark(job: Job, r: Repo, t: Tag) returns (x: Referrer)
    requires Settled(job, r) && Dropped(job, r, t)
    ensures x.Mark? && x.reason != RETENTION_EXCESS && (r.tags[t], x) in r.attached + SelectionPairs(job, r)
  {
    hide KeptAndCovered, Alike, AliasesFollow, Desired, MarkedOn;
    MarkedIff(r, t, false);
    if t in MarkedOn(r, false) {
      x :| x.Mark? && x.reason != RETENTION_EXCESS && (r.tags[t], x) in r.attached;
    } else {
      x := SelMark(job);
    }
  }

  lemma MarksAreSettled(job: Job, build: Builder, r: Repo, r': Repo)
    requires WellFormed(job) && Settled(job, r) && RanTo(job, build, r, r') && r'.tags == r.tags
    ensures MarksSettled(job, r')
    ensures MarkedOn(r', true) == RetentionExcess(job, MirrorOf(job, r))
  {
    hide RanTo, WellFormed, Settled, MarkedOn, MirrorOf, RetentionExcess, Desired, Dropped;
    ExcessFromTags(job, r, r');
    forall t ensures t in MarkedOn(r', true) <==> t in RetentionExcess(job, MirrorOf(job, r)) {
      RetentionAfterSecond(job, build, r, r', t);
    }
    forall t | t in Desired(job) ensures t !in MarkedOn(r', false) {
      SelectionAfterSecond(job, build, r, r', t);
    }
    forall t | Dropped(job, r', t) ensures t in MarkedOn(r', false) {
      DroppedAfterSecond(job, build, r, r', t);
    }
  }

  /** What stands keeps standing: a second run moves no tag. */
  lemma StandsAgain(job: Job, build: Builder, r: Repo)
    requires WellFormed(job) && Standing(job, r)
    ensures var r' := Run(job, build, APPLY, NoOutage(), r); Standing(job, r') && r'.tags == r.tags
  {
    hide Run, RanTo, WellFormed, Standing, AfterTags, AfterMarks, AllOk, AllTrue;
    var r' := Run(job, build, APPLY, NoOutage(), r);
    RunClosed(job, build, r);
    StandingTagsStay(job, build, r, r');
    StandsOn(job, build, r, r');
  }

  lemma StandsOn(job: Job, build: Builder, r: Repo, r': Repo)
    requires WellFormed(job) && Standing(job, r) && RanTo(job, build, r, r') && r'.tags == r.tags
    ensures Standing(job, r')
  {
    hide RanTo, WellFormed, KeptAndCovered, Desired, Stamped;
    forall v, s | IsOutput(job, v, s) ensures KeptAndCovered(job, r', v, s) {
      StillCovered(job, build, r, r', v, s);
    }
    forall t | Dropped(job, r', t) ensures job.mode == MarkOnly {
      assert Dropped(job, r, t);
    }
  }

  lemma StillCovered(job: Job, build: Builder, r: Repo, r': Repo, v: Variant, s: Tag)
    requires WellFormed(job) && Standing(job, r) && RanTo(job, build, r, r') && r'.tags == r.tags && IsOutput(job, v, s)
    ensures KeptAndCovered(job, r', v, s)
  {
    hide WellFormed, RanTo, MirrorOf, Desired, Covered, StaleMarks, SelectionPairs, RetentionPairs, Decide, Stamped;
    assert KeptAndCovered(job, r, v, s);
    MarksAfterSecond(job, build, r, r');
    var more := SelectionPairs(job, r) + RetentionPairs(job, r, r');
    assert r'.attached == r.attached + more - StaleMarks(job, r);
    StillKept(job, r, r', v, s);
    CoverageSurvives(job, r, r.attached, more, r.tags[s + v.suffix]);
  }

  lemma AlikeFromTags(job: Job, r: Repo, r': Repo)
    requires r.tags == r'.tags
    ensures Alike(job, r) <==> Alike(job, r')
  {
    hide MirrorOf, RetentionExcess, Desired;
    ExcessFromTags(job, r, r');
  }

  /** The second run makes every mark the one the plan asks for, and moves no tag. */
  lemma SecondRun(job: Job, build: Builder, r: Repo)
    requires WellFormed(job) && Settled(job, r)
    ensures Quiet(job, Run(job, build, APPLY, NoOutage(), r))
    ensures Run(job, build, APPLY, NoOutage(), r).tags == r.tags
  {
    hide Run, RanTo, WellFormed, Standing, Alike, MarksSettled, MarkedOn, MirrorOf, RetentionExcess, AfterTags;
    hide AfterMarks, AllOk, Desired;
    var r' := Run(job, build, APPLY, NoOutage(), r);
    RunClosed(job, build, r);
    StandsAgain(job, build, r);
    AlikeFromTags(job, r, r');
    MarksAreSettled(job, build, r, r');
    forall t | Dropped(job, r', t) ensures t !in MarkedOn(r', true) {
      NotInExcess(job, r, t);
    }
  }

  // ---- the third run ------------------------------------------------------------------------------------------------

  /** What a run that changes nothing plans: aliases to copy onto what they already designate, and nothing else. */
  ghost predicate PlansNothing(job: Job, build: Builder, r: Repo) {
    && ImportWorks(job, build, r, job.variants) == []
    && SignWorks(job, r, job.variants) == []
    && SbomWorks(job, r, job.variants) == []
    && SelectionWorks(job, r) == []
    && RetentionWorks(job, r) == []
    && PlanOf(job, r).toUnmark == [] && PlanOf(job, r).toUnmarkRetention == []
    && AliasesFollow(job, r)
  }

  lemma QuietPlansNothing(job: Job, build: Builder, r: Repo)
    requires WellFormed(job) && Quiet(job, r)
    ensures PlansNothing(job, build, r)
  {
    hide WellFormed, MarkedOn, MirrorOf, RetentionExcess, Desired, KeptAndCovered, Alike, AliasesFollow;
    hide PlanOf, ImportWorks, SignWorks, SbomWorks, IsMirrored;
    NoWork(job, build, r);
    DropList(job, r);
    RetainList(job, r);
    UnmarkLists(job, r);
    var p := PlanOf(job, r);
    SomeElement(p.toUnmark);
    SomeElement(p.toUnmarkRetention);
    var kept := Filter(p.toMarkRetention, t => t !in MarkedRetention(r));
    SomeElement(kept);
    var ts := Filter(p.toDelete, t => t !in MarkedSelection(r) + MarkedRetention(r));
    SomeElement(ts);
    SomeElement(p.toDelete);
    assert SelectionWorks(job, r) == [];
  }

  lemma QuietStays(job: Job, build: Builder, r: Repo)
    requires WellFormed(job) && Quiet(job, r)
    ensures Run(job, build, APPLY, NoOutage(), r) == r
  {
    hide Run, WellFormed, MarkedOn, MirrorOf, Desired, PlanOf, Standing, Alike, MarksSettled;
    hide RetentionExcess, AfterTags, AfterMarks, AllOk;
    var r' := Run(job, build, APPLY, NoOutage(), r);
    RunClosed(job, build, r);
    StandingTagsStay(job, build, r, r');
    MarksAfterSecond(job, build, r, r');
    QuietPlansNothing(job, build, r);
    NoPairs(job, r, r');
  }

  lemma NoPairs(job: Job, r: Repo, r': Repo)
    requires Quiet(job, r) && PlanOf(job, r).toUnmark == [] && PlanOf(job, r).toUnmarkRetention == []
    ensures SelectionPairs(job, r) == {} && RetentionPairs(job, r, r') == {} && StaleMarks(job, r) == {}
  {
    hide Settled, MarkedOn, RetentionExcess, MirrorOf, Desired, PlanOf, IsMirrored;
  }

  /** Where a run plans nothing, tags on one manifest are to be marked alike: the marks on it say what they are. */
  lemma QuietIsAlike(job: Job, build: Builder, r: Repo)
    requires PlansNothing(job, build, r)
    ensures Alike(job, r)
  {
    hide MirrorOf, RetentionExcess, Desired, ImportWorks, SignWorks, SbomWorks, PlanOf, Stamped, MarkedOn;
    hide AliasesFollow;
    UnmarkLists(job, r);
    forall t ensures t in MarkedOn(r, true) <==> t in RetentionExcess(job, MirrorOf(job, r)) {
      ExcessIsMarked(job, build, r, t);
    }
    forall t, u | IsMirrored(r, t) && IsMirrored(r, u) && r.tags[t] == r.tags[u]
      ensures t in Desired(job) ==> u in Desired(job)
      ensures t in RetentionExcess(job, MirrorOf(job, r)) ==> u in RetentionExcess(job, MirrorOf(job, r))
    {
      SameMarks(r, t, u, true);
      SameMarks(r, t, u, false);
      if u !in Desired(job) {
        DroppedIsMarked(job, build, r, u);
        NotInExcess(job, r, u);
      }
    }
  }

  lemma SameMarks(r: Repo, t: Tag, u: Tag, retention: bool)
    requires IsMirrored(r, t) && IsMirrored(r, u) && r.tags[t] == r.tags[u]
    ensures t in MarkedOn(r, retention) <==> u in MarkedOn(r, retention)
  {
    MarkedIff(r, t, retention);
    MarkedIff(r, u, retention);
  }

  lemma ExcessIsMarked(job: Job, build: Builder, r: Repo, t: Tag)
    requires PlansNothing(job, build, r)
    ensures t in RetentionExcess(job, MirrorOf(job, r)) ==> t in MarkedOn(r, true)
  {
    hide MirrorOf, RetentionExcess, Desired, ImportWorks, SignWorks, SbomWorks, PlanOf, IsMirrored, MarkedOn;
    hide AliasesFollow;
    hide SelectionWorks;
    RetainList(job, r);
    var kept := Filter(PlanOf(job, r).toMarkRetention, t => t !in MarkedRetention(r));
    assert |RetentionWorks(job, r)| == |kept|;
    assert t !in kept;
  }

  lemma DroppedIsMarked(job: Job, build: Builder, r: Repo, t: Tag)
    requires PlansNothing(job, build, r)
    ensures Dropped(job, r, t) ==> t in MarkedOn(r, false) + MarkedOn(r, true)
  {
    hide MirrorOf, RetentionExcess, Desired, ImportWorks, SignWorks, SbomWorks, PlanOf, IsMirrored, MarkedOn;
    hide AliasesFollow;
    hide RetentionWorks;
    DropList(job, r);
    var drop := PlanOf(job, r).toDelete;
    var ts := Filter(drop, t => t !in MarkedSelection(r) + MarkedRetention(r));
    assert |SelectionWorks(job, r)| == if job.mode == MarkOnly then |ts| else |drop|;
    assert job.mode == MarkOnly ==> t !in ts;
  }

  /** The repository after `n` failure-free runs; the builder may produce different bytes in every run. */
  ghost function After(job: Job, builds: nat -> Builder, r: Repo, n: nat): Repo {
    if n == 0 then r else Run(job, builds(n - 1), APPLY, NoOutage(), After(job, builds, r, n - 1))
  }

  lemma {:induction false} StandsAfter(job: Job, builds: nat -> Builder, r: Repo, n: nat)
    requires WellFormed(job) && Lasting(job, r) && n > 0
    ensures Standing(job, After(job, builds, r, n))
    ensures After(job, builds, r, n).tags == After(job, builds, r, 1).tags
  {
    hide WellFormed, Lasting, Standing, Run;
    if n == 1 {
      assert After(job, builds, r, 1) == Run(job, builds(0), APPLY, NoOutage(), After(job, builds, r, 0));
      StandsAfterRun(job, builds(0), r);
    } else {
      StandsAfter(job, builds, r, n - 1);
      StandsAgain(job, builds(n - 1), After(job, builds, r, n - 1));
    }
  }

  lemma {:induction false} QuietAfter(job: Job, builds: nat -> Builder, r: Repo, n: nat)
    requires WellFormed(job) && Lasting(job, r) && Alike(job, After(job, builds, r, 1)) && n >= 2
    ensures Quiet(job, After(job, builds, r, n)) && After(job, builds, r, n) == After(job, builds, r, 2)
  {
    hide WellFormed, Lasting, Settled, MarksSettled, Run, Alike;
    if n == 2 {
      assert After(job, builds, r, 1) == Run(job, builds(0), APPLY, NoOutage(), After(job, builds, r, 0));
      FirstRun(job, builds(0), r);
      assert After(job, builds, r, 2) == Run(job, builds(1), APPLY, NoOutage(), After(job, builds, r, 1));
      SecondRun(job, builds(1), After(job, builds, r, 1));
    } else {
      QuietAfter(job, builds, r, n - 1);
      QuietStays(job, builds(n - 1), After(job, builds, r, n - 1));
    }
  }

  /** An output that is not kept and does not read back is imported or updated by every run. */
  lemma {:induction false} PlacedForever(job: Job, builds: nat -> Builder, build: Builder, r: Repo, v: Variant,
                                         s: Tag, n: nat)
    requires WellFormed(job) && IsOutput(job, v, s) && !Keeping(job, r, v, s) && !ReadsBack(job, v, s)
    ensures Placing(job, After(job, builds, r, n), v, s)
    ensures !PlansNothing(job, build, After(job, builds, r, n))
  {
    hide WellFormed, Run, Placing, Keeping, ReadsBack, PlansNothing, IsOutput;
    if n > 0 {
      PlacedForever(job, builds, build, r, v, s, n - 1);
      PlacedAgain(job, builds(n - 1), After(job, builds, r, n - 1), v, s);
    }
    NotKeptIsPlanned(job, build, After(job, builds, r, n), v, s);
  }

  lemma PlacedAgain(job: Job, build: Builder, r: Repo, v: Variant, s: Tag)
    requires WellFormed(job) && Placing(job, r, v, s) && !ReadsBack(job, v, s)
    ensures !Keeping(job, Run(job, build, APPLY, NoOutage(), r), v, s)
  {
    hide WellFormed, RanTo, Run, AfterTags, AfterMarks, AllOk, AllTrue, MirrorOf, Decide, ReadsBack, Designated;
    RunClosed(job, build, r);
    OutputAfterRun(job, build, r, Run(job, build, APPLY, NoOutage(), r), v, s);
  }

  lemma NotKeptIsPlanned(job: Job, build: Builder, r: Repo, v: Variant, s: Tag)
    requires WellFormed(job) && IsOutput(job, v, s) && !Keeping(job, r, v, s)
    ensures Placing(job, r, v, s) && !PlansNothing(job, build, r)
  {
    hide ImportWorks, SignWorks, SbomWorks, SelectionWorks, RetentionWorks, MirrorOf, Decide, DistinctNames, PlanOf;
    ImportWorksAre(job, build, r, job.variants);
  }

  /** What every run after the second needs in order to plan nothing. */
  ghost predicate Convergent(job: Job, builds: nat -> Builder, r: Repo) {
    Lasting(job, r) && Alike(job, After(job, builds, r, 1))
  }

  /**
   Exactly when re-running is a no-op: from any repository, every run after the second plans
   nothing if outputs that are not kept read back, and tags that share a manifest after the
   first are to be marked alike. If not, no run after the first ever plans nothing.
   */
  lemma ConvergesIff(job: Job, builds: nat -> Builder, build: Builder, r: Repo, n: nat)
    requires WellFormed(job) && n > 0
    ensures PlansNothing(job, build, After(job, builds, r, n)) ==> Convergent(job, builds, r)
    ensures Convergent(job, builds, r) && n >= 2 ==>
              PlansNothing(job, build, After(job, builds, r, n)) && After(job, builds, r, n) == After(job, builds, r, 2)
  {
    hide WellFormed, Standing, Settled, MarksSettled, Run, Alike, PlansNothing, After, Quiet, Keeping, ReadsBack;
    var x := After(job, builds, r, n);
    if Lasting(job, r) {
      StandsAfter(job, builds, r, n);
      AlikeFromTags(job, x, After(job, builds, r, 1));
      if PlansNothing(job, build, x) {
        QuietIsAlike(job, build, x);
      }
    } else {
      var v, s :| IsOutput(job, v, s) && !(Keeping(job, r, v, s) || ReadsBack(job, v, s));
      PlacedForever(job, builds, build, r, v, s, n);
    }
    if Convergent(job, builds, r) && n >= 2 {
      QuietAfter(job, builds, r, n);
      QuietPlansNothing(job, build, x);
    }
  }

  /**
   Two-run convergence: from any repository, after two failure-free runs a third plans no
   import, update, signature, SBOM, deletion, mark or unmark, and leaves the repository as
   it is.
   */
  lemma ThirdRunIsNoOp(job: Job, build1: Builder, build2: Builder, build3: Builder, r: Repo)
    requires WellFormed(job) && Lasting(job, r) && Unshared(job, build1, r)
    ensures var r2 := Run(job, build2, APPLY, NoOutage(), Run(job, build1, APPLY, NoOutage(), r));
            PlansNothing(job, build3, r2) && Run(job, build3, APPLY, NoOutage(), r2) == r2
  {
    hide Run, Quiet, Settled, WellFormed, Lasting, Unshared, PlansNothing, Alike;
    var r1 := Run(job, build1, APPLY, NoOutage(), r);
    UnsharedIsAlike(job, build1, r);
    FirstRun(job, build1, r);
    SecondRun(job, build2, r1);
    var r2 := Run(job, build2, APPLY, NoOutage(), r1);
    QuietPlansNothing(job, build3, r2);
    QuietStays(job, build3, r2);
  }

  /**
   With outputs apart, what decides can be seen before the first run: whether what is not kept
   reads back, and in mark mode whether a dropped tag names the manifest of a selected one.
   Purge mode, the default, asks for no such thing.
   */
  lemma MarkModeConvergesIff(job: Job, builds: nat -> Builder, build: Builder, r: Repo, n: nat)
    requires WellFormed(job) && OutputsApart(job, builds(0), r) && n > 0
    ensures var good := Lasting(job, r) && (job.mode == MarkOnly ==> DroppedApart(job, builds(0), r));
            && (good && n >= 2 ==> PlansNothing(job, build, After(job, builds, r, n)))
            && (!good ==> !PlansNothing(job, build, After(job, builds, r, n)))
  {
    hide WellFormed, Lasting, OutputsApart, DroppedApart, Run, Alike, PlansNothing;
    assert After(job, builds, r, 1) == Run(job, builds(0), APPLY, NoOutage(), After(job, builds, r, 0));
    ConvergesIff(job, builds, build, r, n);
    if Unshared(job, builds(0), r) {
      UnsharedIsAlike(job, builds(0), r);
    } else {
      AlikeIsUnshared(job, builds(0), r);
    }
  }

  lemma AlikeIsUnshared(job: Job, build: Builder, r: Repo)
    requires WellFormed(job) && job.mode == MarkOnly
    ensures Alike(job, Run(job, build, APPLY, NoOutage(), r)) ==> DroppedApart(job, build, r)
  {
    hide Run, RanTo, WellFormed, AfterTags, AfterMarks, AllOk, AllTrue, Alike, Designated, Dropped, ReadsBack, Keeping;
    var r' := Run(job, build, APPLY, NoOutage(), r);
    RunClosed(job, build, r);
    if Alike(job, r') {
      forall v, s, t | IsOutput(job, v, s) && Dropped(job, r, t)
        ensures t in r.tags && Designated(job, build, r, v, s) != r.tags[t]
      {
        OutputAfterRun(job, build, r, r', v, s);
        DroppedStaysMarked(job, build, r, r', t);
        OutputConcrete(job, v, s);
        AlikeDesired(job, r', t, s + v.suffix);
      }
    }
  }

  lemma AlikeDesired(job: Job, r: Repo, t: Tag, u: Tag)
    requires Alike(job, r) && IsMirrored(r, t) && IsMirrored(r, u) && t !in Desired(job) && u in Desired(job)
    ensures r.tags[t] != r.tags[u]
  {
    hide MirrorOf, RetentionExcess, Desired;
  }

  lemma DroppedStaysMarked(job: Job, build: Builder, r: Repo, r': Repo, t: Tag)
    requires job.mode == MarkOnly && RanTo(job, build, r, r') && Dropped(job, r, t)
    ensures t in r.tags && IsMirrored(r', t) && r'.tags[t] == r.tags[t] && t !in Desired(job)
  {
    hide TagsSettled, Desired;
  }
}
