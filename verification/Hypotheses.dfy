/**
 The hypotheses of the convergence theorem: how they follow from what an operator can see,
 and what happens without each of them.
 */
module Hypotheses {
  import opened Wrappers
  import opened Sorting
  import opened Registry
  import opened Retention
  import opened Reconcile
  import opened Apply
  import opened Runs
  import opened Convergence

  // ---- sharing ---------------------------------------------------------------------------------------------

  ghost predicate DistinctVariantNames(job: Job) {
    forall v, w | v in job.variants && w in job.variants && v.name == w.name :: v == w
  }

  /** No mirrored tag was stamped at this very instant. */
  ghost predicate NothingStampedNow(job: Job, r: Repo) {
    forall t | IsMirrored(r, t) :: TimeAt(r.tags[t].annotations, Created) != Some(job.now)
  }

  /** A mirrored selected tag shares its manifest with no other selected tag, and in mark mode with no dropped one. */
  ghost predicate NoSharedManifests(job: Job, r: Repo) {
    forall t, u | IsMirrored(r, t) && IsMirrored(r, u) && t in Concrete(job) && u !in AliasTags(job) && t != u
                  && (u in Concrete(job) || job.mode == MarkOnly) ::
      r.tags[t] != r.tags[u]
  }

  lemma PlacedFacts(job: Job, build: Builder, v: Variant, s: Tag)
    requires s in job.source
    ensures var a := Placed(job, build, v, s).annotations;
            && TimeAt(a, Created) == Some(job.now)
            && TextAt(a, BaseName) == Some(job.sourceName + ":" + s)
            && (job.prefix != "" ==> TextAt(a, Knock(job.prefix, VariantName)) == Some(v.name))
  {
    assert Placed(job, build, v, s).annotations ==
           Unstamped(job, build, v, s).annotations + (OciStamp(job, s) + LineageStamp(job, v) + TransformStamp(job, v));
  }

  /** Under a prefix two outputs are stamped apart: by source tag or by variant. */
  lemma PlacedApart(job: Job, build: Builder, v: Variant, s: Tag, w: Variant, u: Tag)
    requires job.prefix != "" && DistinctVariantNames(job)
    requires IsOutput(job, v, s) && IsOutput(job, w, u) && s + v.suffix != u + w.suffix
    ensures Placed(job, build, v, s) != Placed(job, build, w, u)
  {
    hide Placed;
    PlacedFacts(job, build, v, s);
    PlacedFacts(job, build, w, u);
    if v.name == w.name {
      var p := job.sourceName + ":";
      assert (p + s)[|p|..] == s && (p + u)[|p|..] == u;
    }
  }

  /** `Unshared` follows from what a look at the repository shows. */
  lemma UnsharedFromSnapshot(job: Job, build: Builder, r: Repo)
    requires WellFormed(job) && job.prefix != "" && DistinctVariantNames(job)
    requires NothingStampedNow(job, r) && NoSharedManifests(job, r)
    ensures Unshared(job, build, r)
  {
    hide Placed, MirrorOf, Decide, WellFormed;
    forall v, s, w, u | IsOutput(job, v, s) && IsOutput(job, w, u) && s + v.suffix != u + w.suffix
      ensures Designated(job, build, r, v, s) != Designated(job, build, r, w, u)
    {
      PlacedApart(job, build, v, s, w, u);
      PlacedFacts(job, build, v, s);
      PlacedFacts(job, build, w, u);
      OutputFacts(job, r, v, s);
      OutputFacts(job, r, w, u);
    }
    if job.mode == MarkOnly {
      forall v, s, t | IsOutput(job, v, s) && Dropped(job, r, t)
        ensures t in r.tags && Designated(job, build, r, v, s) != r.tags[t]
      {
        PlacedFacts(job, build, v, s);
        OutputFacts(job, r, v, s);
      }
    }
  }

  lemma OutputFacts(job: Job, r: Repo, v: Variant, s: Tag)
    requires WellFormed(job) && IsOutput(job, v, s)
    ensures Keeping(job, r, v, s) ==> IsMirrored(r, s + v.suffix)
    ensures s + v.suffix in Concrete(job) && s + v.suffix in Desired(job) && s + v.suffix !in AliasTags(job)
  {
    if Keeping(job, r, v, s) {
      KeptIsMirrored(job, r, v, s);
    }
    OutputConcrete(job, v, s);
  }

  /**
   In either mode a dropped tag that shares the manifest of a desired one leaves something to
   mark, unmark or delete.
   */
  lemma SharingIsNeverQuiet(job: Job, build: Builder, r: Repo, dropped: Tag, desired: Tag)
    requires Dropped(job, r, dropped) && IsMirrored(r, desired) && desired in Desired(job)
    requires r.tags[dropped] == r.tags[desired]
    ensures !PlansNothing(job, build, r)
  {
    hide Desired, MirrorOf, RetentionExcess, PlansNothing, Stamped;
    if PlansNothing(job, build, r) {
      QuietIsAlike(job, build, r);
    }
  }

  /**
   The convergence claim is false without the sharing hypothesis: a policy that drops an
   alias while its target stays selected never converges in mark mode, however often it runs.
   */
  lemma DroppedAliasNeverConverges(job: Job, builds: nat -> Builder, build: Builder, r: Repo, dropped: Tag,
                                   v: Variant, s: Tag, n: nat)
    requires WellFormed(job) && job.mode == MarkOnly
    requires Dropped(job, r, dropped) && Keeping(job, r, v, s)
    requires s + v.suffix in r.tags && r.tags[dropped] == r.tags[s + v.suffix]
    ensures !PlansNothing(job, build, After(job, builds, r, n))
  {
    hide Run, MirrorOf, Decide, Desired, PlansNothing, WellFormed, Alike, Stamped;
    KeptIsMirrored(job, r, v, s);
    OutputConcrete(job, v, s);
    if n == 0 {
      SharingIsNeverQuiet(job, build, r, dropped, s + v.suffix);
    } else {
      assert Designated(job, builds(0), r, v, s) == r.tags[dropped];
      assert After(job, builds, r, 1) == Run(job, builds(0), APPLY, NoOutage(), After(job, builds, r, 0));
      AlikeIsUnshared(job, builds(0), r);
      ConvergesIff(job, builds, build, r, n);
    }
  }

  /** Nor does it converge, in either mode, while two tags on one manifest differ in being in retention excess. */
  lemma SharedExcessNeverConverges(job: Job, builds: nat -> Builder, build: Builder, r: Repo, t: Tag, u: Tag, n: nat)
    requires WellFormed(job) && n > 0
    requires IsMirrored(After(job, builds, r, 1), t) && IsMirrored(After(job, builds, r, 1), u)
    requires After(job, builds, r, 1).tags[t] == After(job, builds, r, 1).tags[u]
    requires t in RetentionExcess(job, MirrorOf(job, After(job, builds, r, 1)))
    requires u !in RetentionExcess(job, MirrorOf(job, After(job, builds, r, 1)))
    ensures !PlansNothing(job, build, After(job, builds, r, n))
  {
    hide Run, After, MirrorOf, RetentionExcess, Desired, PlansNothing, WellFormed, Stamped;
    ConvergesIff(job, builds, build, r, n);
  }

  // ---- versions that do not read back ------------------------------------------------------------------------------

  /** Without a prefix no version is recorded, so a transformed tag is rebuilt by every run. */
  lemma EmptyPrefixRebuildsForever(job: Job, build: Builder, r: Repo, v: Variant, s: Tag)
    requires Consistent(job) && IsOutput(job, v, s)
    requires job.prefix == "" && v.name in job.transforms
    ensures Placing(job, r, v, s) && ImportWorks(job, build, r, job.variants) != []
  {
    hide ImportWorks;
    ImportWorksAre(job, build, r, job.variants);
  }

  /**
   ... and a tag copied from an upstream that carries knock's own version, where nothing is
   transformed, is copied again by every run once it has to be placed at all.
   */
  lemma KnockUpstreamUpdatesForever(job: Job, builds: nat -> Builder, build: Builder, r: Repo, v: Variant, s: Tag,
                                    n: nat)
    requires WellFormed(job) && IsOutput(job, v, s) && !Keeping(job, r, v, s)
    requires job.prefix != "" && v.steps == [] && Knock(job.prefix, Version) in job.source[s].annotations
    ensures Placing(job, After(job, builds, r, n), v, s) && !PlansNothing(job, build, After(job, builds, r, n))
  {
    hide WellFormed, Run, Keeping, Placing, PlansNothing;
    PlacedForever(job, builds, build, r, v, s, n);
  }

  // ---- distinct names ----------------------------------------------------------------------------------------------

  /** An output name that an alias has overwritten with another tag's image is updated again once its grace is over. */
  lemma OverwrittenOutputIsUpdated(job: Job, build: Builder, r: Repo, v: Variant, s: Tag, w: Variant, u: Tag)
    requires IsOutput(job, v, s) && IsOutput(job, w, u)
    requires s + v.suffix in r.tags && r.tags[s + v.suffix] == Placed(job, build, w, u)
    requires job.source[u].digest != job.source[s].digest
    requires job.source[s].created.Some? && job.now - job.source[s].created.value >= GRACE
    ensures Placing(job, r, v, s)
  {
    hide Placed, RecordedVersion, Unstamped, Signed, Absent;
    var m := r.tags[s + v.suffix];
    BaseReadsBack(job, build, w, u);
    if IsMirrored(r, s + v.suffix) {
      assert MirrorOf(job, r)[s + v.suffix] == ToMirrorArtifact(job, m, Referrers(r, m)).value;
    }
  }

  lemma BaseReadsBack(job: Job, build: Builder, w: Variant, u: Tag)
    requires u in job.source
    ensures TextAt(Placed(job, build, w, u).annotations, BaseDigest) == Some(job.source[u].digest)
  {
    assert Placed(job, build, w, u).annotations ==
           Unstamped(job, build, w, u).annotations + (OciStamp(job, u) + LineageStamp(job, w) + TransformStamp(job, w));
  }

  // ---- the hypotheses hold of ordinary policies ---------------------------------------------------------------------

  const PLAIN := Variant("default", "", [], ["1.0", "1.1"], [Alias("latest", "1.1")])

  const HARDENED := Variant("hardened", "-hardened", ["update"], ["1.0", "1.1"], [Alias("latest", "1.1")])

  function OrdinaryJob(mode: DeletionMode, now: int): Job {
    Job("policy", "import", "image", None, None, "upstream/app", "app", [PLAIN, HARDENED], map["hardened" := "v1"],
        Some(ResolvedRetention(1, 30)), mode, "io.knock", true, ["spdx"], now,
        map["1.0" := Upstream("sha256:a", Some(0), None, map[]), "1.1" := Upstream("sha256:b", Some(0), None, map[])])
  }

  lemma OrdinaryOutputs(mode: DeletionMode, now: int)
    ensures var job := OrdinaryJob(mode, now);
            && (forall v, s | IsOutput(job, v, s) :: v in {PLAIN, HARDENED} && s in {"1.0", "1.1"})
            && (forall v, a | IsAlias(job, v, a) :: v in {PLAIN, HARDENED} && a == Alias("latest", "1.1"))
            && Concrete(job) == {"1.0", "1.1", "1.0-hardened", "1.1-hardened"}
            && AliasTags(job) == {"latest", "latest-hardened"}
  {
    var job := OrdinaryJob(mode, now);
    assert "1.0" + "" == "1.0" && "1.1" + "" == "1.1" && "latest" + "" == "latest";
    assert "1.0" + "-hardened" == "1.0-hardened" && "1.1" + "-hardened" == "1.1-hardened" &&
        "latest" + "-hardened" == "latest-hardened";
    assert PLAIN in job.variants && HARDENED in job.variants;
    assert "1.0" in PLAIN.tags && "1.1" in PLAIN.tags && "1.0" in HARDENED.tags && "1.1" in HARDENED.tags;
    assert Alias("latest", "1.1") in PLAIN.aliases && Alias("latest", "1.1") in HARDENED.aliases;
    assert OutTags(PLAIN) == {"1.0", "1.1"} && OutTags(HARDENED) == {"1.0-hardened", "1.1-hardened"};
    assert AliasNames(PLAIN) == {"latest"} && AliasNames(HARDENED) == {"latest-hardened"};
  }

  /** Two variants, one of them transformed, an alias each, signing, SBOMs and retention, into an empty repository. */
  lemma OrdinaryJobQualifies(mode: DeletionMode, now: int, build: Builder)
    ensures var job := OrdinaryJob(mode, now);
            WellFormed(job) && Lasting(job, Repo(map[], {})) && Unshared(job, build, Repo(map[], {}))
  {
    hide Concrete, AliasTags, Unshared;
    var job, empty := OrdinaryJob(mode, now), Repo(map[], {});
    OrdinaryOutputs(mode, now);
    assert "1.0" != "1.1";
    assert WellFormed(job) by {
      OrdinaryWellPlanned(mode, now);
      OrdinaryNamesDistinct(mode, now);
    }
    UnsharedFromSnapshot(job, build, empty);
  }

  lemma OrdinaryWellPlanned(mode: DeletionMode, now: int)
    ensures WellPlanned(OrdinaryJob(mode, now)) && forall r :: Lasting(OrdinaryJob(mode, now), r)
  {
    hide Concrete, AliasTags;
    var job := OrdinaryJob(mode, now);
    OrdinaryOutputs(mode, now);
    forall t | t in Desired(job) ensures !IsReferrersFallbackTag(t) {
      assert |t| != 71;
    }
  }

  lemma OrdinaryNamesDistinct(mode: DeletionMode, now: int)
    ensures DistinctNames(OrdinaryJob(mode, now))
  {
    hide Concrete, AliasTags;
    var job := OrdinaryJob(mode, now);
    OrdinaryOutputs(mode, now);
    assert "1.0" != "1.1" && |"1.0" + ""| == 3 && |"1.0" + "-hardened"| == 12 && |"latest" + ""| == 6 &&
        |"latest" + "-hardened"| == 15;
    forall v, s, w, u | IsOutput(job, v, s) && IsOutput(job, w, u) && s + v.suffix == u + w.suffix
      ensures v == w && s == u
    {
      assert |s| == 3 && |u| == 3;
      assert (s + v.suffix)[..3] == s && (u + w.suffix)[..3] == u;
    }
  }

  // ---- two outputs on one manifest ----------------------------------------------------------------------------------

  const ALIASED := Variant("a", "", [], ["1"], [Alias("latest", "1")])

  const SECOND := Variant("b", "-b", [], ["1"], [])

  /**
   One image under two variants that change nothing, with no prefix to stamp them apart, and a
   window of thirty days.
   */
  function TwinJob(mode: DeletionMode): Job {
    Job("policy", "import", "image", None, None, "upstream/app", "app", [ALIASED, SECOND], map[],
        Some(ResolvedRetention(0, 30)), mode, "", true, ["spdx"], 100 * DAY,
        map["1" := Upstream("sha256:a", Some(0), None, map[])])
  }

  function TwinImage(): Manifest {
    Manifest(Pulled("sha256:a"), map[BaseDigest := Text("sha256:a"), Created := Time(0)])
  }

  function Twins(): Repo { Repo(map["1" := TwinImage(), "1-b" := TwinImage()], {}) }

  lemma TwinOutputs(mode: DeletionMode)
    ensures var job := TwinJob(mode);
            && (forall v, s | IsOutput(job, v, s) :: v in {ALIASED, SECOND} && s == "1")
            && (forall v, a | IsAlias(job, v, a) :: v == ALIASED && a == Alias("latest", "1"))
            && IsOutput(job, ALIASED, "1") && IsOutput(job, SECOND, "1") && IsAlias(job, ALIASED, Alias("latest", "1"))
            && Concrete(job) == {"1", "1-b"} && AliasTags(job) == {"latest"}
  {
    var job := TwinJob(mode);
    assert "1" + "" == "1" && "1" + "-b" == "1-b" && "latest" + "" == "latest";
    assert job.variants == [ALIASED, SECOND] && job.variants[0] == ALIASED && job.variants[1] == SECOND;
    assert ALIASED in job.variants && SECOND in job.variants && "1" in ALIASED.tags && "1" in SECOND.tags;
    assert Alias("latest", "1") in ALIASED.aliases;
    assert OutTags(ALIASED) == {"1"} && OutTags(SECOND) == {"1-b"};
    assert AliasNames(ALIASED) == {"latest"} && AliasNames(SECOND) == {};
  }

  lemma TwinsWellFormed(mode: DeletionMode)
    ensures WellFormed(TwinJob(mode))
  {
    hide Concrete, AliasTags;
    var job := TwinJob(mode);
    TwinOutputs(mode);
    assert |"1" + ""| == 1 && |"1" + "-b"| == 3 && |"latest"| == 6;
    forall t | t in Desired(job) ensures !IsReferrersFallbackTag(t) {
      assert |t| != 71;
    }
  }

  lemma TwinsKept(mode: DeletionMode)
    ensures var job := TwinJob(mode); Keeping(job, Twins(), ALIASED, "1") && Keeping(job, Twins(), SECOND, "1")
  {
    hide Concrete, AliasTags, Absent, HasBundle;
    var job, r := TwinJob(mode), Twins();
    TwinOutputs(mode);
    assert "1" + "" == "1" && "1" + "-b" == "1-b" && |"1"| == 1 && |"1-b"| == 3;
    assert IsMirrored(r, "1") && IsMirrored(r, "1-b");
    assert MirrorOf(job, r)["1"] == ToMirrorArtifact(job, TwinImage(), Referrers(r, TwinImage())).value;
    assert MirrorOf(job, r)["1-b"] == ToMirrorArtifact(job, TwinImage(), Referrers(r, TwinImage())).value;
  }

  lemma TwinInExcess(mode: DeletionMode)
    ensures "1-b" in RetentionExcess(TwinJob(mode), MirrorOf(TwinJob(mode), Twins()))
  {
    hide Concrete, AliasTags, MirrorOf, Excess;
    var job, r := TwinJob(mode), Twins();
    assert "1" + "-b" == "1-b" && |"1-b"| == 3;
    MirrorAt(job, r, "1-b");
    assert job.variants[1] == SECOND && SECOND in job.variants && "1" in SECOND.tags && "1-b" in OutTags(SECOND);
    var kept := KeptTimes(SECOND, MirrorOf(job, r));
    assert "1-b" in kept && kept["1-b"] == 0 && AliasTargets(SECOND) == {};
    assert Item("1-b", 0) in Candidates(kept, {});
    ExcessMember(kept, 0, 30 * DAY, job.now, AliasTargets(SECOND), "1-b");
    assert IsExcess(Candidates(kept, AliasTargets(SECOND)), Item("1-b", 0), 0, 30 * DAY, job.now);
    assert "1-b" in VariantExcess(job, SECOND, MirrorOf(job, r));
  }

  /**
   Nor is the claim true, in either mode, of two selected tags on one manifest: the target of
   an alias is protected, the same image under the other variant falls out of the window, and
   every run marks or unmarks the image they share.
   */
  lemma TwinsNeverConverge(mode: DeletionMode, builds: nat -> Builder, build: Builder, n: nat)
    requires n > 0
    ensures !PlansNothing(TwinJob(mode), build, After(TwinJob(mode), builds, Twins(), n))
  {
    hide *;
    var job, r := TwinJob(mode), Twins();
    TwinsWellFormed(mode);
    TwinsKept(mode);
    TwinInExcess(mode);
    var r1 := Run(job, builds(0), APPLY, NoOutage(), r);
    AfterFirst(job, builds, r);
    RunClosed(job, builds(0), r);
    TwinsStay(mode, builds(0), r1);
    TwinOutputs(mode);
    TargetsNotExcess(job, r1, ALIASED, Alias("latest", "1"));
    TwinTarget();
    SharedExcessNeverConverges(job, builds, build, r, "1-b", "1", n);
  }

  lemma TwinTarget()
    ensures Alias("latest", "1").target + ALIASED.suffix == "1"
  {
    assert "1" + "" == "1";
  }

  lemma AfterFirst(job: Job, builds: nat -> Builder, r: Repo)
    ensures After(job, builds, r, 1) == Run(job, builds(0), APPLY, NoOutage(), r)
  {
    hide Run;
    assert After(job, builds, r, 0) == r;
  }

  lemma TwinsStay(mode: DeletionMode, build: Builder, r1: Repo)
    requires Keeping(TwinJob(mode), Twins(), ALIASED, "1") && Keeping(TwinJob(mode), Twins(), SECOND, "1")
    requires RanTo(TwinJob(mode), build, Twins(), r1)
    requires "1-b" in RetentionExcess(TwinJob(mode), MirrorOf(TwinJob(mode), Twins()))
    ensures IsMirrored(r1, "1") && IsMirrored(r1, "1-b") && r1.tags["1"] == r1.tags["1-b"]
    ensures "1-b" in RetentionExcess(TwinJob(mode), MirrorOf(TwinJob(mode), r1))
  {
    hide Keeping, TagDelta, MirrorOf, RetentionExcess, StaleMarks, SelectionPairs, RetentionPairs, Desired;
    hide Concrete, AliasTags;
    var job := TwinJob(mode);
    TwinOutputs(mode);
    assert "1" + "" == "1" && "1" + "-b" == "1-b" && |"1"| == 1 && |"1-b"| == 3;
    assert SameOutputs(job, Twins(), r1);
    ExcessFromTags(job, Twins(), r1);
  }

  // ---- one import per repository -----------------------------------------------------------------------------------

  /**
   Two imports into one repository delete each other's tags: what the second does not ask for, the
   first must import again.
   */
  lemma TwoImportsFight(first: Job, second: Job, build: Builder, r: Repo, v: Variant, s: Tag)
    requires WellFormed(first) && WellFormed(second) && second.mode == Purge
    requires IsOutput(first, v, s) && s + v.suffix !in Desired(second)
    ensures var r' := Run(second, build, APPLY, NoOutage(), Run(first, build, APPLY, NoOutage(), r));
            s + v.suffix !in r'.tags && Placing(first, r', v, s)
  {
    hide *;
    var r1 := Run(first, build, APPLY, NoOutage(), r);
    RunClosed(first, build, r);
    OutputAfterRun(first, build, r, r1, v, s);
    RunClosed(second, build, r1);
    PurgedWhereDropped(second, build, r1, Run(second, build, APPLY, NoOutage(), r1), s + v.suffix);
    AbsentIsPlaced(first, Run(second, build, APPLY, NoOutage(), r1), v, s);
  }

  lemma PurgedWhereDropped(job: Job, build: Builder, r: Repo, r': Repo, t: Tag)
    requires job.mode == Purge && RanTo(job, build, r, r') && IsMirrored(r, t) && t !in Desired(job)
    ensures t !in r'.tags
  {
    hide Desired, TagsSettled, TagDelta;
  }

  lemma AbsentIsPlaced(job: Job, r: Repo, v: Variant, s: Tag)
    requires IsOutput(job, v, s) && s + v.suffix !in r.tags
    ensures Placing(job, r, v, s) && Decide(job, v, s, MirrorOf(job, r)) == Import
  {
  }
}
