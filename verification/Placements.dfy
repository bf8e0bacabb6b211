/**
 What a run puts under an output and attaches to it, read off the policy and the upstream
 image alone (knock/domain/stamp.py; _do_import, _do_sign and _do_sbom in
 knock/use_cases/reconcile_registry.py).
 */
module Placements {
  import opened Wrappers
  import opened Texts
  import opened Registry
  import opened Reconcile
  import opened Apply
  import opened Runs
  import opened Convergence
  import opened Recovery

  // ---- bytes and annotations -----------------------------------------------------------------------------

  function At(a: Annotations, k: Key): Option<Value> { if k in a then Some(a[k]) else None }

  function Said(v: Option<string>): Option<Value> { if v.Some? then Some(Text(v.value)) else None }

  /** The one value each key of a stamp has; knock's own keys are stamped under a prefix only. */
  function StampAt(job: Job, v: Variant, s: Tag, k: Key): Option<Value>
    requires s in job.source
  {
    match k
    case Title => Some(Text(job.title))
    case Source => Some(Text(job.sourceName))
    case BaseName => Some(Text(job.sourceName + ":" + s))
    case BaseDigest => Some(Text(job.source[s].digest))
    case Created => Some(Time(job.now))
    case Revision => Said(job.source[s].revision)
    case Vendor => if job.vendor == Some("") then None else Said(job.vendor)
    case Knock(p, fact) => if p == "" || p != job.prefix then None else FactAt(job, v, fact)
    case Other(_) => None
  }

  function FactAt(job: Job, v: Variant, fact: Fact): Option<Value> {
    match fact
    case ArtifactType => Some(Text(job.artifactType))
    case PolicyName => Some(Text(job.policy))
    case ImportName => Some(Text(job.importName))
    case VariantName => Some(Text(v.name))
    case Owners => Said(job.owners)
    case Steps => if v.steps == [] then None else Some(Text(Join(v.steps, ',')))
    case Version => if v.steps == [] || v.name !in job.transforms then None else Some(Text(job.transforms[v.name]))
  }

  /** The manifest is the upstream image's bytes, by its digest, or the rebuild of them, and stamped key by key. */
  ghost predicate AsAsked(job: Job, build: Builder, v: Variant, s: Tag, m: Manifest)
    requires s in job.source
  {
    && m.content ==
        (if v.steps == [] then Pulled(job.source[s].digest) else Rebuilt(build(v.name, job.source[s].digest)))
    && (forall k | StampAt(job, v, s, k).Some? :: At(m.annotations, k) == StampAt(job, v, s, k))
    && (forall k | StampAt(job, v, s, k).None? ::
          At(m.annotations, k) == if v.steps == [] then At(job.source[s].annotations, k) else None)
  }

  lemma OciAt(job: Job, s: Tag, v: Variant, k: Key)
    requires s in job.source
    ensures At(OciStamp(job, s), k) == if k.Knock? then None else StampAt(job, v, s, k)
  {
  }

  lemma LineageAt(job: Job, v: Variant, k: Key)
    ensures At(LineageStamp(job, v), k) ==
            if k.Knock? && k.prefix == job.prefix != "" && !k.fact.Steps? &&
                !k.fact.Version? then FactAt(job, v, k.fact)
            else None
  {
  }

  lemma TransformAt(job: Job, v: Variant, k: Key)
    requires v.name in job.transforms <==> v.steps != []
    ensures At(TransformStamp(job, v), k) ==
            if k.Knock? && k.prefix == job.prefix != "" &&
                (k.fact.Steps? || k.fact.Version?) then FactAt(job, v, k.fact)
            else None
  {
  }

  lemma MergedAt(a: Annotations, b: Annotations, k: Key)
    ensures At(a + b, k) == if At(b, k).Some? then At(b, k) else At(a, k)
  {
  }

  lemma PlacedAt(job: Job, build: Builder, v: Variant, s: Tag, k: Key)
    requires s in job.source && (v.name in job.transforms <==> v.steps != [])
    ensures At(Placed(job, build, v, s).annotations, k) ==
            if StampAt(job, v, s, k).Some? then StampAt(job, v, s, k)
            else if v.steps == [] then At(job.source[s].annotations, k)
            else None
  {
    hide OciStamp, LineageStamp, TransformStamp, StampAt, FactAt;
    var oci, lineage, transform := OciStamp(job, s), LineageStamp(job, v), TransformStamp(job, v);
    OciAt(job, s, v, k);
    LineageAt(job, v, k);
    TransformAt(job, v, k);
    MergedAt(oci, lineage, k);
    MergedAt(oci + lineage, transform, k);
    MergedAt(Unstamped(job, build, v, s).annotations, oci + lineage + transform, k);
    KnockAt(job, v, s, k);
  }

  lemma KnockAt(job: Job, v: Variant, s: Tag, k: Key)
    requires s in job.source
    ensures k.Knock? ==>
              StampAt(job, v, s, k) == if k.prefix == "" || k.prefix != job.prefix then None else FactAt(job, v, k.fact)
  {
  }

  /**
   After a failure-free run every placed output is the upstream image's bytes, or the rebuild
   of them. Each key of its stamp has its value, and every other key is the upstream image's
   on a copy and absent on a rebuild. An alias designates the same manifest.
   */
  lemma PlacedAsAsked(job: Job, build: Builder, r: Repo)
    requires WellFormed(job)
    ensures var tags := Run(job, build, APPLY, NoOutage(), r).tags;
            && (forall v, s | Placing(job, r, v, s) ::
                s + v.suffix in tags && AsAsked(job, build, v, s, tags[s + v.suffix]))
            && (forall v, a | IsAlias(job, v, a) && Placing(job, r, v, a.target) ::
                  a.name + v.suffix in tags && AsAsked(job, build, v, a.target, tags[a.name + v.suffix]))
  {
    hide Run, Placed, Decide, MirrorOf, DistinctNames, TagDelta, AfterTags, AfterMarks, AllOk, AsAsked;
    RunClosed(job, build, r);
    forall v, s | Placing(job, r, v, s) ensures AsAsked(job, build, v, s, Placed(job, build, v, s)) {
      AskedOfPlaced(job, build, v, s);
    }
  }

  lemma AskedOfPlaced(job: Job, build: Builder, v: Variant, s: Tag)
    requires WellPlanned(job) && IsOutput(job, v, s)
    ensures AsAsked(job, build, v, s, Placed(job, build, v, s))
  {
    hide At, StampAt;
    forall k { PlacedAt(job, build, v, s, k); }
  }

  // ---- referrers -----------------------------------------------------------------------------------------

  ghost predicate LacksSbom(r: Repo, m: Manifest, format: string) {
    forall x: Referrer | x.Sbom? && x.format == format :: (m, x) !in r.attached
  }

  ghost predicate LacksBundle(r: Repo, m: Manifest) {
    forall x: Referrer | x.Bundle? :: (m, x) !in r.attached
  }

  /** One SBOM, and its signature if the run signs. */
  ghost predicate SbomDue(job: Job, format: string, x: Referrer) {
    x == Sbom(format, job.now) || (job.signing && x == Bundle(SbomStatement(format)))
  }

  /** On a manifest just placed: every format, and the statement of what it was made from. */
  ghost predicate DueOnPlaced(job: Job, v: Variant, s: Tag, x: Referrer)
    requires s in job.source
  {
    || (exists f :: f in job.formats && SbomDue(job, f, x))
    || (job.signing && x == Bundle(TransformStatement(job.source[s].digest, v.name)))
  }

  /** On a manifest that is kept: the formats it lacks, and that statement if it carries no bundle at all. */
  ghost predicate DueOnKept(job: Job, r: Repo, v: Variant, m: Manifest, x: Referrer) {
    || (exists f :: f in job.formats && LacksSbom(r, m, f) && SbomDue(job, f, x))
    || (job.signing && LacksBundle(r, m) && At(m.annotations, BaseDigest).Some?
        && x == Bundle(TransformStatement(TextAt(m.annotations, BaseDigest).value, v.name)))
  }

  ghost predicate Due(job: Job, r: Repo, v: Variant, s: Tag, m: Manifest, x: Referrer) {
    || (Placing(job, r, v, s) && DueOnPlaced(job, v, s, x))
    || (Keeping(job, r, v, s) && DueOnKept(job, r, v, m, x))
  }

  lemma CoverPairsAre(job: Job, m: Manifest, formats: seq<string>, p: (Manifest, Referrer))
    ensures p in CoverPairs(job, m, formats) <==> p.0 == m && exists f :: f in formats && SbomDue(job, f, p.1)
  {
    if f :| f in formats && SbomDue(job, f, p.1) && p.0 == m {
      assert p == (m, p.1);
    }
    if p in CoverPairs(job, m, formats) {
      var f :| f in formats && (p == (m, Sbom(f, job.now)) || (job.signing && p == (m, Bundle(SbomStatement(f)))));
      assert SbomDue(job, f, p.1);
    }
  }

  lemma PlacePairsAre(job: Job, build: Builder, v: Variant, s: Tag, p: (Manifest, Referrer))
    requires s in job.source
    ensures p in PlaceDelta(job, build, v, s).pairs <==> p.0 == Placed(job, build, v, s) && DueOnPlaced(job, v, s, p.1)
  {
    hide Placed, CoverPairs, SbomDue;
    CoverPairsAre(job, Placed(job, build, v, s), job.formats, p);
  }

  lemma LacksIff(job: Job, r: Repo, m: Manifest)
    ensures LacksBundle(r, m) <==> !HasBundle(Referrers(r, m))
    ensures forall f :: f in Absent(job.formats, Referrers(r, m)) <==> f in job.formats && LacksSbom(r, m, f)
  {
    hide Absent;
    forall x: Referrer ensures (m, x) in r.attached <==> x in Referrers(r, m) {
    }
  }

  lemma SignPairsAre(job: Job, build: Builder, r: Repo, w: Work, v: Variant, s: Tag, p: (Manifest, Referrer))
    requires SignsOutput(job, r, w, v, s) && Keeping(job, r, v, s)
    requires NeedsSignature(job, v, MirrorOf(job, r))(s)
    ensures p in WorkDelta(job, build, r, w).pairs ==>
              s + v.suffix in r.tags && p.0 == r.tags[s + v.suffix] && DueOnKept(job, r, v, p.0, p.1)
  {
    hide Decide;
    var m := r.tags[s + v.suffix];
    LacksIff(job, r, m);
    assert MirrorOf(job, r)[s + v.suffix] == ToMirrorArtifact(job, m, Referrers(r, m)).value;
  }

  lemma SbomPairsAre(job: Job, build: Builder, r: Repo, w: Work, v: Variant, s: Tag, p: (Manifest, Referrer))
    requires CoversOutput(job, r, w, v, s)
    ensures p in WorkDelta(job, build, r, w).pairs <==>
              p.0 == r.tags[s + v.suffix] && exists f ::
                  f in job.formats && LacksSbom(r, p.0, f) && SbomDue(job, f, p.1)
  {
    hide Absent, CoverPairs, SbomDue, LacksSbom;
    var m := r.tags[s + v.suffix];
    LacksIff(job, r, m);
    CoverPairsAre(job, m, Absent(job.formats, Referrers(r, m)), p);
  }

  lemma NeedsAreKept(job: Job, r: Repo, v: Variant, s: Tag)
    requires v in job.variants && s in v.tags && s in job.source
    ensures NeedsSignature(job, v, MirrorOf(job, r))(s) ==> Keeping(job, r, v, s)
    ensures NeedsSbom(job, v, MirrorOf(job, r))(s) ==> Keeping(job, r, v, s)
  {
    hide Decide;
  }

  /** Every backfill is for a kept output. */
  lemma {:induction false} BackfillsAreKept(job: Job, r: Repo, variants: seq<Variant>)
    requires Consistent(job) && forall v | v in variants :: v in job.variants
    ensures forall w | w in SignWorks(job, r, variants) :: exists v, s ::
              Keeping(job, r, v, s) && NeedsSignature(job, v, MirrorOf(job, r))(s) && SignsOutput(job, r, w, v, s)
    ensures forall w | w in SbomWorks(job, r, variants) :: exists v, s ::
              Keeping(job, r, v, s) && CoversOutput(job, r, w, v, s)
  {
    hide MirrorOf, NeedsSignature, NeedsSbom, SignsOutput, CoversOutput, Keeping, SignWork, SbomWork;
    if variants != [] {
      var n := |variants| - 1;
      var v := variants[n];
      assert variants == variants[..n] + [v];
      BackfillsAreKept(job, r, variants[..n]);
      var p := VariantPlan(job, v, MirrorOf(job, r));
      var signs, sboms := VariantSigns(job, r, v), VariantSboms(job, r, v);
      forall i | 0 <= i < |signs| ensures
          Keeping(job, r, v, p.toSign[i]) && NeedsSignature(job, v, MirrorOf(job, r))(p.toSign[i])
          && SignsOutput(job, r, signs[i], v, p.toSign[i])
      {
        assert p.toSign[i] in p.toSign;
        NeedsAreKept(job, r, v, p.toSign[i]);
        SignWorkIs(job, r, v, p.toSign[i]);
      }
      forall i | 0 <= i < |sboms| ensures
          Keeping(job, r, v, p.toSbom[i]) && CoversOutput(job, r, sboms[i], v, p.toSbom[i])
      {
        assert p.toSbom[i] in p.toSbom;
        NeedsAreKept(job, r, v, p.toSbom[i]);
        SbomWorkIs(job, r, v, p.toSbom[i]);
      }
    }
  }

  lemma WorkPair(job: Job, build: Builder, r: Repo, ws: seq<Work>, p: (Manifest, Referrer))
    ensures p in Sum(WorkDeltas(job, build, r, ws)).pairs <==>
              exists w :: w in ws && p in WorkDelta(job, build, r, w).pairs
  {
    hide Sum, WorkDelta;
    var ds := WorkDeltas(job, build, r, ws);
    var i := SumPair(ds, p);
    if w :| w in ws && p in WorkDelta(job, build, r, w).pairs {
      var j :| 0 <= j < |ws| && ws[j] == w;
      assert p in ds[j].pairs;
    }
    if p in Sum(ds).pairs {
      assert ws[i] in ws && p in WorkDelta(job, build, r, ws[i]).pairs;
    }
  }

  ghost predicate DueOnPlacedAt(job: Job, build: Builder, r: Repo, v: Variant, s: Tag, p: (Manifest, Referrer)) {
    Placing(job, r, v, s) && p.0 == Placed(job, build, v, s) && DueOnPlaced(job, v, s, p.1)
  }

  ghost predicate DueOnKeptAt(job: Job, r: Repo, v: Variant, s: Tag, p: (Manifest, Referrer)) {
    && Keeping(job, r, v, s) && s + v.suffix in r.tags && p.0 == r.tags[s + v.suffix]
    && DueOnKept(job, r, v, p.0, p.1)
  }

  lemma ImportPairs(job: Job, build: Builder, r: Repo, p: (Manifest, Referrer))
    requires WellFormed(job)
    ensures p in Sum(WorkDeltas(job, build, r, ImportWorks(job, build, r, job.variants))).pairs <==>
              exists v, s :: DueOnPlacedAt(job, build, r, v, s, p)
  {
    hide ImportWorks, WorkDelta, Sum, Placed, DueOnPlaced, PlaceDelta, Placing, WellFormed, PlacesOutput;
    var ws := ImportWorks(job, build, r, job.variants);
    WorkPair(job, build, r, ws, p);
    if w :| w in ws && p in WorkDelta(job, build, r, w).pairs {
      var j :| 0 <= j < |ws| && ws[j] == w;
      assert Consistent(job) by { IsConsistent(job); }
      var v, s := ImportAt(job, build, r, j);
      PlacingHasSource(job, r, v, s);
      PlacePairsAre(job, build, v, s, p);
      assert DueOnPlacedAt(job, build, r, v, s, p);
    }
    if v, s :| DueOnPlacedAt(job, build, r, v, s, p) {
      PlacingHasSource(job, r, v, s);
      assert Consistent(job) by { IsConsistent(job); }
      var w := WorkOfImport(job, build, r, v, s);
      DeltaOfPlace(job, build, r, w, v, s);
      PlacePairsAre(job, build, v, s, p);
    }
  }

  lemma IsConsistent(job: Job)
    requires WellFormed(job)
    ensures Consistent(job)
  {
  }

  lemma PlacingHasSource(job: Job, r: Repo, v: Variant, s: Tag)
    requires Placing(job, r, v, s)
    ensures s in job.source && IsOutput(job, v, s)
  {
  }

  /** The pairs a backfill attaches are due ... */
  lemma BackfillIsDue(job: Job, build: Builder, r: Repo, p: (Manifest, Referrer))
    requires Consistent(job)
    requires p in Sum(WorkDeltas(job, build, r, SignWorks(job, r, job.variants))).pairs
               || p in Sum(WorkDeltas(job, build, r, SbomWorks(job, r, job.variants))).pairs
    ensures exists v, s :: DueOnKeptAt(job, r, v, s, p)
  {
    hide SignWorks, SbomWorks, WorkDelta, Sum, Keeping, SignsOutput, CoversOutput, NeedsSignature, MirrorOf;
    hide SbomDue, LacksSbom, IsMirrored, LacksBundle;
    var signs, sboms := SignWorks(job, r, job.variants), SbomWorks(job, r, job.variants);
    WorkPair(job, build, r, signs, p);
    WorkPair(job, build, r, sboms, p);
    BackfillsAreKept(job, r, job.variants);
    if w :| w in signs && p in WorkDelta(job, build, r, w).pairs {
      var v, s :|
        Keeping(job, r, v, s) && NeedsSignature(job, v, MirrorOf(job, r))(s) && SignsOutput(job, r, w, v, s);
      SignPairsAre(job, build, r, w, v, s, p);
      assert DueOnKeptAt(job, r, v, s, p);
    } else {
      var w :| w in sboms && p in WorkDelta(job, build, r, w).pairs;
      var v, s :| Keeping(job, r, v, s) && CoversOutput(job, r, w, v, s);
      SbomPairsAre(job, build, r, w, v, s, p);
      CoversIsTag(job, r, w, v, s);
      assert DueOnKeptAt(job, r, v, s, p);
    }
  }

  lemma CoversIsTag(job: Job, r: Repo, w: Work, v: Variant, s: Tag)
    requires CoversOutput(job, r, w, v, s)
    ensures s + v.suffix in r.tags
  {
  }

  /** ... and whatever is due on a kept manifest is attached by one. */
  lemma DueIsBackfilled(job: Job, build: Builder, r: Repo, v: Variant, s: Tag, p: (Manifest, Referrer))
    requires WellFormed(job) && DueOnKeptAt(job, r, v, s, p)
    ensures p in Sum(WorkDeltas(job, build, r, SignWorks(job, r, job.variants))).pairs
              || p in Sum(WorkDeltas(job, build, r, SbomWorks(job, r, job.variants))).pairs
  {
    hide SignWorks, SbomWorks, WorkDelta, Sum, NeedsSignature, NeedsSbom, MirrorOf, SbomDue, LacksSbom, Absent;
    hide LacksBundle, Decide, DistinctNames, SignsOutput, CoversOutput, IsMirrored;
    var m := r.tags[s + v.suffix];
    var signs, sboms := SignWorks(job, r, job.variants), SbomWorks(job, r, job.variants);
    KeptIsMirrored(job, r, v, s);
    LacksIff(job, r, m);
    WorkPair(job, build, r, signs, p);
    WorkPair(job, build, r, sboms, p);
    if f :| f in job.formats && LacksSbom(r, m, f) && SbomDue(job, f, p.1) {
      SbomWorksAre(job, r, job.variants);
      assert Absent(job.formats, Referrers(r, m)) != [];
      var w :| w in sboms && CoversOutput(job, r, w, v, s);
      SbomPairsAre(job, build, r, w, v, s, p);
    } else {
      SignWorksAre(job, r, job.variants);
      var w :| w in signs && SignsOutput(job, r, w, v, s);
      SignPairIs(job, build, r, w, v, s);
    }
  }

  lemma SignPairIs(job: Job, build: Builder, r: Repo, w: Work, v: Variant, s: Tag)
    requires SignsOutput(job, r, w, v, s) && job.signing
    ensures var m := r.tags[s + v.suffix];
            (m, Bundle(TransformStatement(TextAt(m.annotations, BaseDigest).value, v.name))) in WorkDelta(job, build, r,
                w).pairs
  {
  }

  lemma AttachedByStages(job: Job, build: Builder, r: Repo, p: (Manifest, Referrer))
    requires WellFormed(job)
    ensures p in TagDelta(job, build, r).pairs <==>
              (exists v, s :: DueOnPlacedAt(job, build, r, v, s, p)) || (exists v, s :: DueOnKeptAt(job, r, v, s, p))
  {
    hide ImportWorks, SignWorks, SbomWorks, WorkDeltas, Sum, DueOnKeptAt, DueOnPlacedAt, DistinctNames;
    ImportPairs(job, build, r, p);
    if p in TagDelta(job, build, r).pairs && forall v, s :: !DueOnPlacedAt(job, build, r, v, s, p) {
      BackfillIsDue(job, build, r, p);
    }
    if v, s :| DueOnKeptAt(job, r, v, s, p) {
      DueIsBackfilled(job, build, r, v, s, p);
    }
  }

  // ---- marks -----------------------------------------------------------------------------------------------

  ghost predicate LacksMark(r: Repo, m: Manifest) {
    forall x: Referrer | x.Mark? :: (m, x) !in r.attached
  }

  ghost predicate LacksRetentionMark(r: Repo, m: Manifest) {
    forall x: Referrer | x.Mark? && x.reason == "retention-excess" :: (m, x) !in r.attached
  }

  /** A dropped tag without a mark is marked in mark mode, a tag in excess without a retention mark in either. */
  ghost predicate MarkDue(job: Job, r: Repo, r': Repo, m: Manifest, x: Referrer) {
    || (&& x == Mark("dropped-from-selection", job.now, job.policy, job.importName) && job.mode == MarkOnly
        && LacksMark(r, m) && exists t :: Dropped(job, r, t) && r.tags[t] == m)
    || (&& x == Mark("retention-excess", job.now, job.policy, job.importName)
        && exists t :: ExcessAt(job, r, r', t, m) && LacksRetentionMark(r, r.tags[t]))
  }

  ghost predicate ExcessAt(job: Job, r: Repo, r': Repo, t: Tag, m: Manifest) {
    t in RetentionExcess(job, MirrorOf(job, r)) && t in r.tags && t in r'.tags && r'.tags[t] == m
  }

  lemma SelectionMarkDue(job: Job, r: Repo, m: Manifest, x: Referrer)
    ensures (m, x) in SelectionPairs(job, r) <==>
              && x == Mark("dropped-from-selection", job.now, job.policy, job.importName) && job.mode == MarkOnly
              && LacksMark(r, m) && exists t :: Dropped(job, r, t) && r.tags[t] == m
  {
    hide Desired, MarkedOn;
    forall t | Dropped(job, r, t)
      ensures t in r.tags && (LacksMark(r, r.tags[t]) <==> t !in MarkedOn(r, false) && t !in MarkedOn(r, true))
    {
      MarkedIff(r, t, false);
      MarkedIff(r, t, true);
    }
  }

  lemma RetentionMarkDue(job: Job, r: Repo, r': Repo, m: Manifest, x: Referrer)
    ensures (m, x) in RetentionPairs(job, r, r') <==>
              && x == Mark("retention-excess", job.now, job.policy, job.importName)
              && exists t :: ExcessAt(job, r, r', t, m) && LacksRetentionMark(r, r.tags[t])
  {
    hide RetentionExcess, MirrorOf, MarkedOn;
    forall t | t in RetentionExcess(job, MirrorOf(job, r))
      ensures t in r.tags && (LacksRetentionMark(r, r.tags[t]) <==> t !in MarkedOn(r, true))
    {
      ExcessIsConcrete(job, r, t);
      MarkedIff(r, t, true);
    }
  }

  ghost predicate DueHere(job: Job, r: Repo, r': Repo, v: Variant, s: Tag, m: Manifest, x: Referrer) {
    && IsOutput(job, v, s) && s + v.suffix in r'.tags && r'.tags[s + v.suffix] == m
    && Due(job, r, v, s, m, x)
  }

  lemma DueAt(job: Job, build: Builder, r: Repo, r': Repo, v: Variant, s: Tag, m: Manifest, x: Referrer)
    requires TagsSettled(job, build, r, r')
    ensures DueHere(job, r, r', v, s, m, x) <==>
              DueOnPlacedAt(job, build, r, v, s, (m, x)) || DueOnKeptAt(job, r, v, s, (m, x))
  {
    hide Decide, MirrorOf, Placed, DueOnPlaced, DueOnKept;
  }

  ghost predicate AttachedExactly(job: Job, r: Repo, r': Repo, m: Manifest, x: Referrer) {
    if x.Mark? then
      (m, x) in r'.attached <==>
        && ((m, x) in r.attached || MarkDue(job, r, r', m, x))
        && !exists t :: StaleOn(job, r, t, x) && r.tags[t] == m
    else (m, x) in r'.attached <==> (m, x) in r.attached || exists v, s :: DueHere(job, r, r', v, s, m, x)
  }

  /**
   Exactly what a failure-free run attaches and clears: SBOMs and signatures where they are
   due, and nothing of the kind is taken away; marks where they are due, but for the stale ones.
   */
  lemma ReferrersAfterRun(job: Job, build: Builder, r: Repo, m: Manifest, x: Referrer)
    requires WellFormed(job)
    ensures AttachedExactly(job, r, Run(job, build, APPLY, NoOutage(), r), m, x)
  {
    hide *;
    RunClosed(job, build, r);
    if x.Mark? {
      MarksAfter(job, build, r, Run(job, build, APPLY, NoOutage(), r), m, x);
    } else {
      CoverageAfter(job, build, r, Run(job, build, APPLY, NoOutage(), r), m, x);
    }
  }

  lemma CoverageAfter(job: Job, build: Builder, r: Repo, r': Repo, m: Manifest, x: Referrer)
    requires WellFormed(job) && RanTo(job, build, r, r') && !x.Mark?
    ensures AttachedExactly(job, r, r', m, x)
  {
    hide WellFormed, TagDelta, SelectionPairs, RetentionPairs, StaleMarks, DueHere, DueOnPlacedAt, DueOnKeptAt;
    hide TagsSettled, Desired, IsMirrored, StaleOn, MarkDue;
    NewMarksAreMarks(job, r, r');
    StaleIsMark(job, r, m, x);
    AttachedByStages(job, build, r, (m, x));
    forall v, s
      ensures DueHere(job, r, r', v, s, m, x) <==>
                DueOnPlacedAt(job, build, r, v, s, (m, x)) || DueOnKeptAt(job, r, v, s, (m, x))
    {
      DueAt(job, build, r, r', v, s, m, x);
    }
  }

  lemma NewMarksAreMarks(job: Job, r: Repo, r': Repo)
    ensures forall p | p in SelectionPairs(job, r) || p in RetentionPairs(job, r, r') :: p.1.Mark?
  {
    hide RetentionExcess, MirrorOf, MarkedOn, Dropped;
  }

  lemma MarksAfter(job: Job, build: Builder, r: Repo, r': Repo, m: Manifest, x: Referrer)
    requires RanTo(job, build, r, r') && x.Mark?
    ensures AttachedExactly(job, r, r', m, x)
  {
    hide TagDelta, SelectionPairs, RetentionPairs, StaleMarks, DueHere, TagsSettled, Desired, IsMirrored, StaleOn;
    hide ExcessAt, LacksMark, LacksRetentionMark, Dropped;
    NoMarksAdded(job, build, r);
    SelectionMarkDue(job, r, m, x);
    RetentionMarkDue(job, r, r', m, x);
    StaleIff(job, r, m, x);
  }

  lemma StaleIsMark(job: Job, r: Repo, m: Manifest, x: Referrer)
    ensures (m, x) in StaleMarks(job, r) ==> x.Mark?
  {
    hide PlanOf;
  }
}
