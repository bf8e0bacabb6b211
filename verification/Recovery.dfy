/**
 Crash recovery: what a run cut off anywhere leaves, and what the next one makes of it.
 */
module Recovery {
  import opened Wrappers
  import opened Sorting
  import opened Registry
  import opened Retention
  import opened Reconcile
  import opened Apply
  import opened Runs
  import opened Convergence
  import opened Hypotheses

  // ---- a placement cut off after some of its calls --------------------------------------------------------

  ghost predicate FormatReached(es: seq<Effect>, m: Manifest, f: string) {
    exists e | e in es :: e.Attach? && e.subject == m && e.referrer.Sbom? && e.referrer.format == f
  }

  ghost predicate BundleReached(es: seq<Effect>, m: Manifest) {
    exists e | e in es :: e.Attach? && e.subject == m && e.referrer.Bundle?
  }

  /** A run of attachments adds exactly what it attaches and moves no tag. */
  lemma {:induction false} AttachmentsOnly(es: seq<Effect>, r: Repo)
    requires forall e | e in es :: e.Attach?
    ensures Exec(es, r).tags == r.tags
    ensures Exec(es, r).attached == r.attached + (set e | e in es :: (e.subject, e.referrer))
  {
    if es != [] {
      assert es == [es[0]] + es[1..];
      assert es[0] in es;
      assert Do(es[0], r).attached == r.attached + {(es[0].subject, es[0].referrer)};
      AttachmentsOnly(es[1..], Do(es[0], r));
      assert (set e | e in es :: (e.subject, e.referrer))
             == {(es[0].subject, es[0].referrer)} + set e | e in es[1..] :: (e.subject, e.referrer);
    }
  }

  lemma {:induction false} CoverAttaches(job: Job, m: Manifest, formats: seq<string>)
    ensures forall e | e in CoverEffects(job, m, formats) :: e.Attach? && e.subject == m && !e.referrer.Mark?
  {
    if formats != [] {
      CoverAttaches(job, m, formats[1..]);
    }
  }

  ghost function Second(job: Job, build: Builder, v: Variant, s: Tag): Effect
    requires s in job.source
  {
    if v.steps != [] then Restamp(s + v.suffix, Stamp(job, v, s)) else Put(s + v.suffix, Placed(job, build, v, s))
  }

  ghost function Tail(job: Job, build: Builder, v: Variant, s: Tag): seq<Effect>
    requires s in job.source
  {
    var m := Placed(job, build, v, s);
    CoverEffects(job, m, job.formats) + SignEffects(job, m, job.source[s].digest, v.name)
  }

  lemma PlaceIs(job: Job, build: Builder, v: Variant, s: Tag)
    requires s in job.source
    ensures PlaceEffects(job, build, v, s) ==
            [Put(s + v.suffix, Unstamped(job, build, v, s)), Second(job, build, v, s)] + Tail(job, build, v, s)
  {
    hide Placed, Unstamped, Stamp, CoverEffects;
  }

  lemma ExecTwo(out: Tag, raw: Manifest, second: Effect, m: Manifest, r: Repo)
    requires second == Put(out, m) || (second.Restamp? && second.tag == out && m == Annotated(raw, second.annotations))
    ensures Exec([Put(out, raw), second], r) == Repo(r.tags[out := m], r.attached)
  {
    var item := [Put(out, raw), second];
    assert item[1..] == [second] && [second][1..] == [];
    var r1 := Do(Put(out, raw), r);
    assert Exec(item, r) == Exec([second], r1);
    assert Exec([second], r1) == Exec([], Do(second, r1));
    assert r.tags[out := raw][out := m] == r.tags[out := m];
  }

  /** The first two calls put the stamped manifest in place; the rest only attach to it. */
  lemma PlaceTail(job: Job, build: Builder, v: Variant, s: Tag, r: Repo)
    requires s in job.source
    ensures var es := PlaceEffects(job, build, v, s);
            && |es| >= 2
            && Exec(es[..2], r) == Repo(r.tags[s + v.suffix := Placed(job, build, v, s)], r.attached)
            && (forall e | e in es[2..] :: e.Attach? && e.subject == Placed(job, build, v, s) && !e.referrer.Mark?)
  {
    hide Unstamped, Stamp, PlaceEffects, Exec, CoverEffects;
    var es, m := PlaceEffects(job, build, v, s), Placed(job, build, v, s);
    var head := [Put(s + v.suffix, Unstamped(job, build, v, s)), Second(job, build, v, s)];
    PlaceIs(job, build, v, s);
    assert es[2..] == Tail(job, build, v, s) && es[..2] == head;
    CoverAttaches(job, m, job.formats);
    ExecTwo(s + v.suffix, Unstamped(job, build, v, s), Second(job, build, v, s), m, r);
  }

  /** The state a placement leaves when it stops after `n` calls. */
  ghost function CutOff(job: Job, build: Builder, r: Repo, v: Variant, s: Tag, n: nat): Repo
    requires s in job.source && n <= |PlaceEffects(job, build, v, s)|
  {
    Exec(PlaceEffects(job, build, v, s)[..n], r)
  }

  lemma CutOffLate(job: Job, build: Builder, r: Repo, v: Variant, s: Tag, n: nat)
    requires s in job.source && 2 <= n <= |PlaceEffects(job, build, v, s)|
    ensures var m := Placed(job, build, v, s);
            var done := PlaceEffects(job, build, v, s)[2..n];
            var x := CutOff(job, build, r, v, s, n);
            && x.tags == r.tags[s + v.suffix := m]
            && (forall e | e in done :: e.Attach? && e.subject == m && !e.referrer.Mark?)
            && x.attached == r.attached + (set e | e in done :: (m, e.referrer))
  {
    hide PlaceEffects, Placed, Do;
    var es := PlaceEffects(job, build, v, s);
    PlaceTail(job, build, v, s, r);
    assert es[..n] == es[..2] + es[2..n];
    ExecConcat(es[..2], es[2..n], r);
    assert forall e | e in es[2..n] :: e in es[2..];
    AttachmentsOnly(es[2..n], Exec(es[..2], r));
    var m := Placed(job, build, v, s);
    assert (set e | e in es[2..n] :: (e.subject, e.referrer)) == set e | e in es[2..n] :: (m, e.referrer);
  }

  /**
   Cut off before the stamp, the next plan imports the tag again, unless what was copied
   carries the base digest of an earlier stamp: then it counts as placed. Cut off later, it is
   kept if it reads back, and what the next plan finds absent is what was not reached.
   */
  lemma PlacementCutOff(job: Job, build: Builder, r: Repo, v: Variant, s: Tag, n: nat)
    requires WellFormed(job) && IsOutput(job, v, s) && n <= |PlaceEffects(job, build, v, s)|
    ensures var x := CutOff(job, build, r, v, s, n);
            var done := PlaceEffects(job, build, v, s)[..n];
            var m := Placed(job, build, v, s);
            && (n == 0 ==> x == r)
            && (n == 1 ==> (Decide(job, v, s, MirrorOf(job, x)) == Import <==>
                              v.steps != [] || BaseDigest !in job.source[s].annotations))
            && (n >= 2 ==>
                  && (Keeping(job, x, v, s) <==> ReadsBack(job, v, s))
                  && s + v.suffix in x.tags && x.tags[s + v.suffix] == m
                  && (forall f | f in job.formats ::
                        f in Absent(job.formats, Referrers(x, m)) <==>
                            !HasSbom(Referrers(r, m), f) && !FormatReached(done, m, f))
                  && (HasBundle(Referrers(x, m)) <==> HasBundle(Referrers(r, m)) || BundleReached(done, m)))
  {
    hide DistinctNames, MirrorOf, Decide, Placed, PlaceEffects, Unstamped, FormatReached, BundleReached, ReadsBack;
    if n == 1 {
      CutOffBeforeStamp(job, build, r, v, s);
    } else if n >= 2 {
      var x := CutOff(job, build, r, v, s, n);
      CutOffLate(job, build, r, v, s, n);
      PlacedIsKept(job, build, x, v, s);
      CutOffCoverage(job, build, r, v, s, n);
    }
  }

  lemma CutOffBeforeStamp(job: Job, build: Builder, r: Repo, v: Variant, s: Tag)
    requires WellFormed(job) && IsOutput(job, v, s)
    ensures |PlaceEffects(job, build, v, s)| >= 2
    ensures Decide(job, v, s, MirrorOf(job, CutOff(job, build, r, v, s, 1))) == Import <==>
              v.steps != [] || BaseDigest !in job.source[s].annotations
  {
    hide Stamp, Placed, PlaceEffects, DistinctNames, WellPlanned;
    PlaceIs(job, build, v, s);
    var es := PlaceEffects(job, build, v, s);
    assert es[..1] == [es[0]] && [es[0]][1..] == [];
    var x := Do(es[0], r);
    assert Exec([es[0]], r) == Exec([], x) == x;
    assert x.tags[s + v.suffix] == Unstamped(job, build, v, s);
    assert Stamped(x.tags[s + v.suffix]) <==> !(v.steps != [] || BaseDigest !in job.source[s].annotations);
    OutputConcrete(job, v, s);
    NotFallback(job, s + v.suffix);
    assert IsMirrored(x, s + v.suffix) <==> Stamped(x.tags[s + v.suffix]);
  }

  lemma NotFallback(job: Job, t: Tag)
    requires WellPlanned(job) && t in Desired(job)
    ensures !IsReferrersFallbackTag(t)
  {
  }

  lemma CutOffCoverage(job: Job, build: Builder, r: Repo, v: Variant, s: Tag, n: nat)
    requires WellFormed(job) && IsOutput(job, v, s) && 2 <= n <= |PlaceEffects(job, build, v, s)|
    ensures var x := CutOff(job, build, r, v, s, n);
            var done := PlaceEffects(job, build, v, s)[..n];
            var m := Placed(job, build, v, s);
            && (forall f :: HasSbom(Referrers(x, m), f) <==> HasSbom(Referrers(r, m), f) || FormatReached(done, m, f))
            && (HasBundle(Referrers(x, m)) <==> HasBundle(Referrers(r, m)) || BundleReached(done, m))
  {
    hide WellFormed, Placed, PlaceEffects, Do;
    var es, m := PlaceEffects(job, build, v, s), Placed(job, build, v, s);
    var x := CutOff(job, build, r, v, s, n);
    CutOffLate(job, build, r, v, s, n);
    FirstTwo(job, build, v, s);
    assert es[..n] == es[..2] + es[2..n];
    forall y
      ensures y in Referrers(x, m) <==>
                y in Referrers(r, m) || exists e | e in es[..n] :: e.Attach? && e.subject == m && e.referrer == y
    {
      if e :| e in es[..n] && e.Attach? && e.subject == m && e.referrer == y {
        assert e in es[2..n];
      }
    }
  }

  lemma FirstTwo(job: Job, build: Builder, v: Variant, s: Tag)
    requires s in job.source
    ensures |PlaceEffects(job, build, v, s)| >= 2
    ensures forall e | e in PlaceEffects(job, build, v, s)[..2] :: !e.Attach?
  {
  }

  // ---- any crash at all --------------------------------------------------------------------------------------

  /**
   Whatever calls got through before, in whatever order and from whatever state, one
   failure-free run leaves every selected tag stamped for this import, with an SBOM in every
   configured format and a signature bundle when signing is on, and kept by the next plan
   where it was kept or reads back.
   */
  lemma RecoversFromAnything(job: Job, build: Builder, r: Repo, before: seq<Effect>, v: Variant, s: Tag)
    requires WellFormed(job) && IsOutput(job, v, s)
    ensures var x := Run(job, build, APPLY, NoOutage(), Exec(before, r));
            && s + v.suffix in x.tags
            && Stamped(x.tags[s + v.suffix]) && Signed(job, Referrers(x, x.tags[s + v.suffix]))
            && Absent(job.formats, Referrers(x, x.tags[s + v.suffix])) == []
            && (Keeping(job, x, v, s) <==> Keeping(job, Exec(before, r), v, s) || ReadsBack(job, v, s))
  {
    hide *;
    var y := Exec(before, r);
    var x := Run(job, build, APPLY, NoOutage(), y);
    RunClosed(job, build, y);
    OutputsAfterRun(job, build, y, x);
    ReadsAsCovered(job, build, y, x, v, s);
  }

  lemma ReadsAsCovered(job: Job, build: Builder, r: Repo, r': Repo, v: Variant, s: Tag)
    requires IsOutput(job, v, s) && PlacedAndCovered(job, build, r, r', v, s)
    ensures s + v.suffix in r'.tags && Stamped(r'.tags[s + v.suffix])
    ensures Absent(job.formats, Referrers(r', r'.tags[s + v.suffix])) == [] &&
              Signed(job, Referrers(r', r'.tags[s + v.suffix]))
    ensures Keeping(job, r', v, s) <==> Keeping(job, r, v, s) || ReadsBack(job, v, s)
  {
    CoveredReadsBack(job, r', r'.tags[s + v.suffix]);
  }

  lemma CoveredReadsBack(job: Job, r: Repo, m: Manifest)
    requires Covered(job, r.attached, m)
    ensures Absent(job.formats, Referrers(r, m)) == [] && Signed(job, Referrers(r, m))
  {
    forall f | f in job.formats ensures HasSbom(Referrers(r, m), f) {
      var x: Referrer :| x.Sbom? && x.format == f && (m, x) in r.attached;
      assert x in Referrers(r, m);
    }
    SomeElement(Absent(job.formats, Referrers(r, m)));
    if job.signing {
      var x: Referrer :| x.Bundle? && (m, x) in r.attached;
      assert x in Referrers(r, m);
    }
  }

  // ---- only what is missing is attached again ------------------------------------------------------------------

  ghost predicate WantsSignature(job: Job, r: Repo, w: Work) {
    && w.op.kind == Attested && w.vplan.Some? && w.op.srcTag.Some?
    && NeedsSignature(job, w.vplan.value, MirrorOf(job, r))(w.op.srcTag.value)
  }

  ghost predicate WantsSbom(job: Job, r: Repo, w: Work) {
    && w.op.kind == SbomAttached && w.vplan.Some? && w.op.srcTag.Some?
    && NeedsSbom(job, w.vplan.value, MirrorOf(job, r))(w.op.srcTag.value)
  }

  lemma {:induction false} BackfillsAreWanted(job: Job, r: Repo, variants: seq<Variant>)
    ensures forall w | w in SignWorks(job, r, variants) :: WantsSignature(job, r, w)
    ensures forall w | w in SbomWorks(job, r, variants) :: WantsSbom(job, r, w)
  {
    hide MirrorOf, NeedsSignature, NeedsSbom;
    if variants != [] {
      var n := |variants| - 1;
      var p := VariantPlan(job, variants[n], MirrorOf(job, r));
      BackfillsAreWanted(job, r, variants[..n]);
      var signs, sboms := VariantSigns(job, r, variants[n]), VariantSboms(job, r, variants[n]);
      forall i | 0 <= i < |signs| ensures WantsSignature(job, r, signs[i]) {
        assert p.toSign[i] in p.toSign;
      }
      forall i | 0 <= i < |sboms| ensures WantsSbom(job, r, sboms[i]) {
        assert p.toSbom[i] in p.toSbom;
      }
    }
  }

  /** A signature backfill attaches to a manifest that carries no bundle. */
  lemma SignedLeftAlone(job: Job, build: Builder, r: Repo, w: Work, m: Manifest)
    requires WantsSignature(job, r, w) && HasBundle(Referrers(r, m))
    ensures forall x :: (m, x) !in WorkDelta(job, build, r, w).pairs
  {
    hide Decide;
  }

  /** An SBOM backfill attaches to a manifest only the formats it lacks. */
  lemma OnlyAbsentFormats(job: Job, build: Builder, r: Repo, w: Work, m: Manifest)
    requires WantsSbom(job, r, w)
    ensures forall x | (m, x) in WorkDelta(job, build, r, w).pairs ::
              (x.Sbom? && x.format in Absent(job.formats, Referrers(r, m)))
              || (x.Bundle? && x.statement.SbomStatement? && x.statement.format in Absent(job.formats, Referrers(r, m)))
  {
    hide Decide, Absent;
  }

  /** The placements of other outputs attach nothing to the manifest of a kept one. */
  lemma PlacementsApart(job: Job, build: Builder, r: Repo, v: Variant, s: Tag, i: nat, x: Referrer)
    requires WellFormed(job) && OutputsApart(job, build, r) && Keeping(job, r, v, s) && s + v.suffix in r.tags
    requires i < |ImportWorks(job, build, r, job.variants)|
    ensures (r.tags[s + v.suffix], x) !in WorkDeltas(job, build, r, ImportWorks(job, build, r, job.variants))[i].pairs
  {
    hide DistinctNames, ImportWorks, WorkDeltas, MirrorOf, Decide, Placed;
    var w, u := ImportAt(job, build, r, i);
    assert Designated(job, build, r, w, u) == Placed(job, build, w, u);
    assert Designated(job, build, r, v, s) == r.tags[s + v.suffix];
    KeptIsNotPlaced(job, r, v, s, w, u);
  }

  lemma KeptIsNotPlaced(job: Job, r: Repo, v: Variant, s: Tag, w: Variant, u: Tag)
    requires WellFormed(job) && Keeping(job, r, v, s) && Placing(job, r, w, u)
    ensures s + v.suffix != u + w.suffix
  {
    hide MirrorOf, Decide, WellPlanned;
    if s + v.suffix == u + w.suffix {
      OneOutput(job, v, s, w, u);
    }
  }

  /** A run attaches to a kept tag's manifest only missing SBOMs, and a signature only when no bundle is there. */
  lemma OnlyMissingAttached(job: Job, build: Builder, r: Repo, v: Variant, s: Tag, x: Referrer)
    requires WellFormed(job) && OutputsApart(job, build, r) && Keeping(job, r, v, s) && s + v.suffix in r.tags
    requires (r.tags[s + v.suffix], x) in TagDelta(job, build, r).pairs
    ensures var absent := Absent(job.formats, Referrers(r, r.tags[s + v.suffix]));
            || (x.Sbom? && x.format in absent)
            || (x.Bundle? && x.statement.SbomStatement? && x.statement.format in absent)
            || (x.Bundle? && job.signing && !HasBundle(Referrers(r, r.tags[s + v.suffix])))
  {
    hide WellFormed, ImportWorks, SignWorks, SbomWorks, WorkDelta, WorkDeltas, MirrorOf, Decide, Sum;
    hide OutputsApart, Absent;
    var m := r.tags[s + v.suffix];
    var ws1, ws2, ws3 := ImportWorks(job, build, r, job.variants), SignWorks(job, r, job.variants),
        SbomWorks(job, r, job.variants);
    BackfillsAreWanted(job, r, job.variants);
    var a := SumPair(WorkDeltas(job, build, r, ws1), (m, x));
    var b := SumPair(WorkDeltas(job, build, r, ws2), (m, x));
    var c := SumPair(WorkDeltas(job, build, r, ws3), (m, x));
    if (m, x) in Sum(WorkDeltas(job, build, r, ws3)).pairs {
      assert ws3[c] in ws3;
      OnlyAbsentFormats(job, build, r, ws3[c], m);
    } else if (m, x) in Sum(WorkDeltas(job, build, r, ws2)).pairs {
      assert ws2[b] in ws2;
      SignBackfill(job, build, r, ws2[b], m, x);
    } else {
      PlacementsApart(job, build, r, v, s, a, x);
    }
  }

  lemma SignBackfill(job: Job, build: Builder, r: Repo, w: Work, m: Manifest, x: Referrer)
    requires WantsSignature(job, r, w) && (m, x) in WorkDelta(job, build, r, w).pairs
    ensures x.Bundle? && job.signing && !HasBundle(Referrers(r, m))
  {
    hide Decide;
    assert HasBundle(Referrers(r, m)) ==> false by {
      if HasBundle(Referrers(r, m)) {
        SignedLeftAlone(job, build, r, w, m);
      }
    }
  }

  // ---- the attestation a crash can lose ---------------------------------------------------------------------------

  ghost predicate HasTransform(r: Repo, m: Manifest) {
    exists d, n :: (m, Bundle(TransformStatement(d, n))) in r.attached
  }

  /** A bundle of any kind counts as the signature: where there is one, no transform attestation is added ... */
  lemma NoTransformAdded(job: Job, build: Builder, r: Repo, v: Variant, s: Tag)
    requires WellFormed(job) && OutputsApart(job, build, r) && Keeping(job, r, v, s) && s + v.suffix in r.tags
    requires !job.signing || HasBundle(Referrers(r, r.tags[s + v.suffix]))
    ensures forall d, n :: (r.tags[s + v.suffix], Bundle(TransformStatement(d, n))) !in TagDelta(job, build, r).pairs
  {
    hide WellFormed, MirrorOf, Decide, OutputsApart, Desired, Placed, TagDelta, Absent;
    forall d, n ensures (r.tags[s + v.suffix], Bundle(TransformStatement(d, n))) !in TagDelta(job, build, r).pairs {
      if (r.tags[s + v.suffix], Bundle(TransformStatement(d, n))) in TagDelta(job, build, r).pairs {
        OnlyMissingAttached(job, build, r, v, s, Bundle(TransformStatement(d, n)));
      }
    }
  }

  /** ... and where there is none, it is what the backfill attaches. */
  lemma UnsignedGetsTransform(job: Job, build: Builder, r: Repo, v: Variant, s: Tag) returns (x: Referrer)
    requires WellFormed(job) && Keeping(job, r, v, s) && s + v.suffix in r.tags
    requires job.signing && !HasBundle(Referrers(r, r.tags[s + v.suffix]))
    ensures x.Bundle? && x.statement.TransformStatement? && (r.tags[s + v.suffix], x) in TagDelta(job, build, r).pairs
  {
    hide WorkDeltas, Sum, ImportWorks, SignWorks, SbomWorks, NeedsSignature, MirrorOf, Decide;
    var m, ws := r.tags[s + v.suffix], SignWorks(job, r, job.variants);
    KeptIsMirrored(job, r, v, s);
    SignWorksAre(job, r, job.variants);
    var w :| w in ws && SignsOutput(job, r, w, v, s);
    PairsOf(job, build, r, ws, w);
    x := Bundle(TransformStatement(TextAt(m.annotations, BaseDigest).value, v.name));
    assert (m, x) in WorkDelta(job, build, r, w).pairs;
  }

  /** The bundles on a manifest after a run are those before it and those its first stages attach. */
  lemma BundlesAfterRun(job: Job, build: Builder, r: Repo, r': Repo, m: Manifest)
    requires RanTo(job, build, r, r')
    ensures HasTransform(r', m) <==>
              HasTransform(r, m) || exists d, n ::
                  (m, Bundle(TransformStatement(d, n))) in TagDelta(job, build, r).pairs
  {
    hide TagDelta, TagsSettled, PlanOf, MirrorOf, Desired, RetentionExcess, MarkedOn;
    forall d, n
      ensures (m, Bundle(TransformStatement(d, n))) in r'.attached <==>
                (m, Bundle(TransformStatement(d, n))) in r.attached ||
                    (m, Bundle(TransformStatement(d, n))) in TagDelta(job, build, r).pairs
    {
      StaleIff(job, r, m, Bundle(TransformStatement(d, n)));
    }
  }

  lemma AttestedByFirstRun(job: Job, build: Builder, r: Repo, v: Variant, s: Tag)
    requires WellFormed(job) && OutputsApart(job, build, r) && Keeping(job, r, v, s) && s + v.suffix in r.tags
    ensures var r' := Run(job, build, APPLY, NoOutage(), r);
            var m := r.tags[s + v.suffix];
            && s + v.suffix in r'.tags && r'.tags[s + v.suffix] == m
            && (HasTransform(r', m) <==> HasTransform(r, m) || (job.signing && !HasBundle(Referrers(r, m))))
  {
    hide WellFormed, OutputsApart, Run, MirrorOf, Decide, HasTransform, TagDelta, AfterTags, AfterMarks;
    hide AllOk, HasBundle;
    hide StaleMarks, SelectionPairs, RetentionPairs;
    var m := r.tags[s + v.suffix];
    RunClosed(job, build, r);
    BundlesAfterRun(job, build, r, Run(job, build, APPLY, NoOutage(), r), m);
    if job.signing && !HasBundle(Referrers(r, m)) {
      var x := UnsignedGetsTransform(job, build, r, v, s);
      assert x == Bundle(TransformStatement(x.statement.sourceDigest, x.statement.variant));
    } else {
      NoTransformAdded(job, build, r, v, s);
    }
  }

  /** In every one of `n` runs the outputs designate manifests of their own. */
  ghost predicate ApartThroughout(job: Job, builds: nat -> Builder, r: Repo, n: nat) {
    forall k: nat | k < n :: OutputsApart(job, builds(k), After(job, builds, r, k))
  }

  /** Where what is not kept reads back, outputs apart in the first run are apart in all. */
  lemma ApartStays(job: Job, builds: nat -> Builder, r: Repo, n: nat)
    requires WellFormed(job) && Lasting(job, r) && OutputsApart(job, builds(0), r)
    ensures ApartThroughout(job, builds, r, n)
  {
    hide WellFormed, Lasting, Run, Designated, After;
    forall k: nat | k < n ensures OutputsApart(job, builds(k), After(job, builds, r, k)) {
      if k == 0 {
        AfterNone(job, builds, r);
      } else {
        forall v, s | IsOutput(job, v, s)
          ensures Designated(job, builds(k), After(job, builds, r, k), v, s) == Designated(job, builds(0), r, v, s)
        {
          DesignatedStays(job, builds, r, k, v, s);
        }
      }
    }
  }

  lemma AfterNone(job: Job, builds: nat -> Builder, r: Repo)
    ensures After(job, builds, r, 0) == r
  {
  }

  lemma DesignatedStays(job: Job, builds: nat -> Builder, r: Repo, k: nat, v: Variant, s: Tag)
    requires WellFormed(job) && Lasting(job, r) && IsOutput(job, v, s) && k > 0
    ensures Designated(job, builds(k), After(job, builds, r, k), v, s) == Designated(job, builds(0), r, v, s)
  {
    hide WellFormed, Lasting, Run, After, AliasesFollow, Dropped, Placed, Covered, Decide, MirrorOf, ReadsBack;
    AfterFirst(job, builds, r);
    RunClosed(job, builds(0), r);
    OutputAfterRun(job, builds(0), r, After(job, builds, r, 1), v, s);
    StandsAfter(job, builds, r, k);
    assert KeptAndCovered(job, After(job, builds, r, k), v, s);
  }

  /**
   Exactly when a kept manifest has its transform attestation after any number of runs: it
   had it before, or signing is on and it carried no bundle at all. With a bundle of another
   statement on it the attestation is never made up for.
   */
  lemma {:induction false} TransformAttestedIff(job: Job, builds: nat -> Builder, r: Repo, v: Variant, s: Tag, n: nat)
    requires WellFormed(job) && ApartThroughout(job, builds, r, n)
    requires Keeping(job, r, v, s) && s + v.suffix in r.tags && n > 0
    ensures var x := After(job, builds, r, n);
            var m := r.tags[s + v.suffix];
            && Keeping(job, x, v, s) && s + v.suffix in x.tags && x.tags[s + v.suffix] == m
            && (job.signing ==> HasBundle(Referrers(x, m)))
            && (HasTransform(x, m) <==> HasTransform(r, m) || (job.signing && !HasBundle(Referrers(r, m))))
  {
    hide WellFormed, OutputsApart, Run, MirrorOf, Decide, HasTransform, HasBundle, Keeping;
    if n > 1 {
      assert ApartThroughout(job, builds, r, n - 1);
      TransformAttestedIff(job, builds, r, v, s, n - 1);
    } else {
      AfterNone(job, builds, r);
    }
    var x := After(job, builds, r, n - 1);
    AttestedByFirstRun(job, builds(n - 1), x, v, s);
    StaysSigned(job, builds(n - 1), x, v, s);
  }

  lemma StaysSigned(job: Job, build: Builder, r: Repo, v: Variant, s: Tag)
    requires WellFormed(job) && Keeping(job, r, v, s) && s + v.suffix in r.tags
    ensures var x := Run(job, build, APPLY, NoOutage(), r);
            && Keeping(job, x, v, s) && s + v.suffix in x.tags && x.tags[s + v.suffix] == r.tags[s + v.suffix]
            && (job.signing ==> HasBundle(Referrers(x, r.tags[s + v.suffix])))
  {
    hide *;
    var x := Run(job, build, APPLY, NoOutage(), r);
    RunClosed(job, build, r);
    KeepingIsOutput(job, r, v, s);
    OutputAfterRun(job, build, r, x, v, s);
    OutputsAfterRun(job, build, r, x);
    ReadsAsCovered(job, build, r, x, v, s);
    KeptDesignates(job, build, r, v, s);
    SignedIs(job, Referrers(x, r.tags[s + v.suffix]));
  }

  lemma KeepingIsOutput(job: Job, r: Repo, v: Variant, s: Tag)
    requires Keeping(job, r, v, s)
    ensures IsOutput(job, v, s)
  {
    hide MirrorOf, Decide;
  }

  lemma KeptDesignates(job: Job, build: Builder, r: Repo, v: Variant, s: Tag)
    requires Keeping(job, r, v, s) && IsOutput(job, v, s) && s + v.suffix in r.tags
    ensures Designated(job, build, r, v, s) == r.tags[s + v.suffix]
  {
    hide MirrorOf, Decide, Placed;
  }

  lemma SignedIs(job: Job, referrers: set<Referrer>)
    ensures Signed(job, referrers) <==> job.signing ==> HasBundle(referrers)
  {
  }

  /** An output that never reads back is placed by every run, and a placement brings its own attestation. */
  lemma {:induction false} PlacedIsAttested(job: Job, builds: nat -> Builder, r: Repo, v: Variant, s: Tag, n: nat)
    requires WellFormed(job) && job.signing && IsOutput(job, v, s) && !Keeping(job, r, v, s) && !ReadsBack(job, v, s) &&
               n > 0
    ensures var x := After(job, builds, r, n); s + v.suffix in x.tags && HasTransform(x, x.tags[s + v.suffix])
  {
    hide WellFormed, Run, Placing, Keeping, ReadsBack, PlansNothing, IsOutput, HasTransform;
    PlacedForever(job, builds, builds(0), r, v, s, n - 1);
    AttestedWhenPlaced(job, builds(n - 1), After(job, builds, r, n - 1), v, s);
  }

  lemma AttestedWhenPlaced(job: Job, build: Builder, r: Repo, v: Variant, s: Tag)
    requires WellFormed(job) && job.signing && Placing(job, r, v, s)
    ensures var x := Run(job, build, APPLY, NoOutage(), r);
            s + v.suffix in x.tags && HasTransform(x, x.tags[s + v.suffix])
  {
    hide WellFormed, Run, AfterTags, AfterMarks, AllOk, AllTrue, MirrorOf, Decide, Placed, TagDelta, StaleMarks;
    hide SelectionPairs, RetentionPairs;
    var x := Run(job, build, APPLY, NoOutage(), r);
    RunClosed(job, build, r);
    BundlesAfterRun(job, build, r, x, Placed(job, build, v, s));
    PlacementAttests(job, build, r, v, s);
  }

  lemma PlacementAttests(job: Job, build: Builder, r: Repo, v: Variant, s: Tag)
    requires WellFormed(job) && job.signing && Placing(job, r, v, s)
    ensures (Placed(job, build, v, s), Bundle(TransformStatement(job.source[s].digest, v.name))) in TagDelta(job, build,
              r).pairs
  {
    hide ImportWorks, SignWorks, SbomWorks, WorkDelta, WorkDeltas, MirrorOf, Decide, Sum, Placed, PlaceEffects;
    var ws := ImportWorks(job, build, r, job.variants);
    ImportWorksAre(job, build, r, job.variants);
    var w :| w in ws && PlacesOutput(job, build, r, w, v, s);
    DeltaOfPlace(job, build, r, w, v, s);
    PairsOf(job, build, r, ws, w);
  }

  /**
   Which crashes lose it: where no bundle was on the manifest before, a placement cut off
   after `k` of its calls never gets the transform attestation exactly when the output reads
   back and `k` falls from the first SBOM attestation to just before the last call.
   */
  lemma CrashLosesTransformIff(job: Job, build: Builder, builds: nat -> Builder, r: Repo, v: Variant, s: Tag, k: nat,
                               n: nat)
    requires WellFormed(job) && IsOutput(job, v, s) && job.signing && n > 0
    requires 2 <= k <= |PlaceEffects(job, build, v, s)|
    requires !HasBundle(Referrers(r, Placed(job, build, v, s)))
    requires ReadsBack(job, v, s) ==> ApartThroughout(job, builds, CutOff(job, build, r, v, s, k), n)
    ensures var x := After(job, builds, CutOff(job, build, r, v, s, k), n);
            && s + v.suffix in x.tags
            && (ReadsBack(job, v, s) ==> x.tags[s + v.suffix] == Placed(job, build, v, s))
            && (HasTransform(x, x.tags[s + v.suffix]) <==>
                  !(ReadsBack(job, v, s) && 4 <= k < |PlaceEffects(job, build, v, s)|))
  {
    hide WellFormed, ApartThroughout, Run, After, Keeping, MirrorOf, Decide, Placed, PlaceEffects;
    hide HasTransform, HasBundle, BundleReached;
    hide CutOff, FormatReached, Absent, HasSbom, ReadsBack;
    var x := CutOff(job, build, r, v, s, k);
    PlacementCutOff(job, build, r, v, s, k);
    CutOffBundles(job, build, r, v, s, k);
    if ReadsBack(job, v, s) {
      TransformAttestedIff(job, builds, x, v, s, n);
    } else {
      PlacedIsAttested(job, builds, x, v, s, n);
    }
  }

  /** Outputs apart before a placement are apart wherever it is cut off. */
  lemma CutOffStaysApart(job: Job, build: Builder, r: Repo, v: Variant, s: Tag, k: nat)
    requires WellFormed(job) && OutputsApart(job, build, r) && Placing(job, r, v, s)
    requires 2 <= k <= |PlaceEffects(job, build, v, s)|
    ensures OutputsApart(job, build, CutOff(job, build, r, v, s, k))
  {
    hide WellFormed, CutOff, Designated, PlaceEffects, MirrorOf, Decide;
    forall w, u | IsOutput(job, w, u)
      ensures Designated(job, build, CutOff(job, build, r, v, s, k), w, u) == Designated(job, build, r, w, u)
    {
      CutOffDesignates(job, build, r, v, s, k, w, u);
    }
  }

  lemma CutOffDesignates(job: Job, build: Builder, r: Repo, v: Variant, s: Tag, k: nat, w: Variant, u: Tag)
    requires WellFormed(job) && Placing(job, r, v, s) && IsOutput(job, w, u)
    requires 2 <= k <= |PlaceEffects(job, build, v, s)|
    ensures Designated(job, build, CutOff(job, build, r, v, s, k), w, u) == Designated(job, build, r, w, u)
  {
    hide WellPlanned, CutOff, PlaceEffects, MirrorOf, Decide, Placed;
    CutOffLate(job, build, r, v, s, k);
    var x := CutOff(job, build, r, v, s, k);
    if u + w.suffix == s + v.suffix {
      OneOutput(job, v, s, w, u);
      PlacementCutOff(job, build, r, v, s, k);
    } else {
      SameDecision(job, r, x, w, u);
    }
  }

  lemma SameDecision(job: Job, r: Repo, x: Repo, w: Variant, u: Tag)
    requires u in job.source && (u + w.suffix in r.tags <==> u + w.suffix in x.tags)
    requires u + w.suffix in r.tags ==> r.tags[u + w.suffix] == x.tags[u + w.suffix]
    ensures Decide(job, w, u, MirrorOf(job, r)) == Decide(job, w, u, MirrorOf(job, x))
  {
    hide Signed, Absent, TextAt, TimeAt;
  }

  lemma CutOffBundles(job: Job, build: Builder, r: Repo, v: Variant, s: Tag, k: nat)
    requires WellFormed(job) && IsOutput(job, v, s) && job.signing && 2 <= k <= |PlaceEffects(job, build, v, s)|
    requires !HasBundle(Referrers(r, Placed(job, build, v, s)))
    ensures var es := PlaceEffects(job, build, v, s);
            var m := Placed(job, build, v, s);
            && (BundleReached(es[..k], m) <==> k >= 4 || k == |es|)
            && (HasTransform(CutOff(job, build, r, v, s, k), m) <==> k == |es|)
  {
    hide WellFormed, Placed, PlaceEffects;
    var es, m := PlaceEffects(job, build, v, s), Placed(job, build, v, s);
    var x := CutOff(job, build, r, v, s, k);
    CutOffLate(job, build, r, v, s, k);
    CallsOfPlacement(job, build, v, s);
    BundleCalls(job, build, v, s, k);
    var last := es[|es| - 1];
    if k == |es| {
      assert last in es[2..k];
      assert (m, last.referrer) in x.attached;
      assert last.referrer ==
          Bundle(TransformStatement(last.referrer.statement.sourceDigest, last.referrer.statement.variant));
    } else {
      forall d, j ensures (m, Bundle(TransformStatement(d, j))) !in x.attached {
        assert Bundle(TransformStatement(d, j)) !in Referrers(r, m);
        forall e | e in es[2..k] ensures e.referrer != Bundle(TransformStatement(d, j)) {
          var i :| 2 <= i < k && es[i] == e;
        }
      }
    }
  }

  lemma BundleCalls(job: Job, build: Builder, v: Variant, s: Tag, k: nat)
    requires s in job.source && job.signing && 2 <= k <= |PlaceEffects(job, build, v, s)|
    ensures var es := PlaceEffects(job, build, v, s);
            BundleReached(es[..k], Placed(job, build, v, s)) <==> k >= 4 || k == |es|
  {
    hide Placed, PlaceEffects;
    var es, m := PlaceEffects(job, build, v, s), Placed(job, build, v, s);
    CallsOfPlacement(job, build, v, s);
    FirstTwo(job, build, v, s);
    if k == |es| {
      assert es[|es| - 1] in es[..k];
    } else if k >= 4 {
      assert es[3] in es[..k];
    } else {
      forall e | e in es[..k] ensures !(e.Attach? && e.subject == m && e.referrer.Bundle?) {
        var i :| 0 <= i < k && es[i] == e;
        if i < 2 {
          assert e in es[..2];
        }
      }
    }
  }

  /**
   The calls of a signed placement: the two pushes, an SBOM and its attestation for each format,
   the transform attestation.
   */
  lemma CallsOfPlacement(job: Job, build: Builder, v: Variant, s: Tag)
    requires s in job.source && job.signing
    ensures var es := PlaceEffects(job, build, v, s);
            var m := Placed(job, build, v, s);
            && |es| == 2 * |job.formats| + 3
            && es[|es| - 1] == Attach(m, Bundle(TransformStatement(job.source[s].digest, v.name)))
            && (forall i | 2 <= i < |es| - 1 ::
                es[i].Attach? && (es[i].referrer.Bundle? ==> es[i].referrer.statement.SbomStatement?))
            && (job.formats != [] ==>
                es[2].Attach? && es[2].referrer.Sbom? && es[3] == Attach(m, Bundle(SbomStatement(job.formats[0]))))
  {
    var es, m := PlaceEffects(job, build, v, s), Placed(job, build, v, s);
    var cover := CoverEffects(job, m, job.formats);
    var sign := SignEffects(job, m, job.source[s].digest, v.name);
    assert es == es[..2] + cover + sign;
    NoTransformInCover(job, m, job.formats);
    forall i | 2 <= i < |es| - 1
      ensures es[i].Attach? && (es[i].referrer.Bundle? ==> es[i].referrer.statement.SbomStatement?)
    {
      assert es[i] == cover[i - 2];
      assert es[i] in cover;
    }
  }

  lemma {:induction false} NoTransformInCover(job: Job, m: Manifest, formats: seq<string>)
    requires job.signing
    ensures |CoverEffects(job, m, formats)| == 2 * |formats|
    ensures forall e | e in CoverEffects(job, m, formats) ::
              e.Attach? && (e.referrer.Bundle? ==> e.referrer.statement.SbomStatement?)
  {
    if formats != [] {
      NoTransformInCover(job, m, formats[1..]);
    }
  }
}
