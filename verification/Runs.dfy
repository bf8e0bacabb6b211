/**
 What a failure-free run leaves behind, in closed form.

 Stages are folds of calls. Here each is reduced to what it adds: the tags it writes and the
 referrers it attaches, provided output names are distinct.
 */
module Runs {
  import opened Wrappers
  import opened Sorting
  import opened Registry
  import opened Retention
  import opened Reconcile
  import opened Apply

  ghost function NoOutage(): Effect -> bool { (e: Effect) => false }

  ghost const APPLY := Switches(false, false)

  // ---- hypotheses on the policy ----------------------------------------------------------------------

  /** A concrete output: a variant and one of its selected tags. */
  ghost predicate IsOutput(job: Job, v: Variant, s: Tag) {
    v in job.variants && s in v.tags && s in job.source
  }

  ghost predicate IsAlias(job: Job, v: Variant, a: Alias) {
    v in job.variants && a in v.aliases
  }

  /** Output names are pairwise distinct, over all variants, tags and aliases. */
  ghost predicate DistinctNames(job: Job) {
    && (forall v, s, w, u | IsOutput(job, v, s) && IsOutput(job, w, u) && s + v.suffix == u + w.suffix ::
        v == w && s == u)
    && (forall v, a, w, b | IsAlias(job, v, a) && IsAlias(job, w, b) && a.name + v.suffix == b.name + w.suffix ::
        v == w && a == b)
    && AliasTags(job) !! Concrete(job)
  }

  /**
   What the plan phase builds: aliases designate selected tags, transforms are resolved for the
   variants that have one.
   */
  ghost predicate WellPlanned(job: Job) {
    && Consistent(job)
    && (forall v, a | IsAlias(job, v, a) :: a.target in v.tags)
    && (forall v | v in job.variants :: v.name in job.transforms <==> v.steps != [])
    && (forall t | t in Desired(job) :: !IsReferrersFallbackTag(t))
  }

  ghost predicate WellFormed(job: Job) {
    DistinctNames(job) && WellPlanned(job)
  }

  // ---- what an item adds -----------------------------------------------------------------------------------

  datatype Delta = Delta(tags: map<Tag, Manifest>, pairs: set<(Manifest, Referrer)>)

  ghost function Plus(r: Repo, d: Delta): Repo {
    Repo(r.tags + d.tags, r.attached + d.pairs)
  }

  ghost predicate Adds(item: seq<Effect>, d: Delta) {
    forall r: Repo :: RunItem(item, r, NoOutage()) == (Plus(r, d), true)
  }

  lemma {:induction false} RunItemConcat(a: seq<Effect>, b: seq<Effect>, r: Repo, outage: Effect -> bool)
    ensures RunItem(a + b, r, outage) ==
            if RunItem(a, r, outage).1 then RunItem(b, RunItem(a, r, outage).0, outage) else RunItem(a, r, outage)
  {
    if a == [] {
      assert a + b == b;
    } else {
      assert (a + b)[1..] == a[1..] + b && (a + b)[0] == a[0];
      if Possible(a[0], r) && !outage(a[0]) {
        RunItemConcat(a[1..], b, Do(a[0], r), outage);
      }
    }
  }

  lemma AddsConcat(a: seq<Effect>, b: seq<Effect>, d: Delta, e: Delta)
    requires Adds(a, d) && Adds(b, e)
    ensures Adds(a + b, Delta(d.tags + e.tags, d.pairs + e.pairs))
  {
    forall r: Repo ensures RunItem(a + b, r, NoOutage()) == (Plus(r, Delta(d.tags + e.tags, d.pairs + e.pairs)), true) {
      RunItemConcat(a, b, r, NoOutage());
      assert r.tags + d.tags + e.tags == r.tags + (d.tags + e.tags);
      assert r.attached + d.pairs + e.pairs == r.attached + (d.pairs + e.pairs);
    }
  }

  ghost function CoverPairs(job: Job, m: Manifest, formats: seq<string>): set<(Manifest, Referrer)> {
    (set f | f in formats :: (m, Sbom(f, job.now)))
    + (set f | f in formats && job.signing :: (m, Bundle(SbomStatement(f))))
  }

  lemma AddsOne(e: Effect, d: Delta)
    requires (e.Attach? && d == Delta(map[], {(e.subject, e.referrer)})) ||
               (e.Put? && d == Delta(map[e.tag := e.manifest], {}))
    ensures Adds([e], d)
  {
    forall r: Repo ensures RunItem([e], r, NoOutage()) == (Plus(r, d), true) {
      assert [e][0] == e && [e][1..] == [];
      assert Do(e, r) == Plus(r, d) by {
        if e.Put? {
          assert r.tags[e.tag := e.manifest] == r.tags + map[e.tag := e.manifest];
          assert r.attached + {} == r.attached;
        } else {
          assert r.tags + map[] == r.tags;
        }
      }
      assert RunItem([e], r, NoOutage()) == RunItem([], Do(e, r), NoOutage());
    }
  }

  lemma AddsNothing()
    ensures Adds([], Delta(map[], {}))
  {
    forall r: Repo ensures RunItem([], r, NoOutage()) == (Plus(r, Delta(map[], {})), true) {
      assert r.tags + map[] == r.tags && r.attached + {} == r.attached;
    }
  }

  lemma {:induction false} CoverAdds(job: Job, m: Manifest, formats: seq<string>)
    ensures Adds(CoverEffects(job, m, formats), Delta(map[], CoverPairs(job, m, formats)))
  {
    if formats == [] {
      AddsNothing();
      assert CoverPairs(job, m, formats) == {};
    } else {
      var f := formats[0];
      var head := [Attach(m, Sbom(f, job.now))];
      var sign := if job.signing then [Attach(m, Bundle(SbomStatement(f)))] else [];
      var signPairs := if job.signing then {(m, Bundle(SbomStatement(f)))} else {};
      AddsOne(head[0], Delta(map[], {(m, Sbom(f, job.now))}));
      if job.signing {
        AddsOne(sign[0], Delta(map[], signPairs));
      } else {
        AddsNothing();
      }
      CoverAdds(job, m, formats[1..]);
      AddsConcat(head, sign, Delta(map[], {(m, Sbom(f, job.now))}), Delta(map[], signPairs));
      AddsConcat(head + sign, CoverEffects(job, m, formats[1..]),
                 Delta(map[], {(m, Sbom(f, job.now))} + signPairs), Delta(map[], CoverPairs(job, m, formats[1..])));
      assert formats == [f] + formats[1..];
      assert CoverPairs(job, m, formats) == {(m, Sbom(f, job.now))} + signPairs + CoverPairs(job, m, formats[1..]);
    }
  }

  ghost function SignPairs(job: Job, m: Manifest, sourceDigest: string, variant: string): set<(Manifest, Referrer)> {
    if job.signing then {(m, Bundle(TransformStatement(sourceDigest, variant)))} else {}
  }

  lemma SignAdds(job: Job, m: Manifest, sourceDigest: string, variant: string)
    ensures Adds(SignEffects(job, m, sourceDigest, variant), Delta(map[], SignPairs(job, m, sourceDigest, variant)))
  {
    if job.signing {
      AddsOne(SignEffects(job, m, sourceDigest, variant)[0], Delta(map[], SignPairs(job, m, sourceDigest, variant)));
    } else {
      AddsNothing();
    }
  }

  ghost function PlaceDelta(job: Job, build: Builder, v: Variant, s: Tag): Delta
    requires s in job.source
  {
    var m := Placed(job, build, v, s);
    Delta(map[s + v.suffix := m], CoverPairs(job, m, job.formats) + SignPairs(job, m, job.source[s].digest, v.name))
  }

  lemma AddsMore(a: seq<Effect>, tags: map<Tag, Manifest>, p: set<(Manifest, Referrer)>, b: seq<Effect>,
                 q: set<(Manifest, Referrer)>)
    requires Adds(a, Delta(tags, p)) && Adds(b, Delta(map[], q))
    ensures Adds(a + b, Delta(tags, p + q))
  {
    AddsConcat(a, b, Delta(tags, p), Delta(map[], q));
    assert tags + map[] == tags;
  }

  lemma PushRuns(out: Tag, raw: Manifest, second: Effect, m: Manifest)
    requires second == Put(out, m) || (second.Restamp? && second.tag == out && m == Annotated(raw, second.annotations))
    ensures Adds([Put(out, raw), second], Delta(map[out := m], {}))
  {
    var item := [Put(out, raw), second];
    assert item[1..] == [second] && [second][1..] == [];
    forall r: Repo ensures RunItem(item, r, NoOutage()) == (Plus(r, Delta(map[out := m], {})), true) {
      var r1 := Do(Put(out, raw), r);
      assert r1.tags[out] == raw;
      assert RunItem(item, r, NoOutage()) == RunItem([second], r1, NoOutage());
      assert RunItem([second], r1, NoOutage()) == RunItem([], Do(second, r1), NoOutage());
      assert Do(second, r1).tags == r1.tags[out := m];
      assert r.tags[out := raw][out := m] == r.tags + map[out := m];
      assert r.attached + {} == r.attached;
    }
  }

  lemma PlaceAdds(job: Job, build: Builder, v: Variant, s: Tag)
    requires s in job.source
    ensures Adds(PlaceEffects(job, build, v, s), PlaceDelta(job, build, v, s))
  {
    var out := s + v.suffix;
    var raw, m := Unstamped(job, build, v, s), Placed(job, build, v, s);
    var second := if v.steps != [] then Restamp(out, Stamp(job, v, s)) else Put(out, m);
    var cover, sign := CoverEffects(job, m, job.formats), SignEffects(job, m, job.source[s].digest, v.name);
    var coverPairs := CoverPairs(job, m, job.formats);
    PushRuns(out, raw, second, m);
    CoverAdds(job, m, job.formats);
    SignAdds(job, m, job.source[s].digest, v.name);
    AddsMore([Put(out, raw), second], map[out := m], {}, cover, coverPairs);
    AddsMore([Put(out, raw), second] + cover, map[out := m], {} + coverPairs, sign,
        SignPairs(job, m, job.source[s].digest, v.name));
    assert PlaceEffects(job, build, v, s) == [Put(out, raw), second] + cover + sign;
    assert {} + coverPairs == coverPairs;
  }

  // ---- what a stage adds -----------------------------------------------------------------------------------

  ghost function Sum(ds: seq<Delta>): Delta {
    if ds == [] then Delta(map[], {})
    else Delta(ds[0].tags + Sum(ds[1..]).tags, ds[0].pairs + Sum(ds[1..]).pairs)
  }

  ghost predicate AllTrue(oks: seq<bool>) { forall i | 0 <= i < |oks| :: oks[i] }

  lemma {:induction false} StageAdds(items: seq<seq<Effect>>, ds: seq<Delta>, r: Repo)
    requires |items| == |ds| && forall i | 0 <= i < |items| :: Adds(items[i], ds[i])
    ensures RunStage(items, r, NoOutage()).0 == Plus(r, Sum(ds))
    ensures AllTrue(RunStage(items, r, NoOutage()).1)
  {
    if items == [] {
      assert r.tags + map[] == r.tags && r.attached + {} == r.attached;
    } else {
      hide RunItem;
      StageAdds(items[1..], ds[1..], Plus(r, ds[0]));
      assert RunItem(items[0], r, NoOutage()) == (Plus(r, ds[0]), true);
      PlusTwice(r, ds[0], Sum(ds[1..]));
    }
  }

  lemma PlusTwice(r: Repo, d: Delta, e: Delta)
    ensures Plus(Plus(r, d), e) == Plus(r, Delta(d.tags + e.tags, d.pairs + e.pairs))
  {
    assert r.tags + d.tags + e.tags == r.tags + (d.tags + e.tags);
    assert r.attached + d.pairs + e.pairs == r.attached + (d.pairs + e.pairs);
  }

  /** A stage writes what one of its items writes. */
  lemma {:induction false} SumTag(ds: seq<Delta>, t: Tag) returns (i: int)
    ensures t in Sum(ds).tags ==> 0 <= i < |ds| && t in ds[i].tags && ds[i].tags[t] == Sum(ds).tags[t]
    ensures t !in Sum(ds).tags ==> forall j | 0 <= j < |ds| :: t !in ds[j].tags
  {
    if ds == [] {
      i := 0;
    } else {
      var k := SumTag(ds[1..], t);
      i := if t in Sum(ds[1..]).tags then k + 1 else 0;
    }
  }

  lemma {:induction false} SumPair(ds: seq<Delta>, p: (Manifest, Referrer)) returns (i: int)
    ensures p in Sum(ds).pairs ==> 0 <= i < |ds| && p in ds[i].pairs
    ensures p !in Sum(ds).pairs ==> forall j | 0 <= j < |ds| :: p !in ds[j].pairs
  {
    if ds == [] {
      i := 0;
    } else {
      var k := SumPair(ds[1..], p);
      i := if p in Sum(ds[1..]).pairs then k + 1 else 0;
    }
  }

  // ---- the work of each stage ------------------------------------------------------------------------------

  ghost predicate Placing(job: Job, r: Repo, v: Variant, s: Tag) {
    IsOutput(job, v, s) && Decide(job, v, s, MirrorOf(job, r)) != Keep
  }

  ghost predicate Keeping(job: Job, r: Repo, v: Variant, s: Tag) {
    IsOutput(job, v, s) && Decide(job, v, s, MirrorOf(job, r)) == Keep
  }

  ghost predicate PlacesOutput(job: Job, build: Builder, r: Repo, w: Work, v: Variant, s: Tag) {
    && s in job.source && w.op.kind in {Imported, Updated}
    && w.vplan == Some(v) && w.op.srcTag == Some(s) && w.op.outTag == s + v.suffix
    && w.effects == PlaceEffects(job, build, v, s)
  }

  lemma EachPlaces(job: Job, build: Builder, r: Repo, v: Variant, kind: Kind, tags: seq<Tag>)
    requires kind in {Imported, Updated} && forall s | s in tags :: Placing(job, r, v, s)
    ensures var ws := Each(tags, PlaceWork(job, build, v, kind));
            && (forall w | w in ws :: exists s :: Placing(job, r, v, s) && PlacesOutput(job, build, r, w, v, s))
            && (forall s | s in tags :: exists w :: w in ws && PlacesOutput(job, build, r, w, v, s))
  {
    var ws := Each(tags, PlaceWork(job, build, v, kind));
    forall i | 0 <= i < |ws| ensures Placing(job, r, v, tags[i]) && PlacesOutput(job, build, r, ws[i], v, tags[i]) {
      assert tags[i] in tags;
    }
    forall s | s in tags ensures exists w :: w in ws && PlacesOutput(job, build, r, w, v, s) {
      var i :| 0 <= i < |tags| && tags[i] == s;
      assert ws[i] in ws;
    }
  }

  lemma VariantImportsAre(job: Job, build: Builder, r: Repo, v: Variant)
    requires Consistent(job) && v in job.variants
    ensures forall w | w in VariantImports(job, build, r, v) ::
              exists s :: Placing(job, r, v, s) && PlacesOutput(job, build, r, w, v, s)
    ensures forall s | Placing(job, r, v, s) ::
              exists w :: w in VariantImports(job, build, r, v) && PlacesOutput(job, build, r, w, v, s)
  {
    hide MirrorOf, Decide, PlaceEffects, PlaceWork, NeedsSignature, NeedsSbom;
    var p := VariantPlan(job, v, MirrorOf(job, r));
    EachPlaces(job, build, r, v, Imported, p.toImport);
    EachPlaces(job, build, r, v, Updated, p.toUpdate);
    forall s | Placing(job, r, v, s)
      ensures exists w :: w in VariantImports(job, build, r, v) && PlacesOutput(job, build, r, w, v, s)
    {
      assert s in p.toImport || s in p.toUpdate;
    }
  }

  lemma {:induction false} ImportWorksAre(job: Job, build: Builder, r: Repo, variants: seq<Variant>)
    requires Consistent(job) && forall v | v in variants :: v in job.variants
    ensures forall w | w in ImportWorks(job, build, r, variants) ::
              exists v, s :: v in variants && Placing(job, r, v, s) && PlacesOutput(job, build, r, w, v, s)
    ensures forall v, s | v in variants && Placing(job, r, v, s) ::
              exists w :: w in ImportWorks(job, build, r, variants) && PlacesOutput(job, build, r, w, v, s)
  {
    if variants != [] {
      var n := |variants| - 1;
      assert variants == variants[..n] + [variants[n]];
      ImportWorksAre(job, build, r, variants[..n]);
      VariantImportsAre(job, build, r, variants[n]);
      forall v, s | v in variants && Placing(job, r, v, s)
        ensures exists w :: w in ImportWorks(job, build, r, variants) && PlacesOutput(job, build, r, w, v, s)
      {
        if v in variants[..n] {
          var w :| w in ImportWorks(job, build, r, variants[..n]) && PlacesOutput(job, build, r, w, v, s);
        } else {
          var w :| w in VariantImports(job, build, r, variants[n]) && PlacesOutput(job, build, r, w, v, s);
        }
      }
    }
  }

  ghost predicate SignsOutput(job: Job, r: Repo, w: Work, v: Variant, s: Tag) {
    && w.op.kind == Attested && w.vplan == Some(v) && w.op.srcTag == Some(s) && IsMirrored(r, s + v.suffix)
    && w.effects ==
        SignEffects(job, r.tags[s + v.suffix], TextAt(r.tags[s + v.suffix].annotations, BaseDigest).value, v.name)
  }

  ghost predicate CoversOutput(job: Job, r: Repo, w: Work, v: Variant, s: Tag) {
    && w.op.kind == SbomAttached && w.vplan == Some(v) && w.op.srcTag == Some(s) && IsMirrored(r, s + v.suffix)
    && w.effects == CoverEffects(job, r.tags[s + v.suffix], Absent(job.formats, Referrers(r, r.tags[s + v.suffix])))
  }

  lemma SignWorkIs(job: Job, r: Repo, v: Variant, s: Tag)
    requires NeedsSignature(job, v, MirrorOf(job, r))(s)
    ensures SignsOutput(job, r, SignWork(job, r, v)(s), v, s)
  {
    hide SignEffects, Decide;
  }

  lemma VariantSignsAre(job: Job, r: Repo, v: Variant)
    requires Consistent(job)
    ensures forall w | w in VariantSigns(job, r, v) :: exists s :: SignsOutput(job, r, w, v, s)
    ensures forall s | s in v.tags && NeedsSignature(job, v, MirrorOf(job, r))(s) ::
              exists w :: w in VariantSigns(job, r, v) && SignsOutput(job, r, w, v, s)
  {
    hide MirrorOf, NeedsSignature, SignsOutput, SignWork;
    var tags, mine := VariantPlan(job, v, MirrorOf(job, r)).toSign, VariantSigns(job, r, v);
    forall i | 0 <= i < |mine| ensures SignsOutput(job, r, mine[i], v, tags[i]) {
      assert tags[i] in tags;
      SignWorkIs(job, r, v, tags[i]);
    }
    forall s | s in tags ensures exists w :: w in mine && SignsOutput(job, r, w, v, s) {
      var i :| 0 <= i < |tags| && tags[i] == s;
      assert mine[i] in mine;
    }
  }

  lemma {:induction false} SignWorksAre(job: Job, r: Repo, variants: seq<Variant>)
    requires Consistent(job)
    ensures forall w | w in SignWorks(job, r, variants) :: exists v, s :: SignsOutput(job, r, w, v, s)
    ensures forall v, s | v in variants && s in v.tags && NeedsSignature(job, v, MirrorOf(job, r))(s) ::
              exists w :: w in SignWorks(job, r, variants) && SignsOutput(job, r, w, v, s)
  {
    if variants != [] {
      hide MirrorOf, NeedsSignature, SignsOutput, VariantSigns;
      var n := |variants| - 1;
      assert variants == variants[..n] + [variants[n]];
      SignWorksAre(job, r, variants[..n]);
      VariantSignsAre(job, r, variants[n]);
      forall v, s | v in variants && s in v.tags && NeedsSignature(job, v, MirrorOf(job, r))(s)
        ensures exists w :: w in SignWorks(job, r, variants) && SignsOutput(job, r, w, v, s)
      {
        if v in variants[..n] {
          var w :| w in SignWorks(job, r, variants[..n]) && SignsOutput(job, r, w, v, s);
        } else {
          var w :| w in VariantSigns(job, r, v) && SignsOutput(job, r, w, v, s);
        }
      }
    }
  }

  lemma SbomWorkIs(job: Job, r: Repo, v: Variant, s: Tag)
    requires NeedsSbom(job, v, MirrorOf(job, r))(s)
    ensures CoversOutput(job, r, SbomWork(job, r, v)(s), v, s)
  {
    hide CoverEffects, Absent, Decide;
  }

  lemma VariantSbomsAre(job: Job, r: Repo, v: Variant)
    requires Consistent(job)
    ensures forall w | w in VariantSboms(job, r, v) :: exists s :: CoversOutput(job, r, w, v, s)
    ensures forall s | s in v.tags && NeedsSbom(job, v, MirrorOf(job, r))(s) ::
              exists w :: w in VariantSboms(job, r, v) && CoversOutput(job, r, w, v, s)
  {
    hide MirrorOf, NeedsSbom, CoversOutput, SbomWork;
    var tags, mine := VariantPlan(job, v, MirrorOf(job, r)).toSbom, VariantSboms(job, r, v);
    forall i | 0 <= i < |mine| ensures CoversOutput(job, r, mine[i], v, tags[i]) {
      assert tags[i] in tags;
      SbomWorkIs(job, r, v, tags[i]);
    }
    forall s | s in tags ensures exists w :: w in mine && CoversOutput(job, r, w, v, s) {
      var i :| 0 <= i < |tags| && tags[i] == s;
      assert mine[i] in mine;
    }
  }

  lemma {:induction false} SbomWorksAre(job: Job, r: Repo, variants: seq<Variant>)
    requires Consistent(job)
    ensures forall w | w in SbomWorks(job, r, variants) :: exists v, s :: CoversOutput(job, r, w, v, s)
    ensures forall v, s | v in variants && s in v.tags && NeedsSbom(job, v, MirrorOf(job, r))(s) ::
              exists w :: w in SbomWorks(job, r, variants) && CoversOutput(job, r, w, v, s)
  {
    if variants != [] {
      hide MirrorOf, NeedsSbom, CoversOutput, VariantSboms;
      var n := |variants| - 1;
      assert variants == variants[..n] + [variants[n]];
      SbomWorksAre(job, r, variants[..n]);
      VariantSbomsAre(job, r, variants[n]);
      forall v, s | v in variants && s in v.tags && NeedsSbom(job, v, MirrorOf(job, r))(s)
        ensures exists w :: w in SbomWorks(job, r, variants) && CoversOutput(job, r, w, v, s)
      {
        if v in variants[..n] {
          var w :| w in SbomWorks(job, r, variants[..n]) && CoversOutput(job, r, w, v, s);
        } else {
          var w :| w in VariantSboms(job, r, v) && CoversOutput(job, r, w, v, s);
        }
      }
    }
  }

  /** What the work for one tag adds, by the stage it belongs to. */
  ghost function WorkDelta(job: Job, build: Builder, r: Repo, w: Work): Delta {
    if w.vplan.None? || w.op.srcTag.None? then Delta(map[], {})
    else
      var v, s := w.vplan.value, w.op.srcTag.value;
      if w.op.kind in {Imported, Updated} then
        if s in job.source then PlaceDelta(job, build, v, s) else Delta(map[], {})
      else if IsMirrored(r, s + v.suffix) then
        var m := r.tags[s + v.suffix];
        if w.op.kind == Attested then Delta(map[], SignPairs(job, m, TextAt(m.annotations, BaseDigest).value, v.name))
        else Delta(map[], CoverPairs(job, m, Absent(job.formats, Referrers(r, m))))
      else Delta(map[], {})
  }

  ghost function WorkDeltas(job: Job, build: Builder, r: Repo, ws: seq<Work>): (ds: seq<Delta>)
    ensures |ds| == |ws| && forall i | 0 <= i < |ws| :: ds[i] == WorkDelta(job, build, r, ws[i])
  {
    seq(|ws|, i requires 0 <= i < |ws| => WorkDelta(job, build, r, ws[i]))
  }

  ghost predicate Regular(job: Job, build: Builder, r: Repo, w: Work) {
    exists v, s :: PlacesOutput(job, build, r, w, v, s) || SignsOutput(job, r, w, v, s) || CoversOutput(job, r, w, v, s)
  }

  lemma WorkAdds(job: Job, build: Builder, r: Repo, w: Work)
    requires Regular(job, build, r, w)
    ensures Adds(w.effects, WorkDelta(job, build, r, w))
  {
    hide Adds, PlaceEffects, SignEffects, CoverEffects, PlaceDelta, SignPairs, CoverPairs, Absent;
    var v, s :| PlacesOutput(job, build, r, w, v, s) || SignsOutput(job, r, w, v, s) || CoversOutput(job, r, w, v, s);
    if PlacesOutput(job, build, r, w, v, s) {
      PlaceAdds(job, build, v, s);
    } else {
      var m := r.tags[s + v.suffix];
      SignAdds(job, m, TextAt(m.annotations, BaseDigest).value, v.name);
      CoverAdds(job, m, Absent(job.formats, Referrers(r, m)));
    }
  }

  lemma WorksStage(job: Job, build: Builder, r: Repo, ws: seq<Work>, now: Repo)
    requires forall w | w in ws :: Regular(job, build, r, w)
    ensures Stage(ws, false, now, NoOutage()).0 == Plus(now, Sum(WorkDeltas(job, build, r, ws)))
    ensures AllTrue(Stage(ws, false, now, NoOutage()).1)
  {
    var items := EffectsOf(ws, false);
    forall i | 0 <= i < |ws| ensures Adds(items[i], WorkDelta(job, build, r, ws[i])) {
      assert ws[i] in ws;
      WorkAdds(job, build, r, ws[i]);
    }
    StageAdds(items, WorkDeltas(job, build, r, ws), now);
  }

  // ---- the first three stages together -----------------------------------------------------------------------

  /** The referrers attached to a manifest include a signature and every SBOM the settings ask for. */
  ghost predicate Covered(job: Job, pairs: set<(Manifest, Referrer)>, m: Manifest) {
    && (job.signing ==> exists x: Referrer :: x.Bundle? && (m, x) in pairs)
    && (forall f | f in job.formats :: exists x: Referrer :: x.Sbom? && x.format == f && (m, x) in pairs)
  }

  ghost function TagDelta(job: Job, build: Builder, r: Repo): Delta {
    var a := Sum(WorkDeltas(job, build, r, ImportWorks(job, build, r, job.variants)));
    var b := Sum(WorkDeltas(job, build, r, SignWorks(job, r, job.variants)));
    var c := Sum(WorkDeltas(job, build, r, SbomWorks(job, r, job.variants)));
    Delta(a.tags + b.tags + c.tags, a.pairs + b.pairs + c.pairs)
  }

  lemma AllRegular(job: Job, build: Builder, r: Repo)
    requires Consistent(job)
    ensures forall w | w in ImportWorks(job, build, r, job.variants) + SignWorks(job, r, job.variants) +
              SbomWorks(job, r, job.variants) ::
              Regular(job, build, r, w)
  {
    ImportWorksAre(job, build, r, job.variants);
    SignWorksAre(job, r, job.variants);
    SbomWorksAre(job, r, job.variants);
  }

  lemma ThreeStages(job: Job, build: Builder, r: Repo)
    requires Consistent(job)
    ensures var (r1, a) := Stage(ImportWorks(job, build, r, job.variants), false, r, NoOutage());
            var (r2, b) := Stage(SignWorks(job, r, job.variants), false, r1, NoOutage());
            var (r3, c) := Stage(SbomWorks(job, r, job.variants), false, r2, NoOutage());
            r3 == Plus(r, TagDelta(job, build, r)) && AllTrue(a) && AllTrue(b) && AllTrue(c)
  {
    hide ImportWorks, SignWorks, SbomWorks, WorkDeltas, Sum, Regular, Stage;
    AllRegular(job, build, r);
    var ws1, ws2, ws3 := ImportWorks(job, build, r, job.variants), SignWorks(job, r, job.variants),
        SbomWorks(job, r, job.variants);
    var a, b, c := Sum(WorkDeltas(job, build, r, ws1)), Sum(WorkDeltas(job, build, r, ws2)),
        Sum(WorkDeltas(job, build, r, ws3));
    WorksStage(job, build, r, ws1, r);
    WorksStage(job, build, r, ws2, Plus(r, a));
    WorksStage(job, build, r, ws3, Plus(Plus(r, a), b));
    assert r.tags + a.tags + b.tags + c.tags == r.tags + (a.tags + b.tags + c.tags);
    assert r.attached + a.pairs + b.pairs + c.pairs == r.attached + (a.pairs + b.pairs + c.pairs);
  }

  lemma DeltaOfPlace(job: Job, build: Builder, r: Repo, w: Work, v: Variant, s: Tag)
    requires PlacesOutput(job, build, r, w, v, s)
    ensures WorkDelta(job, build, r, w) == PlaceDelta(job, build, v, s)
  {
  }

  lemma OneOutput(job: Job, v: Variant, s: Tag, w: Variant, u: Tag)
    requires DistinctNames(job) && IsOutput(job, v, s) && IsOutput(job, w, u) && s + v.suffix == u + w.suffix
    ensures v == w && s == u
  {
  }

  lemma ImportAt(job: Job, build: Builder, r: Repo, i: nat) returns (v: Variant, s: Tag)
    requires Consistent(job) && i < |ImportWorks(job, build, r, job.variants)|
    ensures Placing(job, r, v, s)
    ensures WorkDeltas(job, build, r, ImportWorks(job, build, r, job.variants))[i] == PlaceDelta(job, build, v, s)
  {
    hide ImportWorks, WorkDelta, MirrorOf, Decide, PlaceDelta;
    var ws := ImportWorks(job, build, r, job.variants);
    ImportWorksAre(job, build, r, job.variants);
    assert ws[i] in ws;
    v, s :| v in job.variants && Placing(job, r, v, s) && PlacesOutput(job, build, r, ws[i], v, s);
    DeltaOfPlace(job, build, r, ws[i], v, s);
  }

  lemma PlacingIsListed(job: Job, r: Repo, v: Variant, s: Tag)
    requires Placing(job, r, v, s)
    ensures v in job.variants
  {
    hide MirrorOf, Decide;
  }

  lemma ImportOf(job: Job, build: Builder, r: Repo, v: Variant, s: Tag) returns (j: nat)
    requires Consistent(job) && Placing(job, r, v, s)
    ensures j < |ImportWorks(job, build, r, job.variants)|
    ensures WorkDeltas(job, build, r, ImportWorks(job, build, r, job.variants))[j] == PlaceDelta(job, build, v, s)
  {
    hide ImportWorks, WorkDelta, Placing, PlacesOutput, Consistent, PlaceDelta;
    var w := WorkOfImport(job, build, r, v, s);
    var ws := ImportWorks(job, build, r, job.variants);
    j :| 0 <= j < |ws| && ws[j] == w;
    DeltaOfPlace(job, build, r, w, v, s);
  }

  lemma WorkOfImport(job: Job, build: Builder, r: Repo, v: Variant, s: Tag) returns (w: Work)
    requires Consistent(job) && Placing(job, r, v, s)
    ensures w in ImportWorks(job, build, r, job.variants) && PlacesOutput(job, build, r, w, v, s)
  {
    hide ImportWorks, MirrorOf, Decide, Placing, PlacesOutput;
    ImportWorksAre(job, build, r, job.variants);
    PlacingIsListed(job, r, v, s);
    w :| w in ImportWorks(job, build, r, job.variants) && PlacesOutput(job, build, r, w, v, s);
  }

  lemma ImportSumTag(job: Job, build: Builder, r: Repo, t: Tag)
    requires WellFormed(job)
    ensures var d := Sum(WorkDeltas(job, build, r, ImportWorks(job, build, r, job.variants)));
            && (t in d.tags ==> exists v, s :: Placing(job, r, v, s) && t == s + v.suffix)
            && (forall v, s | Placing(job, r, v, s) && t == s + v.suffix ::
                t in d.tags && d.tags[t] == Placed(job, build, v, s))
  {
    hide ImportWorks, WorkDeltas, Decide, Sum, CoverPairs, SignPairs, Placed;
    var ds := WorkDeltas(job, build, r, ImportWorks(job, build, r, job.variants));
    var i := SumTag(ds, t);
    if t in Sum(ds).tags {
      var w, u := ImportAt(job, build, r, i);
      assert t == u + w.suffix && Sum(ds).tags[t] == Placed(job, build, w, u);
      forall v, s | Placing(job, r, v, s) && t == s + v.suffix ensures Sum(ds).tags[t] == Placed(job, build, v, s) {
        OneOutput(job, v, s, w, u);
      }
    }
    forall v, s | Placing(job, r, v, s) && t == s + v.suffix ensures t in Sum(ds).tags {
      var j := ImportOf(job, build, r, v, s);
    }
  }

  lemma NoTagsFrom(job: Job, build: Builder, r: Repo, ws: seq<Work>)
    requires forall w | w in ws :: w.op.kind !in {Imported, Updated}
    ensures Sum(WorkDeltas(job, build, r, ws)).tags == map[]
  {
    var ds := WorkDeltas(job, build, r, ws);
    forall i | 0 <= i < |ws| ensures ds[i].tags == map[] {
      assert ws[i] in ws;
    }
    forall t ensures t !in Sum(ds).tags {
      var i := SumTag(ds, t);
    }
  }

  lemma BackfillsTagNothing(job: Job, build: Builder, r: Repo)
    requires Consistent(job)
    ensures Sum(WorkDeltas(job, build, r, SignWorks(job, r, job.variants))).tags == map[]
    ensures Sum(WorkDeltas(job, build, r, SbomWorks(job, r, job.variants))).tags == map[]
  {
    hide SignWorks, SbomWorks, WorkDeltas, Sum, MirrorOf, NeedsSignature, NeedsSbom, IsMirrored, SignEffects;
    hide CoverEffects;
    SignWorksAre(job, r, job.variants);
    SbomWorksAre(job, r, job.variants);
    NoTagsFrom(job, build, r, SignWorks(job, r, job.variants));
    NoTagsFrom(job, build, r, SbomWorks(job, r, job.variants));
  }

  lemma TagDeltaTags(job: Job, build: Builder, r: Repo)
    requires WellFormed(job)
    ensures forall t | t in TagDelta(job, build, r).tags :: exists v, s :: Placing(job, r, v, s) && t == s + v.suffix
    ensures forall v, s | Placing(job, r, v, s) ::
              s + v.suffix in TagDelta(job, build, r).tags &&
                  TagDelta(job, build, r).tags[s + v.suffix] == Placed(job, build, v, s)
  {
    hide ImportWorks, SignWorks, SbomWorks, WorkDeltas, Sum, Placed, MirrorOf, Decide, DistinctNames;
    BackfillsTagNothing(job, build, r);
    var d := Sum(WorkDeltas(job, build, r, ImportWorks(job, build, r, job.variants)));
    assert TagDelta(job, build, r).tags == d.tags;
    forall t | t in d.tags ensures exists v, s :: Placing(job, r, v, s) && t == s + v.suffix {
      ImportSumTag(job, build, r, t);
    }
    forall v, s | Placing(job, r, v, s)
      ensures s + v.suffix in d.tags && d.tags[s + v.suffix] == Placed(job, build, v, s)
    {
      ImportSumTag(job, build, r, s + v.suffix);
    }
  }

  lemma NoMarksFrom(job: Job, build: Builder, r: Repo, ws: seq<Work>)
    ensures forall p | p in Sum(WorkDeltas(job, build, r, ws)).pairs :: !p.1.Mark?
  {
    hide Sum, Placed, Absent, TextAt, IsMirrored;
    var ds := WorkDeltas(job, build, r, ws);
    forall p | p in Sum(ds).pairs ensures !p.1.Mark? {
      var i := SumPair(ds, p);
    }
  }

  lemma PairsOf(job: Job, build: Builder, r: Repo, ws: seq<Work>, w: Work)
    requires w in ws
    ensures WorkDelta(job, build, r, w).pairs <= Sum(WorkDeltas(job, build, r, ws)).pairs
  {
    var ds := WorkDeltas(job, build, r, ws);
    var j :| 0 <= j < |ws| && ws[j] == w;
    forall p | p in ds[j].pairs ensures p in Sum(ds).pairs {
      var i := SumPair(ds, p);
    }
  }

  lemma PlacedIsCovered(job: Job, build: Builder, r: Repo, v: Variant, s: Tag)
    requires WellFormed(job) && Placing(job, r, v, s)
    ensures Covered(job, TagDelta(job, build, r).pairs, Placed(job, build, v, s))
  {
    hide ImportWorks, SignWorks, SbomWorks, WorkDelta, WorkDeltas, MirrorOf, Decide, Sum, Placed, PlaceEffects;
    var ws := ImportWorks(job, build, r, job.variants);
    ImportWorksAre(job, build, r, job.variants);
    var w :| w in ws && PlacesOutput(job, build, r, w, v, s);
    DeltaOfPlace(job, build, r, w, v, s);
    PairsOf(job, build, r, ws, w);
    var m := Placed(job, build, v, s);
    var pairs := TagDelta(job, build, r).pairs;
    if job.signing {
      assert (m, Bundle(TransformStatement(job.source[s].digest, v.name))) in pairs;
    }
    forall f | f in job.formats ensures exists x: Referrer :: x.Sbom? && x.format == f && (m, x) in pairs {
      assert (m, Sbom(f, job.now)) in pairs;
    }
  }

  lemma KeptIsMirrored(job: Job, r: Repo, v: Variant, s: Tag)
    requires Keeping(job, r, v, s)
    ensures IsMirrored(r, s + v.suffix)
    ensures job.signing && !HasBundle(Referrers(r, r.tags[s + v.suffix])) ==>
              NeedsSignature(job, v, MirrorOf(job, r))(s)
    ensures Absent(job.formats, Referrers(r, r.tags[s + v.suffix])) != [] ==> NeedsSbom(job, v, MirrorOf(job, r))(s)
  {
  }

  lemma KeptIsSigned(job: Job, build: Builder, r: Repo, v: Variant, s: Tag)
    requires WellFormed(job) && Keeping(job, r, v, s) && job.signing && IsMirrored(r, s + v.suffix)
    ensures exists x: Referrer :: x.Bundle? && (r.tags[s + v.suffix], x) in r.attached + TagDelta(job, build, r).pairs
  {
    hide WorkDeltas, Sum, ImportWorks, SignWorks, SbomWorks, NeedsSignature, MirrorOf, Decide;
    var m := r.tags[s + v.suffix];
    KeptIsMirrored(job, r, v, s);
    if HasBundle(Referrers(r, m)) {
      var x :| x in Referrers(r, m) && x.Bundle?;
      assert (m, x) in r.attached;
    } else {
      var ws := SignWorks(job, r, job.variants);
      SignWorksAre(job, r, job.variants);
      var w :| w in ws && SignsOutput(job, r, w, v, s);
      PairsOf(job, build, r, ws, w);
      assert (m, Bundle(TransformStatement(TextAt(m.annotations, BaseDigest).value, v.name))) in WorkDelta(job, build,
          r, w).pairs;
    }
  }

  lemma KeptHasSbom(job: Job, build: Builder, r: Repo, v: Variant, s: Tag, f: string)
    requires WellFormed(job) && Keeping(job, r, v, s) && f in job.formats && IsMirrored(r, s + v.suffix)
    ensures exists x: Referrer ::
              x.Sbom? && x.format == f && (r.tags[s + v.suffix], x) in r.attached + TagDelta(job, build, r).pairs
  {
    hide WorkDeltas, Sum, ImportWorks, SignWorks, SbomWorks, NeedsSbom, MirrorOf, Decide, Absent;
    var m := r.tags[s + v.suffix];
    KeptIsMirrored(job, r, v, s);
    if HasSbom(Referrers(r, m), f) {
      var x :| x in Referrers(r, m) && x.Sbom? && x.format == f;
      assert (m, x) in r.attached;
    } else {
      var ws := SbomWorks(job, r, job.variants);
      SbomWorksAre(job, r, job.variants);
      assert f in Absent(job.formats, Referrers(r, m));
      var w :| w in ws && CoversOutput(job, r, w, v, s);
      PairsOf(job, build, r, ws, w);
      assert (m, Sbom(f, job.now)) in WorkDelta(job, build, r, w).pairs;
    }
  }

  lemma KeptIsCovered(job: Job, build: Builder, r: Repo, v: Variant, s: Tag)
    requires WellFormed(job) && Keeping(job, r, v, s)
    ensures IsMirrored(r, s + v.suffix)
    ensures Covered(job, r.attached + TagDelta(job, build, r).pairs, r.tags[s + v.suffix])
  {
    hide TagDelta, Decide, MirrorOf;
    KeptIsMirrored(job, r, v, s);
    if job.signing {
      KeptIsSigned(job, build, r, v, s);
    }
    forall f | f in job.formats
      ensures exists x: Referrer ::
                x.Sbom? && x.format == f && (r.tags[s + v.suffix], x) in r.attached + TagDelta(job, build, r).pairs
    {
      KeptHasSbom(job, build, r, v, s, f);
    }
  }

  // ---- aliases -----------------------------------------------------------------------------------------------

  ghost function AllAliases(variants: seq<Variant>): seq<Alias> {
    if variants == [] then []
    else AllAliases(variants[..|variants| - 1]) +
         Suffixed(variants[|variants| - 1].aliases, variants[|variants| - 1].suffix)
  }

  lemma {:induction false} AliasWorksAre(variants: seq<Variant>)
    ensures |AliasWorks(variants)| == |AllAliases(variants)|
    ensures forall i | 0 <= i < |AliasWorks(variants)| ::
              AliasWorks(variants)[i].effects == [Copy(AllAliases(variants)[i].target, AllAliases(variants)[i].name)]
  {
    if variants != [] {
      AliasWorksAre(variants[..|variants| - 1]);
    }
  }

  lemma {:induction false} AllAliasesMembers(variants: seq<Variant>)
    ensures forall x | x in AllAliases(variants) ::
              exists v, a :: v in variants && a in v.aliases && x == Alias(a.name + v.suffix, a.target + v.suffix)
    ensures forall v, a | v in variants && a in v.aliases ::
              Alias(a.name + v.suffix, a.target + v.suffix) in AllAliases(variants)
  {
    if variants != [] {
      var n := |variants| - 1;
      var v := variants[n];
      assert variants == variants[..n] + [v];
      AllAliasesMembers(variants[..n]);
      SuffixedMembers(v);
    }
  }

  lemma SuffixedMembers(v: Variant)
    ensures var mine := Suffixed(v.aliases, v.suffix);
            && (forall x | x in mine :: exists a ::
                a in v.aliases && x == Alias(a.name + v.suffix, a.target + v.suffix))
            && (forall a | a in v.aliases :: Alias(a.name + v.suffix, a.target + v.suffix) in mine)
  {
    var mine := Suffixed(v.aliases, v.suffix);
    forall x | x in mine ensures exists a :: a in v.aliases && x == Alias(a.name + v.suffix, a.target + v.suffix) {
      var i :| 0 <= i < |mine| && mine[i] == x;
      assert v.aliases[i] in v.aliases;
    }
    forall a | a in v.aliases ensures Alias(a.name + v.suffix, a.target + v.suffix) in mine {
      var i :| 0 <= i < |v.aliases| && v.aliases[i] == a;
      assert mine[i] in mine;
    }
  }

  /** What the alias names designate once copied, the targets staying put. */
  ghost function Pointed(aliases: seq<Alias>, tags: map<Tag, Manifest>): map<Tag, Manifest>
    requires forall a | a in aliases :: a.target in tags
  {
    if aliases == [] then map[]
    else
      assert aliases[0] in aliases;
      map[aliases[0].name := tags[aliases[0].target]] + Pointed(aliases[1..], tags)
  }

  lemma {:induction false} PointedFrame(aliases: seq<Alias>, tags: map<Tag, Manifest>, n: Tag, m: Manifest)
    requires forall a | a in aliases :: a.target in tags && a.target != n
    ensures Pointed(aliases, tags[n := m]) == Pointed(aliases, tags)
  {
    if aliases != [] {
      assert aliases[0] in aliases;
      PointedFrame(aliases[1..], tags, n, m);
    }
  }

  lemma {:induction false} PointedMembers(aliases: seq<Alias>, tags: map<Tag, Manifest>)
    requires forall a | a in aliases :: a.target in tags
    requires forall a, b | a in aliases && b in aliases :: a.name == b.name ==> a.target == b.target
    ensures forall t :: t in Pointed(aliases, tags) <==> exists a :: a in aliases && a.name == t
    ensures forall a | a in aliases ::
              a.name in Pointed(aliases, tags) && Pointed(aliases, tags)[a.name] == tags[a.target]
  {
    if aliases != [] {
      assert aliases == [aliases[0]] + aliases[1..];
      PointedMembers(aliases[1..], tags);
      forall a | a in aliases
        ensures a.name in Pointed(aliases, tags) && Pointed(aliases, tags)[a.name] == tags[a.target]
      {
        assert aliases[0] in aliases;
        if a.name in Pointed(aliases[1..], tags) {
          var b :| b in aliases[1..] && b.name == a.name;
          assert b in aliases;
        }
      }
    }
  }

  lemma SingleCall(e: Effect, r: Repo)
    requires Possible(e, r)
    ensures RunItem([e], r, NoOutage()) == (Do(e, r), true)
  {
    hide Do, Possible;
    assert [e][0] == e && [e][1..] == [];
    assert RunItem([e], r, NoOutage()) == RunItem([], Do(e, r), NoOutage());
  }

  lemma StageCons(items: seq<seq<Effect>>, r: Repo, r1: Repo)
    requires items != [] && RunItem(items[0], r, NoOutage()) == (r1, true)
    ensures RunStage(items, r, NoOutage()).0 == RunStage(items[1..], r1, NoOutage()).0
    ensures AllTrue(RunStage(items[1..], r1, NoOutage()).1) ==> AllTrue(RunStage(items, r, NoOutage()).1)
  {
    hide RunItem;
    assert RunStage(items, r, NoOutage()).1 == [true] + RunStage(items[1..], r1, NoOutage()).1;
  }

  ghost predicate TargetsApart(aliases: seq<Alias>, r: Repo) {
    && (forall a | a in aliases :: a.target in r.tags)
    && (forall a, b | a in aliases && b in aliases :: a.name != b.target)
  }

  lemma CopyFirst(aliases: seq<Alias>, r: Repo) returns (r1: Repo)
    requires aliases != [] && TargetsApart(aliases, r)
    ensures RunItem([Copy(aliases[0].target, aliases[0].name)], r, NoOutage()) == (r1, true)
    ensures TargetsApart(aliases[1..], r1) && r1.attached == r.attached
    ensures r1.tags + Pointed(aliases[1..], r1.tags) == r.tags + Pointed(aliases, r.tags)
  {
    hide RunItem;
    var a := aliases[0];
    assert a in aliases;
    r1 := Repo(r.tags[a.name := r.tags[a.target]], r.attached);
    SingleCall(Copy(a.target, a.name), r);
    FirstPointed(aliases, r);
  }

  lemma FirstPointed(aliases: seq<Alias>, r: Repo)
    requires aliases != [] && TargetsApart(aliases, r)
    ensures var tags := r.tags[aliases[0].name := r.tags[aliases[0].target]];
            && TargetsApart(aliases[1..], Repo(tags, r.attached))
            && tags + Pointed(aliases[1..], tags) == r.tags + Pointed(aliases, r.tags)
  {
    var a := aliases[0];
    assert a in aliases && forall b | b in aliases[1..] :: b in aliases;
    PointedFrame(aliases[1..], r.tags, a.name, r.tags[a.target]);
    UpdateThenMerge(r.tags, a.name, r.tags[a.target], Pointed(aliases[1..], r.tags));
  }

  lemma UpdateThenMerge(tags: map<Tag, Manifest>, t: Tag, m: Manifest, more: map<Tag, Manifest>)
    ensures tags[t := m] + more == tags + (map[t := m] + more)
  {
  }

  lemma {:induction false} CopyStage(aliases: seq<Alias>, items: seq<seq<Effect>>, r: Repo)
    requires |items| == |aliases| && forall i | 0 <= i < |items| ::
               items[i] == [Copy(aliases[i].target, aliases[i].name)]
    requires TargetsApart(aliases, r)
    ensures RunStage(items, r, NoOutage()).0 == Repo(r.tags + Pointed(aliases, r.tags), r.attached)
    ensures AllTrue(RunStage(items, r, NoOutage()).1)
  {
    if items == [] {
      assert r.tags + map[] == r.tags;
    } else {
      hide RunItem, RunStage, TargetsApart, Pointed;
      var r1 := CopyFirst(aliases, r);
      StageCons(items, r, r1);
      CopyStage(aliases[1..], items[1..], r1);
    }
  }

  lemma AliasesAreApart(job: Job, x: Alias)
    requires WellPlanned(job) && x in AllAliases(job.variants)
    ensures x.target in Concrete(job) && x.name in AliasTags(job)
  {
    AllAliasesMembers(job.variants);
    var v, a :| v in job.variants && a in v.aliases && x == Alias(a.name + v.suffix, a.target + v.suffix);
    assert IsAlias(job, v, a);
    assert a.target + v.suffix in OutTags(v);
    assert a.name + v.suffix in AliasNames(v);
  }

  lemma AliasesAgree(job: Job, x: Alias, y: Alias)
    requires DistinctNames(job)
    requires x in AllAliases(job.variants) && y in AllAliases(job.variants) && x.name == y.name
    ensures x.target == y.target
  {
    hide AliasTags, Concrete, AllAliases;
    AllAliasesMembers(job.variants);
    var v, a :| v in job.variants && a in v.aliases && x == Alias(a.name + v.suffix, a.target + v.suffix);
    var w, b :| w in job.variants && b in w.aliases && y == Alias(b.name + w.suffix, b.target + w.suffix);
    assert IsAlias(job, v, a) && IsAlias(job, w, b);
  }

  lemma Apart(job: Job)
    requires DistinctNames(job)
    ensures AliasTags(job) !! Concrete(job)
  {
  }

  ghost predicate Repointed(job: Job, r: Repo, r': Repo) {
    && r'.attached == r.attached
    && r'.tags.Keys == r.tags.Keys + AliasTags(job)
    && (forall t | t in r.tags && t !in AliasTags(job) :: r'.tags[t] == r.tags[t])
    && (forall v, a | IsAlias(job, v, a) ::
          && a.name + v.suffix in r'.tags && a.target + v.suffix in r.tags
          && r'.tags[a.name + v.suffix] == r.tags[a.target + v.suffix])
  }

  lemma PointedNames(job: Job, tags: map<Tag, Manifest>)
    requires DistinctNames(job) && WellPlanned(job) && Concrete(job) <= tags.Keys
    ensures forall x | x in AllAliases(job.variants) :: x.target in tags
    ensures Pointed(AllAliases(job.variants), tags).Keys == AliasTags(job)
    ensures forall v, a | IsAlias(job, v, a) ::
              && a.name + v.suffix in Pointed(AllAliases(job.variants), tags) && a.target + v.suffix in tags
              && Pointed(AllAliases(job.variants), tags)[a.name + v.suffix] == tags[a.target + v.suffix]
  {
    hide AllAliases, DistinctNames, WellPlanned, AliasTags, Concrete, Pointed;
    var aliases := AllAliases(job.variants);
    forall x | x in aliases ensures x.target in tags && x.name in AliasTags(job) {
      AliasesAreApart(job, x);
    }
    forall x, y | x in aliases && y in aliases && x.name == y.name ensures x.target == y.target {
      AliasesAgree(job, x, y);
    }
    PointedMembers(aliases, tags);
    forall v, a | IsAlias(job, v, a) ensures Alias(a.name + v.suffix, a.target + v.suffix) in aliases {
      AliasListed(job, v, a);
    }
    forall t | t in AliasTags(job) ensures t in Pointed(aliases, tags) {
      var x := AliasNamed(job, t);
    }
  }

  lemma AliasListed(job: Job, v: Variant, a: Alias)
    requires IsAlias(job, v, a)
    ensures Alias(a.name + v.suffix, a.target + v.suffix) in AllAliases(job.variants)
  {
    AllAliasesMembers(job.variants);
  }

  lemma AliasNamed(job: Job, t: Tag) returns (x: Alias)
    requires t in AliasTags(job)
    ensures x in AllAliases(job.variants) && x.name == t
  {
    var v :| v in job.variants && t in AliasNames(v);
    var a :| a in v.aliases && t == a.name + v.suffix;
    AliasListed(job, v, a);
    x := Alias(a.name + v.suffix, a.target + v.suffix);
  }

  lemma AliasStage(job: Job, r: Repo)
    requires DistinctNames(job) && WellPlanned(job) && Concrete(job) <= r.tags.Keys
    ensures Repointed(job, r, Stage(AliasWorks(job.variants), false, r, NoOutage()).0)
    ensures AllTrue(Stage(AliasWorks(job.variants), false, r, NoOutage()).1)
  {
    hide AliasWorks, AllAliases, DistinctNames, WellPlanned, Concrete, AliasTags, Pointed;
    var aliases := AllAliases(job.variants);
    AliasWorksAre(job.variants);
    forall x | x in aliases ensures x.target in Concrete(job) && x.name in AliasTags(job) {
      AliasesAreApart(job, x);
    }
    Apart(job);
    PointedNames(job, r.tags);
    CopyStage(aliases, EffectsOf(AliasWorks(job.variants), false), r);
  }

  // ---- marks and deletions ---------------------------------------------------------------------------------------

  lemma {:induction false} UntagStage(ts: seq<Tag>, items: seq<seq<Effect>>, r: Repo)
    requires |items| == |ts| && forall i | 0 <= i < |ts| :: items[i] == [Untag(ts[i])]
    requires NoDup(ts) && forall t | t in ts :: t in r.tags
    ensures var (r', oks) := RunStage(items, r, NoOutage());
            AllTrue(oks) && r' == Repo(r.tags - Elements(ts), r.attached)
  {
    if ts == [] {
      assert r.tags - Elements(ts) == r.tags;
    } else {
      assert ts[0] in ts;
      var r1 := Do(Untag(ts[0]), r);
      SingleCall(Untag(ts[0]), r);
      StageCons(items, r, r1);
      assert forall t | t in ts[1..] :: t in ts && t != ts[0];
      UntagStage(ts[1..], items[1..], r1);
      assert ts == [ts[0]] + ts[1..];
      assert r.tags - {ts[0]} - Elements(ts[1..]) == r.tags - Elements(ts);
    }
  }

  ghost function MarkPairs(ts: seq<Tag>, x: Referrer, r: Repo): set<(Manifest, Referrer)> {
    set t | t in ts && t in r.tags :: (r.tags[t], x)
  }

  lemma {:induction false} MarkStage(ts: seq<Tag>, x: Referrer, items: seq<seq<Effect>>, r: Repo)
    requires |items| == |ts| && forall i | 0 <= i < |ts| :: items[i] == [AttachTo(ts[i], x)]
    requires forall t | t in ts :: t in r.tags
    ensures var (r', oks) := RunStage(items, r, NoOutage());
            AllTrue(oks) && r' == Repo(r.tags, r.attached + MarkPairs(ts, x, r))
  {
    if ts == [] {
      assert MarkPairs(ts, x, r) == {};
    } else {
      assert ts[0] in ts;
      var r1 := Do(AttachTo(ts[0], x), r);
      SingleCall(AttachTo(ts[0], x), r);
      StageCons(items, r, r1);
      MarkStage(ts[1..], x, items[1..], r1);
      assert ts == [ts[0]] + ts[1..];
      assert MarkPairs(ts, x, r) == {(r.tags[ts[0]], x)} + MarkPairs(ts[1..], x, r1);
    }
  }

  lemma ExcessIsConcrete(job: Job, r: Repo, t: Tag)
    requires t in RetentionExcess(job, MirrorOf(job, r))
    ensures t in Concrete(job) && IsMirrored(r, t)
  {
    var v :| v in job.variants && t in VariantExcess(job, v, MirrorOf(job, r));
    var kept := KeptTimes(v, MirrorOf(job, r));
    ExcessMember(kept, job.retention.value.keep, job.retention.value.olderThanDays * DAY, job.now, AliasTargets(v), t);
  }

  // ---- the whole run ---------------------------------------------------------------------------------------------

  /** Every selected tag is placed or kept, aliases follow their targets, other tags stay. */
  ghost predicate TagsSettled(job: Job, build: Builder, r: Repo, r': Repo) {
    && (forall v, s | Placing(job, r, v, s) ::
        s + v.suffix in r'.tags && r'.tags[s + v.suffix] == Placed(job, build, v, s))
    && (forall v, s | Keeping(job, r, v, s) ::
          s + v.suffix in r.tags && s + v.suffix in r'.tags && r'.tags[s + v.suffix] == r.tags[s + v.suffix])
    && (forall v, a | IsAlias(job, v, a) ::
          && a.name + v.suffix in r'.tags && a.target + v.suffix in r'.tags
          && r'.tags[a.name + v.suffix] == r'.tags[a.target + v.suffix])
  }

  ghost predicate OthersStay(job: Job, r: Repo, r': Repo) {
    forall t | t !in Desired(job) :: (t in r'.tags <==> t in r.tags) && (t in r.tags ==> r'.tags[t] == r.tags[t])
  }

  ghost predicate AllOk(o: Outcomes) {
    AllTrue(o.imports) && AllTrue(o.signs) && AllTrue(o.sboms) && AllTrue(o.aliases)
  }

  lemma ConcreteOutput(job: Job, t: Tag) returns (v: Variant, s: Tag)
    requires Consistent(job) && t in Concrete(job)
    ensures IsOutput(job, v, s) && t == s + v.suffix
  {
    v :| v in job.variants && t in OutTags(v);
    s :| s in v.tags && t == s + v.suffix;
  }

  lemma OutputConcrete(job: Job, v: Variant, s: Tag)
    requires IsOutput(job, v, s)
    ensures s + v.suffix in Concrete(job) && s + v.suffix in Desired(job)
  {
    assert s + v.suffix in OutTags(v);
  }

  /** After the first three stages every concrete output exists. */
  lemma OutputsExist(job: Job, build: Builder, r: Repo)
    requires WellFormed(job)
    ensures Concrete(job) <= Plus(r, TagDelta(job, build, r)).tags.Keys
    ensures forall v, s | Placing(job, r, v, s) ::
              s + v.suffix in Plus(r, TagDelta(job, build, r)).tags
              && Plus(r, TagDelta(job, build, r)).tags[s + v.suffix] == Placed(job, build, v, s)
    ensures forall v, s | Keeping(job, r, v, s) ::
              s + v.suffix in r.tags && s + v.suffix !in TagDelta(job, build, r).tags
    ensures forall t | t in TagDelta(job, build, r).tags :: t in Concrete(job)
  {
    hide TagDelta, Decide, MirrorOf, Placed, Concrete;
    var d := TagDelta(job, build, r);
    TagDeltaTags(job, build, r);
    forall v, s | Keeping(job, r, v, s) ensures s + v.suffix in r.tags && s + v.suffix !in d.tags {
      KeptIsMirrored(job, r, v, s);
      forall w, u | Placing(job, r, w, u) && s + v.suffix == u + w.suffix ensures v == w && s == u {
        OneOutput(job, v, s, w, u);
      }
    }
    forall t | t in Concrete(job) ensures t in Plus(r, d).tags {
      var v, s := ConcreteOutput(job, t);
      assert Placing(job, r, v, s) || Keeping(job, r, v, s);
    }
    forall t | t in d.tags ensures t in Concrete(job) {
      var w, u :| Placing(job, r, w, u) && t == u + w.suffix;
      OutputConcrete(job, w, u);
    }
  }

  lemma AfterTagsClosed(job: Job, build: Builder, r: Repo)
    requires WellFormed(job)
    ensures var (r4, o) := AfterTags(job, build, false, NoOutage(), r);
            && TagsSettled(job, build, r, r4) && OthersStay(job, r, r4) && AllOk(o)
            && r4.attached == r.attached + TagDelta(job, build, r).pairs
  {
    hide TagDelta, Decide, MirrorOf, Placed, Concrete, AliasTags, DistinctNames;
    hide ImportWorks, SignWorks, SbomWorks, AliasWorks, Stage;
    var r3 := Plus(r, TagDelta(job, build, r));
    ThreeStages(job, build, r);
    OutputsExist(job, build, r);
    AliasStage(job, r3);
    Apart(job);
    var r4 := AfterTags(job, build, false, NoOutage(), r).0;
    assert Repointed(job, r3, r4);
    forall v, s | IsOutput(job, v, s) ensures s + v.suffix in Concrete(job) && s + v.suffix !in AliasTags(job) {
      OutputConcrete(job, v, s);
    }
    forall v, a | IsAlias(job, v, a)
      ensures a.target + v.suffix in r4.tags && r4.tags[a.name + v.suffix] == r4.tags[a.target + v.suffix]
    {
      assert IsOutput(job, v, a.target);
    }
  }

  ghost function SelMark(job: Job): Referrer { Mark(DROPPED, job.now, job.policy, job.importName) }

  ghost function RetMark(job: Job): Referrer { Mark(RETENTION_EXCESS, job.now, job.policy, job.importName) }

  /** A tag knock placed that the policy no longer asks for. */
  ghost predicate Dropped(job: Job, r: Repo, t: Tag) {
    IsMirrored(r, t) && t !in Desired(job)
  }

  ghost function SelectionPairs(job: Job, r: Repo): set<(Manifest, Referrer)> {
    if job.mode == MarkOnly then
      set t | t in r.tags && Dropped(job, r, t) && t !in MarkedOn(r, false) && t !in MarkedOn(r, true) ::
          (r.tags[t], SelMark(job))
    else {}
  }

  ghost function RetentionPairs(job: Job, r: Repo, r': Repo): set<(Manifest, Referrer)> {
    set t | t in r'.tags && t in RetentionExcess(job, MirrorOf(job, r)) && t !in MarkedOn(r, true) ::
        (r'.tags[t], RetMark(job))
  }

  ghost function RemainingTags(job: Job, before: Repo, r: Repo): map<Tag, Manifest> {
    if job.mode == MarkOnly then r.tags else map t | t in r.tags && !Dropped(job, before, t) :: r.tags[t]
  }

  lemma DropList(job: Job, r: Repo)
    ensures forall t :: t in PlanOf(job, r).toDelete <==> Dropped(job, r, t)
    ensures NoDup(PlanOf(job, r).toDelete)
  {
    hide Desired, RetentionExcess, MarkedOn, VariantPlans;
    var drop := PlanOf(job, r).toDelete;
    assert Elements(drop) == MirrorOf(job, r).Keys - Desired(job);
    assert forall t :: t in drop <==> t in Elements(drop);
  }

  lemma RetainList(job: Job, r: Repo)
    ensures forall t :: t in PlanOf(job, r).toMarkRetention <==>
              t in RetentionExcess(job, MirrorOf(job, r)) && t !in MarkedOn(r, true)
  {
    hide Desired, RetentionExcess, MarkedOn, MirrorOf, VariantPlans;
    var list := PlanOf(job, r).toMarkRetention;
    assert Elements(list) == RetentionExcess(job, MirrorOf(job, r)) - MarkedRetention(r);
    assert forall t :: t in list <==> t in Elements(list);
  }

  lemma MarkWorksStage(job: Job, reason: string, ts: seq<Tag>, r: Repo)
    requires forall t | t in ts :: t in r.tags
    ensures var (r', oks) := Stage(Each(ts, MarkWork(job, reason)), false, r, NoOutage());
            && AllTrue(oks)
            && r' == Repo(r.tags, r.attached + MarkPairs(ts, Mark(reason, job.now, job.policy, job.importName), r))
  {
    MarkStage(ts, Mark(reason, job.now, job.policy, job.importName), EffectsOf(Each(ts, MarkWork(job, reason)), false),
        r);
  }

  lemma SelectionStage(job: Job, before: Repo, r: Repo)
    requires OthersStay(job, before, r)
    ensures var (r', oks) := Stage(SelectionWorks(job, before), false, r, NoOutage());
            AllTrue(oks) && r' == Repo(RemainingTags(job, before, r), r.attached + SelectionPairs(job, before))
  {
    hide MarkedOn, Desired, PlanOf, RunStage;
    DropList(job, before);
    var drop := PlanOf(job, before).toDelete;
    if job.mode == MarkOnly {
      var ts := Filter(drop, t => t !in MarkedSelection(before) + MarkedRetention(before));
      assert forall t | t in ts :: t in drop && t in r.tags;
      MarkWorksStage(job, DROPPED, ts, r);
      assert MarkPairs(ts, SelMark(job), r) == SelectionPairs(job, before);
    } else {
      UntagStage(drop, EffectsOf(SelectionWorks(job, before), false), r);
      assert r.tags - Elements(drop) == RemainingTags(job, before, r);
      assert r.attached + {} == r.attached;
    }
  }

  lemma RetentionStage(job: Job, before: Repo, r: Repo)
    requires forall t | t in RetentionExcess(job, MirrorOf(job, before)) :: t in r.tags
    ensures var (r', oks) := Stage(RetentionWorks(job, before), false, r, NoOutage());
            AllTrue(oks) && r' == Repo(r.tags, r.attached + RetentionPairs(job, before, r))
  {
    hide RetentionExcess, MirrorOf, MarkedOn, Desired, PlanOf, RunStage;
    RetainList(job, before);
    var ts := Filter(PlanOf(job, before).toMarkRetention, t => t !in MarkedRetention(before));
    assert forall t | t in ts :: t in r.tags;
    MarkWorksStage(job, RETENTION_EXCESS, ts, r);
    assert MarkPairs(ts, RetMark(job), r) == RetentionPairs(job, before, r);
  }

  /** The repository after a failure-free run, in closed form. */
  ghost predicate RanTo(job: Job, build: Builder, r: Repo, r': Repo) {
    && TagsSettled(job, build, r, r')
    && (forall t | t !in Desired(job) ::
          && (t in r'.tags <==> t in r.tags && (job.mode == MarkOnly || !IsMirrored(r, t)))
          && (t in r'.tags ==> r'.tags[t] == r.tags[t]))
    && r'.attached == r.attached + TagDelta(job, build, r).pairs + SelectionPairs(job, r) + RetentionPairs(job, r, r')
                      - StaleMarks(job, r)
  }

  /** Nothing fails in a run without outages, and its effect is the closed form. */
  lemma RunClosed(job: Job, build: Builder, r: Repo)
    requires WellFormed(job)
    ensures RanTo(job, build, r, Run(job, build, APPLY, NoOutage(), r))
    ensures var (r4, o) := AfterTags(job, build, false, NoOutage(), r);
            var (_, selection, retention) := AfterMarks(job, false, NoOutage(), r, r4);
            AllOk(o) && AllTrue(selection) && AllTrue(retention)
  {
    hide TagDelta, Decide, MirrorOf, Placed, Concrete, AliasTags, AfterTags, Stage, SelectionPairs;
    hide StaleMarks, SelectionWorks, RetentionWorks;
    hide RetentionExcess, IsMirrored, DistinctNames, MarkedOn;
    AfterTagsClosed(job, build, r);
    var r4 := AfterTags(job, build, false, NoOutage(), r).0;
    SelectionStage(job, r, r4);
    var r5 := Repo(RemainingTags(job, r, r4), r4.attached + SelectionPairs(job, r));
    DesiredRemain(job, r, r4);
    forall t | t in RetentionExcess(job, MirrorOf(job, r)) ensures t in r5.tags {
      ExcessIsConcrete(job, r, t);
      var v, s := ConcreteOutput(job, t);
      OutputConcrete(job, v, s);
      assert Placing(job, r, v, s) || Keeping(job, r, v, s);
    }
    RetentionStage(job, r, r5);
    var r' := Run(job, build, APPLY, NoOutage(), r);
    ReachedAll(StaleMarks(job, r));
    assert r'.tags == r5.tags;
    assert RetentionPairs(job, r, r5) == RetentionPairs(job, r, r');
    SettledRemain(job, build, r, r4, r');
  }

  lemma ReachedAll(pairs: set<(Manifest, Referrer)>)
    ensures Reached(pairs, NoOutage()) == pairs
  {
  }

  lemma DesiredRemain(job: Job, before: Repo, r: Repo)
    ensures forall t | t in Desired(job) :: (t in RemainingTags(job, before, r) <==> t in r.tags)
              && (t in r.tags ==> RemainingTags(job, before, r)[t] == r.tags[t])
  {
  }

  lemma SettledRemain(job: Job, build: Builder, r: Repo, r4: Repo, r': Repo)
    requires WellPlanned(job) && TagsSettled(job, build, r, r4) && OthersStay(job, r, r4)
    requires r'.tags == RemainingTags(job, r, r4)
    ensures TagsSettled(job, build, r, r')
    ensures forall t | t !in Desired(job) ::
              && (t in r'.tags <==> t in r.tags && (job.mode == MarkOnly || !IsMirrored(r, t)))
              && (t in r'.tags ==> r'.tags[t] == r.tags[t])
  {
    hide Decide, MirrorOf, Placed, Desired;
    DesiredRemain(job, r, r4);
    forall v, s | IsOutput(job, v, s) ensures s + v.suffix in Desired(job) {
      OutputConcrete(job, v, s);
    }
    forall v, a | IsAlias(job, v, a) ensures a.name + v.suffix in Desired(job) && a.target + v.suffix in Desired(job) {
      AliasDesired(job, v, a);
    }
  }

  lemma AliasDesired(job: Job, v: Variant, a: Alias)
    requires WellPlanned(job) && IsAlias(job, v, a)
    ensures a.name + v.suffix in Desired(job) && a.target + v.suffix in Desired(job)
    ensures a.name + v.suffix in AliasTags(job) && a.target + v.suffix in Concrete(job) && IsOutput(job, v, a.target)
  {
    assert a.name + v.suffix in AliasNames(v);
    assert IsOutput(job, v, a.target);
    OutputConcrete(job, v, a.target);
  }
}
