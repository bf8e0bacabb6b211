/**
 The planner of the registry-sourced path: a snapshot of a destination, the decision for
 each selected tag, and the plan for one import (knock/domain/reconcile.py, and the reading
 half of _apply_plan in knock/use_cases/reconcile_registry.py).
 */
module Reconcile {
  import opened Wrappers
  import opened Sorting
  import opened Registry
  import opened Retention

  const GRACE := 7 * DAY
  const RETENTION_EXCESS := "retention-excess"
  const DROPPED := "dropped-from-selection"

  datatype Alias = Alias(name: Tag, target: Tag)

  /** `tags` and `aliases` are un-suffixed; the suffix is applied when planning. */
  datatype Variant = Variant(name: string, suffix: string, steps: seq<string>, tags: seq<Tag>, aliases: seq<Alias>)

  datatype DeletionMode = Purge | MarkOnly

  /** An upstream image as `inspect` reports it. */
  datatype Upstream = Upstream(digest: string, created: Option<int>, revision: Option<string>, annotations: Annotations)

  /**
   One import into one destination, with everything a run needs to know: the expanded
   selection, the resolved transform versions by variant name, the settings, the clock and
   the upstream images the selected tags name.
   */
  datatype Job = Job(
    policy: string,
    importName: string,
    artifactType: string,
    owners: Option<string>,
    vendor: Option<string>,
    sourceName: string,
    title: string,
    variants: seq<Variant>,
    transforms: map<string, string>,
    retention: Option<ResolvedRetention>,
    mode: DeletionMode,
    prefix: string,
    signing: bool,
    formats: seq<string>,
    now: int,
    source: map<Tag, Upstream>)

  datatype SourceArtifact = SourceArtifact(digest: string, pushedAt: int, revision: Option<string>)

  datatype MirrorArtifact = MirrorArtifact(
    baseDigest: string,
    transformVersion: Option<string>,
    importedAt: Option<int>,
    attested: bool,
    sbomCovered: bool)

  datatype Decision = Import | Update | Keep

  // ---- reading the two sides ---------------------------------------------------------------------

  function ToSourceArtifact(u: Upstream, now: int): SourceArtifact {
    SourceArtifact(u.digest, if u.created.Some? then u.created.value else now, u.revision)
  }

  function TextAt(a: Annotations, k: Key): Option<string> {
    if k !in a then None else if a[k].Text? then Some(a[k].text) else Some("")
  }

  function TimeAt(a: Annotations, k: Key): Option<int> {
    if k in a && a[k].Time? then Some(a[k].time) else None
  }

  predicate Stamped(m: Manifest) { BaseDigest in m.annotations }

  predicate HasBundle(referrers: set<Referrer>) { exists x | x in referrers :: x.Bundle? }

  predicate HasSbom(referrers: set<Referrer>, format: string) {
    exists x | x in referrers :: x.Sbom? && x.format == format
  }

  predicate Signed(job: Job, referrers: set<Referrer>) { !job.signing || HasBundle(referrers) }

  function Absent(formats: seq<string>, referrers: set<Referrer>): (r: seq<string>)
    ensures forall f :: f in r <==> f in formats && !HasSbom(referrers, f)
  {
    if formats == [] then []
    else
      var n := |formats| - 1;
      assert formats == formats[..n] + [formats[n]];
      Absent(formats[..n], referrers) + if HasSbom(referrers, formats[n]) then [] else [formats[n]]
  }

  function RecordedVersion(job: Job, m: Manifest): Option<string> {
    if job.prefix == "" then None else TextAt(m.annotations, Knock(job.prefix, Version))
  }

  function ToMirrorArtifact(job: Job, m: Manifest, referrers: set<Referrer>): (r: Option<MirrorArtifact>)
    ensures r.Some? <==> Stamped(m)
  {
    var base := TextAt(m.annotations, BaseDigest);
    if base.None? then None
    else Some(MirrorArtifact(base.value, RecordedVersion(job, m), TimeAt(m.annotations, Created),
                             Signed(job, referrers), Absent(job.formats, referrers) == []))
  }

  /** The tags knock recognises as its own: stamped, and not a stored referrer. */
  predicate IsMirrored(r: Repo, t: Tag) {
    t in r.tags && !IsReferrersFallbackTag(t) && Stamped(r.tags[t])
  }

  function MirrorOf(job: Job, r: Repo): map<Tag, MirrorArtifact> {
    map t | t in r.tags && IsMirrored(r, t) :: ToMirrorArtifact(job, r.tags[t], Referrers(r, r.tags[t])).value
  }

  function MarksOf(r: Repo, t: Tag): (s: set<Referrer>)
    ensures forall x | x in s :: x.Mark?
  {
    if t in r.tags then set x | x in Referrers(r, r.tags[t]) && x.Mark? else {}
  }

  /** One of the marks is on the given axis: retention, or selection (any other reason). */
  predicate OnAxis(marks: set<Referrer>, retention: bool) {
    exists x | x in marks :: x.Mark? && (x.reason == RETENTION_EXCESS) == retention
  }

  function MarkedOn(r: Repo, retention: bool): set<Tag> {
    set t | t in r.tags && IsMirrored(r, t) && OnAxis(MarksOf(r, t), retention)
  }

  function MarkedSelection(r: Repo): set<Tag> { MarkedOn(r, false) }

  function MarkedRetention(r: Repo): set<Tag> { MarkedOn(r, true) }

  // ---- the decision for one tag --------------------------------------------------------------------

  function Classify(source: SourceArtifact, mirror: Option<MirrorArtifact>, now: int, grace: int,
                    desired: Option<string>): Decision {
    if mirror.None? then Import
    else if mirror.value.transformVersion != desired then Update
    else if mirror.value.baseDigest != source.digest && now - source.pushedAt >= grace then Update
    else Keep
  }

  /**
   The decision as a function of time: an update once due stays due, and a kept tag stays kept for
   ever exactly when upstream agrees.
   */
  lemma DecisionOverTime(source: SourceArtifact, mirror: Option<MirrorArtifact>, now: int, grace: int,
                         desired: Option<string>)
    ensures forall later | later >= now && Classify(source, mirror, now, grace, desired) != Keep ::
              Classify(source, mirror, later, grace, desired) == Classify(source, mirror, now, grace, desired)
    ensures (forall later :: Classify(source, mirror, later, grace, desired) == Keep) <==>
              mirror.Some? && mirror.value.transformVersion == desired && mirror.value.baseDigest == source.digest
    ensures mirror.Some? && mirror.value.transformVersion == desired && mirror.value.baseDigest != source.digest ==>
              (Classify(source, mirror, now, grace, desired) == Update <==> source.pushedAt + grace <= now)
  {
    if mirror.Some? && mirror.value.transformVersion == desired && mirror.value.baseDigest != source.digest {
      assert Classify(source, mirror, source.pushedAt + grace, grace, desired) == Update;
    }
    if mirror.Some? && mirror.value.transformVersion != desired {
      assert Classify(source, mirror, now, grace, desired) == Update;
    }
    if mirror.None? {
      assert Classify(source, mirror, now, grace, desired) == Import;
    }
  }

  function DesiredVersion(job: Job, v: Variant): Option<string> {
    if v.name in job.transforms then Some(job.transforms[v.name]) else None
  }

  function Lookup(mirror: map<Tag, MirrorArtifact>, t: Tag): Option<MirrorArtifact> {
    if t in mirror then Some(mirror[t]) else None
  }

  function Decide(job: Job, v: Variant, s: Tag, mirror: map<Tag, MirrorArtifact>): Decision
    requires s in job.source
  {
    Classify(ToSourceArtifact(job.source[s], job.now), Lookup(mirror, s + v.suffix), job.now, GRACE,
        DesiredVersion(job, v))
  }

  /**
   An upstream image that reports no creation time counts as pushed this instant, so its grace
   never ends: however its digest moves, the mirrored tag is not updated.
   */
  lemma UndatedIsNeverUpdated(job: Job, v: Variant, s: Tag, mirror: map<Tag, MirrorArtifact>)
    requires s in job.source && job.source[s].created.None? && s + v.suffix in mirror
    ensures Decide(job, v, s, mirror) == Update <==> mirror[s + v.suffix].transformVersion != DesiredVersion(job, v)
    ensures Decide(job, v, s, mirror) != Import
  {
    assert GRACE > 0;
  }

  // ---- one variant ------------------------------------------------------------------------------------

  /** The tags of each list are the selected source tags; the output tag adds the suffix. */
  datatype VariantReconcile = VariantReconcile(
    variant: string,
    toImport: seq<Tag>,
    toUpdate: seq<Tag>,
    toSign: seq<Tag>,
    toSbom: seq<Tag>,
    aliases: seq<Alias>)

  /** Every selected tag has an upstream image: the selection and the source fetch agree. */
  predicate Consistent(job: Job) {
    forall v, s | v in job.variants && s in v.tags :: s in job.source
  }

  function Filter(tags: seq<Tag>, keep: Tag -> bool): (r: seq<Tag>)
    ensures forall t :: t in r <==> t in tags && keep(t)
  {
    if tags == [] then []
    else
      var n := |tags| - 1;
      assert tags == tags[..n] + [tags[n]];
      Filter(tags[..n], keep) + if keep(tags[n]) then [tags[n]] else []
  }

  lemma FilterStep(tags: seq<Tag>, i: nat, keep: Tag -> bool)
    requires i < |tags|
    ensures Filter(tags[..i + 1], keep) == Filter(tags[..i], keep) + if keep(tags[i]) then [tags[i]] else []
  {
    assert tags[..i + 1][..i] == tags[..i];
  }

  function Decided(job: Job, v: Variant, mirror: map<Tag, MirrorArtifact>, d: Decision): Tag -> bool {
    (s: Tag) => s in job.source && Decide(job, v, s, mirror) == d
  }

  predicate Kept(job: Job, v: Variant, mirror: map<Tag, MirrorArtifact>, s: Tag) {
    s in job.source && s + v.suffix in mirror && Decide(job, v, s, mirror) == Keep
  }

  function NeedsSignature(job: Job, v: Variant, mirror: map<Tag, MirrorArtifact>): Tag -> bool {
    (s: Tag) => Kept(job, v, mirror, s) && !mirror[s + v.suffix].attested
  }

  function NeedsSbom(job: Job, v: Variant, mirror: map<Tag, MirrorArtifact>): Tag -> bool {
    (s: Tag) => Kept(job, v, mirror, s) && !mirror[s + v.suffix].sbomCovered
  }

  function Suffixed(aliases: seq<Alias>, suffix: string): (r: seq<Alias>)
    ensures |r| == |aliases|
    ensures forall i | 0 <= i < |r| :: r[i] == Alias(aliases[i].name + suffix, aliases[i].target + suffix)
  {
    if aliases == [] then []
    else
      var n := |aliases| - 1;
      Suffixed(aliases[..n], suffix) + [Alias(aliases[n].name + suffix, aliases[n].target + suffix)]
  }

  function VariantPlan(job: Job, v: Variant, mirror: map<Tag, MirrorArtifact>): VariantReconcile {
    VariantReconcile(
      v.name,
      Filter(v.tags, Decided(job, v, mirror, Import)),
      Filter(v.tags, Decided(job, v, mirror, Update)),
      Filter(v.tags, NeedsSignature(job, v, mirror)),
      Filter(v.tags, NeedsSbom(job, v, mirror)),
      Suffixed(v.aliases, v.suffix))
  }

  method ReconcileVariant(job: Job, v: Variant, mirror: map<Tag, MirrorArtifact>) returns (r: VariantReconcile)
    requires forall s | s in v.tags :: s in job.source
    ensures r == VariantPlan(job, v, mirror)
  {
    var toImport, toUpdate, toSign, toSbom: seq<Tag> := [], [], [], [];
    for i := 0 to |v.tags|
      invariant toImport == Filter(v.tags[..i], Decided(job, v, mirror, Import))
      invariant toUpdate == Filter(v.tags[..i], Decided(job, v, mirror, Update))
      invariant toSign == Filter(v.tags[..i], NeedsSignature(job, v, mirror))
      invariant toSbom == Filter(v.tags[..i], NeedsSbom(job, v, mirror))
    {
      var s := v.tags[i];
      FilterStep(v.tags, i, Decided(job, v, mirror, Import));
      FilterStep(v.tags, i, Decided(job, v, mirror, Update));
      FilterStep(v.tags, i, NeedsSignature(job, v, mirror));
      FilterStep(v.tags, i, NeedsSbom(job, v, mirror));
      var outTag := s + v.suffix;
      assert s in v.tags;
      match Decide(job, v, s, mirror)
      case Import => toImport := toImport + [s];
      case Update => toUpdate := toUpdate + [s];
      case Keep =>
        if !mirror[outTag].attested {
          toSign := toSign + [s];
        }
        if !mirror[outTag].sbomCovered {
          toSbom := toSbom + [s];
        }
    }
    assert v.tags[..|v.tags|] == v.tags;
    r := VariantReconcile(v.name, toImport, toUpdate, toSign, toSbom, Suffixed(v.aliases, v.suffix));
  }

  // ---- one import ---------------------------------------------------------------------------------------

  datatype ImportReconcile = ImportReconcile(
    variants: seq<VariantReconcile>,
    toDelete: seq<Tag>,
    toUnmark: seq<Tag>,
    toMarkRetention: seq<Tag>,
    toUnmarkRetention: seq<Tag>)

  function OutTags(v: Variant): set<Tag> { set s | s in v.tags :: s + v.suffix }

  function AliasNames(v: Variant): set<Tag> { set a | a in v.aliases :: a.name + v.suffix }

  function AliasTargets(v: Variant): set<Tag> { set a | a in v.aliases :: a.target + v.suffix }

  function Concrete(job: Job): set<Tag> { set v, t | v in job.variants && t in OutTags(v) :: t }

  function AliasTags(job: Job): set<Tag> { set v, t | v in job.variants && t in AliasNames(v) :: t }

  function Desired(job: Job): set<Tag> { Concrete(job) + AliasTags(job) }

  function KeptTimes(v: Variant, mirror: map<Tag, MirrorArtifact>): map<Tag, int> {
    map t | t in OutTags(v) && t in mirror && mirror[t].importedAt.Some? :: mirror[t].importedAt.value
  }

  ghost function VariantExcess(job: Job, v: Variant, mirror: map<Tag, MirrorArtifact>): set<Tag> {
    if job.retention.None? then {}
    else Excess(KeptTimes(v, mirror), job.retention.value.keep, job.retention.value.olderThanDays * DAY, job.now,
         AliasTargets(v))
  }

  ghost function RetentionExcess(job: Job, mirror: map<Tag, MirrorArtifact>): set<Tag> {
    set v, t | v in job.variants && t in VariantExcess(job, v, mirror) :: t
  }

  ghost function VariantPlans(job: Job, variants: seq<Variant>, mirror: map<Tag,
                              MirrorArtifact>): (r: seq<VariantReconcile>)
    ensures |r| == |variants|
    ensures forall i | 0 <= i < |r| :: r[i] == VariantPlan(job, variants[i], mirror)
  {
    seq(|variants|, i requires 0 <= i < |variants| => VariantPlan(job, variants[i], mirror))
  }

  ghost function ImportPlan(job: Job, mirror: map<Tag, MirrorArtifact>, markedSelection: set<Tag>,
                            markedRetention: set<Tag>): ImportReconcile {
    ImportReconcile(
      VariantPlans(job, job.variants, mirror),
      SortedOf(mirror.Keys - Desired(job)),
      SortedOf(markedSelection * Desired(job)),
      SortedOf(RetentionExcess(job, mirror) - markedRetention),
      SortedOf(markedRetention - RetentionExcess(job, mirror)))
  }

  /** The desired output names over all variants: concrete output tags and alias names. */
  method DesiredNames(job: Job) returns (desired: set<Tag>)
    ensures desired == Desired(job)
  {
    desired := {};
    for i := 0 to |job.variants|
      invariant forall t :: t in desired <==> exists v :: v in job.variants[..i] && t in OutTags(v) + AliasNames(v)
    {
      var v := job.variants[i];
      assert job.variants[..i + 1] == job.variants[..i] + [v];
      desired := desired + OutTags(v) + AliasNames(v);
    }
    assert job.variants[..|job.variants|] == job.variants;
    assert forall t :: t in desired <==> t in Desired(job);
  }

  method ExcessOf(job: Job, v: Variant, mirror: map<Tag, MirrorArtifact>) returns (excess: set<Tag>)
    ensures excess == VariantExcess(job, v, mirror)
  {
    excess := {};
    if job.retention.Some? {
      var found := SelectRetentionExcess(KeptTimes(v, mirror), job.retention.value.keep,
                                         job.retention.value.olderThanDays * DAY, job.now, AliasTargets(v));
      assert Elements(found) == VariantExcess(job, v, mirror);
      excess := set t | t in found;
    }
  }

  method CollectExcess(job: Job, mirror: map<Tag, MirrorArtifact>) returns (excess: set<Tag>)
    ensures excess == RetentionExcess(job, mirror)
  {
    excess := {};
    for i := 0 to |job.variants|
      invariant excess == ExcessUpTo(job, mirror, i)
    {
      var found := ExcessOf(job, job.variants[i], mirror);
      excess := excess + found;
    }
    ExcessOfAll(job, mirror);
  }

  ghost function ExcessUpTo(job: Job, mirror: map<Tag, MirrorArtifact>, n: nat): set<Tag>
    requires n <= |job.variants|
  {
    if n == 0 then {} else ExcessUpTo(job, mirror, n - 1) + VariantExcess(job, job.variants[n - 1], mirror)
  }

  lemma {:induction false} ExcessUpToMembers(job: Job, mirror: map<Tag, MirrorArtifact>, n: nat, t: Tag)
    requires n <= |job.variants|
    ensures t in ExcessUpTo(job, mirror, n) <==>
              exists i :: 0 <= i < n && t in VariantExcess(job, job.variants[i], mirror)
  {
    hide VariantExcess;
    if n > 0 {
      ExcessUpToMembers(job, mirror, n - 1, t);
    }
  }

  lemma ExcessOfAll(job: Job, mirror: map<Tag, MirrorArtifact>)
    ensures ExcessUpTo(job, mirror, |job.variants|) == RetentionExcess(job, mirror)
  {
    var n := |job.variants|;
    forall t ensures t in ExcessUpTo(job, mirror, n) <==> t in RetentionExcess(job, mirror) {
      ExcessUpToMembers(job, mirror, n, t);
      if t in ExcessUpTo(job, mirror, n) {
        var i :| 0 <= i < n && t in VariantExcess(job, job.variants[i], mirror);
        assert job.variants[i] in job.variants;
      }
      if t in RetentionExcess(job, mirror) {
        var v :| v in job.variants && t in VariantExcess(job, v, mirror);
        var i :| 0 <= i < n && job.variants[i] == v;
      }
    }
  }

  method PlanVariants(job: Job, mirror: map<Tag, MirrorArtifact>) returns (variants: seq<VariantReconcile>)
    requires Consistent(job)
    ensures variants == VariantPlans(job, job.variants, mirror)
  {
    variants := [];
    for i := 0 to |job.variants|
      invariant |variants| == i
      invariant forall j | 0 <= j < i :: variants[j] == VariantPlan(job, job.variants[j], mirror)
    {
      assert job.variants[i] in job.variants;
      var vr := ReconcileVariant(job, job.variants[i], mirror);
      variants := variants + [vr];
    }
  }

  method ReconcileImport(job: Job, mirror: map<Tag, MirrorArtifact>, markedSelection: set<Tag>,
                         markedRetention: set<Tag>)
    returns (r: ImportReconcile)
    requires Consistent(job)
    ensures r == ImportPlan(job, mirror, markedSelection, markedRetention)
  {
    var variants := PlanVariants(job, mirror);
    var desired := DesiredNames(job);
    var excess := CollectExcess(job, mirror);
    var toDelete := SortSet(mirror.Keys - desired);
    var toUnmark := SortSet(markedSelection * desired);
    var toMarkRetention := SortSet(excess - markedRetention);
    var toUnmarkRetention := SortSet(markedRetention - excess);
    r := ImportReconcile(variants, toDelete, toUnmark, toMarkRetention, toUnmarkRetention);
  }
}
