/**
 Applying one plan (_apply_plan in knock/use_cases/reconcile_registry.py): snapshot the
 destination, plan, then run the work in stages separated by barriers.

 `Run` says what one application does to a repository and reports; the method `ApplyPlan`
 does it call by call on a mutable repository.
 */
module Apply {
  import opened Wrappers
  import opened Sorting
  import opened Texts
  import opened Registry
  import opened Retention
  import opened Reconcile

  datatype Kind = Imported | Updated | Attested | SbomAttached | Aliased | Skipped | Marked | Deleted

  datatype Operation = Operation(
    kind: Kind,
    outTag: Tag,
    srcTag: Option<Tag>,
    digest: Option<string>,
    applied: bool,
    failed: bool)

  /** One unit of a stage: the variant it belongs to, its report entry and its calls. */
  datatype Work = Work(vplan: Option<Variant>, op: Operation, effects: seq<Effect>)

  datatype Switches = Switches(dryTags: bool, dryDeletions: bool)

  datatype VariantReport = VariantReport(name: string, suffix: string, operations: seq<Operation>)

  datatype TargetReport = TargetReport(variants: seq<VariantReport>, operations: seq<Operation>)

  type Builder = (string, string) -> string // variant name, source digest

  // ---- what is placed -------------------------------------------------------------------------------

  function Optional(k: Key, v: Option<string>): Annotations {
    if v.Some? then map[k := Text(v.value)] else map[]
  }

  function OciStamp(job: Job, s: Tag): (a: Annotations)
    requires s in job.source
    ensures BaseDigest in a && a[BaseDigest] == Text(job.source[s].digest)
    ensures Created in a && a[Created] == Time(job.now)
    ensures BaseName in a && a[BaseName] == Text(job.sourceName + ":" + s)
    ensures forall k | k in a :: !k.Knock?
  {
    map[Title := Text(job.title), Source := Text(job.sourceName)]
    + Optional(Vendor, if job.vendor == Some("") then None else job.vendor) + Optional(Revision, job.source[s].revision)
    + map[BaseName := Text(job.sourceName + ":" + s), BaseDigest := Text(job.source[s].digest),
        Created := Time(job.now)]
  }

  function LineageStamp(job: Job, v: Variant): (a: Annotations)
    ensures forall k | k in a :: k.Knock? && k.fact != Version
    ensures job.prefix != "" ==>
              Knock(job.prefix, VariantName) in a && a[Knock(job.prefix, VariantName)] == Text(v.name)
  {
    var p := job.prefix;
    if p == "" then map[]
    else Optional(Knock(p, Owners), job.owners)
         + map[Knock(p, ArtifactType) := Text(job.artifactType), Knock(p, PolicyName) := Text(job.policy),
               Knock(p, ImportName) := Text(job.importName)]
         + map[Knock(p, VariantName) := Text(v.name)]
  }

  function TransformStamp(job: Job, v: Variant): (a: Annotations)
    ensures forall k | k in a :: k.Knock? && k.fact in {Steps, Version}
    ensures var k := Knock(job.prefix, Version);
            if job.prefix != "" && v.steps != [] && v.name in job.transforms then k in a &&
                a[k] == Text(job.transforms[v.name])
            else k !in a
  {
    var p := job.prefix;
    if p == "" || v.steps == [] || v.name !in job.transforms then map[]
    else map[Knock(p, Steps) := Text(Join(v.steps, ',')), Knock(p, Version) := Text(job.transforms[v.name])]
  }

  /** build_stamp_annotations in knock/domain/stamp.py. */
  function Stamp(job: Job, v: Variant, s: Tag): Annotations
    requires s in job.source
  {
    OciStamp(job, s) + LineageStamp(job, v) + TransformStamp(job, v)
  }

  /** What the copy or the rebuild pushes, before it is stamped. */
  function Unstamped(job: Job, build: Builder, v: Variant, s: Tag): Manifest
    requires s in job.source
  {
    if v.steps != [] then Manifest(Rebuilt(build(v.name, job.source[s].digest)), map[])
    else Manifest(Pulled(job.source[s].digest), job.source[s].annotations)
  }

  function Placed(job: Job, build: Builder, v: Variant, s: Tag): Manifest
    requires s in job.source
  {
    Annotated(Unstamped(job, build, v, s), Stamp(job, v, s))
  }

  function CoverEffects(job: Job, m: Manifest, formats: seq<string>): seq<Effect> {
    if formats == [] then []
    else
      [Attach(m, Sbom(formats[0], job.now))]
      + (if job.signing then [Attach(m, Bundle(SbomStatement(formats[0])))] else [])
      + CoverEffects(job, m, formats[1..])
  }

  function SignEffects(job: Job, m: Manifest, sourceDigest: string, variant: string): seq<Effect> {
    if job.signing then [Attach(m, Bundle(TransformStatement(sourceDigest, variant)))] else []
  }

  /** Push, stamp, attach one SBOM per format, sign: one `try` block. */
  function PlaceEffects(job: Job, build: Builder, v: Variant, s: Tag): seq<Effect>
    requires s in job.source
  {
    var out := s + v.suffix;
    var m := Placed(job, build, v, s);
    [Put(out, Unstamped(job, build, v, s))]
    + (if v.steps != [] then [Restamp(out, Stamp(job, v, s))] else [Put(out, m)])
    + CoverEffects(job, m, job.formats)
    + SignEffects(job, m, job.source[s].digest, v.name)
  }

  // ---- the work of each stage --------------------------------------------------------------------------

  function DigestOf(job: Job, s: Tag): Option<string> {
    if s in job.source then Some(job.source[s].digest) else None
  }

  function Planned(kind: Kind, out: Tag, src: Option<Tag>, digest: Option<string>): Operation {
    Operation(kind, out, src, digest, false, false)
  }

  function PlaceWork(job: Job, build: Builder, v: Variant, kind: Kind): Tag -> Work {
    (s: Tag) => Work(Some(v), Planned(kind, s + v.suffix, Some(s), DigestOf(job, s)),
                     if s in job.source then PlaceEffects(job, build, v, s) else [])
  }

  function SignWork(job: Job, r: Repo, v: Variant): Tag -> Work {
    (s: Tag) => Work(Some(v), Planned(Attested, s + v.suffix, Some(s), DigestOf(job, s)),
                     if IsMirrored(r, s + v.suffix)
                     then
                       var m := r.tags[s + v.suffix];
                       SignEffects(job, m, TextAt(m.annotations, BaseDigest).value, v.name)
                     else [])
  }

  function SbomWork(job: Job, r: Repo, v: Variant): Tag -> Work {
    (s: Tag) => Work(Some(v), Planned(SbomAttached, s + v.suffix, Some(s), DigestOf(job, s)),
                     if IsMirrored(r, s + v.suffix)
                     then var m := r.tags[s + v.suffix]; CoverEffects(job, m, Absent(job.formats, Referrers(r, m)))
                     else [])
  }

  function AliasWork(v: Variant): Alias -> Work {
    (a: Alias) => Work(Some(v), Planned(Aliased, a.name, Some(a.target), None), [Copy(a.target, a.name)])
  }

  function DeleteWork(): Tag -> Work {
    (t: Tag) => Work(None, Planned(Deleted, t, None, None), [Untag(t)])
  }

  function MarkWork(job: Job, reason: string): Tag -> Work {
    (t: Tag) => Work(None, Planned(Marked, t, None, None),
        [AttachTo(t, Mark(reason, job.now, job.policy, job.importName))])
  }

  function Each<A>(xs: seq<A>, f: A -> Work): (ws: seq<Work>)
    ensures |ws| == |xs| && forall i | 0 <= i < |xs| :: ws[i] == f(xs[i])
  {
    seq(|xs|, i requires 0 <= i < |xs| => f(xs[i]))
  }

  function VariantImports(job: Job, build: Builder, r: Repo, v: Variant): seq<Work> {
    var p := VariantPlan(job, v, MirrorOf(job, r));
    Each(p.toImport, PlaceWork(job, build, v, Imported)) + Each(p.toUpdate, PlaceWork(job, build, v, Updated))
  }

  function VariantSigns(job: Job, r: Repo, v: Variant): seq<Work> {
    Each(VariantPlan(job, v, MirrorOf(job, r)).toSign, SignWork(job, r, v))
  }

  function VariantSboms(job: Job, r: Repo, v: Variant): seq<Work> {
    Each(VariantPlan(job, v, MirrorOf(job, r)).toSbom, SbomWork(job, r, v))
  }

  function VariantAliases(v: Variant): seq<Work> {
    Each(Suffixed(v.aliases, v.suffix), AliasWork(v))
  }

  function ImportWorks(job: Job, build: Builder, r: Repo, variants: seq<Variant>): seq<Work> {
    if variants == [] then []
    else ImportWorks(job, build, r, variants[..|variants| - 1]) +
         VariantImports(job, build, r, variants[|variants| - 1])
  }

  function SignWorks(job: Job, r: Repo, variants: seq<Variant>): seq<Work> {
    if variants == [] then []
    else SignWorks(job, r, variants[..|variants| - 1]) + VariantSigns(job, r, variants[|variants| - 1])
  }

  function SbomWorks(job: Job, r: Repo, variants: seq<Variant>): seq<Work> {
    if variants == [] then []
    else SbomWorks(job, r, variants[..|variants| - 1]) + VariantSboms(job, r, variants[|variants| - 1])
  }

  function AliasWorks(variants: seq<Variant>): seq<Work> {
    if variants == [] then []
    else AliasWorks(variants[..|variants| - 1]) + VariantAliases(variants[|variants| - 1])
  }

  ghost function PlanOf(job: Job, r: Repo): ImportReconcile {
    ImportPlan(job, MirrorOf(job, r), MarkedSelection(r), MarkedRetention(r))
  }

  /** Selection: delete, or mark what carries no mark yet. */
  ghost function SelectionWorks(job: Job, r: Repo): seq<Work> {
    if job.mode == MarkOnly
    then Each(Filter(PlanOf(job, r).toDelete, t => t !in MarkedSelection(r) + MarkedRetention(r)),
        MarkWork(job, DROPPED))
    else Each(PlanOf(job, r).toDelete, DeleteWork())
  }

  /** Retention always marks, whatever the deletion mode. */
  ghost function RetentionWorks(job: Job, r: Repo): seq<Work> {
    Each(Filter(PlanOf(job, r).toMarkRetention, t => t !in MarkedRetention(r)), MarkWork(job, RETENTION_EXCESS))
  }

  /** The marks, on one axis, of the manifests these tags name. */
  function MarksOn(r: Repo, tags: seq<Tag>, retention: bool): set<(Manifest, Referrer)> {
    set t, x | t in r.tags && t in tags && x in MarksOf(r, t) && (x.reason == RETENTION_EXCESS) == retention ::
        (r.tags[t], x)
  }

  /** The marks a run clears, as found by the snapshot: each only on the axis being unmarked. */
  ghost function StaleMarks(job: Job, r: Repo): set<(Manifest, Referrer)> {
    MarksOn(r, PlanOf(job, r).toUnmark, false) + MarksOn(r, PlanOf(job, r).toUnmarkRetention, true)
  }

  // ---- one run -------------------------------------------------------------------------------------------

  function EffectsOf(ws: seq<Work>, dry: bool): (r: seq<seq<Effect>>)
    ensures |r| == |ws|
  {
    seq(|ws|, i requires 0 <= i < |ws| => if dry then [] else ws[i].effects)
  }

  function Stage(ws: seq<Work>, dry: bool, r: Repo, outage: Effect -> bool): (x: (Repo, seq<bool>))
    ensures |x.1| == |ws|
  {
    RunStage(EffectsOf(ws, dry), r, outage)
  }

  function Outcome(op: Operation, ok: bool, dry: bool): Operation {
    op.(applied := ok && !dry, failed := !ok)
  }

  function VariantOf(w: Work): Option<string> {
    if w.vplan.Some? then Some(w.vplan.value.name) else None
  }

  /** The entries of one variant, in input order; the target-level ones belong to none. */
  function Entries(ws: seq<Work>, oks: seq<bool>, dry: bool, variant: Option<string>): seq<Operation>
    requires |ws| == |oks|
  {
    if ws == [] then []
    else
      var n := |ws| - 1;
      Entries(ws[..n], oks[..n], dry, variant) + if VariantOf(ws[n]) == variant then [Outcome(ws[n].op, oks[n], dry)]
          else []
  }

  function Changed(p: VariantReconcile, s: Tag): bool {
    s in p.toImport || s in p.toUpdate || s in p.toSign || s in p.toSbom
  }

  function SkippedOps(job: Job, v: Variant, p: VariantReconcile, tags: seq<Tag>): seq<Operation> {
    if tags == [] then []
    else
      var n := |tags| - 1;
      SkippedOps(job, v, p, tags[..n])
      + if Changed(p, tags[n]) then []
          else [Planned(Skipped, tags[n] + v.suffix, Some(tags[n]), DigestOf(job, tags[n]))]
  }

  datatype Outcomes = Outcomes(imports: seq<bool>, signs: seq<bool>, sboms: seq<bool>, aliases: seq<bool>)

  function ReportVariant(job: Job, build: Builder, r: Repo, dry: bool, o: Outcomes, v: Variant): VariantReport
    requires |o.imports| == |ImportWorks(job, build, r, job.variants)|
    requires |o.signs| == |SignWorks(job, r, job.variants)|
    requires |o.sboms| == |SbomWorks(job, r, job.variants)|
    requires |o.aliases| == |AliasWorks(job.variants)|
  {
    VariantReport(v.name, v.suffix,
      Entries(ImportWorks(job, build, r, job.variants), o.imports, dry, Some(v.name))
      + Entries(SignWorks(job, r, job.variants), o.signs, dry, Some(v.name))
      + Entries(SbomWorks(job, r, job.variants), o.sboms, dry, Some(v.name))
      + SkippedOps(job, v, VariantPlan(job, v, MirrorOf(job, r)), v.tags)
      + Entries(AliasWorks(job.variants), o.aliases, dry, Some(v.name)))
  }

  ghost function AfterTags(job: Job, build: Builder, dry: bool, outage: Effect -> bool, r: Repo): (x: (Repo, Outcomes))
    ensures |x.1.imports| == |ImportWorks(job, build, r, job.variants)|
    ensures |x.1.signs| == |SignWorks(job, r, job.variants)|
    ensures |x.1.sboms| == |SbomWorks(job, r, job.variants)|
    ensures |x.1.aliases| == |AliasWorks(job.variants)|
  {
    var (r1, imports) := Stage(ImportWorks(job, build, r, job.variants), dry, r, outage);
    var (r2, signs) := Stage(SignWorks(job, r, job.variants), dry, r1, outage);
    var (r3, sboms) := Stage(SbomWorks(job, r, job.variants), dry, r2, outage);
    var (r4, aliases) := Stage(AliasWorks(job.variants), dry, r3, outage);
    (r4, Outcomes(imports, signs, sboms, aliases))
  }

  ghost function AfterMarks(job: Job, dry: bool, outage: Effect -> bool, before: Repo,
                            r: Repo): (x: (Repo, seq<bool>, seq<bool>))
    ensures |x.1| == |SelectionWorks(job, before)| && |x.2| == |RetentionWorks(job, before)|
  {
    var (r5, selection) := Stage(SelectionWorks(job, before), dry, r, outage);
    var (r6, retention) := Stage(RetentionWorks(job, before), dry, r5, outage);
    (r6, selection, retention)
  }

  function Reached(pairs: set<(Manifest, Referrer)>, outage: Effect -> bool): set<(Manifest, Referrer)> {
    set p | p in pairs && !outage(Detach(p.0, p.1))
  }

  /** Best effort: a mark that cannot be deleted stays, and nothing is reported. */
  ghost function Unmarked(job: Job, dry: bool, outage: Effect -> bool, before: Repo, r: Repo): Repo {
    if dry then r
    else r.(attached := r.attached - Reached(StaleMarks(job, before), outage))
  }

  function VariantReports(job: Job, build: Builder, r: Repo, dry: bool, o: Outcomes,
                          variants: seq<Variant>): (x: seq<VariantReport>)
    requires |o.imports| == |ImportWorks(job, build, r, job.variants)|
    requires |o.signs| == |SignWorks(job, r, job.variants)|
    requires |o.sboms| == |SbomWorks(job, r, job.variants)|
    requires |o.aliases| == |AliasWorks(job.variants)|
  {
    if variants == [] then []
    else
      var n := |variants| - 1;
      VariantReports(job, build, r, dry, o, variants[..n]) + [ReportVariant(job, build, r, dry, o, variants[n])]
  }

  /** The repository after one run. */
  ghost function Run(job: Job, build: Builder, sw: Switches, outage: Effect -> bool, r: Repo): Repo {
    var r4 := AfterTags(job, build, sw.dryTags, outage, r).0;
    var r6 := AfterMarks(job, sw.dryDeletions, outage, r, r4).0;
    Unmarked(job, sw.dryDeletions, outage, r, r6)
  }

  /** What the run reports. */
  ghost function Report(job: Job, build: Builder, sw: Switches, outage: Effect -> bool, r: Repo): TargetReport {
    var (r4, o) := AfterTags(job, build, sw.dryTags, outage, r);
    var (_, selection, retention) := AfterMarks(job, sw.dryDeletions, outage, r, r4);
    TargetReport(VariantReports(job, build, r, sw.dryTags, o, job.variants),
                 Entries(SelectionWorks(job, r), selection, sw.dryDeletions, None)
                 + Entries(RetentionWorks(job, r), retention, sw.dryDeletions, None))
  }

  // ---- the method ------------------------------------------------------------------------------------------

  datatype Snapshot = Snapshot(
    mirror: map<Tag, MirrorArtifact>,
    marked: map<Tag, set<Referrer>>,
    markedSelection: set<Tag>,
    markedRetention: set<Tag>)

  ghost predicate SnapshotOf(job: Job, r: Repo, x: Snapshot) {
    && x.mirror == MirrorOf(job, r)
    && MarksRead(r, x.marked)
    && x.markedSelection == MarkedSelection(r)
    && x.markedRetention == MarkedRetention(r)
  }

  method ReadMirror(job: Job, repo: Repository) returns (mirror: map<Tag, MirrorArtifact>)
    ensures mirror == MirrorOf(job, repo.State())
  {
    mirror := map[];
    var todo := repo.tags.Keys;
    var r := repo.State();
    while todo != {}
      invariant todo <= r.tags.Keys
      invariant forall t :: t in mirror <==> t !in todo && IsMirrored(r, t)
      invariant forall t | t in mirror :: mirror[t] == MirrorOf(job, r)[t]
      decreases |todo|
    {
      var t :| t in todo;
      if !IsReferrersFallbackTag(t) {
        var ma := ToMirrorArtifact(job, r.tags[t], Referrers(r, r.tags[t]));
        if ma.Some? {
          mirror := mirror[t := ma.value];
        }
      }
      todo := todo - {t};
    }
  }

  ghost predicate MarksRead(r: Repo, marked: map<Tag, set<Referrer>>) {
    && (forall t :: t in marked <==> IsMirrored(r, t) && MarksOf(r, t) != {})
    && (forall t | t in marked :: marked[t] == MarksOf(r, t))
  }

  method ReadMarks(job: Job, r: Repo, mirror: map<Tag, MirrorArtifact>) returns (marked: map<Tag, set<Referrer>>)
    requires mirror == MirrorOf(job, r)
    ensures MarksRead(r, marked)
  {
    marked := map[];
    var todo := mirror.Keys;
    while todo != {}
      invariant todo <= mirror.Keys
      invariant forall t :: t in marked <==> t in mirror && t !in todo && MarksOf(r, t) != {}
      invariant forall t | t in marked :: marked[t] == MarksOf(r, t)
      decreases |todo|
    {
      var t :| t in todo;
      var marks := MarksOf(r, t);
      if marks != {} {
        marked := marked[t := marks];
      }
      todo := todo - {t};
    }
  }

  method OnOneAxis(r: Repo, marked: map<Tag, set<Referrer>>, retention: bool) returns (tags: set<Tag>)
    requires MarksRead(r, marked)
    ensures tags == MarkedOn(r, retention)
  {
    tags := {};
    var todo := marked.Keys;
    while todo != {}
      invariant todo <= marked.Keys
      invariant forall t :: t in tags <==> t in marked && t !in todo && OnAxis(marked[t], retention)
      decreases |todo|
    {
      var t :| t in todo;
      if OnAxis(marked[t], retention) {
        tags := tags + {t};
      }
      todo := todo - {t};
    }
    forall t ensures t in tags <==> t in MarkedOn(r, retention) {
      if t in MarkedOn(r, retention) {
        assert MarksOf(r, t) != {};
      }
    }
  }

  method TakeSnapshot(job: Job, repo: Repository) returns (x: Snapshot)
    ensures SnapshotOf(job, repo.State(), x)
  {
    var mirror := ReadMirror(job, repo);
    var marked := ReadMarks(job, repo.State(), mirror);
    var selection := OnOneAxis(repo.State(), marked, false);
    var retention := OnOneAxis(repo.State(), marked, true);
    x := Snapshot(mirror, marked, selection, retention);
  }

  /** The flattened work of the first three stages, in input order. */
  method CollectWork(job: Job, build: Builder, r: Repo, plans: seq<VariantReconcile>)
    returns (imports: seq<Work>, signs: seq<Work>, sboms: seq<Work>, aliases: seq<Work>)
    requires plans == VariantPlans(job, job.variants, MirrorOf(job, r))
    ensures imports == ImportWorks(job, build, r, job.variants)
    ensures signs == SignWorks(job, r, job.variants)
    ensures sboms == SbomWorks(job, r, job.variants)
    ensures aliases == AliasWorks(job.variants)
  {
    hide PlaceWork, SignWork, SbomWork, MirrorOf, Filter;
    imports, signs, sboms, aliases := [], [], [], [];
    for i := 0 to |job.variants|
      invariant imports == ImportWorks(job, build, r, job.variants[..i])
      invariant signs == SignWorks(job, r, job.variants[..i])
      invariant sboms == SbomWorks(job, r, job.variants[..i])
      invariant aliases == AliasWorks(job.variants[..i])
    {
      var v, vr := job.variants[i], plans[i];
      assert job.variants[..i + 1][..i] == job.variants[..i];
      imports := imports +
          (Each(vr.toImport, PlaceWork(job, build, v, Imported)) +
              Each(vr.toUpdate, PlaceWork(job, build, v, Updated)));
      signs := signs + Each(vr.toSign, SignWork(job, r, v));
      sboms := sboms + Each(vr.toSbom, SbomWork(job, r, v));
      aliases := aliases + Each(vr.aliases, AliasWork(v));
    }
    assert job.variants[..|job.variants|] == job.variants;
  }

  method ClearTag(repo: Repository, m: Manifest, marks: set<Referrer>, retention: bool, outage: Effect -> bool)
    modifies repo
    ensures repo.State() == old(repo.State()).(attached := old(repo.State()).attached -
              Reached(set x | x in marks && x.Mark? && (x.reason == RETENTION_EXCESS) == retention :: (m, x), outage))
  {
    ghost var before := repo.State();
    var todo := marks;
    while todo != {}
      invariant todo <= marks
      invariant repo.State() == before.(attached := before.attached -
                  Reached(set x | x in marks - todo && x.Mark? && (x.reason == RETENTION_EXCESS) == retention ::
                      (m, x), outage))
      decreases |todo|
    {
      var x :| x in todo;
      if x.Mark? && (x.reason == RETENTION_EXCESS) == retention {
        var _ := repo.Perform(Detach(m, x), outage);
      }
      todo := todo - {x};
    }
    assert marks - todo == marks;
  }

  method ClearMarks(repo: Repository, r: Repo, tags: seq<Tag>, marked: map<Tag, set<Referrer>>, retention: bool,
                    outage: Effect -> bool)
    requires MarksRead(r, marked)
    requires forall t | t in tags :: IsMirrored(r, t)
    modifies repo
    ensures repo.State() ==
              old(repo.State()).(attached := old(repo.State()).attached - Reached(MarksOn(r, tags, retention), outage))
  {
    hide IsMirrored;
    ghost var before := repo.State();
    for i := 0 to |tags|
      invariant repo.State() == before.(attached := before.attached - Reached(MarksOn(r, tags[..i], retention), outage))
    {
      var t := tags[i];
      assert tags[..i + 1] == tags[..i] + [t];
      assert t in tags;
      ghost var mine := set x | x in MarksOf(r, t) && x.Mark? && (x.reason == RETENTION_EXCESS) == retention ::
          (r.tags[t], x);
      assert MarksOn(r, tags[..i + 1], retention) == MarksOn(r, tags[..i], retention) + mine;
      if t in marked {
        ClearTag(repo, r.tags[t], marked[t], retention, outage);
      } else {
        assert mine == {};
      }
    }
    assert tags[..|tags|] == tags;
  }

  method ApplyPlan(repo: Repository, job: Job, build: Builder, sw: Switches, outage: Effect -> bool)
    returns (report: TargetReport)
    requires Consistent(job)
    modifies repo
    ensures repo.State() == Run(job, build, sw, outage, old(repo.State()))
    ensures report == Report(job, build, sw, outage, old(repo.State()))
  {
    var r := repo.State();
    var x := TakeSnapshot(job, repo);
    var result := ReconcileImport(job, x.mirror, x.markedSelection, x.markedRetention);
    var imports, signs, sboms, aliases := CollectWork(job, build, r, result.variants);
    var importOks := repo.PerformStage(EffectsOf(imports, sw.dryTags), outage);
    var signOks := repo.PerformStage(EffectsOf(signs, sw.dryTags), outage);
    var sbomOks := repo.PerformStage(EffectsOf(sboms, sw.dryTags), outage);
    var aliasOks := repo.PerformStage(EffectsOf(aliases, sw.dryTags), outage);
    assert (repo.State(), Outcomes(importOks, signOks, sbomOks, aliasOks)) ==
        AfterTags(job, build, sw.dryTags, outage, r);
    var selection := if job.mode == MarkOnly
                     then Each(Filter(result.toDelete, t => t !in x.markedSelection + x.markedRetention),
                         MarkWork(job, DROPPED))
                     else Each(result.toDelete, DeleteWork());
    var retention := Each(Filter(result.toMarkRetention, t => t !in x.markedRetention),
        MarkWork(job, RETENTION_EXCESS));
    report := Finish(repo, job, build, sw, outage, r, x, result, selection, retention,
        Outcomes(importOks, signOks, sbomOks, aliasOks));
  }

  method Finish(repo: Repository, job: Job, build: Builder, sw: Switches, outage: Effect -> bool,
                r: Repo, x: Snapshot, result: ImportReconcile, selection: seq<Work>, retention: seq<Work>, o: Outcomes)
    returns (report: TargetReport)
    requires SnapshotOf(job, r, x) && result == PlanOf(job, r)
    requires selection == SelectionWorks(job, r) && retention == RetentionWorks(job, r)
    requires (repo.State(), o) == AfterTags(job, build, sw.dryTags, outage, r)
    modifies repo
    ensures repo.State() == Run(job, build, sw, outage, r)
    ensures report == Report(job, build, sw, outage, r)
  {
    var selectionOks := repo.PerformStage(EffectsOf(selection, sw.dryDeletions), outage);
    var retentionOks := repo.PerformStage(EffectsOf(retention, sw.dryDeletions), outage);
    ClearStale(repo, job, sw.dryDeletions, outage, r, x, result);
    report := TargetReport(VariantReports(job, build, r, sw.dryTags, o, job.variants),
                           Entries(selection, selectionOks, sw.dryDeletions, None)
                           + Entries(retention, retentionOks, sw.dryDeletions, None));
  }

  method ClearStale(repo: Repository, job: Job, dry: bool, outage: Effect -> bool, r: Repo, x: Snapshot,
                    result: ImportReconcile)
    requires SnapshotOf(job, r, x) && result == PlanOf(job, r)
    modifies repo
    ensures repo.State() == Unmarked(job, dry, outage, r, old(repo.State()))
  {
    hide MarksOn, PlanOf, Reached, IsMirrored, MarksOf;
    if !dry {
      ghost var before := repo.State();
      UnmarkOnlyMirrored(job, r);
      ClearMarks(repo, r, result.toUnmark, x.marked, false, outage);
      ClearMarks(repo, r, result.toUnmarkRetention, x.marked, true, outage);
      TwoAxes(before.attached, MarksOn(r, result.toUnmark, false), MarksOn(r, result.toUnmarkRetention, true), outage);
    }
  }

  lemma TwoAxes(attached: set<(Manifest, Referrer)>, a: set<(Manifest, Referrer)>, b: set<(Manifest, Referrer)>,
                outage: Effect -> bool)
    ensures attached - Reached(a, outage) - Reached(b, outage) == attached - Reached(a + b, outage)
  {
  }

  lemma UnmarkOnlyMirrored(job: Job, r: Repo)
    ensures forall t | t in PlanOf(job, r).toUnmark || t in PlanOf(job, r).toUnmarkRetention :: IsMirrored(r, t)
  {
    var p := PlanOf(job, r);
    assert forall t | t in p.toUnmark :: t in Elements(p.toUnmark);
    assert forall t | t in p.toUnmarkRetention :: t in Elements(p.toUnmarkRetention);
  }
}
