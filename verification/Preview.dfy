/**
 What a run reports, and what it leaves alone: the plan partitions the selection, the report
 is a function of the plan, a dry run is a faithful preview, and tags knock did not place
 are never touched.
 */
module Preview {
  import opened Wrappers
  import opened Sorting
  import opened Registry
  import opened Retention
  import opened Reconcile
  import opened Apply
  import opened Runs
  import opened Convergence
  import opened Hypotheses
  import opened Stages

  // ---- the plan partitions the selection -------------------------------------------------------------------

  ghost predicate ExactlyOne(a: bool, b: bool, c: bool) {
    (a || b || c) && !(a && b) && !(a && c) && !(b && c)
  }

  /** A selected tag is imported, updated or kept, and only kept ones are signed or covered again. */
  lemma PlanPartition(job: Job, r: Repo, v: Variant, s: Tag)
    requires Consistent(job) && v in job.variants && s in v.tags
    ensures var p := VariantPlan(job, v, MirrorOf(job, r));
            && ExactlyOne(s in p.toImport, s in p.toUpdate, Kept(job, v, MirrorOf(job, r), s))
            && (s in p.toSign || s in p.toSbom ==> Kept(job, v, MirrorOf(job, r), s))
  {
    hide MirrorOf, Absent;
    KeptHasMirror(job, r, v, s);
  }

  lemma KeptHasMirror(job: Job, r: Repo, v: Variant, s: Tag)
    requires s in job.source
    ensures Decide(job, v, s, MirrorOf(job, r)) == Keep ==> s + v.suffix in MirrorOf(job, r)
  {
  }

  /**
   Deletion never meets anything the policy asks for, nor the marking and unmarking of
   selected tags; and every list of the plan holds mirrored tags only.
   */
  lemma DeletionsApart(job: Job, r: Repo)
    requires WellPlanned(job)
    ensures var p := PlanOf(job, r);
            && (forall v, s | IsOutput(job, v, s) :: s + v.suffix !in p.toDelete)
            && (forall v, a | IsAlias(job, v, a) :: a.name + v.suffix !in p.toDelete)
            && (forall t | t in p.toDelete :: t !in p.toUnmark && t !in p.toMarkRetention)
            && (forall t | t in p.toDelete + p.toUnmark + p.toMarkRetention + p.toUnmarkRetention :: IsMirrored(r, t))
  {
    hide MirrorOf, Desired, MarkedOn, RetentionExcess, PlanOf, IsMirrored;
    var p := PlanOf(job, r);
    DropList(job, r);
    RetainList(job, r);
    UnmarkLists(job, r);
    UnmarkOnlyMirrored(job, r);
    forall v, s | IsOutput(job, v, s) ensures s + v.suffix !in p.toDelete {
      OutputConcrete(job, v, s);
    }
    forall v, a | IsAlias(job, v, a) ensures a.name + v.suffix !in p.toDelete {
      AliasDesired(job, v, a);
    }
    forall t | t in p.toDelete ensures t !in p.toMarkRetention && IsMirrored(r, t) {
      NotInExcess(job, r, t);
    }
    forall t | t in p.toMarkRetention ensures IsMirrored(r, t) {
      ExcessIsConcrete(job, r, t);
    }
  }

  /** The one overlap: a dropped tag that carries a retention mark is deleted, or marked for it, and unmarked. */
  lemma DroppedMayBeUnmarked(job: Job, r: Repo, t: Tag)
    requires Dropped(job, r, t) && t in MarkedOn(r, true)
    ensures t in PlanOf(job, r).toDelete && t in PlanOf(job, r).toUnmarkRetention
  {
    hide MirrorOf, Desired, MarkedOn, RetentionExcess, PlanOf;
    DropList(job, r);
    UnmarkLists(job, r);
    DroppedIsTag(job, r, t);
    NotInExcess(job, r, t);
  }

  // ---- tags knock did not place ----------------------------------------------------------------------------------

  ghost predicate WritesWithin(items: seq<seq<Effect>>, tags: set<Tag>) {
    forall item | item in items :: forall e | e in item :: Writes(e) <= tags
  }

  lemma {:induction false} ItemWritesWithin(item: seq<Effect>, r: Repo, outage: Effect -> bool, t: Tag)
    requires forall e | e in item :: t !in Writes(e)
    ensures var r' := RunItem(item, r, outage).0;
            (t in r'.tags <==> t in r.tags) && (t in r.tags ==> r'.tags[t] == r.tags[t])
  {
    hide Do, Possible, Writes;
    if item != [] && Possible(item[0], r) && !outage(item[0]) {
      assert item[0] in item && forall e | e in item[1..] :: e in item;
      TagsWritten(item[0], r);
      ItemWritesWithin(item[1..], Do(item[0], r), outage, t);
    }
  }

  lemma {:induction false} StageWritesWithin(items: seq<seq<Effect>>, r: Repo, outage: Effect -> bool, tags: set<Tag>,
                                             t: Tag)
    requires WritesWithin(items, tags) && t !in tags
    ensures var r' := RunStage(items, r, outage).0;
            (t in r'.tags <==> t in r.tags) && (t in r.tags ==> r'.tags[t] == r.tags[t])
  {
    hide Writes, RunItem;
    if items != [] {
      assert items[0] in items && forall item | item in items[1..] :: item in items;
      ItemWritesWithin(items[0], r, outage, t);
      StageWritesWithin(items[1..], RunItem(items[0], r, outage).0, outage, tags, t);
    }
  }

  /** The works of every stage write desired tags and tags the policy dropped, only. */
  ghost predicate WorksWithin(ws: seq<Work>, tags: set<Tag>) {
    forall w | w in ws :: forall e | e in w.effects :: Writes(e) <= tags
  }

  ghost function Ours(job: Job, r: Repo): set<Tag> { Desired(job) + MirrorOf(job, r).Keys }

  lemma {:induction false} ImportsWithin(job: Job, build: Builder, r: Repo, variants: seq<Variant>)
    requires Consistent(job) && forall v | v in variants :: v in job.variants
    ensures WorksWithin(ImportWorks(job, build, r, variants), Ours(job, r))
  {
    hide ImportWorks, Placing, PlaceEffects, Ours, Writes, Touches;
    ImportWorksAre(job, build, r, variants);
    forall w | w in ImportWorks(job, build, r, variants)
      ensures forall e | e in w.effects :: Writes(e) <= Ours(job, r)
    {
      var v, s :| v in variants && Placing(job, r, v, s) && PlacesOutput(job, build, r, w, v, s);
      PlaceOwnTag(job, build, v, s);
      PlacingIsOurs(job, r, v, s);
      forall e | e in w.effects ensures Writes(e) <= Ours(job, r) {
        WritesTouched(e);
      }
    }
  }

  lemma PlacingIsOurs(job: Job, r: Repo, v: Variant, s: Tag)
    requires Placing(job, r, v, s)
    ensures s + v.suffix in Ours(job, r)
  {
    hide MirrorOf, Decide;
    OutputConcrete(job, v, s);
  }

  lemma OtherWorksWithin(job: Job, r: Repo)
    requires WellPlanned(job)
    ensures WorksWithin(SignWorks(job, r, job.variants), {}) && WorksWithin(SbomWorks(job, r, job.variants), {})
    ensures WorksWithin(AliasWorks(job.variants), AliasTags(job))
    ensures WorksWithin(SelectionWorks(job, r), MirrorOf(job, r).Keys) && WorksWithin(RetentionWorks(job, r), {})
  {
    hide SignWorks, SbomWorks, AliasWorks, AllAliases, PlanOf, MirrorOf, AliasTags, Concrete, Desired, MarkedOn;
    BackfillsOnlyAttach(job, r, job.variants);
    AliasWorksAre(job.variants);
    var ws, aliases := AliasWorks(job.variants), AllAliases(job.variants);
    forall i | 0 <= i < |ws| ensures forall e: Effect | e in ws[i].effects :: Writes(e) <= AliasTags(job) {
      assert aliases[i] in aliases;
      AliasesAreApart(job, aliases[i]);
    }
    DeletesWithin(job, r);
  }

  lemma DeletesWithin(job: Job, r: Repo)
    ensures WorksWithin(SelectionWorks(job, r), MirrorOf(job, r).Keys)
  {
    hide PlanOf, MirrorOf, Desired, MarkedOn, IsMirrored;
    DropList(job, r);
    var drop := PlanOf(job, r).toDelete;
    forall t | t in drop ensures t in MirrorOf(job, r).Keys {
      MirrorAt(job, r, t);
    }
    var ws := SelectionWorks(job, r);
    forall w | w in ws ensures forall e: Effect | e in w.effects :: Writes(e) <= MirrorOf(job, r).Keys {
      var i :| 0 <= i < |ws| && ws[i] == w;
      if job.mode == Purge {
        assert drop[i] in drop;
      }
    }
  }

  lemma StageLeaves(ws: seq<Work>, dry: bool, r: Repo, outage: Effect -> bool, tags: set<Tag>, t: Tag)
    requires WorksWithin(ws, tags) && t !in tags
    ensures var r' := Stage(ws, dry, r, outage).0;
            (t in r'.tags <==> t in r.tags) && (t in r.tags ==> r'.tags[t] == r.tags[t])
  {
    hide Writes, RunStage;
    var items := EffectsOf(ws, dry);
    forall item | item in items ensures forall e | e in item :: Writes(e) <= tags {
      var i :| 0 <= i < |items| && items[i] == item;
      assert ws[i] in ws;
    }
    StageWritesWithin(items, r, outage, tags, t);
  }

  /** A tag that carries no stamp and that the policy does not name survives every run, whatever fails in it. */
  lemma ForeignTagsUntouched(job: Job, build: Builder, sw: Switches, outage: Effect -> bool, r: Repo, t: Tag)
    requires WellPlanned(job) && !IsMirrored(r, t) && t !in Desired(job)
    ensures var r' := Run(job, build, sw, outage, r);
            (t in r'.tags <==> t in r.tags) && (t in r.tags ==> r'.tags[t] == r.tags[t])
  {
    hide ImportWorks, SignWorks, SbomWorks, AliasWorks, SelectionWorks, RetentionWorks, Stage, WorksWithin;
    hide StaleMarks, IsMirrored, MirrorOf, Desired;
    MirrorAt(job, r, t);
    ImportsWithin(job, build, r, job.variants);
    OtherWorksWithin(job, r);
    NotAnAlias(job, t);
    var r1 := Stage(ImportWorks(job, build, r, job.variants), sw.dryTags, r, outage).0;
    var r2 := Stage(SignWorks(job, r, job.variants), sw.dryTags, r1, outage).0;
    var r3 := Stage(SbomWorks(job, r, job.variants), sw.dryTags, r2, outage).0;
    var r4 := Stage(AliasWorks(job.variants), sw.dryTags, r3, outage).0;
    var r5 := Stage(SelectionWorks(job, r), sw.dryDeletions, r4, outage).0;
    StageLeaves(ImportWorks(job, build, r, job.variants), sw.dryTags, r, outage, Ours(job, r), t);
    StageLeaves(SignWorks(job, r, job.variants), sw.dryTags, r1, outage, {}, t);
    StageLeaves(SbomWorks(job, r, job.variants), sw.dryTags, r2, outage, {}, t);
    StageLeaves(AliasWorks(job.variants), sw.dryTags, r3, outage, AliasTags(job), t);
    StageLeaves(SelectionWorks(job, r), sw.dryDeletions, r4, outage, MirrorOf(job, r).Keys, t);
    StageLeaves(RetentionWorks(job, r), sw.dryDeletions, r5, outage, {}, t);
  }

  lemma NotAnAlias(job: Job, t: Tag)
    requires t !in Desired(job)
    ensures t !in AliasTags(job)
  {
  }

  // ---- a dry run changes nothing ------------------------------------------------------------------------------------

  lemma {:induction false} EmptyItems(items: seq<seq<Effect>>, r: Repo, outage: Effect -> bool)
    requires forall i | 0 <= i < |items| :: items[i] == []
    ensures RunStage(items, r, outage).0 == r
  {
    if items != [] {
      EmptyItems(items[1..], r, outage);
    }
  }

  lemma DryStage(ws: seq<Work>, r: Repo, outage: Effect -> bool)
    ensures Stage(ws, true, r, outage).0 == r
  {
    EmptyItems(EffectsOf(ws, true), r, outage);
  }

  lemma DryRunChangesNothing(job: Job, build: Builder, outage: Effect -> bool, r: Repo)
    ensures Run(job, build, Switches(true, true), outage, r) == r
  {
    hide Stage, ImportWorks, SignWorks, SbomWorks, AliasWorks, SelectionWorks, RetentionWorks;
    DryStage(ImportWorks(job, build, r, job.variants), r, outage);
    DryStage(SignWorks(job, r, job.variants), r, outage);
    DryStage(SbomWorks(job, r, job.variants), r, outage);
    DryStage(AliasWorks(job.variants), r, outage);
    DryStage(SelectionWorks(job, r), r, outage);
    DryStage(RetentionWorks(job, r), r, outage);
  }

  /** With the tag stages dry a run changes no manifest and adds no tag, SBOM or signature, whatever fails. */
  lemma DryTagsPlaceNothing(job: Job, build: Builder, outage: Effect -> bool, r: Repo)
    ensures var r' := Run(job, build, Switches(true, false), outage, r);
            && (forall t | t in r'.tags :: t in r.tags && r'.tags[t] == r.tags[t])
            && (forall p | p in r'.attached && p !in r.attached :: p.1.Mark?)
  {
    hide Stage, ImportWorks, SignWorks, SbomWorks, AliasWorks, SelectionWorks, RetentionWorks, StaleMarks;
    DryStage(ImportWorks(job, build, r, job.variants), r, outage);
    DryStage(SignWorks(job, r, job.variants), r, outage);
    DryStage(SbomWorks(job, r, job.variants), r, outage);
    DryStage(AliasWorks(job.variants), r, outage);
    assert AfterTags(job, build, true, outage, r).0 == r;
    LifecycleIsTame(job, r);
    TameStage(SelectionWorks(job, r), r, outage);
    var r5 := Stage(SelectionWorks(job, r), false, r, outage).0;
    TameStage(RetentionWorks(job, r), r5, outage);
  }

  /** A call that deletes a tag or attaches a mark, and nothing else. */
  ghost predicate Tame(e: Effect) { e.Untag? || (e.AttachTo? && e.referrer.Mark?) }

  ghost predicate AllTame(ws: seq<Work>) { forall w, e | w in ws && e in w.effects :: Tame(e) }

  ghost predicate OnlyMarked(r: Repo, r': Repo) {
    && (forall t | t in r'.tags :: t in r.tags && r'.tags[t] == r.tags[t])
    && (forall p | p in r'.attached && p !in r.attached :: p.1.Mark?)
  }

  lemma LifecycleIsTame(job: Job, r: Repo)
    ensures AllTame(SelectionWorks(job, r)) && AllTame(RetentionWorks(job, r))
  {
    hide PlanOf, MarkedOn;
  }

  lemma {:induction false} TameItem(item: seq<Effect>, r: Repo, outage: Effect -> bool)
    requires forall e | e in item :: Tame(e)
    ensures OnlyMarked(r, RunItem(item, r, outage).0)
  {
    if item != [] && Possible(item[0], r) && !outage(item[0]) {
      assert item[0] in item && forall e | e in item[1..] :: e in item;
      TameItem(item[1..], Do(item[0], r), outage);
    }
  }

  lemma {:induction false} TameItems(items: seq<seq<Effect>>, r: Repo, outage: Effect -> bool)
    requires forall item, e | item in items && e in item :: Tame(e)
    ensures OnlyMarked(r, RunStage(items, r, outage).0)
  {
    hide RunItem, Tame;
    if items != [] {
      assert items[0] in items && forall item | item in items[1..] :: item in items;
      TameItem(items[0], r, outage);
      TameItems(items[1..], RunItem(items[0], r, outage).0, outage);
    }
  }

  lemma TameStage(ws: seq<Work>, r: Repo, outage: Effect -> bool)
    requires AllTame(ws)
    ensures OnlyMarked(r, Stage(ws, false, r, outage).0)
  {
    hide Tame, RunStage;
    var items := EffectsOf(ws, false);
    forall item, e | item in items && e in item ensures Tame(e) {
      var i :| 0 <= i < |items| && items[i] == item;
      assert ws[i] in ws;
    }
    TameItems(items, r, outage);
  }

  /** A call that writes a tag or attaches something other than a mark. */
  ghost predicate Placement(e: Effect) { e.Put? || e.Restamp? || e.Copy? || (e.Attach? && !e.referrer.Mark?) }

  ghost predicate AllPlacements(ws: seq<Work>) { forall w, e | w in ws && e in w.effects :: Placement(e) }

  ghost predicate NothingGone(r: Repo, r': Repo) {
    && r.tags.Keys <= r'.tags.Keys && r.attached <= r'.attached
    && forall p | p in r'.attached && p !in r.attached :: !p.1.Mark?
  }

  lemma {:induction false} CoverIsPlacement(job: Job, m: Manifest, formats: seq<string>)
    ensures forall e | e in CoverEffects(job, m, formats) :: Placement(e)
  {
    if formats != [] {
      CoverIsPlacement(job, m, formats[1..]);
    }
  }

  lemma SbomsPlace(job: Job, r: Repo, v: Variant, s: Tag)
    ensures forall e | e in SbomWork(job, r, v)(s).effects :: Placement(e)
  {
    hide Absent, CoverEffects, Stamped, IsReferrersFallbackTag;
    if IsMirrored(r, s + v.suffix) {
      var m := r.tags[s + v.suffix];
      CoverIsPlacement(job, m, Absent(job.formats, Referrers(r, m)));
    }
  }

  lemma ImportsPlace(job: Job, build: Builder, v: Variant, kind: Kind, s: Tag)
    ensures forall e | e in PlaceWork(job, build, v, kind)(s).effects :: Placement(e)
  {
    hide CoverEffects, Placed, Unstamped, Stamp;
    if s in job.source {
      CoverIsPlacement(job, Placed(job, build, v, s), job.formats);
    }
  }

  lemma VariantPlaces(job: Job, build: Builder, r: Repo, v: Variant)
    ensures AllPlacements(VariantImports(job, build, r, v)) && AllPlacements(VariantSigns(job, r, v))
    ensures AllPlacements(VariantSboms(job, r, v)) && AllPlacements(VariantAliases(v))
  {
    hide VariantPlan, MirrorOf, SbomWork, PlaceWork, TextAt, IsMirrored, Suffixed;
    forall s { SbomsPlace(job, r, v, s); }
    forall s, kind { ImportsPlace(job, build, v, kind, s); }
  }

  lemma {:induction false} TagWorksPlace(job: Job, build: Builder, r: Repo, variants: seq<Variant>)
    ensures AllPlacements(ImportWorks(job, build, r, variants)) && AllPlacements(SignWorks(job, r, variants))
    ensures AllPlacements(SbomWorks(job, r, variants)) && AllPlacements(AliasWorks(variants))
  {
    if variants != [] {
      hide VariantImports, VariantSigns, VariantSboms, VariantAliases, Placement;
      TagWorksPlace(job, build, r, variants[..|variants| - 1]);
      VariantPlaces(job, build, r, variants[|variants| - 1]);
    }
  }

  lemma {:induction false} PlacementItem(item: seq<Effect>, r: Repo, outage: Effect -> bool)
    requires forall e | e in item :: Placement(e)
    ensures NothingGone(r, RunItem(item, r, outage).0)
  {
    if item != [] && Possible(item[0], r) && !outage(item[0]) {
      assert item[0] in item && forall e | e in item[1..] :: e in item;
      PlacementItem(item[1..], Do(item[0], r), outage);
    }
  }

  lemma {:induction false} PlacementItems(items: seq<seq<Effect>>, r: Repo, outage: Effect -> bool)
    requires forall item, e | item in items && e in item :: Placement(e)
    ensures NothingGone(r, RunStage(items, r, outage).0)
  {
    hide RunItem, Placement;
    if items != [] {
      assert items[0] in items && forall item | item in items[1..] :: item in items;
      PlacementItem(items[0], r, outage);
      PlacementItems(items[1..], RunItem(items[0], r, outage).0, outage);
    }
  }

  lemma PlacementStage(ws: seq<Work>, r: Repo, outage: Effect -> bool)
    requires AllPlacements(ws)
    ensures NothingGone(r, Stage(ws, false, r, outage).0)
  {
    hide Placement, RunStage;
    var items := EffectsOf(ws, false);
    forall item, e | item in items && e in item ensures Placement(e) {
      var i :| 0 <= i < |items| && items[i] == item;
      assert ws[i] in ws;
    }
    PlacementItems(items, r, outage);
  }

  /** With the deletion stages dry no tag and no referrer goes, and no mark is attached, whatever fails. */
  lemma DryDeletionsKeepAll(job: Job, build: Builder, outage: Effect -> bool, r: Repo)
    ensures NothingGone(r, Run(job, build, Switches(false, true), outage, r))
  {
    hide Stage, SelectionWorks, RetentionWorks, ImportWorks, SignWorks, SbomWorks, AliasWorks, AllPlacements;
    TagWorksPlace(job, build, r, job.variants);
    PlacementStage(ImportWorks(job, build, r, job.variants), r, outage);
    var r1 := Stage(ImportWorks(job, build, r, job.variants), false, r, outage).0;
    PlacementStage(SignWorks(job, r, job.variants), r1, outage);
    var r2 := Stage(SignWorks(job, r, job.variants), false, r1, outage).0;
    PlacementStage(SbomWorks(job, r, job.variants), r2, outage);
    var r3 := Stage(SbomWorks(job, r, job.variants), false, r2, outage).0;
    PlacementStage(AliasWorks(job.variants), r3, outage);
    var r4 := Stage(AliasWorks(job.variants), false, r3, outage).0;
    DryStage(SelectionWorks(job, r), r4, outage);
    DryStage(RetentionWorks(job, r), r4, outage);
  }

  // ---- the report in closed form ------------------------------------------------------------------------------------

  /** What an operation says was planned, whether or not it was carried out. */
  datatype Outline = Outline(kind: Kind, outTag: Tag, srcTag: Option<Tag>, digest: Option<string>)

  function OutlineOf(op: Operation): Outline { Outline(op.kind, op.outTag, op.srcTag, op.digest) }

  function Outlines(ops: seq<Operation>): (r: seq<Outline>)
    ensures |r| == |ops| && forall i | 0 <= i < |r| :: r[i] == OutlineOf(ops[i])
  {
    seq(|ops|, i requires 0 <= i < |ops| => OutlineOf(ops[i]))
  }

  function Listing(job: Job, v: Variant, kind: Kind, tags: seq<Tag>): (r: seq<Outline>)
    ensures |r| == |tags| && forall i | 0 <= i < |r| ::
              r[i] == Outline(kind, tags[i] + v.suffix, Some(tags[i]), DigestOf(job, tags[i]))
  {
    seq(|tags|, i requires 0 <= i < |tags| => Outline(kind, tags[i] + v.suffix, Some(tags[i]), DigestOf(job, tags[i])))
  }

  function AliasListing(v: Variant): (r: seq<Outline>)
    ensures |r| == |v.aliases|
    ensures forall i | 0 <= i < |r| ::
              r[i] == Outline(Aliased, v.aliases[i].name + v.suffix, Some(v.aliases[i].target + v.suffix), None)
  {
    seq(|v.aliases|, i requires 0 <= i < |v.aliases| =>
      Outline(Aliased, v.aliases[i].name + v.suffix, Some(v.aliases[i].target + v.suffix), None))
  }

  function Unchanged(job: Job, v: Variant, p: VariantReconcile): seq<Tag> { Filter(v.tags, (s: Tag) => !Changed(p, s)) }

  function Planneds(ws: seq<Work>): (r: seq<Operation>)
    ensures |r| == |ws| && forall i | 0 <= i < |r| :: r[i] == ws[i].op
  {
    seq(|ws|, i requires 0 <= i < |ws| => ws[i].op)
  }

  ghost function Expected(job: Job, r: Repo, v: Variant): seq<Outline> {
    var p := VariantPlan(job, v, MirrorOf(job, r));
    Listing(job, v, Imported, p.toImport) + Listing(job, v, Updated, p.toUpdate)
    + Listing(job, v, Attested, p.toSign) + Listing(job, v, SbomAttached, p.toSbom)
    + Listing(job, v, Skipped, Unchanged(job, v, p)) + AliasListing(v)
  }

  lemma {:induction false} EntriesConcat(a: seq<Work>, b: seq<Work>, oks: seq<bool>, dry: bool, name: Option<string>)
    requires |oks| == |a| + |b|
    ensures Entries(a + b, oks, dry, name) == Entries(a, oks[..|a|], dry, name) + Entries(b, oks[|a|..], dry, name)
  {
    if b == [] {
      assert a + b == a && oks[..|a|] == oks;
    } else {
      var n := |b| - 1;
      EntriesConcat(a, b[..n], oks[..|a| + n], dry, name);
      assert (a + b)[..|a| + n] == a + b[..n] && (a + b)[|a| + n] == b[n];
      assert oks[..|a| + n][..|a|] == oks[..|a|] && oks[..|a| + n][|a|..] == oks[|a|..][..n];
    }
  }

  lemma {:induction false} EntriesOther(ws: seq<Work>, oks: seq<bool>, dry: bool, name: Option<string>)
    requires |oks| == |ws| && forall w | w in ws :: VariantOf(w) != name
    ensures Entries(ws, oks, dry, name) == []
  {
    if ws != [] {
      var n := |ws| - 1;
      assert ws[n] in ws && forall w | w in ws[..n] :: w in ws;
      EntriesOther(ws[..n], oks[..n], dry, name);
    }
  }

  lemma {:induction false} EntriesOwn(ws: seq<Work>, oks: seq<bool>, dry: bool, name: Option<string>)
    requires |oks| == |ws| && forall w | w in ws :: VariantOf(w) == name
    ensures |Entries(ws, oks, dry, name)| == |ws|
    ensures forall i | 0 <= i < |ws| :: Entries(ws, oks, dry, name)[i] == Outcome(ws[i].op, oks[i], dry)
  {
    if ws != [] {
      var n := |ws| - 1;
      assert ws[n] in ws && forall w | w in ws[..n] :: w in ws;
      EntriesOwn(ws[..n], oks[..n], dry, name);
    }
  }

  ghost predicate Belong(ws: seq<Work>, v: Variant) { forall w | w in ws :: w.vplan == Some(v) }

  /** Flattened stage work, variant by variant. */
  ghost predicate Flattened(all: seq<Work>, variants: seq<Variant>, of: Variant -> seq<Work>)
    decreases |variants|
  {
    if variants == [] then all == []
    else
      var n := |variants| - 1;
      var mine := of(variants[n]);
      && |mine| <= |all| && all[|all| - |mine|..] == mine && Belong(mine, variants[n])
      && Flattened(all[..|all| - |mine|], variants[..n], of)
  }

  lemma {:induction false} FlattenedEntries(all: seq<Work>, variants: seq<Variant>, of: Variant -> seq<Work>,
                                            oks: seq<bool>, dry: bool, v: Variant)
    requires Flattened(all, variants, of) && |oks| == |all|
    requires NoDup(variants) && forall u | u in variants && u.name == v.name :: u == v
    ensures var e := Outlines(Entries(all, oks, dry, Some(v.name)));
            if v in variants then |e| == |of(v)| && forall i | 0 <= i < |e| ::
                e[i] == OutlineOf(of(v)[i].op) else e == []
    decreases |variants|
  {
    if variants != [] {
      hide Entries, Outcome;
      var n := |variants| - 1;
      var u, rest := variants[n], variants[..n];
      assert variants == rest + [u] && u !in rest;
      var mine := of(u);
      var k := |all| - |mine|;
      var before := all[..k];
      assert all == before + mine;
      EntriesConcat(before, mine, oks, dry, Some(v.name));
      FlattenedEntries(before, rest, of, oks[..k], dry, v);
      if u == v {
        OwnOutlines(mine, oks[k..], dry, v);
      } else {
        EntriesOther(mine, oks[k..], dry, Some(v.name));
      }
    }
  }

  lemma OwnOutlines(mine: seq<Work>, oks: seq<bool>, dry: bool, v: Variant)
    requires |oks| == |mine| && Belong(mine, v)
    ensures var e := Outlines(Entries(mine, oks, dry, Some(v.name)));
            |e| == |mine| && forall i | 0 <= i < |e| :: e[i] == OutlineOf(mine[i].op)
  {
    EntriesOwn(mine, oks, dry, Some(v.name));
  }

  ghost function ImportsOf(job: Job, build: Builder, r: Repo): Variant -> seq<Work> {
    v => VariantImports(job, build, r, v)
  }

  ghost function SignsOf(job: Job, r: Repo): Variant -> seq<Work> { v => VariantSigns(job, r, v) }

  ghost function SbomsOf(job: Job, r: Repo): Variant -> seq<Work> { v => VariantSboms(job, r, v) }

  ghost function AliasesOf(): Variant -> seq<Work> { v => VariantAliases(v) }

  lemma FlattenedStep(before: seq<Work>, mine: seq<Work>, variants: seq<Variant>, of: Variant -> seq<Work>)
    requires variants != [] && mine == of(variants[|variants| - 1]) && Belong(mine, variants[|variants| - 1])
    requires Flattened(before, variants[..|variants| - 1], of)
    ensures Flattened(before + mine, variants, of)
  {
    var all := before + mine;
    assert all[|all| - |mine|..] == mine && all[..|all| - |mine|] == before;
  }

  lemma Belonging(job: Job, build: Builder, r: Repo, v: Variant)
    ensures Belong(VariantImports(job, build, r, v), v) && Belong(VariantSigns(job, r, v), v)
    ensures Belong(VariantSboms(job, r, v), v) && Belong(VariantAliases(v), v)
  {
    hide MirrorOf, PlaceEffects, SignEffects, CoverEffects, Absent, TextAt, VariantPlan, IsMirrored, Suffixed;
  }

  lemma {:induction false} StagesAreFlattened(job: Job, build: Builder, r: Repo, variants: seq<Variant>)
    ensures Flattened(ImportWorks(job, build, r, variants), variants, ImportsOf(job, build, r))
    ensures Flattened(SignWorks(job, r, variants), variants, SignsOf(job, r))
    ensures Flattened(SbomWorks(job, r, variants), variants, SbomsOf(job, r))
    ensures Flattened(AliasWorks(variants), variants, AliasesOf())
  {
    if variants != [] {
      hide Flattened, Belong, VariantImports, VariantSigns, VariantSboms, VariantAliases;
      var n := |variants| - 1;
      var u := variants[n];
      StagesAreFlattened(job, build, r, variants[..n]);
      Belonging(job, build, r, u);
      FlattenedStep(ImportWorks(job, build, r, variants[..n]), VariantImports(job, build, r, u), variants,
          ImportsOf(job, build, r));
      FlattenedStep(SignWorks(job, r, variants[..n]), VariantSigns(job, r, u), variants, SignsOf(job, r));
      FlattenedStep(SbomWorks(job, r, variants[..n]), VariantSboms(job, r, u), variants, SbomsOf(job, r));
      FlattenedStep(AliasWorks(variants[..n]), VariantAliases(u), variants, AliasesOf());
    }
  }

  lemma {:induction false} SkippedOutlines(job: Job, v: Variant, p: VariantReconcile, tags: seq<Tag>)
    ensures Outlines(SkippedOps(job, v, p, tags)) == Listing(job, v, Skipped, Filter(tags, (s: Tag) => !Changed(p, s)))
  {
    if tags != [] {
      SkippedOutlines(job, v, p, tags[..|tags| - 1]);
    }
  }

  ghost predicate Separable(job: Job) { NoDup(job.variants) && DistinctVariantNames(job) }

  /** What a variant's report lists is determined by the plan: neither dry runs nor failures change it. */
  lemma VariantReportIs(job: Job, build: Builder, r: Repo, dry: bool, o: Outcomes, v: Variant)
    requires Separable(job) && v in job.variants
    requires |o.imports| == |ImportWorks(job, build, r, job.variants)| && |o.signs| == |SignWorks(job, r, job.variants)|
    requires |o.sboms| == |SbomWorks(job, r, job.variants)| && |o.aliases| == |AliasWorks(job.variants)|
    ensures Outlines(ReportVariant(job, build, r, dry, o, v).operations) == Expected(job, r, v)
  {
    hide ImportWorks, SignWorks, SbomWorks, AliasWorks, Flattened, MirrorOf, Entries, SkippedOps;
    hide VariantImports, VariantSigns, VariantSboms, VariantAliases, VariantPlan, Listing, AliasListing;
    StagesAreFlattened(job, build, r, job.variants);
    FlattenedEntries(ImportWorks(job, build, r, job.variants), job.variants, ImportsOf(job, build, r), o.imports, dry,
        v);
    FlattenedEntries(SignWorks(job, r, job.variants), job.variants, SignsOf(job, r), o.signs, dry, v);
    FlattenedEntries(SbomWorks(job, r, job.variants), job.variants, SbomsOf(job, r), o.sboms, dry, v);
    FlattenedEntries(AliasWorks(job.variants), job.variants, AliasesOf(), o.aliases, dry, v);
    var p := VariantPlan(job, v, MirrorOf(job, r));
    SkippedOutlines(job, v, p, v.tags);
    WorkOutlines(job, build, r, v);
    var e1 := Entries(ImportWorks(job, build, r, job.variants), o.imports, dry, Some(v.name));
    var e2 := Entries(SignWorks(job, r, job.variants), o.signs, dry, Some(v.name));
    var e3 := Entries(SbomWorks(job, r, job.variants), o.sboms, dry, Some(v.name));
    var e5 := Entries(AliasWorks(job.variants), o.aliases, dry, Some(v.name));
    assert Outlines(e1) == Outlines(Planneds(VariantImports(job, build, r, v)));
    assert Outlines(e2) == Outlines(Planneds(VariantSigns(job, r, v)));
    assert Outlines(e3) == Outlines(Planneds(VariantSboms(job, r, v)));
    assert Outlines(e5) == Outlines(Planneds(VariantAliases(v)));
    JoinOutlines(e1, e2, e3, SkippedOps(job, v, p, v.tags), e5);
  }

  lemma JoinOutlines(a: seq<Operation>, b: seq<Operation>, c: seq<Operation>, d: seq<Operation>, e: seq<Operation>)
    ensures Outlines(a + b + c + d + e) == Outlines(a) + Outlines(b) + Outlines(c) + Outlines(d) + Outlines(e)
  {
  }

  lemma WorkOutlines(job: Job, build: Builder, r: Repo, v: Variant)
    ensures var p := VariantPlan(job, v, MirrorOf(job, r));
            && Outlines(Planneds(VariantImports(job, build, r, v))) ==
                Listing(job, v, Imported, p.toImport) + Listing(job, v, Updated, p.toUpdate)
            && Outlines(Planneds(VariantSigns(job, r, v))) == Listing(job, v, Attested, p.toSign)
            && Outlines(Planneds(VariantSboms(job, r, v))) == Listing(job, v, SbomAttached, p.toSbom)
            && Outlines(Planneds(VariantAliases(v))) == AliasListing(v)
  {
    hide MirrorOf, PlaceEffects, SignEffects, CoverEffects, Absent, TextAt, VariantPlan, IsMirrored;
  }

  /** Every selected tag is listed as imported, as updated, as skipped, or with the backfills it needs. */
  lemma SelectedTagReported(job: Job, r: Repo, v: Variant, s: Tag)
    requires Consistent(job) && v in job.variants && s in v.tags
    ensures var p := VariantPlan(job, v, MirrorOf(job, r));
            && ExactlyOne(s in p.toImport, s in p.toUpdate, s in Unchanged(job, v, p) || s in p.toSign || s in p.toSbom)
            && (s in Unchanged(job, v, p) <==> !(s in p.toImport || s in p.toUpdate || s in p.toSign || s in p.toSbom))
  {
    hide MirrorOf, Decide, Absent;
    PlanPartition(job, r, v, s);
  }

  // ---- a dry run is a faithful preview ------------------------------------------------------------------------------

  datatype Preview = Preview(variants: seq<(string, seq<Outline>)>, target: seq<Outline>)

  ghost function PreviewOf(t: TargetReport): Preview {
    Preview(seq(|t.variants|, i requires 0 <= i < |t.variants| => (t.variants[i].name,
        Outlines(t.variants[i].operations))),
            Outlines(t.operations))
  }

  function TargetListing(kind: Kind, tags: seq<Tag>): (r: seq<Outline>)
    ensures |r| == |tags| && forall i | 0 <= i < |tags| :: r[i] == Outline(kind, tags[i], None, None)
  {
    seq(|tags|, i requires 0 <= i < |tags| => Outline(kind, tags[i], None, None))
  }

  /** Dropped tags are deleted, or in mark mode marked unless they carry a mark; the excess is marked in either. */
  ghost function ExpectedTarget(job: Job, r: Repo): seq<Outline> {
    var p := PlanOf(job, r);
    (if job.mode == Purge then TargetListing(Deleted, p.toDelete)
     else TargetListing(Marked, Filter(p.toDelete, (t: Tag) => t !in MarkedOn(r, false) && t !in MarkedOn(r, true))))
    + TargetListing(Marked, p.toMarkRetention)
  }

  lemma {:induction false} FilterAgrees(tags: seq<Tag>, p: Tag -> bool, q: Tag -> bool)
    ensures (forall t | t in tags :: p(t) <==> q(t)) ==> Filter(tags, p) == Filter(tags, q)
    ensures (forall t | t in tags :: p(t)) ==> Filter(tags, p) == tags
  {
    if tags != [] {
      var n := |tags| - 1;
      assert tags == tags[..n] + [tags[n]];
      FilterAgrees(tags[..n], p, q);
    }
  }

  lemma MarkOutlines(job: Job, reason: string, tags: seq<Tag>)
    ensures Outlines(Planneds(Each(tags, MarkWork(job, reason)))) == TargetListing(Marked, tags)
  {
  }

  lemma DeleteOutlines(tags: seq<Tag>)
    ensures Outlines(Planneds(Each(tags, DeleteWork()))) == TargetListing(Deleted, tags)
  {
  }

  lemma SelectionOutlines(job: Job, r: Repo)
    ensures var drop := PlanOf(job, r).toDelete;
            Outlines(Planneds(SelectionWorks(job, r))) ==
              if job.mode == Purge then TargetListing(Deleted, drop)
              else TargetListing(Marked, Filter(drop, (t: Tag) => t !in MarkedOn(r, false) && t !in MarkedOn(r, true)))
  {
    hide PlanOf, MarkedOn, Outlines, Planneds, TargetListing, MarkWork, Filter;
    var drop := PlanOf(job, r).toDelete;
    var listed := Filter(drop, t => t !in MarkedSelection(r) + MarkedRetention(r));
    FilterAgrees(drop, t => t !in MarkedSelection(r) + MarkedRetention(r),
        (t: Tag) => t !in MarkedOn(r, false) && t !in MarkedOn(r, true));
    DeleteOutlines(drop);
    MarkOutlines(job, DROPPED, listed);
  }

  lemma RetentionOutlines(job: Job, r: Repo)
    ensures Outlines(Planneds(RetentionWorks(job, r))) == TargetListing(Marked, PlanOf(job, r).toMarkRetention)
  {
    hide PlanOf, MarkedOn, Outlines, Planneds, TargetListing, MarkWork, Filter;
    var list := PlanOf(job, r).toMarkRetention;
    RetainList(job, r);
    FilterAgrees(list, t => t !in MarkedRetention(r), t => t !in MarkedRetention(r));
    MarkOutlines(job, RETENTION_EXCESS, list);
  }

  lemma {:induction false} VariantReportsAre(job: Job, build: Builder, r: Repo, dry: bool, o: Outcomes,
                                             variants: seq<Variant>)
    requires |o.imports| == |ImportWorks(job, build, r, job.variants)| && |o.signs| == |SignWorks(job, r, job.variants)|
    requires |o.sboms| == |SbomWorks(job, r, job.variants)| && |o.aliases| == |AliasWorks(job.variants)|
    ensures var rs := VariantReports(job, build, r, dry, o, variants);
            |rs| == |variants| && forall i | 0 <= i < |rs| :: rs[i] == ReportVariant(job, build, r, dry, o, variants[i])
  {
    hide ImportWorks, SignWorks, SbomWorks, AliasWorks, ReportVariant;
    if variants != [] {
      VariantReportsAre(job, build, r, dry, o, variants[..|variants| - 1]);
    }
  }

  lemma NoVariant(job: Job, r: Repo)
    ensures forall w | w in SelectionWorks(job, r) + RetentionWorks(job, r) :: VariantOf(w).None?
  {
    hide PlanOf, MarkedOn;
  }

  lemma TwoOutlines(a: seq<Operation>, b: seq<Operation>)
    ensures Outlines(a + b) == Outlines(a) + Outlines(b)
  {
  }

  lemma OwnEntries(ws: seq<Work>, oks: seq<bool>, dry: bool, name: Option<string>)
    requires |oks| == |ws| && forall w | w in ws :: VariantOf(w) == name
    ensures Outlines(Entries(ws, oks, dry, name)) == Outlines(Planneds(ws))
  {
    EntriesOwn(ws, oks, dry, name);
  }

  lemma LifecycleReported(job: Job, r: Repo, a: seq<bool>, b: seq<bool>, dry: bool)
    requires |a| == |SelectionWorks(job, r)| && |b| == |RetentionWorks(job, r)|
    ensures Outlines(Entries(SelectionWorks(job, r), a, dry, None) + Entries(RetentionWorks(job, r), b, dry, None)) ==
              ExpectedTarget(job, r)
  {
    hide Entries, SelectionWorks, RetentionWorks, Outlines, Planneds, TargetListing, PlanOf, MarkedOn, Filter;
    NoVariant(job, r);
    OwnEntries(SelectionWorks(job, r), a, dry, None);
    OwnEntries(RetentionWorks(job, r), b, dry, None);
    SelectionOutlines(job, r);
    RetentionOutlines(job, r);
    TwoOutlines(Entries(SelectionWorks(job, r), a, dry, None), Entries(RetentionWorks(job, r), b, dry, None));
    EntriesOwn(SelectionWorks(job, r), a, dry, None);
    EntriesOwn(RetentionWorks(job, r), b, dry, None);
  }

  /** The report of every run from one state: dry or applied, whatever fails, whatever is built. */
  lemma ReportIs(job: Job, build: Builder, sw: Switches, outage: Effect -> bool, r: Repo)
    requires Separable(job)
    ensures var x := PreviewOf(Report(job, build, sw, outage, r));
            && |x.variants| == |job.variants|
            && (forall i | 0 <= i < |job.variants| ::
                x.variants[i] == (job.variants[i].name, Expected(job, r, job.variants[i])))
            && x.target == ExpectedTarget(job, r)
  {
    hide ImportWorks, SignWorks, SbomWorks, AliasWorks, Expected, ExpectedTarget, SelectionWorks;
    hide RetentionWorks, Entries, Stage, VariantReports;
    var (r4, o) := AfterTags(job, build, sw.dryTags, outage, r);
    var (_, a, b) := AfterMarks(job, sw.dryDeletions, outage, r, r4);
    VariantReportsAre(job, build, r, sw.dryTags, o, job.variants);
    forall i | 0 <= i < |job.variants|
      ensures Outlines(ReportVariant(job, build, r, sw.dryTags, o, job.variants[i]).operations) ==
                Expected(job, r, job.variants[i])
    {
      VariantReportIs(job, build, r, sw.dryTags, o, job.variants[i]);
    }
    LifecycleReported(job, r, a, b, sw.dryDeletions);
  }

  /** A full dry run reports what an applied run from the same state reports, and changes nothing. */
  lemma FaithfulPreview(job: Job, build: Builder, r: Repo, outage: Effect -> bool)
    requires Separable(job)
    ensures PreviewOf(Report(job, build, Switches(true, true), outage, r)) ==
              PreviewOf(Report(job, build, APPLY, NoOutage(), r))
    ensures Run(job, build, Switches(true, true), outage, r) == r
  {
    hide Report, Run, Expected, ExpectedTarget, PreviewOf;
    ReportIs(job, build, Switches(true, true), outage, r);
    ReportIs(job, build, APPLY, NoOutage(), r);
    DryRunChangesNothing(job, build, outage, r);
  }
}
