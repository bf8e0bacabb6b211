/**
 What a run reports of each operation (the `_do_` functions of knock/use_cases/reconcile_registry.py):
 failed exactly when one of its calls failed, applied exactly when all of them were carried out,
 and neither in a dry run or for a skipped tag.
 */
module Reported {
  import opened Wrappers
  import opened Sorting
  import opened Registry
  import opened Reconcile
  import opened Apply
  import opened Runs
  import opened Stages
  import opened Preview

  /** Item `i` of a stage that starts in `r`: its calls, made after the items before it, all succeed. */
  ghost predicate Succeeds(ws: seq<Work>, i: nat, r: Repo, outage: Effect -> bool)
    requires i < |ws|
  {
    RunItem(ws[i].effects, RunStage(EffectsOf(ws, false)[..i], r, outage).0, outage).1
  }

  ghost predicate ReportedAs(op: Operation, w: Work, dry: bool, succeeds: bool) {
    && OutlineOf(op) == OutlineOf(w.op)
    && (op.applied <==> !dry && succeeds)
    && (op.failed <==> !dry && !succeeds)
  }

  lemma {:induction false} StageOutcome(items: seq<seq<Effect>>, i: nat, r: Repo, outage: Effect -> bool)
    requires i < |items|
    ensures RunStage(items, r, outage).1[i] == RunItem(items[i], RunStage(items[..i], r, outage).0, outage).1
  {
    if i == 0 {
      assert items[..0] == [];
    } else {
      hide RunItem;
      var r1 := RunItem(items[0], r, outage).0;
      StageOutcome(items[1..], i - 1, r1, outage);
      assert items[..i][1..] == items[1..][..i - 1] && items[..i][0] == items[0];
    }
  }

  lemma {:induction false} DryOutcomes(items: seq<seq<Effect>>, r: Repo, outage: Effect -> bool)
    requires forall i | 0 <= i < |items| :: items[i] == []
    ensures AllTrue(RunStage(items, r, outage).1)
  {
    if items != [] {
      DryOutcomes(items[1..], r, outage);
    }
  }

  /** The two ways round: each entry is of some item, and each item of the variant has an entry. */
  lemma {:induction false} EntriesAre(ws: seq<Work>, oks: seq<bool>, dry: bool, name: Option<string>)
    requires |ws| == |oks|
    ensures forall op | op in Entries(ws, oks, dry, name) ::
              exists i :: 0 <= i < |ws| && VariantOf(ws[i]) == name && op == Outcome(ws[i].op, oks[i], dry)
    ensures forall i | 0 <= i < |ws| && VariantOf(ws[i]) == name ::
              Outcome(ws[i].op, oks[i], dry) in Entries(ws, oks, dry, name)
  {
    hide Outcome, VariantOf;
    if ws != [] {
      var n := |ws| - 1;
      EntriesAre(ws[..n], oks[..n], dry, name);
      forall op | op in Entries(ws[..n], oks[..n], dry, name)
        ensures exists i :: 0 <= i < |ws| && VariantOf(ws[i]) == name && op == Outcome(ws[i].op, oks[i], dry)
      {
        var i :| 0 <= i < n && VariantOf(ws[..n][i]) == name && op == Outcome(ws[..n][i].op, oks[..n][i], dry);
        assert ws[i] == ws[..n][i] && oks[i] == oks[..n][i];
      }
      forall i | 0 <= i < |ws| && VariantOf(ws[i]) == name
        ensures Outcome(ws[i].op, oks[i], dry) in Entries(ws, oks, dry, name)
      {
        if i < n {
          assert ws[..n][i] == ws[i] && oks[..n][i] == oks[i];
        }
      }
    }
  }

  /** Every operation listed for the variant is one of the stage's items, with what became of it. */
  ghost predicate ItemOf(ws: seq<Work>, r: Repo, outage: Effect -> bool, dry: bool, name: Option<string>,
                         op: Operation) {
    exists i :: 0 <= i < |ws| && VariantOf(ws[i]) == name && ReportedAs(op, ws[i], dry, Succeeds(ws, i, r, outage))
  }

  /** Every item of the variant is listed, with what became of it. */
  ghost predicate AllListed(ws: seq<Work>, r: Repo, outage: Effect -> bool, dry: bool, name: Option<string>,
                            ops: seq<Operation>) {
    forall i | 0 <= i < |ws| && VariantOf(ws[i]) == name ::
      exists op :: op in ops && ReportedAs(op, ws[i], dry, Succeeds(ws, i, r, outage))
  }

  lemma StageReported(ws: seq<Work>, dry: bool, r: Repo, outage: Effect -> bool, name: Option<string>)
    requires forall i | 0 <= i < |ws| :: !ws[i].op.applied && !ws[i].op.failed
    ensures var ops := Entries(ws, Stage(ws, dry, r, outage).1, dry, name);
            && (forall op | op in ops :: ItemOf(ws, r, outage, dry, name, op))
            && AllListed(ws, r, outage, dry, name, ops)
  {
    hide RunStage, RunItem, Entries;
    var oks := Stage(ws, dry, r, outage).1;
    EntriesAre(ws, oks, dry, name);
    if dry {
      DryOutcomes(EffectsOf(ws, true), r, outage);
    }
    forall i | 0 <= i < |ws|
      ensures ReportedAs(Outcome(ws[i].op, oks[i], dry), ws[i], dry, Succeeds(ws, i, r, outage))
    {
      StageOutcome(EffectsOf(ws, false), i, r, outage);
    }
  }

  // ---- the whole report ---------------------------------------------------------------------------------

  ghost predicate Fresh(ws: seq<Work>) { forall w | w in ws :: !w.op.applied && !w.op.failed }

  lemma VariantFresh(job: Job, build: Builder, r: Repo, v: Variant)
    ensures Fresh(VariantImports(job, build, r, v)) && Fresh(VariantSigns(job, r, v))
    ensures Fresh(VariantSboms(job, r, v)) && Fresh(VariantAliases(v))
  {
    hide VariantPlan, PlaceEffects, SignEffects, CoverEffects, Absent, TextAt, IsMirrored, MirrorOf, Suffixed;
  }

  lemma {:induction false} TagWorksFresh(job: Job, build: Builder, r: Repo, variants: seq<Variant>)
    ensures Fresh(ImportWorks(job, build, r, variants)) && Fresh(SignWorks(job, r, variants))
    ensures Fresh(SbomWorks(job, r, variants)) && Fresh(AliasWorks(variants))
  {
    if variants != [] {
      hide VariantImports, VariantSigns, VariantSboms, VariantAliases;
      TagWorksFresh(job, build, r, variants[..|variants| - 1]);
      VariantFresh(job, build, r, variants[|variants| - 1]);
    }
  }

  lemma MarkWorksFresh(job: Job, r: Repo)
    ensures Fresh(SelectionWorks(job, r)) && Fresh(RetentionWorks(job, r))
  {
    hide PlanOf, MarkedOn;
  }

  datatype Slot = Slot(works: seq<Work>, before: Repo)

  /** The stages over a variant's tags, each with the repository it starts from. */
  ghost function TagStages(job: Job, build: Builder, dry: bool, outage: Effect -> bool, r: Repo): (s: seq<Slot>)
    ensures |s| == 4
  {
    var r1 := Stage(ImportWorks(job, build, r, job.variants), dry, r, outage).0;
    var r2 := Stage(SignWorks(job, r, job.variants), dry, r1, outage).0;
    var r3 := Stage(SbomWorks(job, r, job.variants), dry, r2, outage).0;
    [Slot(ImportWorks(job, build, r, job.variants), r), Slot(SignWorks(job, r, job.variants), r1),
     Slot(SbomWorks(job, r, job.variants), r2), Slot(AliasWorks(job.variants), r3)]
  }

  /** The stages of the whole destination: deletions or marks, then retention marks. */
  ghost function TargetStages(job: Job, build: Builder, sw: Switches, outage: Effect -> bool, r: Repo): (s: seq<Slot>)
    ensures |s| == 2
  {
    var r4 := AfterTags(job, build, sw.dryTags, outage, r).0;
    var r5 := Stage(SelectionWorks(job, r), sw.dryDeletions, r4, outage).0;
    [Slot(SelectionWorks(job, r), r4), Slot(RetentionWorks(job, r), r5)]
  }

  ghost predicate Idle(op: Operation) { op.kind == Skipped && !op.applied && !op.failed }

  ghost predicate SlotItem(s: Slot, outage: Effect -> bool, dry: bool, name: Option<string>, op: Operation) {
    ItemOf(s.works, s.before, outage, dry, name, op)
  }

  ghost predicate SlotListed(s: Slot, outage: Effect -> bool, dry: bool, name: Option<string>, ops: seq<Operation>) {
    AllListed(s.works, s.before, outage, dry, name, ops)
  }

  lemma SlotReported(s: Slot, dry: bool, outage: Effect -> bool, name: Option<string>)
    requires Fresh(s.works)
    ensures var ops := Entries(s.works, Stage(s.works, dry, s.before, outage).1, dry, name);
            (forall op | op in ops :: SlotItem(s, outage, dry, name, op)) && SlotListed(s, outage, dry, name, ops)
  {
    forall i | 0 <= i < |s.works| ensures !s.works[i].op.applied && !s.works[i].op.failed {
      assert s.works[i] in s.works;
    }
    StageReported(s.works, dry, s.before, outage, name);
  }

  lemma ListedInMore(s: Slot, outage: Effect -> bool, dry: bool, name: Option<string>, ops: seq<Operation>,
                     more: seq<Operation>)
    requires SlotListed(s, outage, dry, name, ops) && forall op | op in ops :: op in more
    ensures SlotListed(s, outage, dry, name, more)
  {
    hide ReportedAs, Succeeds;
  }

  lemma {:induction false} SkippedIdle(job: Job, v: Variant, p: VariantReconcile, tags: seq<Tag>)
    ensures forall op | op in SkippedOps(job, v, p, tags) :: Idle(op)
  {
    if tags != [] {
      SkippedIdle(job, v, p, tags[..|tags| - 1]);
    }
  }

  ghost function SlotEntries(s: Slot, dry: bool, outage: Effect -> bool, name: Option<string>): seq<Operation> {
    Entries(s.works, Stage(s.works, dry, s.before, outage).1, dry, name)
  }

  /** What is listed is the entries of these stages in turn. */
  lemma {:induction false} SlotsReported(slots: seq<Slot>, dry: bool, outage: Effect -> bool, name: Option<string>,
                                         ops: seq<Operation>)
    requires forall k | 0 <= k < |slots| :: Fresh(slots[k].works)
    requires forall op | op in ops :: Idle(op) || exists k :: 0 <= k < |slots| && op in SlotEntries(slots[k], dry,
                 outage, name)
    requires forall k, op | 0 <= k < |slots| && op in SlotEntries(slots[k], dry, outage, name) :: op in ops
    ensures forall op | op in ops ::
              Idle(op) || exists k :: 0 <= k < |slots| && SlotItem(slots[k], outage, dry, name, op)
    ensures forall k | 0 <= k < |slots| :: SlotListed(slots[k], outage, dry, name, ops)
  {
    hide Fresh, Idle, SlotItem, SlotListed, Entries, Stage;
    forall k | 0 <= k < |slots|
      ensures forall op | op in SlotEntries(slots[k], dry, outage, name) :: SlotItem(slots[k], outage, dry, name, op)
      ensures SlotListed(slots[k], outage, dry, name, ops)
    {
      SlotReported(slots[k], dry, outage, name);
      ListedInMore(slots[k], outage, dry, name, SlotEntries(slots[k], dry, outage, name), ops);
    }
  }

  lemma VariantEntries(job: Job, build: Builder, sw: Switches, outage: Effect -> bool, r: Repo, j: nat)
    requires j < |job.variants|
    ensures var s := TagStages(job, build, sw.dryTags, outage, r);
            var v := job.variants[j];
            var name := Some(v.name);
            var reports := Report(job, build, sw, outage, r).variants;
            && |reports| == |job.variants|
            && reports[j].operations ==
               SlotEntries(s[0], sw.dryTags, outage, name) + SlotEntries(s[1], sw.dryTags, outage, name)
               + SlotEntries(s[2], sw.dryTags, outage, name)
               + SkippedOps(job, v, VariantPlan(job, v, MirrorOf(job, r)), v.tags)
               + SlotEntries(s[3], sw.dryTags, outage, name)
  {
    hide ImportWorks, SignWorks, SbomWorks, AliasWorks, Entries, Stage, AfterMarks, VariantReports, SkippedOps;
    hide VariantPlan, MirrorOf, SelectionWorks, RetentionWorks;
    var (_, o) := AfterTags(job, build, sw.dryTags, outage, r);
    VariantReportsAre(job, build, r, sw.dryTags, o, job.variants);
  }

  /**
   The operations reported for a variant are its items of the four stages, each with what
   became of its calls, and its skipped tags.
   */
  lemma VariantOutcomes(job: Job, build: Builder, sw: Switches, outage: Effect -> bool, r: Repo, j: nat)
    requires j < |job.variants|
    ensures var stages := TagStages(job, build, sw.dryTags, outage, r);
            var name := Some(job.variants[j].name);
            var reports := Report(job, build, sw, outage, r).variants;
            && |reports| == |job.variants|
            && (forall op | op in reports[j].operations ::
                Idle(op) || exists k :: 0 <= k < 4 && SlotItem(stages[k], outage, sw.dryTags, name, op))
            && (forall k | 0 <= k < 4 :: SlotListed(stages[k], outage, sw.dryTags, name, reports[j].operations))
  {
    hide SlotEntries, SkippedOps, VariantPlan, Report, TagStages, SlotItem, SlotListed, Idle, Fresh, MirrorOf;
    var v, stages := job.variants[j], TagStages(job, build, sw.dryTags, outage, r);
    VariantEntries(job, build, sw, outage, r, j);
    StagesFresh(job, build, sw, outage, r);
    SkippedIdle(job, v, VariantPlan(job, v, MirrorOf(job, r)), v.tags);
    SlotsReported(stages, sw.dryTags, outage, Some(v.name), Report(job, build, sw, outage, r).variants[j].operations);
  }

  lemma StagesFresh(job: Job, build: Builder, sw: Switches, outage: Effect -> bool, r: Repo)
    ensures forall k | 0 <= k < 4 :: Fresh(TagStages(job, build, sw.dryTags, outage, r)[k].works)
    ensures forall k | 0 <= k < 2 :: Fresh(TargetStages(job, build, sw, outage, r)[k].works)
  {
    hide ImportWorks, SignWorks, SbomWorks, AliasWorks, SelectionWorks, RetentionWorks, Stage, AfterTags, Fresh;
    TagWorksFresh(job, build, r, job.variants);
    MarkWorksFresh(job, r);
  }

  lemma TargetEntries(job: Job, build: Builder, sw: Switches, outage: Effect -> bool, r: Repo)
    ensures var s := TargetStages(job, build, sw, outage, r);
            Report(job, build, sw, outage, r).operations ==
              SlotEntries(s[0], sw.dryDeletions, outage, None) + SlotEntries(s[1], sw.dryDeletions, outage, None)
  {
    hide SelectionWorks, RetentionWorks, Entries, Stage, AfterTags, VariantReports;
  }

  /** So are those reported for the destination, of its two stages. */
  lemma TargetOutcomes(job: Job, build: Builder, sw: Switches, outage: Effect -> bool, r: Repo)
    ensures var stages := TargetStages(job, build, sw, outage, r);
            var ops := Report(job, build, sw, outage, r).operations;
            && (forall op | op in ops ::
                Idle(op) || exists k :: 0 <= k < 2 && SlotItem(stages[k], outage, sw.dryDeletions, None, op))
            && (forall k | 0 <= k < 2 :: SlotListed(stages[k], outage, sw.dryDeletions, None, ops))
  {
    hide SlotEntries, Report, TargetStages, SlotItem, SlotListed, Idle, Fresh;
    TargetEntries(job, build, sw, outage, r);
    StagesFresh(job, build, sw, outage, r);
    SlotsReported(TargetStages(job, build, sw, outage, r), sw.dryDeletions, outage, None,
        Report(job, build, sw, outage, r).operations);
  }
}
