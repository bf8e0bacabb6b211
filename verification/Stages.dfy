/**
 Stage confluence (_run_stage in knock/use_cases/reconcile_registry.py): the items of a stage
 are submitted to a thread pool, so their calls interleave in any way. Every interleaving ends
 as the sequential order does, with outcomes in input order.
 */
module Stages {
  import opened Wrappers
  import opened Sorting
  import opened Registry
  import opened Retention
  import opened Reconcile
  import opened Apply
  import opened Runs

  // ---- interleaving the calls of items ---------------------------------------------------------------------

  /** How far an item has come: the calls it still has to make, and whether none failed so far. */
  datatype Progress = Progress(left: seq<Effect>, ok: bool)

  datatype Config = Config(items: seq<Progress>, repo: Repo)

  function Start(items: seq<seq<Effect>>): (ps: seq<Progress>)
    ensures |ps| == |items| && forall i | 0 <= i < |ps| :: ps[i] == Progress(items[i], true)
  {
    seq(|items|, i requires 0 <= i < |items| => Progress(items[i], true))
  }

  /** One item makes its next call, or gives up when the call fails. */
  function Advance(p: Progress, r: Repo, outage: Effect -> bool): (Progress, Repo) {
    if p.left == [] then (p, r)
    else if !Possible(p.left[0], r) || outage(p.left[0]) then (Progress([], false), r)
    else (Progress(p.left[1..], p.ok), Do(p.left[0], r))
  }

  /** A schedule says whose turn it is, call by call. */
  function Interleave(c: Config, schedule: seq<nat>, outage: Effect -> bool): (x: Config)
    requires forall i | i in schedule :: i < |c.items|
    ensures |x.items| == |c.items|
    decreases |schedule|
  {
    if schedule == [] then c
    else
      assert schedule[0] in schedule && forall i | i in schedule[1..] :: i in schedule;
      var (p, r) := Advance(c.items[schedule[0]], c.repo, outage);
      Interleave(Config(c.items[schedule[0] := p], r), schedule[1..], outage)
  }

  predicate Complete(c: Config) { forall p | p in c.items :: p.left == [] }

  function Calls(ps: seq<Progress>): nat {
    if ps == [] then 0 else Calls(ps[..|ps| - 1]) + |ps[|ps| - 1].left|
  }

  lemma {:induction false} CallsDrop(ps: seq<Progress>, i: nat, p: Progress)
    requires i < |ps| && |p.left| < |ps[i].left|
    ensures Calls(ps[i := p]) < Calls(ps)
  {
    var n := |ps| - 1;
    if i < n {
      CallsDrop(ps[..n], i, p);
      assert ps[i := p][..n] == ps[..n][i := p];
    } else {
      assert ps[i := p][..n] == ps[..n];
    }
  }

  /** From any point there is a way to the end: no item waits for another. */
  lemma {:induction false} SomeScheduleEnds(c: Config, outage: Effect -> bool) returns (schedule: seq<nat>)
    ensures forall i | i in schedule :: i < |c.items|
    ensures Complete(Interleave(c, schedule, outage))
    decreases Calls(c.items)
  {
    if Complete(c) {
      schedule := [];
    } else {
      var i :| 0 <= i < |c.items| && c.items[i].left != [];
      var (p, r) := Advance(c.items[i], c.repo, outage);
      CallsDrop(c.items, i, p);
      var rest := SomeScheduleEnds(Config(c.items[i := p], r), outage);
      schedule := [i] + rest;
      assert schedule[1..] == rest;
    }
  }

  // ---- independence ----------------------------------------------------------------------------------------------

  function Writes(e: Effect): set<Tag> {
    match e
    case Put(t, _) => {t}
    case Restamp(t, _) => {t}
    case Copy(_, to) => {to}
    case Untag(t) => {t}
    case Attach(_, _) => {}
    case AttachTo(_, _) => {}
    case Detach(_, _) => {}
  }

  function Touches(e: Effect): set<Tag> {
    match e
    case Put(t, _) => {t}
    case Restamp(t, _) => {t}
    case Copy(from, to) => {from, to}
    case Untag(t) => {t}
    case Attach(_, _) => {}
    case AttachTo(t, _) => {t}
    case Detach(_, _) => {}
  }

  predicate Independent(e: Effect, f: Effect) {
    !e.Detach? && !f.Detach? && Writes(e) !! Touches(f) && Writes(f) !! Touches(e)
  }

  lemma PossibleApart(e: Effect, f: Effect, r: Repo)
    requires Independent(e, f)
    ensures Possible(e, Do(f, r)) <==> Possible(e, r)
  {
  }

  lemma DoApart(e: Effect, f: Effect, r: Repo)
    requires Independent(e, f)
    ensures Do(e, Do(f, r)) == Do(f, Do(e, r))
  {
    PossibleApart(e, f, r);
    PossibleApart(f, e, r);
    if Possible(e, r) && Possible(f, r) {
      DoTagsApart(e, f, r);
      assert Do(e, Do(f, r)).attached == Do(f, Do(e, r)).attached;
    }
  }

  lemma DoTagsApart(e: Effect, f: Effect, r: Repo)
    requires Independent(e, f) && Possible(e, r) && Possible(f, r)
    ensures Do(e, Do(f, r)).tags == Do(f, Do(e, r)).tags
  {
    PossibleApart(e, f, r);
    PossibleApart(f, e, r);
    TagsWritten(e, r);
    TagsWritten(f, r);
    TagsWritten(e, Do(f, r));
    TagsWritten(f, Do(e, r));
    SameWrite(e, r, Do(f, r));
    SameWrite(f, r, Do(e, r));
    hide Do, Possible;
    var a, b := Do(e, Do(f, r)).tags, Do(f, Do(e, r)).tags;
    forall t ensures (t in a <==> t in b) && (t in a ==> a[t] == b[t]) {
    }
  }

  lemma TagsWritten(e: Effect, r: Repo)
    ensures forall t | t !in Writes(e) ::
              (t in Do(e, r).tags <==> t in r.tags) && (t in r.tags ==> Do(e, r).tags[t] == r.tags[t])
    ensures Writes(e) <= Touches(e)
  {
  }

  /** What a call writes depends only on the tags it touches. */
  lemma SameWrite(e: Effect, r: Repo, q: Repo)
    requires Possible(e, r) && Possible(e, q)
    requires forall t | t in Touches(e) :: (t in r.tags <==> t in q.tags) && (t in r.tags ==> r.tags[t] == q.tags[t])
    ensures forall t | t in Writes(e) ::
              (t in Do(e, r).tags <==> t in Do(e, q).tags) &&
                  (t in Do(e, r).tags ==> Do(e, r).tags[t] == Do(e, q).tags[t])
  {
  }

  predicate IndependentOf(e: Effect, item: seq<Effect>) { forall f | f in item :: Independent(e, f) }

  /** A call independent of an item can be made before it instead of after it. */
  lemma {:induction false} CallPastItem(e: Effect, item: seq<Effect>, r: Repo, outage: Effect -> bool)
    requires IndependentOf(e, item)
    ensures Possible(e, RunItem(item, r, outage).0) <==> Possible(e, r)
    ensures RunItem(item, Do(e, r), outage) == (Do(e, RunItem(item, r, outage).0), RunItem(item, r, outage).1)
  {
    hide Do, Possible, Independent;
    if item != [] {
      var f := item[0];
      assert f in item;
      PossibleApart(e, f, r);
      IndependentSym(e, f);
      PossibleApart(f, e, r);
      DoApart(e, f, r);
      if Possible(f, r) && !outage(f) {
        assert forall g | g in item[1..] :: g in item;
        CallPastItem(e, item[1..], Do(f, r), outage);
      }
    }
  }

  lemma IndependentSym(e: Effect, f: Effect)
    requires Independent(e, f)
    ensures Independent(f, e)
  {
  }

  // ---- every interleaving finishes alike ---------------------------------------------------------------------------

  /** The sequential run of what is left. */
  function Finish(ps: seq<Progress>, r: Repo, outage: Effect -> bool): (x: (Repo, seq<bool>))
    ensures |x.1| == |ps|
  {
    if ps == [] then (r, [])
    else
      var (r1, ok) := RunItem(ps[0].left, r, outage);
      var (r2, oks) := Finish(ps[1..], r1, outage);
      (r2, [ps[0].ok && ok] + oks)
  }

  lemma {:induction false} FinishStart(items: seq<seq<Effect>>, ps: seq<Progress>, r: Repo, outage: Effect -> bool)
    requires |ps| == |items| && forall i | 0 <= i < |ps| :: ps[i] == Progress(items[i], true)
    ensures Finish(ps, r, outage) == RunStage(items, r, outage)
  {
    if items != [] {
      FinishStart(items[1..], ps[1..], RunItem(items[0], r, outage).0, outage);
    }
  }

  lemma {:induction false} FinishComplete(ps: seq<Progress>, r: Repo, outage: Effect -> bool)
    requires forall p | p in ps :: p.left == []
    ensures Finish(ps, r, outage).0 == r
    ensures forall i | 0 <= i < |ps| :: Finish(ps, r, outage).1[i] == ps[i].ok
  {
    if ps != [] {
      assert ps[0] in ps;
      FinishComplete(ps[1..], r, outage);
    }
  }

  ghost predicate Apart(ps: seq<Progress>) {
    forall i, j | 0 <= i < |ps| && 0 <= j < |ps| && i != j :: forall e | e in ps[i].left :: IndependentOf(e, ps[j].left)
  }

  lemma AdvanceKeepsApart(ps: seq<Progress>, i: nat, r: Repo, outage: Effect -> bool)
    requires Apart(ps) && i < |ps|
    ensures Apart(ps[i := Advance(ps[i], r, outage).0])
  {
    var p := Advance(ps[i], r, outage).0;
    var qs := ps[i := p];
    assert forall e | e in p.left :: e in ps[i].left;
    forall j, k | 0 <= j < |qs| && 0 <= k < |qs| && j != k
      ensures forall e | e in qs[j].left :: IndependentOf(e, qs[k].left)
    {
      forall e | e in qs[j].left ensures IndependentOf(e, qs[k].left) {
        assert e in ps[j].left && IndependentOf(e, ps[k].left);
      }
    }
  }

  /** Whose turn it is makes no difference to where the rest ends. */
  lemma {:induction false} TurnDoesNotMatter(ps: seq<Progress>, i: nat, r: Repo, outage: Effect -> bool)
    requires Apart(ps) && i < |ps|
    ensures var (p, r') := Advance(ps[i], r, outage);
            Finish(ps[i := p], r', outage) == Finish(ps, r, outage)
    decreases |ps|
  {
    var (p, r') := Advance(ps[i], r, outage);
    var qs := ps[i := p];
    if ps[i].left == [] {
      assert qs == ps;
    } else if i == 0 {
      assert qs[1..] == ps[1..];
    } else {
      hide Do, Possible, Advance, RunItem, Independent, IndependentOf;
      var rest := ps[1..];
      assert qs[0] == ps[0] && qs[1..] == rest[i - 1 := p] && rest[i - 1] == ps[i];
      assert Apart(rest);
      TurnPastFirst(ps[0], ps[i], r, outage) by {
        forall e | e in ps[i].left ensures IndependentOf(e, ps[0].left) {
        }
      }
      TurnDoesNotMatter(rest, i - 1, RunItem(ps[0].left, r, outage).0, outage);
    }
  }

  /** Another item's call, made before the first item runs instead of after. */
  lemma TurnPastFirst(first: Progress, p: Progress, r: Repo, outage: Effect -> bool)
    requires forall e | e in p.left :: IndependentOf(e, first.left)
    ensures var r1 := RunItem(first.left, r, outage).0;
            var (q, r') := Advance(p, r, outage);
            Advance(p, r1, outage) == (q, RunItem(first.left, r', outage).0)
            && RunItem(first.left, r', outage).1 == RunItem(first.left, r, outage).1
  {
    hide Do, Possible, RunItem;
    if p.left != [] {
      assert p.left[0] in p.left;
      CallPastItem(p.left[0], first.left, r, outage);
    }
  }

  lemma {:induction false} InterleaveFinishes(c: Config, schedule: seq<nat>, outage: Effect -> bool)
    requires Apart(c.items) && forall i | i in schedule :: i < |c.items|
    ensures var x := Interleave(c, schedule, outage);
            Finish(x.items, x.repo, outage) == Finish(c.items, c.repo, outage)
    decreases |schedule|
  {
    if schedule != [] {
      var i := schedule[0];
      assert i in schedule && forall j | j in schedule[1..] :: j in schedule;
      var (p, r) := Advance(c.items[i], c.repo, outage);
      AdvanceKeepsApart(c.items, i, c.repo, outage);
      TurnDoesNotMatter(c.items, i, c.repo, outage);
      InterleaveFinishes(Config(c.items[i := p], r), schedule[1..], outage);
    }
  }

  ghost predicate ItemsApart(items: seq<seq<Effect>>) {
    forall i, j | 0 <= i < |items| && 0 <= j < |items| && i != j :: forall e, f | e in items[i] && f in items[j] ::
        Independent(e, f)
  }

  /** A way the pool can run a stage to its end: the repository it leaves and the outcomes in input order. */
  ghost predicate CanEnd(items: seq<seq<Effect>>, r: Repo, outage: Effect -> bool, schedule: seq<nat>, r': Repo,
                         oks: seq<bool>) {
    && (forall i | i in schedule :: i < |items|)
    && var c := Interleave(Config(Start(items), r), schedule, outage);
       Complete(c) && c.repo == r' && |oks| == |items| && forall i | 0 <= i < |items| :: oks[i] == c.items[i].ok
  }

  /** Every interleaving of a stage of independent items ends as the sequential stage does, outages included. */
  lemma StageConfluence(items: seq<seq<Effect>>, r: Repo, outage: Effect -> bool, schedule: seq<nat>, r': Repo,
                        oks: seq<bool>)
    requires ItemsApart(items) && CanEnd(items, r, outage, schedule, r', oks)
    ensures (r', oks) == RunStage(items, r, outage)
  {
    hide Independent, Advance;
    var ps := Start(items);
    assert Apart(ps) by {
      forall i, j | 0 <= i < |ps| && 0 <= j < |ps| && i != j
        ensures forall e | e in ps[i].left :: IndependentOf(e, ps[j].left)
      {
        forall e | e in ps[i].left ensures IndependentOf(e, ps[j].left) {
        }
      }
    }
    var c := Interleave(Config(ps, r), schedule, outage);
    InterleaveFinishes(Config(ps, r), schedule, outage);
    FinishStart(items, ps, r, outage);
    FinishComplete(c.items, c.repo, outage);
    assert oks == RunStage(items, r, outage).1;
  }

  // ---- the stages of a run ------------------------------------------------------------------------------------------

  /** Selections, variants and aliases are listed once each. */
  ghost predicate ListedOnce(job: Job) {
    && NoDup(job.variants)
    && (forall v | v in job.variants :: NoDup(v.tags) && NoDup(v.aliases))
  }

  /** Items on different output tags that touch nothing else. */
  ghost predicate OwnTag(item: seq<Effect>, t: Tag) {
    forall e | e in item :: !e.Detach? && Touches(e) <= {t}
  }

  lemma CoverTouchesNothing(job: Job, m: Manifest, formats: seq<string>)
    ensures forall e | e in CoverEffects(job, m, formats) :: e.Attach?
  {
  }

  lemma PlaceOwnTag(job: Job, build: Builder, v: Variant, s: Tag)
    requires s in job.source
    ensures OwnTag(PlaceEffects(job, build, v, s), s + v.suffix)
  {
    hide Placed, Unstamped, Stamp, CoverEffects;
    CoverTouchesNothing(job, Placed(job, build, v, s), job.formats);
  }

  /** Each work touches at most the output tag it reports, and those are all different. */
  ghost predicate OwnTags(ws: seq<Work>) {
    && (forall w | w in ws :: OwnTag(w.effects, w.op.outTag))
    && (forall i, j | 0 <= i < j < |ws| :: ws[i].op.outTag != ws[j].op.outTag)
  }

  lemma OwnTagsAreApart(ws: seq<Work>)
    requires OwnTags(ws)
    ensures ItemsApart(EffectsOf(ws, false))
  {
    var items := EffectsOf(ws, false);
    forall i, j, e, f | 0 <= i < |items| && 0 <= j < |items| && i != j && e in items[i] && f in items[j]
      ensures Independent(e, f)
    {
      assert ws[i] in ws && ws[j] in ws;
      WritesTouched(e);
      WritesTouched(f);
      assert ws[i].op.outTag != ws[j].op.outTag;
    }
  }

  lemma WritesTouched(e: Effect)
    ensures Writes(e) <= Touches(e)
  {
  }

  lemma JoinOwnTags(a: seq<Work>, b: seq<Work>)
    requires OwnTags(a) && OwnTags(b) && forall w, x | w in a && x in b :: w.op.outTag != x.op.outTag
    ensures OwnTags(a + b)
  {
    hide OwnTag;
    var ws := a + b;
    forall i, j | 0 <= i < j < |ws| ensures ws[i].op.outTag != ws[j].op.outTag {
      if i < |a| <= j {
        assert ws[i] in a && ws[j] in b;
      }
    }
  }

  lemma {:induction false} FilterNoDup(tags: seq<Tag>, keep: Tag -> bool)
    requires NoDup(tags)
    ensures NoDup(Filter(tags, keep))
  {
    if tags != [] {
      var n := |tags| - 1;
      assert tags == tags[..n] + [tags[n]];
      FilterNoDup(tags[..n], keep);
    }
  }

  lemma EachOwnTags(job: Job, build: Builder, v: Variant, kind: Kind, tags: seq<Tag>)
    requires NoDup(tags)
    ensures OwnTags(Each(tags, PlaceWork(job, build, v, kind)))
    ensures forall w | w in Each(tags, PlaceWork(job, build, v, kind)) :: exists s ::
              s in tags && w.op.outTag == s + v.suffix
  {
    hide PlaceEffects;
    var ws := Each(tags, PlaceWork(job, build, v, kind));
    forall i | 0 <= i < |ws| ensures OwnTag(ws[i].effects, ws[i].op.outTag) && ws[i].op.outTag == tags[i] + v.suffix {
      if tags[i] in job.source {
        PlaceOwnTag(job, build, v, tags[i]);
      }
    }
    forall i, j | 0 <= i < j < |ws| ensures ws[i].op.outTag != ws[j].op.outTag {
      SuffixApart(tags[i], tags[j], v.suffix);
    }
    forall w | w in ws ensures exists s :: s in tags && w.op.outTag == s + v.suffix {
      var i :| 0 <= i < |ws| && ws[i] == w;
      assert tags[i] in tags;
    }
  }

  lemma SuffixApart(a: Tag, b: Tag, suffix: string)
    requires a != b
    ensures a + suffix != b + suffix
  {
    assert (a + suffix)[..|a|] == a && (b + suffix)[..|b|] == b;
  }

  lemma VariantOwnTags(job: Job, build: Builder, r: Repo, v: Variant)
    requires NoDup(v.tags)
    ensures OwnTags(VariantImports(job, build, r, v))
    ensures forall w | w in VariantImports(job, build, r, v) :: w.op.outTag in OutTags(v)
  {
    hide Decide, MirrorOf, OwnTags, PlaceWork;
    var p := VariantPlan(job, v, MirrorOf(job, r));
    FilterNoDup(v.tags, Decided(job, v, MirrorOf(job, r), Import));
    FilterNoDup(v.tags, Decided(job, v, MirrorOf(job, r), Update));
    var a, b := Each(p.toImport, PlaceWork(job, build, v, Imported)),
        Each(p.toUpdate, PlaceWork(job, build, v, Updated));
    EachOwnTags(job, build, v, Imported, p.toImport);
    EachOwnTags(job, build, v, Updated, p.toUpdate);
    forall w, x | w in a && x in b ensures w.op.outTag != x.op.outTag {
      var s :| s in p.toImport && w.op.outTag == s + v.suffix;
      var u :| u in p.toUpdate && x.op.outTag == u + v.suffix;
      SuffixApart(s, u, v.suffix);
    }
    JoinOwnTags(a, b);
  }

  lemma {:induction false} ImportsOwnTags(job: Job, build: Builder, r: Repo, variants: seq<Variant>)
    requires Consistent(job) && DistinctNames(job) && ListedOnce(job)
    requires NoDup(variants) && forall v | v in variants :: v in job.variants
    ensures OwnTags(ImportWorks(job, build, r, variants))
    ensures forall w | w in ImportWorks(job, build, r, variants) :: exists v ::
              v in variants && w.op.outTag in OutTags(v)
  {
    hide OwnTags, VariantImports, DistinctNames, OutTags;
    if variants != [] {
      var n := |variants| - 1;
      var v := variants[n];
      assert variants == variants[..n] + [v];
      ImportsOwnTags(job, build, r, variants[..n]);
      VariantOwnTags(job, build, r, v);
      forall w, x | w in ImportWorks(job, build, r, variants[..n]) && x in VariantImports(job, build, r, v)
        ensures w.op.outTag != x.op.outTag
      {
        var u :| u in variants[..n] && w.op.outTag in OutTags(u);
        VariantsApart(job, u, v);
      }
      JoinOwnTags(ImportWorks(job, build, r, variants[..n]), VariantImports(job, build, r, v));
    } else {
      assert OwnTags([]) by { NoOwnTags(); }
    }
  }

  lemma NoOwnTags()
    ensures OwnTags([])
  {
  }

  lemma VariantsApart(job: Job, u: Variant, v: Variant)
    requires Consistent(job) && DistinctNames(job) && u in job.variants && v in job.variants && u != v
    ensures OutTags(u) !! OutTags(v)
  {
    forall t | t in OutTags(u) ensures t !in OutTags(v) {
      var a :| a in u.tags && t == a + u.suffix;
      forall b | b in v.tags ensures b + v.suffix != t {
        if b + v.suffix == t {
          OneOutput(job, u, a, v, b);
        }
      }
    }
  }

  ghost predicate OnlyAttaches(items: seq<seq<Effect>>) {
    forall item | item in items :: forall e | e in item :: e.Attach? || e.AttachTo?
  }

  lemma AttachesAreApart(items: seq<seq<Effect>>)
    requires OnlyAttaches(items)
    ensures ItemsApart(items)
  {
    forall i, j, e, f | 0 <= i < |items| && 0 <= j < |items| && i != j && e in items[i] && f in items[j]
      ensures Independent(e, f)
    {
      assert items[i] in items && items[j] in items;
    }
  }

  lemma {:induction false} BackfillsOnlyAttach(job: Job, r: Repo, variants: seq<Variant>)
    ensures forall w | w in SignWorks(job, r, variants) + SbomWorks(job, r, variants) :: forall e | e in w.effects ::
              e.Attach?
  {
    hide MirrorOf, TextAt, Absent;
    if variants != [] {
      var n := |variants| - 1;
      BackfillsOnlyAttach(job, r, variants[..n]);
      forall w | w in VariantSboms(job, r, variants[n]) ensures forall e | e in w.effects :: e.Attach? {
        CoversOnlyAttach(job, r, variants[n], w);
      }
    }
  }

  lemma CoversOnlyAttach(job: Job, r: Repo, v: Variant, w: Work)
    requires w in VariantSboms(job, r, v)
    ensures forall e | e in w.effects :: e.Attach?
  {
    hide MirrorOf, Absent;
    var tags := VariantPlan(job, v, MirrorOf(job, r)).toSbom;
    var i :| 0 <= i < |tags| && VariantSboms(job, r, v)[i] == w;
    if IsMirrored(r, tags[i] + v.suffix) {
      var m := r.tags[tags[i] + v.suffix];
      CoverTouchesNothing(job, m, Absent(job.formats, Referrers(r, m)));
    }
  }

  lemma BackfillsApart(job: Job, r: Repo)
    ensures ItemsApart(EffectsOf(SignWorks(job, r, job.variants), false))
    ensures ItemsApart(EffectsOf(SbomWorks(job, r, job.variants), false))
  {
    hide SignWorks, SbomWorks, ItemsApart;
    BackfillsOnlyAttach(job, r, job.variants);
    var a, b := EffectsOf(SignWorks(job, r, job.variants), false), EffectsOf(SbomWorks(job, r, job.variants), false);
    forall i | 0 <= i < |a| ensures forall e: Effect | e in a[i] :: e.Attach? {
      assert SignWorks(job, r, job.variants)[i] in SignWorks(job, r, job.variants);
    }
    forall i | 0 <= i < |b| ensures forall e: Effect | e in b[i] :: e.Attach? {
      assert SbomWorks(job, r, job.variants)[i] in SbomWorks(job, r, job.variants);
    }
    AttachesAreApart(a);
    AttachesAreApart(b);
  }

  // ---- aliases ------------------------------------------------------------------------------------------------------

  lemma {:induction false} NamesOnce(job: Job, variants: seq<Variant>)
    requires DistinctNames(job) && ListedOnce(job) && NoDup(variants) && forall v | v in variants :: v in job.variants
    ensures forall i, j | 0 <= i < j < |AllAliases(variants)| ::
              AllAliases(variants)[i].name != AllAliases(variants)[j].name
  {
    hide DistinctNames;
    if variants != [] {
      var n := |variants| - 1;
      var v := variants[n];
      assert variants == variants[..n] + [v];
      NamesOnce(job, variants[..n]);
      OwnNamesOnce(job, v);
      OtherNames(job, variants[..n], v);
      AliasesUnfold(variants);
    }
  }

  lemma OwnNamesOnce(job: Job, v: Variant)
    requires DistinctNames(job) && ListedOnce(job) && v in job.variants
    ensures var b := Suffixed(v.aliases, v.suffix); forall i, j | 0 <= i < j < |b| :: b[i].name != b[j].name
  {
    hide AliasTags, Concrete;
    var b := Suffixed(v.aliases, v.suffix);
    forall i, j | 0 <= i < j < |b| ensures b[i].name != b[j].name {
      assert v.aliases[i] in v.aliases && v.aliases[j] in v.aliases;
      assert IsAlias(job, v, v.aliases[i]) && IsAlias(job, v, v.aliases[j]);
      assert v.aliases[i] != v.aliases[j];
    }
  }

  lemma OtherNames(job: Job, variants: seq<Variant>, v: Variant)
    requires DistinctNames(job) && v in job.variants && v !in variants && forall u | u in variants :: u in job.variants
    ensures var a, b := AllAliases(variants), Suffixed(v.aliases, v.suffix);
            forall i, j | 0 <= i < |a| && 0 <= j < |b| :: a[i].name != b[j].name
  {
    hide AllAliases, AliasTags, Concrete;
    var a, b := AllAliases(variants), Suffixed(v.aliases, v.suffix);
    AllAliasesMembers(variants);
    forall i, j | 0 <= i < |a| && 0 <= j < |b| ensures a[i].name != b[j].name {
      assert a[i] in a;
      var u, x :| u in variants && x in u.aliases && a[i] == Alias(x.name + u.suffix, x.target + u.suffix);
      assert IsAlias(job, u, x) && IsAlias(job, v, v.aliases[j]);
    }
  }

  lemma AliasesUnfold(variants: seq<Variant>)
    requires variants != []
    ensures var v := variants[|variants| - 1];
            AllAliases(variants) == AllAliases(variants[..|variants| - 1]) + Suffixed(v.aliases, v.suffix)
  {
  }

  lemma AliasesApart(job: Job)
    requires DistinctNames(job) && WellPlanned(job) && ListedOnce(job)
    ensures ItemsApart(EffectsOf(AliasWorks(job.variants), false))
  {
    hide AllAliases, AliasWorks, DistinctNames, WellPlanned, Concrete, AliasTags;
    var aliases, items := AllAliases(job.variants), EffectsOf(AliasWorks(job.variants), false);
    AliasWorksAre(job.variants);
    NamesOnce(job, job.variants);
    forall x | x in aliases ensures x.target in Concrete(job) && x.name in AliasTags(job) {
      AliasesAreApart(job, x);
    }
    Runs.Apart(job);
    forall i, j, e, f | 0 <= i < |items| && 0 <= j < |items| && i != j && e in items[i] && f in items[j]
      ensures Independent(e, f)
    {
      assert e == Copy(aliases[i].target, aliases[i].name) && f == Copy(aliases[j].target, aliases[j].name);
      assert aliases[i] in aliases && aliases[j] in aliases;
    }
  }

  // ---- lifecycle ----------------------------------------------------------------------------------------------------

  lemma LifecycleApart(job: Job, r: Repo)
    ensures ItemsApart(EffectsOf(SelectionWorks(job, r), false))
    ensures ItemsApart(EffectsOf(RetentionWorks(job, r), false))
  {
    hide PlanOf, MarkedOn;
    var a, b := EffectsOf(SelectionWorks(job, r), false), EffectsOf(RetentionWorks(job, r), false);
    assert OnlyAttaches(b);
    AttachesAreApart(b);
    if job.mode == MarkOnly {
      assert OnlyAttaches(a);
      AttachesAreApart(a);
    } else {
      DropList(job, r);
      var ts := PlanOf(job, r).toDelete;
      forall i, j, e, f | 0 <= i < |a| && 0 <= j < |a| && i != j && e in a[i] && f in a[j] ensures Independent(e, f) {
        assert e == Untag(ts[i]) && f == Untag(ts[j]);
      }
    }
  }

  lemma DryApart(ws: seq<Work>)
    ensures ItemsApart(EffectsOf(ws, true))
  {
  }

  lemma ImportsApart(job: Job, build: Builder, r: Repo)
    requires WellFormed(job) && ListedOnce(job)
    ensures ItemsApart(EffectsOf(ImportWorks(job, build, r, job.variants), false))
  {
    hide ImportWorks, DistinctNames, OwnTags, ItemsApart;
    ImportsOwnTags(job, build, r, job.variants);
    OwnTagsAreApart(ImportWorks(job, build, r, job.variants));
  }

  // ---- a run under a thread pool ------------------------------------------------------------------------------------

  datatype Schedules = Schedules(
    imports: seq<nat>,
    signs: seq<nat>,
    sboms: seq<nat>,
    aliases: seq<nat>,
    selection: seq<nat>,
    retention: seq<nat>)

  datatype StageEnds = StageEnds(repos: seq<Repo>, tags: Outcomes, selection: seq<bool>, retention: seq<bool>)

  /** Six stages one after the other, each interleaved as the pool pleases. */
  ghost predicate PoolRun(job: Job, build: Builder, sw: Switches, outage: Effect -> bool, r: Repo, c: Schedules,
                          x: StageEnds) {
    && |x.repos| == 6
    && CanEnd(EffectsOf(ImportWorks(job, build, r, job.variants), sw.dryTags), r, outage, c.imports, x.repos[0],
        x.tags.imports)
    && CanEnd(EffectsOf(SignWorks(job, r, job.variants), sw.dryTags), x.repos[0], outage, c.signs, x.repos[1],
        x.tags.signs)
    && CanEnd(EffectsOf(SbomWorks(job, r, job.variants), sw.dryTags), x.repos[1], outage, c.sboms, x.repos[2],
        x.tags.sboms)
    && CanEnd(EffectsOf(AliasWorks(job.variants), sw.dryTags), x.repos[2], outage, c.aliases, x.repos[3],
        x.tags.aliases)
    && CanEnd(EffectsOf(SelectionWorks(job, r), sw.dryDeletions), x.repos[3], outage, c.selection, x.repos[4],
        x.selection)
    && CanEnd(EffectsOf(RetentionWorks(job, r), sw.dryDeletions), x.repos[4], outage, c.retention, x.repos[5],
        x.retention)
  }

  lemma WorksConfluence(ws: seq<Work>, dry: bool, r: Repo, outage: Effect -> bool, schedule: seq<nat>, r': Repo,
                        oks: seq<bool>)
    requires ItemsApart(EffectsOf(ws, false))
    requires CanEnd(EffectsOf(ws, dry), r, outage, schedule, r', oks)
    ensures (r', oks) == Stage(ws, dry, r, outage)
  {
    hide ItemsApart, CanEnd, RunStage;
    if dry {
      DryApart(ws);
    }
    StageConfluence(EffectsOf(ws, dry), r, outage, schedule, r', oks);
  }

  /**
   However the pool interleaves the stages, and whatever calls fail, the run ends and reports as
   the sequential one.
   */
  lemma PoolRunIsRun(job: Job, build: Builder, sw: Switches, outage: Effect -> bool, r: Repo, c: Schedules,
                     x: StageEnds)
    requires WellFormed(job) && ListedOnce(job)
    requires PoolRun(job, build, sw, outage, r, c, x)
    ensures (x.repos[3], x.tags) == AfterTags(job, build, sw.dryTags, outage, r)
    ensures (x.repos[5], x.selection, x.retention) == AfterMarks(job, sw.dryDeletions, outage, r, x.repos[3])
    ensures Unmarked(job, sw.dryDeletions, outage, r, x.repos[5]) == Run(job, build, sw, outage, r)
  {
    hide ImportWorks, SignWorks, SbomWorks, AliasWorks, SelectionWorks, RetentionWorks, CanEnd, ItemsApart, Stage;
    hide DistinctNames, StaleMarks;
    ImportsApart(job, build, r);
    BackfillsApart(job, r);
    AliasesApart(job);
    LifecycleApart(job, r);
    WorksConfluence(ImportWorks(job, build, r, job.variants), sw.dryTags, r, outage, c.imports, x.repos[0],
        x.tags.imports);
    WorksConfluence(SignWorks(job, r, job.variants), sw.dryTags, x.repos[0], outage, c.signs, x.repos[1], x.tags.signs);
    WorksConfluence(SbomWorks(job, r, job.variants), sw.dryTags, x.repos[1], outage, c.sboms, x.repos[2], x.tags.sboms);
    WorksConfluence(AliasWorks(job.variants), sw.dryTags, x.repos[2], outage, c.aliases, x.repos[3], x.tags.aliases);
    WorksConfluence(SelectionWorks(job, r), sw.dryDeletions, x.repos[3], outage, c.selection, x.repos[4], x.selection);
    WorksConfluence(RetentionWorks(job, r), sw.dryDeletions, x.repos[4], outage, c.retention, x.repos[5], x.retention);
  }

  /** Without outages nothing fails under any interleaving: no alias is copied from a tag that is not there. */
  lemma PoolNeverFails(job: Job, build: Builder, r: Repo, c: Schedules, x: StageEnds)
    requires WellFormed(job) && ListedOnce(job)
    requires PoolRun(job, build, APPLY, NoOutage(), r, c, x)
    ensures AllOk(x.tags) && AllTrue(x.selection) && AllTrue(x.retention)
  {
    hide WellFormed, AfterTags, AfterMarks, Run, PoolRun, RanTo, AllOk, AllTrue;
    PoolRunIsRun(job, build, APPLY, NoOutage(), r, c, x);
    RunClosed(job, build, r);
  }
}
