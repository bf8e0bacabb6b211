/**
 The git-sourced path (knock/use_cases/reconcile_git.py, knock/use_cases/intake.py): plan
 resolves a moving ref to a revision; apply fetches the ref again, refuses a revision other
 than the planned one, places it under `sha-<revision>` and points the ref's alias at it.

 The upstream is an adversary: what a ref resolves to at the plan and what a fetch of it
 brings later are unrelated.
 */
module GitPlacement {
  import opened Wrappers

  type Tag = string

  /** A placed skill: the revision its stamp names, if any, and its bytes. */
  datatype Artifact = Artifact(revision: Option<string>, tree: string)

  type Tags = map<Tag, Artifact>

  type Repos = map<string, Tags>

  datatype GitPolicy = GitPolicy(name: string, url: string, ref: string, dests: seq<string>)

  datatype GitPlan = GitPlan(url: string, ref: string, dest: string, revision: string, placed: bool, aliasCurrent: bool)

  const REVISION_PREFIX := "sha-"

  function RevisionTag(revision: string): Tag { REVISION_PREFIX + revision }

  predicate Converged(p: GitPlan) { p.placed && p.aliasCurrent }

  datatype Kind = Imported | Aliased | Skipped

  datatype Op = Op(kind: Kind, outTag: Tag, srcTag: Tag, digest: string, applied: bool)

  datatype Error = FetchFailed | RevisionMoved(planned: string, fetched: string)
                 | EmptyPrefix | EmptyRevision | UnsafeTree | PushFailed | CopyFailed | NotPlanned

  /** What a fetch brings: the revision it landed on, the tree, and whether the tree may be packaged. */
  datatype Fetched = Fetched(revision: string, tree: string, packable: bool)

  type Resolver = (string, string) -> string

  /** The world during an apply: what fetches bring and which calls fail. */
  datatype Env = Env(
    fetch: (string, string) -> Option<Fetched>,
    pushFails: (string, Tag) -> bool,
    copyFails: (string, Tag) -> bool,
    prefix: string)

  function TagsOf(repos: Repos, dest: string): Tags { if dest in repos then repos[dest] else map[] }

  // ---- plan ------------------------------------------------------------------------------------------------------

  function AliasDesignates(tags: Tags, ref: string, revision: string): bool {
    ref in tags && tags[ref].revision == Some(revision)
  }

  function PlanFor(url: string, ref: string, dest: string, revision: string, tags: Tags): GitPlan {
    var placed := RevisionTag(revision) in tags;
    GitPlan(url, ref, dest, revision, placed, placed && AliasDesignates(tags, ref, revision))
  }

  function PlanPolicy(p: GitPolicy, resolve: Resolver, repos: Repos): (r: seq<GitPlan>)
    ensures |r| == |p.dests|
    ensures forall i | 0 <= i < |r| ::
              r[i] == PlanFor(p.url, p.ref, p.dests[i], resolve(p.url, p.ref), TagsOf(repos, p.dests[i]))
  {
    seq(|p.dests|, i requires 0 <= i < |p.dests| =>
      PlanFor(p.url, p.ref, p.dests[i], resolve(p.url, p.ref), TagsOf(repos, p.dests[i])))
  }

  function PlanAll(policies: seq<GitPolicy>, resolve: Resolver, repos: Repos): (r: seq<seq<GitPlan>>)
    ensures |r| == |policies| && forall i | 0 <= i < |r| :: r[i] == PlanPolicy(policies[i], resolve, repos)
  {
    seq(|policies|, i requires 0 <= i < |policies| => PlanPolicy(policies[i], resolve, repos))
  }

  // ---- apply -----------------------------------------------------------------------------------------------------

  /** Fetch, check, stamp, package: everything that can refuse comes before the push. */
  function Intake(p: GitPlan, env: Env): Result<Artifact, Error> {
    var f := env.fetch(p.url, p.ref);
    if f.None? then Err(FetchFailed)
    else if f.value.revision != p.revision then Err(RevisionMoved(p.revision, f.value.revision))
    else if env.prefix == "" then Err(EmptyPrefix)
    else if f.value.revision == "" then Err(EmptyRevision)
    else if !f.value.packable then Err(UnsafeTree)
    else Ok(Artifact(Some(f.value.revision), f.value.tree))
  }

  function ImportOp(p: GitPlan, applied: bool): Op { Op(Imported, RevisionTag(p.revision), p.ref, p.revision, applied) }

  function AliasOp(p: GitPlan, applied: bool): Op { Op(Aliased, p.ref, RevisionTag(p.revision), p.revision, applied) }

  function SkipOp(p: GitPlan): Op { Op(Skipped, RevisionTag(p.revision), p.ref, p.revision, true) }

  /** The artifact half: nothing when it is placed already. */
  function Place(p: GitPlan, env: Env, tags: Tags): (Tags, Result<seq<Op>, Error>) {
    if p.placed then (tags, Ok([]))
    else
      match Intake(p, env)
      case Err(e) => (tags, Err(e))
      case Ok(a) =>
        if env.pushFails(p.dest, RevisionTag(p.revision)) then (tags, Err(PushFailed))
        else (tags[RevisionTag(p.revision) := a], Ok([ImportOp(p, true)]))
  }

  /** The alias half: a copy of the revision tag onto the ref name. */
  function Point(p: GitPlan, env: Env, tags: Tags): (Tags, Result<seq<Op>, Error>) {
    if RevisionTag(p.revision) !in tags || env.copyFails(p.dest, p.ref) then (tags, Err(CopyFailed))
    else (tags[p.ref := tags[RevisionTag(p.revision)]], Ok([AliasOp(p, true)]))
  }

  function ApplyOne(p: GitPlan, env: Env, dry: bool, tags: Tags): (Tags, Result<seq<Op>, Error>) {
    if Converged(p) then (tags, Ok([SkipOp(p)]))
    else if dry then (tags, Ok((if p.placed then [] else [ImportOp(p, false)]) + [AliasOp(p, false)]))
    else
      var (t1, placed) := Place(p, env, tags);
      if placed.Err? then (t1, placed)
      else
        var (t2, pointed) := Point(p, env, t1);
        (t2, if pointed.Err? then pointed else Ok(placed.value + pointed.value))
  }

  datatype Outcome = Targets(operations: seq<seq<Op>>) | Fell(error: Error)

  /** One policy: its destinations in turn; the first error ends it, keeping what was done. */
  function ApplyPolicy(plans: seq<GitPlan>, env: Env, dry: bool, repos: Repos): (Repos, Outcome)
    decreases |plans|
  {
    if plans == [] then (repos, Targets([]))
    else
      var p := plans[0];
      var (tags, r) := ApplyOne(p, env, dry, TagsOf(repos, p.dest));
      var repos1 := repos[p.dest := tags];
      if r.Err? then (repos1, Fell(r.error))
      else
        var (repos2, rest) := ApplyPolicy(plans[1..], env, dry, repos1);
        (repos2, if rest.Fell? then rest else Targets([r.value] + rest.operations))
  }

  function ApplyAll(batch: seq<seq<GitPlan>>, env: Env, dry: bool, repos: Repos): (Repos, seq<Outcome>)
    decreases |batch|
  {
    if batch == [] then (repos, [])
    else
      var (r1, o) := ApplyPolicy(batch[0], env, dry, repos);
      var (r2, os) := ApplyAll(batch[1..], env, dry, r1);
      (r2, [o] + os)
  }

  class GitPlanner {
    var repos: Repos
    var plans: Option<seq<seq<GitPlan>>>

    constructor (registry: Repos)
      ensures repos == registry && plans.None?
    {
      repos := registry;
      plans := None;
    }

    /** Reads only; a second call replaces the batch. */
    method Plan(policies: seq<GitPolicy>, resolve: Resolver) returns (aliases: seq<(string, Tag, Tag)>)
      modifies this`plans
      ensures plans == Some(PlanAll(policies, resolve, repos))
      ensures forall a :: a in aliases <==>
                exists p, d :: p in policies && d in p.dests && a == (d, p.ref, RevisionTag(resolve(p.url, p.ref)))
    {
      aliases := [];
      var batch: seq<seq<GitPlan>> := [];
      for i := 0 to |policies|
        invariant |batch| == i && forall j | 0 <= j < i :: batch[j] == PlanPolicy(policies[j], resolve, repos)
        invariant forall a :: a in aliases <==>
                    exists p, d ::
                        p in policies[..i] && d in p.dests && a == (d, p.ref, RevisionTag(resolve(p.url, p.ref)))
      {
        var p := policies[i];
        var revision := resolve(p.url, p.ref);
        var mine: seq<GitPlan> := [];
        var names: seq<(string, Tag, Tag)> := [];
        for k := 0 to |p.dests|
          invariant |mine| == k
          invariant forall j | 0 <= j < k ::
                      mine[j] == PlanFor(p.url, p.ref, p.dests[j], revision, TagsOf(repos, p.dests[j]))
          invariant forall a :: a in names <==> exists d :: d in p.dests[..k] && a == (d, p.ref, RevisionTag(revision))
        {
          assert p.dests[..k + 1] == p.dests[..k] + [p.dests[k]];
          mine := mine + [PlanFor(p.url, p.ref, p.dests[k], revision, TagsOf(repos, p.dests[k]))];
          names := names + [(p.dests[k], p.ref, RevisionTag(revision))];
        }
        assert p.dests[..|p.dests|] == p.dests;
        assert mine == PlanPolicy(p, resolve, repos);
        assert policies[..i + 1] == policies[..i] + [p];
        aliases := aliases + names;
        batch := batch + [mine];
      }
      assert policies[..|policies|] == policies;
      assert batch == PlanAll(policies, resolve, repos);
      plans := Some(batch);
    }

    method ApplyTarget(p: GitPlan, env: Env, dry: bool) returns (r: Result<seq<Op>, Error>)
      modifies this`repos
      ensures var (tags, o) := ApplyOne(p, env, dry, TagsOf(old(repos), p.dest));
              repos == old(repos)[p.dest := tags] && r == o
    {
      repos := repos[p.dest := TagsOf(repos, p.dest)];
      if Converged(p) {
        return Ok([SkipOp(p)]);
      }
      if dry {
        return Ok((if p.placed then [] else [ImportOp(p, false)]) + [AliasOp(p, false)]);
      }
      var ops: seq<Op> := [];
      if !p.placed {
        var intake := Intake(p, env);
        if intake.Err? {
          return Err(intake.error);
        }
        if env.pushFails(p.dest, RevisionTag(p.revision)) {
          return Err(PushFailed);
        }
        repos := repos[p.dest := repos[p.dest][RevisionTag(p.revision) := intake.value]];
        ops := [ImportOp(p, true)];
      }
      if RevisionTag(p.revision) !in repos[p.dest] || env.copyFails(p.dest, p.ref) {
        return Err(CopyFailed);
      }
      repos := repos[p.dest := repos[p.dest][p.ref := repos[p.dest][RevisionTag(p.revision)]]];
      return Ok(ops + [AliasOp(p, true)]);
    }

    method ApplyTargets(mine: seq<GitPlan>, env: Env, dry: bool) returns (o: Outcome)
      modifies this`repos
      ensures (repos, o) == ApplyPolicy(mine, env, dry, old(repos))
    {
      hide ApplyOne;
      var done: seq<seq<Op>> := [];
      ghost var whole := ApplyPolicy(mine, env, dry, repos);
      assert mine[0..] == mine;
      assert whole.1.Targets? ==> [] + whole.1.operations == whole.1.operations;
      for i := 0 to |mine|
        invariant var (r, rest) := ApplyPolicy(mine[i..], env, dry, repos);
                  whole == (r, if rest.Fell? then rest else Targets(done + rest.operations))
      {
        assert mine[i..][1..] == mine[i + 1..];
        ghost var here, before := ApplyPolicy(mine[i..], env, dry, repos).1, done;
        var r := ApplyTarget(mine[i], env, dry);
        if r.Err? {
          return Fell(r.error);
        }
        done := done + [r.value];
        ghost var later := ApplyPolicy(mine[i + 1..], env, dry, repos).1;
        assert later.Targets? ==> before + ([r.value] + later.operations) == done + later.operations;
      }
      assert mine[|mine|..] == [] && done + [] == done;
      return Targets(done);
    }

    /** Applying a batch that was never planned is an error, not an empty run. */
    method Apply(env: Env, dry: bool) returns (r: Result<seq<Outcome>, Error>)
      modifies this`repos
      ensures plans.None? ==> r == Err(NotPlanned) && repos == old(repos)
      ensures plans.Some? ==> var (after, os) := ApplyAll(plans.value, env, dry, old(repos));
                repos == after && r == Ok(os)
    {
      hide ApplyPolicy, ApplyOne, PlanFor;
      if plans.None? {
        return Err(NotPlanned);
      }
      var batch := plans.value;
      var os: seq<Outcome> := [];
      ghost var whole := ApplyAll(batch, env, dry, repos);
      assert batch[0..] == batch && [] + whole.1 == whole.1;
      for i := 0 to |batch|
        invariant plans == Some(batch)
        invariant var (after, rest) := ApplyAll(batch[i..], env, dry, repos); whole == (after, os + rest)
      {
        ghost var rest := ApplyAll(batch[i..], env, dry, repos).1;
        assert batch[i..][1..] == batch[i + 1..];
        var o := ApplyTargets(batch[i], env, dry);
        assert os + rest == os + [o] + rest[1..];
        os := os + [o];
      }
      assert batch[|batch|..] == [] && os + [] == os;
      return Ok(os);
    }
  }

  // ---- honesty ------------------------------------------------------------------------------------------------------

  predicate LooksLikeRevision(t: Tag) { |t| >= 4 && t[..4] == REVISION_PREFIX }

  /** A tag `sha-<r>` carries revision r in its stamp. */
  ghost predicate Honest(tags: Tags) {
    forall t | t in tags && LooksLikeRevision(t) :: tags[t].revision == Some(t[4..])
  }

  ghost predicate AllHonest(repos: Repos) { forall d | d in repos :: Honest(repos[d]) }

  lemma RevisionTagReads(r: string)
    ensures LooksLikeRevision(RevisionTag(r)) && RevisionTag(r)[4..] == r
  {
  }

  /** Placing is honest whatever the fetch brings: a revision other than the planned one is refused. */
  lemma PlaceIsHonest(p: GitPlan, env: Env, tags: Tags)
    requires Honest(tags)
    ensures Honest(Place(p, env, tags).0)
  {
    RevisionTagReads(p.revision);
  }

  /** A moved ref places nothing and moves nothing. */
  lemma MovedRefPlacesNothing(p: GitPlan, env: Env, tags: Tags, f: Fetched)
    requires !p.placed && env.fetch(p.url, p.ref) == Some(f) && f.revision != p.revision
    ensures ApplyOne(p, env, false, tags) == (tags, Err(RevisionMoved(p.revision, f.revision)))
  {
  }

  /** Pointing the alias keeps honesty exactly when the ref is no other revision's tag name. */
  lemma PointIsHonestIff(p: GitPlan, env: Env, tags: Tags)
    requires Honest(tags) && Point(p, env, tags).1.Ok?
    ensures Honest(Point(p, env, tags).0) <==> !LooksLikeRevision(p.ref) || p.ref == RevisionTag(p.revision)
  {
    RevisionTagReads(p.revision);
    var after := Point(p, env, tags).0;
    assert after[p.ref].revision == Some(p.revision);
    if LooksLikeRevision(p.ref) {
      assert p.ref == REVISION_PREFIX + p.ref[4..];
    }
  }

  lemma ApplyOneHonest(p: GitPlan, env: Env, dry: bool, tags: Tags)
    requires Honest(tags) && !LooksLikeRevision(p.ref)
    ensures Honest(ApplyOne(p, env, dry, tags).0)
  {
    PlaceIsHonest(p, env, tags);
    var t1 := Place(p, env, tags).0;
    if Point(p, env, t1).1.Ok? {
      PointIsHonestIff(p, env, t1);
    }
  }

  lemma {:induction false} ApplyPolicyHonest(plans: seq<GitPlan>, env: Env, dry: bool, repos: Repos)
    requires AllHonest(repos) && forall p | p in plans :: !LooksLikeRevision(p.ref)
    ensures AllHonest(ApplyPolicy(plans, env, dry, repos).0)
    decreases |plans|
  {
    hide Honest, ApplyOne;
    if plans != [] {
      var p := plans[0];
      assert p in plans;
      assert Honest(TagsOf(repos, p.dest)) by { EmptyIsHonest(); }
      ApplyOneHonest(p, env, dry, TagsOf(repos, p.dest));
      ApplyPolicyHonest(plans[1..], env, dry, repos[p.dest := ApplyOne(p, env, dry, TagsOf(repos, p.dest)).0]);
    }
  }

  lemma EmptyIsHonest()
    ensures Honest(map[])
  {
  }

  lemma {:induction false} ApplyAllHonest(batch: seq<seq<GitPlan>>, env: Env, dry: bool, repos: Repos)
    requires AllHonest(repos) && forall plans, p | plans in batch && p in plans :: !LooksLikeRevision(p.ref)
    ensures AllHonest(ApplyAll(batch, env, dry, repos).0)
    decreases |batch|
  {
    hide AllHonest, ApplyPolicy;
    if batch != [] {
      assert batch[0] in batch;
      ApplyPolicyHonest(batch[0], env, dry, repos);
      assert forall plans | plans in batch[1..] :: plans in batch;
      ApplyAllHonest(batch[1..], env, dry, ApplyPolicy(batch[0], env, dry, repos).0);
    }
  }

  /** One run: what refs resolve to at the plan, and the world during the apply. */
  datatype Round = Round(policies: seq<GitPolicy>, resolve: Resolver, env: Env, dry: bool)

  function PlayRound(x: Round, repos: Repos): Repos {
    ApplyAll(PlanAll(x.policies, x.resolve, repos), x.env, x.dry, repos).0
  }

  function PlayRounds(xs: seq<Round>, repos: Repos): Repos {
    if xs == [] then repos else PlayRound(xs[|xs| - 1], PlayRounds(xs[..|xs| - 1], repos))
  }

  /**
   Over every run, with refs that move between any resolve and fetch and calls that fail
   anywhere: every `sha-<r>` ever placed carries r, as long as no policy's ref is itself
   named like a revision tag.
   */
  lemma {:induction false} AlwaysHonest(xs: seq<Round>, repos: Repos)
    requires AllHonest(repos) && forall x, p | x in xs && p in x.policies :: !LooksLikeRevision(p.ref)
    ensures AllHonest(PlayRounds(xs, repos))
  {
    hide AllHonest, ApplyAll, LooksLikeRevision;
    if xs != [] {
      var n := |xs| - 1;
      assert xs[n] in xs;
      AlwaysHonest(xs[..n], repos);
      var before := PlayRounds(xs[..n], repos);
      var batch := PlanAll(xs[n].policies, xs[n].resolve, before);
      forall plans, p | plans in batch && p in plans ensures !LooksLikeRevision(p.ref) {
        var i :| 0 <= i < |batch| && batch[i] == plans;
        assert xs[n].policies[i] in xs[n].policies;
      }
      ApplyAllHonest(batch, xs[n].env, xs[n].dry, before);
    }
  }

  /** For any ref named like a revision tag there is a run that makes that tag lie. */
  lemma RevisionNamedRefLies(name: string, url: string, x: string, r: string, dest: string, tree: string,
                             prefix: string)
    requires x != r && prefix != "" && r != ""
    ensures var p := GitPolicy(name, url, RevisionTag(x), [dest]);
            var env := Env((u, f) => Some(Fetched(r, tree, true)), (d, t) => false, (d, t) => false, prefix);
            var after := PlayRound(Round([p], (u, f) => r, env, false), map[]);
            dest in after && RevisionTag(x) in after[dest] && after[dest][RevisionTag(x)].revision == Some(r) &&
                !AllHonest(after)
  {
    var p := GitPolicy(name, url, RevisionTag(x), [dest]);
    var env := Env((u: string, f: string) => Some(Fetched(r, tree, true)), (d: string, t: Tag) => false,
        (d: string, t: Tag) => false, prefix);
    var resolve := (u: string, f: string) => r;
    var plans := PlanPolicy(p, resolve, map[]);
    var plan := PlanFor(url, RevisionTag(x), dest, r, map[]);
    assert plans == [plan] && PlanAll([p], resolve, map[]) == [plans];
    var tags := ApplyOne(plan, env, false, map[]).0;
    var art := Artifact(Some(r), tree);
    assert Intake(plan, env) == Ok(art);
    assert tags == map[RevisionTag(r) := art][RevisionTag(x) := art];
    var batch := [plans];
    assert plans[1..] == [] && batch[1..] == [];
    assert ApplyPolicy(plans, env, false, map[]).0 == map[dest := tags];
    assert ApplyAll(batch, env, false, map[]).0 == map[dest := tags];
    RevisionTagReads(x);
    assert !Honest(tags);
  }

  // ---- convergence --------------------------------------------------------------------------------------------------

  /** The fetch of a ref that stayed where the plan resolved it, and no failing call. */
  ghost predicate Calm(p: GitPlan, env: Env) {
    && env.prefix != "" && p.revision != ""
    && (exists tree :: env.fetch(p.url, p.ref) == Some(Fetched(p.revision, tree, true)))
    && !env.pushFails(p.dest, RevisionTag(p.revision)) && !env.copyFails(p.dest, p.ref)
  }

  ghost predicate Designates(tags: Tags, ref: string, revision: string) {
    && RevisionTag(revision) in tags && tags[RevisionTag(revision)].revision == Some(revision)
    && ref in tags && tags[ref].revision == Some(revision)
  }

  /**
   One application of a plan, read off what a fetch brings: a revision that is not placed gets
   the tree fetched, one that is keeps what it has, the alias gets the same artifact unless it
   designates the revision already, and no other tag changes.
   */
  ghost predicate Brought(p: GitPlan, env: Env, tags: Tags, after: Tags) {
    var t := "sha-" + p.revision;
    if p.placed && p.aliasCurrent then after == tags
    else
      && after.Keys == tags.Keys + {t, p.ref} && after[p.ref] == after[t]
      && (if p.placed then t in tags && after[t] == tags[t]
          else
            && env.fetch(p.url, p.ref).Some?
            && after[t] == Artifact(Some(p.revision), env.fetch(p.url, p.ref).value.tree))
      && (forall u | u in tags && u != t && u != p.ref :: after[u] == tags[u])
  }

  lemma CalmBrings(p: GitPlan, env: Env, tags: Tags)
    requires Calm(p, env) && (p.placed ==> RevisionTag(p.revision) in tags)
    ensures ApplyOne(p, env, false, tags).1.Ok? && Brought(p, env, tags, ApplyOne(p, env, false, tags).0)
  {
  }

  /** An application succeeds exactly when nothing it does fails: what it need not do cannot. */
  lemma SucceedsIff(p: GitPlan, env: Env, tags: Tags)
    ensures ApplyOne(p, env, false, tags).1.Ok? <==>
              || (p.placed && p.aliasCurrent)
              || (p.placed && "sha-" + p.revision in tags && !env.copyFails(p.dest, p.ref))
              || (!p.placed && Calm(p, env))
  {
  }

  /**
   An application that fails says why by the first check that does not hold, and has placed
   nothing, unless it is the alias that could not be copied.
   */
  lemma FailureChangesLittle(p: GitPlan, env: Env, tags: Tags)
    requires !p.placed && ApplyOne(p, env, false, tags).1.Err?
    ensures var (after, r) := ApplyOne(p, env, false, tags);
            var f := env.fetch(p.url, p.ref);
            var t := "sha-" + p.revision;
            match r.error
            case FetchFailed => after == tags && f.None?
            case RevisionMoved(a, b) => after == tags && f.Some? && a == p.revision && b == f.value.revision && a != b
            case EmptyPrefix => after == tags && env.prefix == "" && f.Some? && f.value.revision == p.revision
            case EmptyRevision => after == tags && env.prefix != "" && f.Some? && f.value.revision == p.revision == ""
            case UnsafeTree => after == tags && env.prefix != "" && f.Some? && !f.value.packable
            case PushFailed => after == tags && env.pushFails(p.dest, t)
            case CopyFailed => env.copyFails(p.dest, p.ref) && f.Some?
                               && after == tags[t := Artifact(Some(p.revision), f.value.tree)]
            case NotPlanned => false
  {
  }

  /**
   From any honest state, wherever the alias points, one calm run ends with `sha-<r>` in place
   and the alias designating r.
   */
  lemma OneRunConverges(url: string, ref: string, dest: string, revision: string, tags: Tags, env: Env)
    requires var p := PlanFor(url, ref, dest, revision, tags); Calm(p, env)
    requires RevisionTag(revision) in tags ==> tags[RevisionTag(revision)].revision == Some(revision)
    ensures var (after, r) := ApplyOne(PlanFor(url, ref, dest, revision, tags), env, false, tags);
            && r.Ok? && Designates(after, ref, revision)
            && Brought(PlanFor(url, ref, dest, revision, tags), env, tags, after)
  {
    CalmBrings(PlanFor(url, ref, dest, revision, tags), env, tags);
  }

  /** Converging needs the revision tag to be honest: a lying one is copied again by every run. */
  lemma ConvergesIff(url: string, ref: string, dest: string, revision: string, tags: Tags, env: Env)
    requires var p := PlanFor(url, ref, dest, revision, tags); Calm(p, env)
    ensures var after := ApplyOne(PlanFor(url, ref, dest, revision, tags), env, false, tags).0;
            Converged(PlanFor(url, ref, dest, revision, after)) <==>
              RevisionTag(revision) !in tags || AliasDesignates(tags, ref, revision)
              || tags[RevisionTag(revision)].revision == Some(revision)
  {
  }

  /** Once converged a run skips: no fetch is needed and nothing changes, whatever the world does. */
  lemma NextRunSkips(url: string, ref: string, dest: string, revision: string, tags: Tags, env: Env, dry: bool)
    requires Designates(tags, ref, revision)
    ensures var p := PlanFor(url, ref, dest, revision, tags); ApplyOne(p, env, dry, tags) == (tags, Ok([SkipOp(p)]))
  {
  }

  /** A run cut off or failing after any of its calls leaves an honest state, from which the next calm run converges. */
  lemma RecoversFromFailure(url: string, ref: string, dest: string, revision: string, tags: Tags, bad: Env,
                            later: string, env: Env)
    requires Honest(tags) && !LooksLikeRevision(ref)
    requires var broken := ApplyOne(PlanFor(url, ref, dest, revision, tags), bad, false, tags).0;
             Calm(PlanFor(url, ref, dest, later, broken), env)
    ensures var broken := ApplyOne(PlanFor(url, ref, dest, revision, tags), bad, false, tags).0;
            var (after, r) := ApplyOne(PlanFor(url, ref, dest, later, broken), env, false, broken);
            && r.Ok? && Designates(after, ref, later) && Honest(after)
            && Brought(PlanFor(url, ref, dest, later, broken), env, broken, after)
  {
    hide Honest, ApplyOne;
    var p := PlanFor(url, ref, dest, revision, tags);
    ApplyOneHonest(p, bad, false, tags);
    var broken := ApplyOne(p, bad, false, tags).0;
    HonestAt(broken, later);
    OneRunConverges(url, ref, dest, later, broken, env);
    ApplyOneHonest(PlanFor(url, ref, dest, later, broken), env, false, broken);
  }

  lemma HonestAt(tags: Tags, revision: string)
    requires Honest(tags)
    ensures RevisionTag(revision) in tags ==> tags[RevisionTag(revision)].revision == Some(revision)
  {
    RevisionTagReads(revision);
  }

  // ---- a batch converges --------------------------------------------------------------------------------------------

  ghost predicate Accurate(p: GitPlan, repos: Repos) {
    p == PlanFor(p.url, p.ref, p.dest, p.revision, TagsOf(repos, p.dest))
  }

  /** A policy touches its own destinations only. */
  lemma {:induction false} PolicyFrame(plans: seq<GitPlan>, env: Env, dry: bool, repos: Repos)
    ensures var after := ApplyPolicy(plans, env, dry, repos).0;
            repos.Keys <= after.Keys && forall d | (forall p | p in plans :: p.dest != d) ::
                TagsOf(after, d) == TagsOf(repos, d)
    decreases |plans|
  {
    hide ApplyOne;
    if plans != [] {
      assert plans[0] in plans && plans == [plans[0]] + plans[1..];
      PolicyFrame(plans[1..], env, dry,
          repos[plans[0].dest := ApplyOne(plans[0], env, dry, TagsOf(repos, plans[0].dest)).0]);
    }
  }

  lemma FirstConverges(p: GitPlan, env: Env, repos: Repos)
    requires AllHonest(repos) && Accurate(p, repos) && Calm(p, env) && !LooksLikeRevision(p.ref)
    ensures var (tags, r) := ApplyOne(p, env, false, TagsOf(repos, p.dest));
            && r.Ok? && Designates(tags, p.ref, p.revision) && AllHonest(repos[p.dest := tags])
            && Brought(p, env, TagsOf(repos, p.dest), tags)
  {
    hide Honest, ApplyOne, Calm, Designates, LooksLikeRevision, PlanFor;
    var tags := TagsOf(repos, p.dest);
    assert Honest(tags) by { EmptyIsHonest(); }
    HonestAt(tags, p.revision);
    OneRunConverges(p.url, p.ref, p.dest, p.revision, tags, env);
    ApplyOneHonest(p, env, false, tags);
  }

  lemma {:induction false} PolicyConverges(plans: seq<GitPlan>, env: Env, repos: Repos)
    requires AllHonest(repos)
    requires forall p | p in plans :: Accurate(p, repos) && Calm(p, env) && !LooksLikeRevision(p.ref)
    requires forall k, l | 0 <= k < l < |plans| :: plans[k].dest != plans[l].dest
    ensures var (after, o) := ApplyPolicy(plans, env, false, repos);
            o.Targets? && forall p | p in plans ::
                && p.dest in after && Designates(after[p.dest], p.ref, p.revision)
                && Brought(p, env, TagsOf(repos, p.dest), after[p.dest])
    decreases |plans|
  {
    hide AllHonest, ApplyOne, Calm, Designates, LooksLikeRevision, PlanFor;
    if plans != [] {
      var p, rest := plans[0], plans[1..];
      assert p in plans && plans == [p] + rest;
      FirstConverges(p, env, repos);
      var repos1 := repos[p.dest := ApplyOne(p, env, false, TagsOf(repos, p.dest)).0];
      forall q | q in rest ensures q.dest != p.dest && Accurate(q, repos1) && q in plans {
        var l :| 0 <= l < |rest| && rest[l] == q;
        assert plans[l + 1] == q;
      }
      PolicyConverges(rest, env, repos1);
      PolicyFrame(rest, env, false, repos1);
      var after := ApplyPolicy(plans, env, false, repos).0;
      assert after == ApplyPolicy(rest, env, false, repos1).0;
      assert p.dest in repos1.Keys && TagsOf(after, p.dest) == TagsOf(repos1, p.dest);
      forall q | q in plans ensures q.dest in after && Designates(after[q.dest], q.ref, q.revision) {
        assert q == p || q in rest;
      }
    }
  }

  /** Planning a batch, applying it calmly and planning again finds everything converged. */
  lemma PolicyThenSkips(policy: GitPolicy, resolve: Resolver, env: Env, repos: Repos, later: Env, dry: bool)
    requires AllHonest(repos) && !LooksLikeRevision(policy.ref)
    requires forall p | p in PlanPolicy(policy, resolve, repos) :: Calm(p, env)
    requires forall k, l | 0 <= k < l < |policy.dests| :: policy.dests[k] != policy.dests[l]
    ensures var after := ApplyPolicy(PlanPolicy(policy, resolve, repos), env, false, repos).0;
            var (last, o) := ApplyPolicy(PlanPolicy(policy, resolve, after), later, dry, after);
            && last == after && o.Targets?
            && (forall ops: seq<Op> | ops in o.operations :: |ops| == 1 && ops[0].kind == Skipped)
  {
    hide Honest, ApplyOne, Calm, Designates, LooksLikeRevision, PlanFor, ApplyPolicy;
    var plans := PlanPolicy(policy, resolve, repos);
    forall p | p in plans ensures Accurate(p, repos) && p.ref == policy.ref {
      var i :| 0 <= i < |plans| && plans[i] == p;
      PlanForIs(policy.url, policy.ref, policy.dests[i], resolve(policy.url, policy.ref),
          TagsOf(repos, policy.dests[i]));
    }
    forall k, l | 0 <= k < l < |plans| ensures plans[k].dest != plans[l].dest {
      PlanForIs(policy.url, policy.ref, policy.dests[k], resolve(policy.url, policy.ref),
          TagsOf(repos, policy.dests[k]));
      PlanForIs(policy.url, policy.ref, policy.dests[l], resolve(policy.url, policy.ref),
          TagsOf(repos, policy.dests[l]));
    }
    PolicyConverges(plans, env, repos);
    var after := ApplyPolicy(plans, env, false, repos).0;
    var again := PlanPolicy(policy, resolve, after);
    forall p | p in again
      ensures p.dest in after && ApplyOne(p, later, dry, after[p.dest]) == (after[p.dest], Ok([SkipOp(p)]))
    {
      var i :| 0 <= i < |again| && again[i] == p;
      PlanForIs(policy.url, policy.ref, policy.dests[i], resolve(policy.url, policy.ref),
          TagsOf(after, policy.dests[i]));
      PlanForIs(policy.url, policy.ref, policy.dests[i], resolve(policy.url, policy.ref),
          TagsOf(repos, policy.dests[i]));
      assert plans[i] in plans;
      NextRunSkips(p.url, p.ref, p.dest, p.revision, after[p.dest], later, dry);
    }
    AllSkip(again, later, dry, after);
  }

  lemma PlanForIs(url: string, ref: string, dest: string, revision: string, tags: Tags)
    ensures var p := PlanFor(url, ref, dest, revision, tags);
            p.url == url && p.ref == ref && p.dest == dest && p.revision == revision
  {
  }

  lemma {:induction false} AllSkip(plans: seq<GitPlan>, env: Env, dry: bool, repos: Repos)
    requires forall p | p in plans ::
               p.dest in repos && ApplyOne(p, env, dry, repos[p.dest]) == (repos[p.dest], Ok([SkipOp(p)]))
    ensures var (after, o) := ApplyPolicy(plans, env, dry, repos);
            after == repos && o.Targets? && forall ops: seq<Op> | ops in o.operations ::
                |ops| == 1 && ops[0].kind == Skipped
    decreases |plans|
  {
    hide ApplyOne;
    if plans != [] {
      var p := plans[0];
      assert p in plans && repos[p.dest := repos[p.dest]] == repos;
      AllSkip(plans[1..], env, dry, repos);
    }
  }

  // ---- what is listed -----------------------------------------------------------------------------------------------

  /** What an application lists for one destination, dry or not, when it lists anything. */
  lemma TargetListing(p: GitPlan, env: Env, dry: bool, tags: Tags)
    ensures var t := "sha-" + p.revision;
            var r := ApplyOne(p, env, dry, tags).1;
            r.Ok? ==>
              r.value == if p.placed && p.aliasCurrent then [Op(Skipped, t, p.ref, p.revision, true)]
                         else if p.placed then [Op(Aliased, p.ref, t, p.revision, !dry)]
                         else [Op(Imported, t, p.ref, p.revision, !dry), Op(Aliased, p.ref, t, p.revision, !dry)]
  {
  }

  // ---- preview ------------------------------------------------------------------------------------------------------

  function Unapplied(ops: seq<Op>): (r: seq<Op>)
    ensures |r| == |ops| && forall i | 0 <= i < |r| :: r[i] == ops[i].(applied := false)
  {
    seq(|ops|, i requires 0 <= i < |ops| => ops[i].(applied := false))
  }

  /** For one destination, a dry run changes nothing and lists the operations a calm run performs. */
  lemma TargetPreview(p: GitPlan, tags: Tags, actual: Tags, env: Env, calm: Env)
    requires Calm(p, calm) && (p.placed ==> RevisionTag(p.revision) in actual)
    ensures var (dryTags, planned) := ApplyOne(p, env, true, tags);
            var (actualTags, done) := ApplyOne(p, calm, false, actual);
            && dryTags == tags && actual.Keys <= actualTags.Keys
            && planned.Ok? && done.Ok? && Unapplied(planned.value) == Unapplied(done.value)
  {
  }

  /** The same operations for every destination, performed or not. */
  ghost predicate SameListing(x: Outcome, y: Outcome) {
    && x.Targets? && y.Targets? && |x.operations| == |y.operations|
    && forall i | 0 <= i < |x.operations| :: Unapplied(x.operations[i]) == Unapplied(y.operations[i])
  }

  ghost predicate SameTags(a: Repos, b: Repos) { forall d :: TagsOf(a, d) == TagsOf(b, d) }

  ghost predicate MoreTags(a: Repos, b: Repos) { forall d :: TagsOf(a, d).Keys <= TagsOf(b, d).Keys }

  /** What a plan takes to be placed is there, and nothing fails for it. */
  ghost predicate Sure(p: GitPlan, calm: Env, repos: Repos) {
    Calm(p, calm) && (p.placed ==> RevisionTag(p.revision) in TagsOf(repos, p.dest))
  }

  lemma StaysSure(p: GitPlan, calm: Env, a: Repos, b: Repos)
    requires Sure(p, calm, a) && MoreTags(a, b)
    ensures Sure(p, calm, b)
  {
    hide Calm;
    assert TagsOf(a, p.dest).Keys <= TagsOf(b, p.dest).Keys;
  }

  /** ... for a policy, the dry run starting from any repositories ... */
  lemma {:induction false} PolicyPreview(plans: seq<GitPlan>, env: Env, calm: Env, repos: Repos, actual: Repos)
    requires forall p | p in plans :: Sure(p, calm, actual)
    ensures var (a, x) := ApplyPolicy(plans, env, true, repos);
            var (b, y) := ApplyPolicy(plans, calm, false, actual);
            SameTags(a, repos) && MoreTags(actual, b) && SameListing(x, y)
    decreases |plans|
  {
    hide ApplyOne, Unapplied;
    if plans != [] {
      var p := plans[0];
      assert p in plans;
      assert Sure(p, calm, actual);
      TargetPreview(p, TagsOf(repos, p.dest), TagsOf(actual, p.dest), env, calm);
      var repos1 := repos[p.dest := ApplyOne(p, env, true, TagsOf(repos, p.dest)).0];
      var actual1 := actual[p.dest := ApplyOne(p, calm, false, TagsOf(actual, p.dest)).0];
      assert MoreTags(actual, actual1) && SameTags(repos1, repos);
      forall q | q in plans[1..] ensures Sure(q, calm, actual1) {
        StaysSure(q, calm, actual, actual1);
      }
      PolicyPreview(plans[1..], env, calm, repos1, actual1);
    }
  }

  lemma {:induction false} BatchPreview(batch: seq<seq<GitPlan>>, env: Env, calm: Env, repos: Repos, actual: Repos)
    requires forall plans, p | plans in batch && p in plans :: Sure(p, calm, actual)
    ensures var (a, xs) := ApplyAll(batch, env, true, repos);
            var (b, ys) := ApplyAll(batch, calm, false, actual);
            && SameTags(a, repos) && MoreTags(actual, b)
            && |xs| == |ys| == |batch| && forall i | 0 <= i < |xs| :: SameListing(xs[i], ys[i])
    decreases |batch|
  {
    hide ApplyPolicy, SameListing;
    if batch != [] {
      assert batch[0] in batch;
      PolicyPreview(batch[0], env, calm, repos, actual);
      var repos1, actual1 := ApplyPolicy(batch[0], env, true, repos).0, ApplyPolicy(batch[0], calm, false, actual).0;
      forall plans, p | plans in batch[1..] && p in plans ensures Sure(p, calm, actual1) {
        StaysSure(p, calm, actual, actual1);
      }
      BatchPreview(batch[1..], env, calm, repos1, actual1);
    }
  }

  /**
   Planning any number of policies and applying the batch dry changes no tag of any repository
   and lists, policy by policy and destination by destination, the operations that a calm
   application of the same batch performs.
   */
  lemma FaithfulGitPreview(policies: seq<GitPolicy>, resolve: Resolver, env: Env, calm: Env, repos: Repos)
    requires forall plans, p | plans in PlanAll(policies, resolve, repos) && p in plans :: Calm(p, calm)
    ensures var batch := PlanAll(policies, resolve, repos);
            var (a, xs) := ApplyAll(batch, env, true, repos);
            var (b, ys) := ApplyAll(batch, calm, false, repos);
            SameTags(a, repos) && |xs| == |ys| == |policies| && forall i | 0 <= i < |xs| :: SameListing(xs[i], ys[i])
  {
    hide ApplyAll, Calm, SameListing;
    var batch := PlanAll(policies, resolve, repos);
    forall plans, p | plans in batch && p in plans ensures Sure(p, calm, repos) {
      var i :| 0 <= i < |batch| && batch[i] == plans;
      var j :| 0 <= j < |plans| && plans[j] == p;
      assert p == PlanFor(policies[i].url, policies[i].ref, policies[i].dests[j],
          resolve(policies[i].url, policies[i].ref),
                          TagsOf(repos, policies[i].dests[j]));
    }
    BatchPreview(batch, env, calm, repos, repos);
  }
}
