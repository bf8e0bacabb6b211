/**
 What the tags of git destinations carry over every run: trees that fetches brought, each
 under the revision it was fetched with (intake_skill in knock/use_cases/intake.py).
 */
module GitTrees {
  import opened Wrappers
  import opened GitPlacement

  // ---- every placed tree was fetched ---------------------------------------------------------------------

  /** In some policy's name a fetch of this round brought, with this revision, this tree for this destination. */
  ghost predicate Fetches(x: Round, d: string, a: Artifact) {
    exists p :: p in x.policies && FetchedFor(x.env, p, d, a)
  }

  ghost predicate FetchedFor(env: Env, p: GitPolicy, d: string, a: Artifact) {
    && d in p.dests && a.revision.Some?
    && env.fetch(p.url, p.ref) == Some(Fetched(a.revision.value, a.tree, true))
  }

  /** Each artifact under a revision tag was under it before, or was fetched in this round with that revision. */
  ghost predicate TagsTraced(x: Round, d: string, tags: Tags, after: Tags) {
    forall r | "sha-" + r in after :: TagTraced(x, d, tags, after, r)
  }

  ghost predicate TagTraced(x: Round, d: string, tags: Tags, after: Tags, r: string)
    requires "sha-" + r in after
  {
    || ("sha-" + r in tags && after["sha-" + r] == tags["sha-" + r])
    || (after["sha-" + r].revision == Some(r) && Fetches(x, d, after["sha-" + r]))
  }

  ghost predicate Traced(x: Round, a: Repos, b: Repos) {
    forall d :: TagsTraced(x, d, TagsOf(a, d), TagsOf(b, d))
  }

  ghost predicate PlainRefs(x: Round) { forall p | p in x.policies :: !LooksLikeRevision(p.ref) }

  /** A plan of one of the round's policies, for one of its destinations. */
  ghost predicate PlanOf(x: Round, p: GitPlan) {
    exists q :: q in x.policies && p.url == q.url && p.ref == q.ref && p.dest in q.dests
  }

  lemma OneTraced(x: Round, p: GitPlan, tags: Tags)
    requires PlainRefs(x) && PlanOf(x, p)
    ensures TagsTraced(x, p.dest, tags, ApplyOne(p, x.env, x.dry, tags).0)
  {
    var q :| q in x.policies && p.url == q.url && p.ref == q.ref && p.dest in q.dests;
    var after := ApplyOne(p, x.env, x.dry, tags).0;
    forall r | "sha-" + r in after ensures TagTraced(x, p.dest, tags, after, r) {
      RevisionTagReads(r);
      assert p.ref != "sha-" + r;
      if !("sha-" + r in tags && after["sha-" + r] == tags["sha-" + r]) {
        SameRevision(r, p.revision);
        assert FetchedFor(x.env, q, p.dest, after["sha-" + r]);
      }
    }
  }

  lemma SameRevision(r: string, q: string)
    ensures "sha-" + r == RevisionTag(q) ==> r == q
  {
    assert ("sha-" + r)[4..] == r && RevisionTag(q)[4..] == q;
  }

  lemma TracedTwice(x: Round, a: Repos, b: Repos, c: Repos)
    requires Traced(x, a, b) && Traced(x, b, c)
    ensures Traced(x, a, c)
  {
    hide Fetches;
    forall d, r | "sha-" + r in TagsOf(c, d) ensures TagTraced(x, d, TagsOf(a, d), TagsOf(c, d), r) {
      assert TagTraced(x, d, TagsOf(b, d), TagsOf(c, d), r);
      if "sha-" + r in TagsOf(b, d) {
        assert TagTraced(x, d, TagsOf(a, d), TagsOf(b, d), r);
      }
    }
  }

  lemma {:induction false} PolicyTraced(x: Round, plans: seq<GitPlan>, repos: Repos)
    requires PlainRefs(x) && forall p | p in plans :: PlanOf(x, p)
    ensures Traced(x, repos, ApplyPolicy(plans, x.env, x.dry, repos).0)
    decreases |plans|
  {
    hide ApplyOne, PlanOf, Fetches, PlainRefs;
    if plans != [] {
      var p := plans[0];
      assert p in plans;
      OneTraced(x, p, TagsOf(repos, p.dest));
      var repos1 := repos[p.dest := ApplyOne(p, x.env, x.dry, TagsOf(repos, p.dest)).0];
      assert Traced(x, repos, repos1);
      PolicyTraced(x, plans[1..], repos1);
      TracedTwice(x, repos, repos1, ApplyPolicy(plans[1..], x.env, x.dry, repos1).0);
    }
  }

  lemma {:induction false} BatchTraced(x: Round, batch: seq<seq<GitPlan>>, repos: Repos)
    requires PlainRefs(x) && forall plans, p | plans in batch && p in plans :: PlanOf(x, p)
    ensures Traced(x, repos, ApplyAll(batch, x.env, x.dry, repos).0)
    decreases |batch|
  {
    hide ApplyPolicy, PlanOf, Fetches, PlainRefs;
    if batch != [] {
      assert batch[0] in batch;
      PolicyTraced(x, batch[0], repos);
      var repos1 := ApplyPolicy(batch[0], x.env, x.dry, repos).0;
      assert forall plans | plans in batch[1..] :: plans in batch;
      BatchTraced(x, batch[1..], repos1);
      TracedTwice(x, repos, repos1, ApplyAll(batch[1..], x.env, x.dry, repos1).0);
    }
  }

  lemma PlansAreOf(x: Round, repos: Repos)
    ensures forall plans, p | plans in PlanAll(x.policies, x.resolve, repos) && p in plans :: PlanOf(x, p)
  {
    var batch := PlanAll(x.policies, x.resolve, repos);
    forall plans, p | plans in batch && p in plans ensures PlanOf(x, p) {
      var i :| 0 <= i < |batch| && batch[i] == plans;
      var j :| 0 <= j < |plans| && plans[j] == p;
      assert x.policies[i] in x.policies && x.policies[i].dests[j] in x.policies[i].dests;
    }
  }

  /**
   Over every run, with refs that move and calls that fail anywhere: the artifact under
   `sha-<r>` was there from the start, or its tree is one that a fetch for a policy with that
   destination brought with revision r, and its stamp says r.
   */
  lemma {:induction false} TreesAreFetched(xs: seq<Round>, repos: Repos, d: string, r: string)
    requires forall x | x in xs :: PlainRefs(x)
    requires "sha-" + r in TagsOf(PlayRounds(xs, repos), d)
    ensures var a := TagsOf(PlayRounds(xs, repos), d)["sha-" + r];
            || ("sha-" + r in TagsOf(repos, d) && TagsOf(repos, d)["sha-" + r] == a)
            || (a.revision == Some(r) && exists x :: x in xs && Fetches(x, d, a))
  {
    hide PlanAll, ApplyAll, Fetches, PlainRefs;
    if xs != [] {
      var n := |xs| - 1;
      var x, before := xs[n], PlayRounds(xs[..n], repos);
      assert x in xs && forall y | y in xs[..n] :: y in xs;
      PlansAreOf(x, before);
      BatchTraced(x, PlanAll(x.policies, x.resolve, before), before);
      assert TagTraced(x, d, TagsOf(before, d), TagsOf(PlayRounds(xs, repos), d), r);
      if "sha-" + r in TagsOf(before, d) {
        TreesAreFetched(xs[..n], repos, d, r);
      }
    }
  }

  // ---- where a revision fixes the tree -------------------------------------------------------------------

  /** Every artifact that names a revision carries that revision's tree. */
  ghost predicate Genuine(tree: string -> string, tags: Tags) {
    forall t, r | t in tags && tags[t].revision == Some(r) :: tags[t].tree == tree(r)
  }

  ghost predicate AllGenuine(tree: string -> string, repos: Repos) { forall d | d in repos :: Genuine(tree, repos[d]) }

  /** Fetches bring a revision with its tree, wherever the ref has moved. */
  ghost predicate Truthful(tree: string -> string, env: Env) {
    forall url, ref | env.fetch(url, ref).Some? ::
      env.fetch(url, ref).value.tree == tree(env.fetch(url, ref).value.revision)
  }

  lemma OneGenuine(tree: string -> string, p: GitPlan, env: Env, dry: bool, tags: Tags)
    requires Genuine(tree, tags) && Truthful(tree, env)
    ensures Genuine(tree, ApplyOne(p, env, dry, tags).0)
  {
  }

  lemma {:induction false} PolicyGenuine(tree: string -> string, plans: seq<GitPlan>, env: Env, dry: bool, repos: Repos)
    requires AllGenuine(tree, repos) && Truthful(tree, env)
    ensures AllGenuine(tree, ApplyPolicy(plans, env, dry, repos).0)
    decreases |plans|
  {
    hide ApplyOne, Truthful;
    if plans != [] {
      var p := plans[0];
      OneGenuine(tree, p, env, dry, TagsOf(repos, p.dest));
      PolicyGenuine(tree, plans[1..], env, dry, repos[p.dest := ApplyOne(p, env, dry, TagsOf(repos, p.dest)).0]);
    }
  }

  lemma {:induction false} BatchGenuine(tree: string -> string, batch: seq<seq<GitPlan>>, env: Env, dry: bool,
                                        repos: Repos)
    requires AllGenuine(tree, repos) && Truthful(tree, env)
    ensures AllGenuine(tree, ApplyAll(batch, env, dry, repos).0)
    decreases |batch|
  {
    hide ApplyPolicy, Truthful, AllGenuine;
    if batch != [] {
      PolicyGenuine(tree, batch[0], env, dry, repos);
      BatchGenuine(tree, batch[1..], env, dry, ApplyPolicy(batch[0], env, dry, repos).0);
    }
  }

  /** Over every run, where a revision fixes the tree, whatever names a revision carries its tree. */
  lemma {:induction false} AlwaysGenuine(tree: string -> string, xs: seq<Round>, repos: Repos)
    requires AllGenuine(tree, repos) && forall x | x in xs :: Truthful(tree, x.env)
    ensures AllGenuine(tree, PlayRounds(xs, repos))
  {
    hide AllGenuine, ApplyAll, Truthful, PlanAll;
    if xs != [] {
      var n := |xs| - 1;
      assert xs[n] in xs && forall y | y in xs[..n] :: y in xs;
      AlwaysGenuine(tree, xs[..n], repos);
      var before := PlayRounds(xs[..n], repos);
      BatchGenuine(tree, PlanAll(xs[n].policies, xs[n].resolve, before), xs[n].env, xs[n].dry, before);
    }
  }

  /** So a tag that designates a revision, and the ref's alias with it, carries that revision's tree. */
  lemma DesignatedTree(tree: string -> string, xs: seq<Round>, repos: Repos, d: string, ref: string, revision: string)
    requires AllGenuine(tree, repos) && forall x | x in xs :: Truthful(tree, x.env)
    requires Designates(TagsOf(PlayRounds(xs, repos), d), ref, revision)
    ensures var tags := TagsOf(PlayRounds(xs, repos), d);
            tags["sha-" + revision] == tags[ref] == Artifact(Some(revision), tree(revision))
  {
    AlwaysGenuine(tree, xs, repos);
  }
}
