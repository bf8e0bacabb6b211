/**
 Sharded pods over the registry mirror engine: the batches of `Sharding`, with what one
 application of a plan does to its destination being `Apply.Run`.
 */
module Pods {
  import opened Registry
  import opened Reconcile
  import opened Apply
  import opened Runs
  import opened Convergence
  import Sharding

  /** One import of one policy: the job follows from what the source held when the batch was planned. */
  datatype Target = Target(policy: string, source: string, dest: string, jobOf: Repo -> Job, build: Builder)

  /** The destination is read again when the plan is applied. */
  ghost function MirrorPlan(x: Target, sw: Switches, outage: Effect -> bool): Sharding.Plan<Repo> {
    Sharding.Plan(x.policy, x.source, x.dest,
                  (planned: Repo, there: Repo, source: Repo, dest: Repo) => Run(x.jobOf(planned), x.build, sw, outage,
                      dest))
  }

  ghost function PlansOf(targets: seq<Target>, sw: Switches, outage: Effect -> bool): (plans: seq<Sharding.Plan<Repo>>)
    ensures |plans| == |targets| && forall i | 0 <= i < |plans| :: plans[i] == MirrorPlan(targets[i], sw, outage)
  {
    seq(|targets|, i requires 0 <= i < |targets| => MirrorPlan(targets[i], sw, outage))
  }

  /** Every destination is written by one target, and no source is another target's destination. */
  ghost predicate OneTargetEach(targets: seq<Target>) {
    && (forall i, j | 0 <= i < j < |targets| :: targets[i].dest != targets[j].dest)
    && (forall i, j | 0 <= i < |targets| && 0 <= j < |targets| && i != j :: targets[i].source != targets[j].dest)
  }

  lemma {:induction false} SoleWriter(plans: seq<Sharding.Plan<Repo>>, planned: Sharding.World<Repo>,
                                      w: Sharding.World<Repo>, k: nat)
    requires k < |plans| && forall j | 0 <= j < |plans| && j != k :: plans[j].dest != plans[k].dest
    requires forall a, b, c, e, d :: plans[k].act(a, b, c, d) == plans[k].act(a, b, e, d)
    ensures Sharding.ApplyAll(plans, planned, w)(plans[k].dest)
            == plans[k].act(planned(plans[k].source), planned(plans[k].dest), w(plans[k].source), w(plans[k].dest))
  {
    var n, p := |plans| - 1, plans[k];
    if k == n {
      forall q | q in plans[..n] ensures q.dest != p.dest {
        var j :| 0 <= j < n && plans[..n][j] == q;
        assert plans[j] == q;
      }
      Sharding.Untouched(plans[..n], planned, w, p.dest);
    } else {
      SoleWriter(plans[..n], planned, w, k);
    }
  }

  lemma TargetsAreOwned(hash: Sharding.Hash, count: nat, targets: seq<Target>, sw: Switches, outage: Effect -> bool)
    requires count > 0 && OneTargetEach(targets)
    ensures Sharding.OneOwner(PlansOf(targets, sw, outage)) &&
              Sharding.ShardsApart(hash, count, PlansOf(targets, sw, outage))
  {
    hide Run;
    var plans := PlansOf(targets, sw, outage);
    forall p, q | p in plans && q in plans
      ensures p.dest == q.dest ==> p.policy == q.policy
      ensures p.source != q.dest || p.policy == q.policy
    {
      var i :| 0 <= i < |plans| && plans[i] == p;
      var j :| 0 <= j < |plans| && plans[j] == q;
      assert p.dest == targets[i].dest && q.dest == targets[j].dest && p.source == targets[i].source;
    }
  }

  /**
   The repository a pass of all shards leaves for each destination is that of one run of its own
   job, whatever fails.
   */
  lemma ShardedPassIsRun(hash: Sharding.Hash, order: seq<nat>, count: nat, targets: seq<Target>, sw: Switches,
                         outage: Effect -> bool,
                         w: Sharding.World<Repo>, k: nat)
    requires count > 0 && OneTargetEach(targets) && Sharding.EachOnce(order, count) && k < |targets|
    ensures var x := targets[k];
            Sharding.RunShards(hash, order, count, PlansOf(targets, sw, outage), w)(x.dest)
            == Run(x.jobOf(w(x.source)), x.build, sw, outage, w(x.dest))
  {
    hide Run, Sharding.RunShards, Sharding.ApplyAll, Sharding.EachOnce;
    var plans := PlansOf(targets, sw, outage);
    TargetsAreOwned(hash, count, targets, sw, outage);
    Sharding.ShardedIsUnsharded(hash, order, count, plans, w, targets[k].dest);
    forall j | 0 <= j < |plans| && j != k ensures plans[j].dest != plans[k].dest {
      assert targets[j].dest != targets[k].dest;
    }
    SoleWriter(plans, w, w, k);
  }

  /** ... and a pass touches nothing else. */
  lemma OthersUntouched(hash: Sharding.Hash, order: seq<nat>, count: nat, targets: seq<Target>, sw: Switches,
                        outage: Effect -> bool,
                        w: Sharding.World<Repo>, r: string)
    requires count > 0 && OneTargetEach(targets) && Sharding.EachOnce(order, count)
    requires forall k | 0 <= k < |targets| :: targets[k].dest != r
    ensures Sharding.RunShards(hash, order, count, PlansOf(targets, sw, outage), w)(r) == w(r)
  {
    hide Run, Sharding.RunShards, Sharding.ApplyAll, Sharding.EachOnce;
    var plans := PlansOf(targets, sw, outage);
    TargetsAreOwned(hash, count, targets, sw, outage);
    Sharding.ShardedIsUnsharded(hash, order, count, plans, w, r);
    forall p | p in plans ensures p.dest != r {
      var j :| 0 <= j < |plans| && plans[j] == p;
    }
    Sharding.Untouched(plans, w, w, r);
  }

  ghost function Pass(hash: Sharding.Hash, order: seq<nat>, count: nat, targets: seq<Target>,
                      w: Sharding.World<Repo>): Sharding.World<Repo>
    requires count > 0
  {
    Sharding.RunShards(hash, order, count, PlansOf(targets, APPLY, NoOutage()), w)
  }

  function Same(build: Builder): nat -> Builder { (n: nat) => build }

  /** A target that reads what it writes derives the same job from what its runs leave. */
  ghost predicate SteadySource(x: Target, w: Sharding.World<Repo>) {
    x.source == x.dest ==>
      forall n: nat | n <= 2 ::
          x.jobOf(After(x.jobOf(w(x.source)), Same(x.build), w(x.dest), n)) == x.jobOf(w(x.source))
  }

  ghost predicate Qualifies(x: Target, w: Sharding.World<Repo>) {
    var job, r := x.jobOf(w(x.source)), w(x.dest);
    SteadySource(x, w) && WellFormed(job) && Lasting(job, r) && Unshared(job, x.build, r)
  }

  lemma PassAt(hash: Sharding.Hash, order: seq<nat>, count: nat, targets: seq<Target>, w: Sharding.World<Repo>,
               v: Sharding.World<Repo>,
               k: nat, n: nat)
    requires count > 0 && OneTargetEach(targets) && Sharding.EachOnce(order, count) && k < |targets| && n <= 2
    requires SteadySource(targets[k], w)
    requires var x := targets[k];
             && (x.source != x.dest ==> v(x.source) == w(x.source))
             && v(x.dest) == After(x.jobOf(w(x.source)), Same(x.build), w(x.dest), n)
    ensures var x := targets[k];
            var r := Pass(hash, order, count, targets, v);
            && (x.source != x.dest ==> r(x.source) == w(x.source))
            && r(x.dest) == After(x.jobOf(w(x.source)), Same(x.build), w(x.dest), n + 1)
  {
    hide Run, Sharding.RunShards, Sharding.EachOnce;
    var x := targets[k];
    ShardedPassIsRun(hash, order, count, targets, APPLY, NoOutage(), v, k);
    if x.source != x.dest {
      OthersUntouched(hash, order, count, targets, APPLY, NoOutage(), v, x.source);
    }
  }

  lemma AfterThree(job: Job, build: Builder, r: Repo)
    requires WellFormed(job) && Lasting(job, r) && Unshared(job, build, r)
    ensures After(job, Same(build), r, 3) == After(job, Same(build), r, 2)
  {
    hide Run, WellFormed, Lasting, Unshared;
    ThirdRunIsNoOp(job, build, build, build, r);
    var builds := Same(build);
    assert After(job, builds, r, 0) == r;
    assert After(job, builds, r, 1) == Run(job, build, APPLY, NoOutage(), r);
  }

  /**
   A fleet of pods converges: after two passes of all shards, each in any order, a third
   changes no repository.
   */
  lemma FleetConverges(hash: Sharding.Hash, first: seq<nat>, second: seq<nat>, third: seq<nat>, count: nat,
                       targets: seq<Target>, w: Sharding.World<Repo>, r: string)
    requires count > 0 && OneTargetEach(targets)
    requires Sharding.EachOnce(first, count) && Sharding.EachOnce(second, count) && Sharding.EachOnce(third, count)
    requires forall x | x in targets :: Qualifies(x, w)
    ensures var w2 := Pass(hash, second, count, targets, Pass(hash, first, count, targets, w));
            Pass(hash, third, count, targets, w2)(r) == w2(r)
  {
    hide Run, Sharding.RunShards, Sharding.EachOnce, WellFormed, Lasting, Unshared, Pass, SteadySource;
    var w1 := Pass(hash, first, count, targets, w);
    var w2 := Pass(hash, second, count, targets, w1);
    if k :| 0 <= k < |targets| && targets[k].dest == r {
      var x := targets[k];
      assert x in targets;
      assert After(x.jobOf(w(x.source)), Same(x.build), w(x.dest), 0) == w(x.dest);
      PassAt(hash, first, count, targets, w, w, k, 0);
      PassAt(hash, second, count, targets, w, w1, k, 1);
      PassAt(hash, third, count, targets, w, w2, k, 2);
      AfterThree(x.jobOf(w(x.source)), x.build, w(x.dest));
    } else {
      PassElsewhere(hash, third, count, targets, w2, r);
    }
  }

  lemma PassElsewhere(hash: Sharding.Hash, order: seq<nat>, count: nat, targets: seq<Target>, w: Sharding.World<Repo>,
                      r: string)
    requires count > 0 && OneTargetEach(targets) && Sharding.EachOnce(order, count)
    requires forall k | 0 <= k < |targets| :: targets[k].dest != r
    ensures Pass(hash, order, count, targets, w)(r) == w(r)
  {
    hide Run, Sharding.RunShards, Sharding.EachOnce;
    OthersUntouched(hash, order, count, targets, APPLY, NoOutage(), w, r);
  }
}
