/**
 Horizontal sharding (knock/domain/collision.py, knock/domain/sharding.py and the driver in
 knock/use_cases/reconcile.py). The hash of a policy name is a parameter, and so is what one
 plan makes of its destination; here is when running shard by shard amounts to one run.
 */
module Sharding {
  import opened Wrappers

  // ---- the checks ------------------------------------------------------------------------------------------------

  datatype Owner = Owner(repo: string, policy: string)

  datatype AliasTarget = AliasTarget(repo: string, alias: string, target: string)

  ghost predicate OneOwnerEach(owners: seq<Owner>) {
    forall i, j | 0 <= i < |owners| && 0 <= j < |owners| && owners[i].repo == owners[j].repo ::
        owners[i].policy == owners[j].policy
  }

  ghost predicate AliasesUnique(entries: seq<AliasTarget>) {
    forall i, j | 0 <= i < j < |entries| :: (entries[i].repo, entries[i].alias) != (entries[j].repo, entries[j].alias)
  }

  ghost predicate Groups(owners: seq<Owner>, byRepo: map<string, set<string>>) {
    && (forall o | o in owners :: o.repo in byRepo && o.policy in byRepo[o.repo])
    && (forall r, p | r in byRepo && p in byRepo[r] :: Owner(r, p) in owners)
  }

  method PoliciesByRepo(owners: seq<Owner>) returns (byRepo: map<string, set<string>>)
    ensures Groups(owners, byRepo)
  {
    byRepo := map[];
    for i := 0 to |owners|
      invariant Groups(owners[..i], byRepo)
    {
      var o := owners[i];
      assert owners[..i + 1] == owners[..i] + [o];
      byRepo := byRepo[o.repo := (if o.repo in byRepo then byRepo[o.repo] else {}) + {o.policy}];
    }
    assert owners[..|owners|] == owners;
  }

  /** The repository claimed by more than one policy, if there is one. */
  method DetectDestRepoCollisions(owners: seq<Owner>) returns (collision: Option<string>)
    ensures collision.None? <==> OneOwnerEach(owners)
    ensures collision.Some? ==>
              exists i, j ::
                  0 <= i < j < |owners| && owners[i].repo == owners[j].repo == collision.value &&
                      owners[i].policy != owners[j].policy
  {
    var byRepo := PoliciesByRepo(owners);
    var todo := byRepo.Keys;
    while todo != {}
      invariant todo <= byRepo.Keys
      invariant forall r | r in byRepo && r !in todo :: |byRepo[r]| <= 1
      decreases |todo|
    {
      var r :| r in todo;
      if |byRepo[r]| > 1 {
        ghost var i, j := ClaimedTwice(owners, byRepo, r);
        return Some(r);
      }
      todo := todo - {r};
    }
    ClaimedOnce(owners, byRepo);
    return None;
  }

  lemma ClaimedTwice(owners: seq<Owner>, byRepo: map<string, set<string>>, r: string) returns (i: nat, j: nat)
    requires Groups(owners, byRepo) && r in byRepo && |byRepo[r]| > 1
    ensures i < j < |owners| && owners[i].repo == owners[j].repo == r && owners[i].policy != owners[j].policy
  {
    var a, b := TwoOf(byRepo[r]);
    var k :| 0 <= k < |owners| && owners[k] == Owner(r, a);
    var l :| 0 <= l < |owners| && owners[l] == Owner(r, b);
    i, j := if k < l then k else l, if k < l then l else k;
  }

  lemma ClaimedOnce(owners: seq<Owner>, byRepo: map<string, set<string>>)
    requires Groups(owners, byRepo) && forall r | r in byRepo :: |byRepo[r]| <= 1
    ensures OneOwnerEach(owners)
  {
    forall i, j | 0 <= i < |owners| && 0 <= j < |owners| && owners[i].repo == owners[j].repo
      ensures owners[i].policy == owners[j].policy
    {
      assert owners[i] in owners && owners[j] in owners;
      AtMostOne(byRepo[owners[i].repo], owners[i].policy, owners[j].policy);
    }
  }

  lemma TwoOf(s: set<string>) returns (a: string, b: string)
    requires |s| > 1
    ensures a in s && b in s && a != b
  {
    a :| a in s;
    assert |s - {a}| > 0;
    b :| b in s - {a};
  }

  lemma AtMostOne(s: set<string>, a: string, b: string)
    requires |s| <= 1 && a in s && b in s
    ensures a == b
  {
    if a != b {
      assert |{a, b}| == 2 && {a, b} <= s;
      Smaller({a, b}, s);
    }
  }

  lemma Smaller(a: set<string>, b: set<string>)
    requires a <= b
    ensures |a| <= |b|
  {
    assert b == a + (b - a);
  }

  /** The position of an alias written a second time into one repository, if there is one. */
  method DetectAliasCollisions(entries: seq<AliasTarget>) returns (second: Option<nat>)
    ensures second.None? <==> AliasesUnique(entries)
    ensures second.Some? ==>
              && second.value < |entries|
              && exists i ::
                  0 <= i < second.value &&
                      (entries[i].repo, entries[i].alias) == (entries[second.value].repo, entries[second.value].alias)
  {
    var seen: map<(string, string), string> := map[];
    for i := 0 to |entries|
      invariant forall k :: k in seen <==> exists j :: 0 <= j < i && k == (entries[j].repo, entries[j].alias)
      invariant AliasesUnique(entries[..i])
    {
      var e := entries[i];
      if (e.repo, e.alias) in seen {
        return Some(i);
      }
      assert entries[..i + 1] == entries[..i] + [e];
      forall j | 0 <= j < i ensures (entries[j].repo, entries[j].alias) != (e.repo, e.alias) {
        assert (entries[j].repo, entries[j].alias) in seen;
      }
      seen := seen[(e.repo, e.alias) := e.target];
    }
    assert entries[..|entries|] == entries;
    return None;
  }

  // ---- shards -------------------------------------------------------------------------------------------------------

  type Hash = string -> nat

  function PolicyShard(hash: Hash, name: string, count: nat): (shard: nat)
    requires count > 0
    ensures shard < count && exists k: nat :: hash(name) == k * count + shard
  {
    assert hash(name) == (hash(name) / count) * count + hash(name) % count;
    hash(name) % count
  }

  predicate Owns(hash: Hash, name: string, index: nat, count: nat)
    requires count > 0
  {
    PolicyShard(hash, name, count) == index
  }

  // ---- batches of plans ---------------------------------------------------------------------------------------------

  type World<T> = string -> T

  /**
   One destination of one policy. `act` is what applying it makes of the destination, from
   the source and destination as they were when the batch was planned and as they are now.
   A source outside the registries (a git upstream) is nowhere in the world.
   */
  datatype Plan<!T> = Plan(policy: string, source: string, dest: string, act: (T, T, T, T) -> T)

  function ApplyPlan<T>(p: Plan<T>, planned: World<T>, w: World<T>): World<T> {
    var made := p.act(planned(p.source), planned(p.dest), w(p.source), w(p.dest));
    r => if r == p.dest then made else w(r)
  }

  /** Everything is planned before anything is applied. */
  function ApplyAll<T>(plans: seq<Plan<T>>, planned: World<T>, w: World<T>): World<T> {
    if plans == [] then w else ApplyPlan(plans[|plans| - 1], planned, ApplyAll(plans[..|plans| - 1], planned, w))
  }

  function RunBatch<T>(plans: seq<Plan<T>>, w: World<T>): World<T> { ApplyAll(plans, w, w) }

  function Where<T>(plans: seq<Plan<T>>, keep: Plan<T> -> bool): seq<Plan<T>> {
    if plans == [] then []
    else
      var n := |plans| - 1;
      Where(plans[..n], keep) + if keep(plans[n]) then [plans[n]] else []
  }

  function OwnedBy<T>(hash: Hash, index: nat, count: nat): Plan<T> -> bool
    requires count > 0
  {
    (p: Plan<T>) => Owns(hash, p.policy, index, count)
  }

  /** One run per shard, in some order, each planning from what the earlier ones left. */
  function RunShards<T>(hash: Hash, order: seq<nat>, count: nat, plans: seq<Plan<T>>, w: World<T>): World<T>
    requires count > 0
  {
    if order == [] then w
    else
      var n := |order| - 1;
      RunBatch(Where(plans, OwnedBy(hash, order[n], count)), RunShards(hash, order[..n], count, plans, w))
  }

  ghost predicate OneOwner<T(!new)>(plans: seq<Plan<T>>) {
    forall p, q | p in plans && q in plans && p.dest == q.dest :: p.policy == q.policy
  }

  /** No shard reads what another shard writes. */
  ghost predicate ShardsApart<T(!new)>(hash: Hash, count: nat, plans: seq<Plan<T>>)
    requires count > 0
  {
    forall p, q | p in plans && q in plans &&
        PolicyShard(hash, p.policy, count) != PolicyShard(hash, q.policy, count) ::
      p.source != q.dest
  }

  /** Each repository is written by one shard at most. */
  lemma OneShardPerRepo<T(!new)>(hash: Hash, count: nat, plans: seq<Plan<T>>, p: Plan<T>, q: Plan<T>)
    requires count > 0 && OneOwner(plans) && p in plans && q in plans && p.dest == q.dest
    ensures PolicyShard(hash, p.policy, count) == PolicyShard(hash, q.policy, count)
  {
  }

  lemma {:induction false} WhereMembers<T(!new)>(plans: seq<Plan<T>>, keep: Plan<T> -> bool)
    ensures forall p :: p in Where(plans, keep) <==> p in plans && keep(p)
  {
    if plans != [] {
      var n := |plans| - 1;
      assert plans == plans[..n] + [plans[n]];
      WhereMembers(plans[..n], keep);
    }
  }

  lemma {:induction false} Untouched<T(!new)>(plans: seq<Plan<T>>, planned: World<T>, w: World<T>, r: string)
    requires forall p | p in plans :: p.dest != r
    ensures ApplyAll(plans, planned, w)(r) == w(r)
  {
    if plans != [] {
      var n := |plans| - 1;
      assert plans[n] in plans && forall p | p in plans[..n] :: p in plans;
      Untouched(plans[..n], planned, w, r);
    }
  }

  /** The repositories no other shard writes: all that a shard reads and writes is among them. */
  ghost predicate Own<T(!new)>(hash: Hash, index: nat, count: nat, plans: seq<Plan<T>>, r: string)
    requires count > 0
  {
    forall q | q in plans && q.dest == r :: Owns(hash, q.policy, index, count)
  }

  lemma ReadsAndWritesOwn<T(!new)>(hash: Hash, index: nat, count: nat, plans: seq<Plan<T>>, p: Plan<T>)
    requires count > 0 && OneOwner(plans) && ShardsApart(hash, count, plans) && p in plans &&
               Owns(hash, p.policy, index, count)
    ensures Own(hash, index, count, plans, p.source) && Own(hash, index, count, plans, p.dest)
  {
  }

  /** On a shard's own repositories one run does what the shard's plans alone would. */
  lemma {:induction false} OwnPlansDecide<T(!new)>(hash: Hash, index: nat, count: nat, all: seq<Plan<T>>,
                                            plans: seq<Plan<T>>, planned: World<T>, w: World<T>)
    requires count > 0 && OneOwner(all) && ShardsApart(hash, count, all) && forall p | p in plans :: p in all
    ensures forall r | Own(hash, index, count, all, r) ::
              ApplyAll(plans, planned, w)(r) == ApplyAll(Where(plans, OwnedBy(hash, index, count)), planned, w)(r)
  {
    hide Own, OneOwner, ShardsApart;
    if plans != [] {
      var n := |plans| - 1;
      var p, front := plans[n], plans[..n];
      var mine := Where(front, OwnedBy(hash, index, count));
      assert p in plans && forall q | q in front :: q in plans;
      OwnPlansDecide(hash, index, count, all, front, planned, w);
      if Owns(hash, p.policy, index, count) {
        ReadsAndWritesOwn(hash, index, count, all, p);
        assert (mine + [p])[..|mine|] == mine;
      } else {
        assert mine + [] == mine;
        forall r | Own(hash, index, count, all, r) ensures r != p.dest {
          NotOwn(hash, index, count, all, r, p);
        }
      }
    }
  }

  lemma NotOwn<T(!new)>(hash: Hash, index: nat, count: nat, all: seq<Plan<T>>, r: string, p: Plan<T>)
    requires count > 0 && Own(hash, index, count, all, r) && p in all && !Owns(hash, p.policy, index, count)
    ensures r != p.dest
  {
  }

  /** A shard run from worlds that agree on its own repositories leaves them alike. */
  lemma {:induction false} OwnViewDecides<T(!new)>(hash: Hash, index: nat, count: nat, all: seq<Plan<T>>,
                                            mine: seq<Plan<T>>,
                                                   a: World<T>, b: World<T>, w: World<T>, v: World<T>)
    requires count > 0 && OneOwner(all) && ShardsApart(hash, count, all)
    requires forall p | p in mine :: p in all && Owns(hash, p.policy, index, count)
    requires forall r | Own(hash, index, count, all, r) :: a(r) == b(r) && w(r) == v(r)
    ensures forall r | Own(hash, index, count, all, r) :: ApplyAll(mine, a, w)(r) == ApplyAll(mine, b, v)(r)
  {
    hide Own, OneOwner, ShardsApart;
    if mine != [] {
      var n := |mine| - 1;
      assert mine[n] in mine && forall p | p in mine[..n] :: p in mine;
      OwnViewDecides(hash, index, count, all, mine[..n], a, b, w, v);
      ReadsAndWritesOwn(hash, index, count, all, mine[n]);
    }
  }

  /**
   A shard's own repositories are untouched until it runs, and from then on as its run from the
   start would leave them.
   */
  lemma {:induction false} OwnAfterShards<T(!new)>(hash: Hash, index: nat, order: seq<nat>, count: nat,
                                            plans: seq<Plan<T>>, w: World<T>)
    requires count > 0 && OneOwner(plans) && ShardsApart(hash, count, plans)
    requires forall i, j | 0 <= i < j < |order| :: order[i] != order[j]
    ensures forall r | Own(hash, index, count, plans, r) ::
              RunShards(hash, order, count, plans, w)(r) ==
              if index in order then RunBatch(Where(plans, OwnedBy(hash, index, count)), w)(r) else w(r)
  {
    hide OneOwner, ShardsApart, ApplyAll, Where, Own;
    if order != [] {
      var n := |order| - 1;
      var last := order[n];
      assert order == order[..n] + [last];
      OwnAfterShards(hash, index, order[..n], count, plans, w);
      var before := RunShards(hash, order[..n], count, plans, w);
      var mine := Where(plans, OwnedBy(hash, last, count));
      WhereMembers(plans, OwnedBy(hash, last, count));
      if last == index {
        assert index !in order[..n];
        OwnViewDecides(hash, index, count, plans, mine, before, w, before, w);
      } else {
        forall r | Own(hash, index, count, plans, r) ensures RunBatch(mine, before)(r) == before(r) {
          forall p | p in mine ensures p.dest != r {
            NotOwn(hash, index, count, plans, r, p);
          }
          Untouched(mine, before, before, r);
        }
      }
    }
  }

  /** Every shard once, in some order. */
  ghost predicate EachOnce(order: seq<nat>, count: nat) {
    && (forall i, j | 0 <= i < j < |order| :: order[i] != order[j])
    && (forall i: nat :: i in order <==> i < count)
  }

  /**
   Sharded equals unsharded: with one owner per repository and no shard reading what another
   writes, running all shards once, in any order, leaves every repository as one unsharded
   run does. A policy may read what it writes itself, and so may the policies of one shard.
   */
  lemma ShardedIsUnsharded<T(!new)>(hash: Hash, order: seq<nat>, count: nat, plans: seq<Plan<T>>, w: World<T>,
                             repo: string)
    requires count > 0 && OneOwner(plans) && ShardsApart(hash, count, plans) && EachOnce(order, count)
    ensures RunShards(hash, order, count, plans, w)(repo) == RunBatch(plans, w)(repo)
  {
    hide OneOwner, ShardsApart, ApplyAll, Where, RunShards;
    var index := 0;
    if p :| p in plans && p.dest == repo {
      index := PolicyShard(hash, p.policy, count);
      forall q | q in plans && q.dest == repo ensures Owns(hash, q.policy, index, count) {
        OneShardPerRepo(hash, count, plans, p, q);
      }
    }
    assert Own(hash, index, count, plans, repo);
    OwnAfterShards(hash, index, order, count, plans, w);
    OwnPlansDecide(hash, index, count, plans, plans, w, w);
  }

  // ---- and only then ------------------------------------------------------------------------------------------------

  /** What the checks see of a plan. */
  datatype Route = Route(policy: string, source: string, dest: string)

  function RouteOf<T>(p: Plan<T>): Route { Route(p.policy, p.source, p.dest) }

  ghost predicate Follows<T(!new)>(plans: seq<Plan<T>>, routes: seq<Route>) {
    |plans| == |routes| && forall i | 0 <= i < |plans| :: RouteOf(plans[i]) == routes[i]
  }

  ghost predicate RoutesOwned(routes: seq<Route>) {
    forall a, b | a in routes && b in routes && a.dest == b.dest :: a.policy == b.policy
  }

  ghost predicate RoutesApart(hash: Hash, count: nat, routes: seq<Route>)
    requires count > 0
  {
    forall a, b | a in routes && b in routes &&
        PolicyShard(hash, a.policy, count) != PolicyShard(hash, b.policy, count) ::
      a.source != b.dest
  }

  lemma RoutesOfPlans<T(!new)>(hash: Hash, count: nat, plans: seq<Plan<T>>, routes: seq<Route>)
    requires count > 0 && Follows(plans, routes)
    ensures RoutesOwned(routes) ==> OneOwner(plans)
    ensures RoutesApart(hash, count, routes) ==> ShardsApart(hash, count, plans)
    ensures forall p | p in plans :: RouteOf(p) in routes
  {
    forall p | p in plans ensures RouteOf(p) in routes {
      var i :| 0 <= i < |plans| && plans[i] == p;
      assert routes[i] == RouteOf(p);
    }
    assert forall p, q | p in plans && q in plans && p.dest == q.dest :: RouteOf(p).dest == RouteOf(q).dest;
    assert forall p, q | p in plans && q in plans && p.source == q.dest :: RouteOf(p).source == RouteOf(q).dest;
  }

  // Three things a plan may make of its destination: what its source was when planned, a one, nothing new.

  function Reading(): (nat, nat, nat, nat) -> nat { (planned: nat, there: nat, source: nat, dest: nat) => planned }

  function Writing(): (nat, nat, nat, nat) -> nat { (planned: nat, there: nat, source: nat, dest: nat) => 1 }

  function Idling(): (nat, nat, nat, nat) -> nat { (planned: nat, there: nat, source: nat, dest: nat) => dest }

  ghost predicate Reads(p: Plan<nat>) { forall a, b, c, d :: p.act(a, b, c, d) == a }

  ghost predicate Writes(p: Plan<nat>) { forall a, b, c, d :: p.act(a, b, c, d) == 1 }

  ghost predicate Idles(p: Plan<nat>) { forall a, b, c, d :: p.act(a, b, c, d) == d }

  function RoleOf(k: nat, reader: nat, writer: nat): (nat, nat, nat, nat) -> nat {
    if k == reader then Reading() else if k == writer then Writing() else Idling()
  }

  function Probe(routes: seq<Route>, reader: nat, writer: nat): (plans: seq<Plan<nat>>)
    ensures |plans| == |routes|
  {
    seq(|routes|, k requires 0 <= k < |routes| =>
      Plan(routes[k].policy, routes[k].source, routes[k].dest, RoleOf(k, reader, writer)))
  }

  function Zeros(): World<nat> { (r: string) => 0 }

  /**
   A repository that one plan fills from `source` and the others leave alone holds what that
   source was, once it ran.
   */
  lemma {:induction false} ReadValue(plans: seq<Plan<nat>>, planned: World<nat>, w: World<nat>, out: string,
                                     source: string)
    requires forall p | p in plans && p.dest == out :: Idles(p) || (Reads(p) && p.source == source)
    ensures (exists p :: p in plans && p.dest == out && Reads(p)) ==>
              ApplyAll(plans, planned, w)(out) == planned(source)
    ensures (forall p | p in plans && p.dest == out :: Idles(p)) ==> ApplyAll(plans, planned, w)(out) == w(out)
  {
    hide Reads, Idles;
    if plans != [] {
      var n := |plans| - 1;
      var p, front := plans[n], plans[..n];
      assert plans == front + [p] && p in plans && forall q | q in front :: q in plans;
      ReadValue(front, planned, w, out, source);
      ActOf(p, planned(p.source), planned(p.dest), ApplyAll(front, planned, w)(p.source),
          ApplyAll(front, planned, w)(p.dest));
    }
  }

  lemma ActOf(p: Plan<nat>, a: nat, b: nat, c: nat, d: nat)
    ensures Reads(p) ==> p.act(a, b, c, d) == a && !Idles(p) && !Writes(p)
    ensures Idles(p) ==> p.act(a, b, c, d) == d && !Writes(p)
    ensures Writes(p) ==> p.act(a, b, c, d) == 1
  {
    assert Reads(p) ==> p.act(0, 0, 0, 2) == 0;
    assert Idles(p) ==> p.act(0, 0, 0, 2) == 2;
    assert Writes(p) ==> p.act(0, 0, 0, 2) == 1;
  }

  lemma {:induction false} WrittenValue(plans: seq<Plan<nat>>, planned: World<nat>, w: World<nat>, out: string)
    requires forall p | p in plans && p.dest == out :: Idles(p) || Writes(p)
    requires exists p :: p in plans && p.dest == out && Writes(p)
    ensures ApplyAll(plans, planned, w)(out) == 1
  {
    hide Writes, Idles;
    var n := |plans| - 1;
    var p, front := plans[n], plans[..n];
    assert plans == front + [p] && p in plans && forall q | q in front :: q in plans;
    ActOf(p, planned(p.source), planned(p.dest), ApplyAll(front, planned, w)(p.source),
        ApplyAll(front, planned, w)(p.dest));
    if exists q :: q in front && q.dest == out && Writes(q) {
      WrittenValue(front, planned, w, out);
    }
  }

  function OtherShards(a: nat, b: nat, count: nat): (r: seq<nat>)
    ensures forall k: nat :: k in r <==> k < count && k != a && k != b
    ensures forall i, j | 0 <= i < j < |r| :: r[i] != r[j]
  {
    if count == 0 then []
    else
      var fewer := OtherShards(a, b, count - 1);
      assert count - 1 !in fewer;
      fewer + if count - 1 == a || count - 1 == b then [] else [count - 1]
  }

  lemma WritersFirst(a: nat, b: nat, count: nat)
    requires a < count && b < count && a != b
    ensures EachOnce([b, a] + OtherShards(a, b, count), count)
  {
    var order, rest := [b, a] + OtherShards(a, b, count), OtherShards(a, b, count);
    forall i: nat ensures i in order <==> i < count {
      assert i in order <==> i == b || i == a || i in rest;
    }
    forall i, j | 0 <= i < j < |order| ensures order[i] != order[j] {
      if j >= 2 {
        assert order[j] == rest[j - 2] && order[j] in rest;
        if i >= 2 {
          assert order[i] == rest[i - 2];
        }
      }
    }
  }

  lemma ShardStep<T>(hash: Hash, order: seq<nat>, last: nat, count: nat, plans: seq<Plan<T>>, w: World<T>)
    requires count > 0
    ensures RunShards(hash, order + [last], count, plans, w) ==
            RunBatch(Where(plans, OwnedBy(hash, last, count)), RunShards(hash, order, count, plans, w))
  {
    assert (order + [last])[..|order|] == order;
  }

  lemma {:induction false} RestLeaves(hash: Hash, first: seq<nat>, rest: seq<nat>, count: nat, plans: seq<Plan<nat>>,
                                      w: World<nat>, r: string)
    requires count > 0 && forall p | p in plans && p.dest == r :: PolicyShard(hash, p.policy, count) !in rest
    ensures RunShards(hash, first + rest, count, plans, w)(r) == RunShards(hash, first, count, plans, w)(r)
  {
    if rest == [] {
      assert first + rest == first;
    } else {
      hide ApplyAll, Where, RunShards;
      var n := |rest| - 1;
      assert first + rest == first + rest[..n] + [rest[n]];
      RestLeaves(hash, first, rest[..n], count, plans, w, r);
      ShardStep(hash, first + rest[..n], rest[n], count, plans, w);
      var before := RunShards(hash, first + rest[..n], count, plans, w);
      var mine := Where(plans, OwnedBy(hash, rest[n], count));
      WhereMembers(plans, OwnedBy(hash, rest[n], count));
      Untouched(mine, before, before, r);
    }
  }

  lemma ProbeFacts(hash: Hash, count: nat, routes: seq<Route>, i: nat, j: nat)
    requires count > 0 && RoutesOwned(routes) && i < |routes| && j < |routes| && routes[i].source == routes[j].dest
    requires PolicyShard(hash, routes[i].policy, count) != PolicyShard(hash, routes[j].policy, count)
    ensures var plans := Probe(routes, i, j);
            && Follows(plans, routes) && plans[i] in plans && plans[j] in plans && Reads(plans[i]) && Writes(plans[j])
            && (forall p | p in plans && p.dest == routes[i].dest ::
                  PolicyShard(hash, p.policy, count) == PolicyShard(hash, routes[i].policy, count) &&
                      (Idles(p) || p == plans[i]))
            && (forall p | p in plans && p.dest == routes[j].dest ::
                  PolicyShard(hash, p.policy, count) == PolicyShard(hash, routes[j].policy, count) &&
                      (Idles(p) || p == plans[j]))
  {
    var plans := Probe(routes, i, j);
    forall p | p in plans && p.dest in {routes[i].dest, routes[j].dest}
      ensures p.dest == routes[i].dest ==> p.policy == routes[i].policy && (Idles(p) || p == plans[i])
      ensures p.dest == routes[j].dest ==> p.policy == routes[j].policy && (Idles(p) || p == plans[j])
    {
      var k :| 0 <= k < |plans| && plans[k] == p;
      assert routes[k] in routes && routes[i] in routes && routes[j] in routes;
    }
  }

  /** The writer's shard first, then the reader's: the reader plans from what was written. */
  lemma ReaderSeesWriter(hash: Hash, count: nat, routes: seq<Route>, i: nat, j: nat)
    requires count > 0 && RoutesOwned(routes) && i < |routes| && j < |routes| && routes[i].source == routes[j].dest
    requires PolicyShard(hash, routes[i].policy, count) != PolicyShard(hash, routes[j].policy, count)
    ensures var a, b := PolicyShard(hash, routes[i].policy, count), PolicyShard(hash, routes[j].policy, count);
            RunShards(hash, [b, a], count, Probe(routes, i, j), Zeros())(routes[i].dest) == 1
  {
    hide Probe, ApplyAll, Where, Reads, Writes, Idles, RoutesOwned;
    var plans, w := Probe(routes, i, j), Zeros();
    var a, b := PolicyShard(hash, routes[i].policy, count), PolicyShard(hash, routes[j].policy, count);
    ProbeFacts(hash, count, routes, i, j);
    var none: seq<nat> := [];
    var order, early := [b, a], [b];
    assert order[..1] == early && early[..0] == none;
    var ofB, ofA := Where(plans, OwnedBy(hash, b, count)), Where(plans, OwnedBy(hash, a, count));
    WhereMembers(plans, OwnedBy(hash, b, count));
    WhereMembers(plans, OwnedBy(hash, a, count));
    var middle := RunShards(hash, early, count, plans, w);
    assert RunShards(hash, none, count, plans, w) == w;
    assert middle == RunBatch(ofB, w);
    assert plans[j] in ofB && plans[i] in ofA;
    WrittenValue(ofB, w, w, routes[j].dest);
    assert RunShards(hash, order, count, plans, w) == RunBatch(ofA, middle);
    ReadValue(ofA, middle, middle, routes[i].dest, routes[i].source);
  }

  /** In one run the reader planned before anything was written. */
  lemma ReaderMissesWriter(hash: Hash, count: nat, routes: seq<Route>, i: nat, j: nat)
    requires count > 0 && RoutesOwned(routes) && i < |routes| && j < |routes| && routes[i].source == routes[j].dest
    requires PolicyShard(hash, routes[i].policy, count) != PolicyShard(hash, routes[j].policy, count)
    ensures RunBatch(Probe(routes, i, j), Zeros())(routes[i].dest) == 0
  {
    hide Probe, ApplyAll, Reads, Writes, Idles, RoutesOwned;
    ProbeFacts(hash, count, routes, i, j);
    ReadValue(Probe(routes, i, j), Zeros(), Zeros(), routes[i].dest, routes[i].source);
  }

  ghost predicate OrderMatters(hash: Hash, count: nat, routes: seq<Route>)
    requires count > 0
  {
    exists order, plans: seq<Plan<nat>>, w: World<nat>, repo ::
      EachOnce(order, count) && Follows(plans, routes) &&
          RunShards(hash, order, count, plans, w)(repo) != RunBatch(plans, w)(repo)
  }

  /**
   The condition is exact: over all that plans along these routes may do, all worlds and all
   orders, sharding makes a difference if and only if some shard reads what another writes.
   */
  lemma OrderMattersIff(hash: Hash, count: nat, routes: seq<Route>)
    requires count > 0 && RoutesOwned(routes)
    ensures OrderMatters(hash, count, routes) <==> !RoutesApart(hash, count, routes)
  {
    hide Probe, RunShards, RunBatch, RoutesOwned, EachOnce, Follows, OneOwner, ShardsApart;
    if OrderMatters(hash, count, routes) {
      var order, plans: seq<Plan<nat>>, w: World<nat>, repo :|
        EachOnce(order, count) && Follows(plans, routes) &&
            RunShards(hash, order, count, plans, w)(repo) != RunBatch(plans, w)(repo);
      RoutesOfPlans(hash, count, plans, routes);
      if RoutesApart(hash, count, routes) {
        ShardedIsUnsharded(hash, order, count, plans, w, repo);
      }
    }
    if !RoutesApart(hash, count, routes) {
      var x, y :| && x in routes && y in routes && x.source == y.dest
                  && PolicyShard(hash, x.policy, count) != PolicyShard(hash, y.policy, count);
      var i :| 0 <= i < |routes| && routes[i] == x;
      var j :| 0 <= j < |routes| && routes[j] == y;
      var a, b := PolicyShard(hash, x.policy, count), PolicyShard(hash, y.policy, count);
      var order, plans := [b, a] + OtherShards(a, b, count), Probe(routes, i, j);
      ReaderSeesWriter(hash, count, routes, i, j);
      ReaderMissesWriter(hash, count, routes, i, j);
      ProbeFacts(hash, count, routes, i, j);
      WritersFirst(a, b, count);
      RestLeaves(hash, [b, a], OtherShards(a, b, count), count, plans, Zeros(), x.dest);
      assert RunShards(hash, order, count, plans, Zeros())(x.dest) != RunBatch(plans, Zeros())(x.dest);
    }
  }

  // ---- the driver ---------------------------------------------------------------------------------------------------

  datatype Refusal = TwoOwners(repo: string) | TwoAliases(at: nat)

  class Fleet<!T(!new)> {
    var world: World<T>

    constructor (w: World<T>)
      ensures world == w
    {
      world := w;
    }

    /** Check ownership over all policies, keep this shard's, plan all, check aliases, then apply. */
    method Reconcile(hash: Hash, index: nat, count: nat, plans: seq<Plan<T>>,
                     aliases: (World<T>, seq<Plan<T>>) -> seq<AliasTarget>)
      returns (r: Option<Refusal>)
      requires count > 0
      modifies this
      ensures r.Some? ==> world == old(world)
      ensures r.None? <==>
                OneOwner(plans) && AliasesUnique(aliases(old(world), Where(plans, OwnedBy(hash, index, count))))
      ensures r.None? ==> world == RunBatch(Where(plans, OwnedBy(hash, index, count)), old(world))
    {
      var owners := seq(|plans|, i requires 0 <= i < |plans| => Owner(plans[i].dest, plans[i].policy));
      OwnersOfPlans(plans, owners);
      var collision := DetectDestRepoCollisions(owners);
      if collision.Some? {
        return Some(TwoOwners(collision.value));
      }
      var mine := Where(plans, OwnedBy(hash, index, count));
      var planned := world;
      var second := DetectAliasCollisions(aliases(planned, mine));
      if second.Some? {
        return Some(TwoAliases(second.value));
      }
      for i := 0 to |mine|
        invariant world == ApplyAll(mine[..i], planned, planned)
      {
        assert mine[..i + 1][..i] == mine[..i];
        world := ApplyPlan(mine[i], planned, world);
      }
      assert mine[..|mine|] == mine;
      return None;
    }
  }

  lemma OwnersOfPlans<T(!new)>(plans: seq<Plan<T>>, owners: seq<Owner>)
    requires |owners| == |plans| && forall i | 0 <= i < |plans| :: owners[i] == Owner(plans[i].dest, plans[i].policy)
    ensures OneOwnerEach(owners) <==> OneOwner(plans)
  {
    if OneOwnerEach(owners) {
      forall p, q | p in plans && q in plans && p.dest == q.dest ensures p.policy == q.policy {
        var i :| 0 <= i < |plans| && plans[i] == p;
        var j :| 0 <= j < |plans| && plans[j] == q;
        assert owners[i].repo == owners[j].repo;
      }
    }
    if OneOwner(plans) {
      forall i, j | 0 <= i < |owners| && 0 <= j < |owners| && owners[i].repo == owners[j].repo
        ensures owners[i].policy == owners[j].policy
      {
        assert plans[i] in plans && plans[j] in plans;
      }
    }
  }
}
