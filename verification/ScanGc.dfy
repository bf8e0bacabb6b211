/** `knock gc` (knock/domain/scan/gc.py): which superseded scan results to collect. */
module ScanGc {
  import opened Wrappers
  import opened Sorting
  import opened Retention

  type Stream = (string, string) // (tool, format)

  /** A scan referrer; `timestamp` is None when it is missing or does not parse. */
  datatype ScanReferrer = ScanReferrer(digest: string, tool: string, format: string, timestamp: Option<int>)

  ghost function Group(referrers: seq<ScanReferrer>, s: Stream): map<string, int> {
    if referrers == [] then map[]
    else
      var last := referrers[|referrers| - 1];
      var before := Group(referrers[..|referrers| - 1], s);
      if last.timestamp.Some? && (last.tool, last.format) == s then before[last.digest := last.timestamp.value]
      else before
  }

  ghost function Streams(referrers: seq<ScanReferrer>): set<Stream> {
    set r | r in referrers && r.timestamp.Some? :: (r.tool, r.format)
  }

  ghost function CollectedIn(referrers: seq<ScanReferrer>, s: Stream, keep: int, olderThan: int,
                             now: int): set<string> {
    Excess(Group(referrers, s), keep, olderThan, now, {})
  }

  ghost function Collected(referrers: seq<ScanReferrer>, keep: int, olderThan: int, now: int): set<string> {
    set s, d | s in Streams(referrers) && d in CollectedIn(referrers, s, keep, olderThan, now) :: d
  }

  /** The registry names a referrer by the digest of its manifest. */
  ghost predicate DistinctDigests(referrers: seq<ScanReferrer>) {
    forall i, j | 0 <= i < j < |referrers| :: referrers[i].digest != referrers[j].digest
  }

  lemma {:induction false} GroupMembers(referrers: seq<ScanReferrer>, s: Stream)
    requires DistinctDigests(referrers)
    ensures forall r | r in referrers && r.timestamp.Some? && (r.tool, r.format) == s ::
              r.digest in Group(referrers, s) && Group(referrers, s)[r.digest] == r.timestamp.value
    ensures forall d | d in Group(referrers, s) ::
              exists r :: r in referrers && r.timestamp.Some? && (r.tool, r.format) == s && r.digest == d
  {
    if referrers != [] {
      var n := |referrers| - 1;
      var init := referrers[..n];
      GroupMembers(init, s);
      assert referrers == init + [referrers[n]];
      forall r | r in referrers && r.timestamp.Some? && (r.tool, r.format) == s
        ensures r.digest in Group(referrers, s) && Group(referrers, s)[r.digest] == r.timestamp.value
      {
        if r in init {
          var i :| 0 <= i < n && init[i] == r;
          assert referrers[i] == r;
        }
      }
      forall d | d in Group(referrers, s)
        ensures exists r :: r in referrers && r.timestamp.Some? && (r.tool, r.format) == s && r.digest == d
      {
        if d in Group(init, s) {
          var r :| r in init && r.timestamp.Some? && (r.tool, r.format) == s && r.digest == d;
          assert r in referrers;
        } else {
          assert referrers[n] in referrers;
        }
      }
    }
  }

  /**
   A referrer whose timestamp does not parse is never collected; neither is one of the newest
   `keep` of its stream.
   */
  lemma CollectsOnlyWhatItUnderstands(referrers: seq<ScanReferrer>, r: ScanReferrer, keep: int, olderThan: int,
                                      now: int)
    requires DistinctDigests(referrers) && r in referrers
    requires r.digest in Collected(referrers, keep, olderThan, now)
    ensures r.timestamp.Some? && now - r.timestamp.value > olderThan
    ensures |Ahead(Candidates(Group(referrers, (r.tool, r.format)), {}), Item(r.digest, r.timestamp.value))| >= keep
  {
    var s, d :| s in Streams(referrers) && d in CollectedIn(referrers, s, keep, olderThan, now) && d == r.digest;
    GroupMembers(referrers, s);
    ExcessMember(Group(referrers, s), keep, olderThan, now, {}, d);
    var q :| q in referrers && q.timestamp.Some? && (q.tool, q.format) == s && q.digest == d;
    var i :| 0 <= i < |referrers| && referrers[i] == q;
    var j :| 0 <= j < |referrers| && referrers[j] == r;
    assert i == j;
  }

  /** The referrers of the same stream that are newer, or as old under a digest that comes later. */
  ghost function NewerInStream(referrers: seq<ScanReferrer>, r: ScanReferrer): set<string>
    requires r.timestamp.Some?
  {
    set q | q in referrers && SameStreamNewer(q, r) :: q.digest
  }

  ghost predicate SameStreamNewer(q: ScanReferrer, r: ScanReferrer)
    requires r.timestamp.Some?
  {
    && q.timestamp.Some? && q.tool == r.tool && q.format == r.format
    && (|| q.timestamp.value > r.timestamp.value
        || (q.timestamp.value == r.timestamp.value && exists k: nat :: SmallerAt(r.digest, q.digest, k)))
  }

  /**
   A referrer is collected exactly when its timestamp parses and is older than the window, and
   `keep` of its tool and format are newer.
   */
  lemma CollectedIff(referrers: seq<ScanReferrer>, r: ScanReferrer, keep: int, olderThan: int, now: int)
    requires DistinctDigests(referrers) && r in referrers
    ensures r.digest in Collected(referrers, keep, olderThan, now) <==>
              r.timestamp.Some? && now - r.timestamp.value > olderThan && |NewerInStream(referrers, r)| >= keep
  {
    hide Excess, SmallerAt;
    var s := (r.tool, r.format);
    if r.digest in Collected(referrers, keep, olderThan, now) {
      CollectsOnlyWhatItUnderstands(referrers, r, keep, olderThan, now);
      CollectedInItsStream(referrers, r, keep, olderThan, now);
    }
    if r.timestamp.Some? {
      GroupMembers(referrers, s);
      ExcessByCount(Group(referrers, s), keep, olderThan, now, {}, r.digest);
      NewerAre(referrers, r);
      assert s in Streams(referrers);
      assert r.digest in CollectedIn(referrers, s, keep, olderThan, now) <==>
          now - r.timestamp.value > olderThan && |NewerInStream(referrers, r)| >= keep;
    }
  }

  lemma NewerAre(referrers: seq<ScanReferrer>, r: ScanReferrer)
    requires DistinctDigests(referrers) && r in referrers && r.timestamp.Some?
    requires r.digest in Group(referrers, (r.tool, r.format))
    requires Group(referrers, (r.tool, r.format))[r.digest] == r.timestamp.value
    ensures Newer(Group(referrers, (r.tool, r.format)), {}, r.digest) == NewerInStream(referrers, r)
  {
    hide SmallerAt;
    var g := Group(referrers, (r.tool, r.format));
    GroupMembers(referrers, (r.tool, r.format));
    forall d ensures d in Newer(g, {}, r.digest) <==> d in NewerInStream(referrers, r) {
      if d in Newer(g, {}, r.digest) {
        var q :| q in referrers && q.timestamp.Some? && (q.tool, q.format) == (r.tool, r.format) && q.digest == d;
        assert SameStreamNewer(q, r);
      }
      if d in NewerInStream(referrers, r) {
        var q :| q in referrers && SameStreamNewer(q, r) && q.digest == d;
        assert g[q.digest] == q.timestamp.value;
      }
    }
  }

  ghost function Without(referrers: seq<ScanReferrer>, gone: set<string>): (r: seq<ScanReferrer>)
    ensures forall x :: x in r <==> x in referrers && x.digest !in gone
  {
    if referrers == [] then []
    else
      assert referrers == referrers[..|referrers| - 1] + [referrers[|referrers| - 1]];
      Without(referrers[..|referrers| - 1], gone) +
      (if referrers[|referrers| - 1].digest in gone then [] else [referrers[|referrers| - 1]])
  }

  lemma {:induction false} WithoutDistinct(referrers: seq<ScanReferrer>, gone: set<string>)
    requires DistinctDigests(referrers)
    ensures DistinctDigests(Without(referrers, gone))
  {
    if referrers != [] {
      var n := |referrers| - 1;
      WithoutDistinct(referrers[..n], gone);
      forall x | x in Without(referrers[..n], gone) ensures x.digest != referrers[n].digest {
        var i :| 0 <= i < n && referrers[..n][i] == x;
        assert referrers[i] == x;
      }
    }
  }

  /** Collecting what was selected leaves nothing to select: a second `gc` at the same moment is a no-op. */
  lemma SecondGcCollectsNothing(referrers: seq<ScanReferrer>, keep: int, olderThan: int, now: int)
    requires DistinctDigests(referrers)
    ensures Collected(Without(referrers, Collected(referrers, keep, olderThan, now)), keep, olderThan, now) == {}
  {
    hide Excess;
    var gone := Collected(referrers, keep, olderThan, now);
    var rest := Without(referrers, gone);
    WithoutDistinct(referrers, gone);
    forall s | s in Streams(rest) ensures CollectedIn(rest, s, keep, olderThan, now) == {} {
      StreamOfRest(referrers, gone, s);
      StreamWithout(referrers, s, keep, olderThan, now);
      ExcessIdempotent(Group(referrers, s), keep, olderThan, now, {});
    }
  }

  lemma StreamOfRest(referrers: seq<ScanReferrer>, gone: set<string>, s: Stream)
    requires s in Streams(Without(referrers, gone))
    ensures s in Streams(referrers)
  {
  }

  /** What is left of a stream is the stream without what was collected from it. */
  lemma StreamWithout(referrers: seq<ScanReferrer>, s: Stream, keep: int, olderThan: int, now: int)
    requires DistinctDigests(referrers) && s in Streams(referrers)
    requires DistinctDigests(Without(referrers, Collected(referrers, keep, olderThan, now)))
    ensures Group(Without(referrers, Collected(referrers, keep, olderThan, now)), s)
            == Group(referrers, s) - CollectedIn(referrers, s, keep, olderThan, now)
  {
    hide CollectedIn, Group, Excess;
    var gone := Collected(referrers, keep, olderThan, now);
    var rest, mine := Without(referrers, gone), CollectedIn(referrers, s, keep, olderThan, now);
    GroupMembers(referrers, s);
    GroupMembers(rest, s);
    forall d | d in Group(rest, s)
      ensures d in Group(referrers, s) && d !in mine && Group(rest, s)[d] == Group(referrers, s)[d]
    {
      var r :| r in rest && r.timestamp.Some? && (r.tool, r.format) == s && r.digest == d;
    }
    forall d | d in Group(referrers, s) && d !in mine ensures d in Group(rest, s) {
      var r :| r in referrers && r.timestamp.Some? && (r.tool, r.format) == s && r.digest == d;
      if d in gone {
        CollectedInItsStream(referrers, r, keep, olderThan, now);
      }
      assert r in rest;
    }
  }

  lemma CollectedInItsStream(referrers: seq<ScanReferrer>, r: ScanReferrer, keep: int, olderThan: int, now: int)
    requires DistinctDigests(referrers) && r in referrers
    requires r.digest in Collected(referrers, keep, olderThan, now)
    ensures r.digest in CollectedIn(referrers, (r.tool, r.format), keep, olderThan, now)
  {
    var s, d :| s in Streams(referrers) && d in CollectedIn(referrers, s, keep, olderThan, now) && d == r.digest;
    GroupMembers(referrers, s);
    ExcessMember(Group(referrers, s), keep, olderThan, now, {}, d);
    var q :| q in referrers && q.timestamp.Some? && (q.tool, q.format) == s && q.digest == d;
    var i :| 0 <= i < |referrers| && referrers[i] == q;
    var j :| 0 <= j < |referrers| && referrers[j] == r;
    assert i == j;
  }

  lemma GroupStep(referrers: seq<ScanReferrer>, i: nat)
    requires i < |referrers|
    ensures referrers[..i + 1][..i] == referrers[..i] && referrers[..i + 1][i] == referrers[i]
    ensures Streams(referrers[..i + 1]) ==
            Streams(referrers[..i]) + if referrers[i].timestamp.Some? then {(referrers[i].tool, referrers[i].format)}
                else {}
  {
    assert referrers[..i + 1] == referrers[..i] + [referrers[i]];
  }

  method GroupByStream(referrers: seq<ScanReferrer>) returns (groups: map<Stream, map<string, int>>)
    ensures groups.Keys == Streams(referrers)
    ensures forall s | s in groups :: groups[s] == Group(referrers, s)
  {
    groups := map[];
    for i := 0 to |referrers|
      invariant groups.Keys == Streams(referrers[..i])
      invariant forall s | s in groups :: groups[s] == Group(referrers[..i], s)
    {
      var r := referrers[i];
      GroupStep(referrers, i);
      if r.timestamp.Some? {
        var s := (r.tool, r.format);
        if s !in groups {
          EmptyGroup(referrers[..i], s);
        }
        var g := if s in groups then groups[s] else map[];
        groups := groups[s := g[r.digest := r.timestamp.value]];
      }
    }
    assert referrers[..|referrers|] == referrers;
  }

  method SelectSupersededReferrers(referrers: seq<ScanReferrer>, keep: int, olderThan: int, now: int)
    returns (collected: seq<string>)
    ensures collected == SortedOf(Collected(referrers, keep, olderThan, now))
  {
    var groups := GroupByStream(referrers);
    var found: set<string> := {};
    var todo := groups.Keys;
    while todo != {}
      invariant todo <= groups.Keys
      invariant forall d :: d in found <==>
                  exists s :: s in groups.Keys && s !in todo && d in CollectedIn(referrers, s, keep, olderThan, now)
      decreases |todo|
    {
      var s :| s in todo;
      var excess := SelectRetentionExcess(groups[s], keep, olderThan, now, {});
      assert Elements(excess) == CollectedIn(referrers, s, keep, olderThan, now);
      found := found + (set d | d in excess);
      todo := todo - {s};
    }
    assert found == Collected(referrers, keep, olderThan, now);
    collected := SortSet(found);
  }

  lemma EmptyGroup(referrers: seq<ScanReferrer>, s: Stream)
    requires s !in Streams(referrers)
    ensures Group(referrers, s) == map[]
  {
    if referrers != [] {
      var n := |referrers| - 1;
      assert referrers == referrers[..n] + [referrers[n]];
      assert referrers[n] in referrers;
      forall x | x in Streams(referrers[..n]) ensures x in Streams(referrers) {
        var r :| r in referrers[..n] && r.timestamp.Some? && (r.tool, r.format) == x;
        assert r in referrers;
      }
      EmptyGroup(referrers[..n], s);
    }
  }
}
