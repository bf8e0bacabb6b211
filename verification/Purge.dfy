/**
 The reaper (knock/use_cases/purge.py): walk the tags, judge every pending mark by an oracle
 of production usage, and delete what is unused: the mark first, then the tag.
 */
module Purge {
  import opened Wrappers
  import opened Sorting
  import opened Registry
  import opened Retention
  import opened Reconcile
  import opened Apply
  import opened Runs
  import opened Convergence
  import opened Hypotheses

  datatype Observation = Unused | Sighted | Unavailable

  datatype Verdict = Condemn | Protect | Uncertain

  /** No answer protects, and so does a sighting. */
  function Judge(o: Observation): Verdict {
    match o
    case Unused => Condemn
    case Sighted => Protect
    case Unavailable => Uncertain
  }

  datatype Outcome = Outcome(tag: Tag, verdict: Option<Verdict>, applied: bool, failed: bool)

  /** What one pass brings: the oracle, the tags that cannot be inspected, the order marks are listed in. */
  datatype Reaper = Reaper(
    observe: (Tag, Manifest, Referrer) -> Observation,
    unreadable: Tag -> bool,
    list: (Repo, Tag) -> seq<Referrer>,
    apply: bool)

  ghost predicate ListsMarks(w: Reaper) {
    forall r, t :: NoDup(w.list(r, t)) && Elements(w.list(r, t)) == MarksOf(r, t)
  }

  ghost predicate Enumerates(listing: seq<Tag>, r: Repo) {
    NoDup(listing) && Elements(listing) == r.tags.Keys
  }

  // ---- the pass -------------------------------------------------------------------------------------------------

  function Process(w: Reaper, r: Repo, t: Tag, m: Manifest, x: Referrer, outage: Effect -> bool): (Repo, Outcome) {
    if t !in r.tags || w.unreadable(t) then (r, Outcome(t, None, false, true))
    else
      var verdict := Judge(w.observe(t, r.tags[t], x));
      if verdict != Condemn || !w.apply then (r, Outcome(t, Some(verdict), false, false))
      else
        var (r', ok) := RunItem([Detach(m, x), Untag(t)], r, outage);
        (r', Outcome(t, Some(Condemn), ok, !ok))
  }

  function ProcessMarks(w: Reaper, r: Repo, t: Tag, m: Manifest, xs: seq<Referrer>, outage: Effect -> bool): (Repo,
                        seq<Outcome>)
    decreases |xs|
  {
    if xs == [] then (r, [])
    else
      var (r1, o) := Process(w, r, t, m, xs[0], outage);
      var (r2, os) := ProcessMarks(w, r1, t, m, xs[1..], outage);
      (r2, [o] + os)
  }

  function PurgeTag(w: Reaper, r: Repo, t: Tag, outage: Effect -> bool): (Repo, seq<Outcome>) {
    if IsReferrersFallbackTag(t) || t !in r.tags then (r, [])
    else ProcessMarks(w, r, t, r.tags[t], w.list(r, t), outage)
  }

  function PurgeTags(w: Reaper, r: Repo, listing: seq<Tag>, outage: Effect -> bool): (Repo, seq<Outcome>)
    decreases |listing|
  {
    if listing == [] then (r, [])
    else
      var (r1, a) := PurgeTag(w, r, listing[0], outage);
      var (r2, b) := PurgeTags(w, r1, listing[1..], outage);
      (r2, a + b)
  }

  method ProcessOne(repo: Repository, w: Reaper, t: Tag, m: Manifest, x: Referrer, outage: Effect -> bool)
    returns (o: Outcome)
    modifies repo
    ensures (repo.State(), o) == Process(w, old(repo.State()), t, m, x, outage)
  {
    if t !in repo.tags || w.unreadable(t) {
      return Outcome(t, None, false, true);
    }
    var verdict := Judge(w.observe(t, repo.tags[t], x));
    if verdict != Condemn || !w.apply {
      return Outcome(t, Some(verdict), false, false);
    }
    var ok := repo.PerformItem([Detach(m, x), Untag(t)], outage);
    return Outcome(t, Some(Condemn), ok, !ok);
  }

  method PurgeMarks(repo: Repository, w: Reaper, listing: seq<Tag>, outage: Effect -> bool)
    returns (outcomes: seq<Outcome>)
    modifies repo
    ensures (repo.State(), outcomes) == PurgeTags(w, old(repo.State()), listing, outage)
  {
    hide ProcessMarks;
    outcomes := [];
    ghost var whole := PurgeTags(w, repo.State(), listing, outage);
    assert listing[0..] == listing && [] + whole.1 == whole.1;
    for i := 0 to |listing|
      invariant var (r, rest) := PurgeTags(w, repo.State(), listing[i..], outage); whole == (r, outcomes + rest)
    {
      var t := listing[i];
      ghost var rest := PurgeTags(w, repo.State(), listing[i..], outage).1;
      ghost var here := PurgeTag(w, repo.State(), t, outage);
      assert listing[i..][1..] == listing[i + 1..];
      ghost var before := outcomes;
      if !IsReferrersFallbackTag(t) && t in repo.tags {
        var m, xs := repo.tags[t], w.list(repo.State(), t);
        var found := ProcessTagMarks(repo, w, t, m, xs, outage);
        outcomes := outcomes + found;
      }
      assert outcomes == before + here.1;
      assert before + (here.1 + rest[|here.1|..]) == outcomes + rest[|here.1|..];
    }
    assert listing[|listing|..] == [] && outcomes + [] == outcomes;
  }

  method ProcessTagMarks(repo: Repository, w: Reaper, t: Tag, m: Manifest, xs: seq<Referrer>, outage: Effect -> bool)
    returns (os: seq<Outcome>)
    modifies repo
    ensures (repo.State(), os) == ProcessMarks(w, old(repo.State()), t, m, xs, outage)
  {
    os := [];
    ghost var whole := ProcessMarks(w, repo.State(), t, m, xs, outage);
    assert xs[0..] == xs && [] + whole.1 == whole.1;
    for i := 0 to |xs|
      invariant var (r, rest) := ProcessMarks(w, repo.State(), t, m, xs[i..], outage); whole == (r, os + rest)
    {
      ghost var rest := ProcessMarks(w, repo.State(), t, m, xs[i..], outage).1;
      assert xs[i..][1..] == xs[i + 1..];
      var o := ProcessOne(repo, w, t, m, xs[i], outage);
      assert os + rest == os + [o] + rest[1..];
      os := os + [o];
    }
    assert xs[|xs|..] == [] && os + [] == os;
  }

  // ---- only condemned tags go --------------------------------------------------------------------------------------

  /** The mark `x` on tag `t` is one this pass acts on. */
  ghost predicate Condemned(w: Reaper, r: Repo, t: Tag, x: Referrer) {
    && t in r.tags && !IsReferrersFallbackTag(t) && x in MarksOf(r, t)
    && !w.unreadable(t) && w.observe(t, r.tags[t], x) == Unused && w.apply
  }

  /** Nothing is added or moved: what is left was there before. */
  ghost predicate Within(r': Repo, r: Repo) {
    && r'.attached <= r.attached
    && forall t | t in r'.tags :: t in r.tags && r'.tags[t] == r.tags[t]
  }

  lemma PairRuns(m: Manifest, x: Referrer, t: Tag, r: Repo, outage: Effect -> bool)
    ensures RunItem([Detach(m, x), Untag(t)], r, outage) ==
            if (m, x) !in r.attached || outage(Detach(m, x)) then (r, false)
            else if t !in r.tags || outage(Untag(t)) then (Repo(r.tags, r.attached - {(m, x)}), false)
            else (Repo(r.tags - {t}, r.attached - {(m, x)}), true)
  {
    var item := [Detach(m, x), Untag(t)];
    assert item[1..] == [Untag(t)] && [Untag(t)][1..] == [];
    if (m, x) in r.attached && !outage(Detach(m, x)) {
      var r1 := Do(Detach(m, x), r);
      assert RunItem(item, r, outage) == RunItem([Untag(t)], r1, outage);
      if t in r.tags && !outage(Untag(t)) {
        assert RunItem([Untag(t)], r1, outage) == RunItem([], Do(Untag(t), r1), outage);
      }
    }
  }

  lemma ProcessShrinks(w: Reaper, r: Repo, t: Tag, m: Manifest, x: Referrer, outage: Effect -> bool)
    ensures var r' := Process(w, r, t, m, x, outage).0;
            && Within(r', r)
            && (forall u | u in r.tags && u !in r'.tags ::
                  u == t && !w.unreadable(t) && w.observe(t, r.tags[t], x) == Unused && w.apply && (m, x) in r.attached)
            && (forall u | u != t && u in r.tags :: u in r'.tags)
  {
    PairRuns(m, x, t, r, outage);
  }

  lemma {:induction false} MarksShrink(w: Reaper, r: Repo, t: Tag, m: Manifest, xs: seq<Referrer>,
                                       outage: Effect -> bool)
    requires forall x | x in xs :: x.Mark?
    requires t in r.tags ==> r.tags[t] == m
    ensures var r' := ProcessMarks(w, r, t, m, xs, outage).0;
            && Within(r', r)
            && (forall u | u != t && u in r.tags :: u in r'.tags)
            && (t in r.tags && t !in r'.tags ==>
                  !w.unreadable(t) && w.apply && exists x :: x in MarksOf(r, t) && w.observe(t, m, x) == Unused)
    decreases |xs|
  {
    hide Process;
    if xs != [] {
      assert xs[0] in xs && forall x | x in xs[1..] :: x in xs;
      ProcessShrinks(w, r, t, m, xs[0], outage);
      var r1 := Process(w, r, t, m, xs[0], outage).0;
      MarksShrink(w, r1, t, m, xs[1..], outage);
      if t in r.tags {
        if t !in r1.tags {
          assert xs[0] in MarksOf(r, t);
        } else {
          assert MarksOf(r1, t) <= MarksOf(r, t);
        }
      }
    }
  }

  lemma TagShrinks(w: Reaper, r: Repo, t: Tag, outage: Effect -> bool)
    requires ListsMarks(w)
    ensures var r' := PurgeTag(w, r, t, outage).0;
            && Within(r', r)
            && (forall u | u != t && u in r.tags :: u in r'.tags)
            && (t in r.tags && t !in r'.tags ==> exists x :: Condemned(w, r, t, x))
  {
    if !IsReferrersFallbackTag(t) && t in r.tags {
      var xs := w.list(r, t);
      assert forall x | x in xs :: x in Elements(xs);
      MarksShrink(w, r, t, r.tags[t], xs, outage);
      var r' := PurgeTag(w, r, t, outage).0;
      if t !in r'.tags {
        var x :| x in MarksOf(r, t) && w.observe(t, r.tags[t], x) == Unused;
        assert Condemned(w, r, t, x);
      }
    }
  }

  /**
   Whatever fails, a tag goes only if it is no stored referrer, carried a mark when the pass
   began, and the oracle answered that it is unused.
   */
  lemma {:induction false} OnlyCondemnedGo(w: Reaper, r: Repo, listing: seq<Tag>, outage: Effect -> bool)
    requires ListsMarks(w)
    ensures var r' := PurgeTags(w, r, listing, outage).0;
            Within(r', r) && forall t | t in r.tags && t !in r'.tags :: exists x :: Condemned(w, r, t, x)
    decreases |listing|
  {
    hide PurgeTag, Condemned;
    if listing != [] {
      var r1 := PurgeTag(w, r, listing[0], outage).0;
      TagShrinks(w, r, listing[0], outage);
      OnlyCondemnedGo(w, r1, listing[1..], outage);
      var r' := PurgeTags(w, r, listing, outage).0;
      forall t | t in r.tags && t !in r'.tags ensures exists x :: Condemned(w, r, t, x) {
        if t in r1.tags {
          var x :| Condemned(w, r1, t, x);
          CondemnedBefore(w, r1, r, t, x);
        }
      }
    }
  }

  lemma CondemnedBefore(w: Reaper, r1: Repo, r: Repo, t: Tag, x: Referrer)
    requires Within(r1, r) && Condemned(w, r1, t, x)
    ensures Condemned(w, r, t, x)
  {
  }

  /** Without `apply` nothing is deleted. */
  lemma {:induction false} DryPassChangesNothing(w: Reaper, r: Repo, listing: seq<Tag>, outage: Effect -> bool)
    requires !w.apply
    ensures PurgeTags(w, r, listing, outage).0 == r
    decreases |listing|
  {
    if listing != [] {
      var t := listing[0];
      if !IsReferrersFallbackTag(t) && t in r.tags {
        DryMarks(w, r, t, r.tags[t], w.list(r, t), outage);
      }
      DryPassChangesNothing(w, r, listing[1..], outage);
    }
  }

  lemma {:induction false} DryMarks(w: Reaper, r: Repo, t: Tag, m: Manifest, xs: seq<Referrer>, outage: Effect -> bool)
    requires !w.apply
    ensures ProcessMarks(w, r, t, m, xs, outage).0 == r
    decreases |xs|
  {
    if xs != [] {
      DryMarks(w, r, t, m, xs[1..], outage);
    }
  }

  // ---- marks whose tag is gone --------------------------------------------------------------------------------------

  lemma CondemnedMark(w: Reaper, r: Repo, t: Tag, x: Referrer)
    requires Condemned(w, r, t, x)
    ensures t in r.tags && x in MarksOf(r, t) && !IsReferrersFallbackTag(t) && (r.tags[t], x) in r.attached
  {
  }

  /** Whatever fails, a tag that goes takes one of its condemned marks with it. */
  lemma {:induction false} MarksRemoval(w: Reaper, r: Repo, t: Tag, m: Manifest, xs: seq<Referrer>,
                                        outage: Effect -> bool)
    requires t in r.tags && r.tags[t] == m && forall x | x in xs :: x.Mark?
    ensures var r' := ProcessMarks(w, r, t, m, xs, outage).0;
            t !in r'.tags ==>
              && !w.unreadable(t) && w.apply
              && exists x :: x in xs && x in MarksOf(r, t) && w.observe(t, m, x) == Unused && (m, x) !in r'.attached
    decreases |xs|
  {
    if xs != [] {
      var r1 := Process(w, r, t, m, xs[0], outage).0;
      assert xs[0] in xs && forall x | x in xs[1..] :: x in xs;
      PairRuns(m, xs[0], t, r, outage);
      if t in r1.tags {
        MarksRemoval(w, r1, t, m, xs[1..], outage);
        assert MarksOf(r1, t) <= MarksOf(r, t);
      } else {
        assert (m, xs[0]) !in r1.attached && xs[0] in MarksOf(r, t);
        MarksShrink(w, r1, t, m, xs[1..], outage);
      }
    }
  }

  lemma TagRemoval(w: Reaper, r: Repo, t: Tag, outage: Effect -> bool)
    requires ListsMarks(w) && t in r.tags && t !in PurgeTag(w, r, t, outage).0.tags
    ensures exists x :: Condemned(w, r, t, x) && (r.tags[t], x) !in PurgeTag(w, r, t, outage).0.attached
  {
    hide ProcessMarks;
    var m, xs := r.tags[t], w.list(r, t);
    assert forall x | x in xs :: x in Elements(xs);
    MarksRemoval(w, r, t, m, xs, outage);
    var r' := PurgeTag(w, r, t, outage).0;
    var x :| x in MarksOf(r, t) && w.observe(t, m, x) == Unused && (m, x) !in r'.attached;
    assert Condemned(w, r, t, x);
  }

  lemma {:induction false} RemovalTakesMark(w: Reaper, r: Repo, listing: seq<Tag>, outage: Effect -> bool, t: Tag)
    requires ListsMarks(w) && t in r.tags && t !in PurgeTags(w, r, listing, outage).0.tags
    ensures exists x :: Condemned(w, r, t, x) && (r.tags[t], x) !in PurgeTags(w, r, listing, outage).0.attached
    decreases |listing|
  {
    hide PurgeTag, Condemned;
    if listing != [] {
      var r1 := PurgeTag(w, r, listing[0], outage).0;
      TagShrinks(w, r, listing[0], outage);
      OnlyCondemnedGo(w, r1, listing[1..], outage);
      if t in r1.tags {
        RemovalTakesMark(w, r1, listing[1..], outage, t);
        var x :| Condemned(w, r1, t, x) && (r1.tags[t], x) !in PurgeTags(w, r, listing, outage).0.attached;
        CondemnedBefore(w, r1, r, t, x);
      } else {
        TagRemoval(w, r, t, outage);
        var x :| Condemned(w, r, t, x) && (r.tags[t], x) !in r1.attached;
      }
    }
  }

  /**
   No pass, whatever its listing and wherever it is cut off, leaves the mark of a tag that is
   gone if that tag carried no other: a call that never happened is one that fails.
   */
  lemma NoOrphanMarks(w: Reaper, r: Repo, listing: seq<Tag>, outage: Effect -> bool, t: Tag, x: Referrer)
    requires ListsMarks(w) && t in r.tags && forall y | y in MarksOf(r, t) :: y == x
    requires (r.tags[t], x) in PurgeTags(w, r, listing, outage).0.attached
    ensures t in PurgeTags(w, r, listing, outage).0.tags
  {
    hide PurgeTags, Condemned;
    if t !in PurgeTags(w, r, listing, outage).0.tags {
      RemovalTakesMark(w, r, listing, outage, t);
      var y :| Condemned(w, r, t, y) && (r.tags[t], y) !in PurgeTags(w, r, listing, outage).0.attached;
      CondemnedMark(w, r, t, y);
    }
  }

  /** The tag is gone and one of its marks is left: no listing of tags finds that mark again. */
  ghost predicate Orphaned(r: Repo, r': Repo, t: Tag) {
    t in r.tags && t !in r'.tags && exists y :: y in MarksOf(r, t) && (r.tags[t], y) in r'.attached
  }

  ghost predicate CondemnedWithTwo(w: Reaper, r: Repo, t: Tag) {
    exists x, y :: Condemned(w, r, t, x) && y in MarksOf(r, t) && y != x
  }

  ghost predicate NamedOnce(r: Repo, t: Tag) {
    forall u | u in r.tags && t in r.tags && r.tags[u] == r.tags[t] :: u == t
  }

  lemma OrphanHadTwo(w: Reaper, r: Repo, listing: seq<Tag>, outage: Effect -> bool, t: Tag)
    requires ListsMarks(w) && Orphaned(r, PurgeTags(w, r, listing, outage).0, t)
    ensures CondemnedWithTwo(w, r, t)
  {
    hide PurgeTags, Condemned;
    var r' := PurgeTags(w, r, listing, outage).0;
    RemovalTakesMark(w, r, listing, outage, t);
    var x :| Condemned(w, r, t, x) && (r.tags[t], x) !in r'.attached;
    var y :| y in MarksOf(r, t) && (r.tags[t], y) in r'.attached;
    assert y != x;
  }

  /** Once the tag is gone the processing of every further mark of it fails and changes nothing. */
  lemma {:induction false} GoneTagFails(w: Reaper, r: Repo, t: Tag, m: Manifest, xs: seq<Referrer>,
                                        outage: Effect -> bool)
    requires t !in r.tags
    ensures ProcessMarks(w, r, t, m, xs, outage).0 == r
    ensures forall o | o in ProcessMarks(w, r, t, m, xs, outage).1 :: o == Outcome(t, None, false, true)
    decreases |xs|
  {
    if xs != [] {
      GoneTagFails(w, r, t, m, xs[1..], outage);
    }
  }

  /** The first condemned mark takes the tag with it, and every other mark stays. */
  lemma {:induction false} FirstCondemnedGoes(w: Reaper, r: Repo, t: Tag, m: Manifest, xs: seq<Referrer>, x: Referrer)
    returns (z: Referrer)
    requires t in r.tags && r.tags[t] == m && !w.unreadable(t) && w.apply
    requires x in xs && w.observe(t, m, x) == Unused && forall y | y in xs :: (m, y) in r.attached
    ensures ProcessMarks(w, r, t, m, xs, NoOutage()).0 == Repo(r.tags - {t}, r.attached - {(m, z)})
    decreases |xs|
  {
    PairRuns(m, xs[0], t, r, NoOutage());
    var r1 := Process(w, r, t, m, xs[0], NoOutage()).0;
    if w.observe(t, m, xs[0]) == Unused {
      z := xs[0];
      assert xs[0] in xs;
      GoneTagFails(w, r1, t, m, xs[1..], NoOutage());
    } else {
      assert r1 == r;
      assert forall y | y in xs[1..] :: y in xs;
      z := FirstCondemnedGoes(w, r, t, m, xs[1..], x);
    }
  }

  lemma CondemnedTagGoes(w: Reaper, r: Repo, t: Tag)
    requires ListsMarks(w) && CondemnedWithTwo(w, r, t)
    ensures Orphaned(r, PurgeTag(w, r, t, NoOutage()).0, t)
  {
    hide ProcessMarks;
    var x, y :| Condemned(w, r, t, x) && y in MarksOf(r, t) && y != x;
    var xs, m := w.list(r, t), r.tags[t];
    assert forall u :: u in Elements(xs) <==> u in MarksOf(r, t);
    assert forall u | u in xs :: u in Elements(xs);
    assert x in Elements(xs);
    var z := FirstCondemnedGoes(w, r, t, m, xs, x);
    var left := if z == y then x else y;
    assert left in MarksOf(r, t) && (m, left) in PurgeTag(w, r, t, NoOutage()).0.attached;
  }

  lemma {:induction false} OwnMarksOnly(w: Reaper, r: Repo, t: Tag, m: Manifest, xs: seq<Referrer>,
                                        outage: Effect -> bool)
    ensures forall n, x | n != m && (n, x) in r.attached :: (n, x) in ProcessMarks(w, r, t, m, xs, outage).0.attached
    decreases |xs|
  {
    if xs != [] {
      PairRuns(m, xs[0], t, r, outage);
      OwnMarksOnly(w, Process(w, r, t, m, xs[0], outage).0, t, m, xs[1..], outage);
    }
  }

  lemma TagTouchesOwnMarks(w: Reaper, r: Repo, t: Tag, outage: Effect -> bool, m: Manifest)
    requires t in r.tags ==> r.tags[t] != m
    ensures forall x | (m, x) in r.attached :: (m, x) in PurgeTag(w, r, t, outage).0.attached
  {
    if !IsReferrersFallbackTag(t) && t in r.tags {
      OwnMarksOnly(w, r, t, r.tags[t], w.list(r, t), outage);
    }
  }

  lemma {:induction false} UnnamedUntouched(w: Reaper, r: Repo, listing: seq<Tag>, outage: Effect -> bool, m: Manifest)
    requires ListsMarks(w) && forall t | t in r.tags :: r.tags[t] != m
    ensures forall x | (m, x) in r.attached :: (m, x) in PurgeTags(w, r, listing, outage).0.attached
    decreases |listing|
  {
    hide PurgeTag;
    if listing != [] {
      TagTouchesOwnMarks(w, r, listing[0], outage, m);
      TagShrinks(w, r, listing[0], outage);
      UnnamedUntouched(w, PurgeTag(w, r, listing[0], outage).0, listing[1..], outage, m);
    }
  }

  lemma {:induction false} TwoMarksOrphan(w: Reaper, r: Repo, listing: seq<Tag>, t: Tag)
    requires ListsMarks(w) && t in listing && NamedOnce(r, t) && CondemnedWithTwo(w, r, t)
    ensures Orphaned(r, PurgeTags(w, r, listing, NoOutage()).0, t)
    decreases |listing|
  {
    hide PurgeTag, Condemned;
    var x, y :| Condemned(w, r, t, x) && y in MarksOf(r, t) && y != x;
    CondemnedMark(w, r, t, x);
    var m, r1 := r.tags[t], PurgeTag(w, r, listing[0], NoOutage()).0;
    TagShrinks(w, r, listing[0], NoOutage());
    OnlyCondemnedGo(w, r1, listing[1..], NoOutage());
    if listing[0] == t {
      CondemnedTagGoes(w, r, t);
      UnnamedUntouched(w, r1, listing[1..], NoOutage(), m);
    } else {
      TagTouchesOwnMarks(w, r, listing[0], NoOutage(), m);
      assert MarksOf(r1, t) == MarksOf(r, t);
      StillCondemned(w, r, r1, t, x);
      assert t in listing[1..];
      TwoMarksOrphan(w, r1, listing[1..], t);
    }
  }

  lemma StillCondemned(w: Reaper, r: Repo, r1: Repo, t: Tag, x: Referrer)
    requires Condemned(w, r, t, x) && t in r1.tags && r1.tags[t] == r.tags[t] && MarksOf(r1, t) == MarksOf(r, t)
    ensures Condemned(w, r1, t, x)
  {
  }

  /**
   Exactly when a pass leaves a mark whose tag is gone. For tags that share no marked
   manifest: a pass without failures does so if and only if a condemned tag carries a second
   mark, whichever of them it is condemned for, and a cut-off pass never does without one.
   */
  lemma OrphanedIff(w: Reaper, r: Repo, listing: seq<Tag>, outage: Effect -> bool)
    requires ListsMarks(w) && (forall t | t in r.tags :: t in listing)
    requires forall t | t in r.tags && MarksOf(r, t) != {} :: NamedOnce(r, t)
    ensures (exists t :: Orphaned(r, PurgeTags(w, r, listing, NoOutage()).0, t)) <==>
              (exists t :: CondemnedWithTwo(w, r, t))
    ensures (exists t :: Orphaned(r, PurgeTags(w, r, listing, outage).0, t)) ==> (exists t :: CondemnedWithTwo(w, r, t))
  {
    hide PurgeTags, Orphaned, NamedOnce, Condemned;
    if t :| Orphaned(r, PurgeTags(w, r, listing, outage).0, t) {
      OrphanHadTwo(w, r, listing, outage, t);
    }
    if t :| Orphaned(r, PurgeTags(w, r, listing, NoOutage()).0, t) {
      OrphanHadTwo(w, r, listing, NoOutage(), t);
    }
    if t :| CondemnedWithTwo(w, r, t) {
      var x, y :| Condemned(w, r, t, x) && y in MarksOf(r, t) && y != x;
      CondemnedMark(w, r, t, x);
      TwoMarksOrphan(w, r, listing, t);
    }
  }

  // ---- one tag, one mark --------------------------------------------------------------------------------------------

  /** A marked manifest is named by one tag and carries one mark. */
  ghost predicate OneEach(r: Repo) {
    && (forall t, x, y | t in r.tags && x in MarksOf(r, t) && y in MarksOf(r, t) :: x == y)
    && (forall t, u | t in r.tags && u in r.tags && t != u && MarksOf(r, t) != {} :: r.tags[t] != r.tags[u])
  }

  ghost predicate ClearedBy(w: Reaper, r: Repo, t: Tag, x: Referrer, outage: Effect -> bool) {
    Condemned(w, r, t, x) && !outage(Detach(r.tags[t], x))
  }

  ghost predicate Removed(w: Reaper, r: Repo, t: Tag, outage: Effect -> bool) {
    exists x :: ClearedBy(w, r, t, x, outage) && !outage(Untag(t))
  }

  lemma TwoElements(xs: seq<Referrer>)
    requires NoDup(xs)
    ensures |xs| > 1 ==> exists x, y :: x in Elements(xs) && y in Elements(xs) && x != y
  {
    if |xs| > 1 {
      assert xs[0] in Elements(xs) && xs[1] in Elements(xs);
    }
  }

  lemma OneMark(w: Reaper, r: Repo, t: Tag) returns (x: Referrer)
    requires ListsMarks(w) && OneEach(r) && t in r.tags
    ensures w.list(r, t) == [] || w.list(r, t) == [x]
    ensures MarksOf(r, t) == Elements(w.list(r, t))
  {
    var xs := w.list(r, t);
    assert Elements(xs) == MarksOf(r, t);
    TwoElements(xs);
    x := if xs == [] then Foreign("", "") else xs[0];
  }

  /** What the pass does to one tag. */
  lemma OneTagPurged(w: Reaper, r: Repo, t: Tag, outage: Effect -> bool)
    requires ListsMarks(w) && OneEach(r) && t in r.tags
    ensures var r' := PurgeTag(w, r, t, outage).0;
            && r'.tags == (if Removed(w, r, t, outage) then r.tags - {t} else r.tags)
            && (forall m, x :: (m, x) in r'.attached <==>
                (m, x) in r.attached && !(m == r.tags[t] && ClearedBy(w, r, t, x, outage)))
  {
    var x := OneMark(w, r, t);
    var xs, m := w.list(r, t), r.tags[t];
    if xs == [] {
      assert MarksOf(r, t) == {};
    } else {
      assert x in Elements(xs);
      assert xs[1..] == [];
      assert forall y | y in MarksOf(r, t) :: y == x;
      PairRuns(m, x, t, r, outage);
      assert ProcessMarks(w, r, t, m, xs, outage).0 == Process(w, r, t, m, x, outage).0;
      assert (m, x) in r.attached;
      assert Condemned(w, r, t, x) <==>
          !IsReferrersFallbackTag(t) && !w.unreadable(t) && w.observe(t, m, x) == Unused && w.apply;
      assert Removed(w, r, t, outage) <==> ClearedBy(w, r, t, x, outage) && !outage(Untag(t));
    }
  }

  /** Purging one tag leaves the others as they were. */
  lemma OthersUndisturbed(w: Reaper, r: Repo, r': Repo, t: Tag, u: Tag, outage: Effect -> bool)
    requires ListsMarks(w) && OneEach(r) && t in r.tags && r' == PurgeTag(w, r, t, outage).0 && u in r.tags && u != t
    ensures u in r'.tags && r'.tags[u] == r.tags[u] && MarksOf(r', u) == MarksOf(r, u)
    ensures forall x :: Condemned(w, r', u, x) <==> Condemned(w, r, u, x)
    ensures forall x :: ClearedBy(w, r', u, x, outage) <==> ClearedBy(w, r, u, x, outage)
    ensures Removed(w, r', u, outage) <==> Removed(w, r, u, outage)
  {
    hide PurgeTag;
    OneTagPurged(w, r, t, outage);
    forall x ensures x in MarksOf(r', u) <==> x in MarksOf(r, u) {
      if x in MarksOf(r, u) && ClearedBy(w, r, t, x, outage) {
        assert x in MarksOf(r, t);
      }
    }
  }

  lemma StaysOneEach(w: Reaper, r: Repo, t: Tag, outage: Effect -> bool)
    requires ListsMarks(w) && OneEach(r) && t in r.tags
    ensures OneEach(PurgeTag(w, r, t, outage).0)
  {
    TagShrinks(w, r, t, outage);
    ShrinkOneEach(PurgeTag(w, r, t, outage).0, r);
  }

  lemma ShrinkOneEach(r': Repo, r: Repo)
    requires OneEach(r) && Within(r', r)
    ensures OneEach(r')
  {
    forall t | t in r'.tags ensures MarksOf(r', t) <= MarksOf(r, t) {
    }
  }

  ghost predicate PurgedTo(w: Reaper, r: Repo, tags: set<Tag>, outage: Effect -> bool, r': Repo) {
    && (forall t :: t in r'.tags <==> t in r.tags && !(t in tags && Removed(w, r, t, outage)))
    && (forall t | t in r'.tags :: r'.tags[t] == r.tags[t])
    && (forall m, x :: (m, x) in r'.attached <==>
          (m, x) in r.attached && !exists t ::
              t in tags && t in r.tags && r.tags[t] == m && ClearedBy(w, r, t, x, outage))
  }

  lemma {:induction false} PassClosed(w: Reaper, r: Repo, listing: seq<Tag>, outage: Effect -> bool)
    requires ListsMarks(w) && OneEach(r) && NoDup(listing) && forall t | t in listing :: t in r.tags
    ensures PurgedTo(w, r, Elements(listing), outage, PurgeTags(w, r, listing, outage).0)
    decreases |listing|
  {
    hide PurgeTag, Removed, ClearedBy, OneEach, Condemned;
    if listing != [] {
      var t, rest := listing[0], listing[1..];
      assert t in listing && listing == [t] + rest && t !in rest;
      var r1 := PurgeTag(w, r, t, outage).0;
      OneTagPurged(w, r, t, outage);
      StaysOneEach(w, r, t, outage);
      forall u | u in rest
        ensures u in r1.tags && r1.tags[u] == r.tags[u] && (Removed(w, r1, u, outage) <==> Removed(w, r, u, outage))
        ensures forall x :: ClearedBy(w, r1, u, x, outage) <==> ClearedBy(w, r, u, x, outage)
      {
        assert u in listing;
        OthersUndisturbed(w, r, r1, t, u, outage);
      }
      PassClosed(w, r1, rest, outage);
      JoinPass(w, r, r1, t, rest, outage, PurgeTags(w, r, listing, outage).0);
    }
  }

  lemma JoinPass(w: Reaper, r: Repo, r1: Repo, t: Tag, rest: seq<Tag>, outage: Effect -> bool, r': Repo)
    requires t in r.tags && t !in rest
    requires r1.tags == (if Removed(w, r, t, outage) then r.tags - {t} else r.tags)
    requires forall m, x :: (m, x) in r1.attached <==>
               (m, x) in r.attached && !(m == r.tags[t] && ClearedBy(w, r, t, x, outage))
    requires forall u | u in rest ::
               u in r1.tags && r1.tags[u] == r.tags[u] && (Removed(w, r1, u, outage) <==> Removed(w, r, u, outage))
               && forall x :: ClearedBy(w, r1, u, x, outage) <==> ClearedBy(w, r, u, x, outage)
    requires PurgedTo(w, r1, Elements(rest), outage, r')
    ensures PurgedTo(w, r, Elements([t] + rest), outage, r')
  {
    hide Removed, ClearedBy;
    var tags := Elements([t] + rest);
    assert forall u :: u in tags <==> u == t || u in rest;
    forall m, x ensures (m, x) in r'.attached <==>
                        (m, x) in r.attached && !exists u ::
                            u in tags && u in r.tags && r.tags[u] == m && ClearedBy(w, r, u, x, outage)
    {
      if u :| u in tags && u in r.tags && r.tags[u] == m && ClearedBy(w, r, u, x, outage) {
        if u != t {
          assert u in Elements(rest) && u in r1.tags && r1.tags[u] == m && ClearedBy(w, r1, u, x, outage);
        }
      }
      if u :| u in Elements(rest) && u in r1.tags && r1.tags[u] == m && ClearedBy(w, r1, u, x, outage) {
        assert u in tags && ClearedBy(w, r, u, x, outage);
      }
    }
  }

  // ---- a cut-off pass heals -----------------------------------------------------------------------------------------

  /** The tags a mark belongs on: dropped, or in retention excess. */
  ghost predicate Markable(job: Job, r: Repo, t: Tag) {
    Dropped(job, r, t) || t in RetentionExcess(job, MirrorOf(job, r))
  }

  /** Every mark hangs on a tag it belongs on, one each. */
  ghost predicate Tidy(job: Job, r: Repo) {
    && OneEach(r)
    && (forall m, x | (m, x) in r.attached && x.Mark? :: exists t ::
        Markable(job, r, t) && t in r.tags && r.tags[t] == m)
    && (forall t, u | Markable(job, r, t) && t in r.tags && u in r.tags && u != t :: r.tags[t] != r.tags[u])
  }

  /** No mark has been put on the wrong side: selected tags carry retention marks only, dropped ones none of those. */
  ghost predicate RightAxis(job: Job, r: Repo) {
    && (forall t | t in Desired(job) :: t !in MarkedOn(r, false))
    && (forall t | Dropped(job, r, t) :: t !in MarkedOn(r, true))
  }

  lemma MarkableIsTag(job: Job, r: Repo, t: Tag)
    requires Markable(job, r, t)
    ensures IsMirrored(r, t) && t in r.tags && (t in Desired(job) <==> !Dropped(job, r, t))
    ensures t in Desired(job) <==> t in RetentionExcess(job, MirrorOf(job, r))
  {
    hide MirrorOf, RetentionExcess, Stamped;
    if t in RetentionExcess(job, MirrorOf(job, r)) {
      ExcessIsConcrete(job, r, t);
    }
  }

  lemma MarkedIsMarkable(job: Job, r: Repo, t: Tag)
    requires Tidy(job, r) && t in r.tags && MarksOf(r, t) != {}
    ensures Markable(job, r, t)
  {
    hide OneEach, Markable;
    var x :| x in MarksOf(r, t);
    var u :| Markable(job, r, u) && u in r.tags && r.tags[u] == r.tags[t];
  }

  // ---- what a cut-off pass leaves, when it spares the excess

  /** The pass got far enough to delete no tag in retention excess. */
  ghost predicate SparesExcess(job: Job, w: Reaper, r: Repo, crash: Effect -> bool) {
    forall t | t in RetentionExcess(job, MirrorOf(job, r)) :: !Removed(w, r, t, crash)
  }

  lemma DesiredStays(job: Job, w: Reaper, r: Repo, crash: Effect -> bool, c: Repo, t: Tag)
    requires Tidy(job, r) && SparesExcess(job, w, r, crash) && PurgedTo(w, r, r.tags.Keys, crash, c)
    requires t in Desired(job) && t in r.tags
    ensures t in c.tags && c.tags[t] == r.tags[t]
  {
    hide Desired, Condemned, Tidy, MirrorOf, RetentionExcess, Markable;
    if Removed(w, r, t, crash) {
      var x :| ClearedBy(w, r, t, x, crash) && !crash(Untag(t));
      CondemnedMark(w, r, t, x);
      MarkedIsMarkable(job, r, t);
      MarkableIsTag(job, r, t);
    }
  }

  lemma WithinOf(w: Reaper, r: Repo, crash: Effect -> bool, c: Repo)
    requires PurgedTo(w, r, r.tags.Keys, crash, c)
    ensures Within(c, r)
  {
    hide Removed, ClearedBy;
    forall q | q in c.attached ensures q in r.attached {
      assert q == (q.0, q.1);
    }
  }

  /** Nothing selected is lost: what is selected, and what of it is in excess, is as before. */
  lemma SelectedStays(job: Job, w: Reaper, r: Repo, crash: Effect -> bool, c: Repo)
    requires WellFormed(job) && Tidy(job, r) && SparesExcess(job, w, r, crash) && PurgedTo(w, r, r.tags.Keys, crash, c)
    ensures forall t | t in Desired(job) && t in r.tags :: t in c.tags && c.tags[t] == r.tags[t]
    ensures RetentionExcess(job, MirrorOf(job, c)) == RetentionExcess(job, MirrorOf(job, r))
    ensures forall t :: Markable(job, c, t) <==> Markable(job, r, t) && t in c.tags
  {
    hide WellFormed, Tidy, SparesExcess, PurgedTo, MirrorOf, RetentionExcess, AliasTags, Stamped;
    WithinOf(w, r, crash, c);
    forall t | t in Desired(job) && t in r.tags ensures t in c.tags && c.tags[t] == r.tags[t] {
      DesiredStays(job, w, r, crash, c, t);
    }
    assert SameOutputs(job, r, c);
    ExcessFromTags(job, r, c);
    forall t ensures Markable(job, c, t) <==> Markable(job, r, t) && t in c.tags {
      if Markable(job, c, t) {
        MarkableIsTag(job, c, t);
      }
    }
  }

  lemma AlikeWithin(job: Job, r: Repo, c: Repo)
    requires Alike(job, r) && Within(c, r)
    requires RetentionExcess(job, MirrorOf(job, c)) == RetentionExcess(job, MirrorOf(job, r))
    ensures Alike(job, c)
  {
    hide MirrorOf, RetentionExcess, Desired, Stamped;
    forall t, u | IsMirrored(c, t) && IsMirrored(c, u) && c.tags[t] == c.tags[u]
      ensures t in Desired(job) <==> u in Desired(job)
      ensures t in RetentionExcess(job, MirrorOf(job, c)) <==> u in RetentionExcess(job, MirrorOf(job, c))
    {
      assert IsMirrored(r, t) && IsMirrored(r, u) && r.tags[t] == r.tags[u];
    }
  }

  lemma StandsWithin(job: Job, w: Reaper, r: Repo, listing: seq<Tag>, outage: Effect -> bool)
    requires WellFormed(job) && Standing(job, r) && ListsMarks(w)
    requires forall t | t in Desired(job) && t in r.tags :: t in PurgeTags(w, r, listing, outage).0.tags
    ensures Standing(job, PurgeTags(w, r, listing, outage).0)
  {
    hide WellFormed, PurgeTags, Condemned, Desired, MarkedOn, Covered, Decide, MirrorOf, Concrete;
    var c := PurgeTags(w, r, listing, outage).0;
    OnlyCondemnedGo(w, r, listing, outage);
    OnlyMarksGo(w, r, listing, outage);
    forall v, s | IsOutput(job, v, s) ensures KeptAndCovered(job, c, v, s) {
      OutputConcrete(job, v, s);
      assert KeptAndCovered(job, r, v, s);
      StillKept(job, r, c, v, s);
      CoverageStays(job, r, c, r.tags[s + v.suffix]);
    }
    forall v, a | IsAlias(job, v, a)
      ensures a.name + v.suffix in c.tags && a.target + v.suffix in c.tags &&
                c.tags[a.name + v.suffix] == c.tags[a.target + v.suffix]
    {
      AliasDesiredNames(job, v, a);
    }
    forall t | Dropped(job, c, t) ensures job.mode == MarkOnly {
      DroppedEarlier(job, r, c, t);
    }
  }

  lemma AliasDesiredNames(job: Job, v: Variant, a: Alias)
    requires WellFormed(job) && IsAlias(job, v, a)
    ensures a.name + v.suffix in Desired(job) && a.target + v.suffix in Desired(job)
  {
    hide DistinctNames;
    AliasDesired(job, v, a);
  }

  lemma DroppedEarlier(job: Job, r: Repo, c: Repo, t: Tag)
    requires Within(c, r) && Dropped(job, c, t)
    ensures Dropped(job, r, t) && r.tags[t] == c.tags[t]
  {
    hide Desired;
  }

  lemma MarkedEarlier(r: Repo, c: Repo, t: Tag, retention: bool)
    requires Within(c, r)
    ensures t in MarkedOn(c, retention) ==> t in MarkedOn(r, retention)
  {
    MarkedIff(c, t, retention);
    MarkedIff(r, t, retention);
  }

  lemma CoverageStays(job: Job, r: Repo, c: Repo, m: Manifest)
    requires Covered(job, r.attached, m) && forall n, x | (n, x) in r.attached && !x.Mark? :: (n, x) in c.attached
    ensures Covered(job, c.attached, m)
  {
  }

  lemma {:induction false} OnlyMarksGo(w: Reaper, r: Repo, listing: seq<Tag>, outage: Effect -> bool)
    requires ListsMarks(w)
    ensures forall n, x | (n, x) in r.attached && !x.Mark? :: (n, x) in PurgeTags(w, r, listing, outage).0.attached
    decreases |listing|
  {
    if listing != [] {
      var t := listing[0];
      var r1 := PurgeTag(w, r, t, outage).0;
      if !IsReferrersFallbackTag(t) && t in r.tags {
        var xs := w.list(r, t);
        assert forall x | x in xs :: x in Elements(xs);
        OnlyMarksOfTagGo(w, r, t, r.tags[t], xs, outage);
      }
      OnlyMarksGo(w, r1, listing[1..], outage);
    }
  }

  lemma {:induction false} OnlyMarksOfTagGo(w: Reaper, r: Repo, t: Tag, m: Manifest, xs: seq<Referrer>,
                                            outage: Effect -> bool)
    requires forall x | x in xs :: x.Mark?
    ensures forall n, x | (n, x) in r.attached && !x.Mark? :: (n, x) in ProcessMarks(w, r, t, m, xs, outage).0.attached
    decreases |xs|
  {
    if xs != [] {
      assert xs[0] in xs;
      PairRuns(m, xs[0], t, r, outage);
      OnlyMarksOfTagGo(w, Process(w, r, t, m, xs[0], outage).0, t, m, xs[1..], outage);
    }
  }

  /** The reaper takes tags that were marked, and marks: what is settled stays settled. */
  lemma StaysSettled(job: Job, w: Reaper, r: Repo, listing: seq<Tag>, crash: Effect -> bool)
    requires WellFormed(job) && Settled(job, r) && RightAxis(job, r) && Tidy(job, r) && ListsMarks(w)
    requires Enumerates(listing, r) && SparesExcess(job, w, r, crash)
    ensures var c := PurgeTags(w, r, listing, crash).0; Settled(job, c) && RightAxis(job, c)
  {
    hide WellFormed, Standing, Alike, Tidy, PurgeTags, Desired, MarkedOn, MirrorOf, RetentionExcess, PurgedTo;
    hide SparesExcess, Markable;
    var c := PurgeTags(w, r, listing, crash).0;
    TidyIsOneEach(job, r);
    FullPass(w, r, listing, crash);
    WithinOf(w, r, crash, c);
    SelectedStays(job, w, r, crash, c);
    StandsWithin(job, w, r, listing, crash);
    AlikeWithin(job, r, c);
    forall t | t in Desired(job) ensures t !in MarkedOn(c, false) {
      MarkedEarlier(r, c, t, false);
    }
    forall t | Dropped(job, c, t) ensures t !in MarkedOn(c, true) {
      DroppedEarlier(job, r, c, t);
      MarkedEarlier(r, c, t, true);
    }
  }

  lemma TidyIsOneEach(job: Job, r: Repo)
    requires Tidy(job, r)
    ensures OneEach(r)
  {
  }

  lemma StaysTidy(job: Job, w: Reaper, r: Repo, listing: seq<Tag>, crash: Effect -> bool)
    requires WellFormed(job) && Tidy(job, r) && ListsMarks(w) && Enumerates(listing, r) &&
               SparesExcess(job, w, r, crash)
    ensures Tidy(job, PurgeTags(w, r, listing, crash).0)
  {
    hide WellFormed, PurgeTags, Condemned, OneEach, Desired, PurgedTo, SparesExcess, Markable;
    var c := PurgeTags(w, r, listing, crash).0;
    FullPass(w, r, listing, crash);
    WithinOf(w, r, crash, c);
    SelectedStays(job, w, r, crash, c);
    ShrinkOneEach(c, r);
    forall m, x | (m, x) in c.attached && x.Mark?
      ensures exists t :: Markable(job, c, t) && t in c.tags && c.tags[t] == m
    {
      var t :| Markable(job, r, t) && t in r.tags && r.tags[t] == m;
      OnlyMarkThere(r, t, x);
      NoOrphanMarks(w, r, listing, crash, t, x);
      assert Markable(job, c, t);
    }
  }

  lemma OnlyMarkThere(r: Repo, t: Tag, x: Referrer)
    requires OneEach(r) && t in r.tags && (r.tags[t], x) in r.attached && x.Mark?
    ensures forall y | y in MarksOf(r, t) :: y == x
  {
    assert x in MarksOf(r, t);
  }

  // ---- what the next reconcile makes of it

  lemma NothingStale(job: Job, c: Repo)
    requires Tidy(job, c) && RightAxis(job, c)
    ensures StaleMarks(job, c) == {}
  {
    hide Tidy, Desired, MirrorOf, RetentionExcess, PlanOf, MarkedOn, Markable;
    forall m, x ensures (m, x) !in StaleMarks(job, c) {
      StaleIff(job, c, m, x);
      if t :| StaleOn(job, c, t, x) && c.tags[t] == m {
        MarkedIsMarkable(job, c, t);
        MarkableIsTag(job, c, t);
        MarkedIff(c, t, x.reason == RETENTION_EXCESS);
      }
    }
  }

  /** The reconcile after a cut-off pass only marks again what lost its mark. */
  lemma ReconcileRemarks(job: Job, build: Builder, c: Repo)
    requires WellFormed(job) && Settled(job, c) && Tidy(job, c) && RightAxis(job, c)
    ensures var r' := Run(job, build, APPLY, NoOutage(), c);
            && r'.tags == c.tags && Quiet(job, r')
            && r'.attached == c.attached + SelectionPairs(job, c) + RetentionPairs(job, c, r')
  {
    hide *;
    var r' := Run(job, build, APPLY, NoOutage(), c);
    RunClosed(job, build, c);
    SettledStands(job, c);
    SecondRun(job, build, c);
    NothingStale(job, c);
    MarksAfterSecond(job, build, c, r');
    assert c.attached + SelectionPairs(job, c) + RetentionPairs(job, c, r') - {} ==
        c.attached + SelectionPairs(job, c) + RetentionPairs(job, c, r');
  }

  /** The mark a tag without one gets. */
  ghost function NewMarks(job: Job, c: Repo, t: Tag): set<Referrer> {
    if Dropped(job, c, t) then {SelMark(job)}
    else if t in RetentionExcess(job, MirrorOf(job, c)) then {RetMark(job)}
    else {}
  }

  lemma NoMarkNoAxis(job: Job, c: Repo, u: Tag)
    requires Markable(job, c, u) && RightAxis(job, c)
    ensures MarksOf(c, u) == {} <==> u !in MarkedOn(c, !Dropped(job, c, u))
    ensures MarksOf(c, u) == {} <==> u !in MarkedOn(c, false) && u !in MarkedOn(c, true)
  {
    hide Desired, MirrorOf, RetentionExcess;
    MarkableIsTag(job, c, u);
    SomeAxis(MarksOf(c, u));
  }

  lemma SomeAxis(marks: set<Referrer>)
    requires forall x | x in marks :: x.Mark?
    ensures marks != {} ==> OnAxis(marks, false) || OnAxis(marks, true)
  {
    forall x | x in marks ensures OnAxis(marks, x.reason == RETENTION_EXCESS) {
    }
  }

  lemma SelectionOf(job: Job, c: Repo, t: Tag, x: Referrer)
    requires Standing(job, c) && Tidy(job, c) && RightAxis(job, c) && t in c.tags
    ensures (c.tags[t], x) in SelectionPairs(job, c) <==> x == SelMark(job) && Dropped(job, c, t) && MarksOf(c, t) == {}
  {
    hide KeptAndCovered, AliasesFollow, Desired, OneEach, MirrorOf, RetentionExcess, MarkedOn, MarksOf;
    forall u | Dropped(job, c, u)
      ensures u in c.tags && (MarksOf(c, u) == {} <==> u !in MarkedOn(c, false) && u !in MarkedOn(c, true))
    {
      NoMarkNoAxis(job, c, u);
    }
    assert forall u | Dropped(job, c, u) :: Markable(job, c, u);
  }

  lemma RetentionOf(job: Job, c: Repo, r': Repo, t: Tag, x: Referrer)
    requires Tidy(job, c) && RightAxis(job, c) && t in c.tags && r'.tags == c.tags
    ensures (c.tags[t], x) in RetentionPairs(job, c, r') <==>
              x == RetMark(job) && t in RetentionExcess(job, MirrorOf(job, c)) && MarksOf(c, t) == {}
  {
    hide Desired, OneEach, MirrorOf, RetentionExcess, MarkedOn, MarksOf;
    forall u | u in RetentionExcess(job, MirrorOf(job, c))
      ensures u in c.tags && (MarksOf(c, u) == {} <==> u !in MarkedOn(c, true))
    {
      MarkableIsTag(job, c, u);
      NoMarkNoAxis(job, c, u);
    }
    assert forall u | u in RetentionExcess(job, MirrorOf(job, c)) :: Markable(job, c, u);
  }

  lemma RemarkedTag(job: Job, c: Repo, r': Repo, t: Tag)
    requires Standing(job, c) && Tidy(job, c) && RightAxis(job, c) && t in c.tags
    requires r'.tags == c.tags && r'.attached == c.attached + SelectionPairs(job, c) + RetentionPairs(job, c, r')
    ensures MarksOf(r', t) == if MarksOf(c, t) == {} then NewMarks(job, c, t) else MarksOf(c, t)
  {
    hide Standing, Tidy, RightAxis, SelectionPairs, RetentionPairs, MirrorOf, RetentionExcess, Desired, Stamped;
    if t in RetentionExcess(job, MirrorOf(job, c)) {
      MarkableIsTag(job, c, t);
    }
    forall x ensures x in MarksOf(r', t) <==> x in if MarksOf(c, t) == {} then NewMarks(job, c, t) else MarksOf(c, t) {
      SelectionOf(job, c, t, x);
      RetentionOf(job, c, r', t, x);
    }
  }

  lemma SameMarkable(job: Job, c: Repo, r': Repo)
    requires r'.tags == c.tags
    ensures forall t :: Markable(job, r', t) <==> Markable(job, c, t)
  {
    hide MirrorOf, RetentionExcess, Desired, Stamped;
    ExcessFromTags(job, c, r');
    assert forall t :: Dropped(job, r', t) <==> Dropped(job, c, t);
  }

  lemma NewMarksIff(job: Job, c: Repo, t: Tag)
    ensures NewMarks(job, c, t) != {} <==> Markable(job, c, t)
    ensures forall x, y | x in NewMarks(job, c, t) && y in NewMarks(job, c, t) :: x == y && x.Mark?
  {
    hide MirrorOf, RetentionExcess, Desired;
  }

  lemma TidyAgain(job: Job, c: Repo, r': Repo)
    requires Tidy(job, c) && r'.tags == c.tags
    requires forall t | t in c.tags ::
               MarksOf(r', t) == if MarksOf(c, t) == {} then NewMarks(job, c, t) else MarksOf(c, t)
    requires forall m, x | (m, x) in r'.attached && x.Mark? :: (m, x) in c.attached || exists t ::
               t in c.tags && c.tags[t] == m
    ensures Tidy(job, r')
  {
    hide Desired, MarksOf, Markable, NewMarks;
    SameMarkable(job, c, r');
    forall t ensures NewMarks(job, c, t) != {} <==> Markable(job, c, t)
             ensures forall x, y | x in NewMarks(job, c, t) && y in NewMarks(job, c, t) :: x == y
    {
      NewMarksIff(job, c, t);
    }
    forall t | t in c.tags && MarksOf(r', t) != {} ensures Markable(job, c, t) {
      if MarksOf(c, t) != {} {
        MarkedIsMarkable(job, c, t);
      }
    }
    forall m, x | (m, x) in r'.attached && x.Mark?
      ensures exists t :: Markable(job, r', t) && t in r'.tags && r'.tags[t] == m
    {
      if (m, x) !in c.attached {
        var t :| t in c.tags && c.tags[t] == m;
        MarkOnTag(r', t, x);
        assert Markable(job, r', t);
      }
    }
  }

  lemma MarkOnTag(r: Repo, t: Tag, x: Referrer)
    requires t in r.tags && x.Mark?
    ensures (r.tags[t], x) in r.attached <==> x in MarksOf(r, t)
  {
  }

  lemma NewPairsOnTags(job: Job, c: Repo, r': Repo)
    requires r'.tags == c.tags && r'.attached == c.attached + SelectionPairs(job, c) + RetentionPairs(job, c, r')
    ensures forall m, x | (m, x) in r'.attached && (m, x) !in c.attached :: x.Mark? && exists t ::
              t in c.tags && c.tags[t] == m
  {
    hide MirrorOf, RetentionExcess, Desired, MarkedOn, Stamped;
  }

  // ---- the two outcomes agree

  /** The oracle judges the image, whoever marked it. */
  ghost predicate JudgesImages(w: Reaper) {
    forall t, m, x, y :: w.observe(t, m, x) == w.observe(t, m, y)
  }

  ghost predicate Doomed(w: Reaper, r: Repo, t: Tag) {
    exists x :: Condemned(w, r, t, x)
  }

  lemma DoomedIff(w: Reaper, r: Repo, t: Tag, y: Referrer)
    requires JudgesImages(w)
    ensures Doomed(w, r, t) <==>
              && t in r.tags && !IsReferrersFallbackTag(t) && MarksOf(r, t) != {} && !w.unreadable(t)
              && w.observe(t, r.tags[t], y) == Unused && w.apply
    ensures forall x :: Condemned(w, r, t, x) <==> Doomed(w, r, t) && x in MarksOf(r, t)
  {
    if t in r.tags && MarksOf(r, t) != {} {
      var x :| x in MarksOf(r, t);
      assert w.observe(t, r.tags[t], x) == w.observe(t, r.tags[t], y);
    }
    forall x ensures Condemned(w, r, t, x) <==> Doomed(w, r, t) && x in MarksOf(r, t) {
      if Doomed(w, r, t) {
        var z :| Condemned(w, r, t, z);
        assert w.observe(t, r.tags[t], z) == w.observe(t, r.tags[t], x);
      }
    }
  }

  lemma RemovedIff(w: Reaper, r: Repo, t: Tag)
    ensures Removed(w, r, t, NoOutage()) <==> Doomed(w, r, t)
    ensures forall outage | Removed(w, r, t, outage) :: Doomed(w, r, t)
    ensures forall x, outage | ClearedBy(w, r, t, x, outage) :: Condemned(w, r, t, x)
    ensures forall x :: ClearedBy(w, r, t, x, NoOutage()) <==> Condemned(w, r, t, x)
  {
    hide Condemned;
    if Doomed(w, r, t) {
      var x :| Condemned(w, r, t, x);
      assert ClearedBy(w, r, t, x, NoOutage());
    }
  }

  /** `c` is what a cut-off pass left of `r`, and `d` what the next reconcile made of that. */
  ghost predicate Remarked(job: Job, w: Reaper, r: Repo, crash: Effect -> bool, c: Repo, d: Repo) {
    && Tidy(job, r) && Tidy(job, d) && JudgesImages(w)
    && (forall t | Markable(job, r, t) :: MarksOf(r, t) != {})
    && (forall t :: Markable(job, d, t) <==> Markable(job, r, t) && t in c.tags)
    && PurgedTo(w, r, r.tags.Keys, crash, c)
    && d.tags == c.tags && c.attached <= d.attached
    && (forall t | t in c.tags && MarksOf(c, t) != {} :: MarksOf(d, t) == MarksOf(c, t))
    && (forall t | t in c.tags && MarksOf(c, t) == {} :: MarksOf(d, t) != {} <==> Markable(job, r, t))
    && (forall m, x | (m, x) in d.attached && !x.Mark? :: (m, x) in c.attached)
  }

  /** A tag that survived the crash is doomed afterwards exactly when it was before. */
  lemma SameDoom(job: Job, w: Reaper, r: Repo, crash: Effect -> bool, c: Repo, d: Repo, t: Tag)
    requires Remarked(job, w, r, crash, c, d) && t in c.tags
    ensures t in r.tags && d.tags[t] == r.tags[t]
    ensures Doomed(w, d, t) <==> Doomed(w, r, t)
  {
    hide Tidy, Condemned, Doomed, Removed, ClearedBy, Markable, JudgesImages;
    DoomedIff(w, r, t, SelMark(job));
    DoomedIff(w, d, t, SelMark(job));
    assert MarksOf(c, t) <= MarksOf(r, t);
    if MarksOf(r, t) != {} {
      MarkedIsMarkable(job, r, t);
    }
  }

  lemma CrashKeepsUndoomed(job: Job, w: Reaper, r: Repo, crash: Effect -> bool, c: Repo, d: Repo, t: Tag)
    requires Remarked(job, w, r, crash, c, d) && t in r.tags && !Doomed(w, r, t)
    ensures t in c.tags
  {
    hide Tidy, Condemned, Doomed, Removed, ClearedBy, Markable, JudgesImages;
    RemovedIff(w, r, t);
  }

  /** The two passes agree on tags ... */
  lemma HealsTags(job: Job, w: Reaper, r: Repo, crash: Effect -> bool, c: Repo, d: Repo, p: Repo, u: Repo)
    requires Remarked(job, w, r, crash, c, d)
    requires PurgedTo(w, r, r.tags.Keys, NoOutage(), u) && PurgedTo(w, d, d.tags.Keys, NoOutage(), p)
    ensures p.tags == u.tags
  {
    hide Tidy, Condemned, Doomed, Removed, ClearedBy, Markable, JudgesImages, MarksOf;
    forall t ensures (t in p.tags <==> t in u.tags) && (t in p.tags ==> p.tags[t] == u.tags[t]) {
      RemovedIff(w, r, t);
      RemovedIff(w, d, t);
      if t in c.tags {
        SameDoom(job, w, r, crash, c, d, t);
      } else if t in r.tags && !Doomed(w, r, t) {
        CrashKeepsUndoomed(job, w, r, crash, c, d, t);
      }
    }
  }

  ghost predicate CondemnedAt(w: Reaper, r: Repo, m: Manifest, x: Referrer) {
    exists t :: t in r.tags && r.tags[t] == m && Condemned(w, r, t, x)
  }

  lemma PurgedPairs(w: Reaper, r: Repo, r': Repo)
    requires PurgedTo(w, r, r.tags.Keys, NoOutage(), r')
    ensures forall m, x :: (m, x) in r'.attached <==> (m, x) in r.attached && !CondemnedAt(w, r, m, x)
  {
    hide Condemned, Removed;
    forall m, x ensures (m, x) in r'.attached <==> (m, x) in r.attached && !CondemnedAt(w, r, m, x) {
      forall t ensures ClearedBy(w, r, t, x, NoOutage()) <==> Condemned(w, r, t, x) {
        RemovedIff(w, r, t);
      }
    }
  }

  /** The tag a mark hangs on. */
  lemma MarkOwner(job: Job, w: Reaper, r: Repo, m: Manifest, x: Referrer) returns (t: Tag)
    requires Tidy(job, r) && JudgesImages(w) && (m, x) in r.attached && x.Mark?
    ensures Markable(job, r, t) && t in r.tags && r.tags[t] == m && x in MarksOf(r, t)
    ensures CondemnedAt(w, r, m, x) <==> Doomed(w, r, t)
    ensures forall u | u in r.tags && r.tags[u] == m :: u == t
  {
    hide Condemned, OneEach, Markable, Doomed, JudgesImages;
    t :| Markable(job, r, t) && t in r.tags && r.tags[t] == m;
    DoomedIff(w, r, t, x);
  }

  /** ... and on marks ... */
  lemma HealsMark(job: Job, w: Reaper, r: Repo, crash: Effect -> bool, c: Repo, d: Repo, m: Manifest, x: Referrer)
    requires Remarked(job, w, r, crash, c, d) && x.Mark?
    ensures (m, x) in r.attached && !CondemnedAt(w, r, m, x) <==> (m, x) in d.attached && !CondemnedAt(w, d, m, x)
  {
    hide Tidy, Condemned, Doomed, Markable, JudgesImages, CondemnedAt, PurgedTo, MarksOf;
    if (m, x) in r.attached && !CondemnedAt(w, r, m, x) {
      var t := MarkOwner(job, w, r, m, x);
      CrashKeepsUndoomed(job, w, r, crash, c, d, t);
      SameDoom(job, w, r, crash, c, d, t);
      UndoomedKeepsMark(job, w, r, crash, c, d, t, x);
      var u := MarkOwner(job, w, d, m, x);
    } else if (m, x) in d.attached && !CondemnedAt(w, d, m, x) {
      var t := MarkOwner(job, w, d, m, x);
      SameDoom(job, w, r, crash, c, d, t);
      SurvivorHadMark(job, w, r, crash, c, d, t, x);
      var u := MarkOwner(job, w, r, m, x);
    }
  }

  lemma UndoomedKeepsMark(job: Job, w: Reaper, r: Repo, crash: Effect -> bool, c: Repo, d: Repo, t: Tag, x: Referrer)
    requires Remarked(job, w, r, crash, c, d) && t in c.tags && t in r.tags && !Doomed(w, r, t)
    requires (r.tags[t], x) in r.attached && x.Mark?
    ensures (r.tags[t], x) in c.attached && (r.tags[t], x) in d.attached
  {
    hide Condemned, Markable, JudgesImages, MarksOf, OneEach, ClearedBy, Removed;
    var o := MarkOwner(job, w, r, r.tags[t], x);
    forall u | u in r.tags && r.tags[u] == r.tags[t] ensures !ClearedBy(w, r, u, x, crash) {
      RemovedIff(w, r, u);
    }
  }

  lemma SurvivorHadMark(job: Job, w: Reaper, r: Repo, crash: Effect -> bool, c: Repo, d: Repo, t: Tag, x: Referrer)
    requires Remarked(job, w, r, crash, c, d) && Markable(job, d, t) && t in c.tags && t in r.tags &&
               d.tags[t] == r.tags[t]
    requires !Doomed(w, r, t) && x in MarksOf(d, t)
    ensures (r.tags[t], x) in r.attached
  {
    hide Condemned, Markable, JudgesImages, OneEach, ClearedBy, Removed, Doomed, Tidy;
    var y :| y in MarksOf(r, t);
    UndoomedKeepsMark(job, w, r, crash, c, d, t, y);
    assert y in MarksOf(c, t);
  }

  /** ... and on all else attached. */
  lemma OthersKept(job: Job, w: Reaper, r: Repo, crash: Effect -> bool, c: Repo, d: Repo, m: Manifest, x: Referrer)
    requires Remarked(job, w, r, crash, c, d) && !x.Mark?
    ensures !CondemnedAt(w, r, m, x) && !CondemnedAt(w, d, m, x)
    ensures (m, x) in r.attached <==> (m, x) in d.attached
  {
    hide Tidy, Markable, JudgesImages, Removed;
  }

  lemma HealsPairs(job: Job, w: Reaper, r: Repo, crash: Effect -> bool, c: Repo, d: Repo, p: Repo, u: Repo)
    requires Remarked(job, w, r, crash, c, d)
    requires PurgedTo(w, r, r.tags.Keys, NoOutage(), u) && PurgedTo(w, d, d.tags.Keys, NoOutage(), p)
    ensures p.attached == u.attached
  {
    hide Tidy, JudgesImages, PurgedTo, CondemnedAt, Remarked, Condemned;
    PurgedPairs(w, r, u);
    PurgedPairs(w, d, p);
    forall m, x ensures (m, x) in p.attached <==> (m, x) in u.attached {
      if x.Mark? {
        HealsMark(job, w, r, crash, c, d, m, x);
      } else {
        OthersKept(job, w, r, crash, c, d, m, x);
      }
    }
    SamePairs(p.attached, u.attached);
  }

  lemma SamePairs(a: set<(Manifest, Referrer)>, b: set<(Manifest, Referrer)>)
    requires forall m, x :: (m, x) in a <==> (m, x) in b
    ensures a == b
  {
    forall q ensures q in a <==> q in b {
      assert q == (q.0, q.1);
    }
  }

  lemma FullPass(w: Reaper, r: Repo, listing: seq<Tag>, outage: Effect -> bool)
    requires OneEach(r) && ListsMarks(w) && Enumerates(listing, r)
    ensures PurgedTo(w, r, r.tags.Keys, outage, PurgeTags(w, r, listing, outage).0)
  {
    hide PurgedTo, PurgeTags, OneEach;
    assert forall t | t in listing :: t in Elements(listing);
    PassClosed(w, r, listing, outage);
  }

  lemma QuietFacts(job: Job, r: Repo)
    requires Quiet(job, r)
    ensures Settled(job, r) && RightAxis(job, r)
    ensures forall t | Markable(job, r, t) :: MarksOf(r, t) != {}
  {
    hide Standing, Alike, Desired, MirrorOf, RetentionExcess;
    forall t | Markable(job, r, t) ensures MarksOf(r, t) != {} {
    }
  }

  lemma RemarkedHolds(job: Job, build: Builder, w: Reaper, r: Repo, crash: Effect -> bool, c: Repo)
    requires WellFormed(job) && Tidy(job, r) && SparesExcess(job, w, r, crash) && JudgesImages(w)
    requires forall t | Markable(job, r, t) :: MarksOf(r, t) != {}
    requires PurgedTo(w, r, r.tags.Keys, crash, c) && Settled(job, c) && Tidy(job, c) && RightAxis(job, c)
    ensures Remarked(job, w, r, crash, c, Run(job, build, APPLY, NoOutage(), c))
    ensures OneEach(Run(job, build, APPLY, NoOutage(), c))
  {
    hide WellFormed, Tidy, SparesExcess, JudgesImages, PurgedTo, Standing, RightAxis, Run, Quiet;
    hide SelectionPairs, RetentionPairs;
    hide Markable, NewMarks, MarksOf, Alike;
    var d := Run(job, build, APPLY, NoOutage(), c);
    SelectedStays(job, w, r, crash, c);
    ReconcileRemarks(job, build, c);
    NewPairsOnTags(job, c, d);
    SameMarkable(job, c, d);
    forall t | t in c.tags
      ensures MarksOf(d, t) == if MarksOf(c, t) == {} then NewMarks(job, c, t) else MarksOf(c, t)
      ensures NewMarks(job, c, t) != {} <==> Markable(job, r, t)
    {
      RemarkedTag(job, c, d, t);
      NewMarksIff(job, c, t);
    }
    TidyAgain(job, c, d);
    TidyIsOneEach(job, d);
  }

  /**
   Cut off, then one reconcile and one pass with the same answers: is it where an uninterrupted
   pass would have ended?
   */
  ghost predicate Heals(job: Job, build: Builder, w: Reaper, r: Repo, listing: seq<Tag>, crash: Effect -> bool,
                        later: seq<Tag>) {
    PurgeTags(w, Run(job, build, APPLY, NoOutage(), PurgeTags(w, r, listing, crash).0), later, NoOutage()).0
    == PurgeTags(w, r, listing, NoOutage()).0
  }

  lemma SparedHeals(job: Job, build: Builder, w: Reaper, r: Repo, crash: Effect -> bool, listing: seq<Tag>,
                    later: seq<Tag>)
    requires WellFormed(job) && Quiet(job, r) && Tidy(job, r) && ListsMarks(w) && JudgesImages(w)
    requires Enumerates(listing, r) && SparesExcess(job, w, r, crash)
    requires Enumerates(later, Run(job, build, APPLY, NoOutage(), PurgeTags(w, r, listing, crash).0))
    ensures Heals(job, build, w, r, listing, crash, later)
  {
    hide *;
    var c := PurgeTags(w, r, listing, crash).0;
    var d := Run(job, build, APPLY, NoOutage(), c);
    var p, u := PurgeTags(w, d, later, NoOutage()).0, PurgeTags(w, r, listing, NoOutage()).0;
    QuietFacts(job, r);
    TidyIsOneEach(job, r);
    StaysSettled(job, w, r, listing, crash);
    StaysTidy(job, w, r, listing, crash);
    FullPass(w, r, listing, crash);
    RemarkedHolds(job, build, w, r, crash, c);
    FullPass(w, r, listing, NoOutage());
    FullPass(w, d, later, NoOutage());
    HealsTags(job, w, r, crash, c, d, p, u);
    HealsPairs(job, w, r, crash, c, d, p, u);
    HealsOf(job, build, w, r, listing, crash, later);
  }

  lemma HealsOf(job: Job, build: Builder, w: Reaper, r: Repo, listing: seq<Tag>, crash: Effect -> bool, later: seq<Tag>)
    requires var p := PurgeTags(w, Run(job, build, APPLY, NoOutage(), PurgeTags(w, r, listing, crash).0), later,
             NoOutage()).0;
             var u := PurgeTags(w, r, listing, NoOutage()).0;
             p.tags == u.tags && p.attached == u.attached
    ensures Heals(job, build, w, r, listing, crash, later)
  {
    hide PurgeTags, Run;
  }

  // ---- purged excess comes back

  /** No marked image was stamped at this very instant. */
  ghost predicate MarkedBeforeNow(job: Job, r: Repo) {
    forall t | t in r.tags && MarksOf(r, t) != {} :: TimeAt(r.tags[t].annotations, Created) != Some(job.now)
  }

  /** Deleting tags puts no other tag in excess. */
  lemma ExcessShrinks(job: Job, r: Repo, c: Repo)
    requires Within(c, r)
    ensures RetentionExcess(job, MirrorOf(job, c)) <= RetentionExcess(job, MirrorOf(job, r))
  {
    hide MirrorOf, Excess, KeptTimes;
    forall v | v in job.variants
      ensures VariantExcess(job, v, MirrorOf(job, c)) <= VariantExcess(job, v, MirrorOf(job, r))
    {
      if job.retention.Some? {
        TimesWithin(job, v, r, c);
        FewerKeptLessExcess(KeptTimes(v, MirrorOf(job, c)), KeptTimes(v, MirrorOf(job, r)), job.retention.value.keep,
                            job.retention.value.olderThanDays * DAY, job.now, AliasTargets(v));
      }
    }
  }

  lemma TimesWithin(job: Job, v: Variant, r: Repo, c: Repo)
    requires Within(c, r)
    ensures forall t | t in KeptTimes(v, MirrorOf(job, c)) ::
              t in KeptTimes(v, MirrorOf(job, r)) &&
                  KeptTimes(v, MirrorOf(job, r))[t] == KeptTimes(v, MirrorOf(job, c))[t]
  {
    hide MirrorOf, TimeAt, Stamped;
    forall t | t in MirrorOf(job, c)
      ensures t in MirrorOf(job, r) && MirrorOf(job, r)[t].importedAt == MirrorOf(job, c)[t].importedAt
    {
      MirrorAt(job, c, t);
      MirrorAt(job, r, t);
    }
  }

  lemma ExcessKeepsManifest(job: Job, build: Builder, r: Repo, c: Repo, d: Repo, u: Tag)
    requires WellFormed(job) && Standing(job, r) && Within(c, r) && RanTo(job, build, c, d)
    requires u in RetentionExcess(job, MirrorOf(job, c))
    ensures u in c.tags && u in r.tags && u in d.tags && d.tags[u] == r.tags[u]
  {
    hide MirrorOf, RetentionExcess, Concrete, Desired, DistinctNames, Decide, Covered;
    ExcessIsConcrete(job, c, u);
    var v, s := ConcreteOutput(job, u);
    assert KeptAndCovered(job, r, v, s);
    StillKept(job, r, c, v, s);
  }

  /** What a selected tag is placed on anew carries no mark. */
  lemma ComesBackUnmarked(job: Job, build: Builder, r: Repo, c: Repo, d: Repo, v: Variant, s: Tag, x: Referrer)
    requires WellFormed(job) && Standing(job, r) && Tidy(job, r) && MarkedBeforeNow(job, r)
    requires (forall t | Markable(job, r, t) :: MarksOf(r, t) != {}) && Within(c, r) && RanTo(job, build, c, d)
    requires s in job.source && x.Mark?
    ensures (Placed(job, build, v, s), x) !in d.attached
  {
    hide WellFormed, Standing, Placed, TagDelta, StaleMarks, MirrorOf, RetentionExcess, Desired, Markable;
    hide OneEach, TagsSettled;
    hide MarksOf, Stamped;
    var m := Placed(job, build, v, s);
    PlacedFacts(job, build, v, s);
    NoMarksAdded(job, build, c);
    forall u | Markable(job, r, u) && u in r.tags ensures r.tags[u] != m {
      assert MarksOf(r, u) != {};
    }
    ExcessShrinks(job, r, c);
    forall u | Dropped(job, c, u) ensures u in c.tags && c.tags[u] != m {
      DroppedEarlier(job, r, c, u);
      DroppedIsMarkable(job, r, u);
    }
    forall u | u in RetentionExcess(job, MirrorOf(job, c)) ensures u in d.tags && d.tags[u] != m {
      ExcessKeepsManifest(job, build, r, c, d, u);
      ExcessIsMarkable(job, r, u);
    }
    assert (m, x) !in c.attached;
    assert (m, x) !in TagDelta(job, build, c).pairs;
    assert (m, x) !in SelectionPairs(job, c);
    assert (m, x) !in RetentionPairs(job, c, d);
  }

  lemma DroppedIsMarkable(job: Job, r: Repo, t: Tag)
    requires Dropped(job, r, t)
    ensures Markable(job, r, t) && t in r.tags
  {
  }

  lemma ExcessIsMarkable(job: Job, r: Repo, t: Tag)
    requires t in RetentionExcess(job, MirrorOf(job, r))
    ensures Markable(job, r, t)
  {
  }

  /**
   A tag in retention excess is still selected: deleted by the pass, cut off or not, it is
   imported again by the next reconcile and the next pass leaves it.
   */
  lemma PurgedExcessComesBack(job: Job, build: Builder, w: Reaper, r: Repo, crash: Effect -> bool, listing: seq<Tag>,
                              later: seq<Tag>, t: Tag)
    requires WellFormed(job) && Quiet(job, r) && Tidy(job, r) && MarkedBeforeNow(job, r) && ListsMarks(w) &&
               Enumerates(listing, r)
    requires t in RetentionExcess(job, MirrorOf(job, r)) && Removed(w, r, t, crash)
    ensures var c := PurgeTags(w, r, listing, crash).0;
            && t !in c.tags
            && t in PurgeTags(w, Run(job, build, APPLY, NoOutage(), c), later, NoOutage()).0.tags
            && t !in PurgeTags(w, r, listing, NoOutage()).0.tags
  {
    hide *;
    var c := PurgeTags(w, r, listing, crash).0;
    var d := Run(job, build, APPLY, NoOutage(), c);
    QuietFacts(job, r);
    SettledStands(job, r);
    TidyIsOneEach(job, r);
    FullPass(w, r, listing, crash);
    FullPass(w, r, listing, NoOutage());
    GoneEitherWay(w, r, crash, c, PurgeTags(w, r, listing, NoOutage()).0, t);
    WithinOf(w, r, crash, c);
    RunClosed(job, build, c);
    var v, s := ExcessOutput(job, r, t);
    ReplacedUnmarked(job, build, r, c, d, v, s);
    OnlyCondemnedGo(w, d, later, NoOutage());
    if t !in PurgeTags(w, d, later, NoOutage()).0.tags {
      var x :| Condemned(w, d, t, x);
      CondemnedMark(w, d, t, x);
    }
  }

  lemma SettledStands(job: Job, r: Repo)
    requires Settled(job, r)
    ensures Standing(job, r)
  {
  }

  lemma GoneEitherWay(w: Reaper, r: Repo, crash: Effect -> bool, c: Repo, u: Repo, t: Tag)
    requires PurgedTo(w, r, r.tags.Keys, crash, c) && PurgedTo(w, r, r.tags.Keys, NoOutage(), u) &&
               Removed(w, r, t, crash)
    ensures t in r.tags && t !in c.tags && t !in u.tags
  {
    hide Condemned;
    RemovedIff(w, r, t);
    var x :| Condemned(w, r, t, x);
    CondemnedMark(w, r, t, x);
  }

  lemma ExcessOutput(job: Job, r: Repo, t: Tag) returns (v: Variant, s: Tag)
    requires WellFormed(job) && t in RetentionExcess(job, MirrorOf(job, r))
    ensures IsOutput(job, v, s) && t == s + v.suffix
  {
    hide MirrorOf, RetentionExcess, Concrete, DistinctNames;
    ExcessIsConcrete(job, r, t);
    v, s := ConcreteOutput(job, t);
  }

  lemma ReplacedUnmarked(job: Job, build: Builder, r: Repo, c: Repo, d: Repo, v: Variant, s: Tag)
    requires WellFormed(job) && Standing(job, r) && Tidy(job, r) && MarkedBeforeNow(job, r)
    requires (forall t | Markable(job, r, t) :: MarksOf(r, t) != {}) && Within(c, r) && RanTo(job, build, c, d)
    requires IsOutput(job, v, s) && s + v.suffix !in c.tags
    ensures s + v.suffix in d.tags && MarksOf(d, s + v.suffix) == {}
  {
    hide WellFormed, Standing, Tidy, MarkedBeforeNow, Markable, Within, Placed, MirrorOf, Decide;
    AbsentIsPlaced(job, c, v, s);
    assert d.tags[s + v.suffix] == Placed(job, build, v, s);
    forall x | x in MarksOf(d, s + v.suffix) ensures false {
      ComesBackUnmarked(job, build, r, c, d, v, s, x);
    }
  }

  /**
   Exactly when purging heals itself. A pass cut off by a crash, then one reconcile and one
   pass with the same answers, ends where an uninterrupted pass would have if and only if the
   crash came before any tag in retention excess was deleted.
   */
  lemma CutOffPassHeals(job: Job, build: Builder, w: Reaper, r: Repo, crash: Effect -> bool, listing: seq<Tag>,
                        later: seq<Tag>)
    requires WellFormed(job) && Quiet(job, r) && Tidy(job, r) && ListsMarks(w) && JudgesImages(w)
    requires Enumerates(listing, r)
    requires Enumerates(later, Run(job, build, APPLY, NoOutage(), PurgeTags(w, r, listing, crash).0))
    ensures SparesExcess(job, w, r, crash) ==> Heals(job, build, w, r, listing, crash, later)
    ensures MarkedBeforeNow(job, r) ==>
              (Heals(job, build, w, r, listing, crash, later) <==> SparesExcess(job, w, r, crash))
  {
    hide Removed, RetentionExcess, MirrorOf, WellFormed, Quiet, Tidy, MarkedBeforeNow, ListsMarks;
    hide JudgesImages, Enumerates, Run, PurgeTags;
    if SparesExcess(job, w, r, crash) {
      SparedHeals(job, build, w, r, crash, listing, later);
    } else if MarkedBeforeNow(job, r) {
      var t :| t in RetentionExcess(job, MirrorOf(job, r)) && Removed(w, r, t, crash);
      PurgedExcessComesBack(job, build, w, r, crash, listing, later, t);
    }
  }

  ghost predicate HealsFromAnyCrash(job: Job, build: Builder, w: Reaper, r: Repo, listing: seq<Tag>) {
    forall crash, later | Enumerates(later, Run(job, build, APPLY, NoOutage(), PurgeTags(w, r, listing, crash).0)) ::
      Heals(job, build, w, r, listing, crash, later)
  }

  /** No tag in retention excess carries a mark the pass acts on: a look before the pass tells. */
  ghost predicate ExcessUndoomed(job: Job, w: Reaper, r: Repo) {
    forall t | t in RetentionExcess(job, MirrorOf(job, r)) :: !Doomed(w, r, t)
  }

  /** It heals from every crash if and only if no tag in retention excess is condemned. */
  lemma HealsFromAnyCrashIff(job: Job, build: Builder, w: Reaper, r: Repo, listing: seq<Tag>)
    requires WellFormed(job) && Quiet(job, r) && Tidy(job, r) && ListsMarks(w) && JudgesImages(w) &&
               Enumerates(listing, r)
    ensures ExcessUndoomed(job, w, r) ==> HealsFromAnyCrash(job, build, w, r, listing)
    ensures MarkedBeforeNow(job, r) ==> (HealsFromAnyCrash(job, build, w, r, listing) <==> ExcessUndoomed(job, w, r))
  {
    hide Removed, RetentionExcess, MirrorOf, WellFormed, Quiet, Tidy, MarkedBeforeNow, ListsMarks;
    hide JudgesImages, Enumerates, Run, PurgeTags;
    hide Heals, Doomed;
    if ExcessUndoomed(job, w, r) {
      forall crash, later | Enumerates(later, Run(job, build, APPLY, NoOutage(), PurgeTags(w, r, listing, crash).0))
        ensures Heals(job, build, w, r, listing, crash, later)
      {
        forall t | t in RetentionExcess(job, MirrorOf(job, r)) ensures !Removed(w, r, t, crash) {
          RemovedIff(w, r, t);
        }
        CutOffPassHeals(job, build, w, r, crash, listing, later);
      }
    } else if MarkedBeforeNow(job, r) {
      var t :| t in RetentionExcess(job, MirrorOf(job, r)) && Doomed(w, r, t);
      var later := Enumeration(Run(job, build, APPLY, NoOutage(), PurgeTags(w, r, listing, NoOutage()).0));
      RemovedIff(w, r, t);
      CutOffPassHeals(job, build, w, r, NoOutage(), listing, later);
    }
  }

  lemma Enumeration(r: Repo) returns (listing: seq<Tag>)
    ensures Enumerates(listing, r)
  {
    listing := SortedOf(r.tags.Keys);
  }
}
