/**
 What a reaping pass reports (knock/use_cases/purge.py): a verdict for each mark it could
 read, failed exactly when the tag was gone, could not be read, or one of the two calls failed.
 */
module PurgeReport {
  import opened Wrappers
  import opened Sorting
  import opened Registry
  import opened Reconcile
  import opened Purge

  /** The outcome for mark `x` on tag `t`, which names `m`, when the pass meets it in `r`. */
  ghost predicate OutcomeOf(w: Reaper, r: Repo, t: Tag, m: Manifest, x: Referrer, outage: Effect -> bool,
                            o: Outcome) {
    && o.tag == t
    && (o.verdict.None? <==> t !in r.tags || w.unreadable(t))
    && (t in r.tags && !w.unreadable(t) ==>
          && (o.verdict == Some(Condemn) <==> w.observe(t, r.tags[t], x) == Unused)
          && (o.verdict == Some(Protect) <==> w.observe(t, r.tags[t], x) == Sighted)
          && (o.verdict == Some(Uncertain) <==> w.observe(t, r.tags[t], x) == Unavailable))
    && (o.failed <==>
          || o.verdict.None?
          || (o.verdict == Some(Condemn) && w.apply
              && ((m, x) !in r.attached || outage(Detach(m, x)) || outage(Untag(t)))))
    && (o.applied <==> o.verdict == Some(Condemn) && w.apply && !o.failed)
  }

  lemma ProcessReported(w: Reaper, r: Repo, t: Tag, m: Manifest, x: Referrer, outage: Effect -> bool)
    ensures var (r', o) := Process(w, r, t, m, x, outage);
            && OutcomeOf(w, r, t, m, x, outage, o)
            && (o.applied <==> t in r.tags && t !in r'.tags)
            && r'.tags == (if o.applied then r.tags - {t} else r.tags)
            && r'.attached ==
               (if o.verdict == Some(Condemn) && w.apply && !outage(Detach(m, x)) then r.attached - {(m, x)}
                else r.attached)
  {
    PairRuns(m, x, t, r, outage);
  }

  lemma WithinTwice(a: Repo, b: Repo, c: Repo)
    requires Within(c, b) && Within(b, a)
    ensures Within(c, a)
  {
  }

  /** The outcomes for one tag's marks, in the order they are listed. */
  ghost predicate OutcomesOf(w: Reaper, r: Repo, t: Tag, m: Manifest, xs: seq<Referrer>, outage: Effect -> bool,
                             os: seq<Outcome>) {
    && |os| == |xs|
    && forall i | 0 <= i < |os| :: exists r1 :: Within(r1, r) && OutcomeOf(w, r1, t, m, xs[i], outage, os[i])
  }

  ghost predicate ReportsRemoval(os: seq<Outcome>, t: Tag) { exists o :: o in os && o.tag == t && o.applied }

  lemma {:induction false} MarksReported(w: Reaper, r: Repo, t: Tag, m: Manifest, xs: seq<Referrer>,
                                         outage: Effect -> bool)
    ensures var (r', os) := ProcessMarks(w, r, t, m, xs, outage);
            && Within(r', r) && OutcomesOf(w, r, t, m, xs, outage, os)
            && (ReportsRemoval(os, t) <==> t in r.tags && t !in r'.tags)
            && (forall o | o in os :: o.tag == t)
            && (forall u | u != t && u in r.tags :: u in r'.tags)
    decreases |xs|
  {
    hide OutcomeOf, Process;
    if xs != [] {
      var (r1, o) := Process(w, r, t, m, xs[0], outage);
      var (r', rest) := ProcessMarks(w, r1, t, m, xs[1..], outage);
      ProcessReported(w, r, t, m, xs[0], outage);
      TagOf(w, r, t, m, xs[0], outage);
      MarksReported(w, r1, t, m, xs[1..], outage);
      WithinTwice(r, r1, r');
      var os := ProcessMarks(w, r, t, m, xs, outage).1;
      assert os == [o] + rest;
      forall i | 0 <= i < |os| ensures exists r2 :: Within(r2, r) && OutcomeOf(w, r2, t, m, xs[i], outage, os[i]) {
        if i == 0 {
          assert Within(r, r) && OutcomeOf(w, r, t, m, xs[0], outage, os[0]);
        } else {
          var r2 :| Within(r2, r1) && OutcomeOf(w, r2, t, m, xs[1..][i - 1], outage, rest[i - 1]);
          WithinTwice(r, r1, r2);
        }
      }
    }
  }

  lemma TagOf(w: Reaper, r: Repo, t: Tag, m: Manifest, x: Referrer, outage: Effect -> bool)
    ensures Process(w, r, t, m, x, outage).1.tag == t
  {
  }

  /** Among the outcomes are those for every mark the tag carried when the pass came to it. */
  ghost predicate Answered(w: Reaper, r: Repo, t: Tag, outage: Effect -> bool, os: seq<Outcome>) {
    exists r1, mine ::
      && Within(r1, r) && t in r1.tags && (forall o | o in mine :: o in os)
      && OutcomesOf(w, r1, t, r1.tags[t], w.list(r1, t), outage, mine)
  }

  /** An outcome is that of one mark of a tag that was there. */
  ghost predicate Accounted(w: Reaper, r: Repo, outage: Effect -> bool, o: Outcome) {
    exists r1, x ::
      && Within(r1, r) && o.tag in r.tags && !IsReferrersFallbackTag(o.tag)
      && x in MarksOf(r, o.tag) && OutcomeOf(w, r1, o.tag, r.tags[o.tag], x, outage, o)
  }

  lemma TagReported(w: Reaper, r: Repo, t: Tag, outage: Effect -> bool)
    requires ListsMarks(w)
    ensures var (r', os) := PurgeTag(w, r, t, outage);
            && Within(r', r)
            && (forall o | o in os :: Accounted(w, r, outage, o))
            && (forall u :: ReportsRemoval(os, u) <==> u in r.tags && u !in r'.tags)
            && (t in r.tags && !IsReferrersFallbackTag(t) ==> Answered(w, r, t, outage, os))
  {
    hide ProcessMarks, OutcomeOf, IsReferrersFallbackTag;
    if t in r.tags && !IsReferrersFallbackTag(t) {
      var m, xs := r.tags[t], w.list(r, t);
      MarksReported(w, r, t, m, xs, outage);
      var (r', os) := PurgeTag(w, r, t, outage);
      assert Within(r, r);
      forall o | o in os ensures Accounted(w, r, outage, o) {
        var i :| 0 <= i < |os| && os[i] == o;
        var r1 :| Within(r1, r) && OutcomeOf(w, r1, t, m, xs[i], outage, o);
        assert xs[i] in Elements(xs);
      }
    }
  }

  lemma AccountedBefore(w: Reaper, r: Repo, r1: Repo, outage: Effect -> bool, o: Outcome)
    requires Within(r1, r) && Accounted(w, r1, outage, o)
    ensures Accounted(w, r, outage, o)
  {
    hide OutcomeOf, IsReferrersFallbackTag;
    var r2, x :| Within(r2, r1) && x in MarksOf(r1, o.tag) && OutcomeOf(w, r2, o.tag, r1.tags[o.tag], x, outage, o);
    WithinTwice(r, r1, r2);
    assert x in MarksOf(r, o.tag);
  }

  lemma AnsweredBefore(w: Reaper, r: Repo, r1: Repo, t: Tag, outage: Effect -> bool, os: seq<Outcome>,
                       more: seq<Outcome>)
    requires Within(r1, r) && Answered(w, r1, t, outage, os) && forall o | o in os :: o in more
    ensures Answered(w, r, t, outage, more)
  {
    hide OutcomesOf;
    var r2, mine :|
      && Within(r2, r1) && t in r2.tags && (forall o | o in mine :: o in os)
      && OutcomesOf(w, r2, t, r2.tags[t], w.list(r2, t), outage, mine);
    WithinTwice(r, r1, r2);
  }

  /**
   Over a whole pass, whatever fails: every outcome is that of a mark, with the verdict the
   oracle's answer calls for, and every mark of a tag still there when its turn comes has one.
   A removal is reported of exactly the tags that are gone.
   */
  lemma {:induction false} PassReported(w: Reaper, r: Repo, listing: seq<Tag>, outage: Effect -> bool)
    requires ListsMarks(w)
    ensures var (r', os) := PurgeTags(w, r, listing, outage);
            && (forall o | o in os :: Accounted(w, r, outage, o))
            && (forall t :: ReportsRemoval(os, t) <==> t in r.tags && t !in r'.tags)
            && (forall t | t in listing && t in r.tags && !IsReferrersFallbackTag(t) ::
                  Answered(w, r, t, outage, os) || ReportsRemoval(os, t))
    decreases |listing|
  {
    hide PurgeTag, Accounted, Answered, IsReferrersFallbackTag, ListsMarks;
    if listing != [] {
      var (r1, a) := PurgeTag(w, r, listing[0], outage);
      var (r', b) := PurgeTags(w, r1, listing[1..], outage);
      var os := PurgeTags(w, r, listing, outage).1;
      assert os == a + b;
      TagReported(w, r, listing[0], outage);
      PassReported(w, r1, listing[1..], outage);
      OnlyCondemnedGo(w, r1, listing[1..], outage);
      forall o | o in b ensures Accounted(w, r, outage, o) {
        AccountedBefore(w, r, r1, outage, o);
      }
      forall t ensures ReportsRemoval(os, t) <==> ReportsRemoval(a, t) || ReportsRemoval(b, t) {
      }
      forall t | t in listing && t in r.tags && !IsReferrersFallbackTag(t)
        ensures Answered(w, r, t, outage, os) || ReportsRemoval(os, t)
      {
        if t == listing[0] {
          assert Within(r, r);
          AnsweredBefore(w, r, r, t, outage, a, os);
        } else if t in r1.tags && Answered(w, r1, t, outage, b) {
          AnsweredBefore(w, r, r1, t, outage, b, os);
        }
      }
    }
  }
}
