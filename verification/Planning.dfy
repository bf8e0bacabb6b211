/**
 The plan of an import, read off the destination and the policy alone (knock/domain/reconcile.py,
 knock/domain/retention.py, knock/domain/referrers.py): which tags are knock's, which decision
 each selected tag gets, what is dropped and what is in excess.
 */
module Planning {
  import opened Wrappers
  import opened Sorting
  import opened Registry
  import opened Retention
  import opened Reconcile
  import opened Apply
  import opened Runs
  import opened Convergence

  /** A tag under which a registry without the referrers API keeps the referrers of a digest. */
  lemma FallbackTagIff(tag: Tag)
    ensures IsReferrersFallbackTag(tag) <==>
              exists hex: string ::
                && tag == "sha256-" + hex && |hex| == 64
                && forall i | 0 <= i < 64 :: '0' <= hex[i] <= '9' || 'a' <= hex[i] <= 'f'
  {
    if IsReferrersFallbackTag(tag) {
      var hex := tag[7..];
      assert tag == "sha256-" + hex;
      forall i | 0 <= i < 64 ensures '0' <= hex[i] <= '9' || 'a' <= hex[i] <= 'f' {
        assert tag[7 + i] in HEX;
      }
    }
    if hex: string :|
      && tag == "sha256-" + hex && |hex| == 64
      && forall i | 0 <= i < 64 :: '0' <= hex[i] <= '9' || 'a' <= hex[i] <= 'f'
    {
      forall i | 7 <= i < 71 ensures tag[i] in HEX {
        assert tag[i] == hex[i - 7];
        HexDigit(tag[i]);
      }
    }
  }

  lemma HexDigit(c: char)
    ensures '0' <= c <= '9' || 'a' <= c <= 'f' ==> c in HEX
  {
    var hex := HEX;
    if '0' <= c <= '9' {
      assert hex[c as int - '0' as int] == c;
    } else if 'a' <= c <= 'f' {
      assert hex[10 + c as int - 'a' as int] == c;
    }
  }

  // ---- one selected tag ------------------------------------------------------------------------------------

  /** The tag is there, is no stored referrer, and names an image knock has stamped. */
  ghost predicate Knocks(r: Repo, t: Tag) {
    t in r.tags && !IsReferrersFallbackTag(t) && BaseDigest in r.tags[t].annotations
  }

  /** The text of an annotation; one that is no text reads as empty. */
  ghost predicate Reads(m: Manifest, k: Key, text: string) {
    k in m.annotations && (m.annotations[k] == Text(text) || (text == "" && m.annotations[k].Time?))
  }

  /** The image was made by the transform version the policy resolves to now, or by none if it resolves to none. */
  ghost predicate VersionAgrees(job: Job, v: Variant, m: Manifest) {
    if v.name in job.transforms then
      job.prefix != "" && Reads(m, Knock(job.prefix, Version), job.transforms[v.name])
    else job.prefix == "" || Knock(job.prefix, Version) !in m.annotations
  }

  /** Upstream moved on, a week ago or longer. */
  ghost predicate MovedOn(job: Job, s: Tag, m: Manifest)
    requires s in job.source
  {
    && !Reads(m, BaseDigest, job.source[s].digest)
    && job.source[s].created.Some? && job.now - job.source[s].created.value >= 604800
  }

  /**
   A selected tag is imported when knock has not stamped it, updated when its transform version
   or, past the grace, its digest differs from what is wanted, and kept otherwise.
   */
  lemma DecisionIs(job: Job, r: Repo, v: Variant, s: Tag)
    requires s in job.source
    ensures var d := Decide(job, v, s, MirrorOf(job, r));
            var t := s + v.suffix;
            && (d == Import <==> !Knocks(r, t))
            && (d == Update <==> Knocks(r, t) && (!VersionAgrees(job, v, r.tags[t]) || MovedOn(job, s, r.tags[t])))
            && (d == Keep <==> Knocks(r, t) && VersionAgrees(job, v, r.tags[t]) && !MovedOn(job, s, r.tags[t]))
  {
    hide IsReferrersFallbackTag;
    var t := s + v.suffix;
    if Knocks(r, t) {
      var m := r.tags[t];
      ReadsIff(m, BaseDigest, job.source[s].digest);
      if v.name in job.transforms {
        ReadsIff(m, Knock(job.prefix, Version), job.transforms[v.name]);
      }
      assert MirrorOf(job, r)[t] == ToMirrorArtifact(job, m, Referrers(r, m)).value;
    }
  }

  lemma ReadsIff(m: Manifest, k: Key, text: string)
    ensures Reads(m, k, text) <==> TextAt(m.annotations, k) == Some(text)
  {
  }

  // ---- what is asked for, dropped and in excess ------------------------------------------------------------

  /** A selected tag or an alias of some variant, with the variant's suffix. */
  ghost predicate AskedFor(job: Job, t: Tag) {
    exists v :: v in job.variants && (|| (exists s :: s in v.tags && t == s + v.suffix)
                                      || (exists a: Alias :: a in v.aliases && t == a.name + v.suffix))
  }

  lemma DesiredIff(job: Job, t: Tag)
    ensures t in Desired(job) <==> AskedFor(job, t)
  {
    if v :| v in job.variants && exists s :: s in v.tags && t == s + v.suffix {
      assert t in OutTags(v);
    }
    if v :| v in job.variants && exists a: Alias :: a in v.aliases && t == a.name + v.suffix {
      assert t in AliasNames(v);
    }
  }

  /** When knock stamped an output of the variant that no alias of the variant designates. */
  ghost predicate StampedAt(r: Repo, v: Variant, t: Tag, at: int) {
    && (exists s :: s in v.tags && t == s + v.suffix)
    && !(exists a: Alias :: a in v.aliases && t == a.target + v.suffix)
    && Knocks(r, t) && Created in r.tags[t].annotations && r.tags[t].annotations[Created] == Time(at)
  }

  ghost predicate StampedLater(r: Repo, v: Variant, u: Tag, t: Tag) {
    exists a, b :: StampedAt(r, v, u, a) && StampedAt(r, v, t, b)
                   && (a > b || (a == b && exists k: nat :: SmallerAt(t, u, k)))
  }

  ghost function LaterOnes(r: Repo, v: Variant, t: Tag): set<Tag> {
    set u | u in r.tags && StampedLater(r, v, u, t)
  }

  lemma KeptTimesAre(job: Job, r: Repo, v: Variant, t: Tag, at: int)
    ensures StampedAt(r, v, t, at) <==>
              && t in KeptTimes(v, MirrorOf(job, r)) && t !in AliasTargets(v)
              && KeptTimes(v, MirrorOf(job, r))[t] == at
  {
    hide IsReferrersFallbackTag;
    if Knocks(r, t) {
      assert MirrorOf(job, r)[t] == ToMirrorArtifact(job, r.tags[t], Referrers(r, r.tags[t])).value;
    }
  }

  lemma LaterAre(job: Job, r: Repo, v: Variant, t: Tag)
    requires t in KeptTimes(v, MirrorOf(job, r)) && t !in AliasTargets(v)
    ensures Newer(KeptTimes(v, MirrorOf(job, r)), AliasTargets(v), t) == LaterOnes(r, v, t)
  {
    hide StampedAt, KeptTimes, AliasTargets, MirrorOf, SmallerAt;
    var kept := KeptTimes(v, MirrorOf(job, r));
    KeptTimesAre(job, r, v, t, kept[t]);
    forall u ensures u in Newer(kept, AliasTargets(v), t) <==> u in LaterOnes(r, v, t) {
      forall at ensures StampedAt(r, v, u, at) <==> u in kept && u !in AliasTargets(v) && kept[u] == at {
        KeptTimesAre(job, r, v, u, at);
      }
      forall at ensures StampedAt(r, v, t, at) <==> kept[t] == at {
        KeptTimesAre(job, r, v, t, at);
      }
      assert StampedAt(r, v, t, kept[t]);
      if u in kept && u !in AliasTargets(v) {
        assert StampedAt(r, v, u, kept[u]);
        StampedIsTag(r, v, u, kept[u]);
        assert StampedLater(r, v, u, t) <==> GoesFirst(kept, t, u);
      }
    }
  }

  lemma StampedIsTag(r: Repo, v: Variant, t: Tag, at: int)
    ensures StampedAt(r, v, t, at) ==> t in r.tags
  {
  }

  /**
   A tag is in excess when retention is on and it is, in some variant, stamped longer ago than
   the window, with the configured number of that variant's tags stamped later.
   */
  lemma RetentionExcessIff(job: Job, r: Repo, t: Tag)
    ensures t in RetentionExcess(job, MirrorOf(job, r)) <==>
              && job.retention.Some?
              && exists v, at :: v in job.variants && InExcess(job, r, v, t, at)
  {
    hide StampedAt, KeptTimes, MirrorOf, Excess, LaterOnes, Newer;
    if job.retention.Some? {
      forall v | v in job.variants
        ensures t in VariantExcess(job, v, MirrorOf(job, r)) <==> exists at :: InExcess(job, r, v, t, at)
      {
        VariantExcessIff(job, r, v, t);
      }
    }
  }

  ghost predicate InExcess(job: Job, r: Repo, v: Variant, t: Tag, at: int)
    requires job.retention.Some?
  {
    && StampedAt(r, v, t, at) && job.now - at > job.retention.value.olderThanDays * 86400
    && |LaterOnes(r, v, t)| >= job.retention.value.keep
  }

  lemma VariantExcessIff(job: Job, r: Repo, v: Variant, t: Tag)
    requires job.retention.Some?
    ensures t in VariantExcess(job, v, MirrorOf(job, r)) <==> exists at :: InExcess(job, r, v, t, at)
  {
    hide StampedAt, KeptTimes, MirrorOf, Excess, LaterOnes, Newer, AliasTargets;
    var kept := KeptTimes(v, MirrorOf(job, r));
    ExcessByCount(kept, job.retention.value.keep, job.retention.value.olderThanDays * DAY, job.now, AliasTargets(v), t);
    forall at ensures StampedAt(r, v, t, at) <==> t in kept && t !in AliasTargets(v) && kept[t] == at {
      KeptTimesAre(job, r, v, t, at);
    }
    if t in kept && t !in AliasTargets(v) {
      LaterAre(job, r, v, t);
      assert t in VariantExcess(job, v, MirrorOf(job, r)) <==> InExcess(job, r, v, t, kept[t]);
    }
  }

  /** The lists of one import, each without repetition and in ascending order. */
  lemma ListsAre(job: Job, r: Repo, t: Tag)
    ensures var p := PlanOf(job, r);
            && (t in p.toDelete <==> Knocks(r, t) && !AskedFor(job, t))
            && (t in p.toUnmark <==> HasMark(r, t, false) && AskedFor(job, t))
            && (t in p.toMarkRetention <==> t in RetentionExcess(job, MirrorOf(job, r)) && !HasMark(r, t, true))
            && (t in p.toUnmarkRetention <==> HasMark(r, t, true) && t !in RetentionExcess(job, MirrorOf(job, r)))
  {
    hide PlanOf, Desired, MarkedOn, RetentionExcess, MirrorOf, AskedFor, Knocks, HasMark;
    DropList(job, r);
    RetainList(job, r);
    UnmarkLists(job, r);
    DesiredIff(job, t);
    HasMarkIff(r, t);
    KnocksIff(r, t);
  }

  /** A stamped tag whose image carries a mark: for retention, or for another reason. */
  ghost predicate HasMark(r: Repo, t: Tag, retention: bool) {
    Knocks(r, t) && exists x: Referrer ::
      x.Mark? && (x.reason == "retention-excess") == retention && (r.tags[t], x) in r.attached
  }

  lemma HasMarkIff(r: Repo, t: Tag)
    ensures t in MarkedOn(r, false) <==> HasMark(r, t, false)
    ensures t in MarkedOn(r, true) <==> HasMark(r, t, true)
  {
    MarkedIff(r, t, false);
    MarkedIff(r, t, true);
  }

  lemma KnocksIff(r: Repo, t: Tag)
    ensures Knocks(r, t) <==> IsMirrored(r, t)
  {
  }
}
