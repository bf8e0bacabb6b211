/**
 Retention (knock/domain/retention.py) and the collector of superseded scan results that
 reuses it (knock/domain/scan/gc.py).

 What is excess is defined by counting; the method sorts and enumerates as the source does.
 */
module Retention {
  import opened Wrappers
  import opened Sorting

  datatype Item = Item(name: string, at: int)

  datatype Archive = Archive(keep: Option<int>, olderThanDays: Option<int>)

  datatype ResolvedRetention = ResolvedRetention(keep: int, olderThanDays: int)

  const DEFAULT_KEEP := 2
  const DEFAULT_OLDER_THAN_DAYS := 30
  const DAY := 86400

  /** The first level that sets the field wins; neither level set means retention is off. */
  method ResolveArchive(policy: Option<Archive>, global: Option<Archive>)
    returns (r: Option<ResolvedRetention>)
    ensures r.None? <==> policy.None? && global.None?
    ensures r.Some? && policy.Some? && policy.value.keep.Some? ==> r.value.keep == policy.value.keep.value
    ensures r.Some? && (policy.None? || policy.value.keep.None?) ==>
              r.value.keep == if global.Some? && global.value.keep.Some? then global.value.keep.value else 2
    ensures r.Some? && policy.Some? && policy.value.olderThanDays.Some? ==>
              r.value.olderThanDays == policy.value.olderThanDays.value
    ensures r.Some? && (policy.None? || policy.value.olderThanDays.None?) ==>
              r.value.olderThanDays ==
              if global.Some? && global.value.olderThanDays.Some? then global.value.olderThanDays.value
              else 30
  {
    if policy.None? && global.None? {
      return None;
    }
    var levels := [policy, global];
    var keep, days := DEFAULT_KEEP, DEFAULT_OLDER_THAN_DAYS;
    for i := 0 to 2
      invariant forall j | 0 <= j < i :: levels[j].None? || levels[j].value.keep.None?
      invariant keep == DEFAULT_KEEP
    {
      if levels[i].Some? && levels[i].value.keep.Some? {
        keep := levels[i].value.keep.value;
        break;
      }
    }
    for i := 0 to 2
      invariant forall j | 0 <= j < i :: levels[j].None? || levels[j].value.olderThanDays.None?
      invariant days == DEFAULT_OLDER_THAN_DAYS
    {
      if levels[i].Some? && levels[i].value.olderThanDays.Some? {
        days := levels[i].value.olderThanDays.value;
        break;
      }
    }
    assert levels[0] == policy && levels[1] == global;
    return Some(ResolvedRetention(keep, days));
  }

  // ---- the ranking ---------------------------------------------------------------------------

  predicate NewestFirst(a: Item, b: Item) {
    a.at > b.at || (a.at == b.at && StrLe(b.name, a.name))
  }

  lemma NewestFirstOrder()
    ensures TotalPreorder(NewestFirst) && Antisymmetric(NewestFirst)
  {
    StrLeOrder();
  }

  ghost function Candidates(kept: map<string, int>, protected: set<string>): set<Item> {
    set t | t in kept && t !in protected :: Item(t, kept[t])
  }

  /** The candidates that rank strictly ahead of `x`. */
  ghost function Ahead(c: set<Item>, x: Item): set<Item> {
    set y | y in c && y != x && NewestFirst(y, x)
  }

  ghost predicate IsExcess(c: set<Item>, x: Item, keep: int, olderThan: int, now: int) {
    x in c && |Ahead(c, x)| >= keep && now - x.at > olderThan
  }

  ghost function ExcessItems(c: set<Item>, keep: int, olderThan: int, now: int): set<Item> {
    set x | x in c && IsExcess(c, x, keep, olderThan, now)
  }

  ghost function Excess(kept: map<string, int>, keep: int, olderThan: int, now: int,
                        protected: set<string>): set<string> {
    set x | x in ExcessItems(Candidates(kept, protected), keep, olderThan, now) :: x.name
  }

  lemma ExcessMember(kept: map<string, int>, keep: int, olderThan: int, now: int, protected: set<string>, t: string)
    ensures t in Excess(kept, keep, olderThan, now, protected) <==>
              t in kept && t !in protected &&
                  IsExcess(Candidates(kept, protected), Item(t, kept[t]), keep, olderThan, now)
  {
  }

  lemma PrefixIsAhead(l: seq<Item>, c: set<Item>, i: nat)
    requires SortedBy(l, NewestFirst) && NoDup(l) && Elements(l) == c && i < |l|
    ensures Ahead(c, l[i]) == Elements(l[..i]) && |Ahead(c, l[i])| == i
  {
    NewestFirstOrder();
    forall y | y in Ahead(c, l[i]) ensures y in l[..i] {
      var j :| 0 <= j < |l| && l[j] == y;
      assert j < i;
      assert l[..i][j] == y;
    }
    forall y | y in l[..i] ensures y in Ahead(c, l[i]) {
      var j :| 0 <= j < i && l[..i][j] == y;
      assert l[j] == y;
    }
    NoDupSize(l[..i]);
  }

  lemma {:induction false} NoDupSize<T>(s: seq<T>)
    requires NoDup(s)
    ensures |Elements(s)| == |s|
  {
    if s != [] {
      var last := s[|s| - 1];
      NoDupSize(s[..|s| - 1]);
      assert s == s[..|s| - 1] + [last];
      assert last !in s[..|s| - 1];
      assert Elements(s) == Elements(s[..|s| - 1]) + {last};
    }
  }

  ghost function RankedList(c: set<Item>): (l: seq<Item>)
    ensures SortedBy(l, NewestFirst) && NoDup(l) && Elements(l) == c && |l| == |c|
  {
    NewestFirstOrder();
    var l := AnyOrder(c);
    SortSorts(l, NewestFirst);
    SameElements(Sort(l, NewestFirst), l);
    NoDupFromMultiset(Sort(l, NewestFirst), c);
    NoDupSize(Sort(l, NewestFirst));
    Sort(l, NewestFirst)
  }

  /** Whatever ranks behind an excess item is excess too: the excess is a suffix of the ranking. */
  lemma ExcessIsSuffix(c: set<Item>, x: Item, y: Item, keep: int, olderThan: int, now: int)
    requires IsExcess(c, x, keep, olderThan, now)
    requires y in c && NewestFirst(x, y)
    ensures IsExcess(c, y, keep, olderThan, now)
  {
    NewestFirstOrder();
    if y != x {
      assert Ahead(c, x) <= Ahead(c, y);
      SubsetSize(Ahead(c, x), Ahead(c, y));
    }
  }

  lemma {:induction false} SubsetSize<T>(a: set<T>, b: set<T>)
    requires a <= b
    ensures |a| <= |b|
  {
    if a != {} {
      var x :| x in a;
      SubsetSize(a - {x}, b - {x});
    }
  }

  /** At least `keep` of the unprotected tags survive, or all of them when there are fewer. */
  lemma KeepSurvives(c: set<Item>, keep: nat, olderThan: int, now: int)
    ensures |c - ExcessItems(c, keep, olderThan, now)| >= if keep < |c| then keep else |c|
  {
    var l := RankedList(c);
    var n := if keep < |c| then keep else |c|;
    var safe := Elements(l[..n]);
    NoDupSize(l[..n]);
    forall x | x in safe ensures x in c && x !in ExcessItems(c, keep, olderThan, now) {
      var i :| 0 <= i < n && l[..n][i] == x;
      assert l[i] == x;
      PrefixIsAhead(l, c, i);
    }
    SubsetSize(safe, c - ExcessItems(c, keep, olderThan, now));
  }

  // ---- by counting ------------------------------------------------------------------------------

  /** The unprotected tags that `u` goes before. */
  ghost function Newer(kept: map<string, int>, protected: set<string>, u: string): set<string>
    requires u in kept
  {
    set t | t in kept && t in Unprotected(kept, protected) && GoesFirst(kept, u, t)
  }

  /** A tag is in excess when it is unprotected, older than the window, and `keep` unprotected ones are newer. */
  lemma ExcessByCount(kept: map<string, int>, keep: int, olderThan: int, now: int, protected: set<string>, t: string)
    ensures t in Excess(kept, keep, olderThan, now, protected) <==>
              t in kept && t !in protected && now - kept[t] > olderThan && |Newer(kept, protected, t)| >= keep
  {
    ExcessMember(kept, keep, olderThan, now, protected, t);
    if t in kept {
      var c := Candidates(kept, protected);
      var ahead := Ahead(c, Item(t, kept[t]));
      NamesSize(ahead);
      forall u ensures u in Newer(kept, protected, t) <==> u in Names(ahead) {
        StrLeIff(t, u);
        NotSmallerThanItself(t);
        if u in Newer(kept, protected, t) {
          assert Item(u, kept[u]) in ahead;
        }
      }
      assert Newer(kept, protected, t) == Names(ahead);
    }
  }

  // ---- the one set it is ------------------------------------------------------------------------

  ghost function Unprotected(kept: map<string, int>, protected: set<string>): set<string> { kept.Keys - protected }

  ghost function Old(kept: map<string, int>, olderThan: int, now: int, protected: set<string>): set<string> {
    set t | t in kept && t in Unprotected(kept, protected) && now - kept[t] > olderThan
  }

  /** Imported earlier, or at the same moment under a name that comes first in code-point order. */
  ghost predicate GoesFirst(kept: map<string, int>, u: string, t: string)
    requires u in kept && t in kept
  {
    kept[u] < kept[t] || (kept[u] == kept[t] && exists k: nat :: SmallerAt(u, t, k))
  }

  /** Of `unprotected` tags so many go: all beyond the first `keep`, or the old ones if those are fewer. */
  function Quota(unprotected: nat, old_: nat, keep: int): nat {
    if keep >= unprotected then 0
    else if unprotected - (if keep < 0 then 0 else keep) < old_ then unprotected - (if keep < 0 then 0 else keep)
    else old_
  }

  /** Old unprotected tags, each with every tag that goes before it, and as many as the quota says. */
  ghost predicate FillsQuota(kept: map<string, int>, keep: int, olderThan: int, now: int, protected: set<string>,
                             s: set<string>) {
    && s <= Old(kept, olderThan, now, protected)
    && (forall t, u | t in s && u in Unprotected(kept, protected) && GoesFirst(kept, u, t) :: u in s)
    && |s| == Quota(|Unprotected(kept, protected)|, |Old(kept, olderThan, now, protected)|, keep)
  }

  ghost function Names(items: set<Item>): set<string> { set x | x in items :: x.name }

  lemma {:induction false} NamesSize(items: set<Item>)
    requires forall x, y | x in items && y in items && x.name == y.name :: x == y
    ensures |Names(items)| == |items|
  {
    if items != {} {
      var x :| x in items;
      NamesSize(items - {x});
      assert Names(items) == Names(items - {x}) + {x.name};
      assert x.name !in Names(items - {x});
    }
  }

  /** Newest first, the old ones are the tail. */
  lemma {:induction false} OldTail(l: seq<Item>, olderThan: int, now: int) returns (a: nat)
    requires SortedBy(l, NewestFirst)
    ensures a <= |l| && forall i | 0 <= i < |l| :: now - l[i].at > olderThan <==> a <= i
  {
    if l == [] || now - l[0].at > olderThan {
      a := 0;
    } else {
      var b := OldTail(l[1..], olderThan, now);
      a := b + 1;
      forall i | 0 <= i < |l| ensures now - l[i].at > olderThan <==> a <= i {
        if i > 0 {
          assert l[i] == l[1..][i - 1];
        }
      }
    }
  }

  lemma TailSize(l: seq<Item>, a: nat, c: set<Item>)
    requires NoDup(l) && a <= |l| && c <= Elements(l) && forall i | 0 <= i < |l| :: l[i] in c <==> a <= i
    ensures |c| == |l| - a
  {
    var tail := l[a..];
    forall x ensures x in c <==> x in tail {
      if x in c {
        assert x in Elements(l);
        var i :| 0 <= i < |l| && l[i] == x;
        assert tail[i - a] == x;
      }
    }
    assert c == Elements(tail);
    NoDupSize(tail);
  }

  ghost function OldItems(c: set<Item>, olderThan: int, now: int): set<Item> {
    set x | x in c && now - x.at > olderThan
  }

  lemma ExcessSize(c: set<Item>, keep: int, olderThan: int, now: int)
    ensures |ExcessItems(c, keep, olderThan, now)| == Quota(|c|, |OldItems(c, olderThan, now)|, keep)
  {
    hide Ahead, NewestFirst;
    var l := RankedList(c);
    var a := OldTail(l, olderThan, now);
    var m := if keep < a then a else if keep < |l| then keep else |l|;
    forall i | 0 <= i < |l|
      ensures l[i] in c
      ensures l[i] in ExcessItems(c, keep, olderThan, now) <==> m <= i
    {
      assert l[i] in Elements(l);
      PrefixIsAhead(l, c, i);
    }
    TailSize(l, m, ExcessItems(c, keep, olderThan, now));
    TailSize(l, a, OldItems(c, olderThan, now));
  }

  lemma ExcessFillsQuota(kept: map<string, int>, keep: int, olderThan: int, now: int, protected: set<string>)
    ensures FillsQuota(kept, keep, olderThan, now, protected, Excess(kept, keep, olderThan, now, protected))
  {
    var c := Candidates(kept, protected);
    var old_ := OldItems(c, olderThan, now);
    var s := Excess(kept, keep, olderThan, now, protected);
    ExcessSize(c, keep, olderThan, now);
    NamesSize(c);
    NamesSize(old_);
    NamesSize(ExcessItems(c, keep, olderThan, now));
    NamesOfCandidates(kept, protected, olderThan, now);
    assert s == Names(ExcessItems(c, keep, olderThan, now));
    forall t, u | t in s && u in Unprotected(kept, protected) && GoesFirst(kept, u, t) ensures u in s {
      StrLeIff(u, t);
      ExcessMember(kept, keep, olderThan, now, protected, t);
      ExcessMember(kept, keep, olderThan, now, protected, u);
      ExcessIsSuffix(c, Item(t, kept[t]), Item(u, kept[u]), keep, olderThan, now);
    }
  }

  lemma NamesOfCandidates(kept: map<string, int>, protected: set<string>, olderThan: int, now: int)
    ensures Names(Candidates(kept, protected)) == Unprotected(kept, protected)
    ensures Names(OldItems(Candidates(kept, protected), olderThan, now)) == Old(kept, olderThan, now, protected)
  {
    var c := Candidates(kept, protected);
    forall t | t in Unprotected(kept, protected)
      ensures t in Names(c)
      ensures t in Old(kept, olderThan, now, protected) ==> t in Names(OldItems(c, olderThan, now))
    {
      assert Item(t, kept[t]) in c;
    }
  }

  lemma OneGoesFirst(kept: map<string, int>, t: string, u: string)
    requires t in kept && u in kept && t != u
    ensures GoesFirst(kept, t, u) || GoesFirst(kept, u, t)
  {
    StrLeTotal(t, u);
    StrLeIff(t, u);
    StrLeIff(u, t);
  }

  /** The excess is the one set of tags that is old, goes in order and fills the quota. */
  lemma ExcessIff(kept: map<string, int>, keep: int, olderThan: int, now: int, protected: set<string>, s: set<string>)
    ensures s == Excess(kept, keep, olderThan, now, protected) <==>
              FillsQuota(kept, keep, olderThan, now, protected, s)
  {
    hide Excess, GoesFirst, Quota;
    var e := Excess(kept, keep, olderThan, now, protected);
    ExcessFillsQuota(kept, keep, olderThan, now, protected);
    if FillsQuota(kept, keep, olderThan, now, protected, s) && s != e {
      var t := Missing(e, s);
      var u := Missing(s, e);
      OneGoesFirst(kept, t, u);
      assert false;
    }
  }

  lemma Missing(a: set<string>, b: set<string>) returns (t: string)
    requires |a| == |b| && a != b
    ensures t in a && t !in b
  {
    if a <= b {
      SameSize(a, b);
    }
    t :| t in a && t !in b;
  }

  lemma SameSize(a: set<string>, b: set<string>)
    requires a <= b && |a| == |b|
    ensures a == b
  {
    assert b == a + (b - a);
  }

  /**
   Of the tags old enough to go at most `keep` survive, and exactly the smaller of `keep` and
   their number when every unprotected tag is that old.
   */
  lemma OldSurvivors(kept: map<string, int>, keep: nat, olderThan: int, now: int, protected: set<string>)
    ensures var left := Old(kept, olderThan, now, protected) - Excess(kept, keep, olderThan, now, protected);
            var n := |Old(kept, olderThan, now, protected)|;
            && |left| <= keep
            && (Old(kept, olderThan, now, protected) == Unprotected(kept, protected) ==>
                  |left| == if keep < n then keep else n)
  {
    hide Excess, Old;
    var old_, e := Old(kept, olderThan, now, protected), Excess(kept, keep, olderThan, now, protected);
    ExcessFillsQuota(kept, keep, olderThan, now, protected);
    assert old_ == e + (old_ - e);
    OldIsUnprotected(kept, olderThan, now, protected);
    SubsetSize(old_, Unprotected(kept, protected));
  }

  lemma OldIsUnprotected(kept: map<string, int>, olderThan: int, now: int, protected: set<string>)
    ensures Old(kept, olderThan, now, protected) <= Unprotected(kept, protected)
  {
  }

  /** As time passes nothing leaves the excess. */
  lemma ExcessGrows(kept: map<string, int>, keep: int, olderThan: int, now: int, later: int, protected: set<string>)
    requires now <= later
    ensures Excess(kept, keep, olderThan, now, protected) <= Excess(kept, keep, olderThan, later, protected)
  {
    var c := Candidates(kept, protected);
    assert ExcessItems(c, keep, olderThan, now) <= ExcessItems(c, keep, olderThan, later);
  }

  /** With fewer tags kept no more of them are in excess. */
  lemma FewerKeptLessExcess(fewer: map<string, int>, kept: map<string, int>, keep: int, olderThan: int, now: int,
                            protected: set<string>)
    requires forall t | t in fewer :: t in kept && kept[t] == fewer[t]
    ensures Excess(fewer, keep, olderThan, now, protected) <= Excess(kept, keep, olderThan, now, protected)
  {
    var c', c := Candidates(fewer, protected), Candidates(kept, protected);
    forall t | t in Excess(fewer, keep, olderThan, now, protected)
      ensures t in Excess(kept, keep, olderThan, now, protected)
    {
      ExcessMember(fewer, keep, olderThan, now, protected, t);
      ExcessMember(kept, keep, olderThan, now, protected, t);
      assert c' <= c;
      assert Ahead(c', Item(t, kept[t])) <= Ahead(c, Item(t, kept[t]));
      SubsetSize(Ahead(c', Item(t, kept[t])), Ahead(c, Item(t, kept[t])));
    }
  }

  /** Removing the excess and selecting again, at the same moment, selects nothing. */
  lemma ExcessIdempotent(kept: map<string, int>, keep: int, olderThan: int, now: int, protected: set<string>)
    ensures Excess(kept - Excess(kept, keep, olderThan, now, protected), keep, olderThan, now, protected) == {}
  {
    var c := Candidates(kept, protected);
    var gone := Excess(kept, keep, olderThan, now, protected);
    var c' := Candidates(kept - gone, protected);
    forall x | x in c' ensures !IsExcess(c', x, keep, olderThan, now) {
      ExcessMember(kept, keep, olderThan, now, protected, x.name);
      assert x in c && !IsExcess(c, x, keep, olderThan, now);
      assert c' <= c;
      assert Ahead(c', x) <= Ahead(c, x);
      SubsetSize(Ahead(c', x), Ahead(c, x));
    }
  }

  // ---- the methods -----------------------------------------------------------------------------

  method ListCandidates(kept: map<string, int>, protected: set<string>) returns (candidates: seq<Item>)
    ensures NoDup(candidates) && Elements(candidates) == Candidates(kept, protected)
  {
    candidates := [];
    var todo := kept.Keys;
    while todo != {}
      invariant todo <= kept.Keys
      invariant NoDup(candidates)
      invariant forall x :: x in candidates <==>
                  x.name in kept && x.name !in todo && x.name !in protected && x.at == kept[x.name]
      decreases |todo|
    {
      var t :| t in todo;
      if t !in protected {
        candidates := candidates + [Item(t, kept[t])];
      }
      todo := todo - {t};
    }
  }

  lemma RankedFacts(candidates: seq<Item>, c: set<Item>)
    requires NoDup(candidates) && Elements(candidates) == c
    ensures var l := Sort(candidates, NewestFirst);
            SortedBy(l, NewestFirst) && NoDup(l) && Elements(l) == c
  {
    NewestFirstOrder();
    SortSorts(candidates, NewestFirst);
    SameElements(Sort(candidates, NewestFirst), candidates);
    NoDupMultiset(candidates);
    NoDupFromMultiset(Sort(candidates, NewestFirst), c);
  }

  method Overflow(ranked: seq<Item>, keep: int, olderThan: int, now: int, ghost c: set<Item>)
    returns (excess: seq<Item>)
    requires SortedBy(ranked, NewestFirst) && NoDup(ranked) && Elements(ranked) == c
    ensures NoDup(excess) && Elements(excess) == ExcessItems(c, keep, olderThan, now)
  {
    excess := [];
    for i := 0 to |ranked|
      invariant NoDup(excess)
      invariant forall x :: x in excess <==> x in ranked[..i] && IsExcess(c, x, keep, olderThan, now)
    {
      PrefixIsAhead(ranked, c, i);
      assert ranked[i] in Elements(ranked);
      assert ranked[..i + 1] == ranked[..i] + [ranked[i]];
      assert ranked[i] !in ranked[..i];
      if i >= keep && now - ranked[i].at > olderThan {
        excess := excess + [ranked[i]];
      }
    }
    assert ranked[..|ranked|] == ranked;
  }

  lemma NamesOfItems(items: seq<Item>, names: seq<string>, kept: map<string, int>, keep: int, olderThan: int,
                     now: int, protected: set<string>)
    requires NoDup(items) && Elements(items) == ExcessItems(Candidates(kept, protected), keep, olderThan, now)
    requires |names| == |items| && forall k | 0 <= k < |items| :: names[k] == items[k].name
    ensures NoDup(names) && Elements(names) == Excess(kept, keep, olderThan, now, protected)
  {
    assert forall k | 0 <= k < |items| :: items[k] in Elements(items);
    forall t | t in Excess(kept, keep, olderThan, now, protected) ensures t in names {
      var x :| x in Elements(items) && x.name == t;
      var k :| 0 <= k < |items| && items[k] == x;
      assert names[k] == t;
    }
  }

  method SelectRetentionExcess(kept: map<string, int>, keep: int, olderThan: int, now: int, protected: set<string>)
    returns (excess: seq<string>)
    ensures excess == SortedOf(Excess(kept, keep, olderThan, now, protected))
  {
    ghost var c := Candidates(kept, protected);
    var candidates := ListCandidates(kept, protected);
    RankedFacts(candidates, c);
    var items := Overflow(Sort(candidates, NewestFirst), keep, olderThan, now, c);
    excess := [];
    for i := 0 to |items|
      invariant |excess| == i && forall k | 0 <= k < i :: excess[k] == items[k].name
    {
      excess := excess + [items[i].name];
    }
    NamesOfItems(items, excess, kept, keep, olderThan, now, protected);
    SortListing(excess);
    excess := Sort(excess, StrLe);
  }
}
