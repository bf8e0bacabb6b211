/**
 Python's `sorted` and `list.sort`: a stable sort by a caller-supplied order, and the
 code-point order of strings it uses when no key is given.
 */
module Sorting {

  ghost predicate TotalPreorder<T(!new)>(le: (T, T) -> bool) {
    && (forall a, b :: le(a, b) || le(b, a))
    && (forall a, b, c :: le(a, b) && le(b, c) ==> le(a, c))
  }

  ghost predicate Antisymmetric<T(!new)>(le: (T, T) -> bool) {
    forall a, b :: le(a, b) && le(b, a) ==> a == b
  }

  ghost predicate SortedBy<T>(s: seq<T>, le: (T, T) -> bool) {
    forall i, j | 0 <= i < j < |s| :: le(s[i], s[j])
  }

  ghost predicate NoDup<T>(s: seq<T>) {
    forall i, j | 0 <= i < j < |s| :: s[i] != s[j]
  }

  function Insert<T>(x: T, s: seq<T>, le: (T, T) -> bool): (r: seq<T>)
    ensures multiset(r) == multiset{x} + multiset(s)
  {
    if s == [] then [x]
    else if le(x, s[0]) then [x] + s
    else
      assert s == [s[0]] + s[1..];
      [s[0]] + Insert(x, s[1..], le)
  }

  // An element goes in front of those equal to it, and the list is consumed from its end:
  // elements that compare equal keep their order.
  function Sort<T>(s: seq<T>, le: (T, T) -> bool): (r: seq<T>)
    ensures multiset(r) == multiset(s)
  {
    if s == [] then []
    else
      assert s == [s[0]] + s[1..];
      Insert(s[0], Sort(s[1..], le), le)
  }

  lemma SameElements<T>(a: seq<T>, b: seq<T>)
    requires multiset(a) == multiset(b)
    ensures |a| == |b|
    ensures forall x :: x in a <==> x in b
  {
    assert |multiset(a)| == |a| && |multiset(b)| == |b|;
    forall x ensures x in a <==> x in b {
      assert x in a <==> x in multiset(a);
      assert x in b <==> x in multiset(b);
    }
  }

  lemma {:induction false} InsertSorts<T(!new)>(x: T, s: seq<T>, le: (T, T) -> bool)
    requires TotalPreorder(le) && SortedBy(s, le)
    ensures SortedBy(Insert(x, s, le), le)
  {
    if s != [] && !le(x, s[0]) {
      InsertSorts(x, s[1..], le);
      var r := Insert(x, s[1..], le);
      forall i | 0 <= i < |r| ensures le(s[0], r[i]) {
        assert r[i] in multiset(r);
        assert r[i] == x || r[i] in s[1..];
      }
    }
  }

  /** Sorting returns a permutation of its input in ascending order. */
  lemma {:induction false} SortSorts<T(!new)>(s: seq<T>, le: (T, T) -> bool)
    requires TotalPreorder(le)
    ensures SortedBy(Sort(s, le), le)
    ensures multiset(Sort(s, le)) == multiset(s)
  {
    if s != [] {
      SortSorts(s[1..], le);
      InsertSorts(s[0], Sort(s[1..], le), le);
    }
  }

  lemma RestOfMultiset<T>(a: seq<T>)
    requires a != []
    ensures multiset(a[1..]) == multiset(a) - multiset{a[0]} && a == [a[0]] + a[1..]
  {
    assert a == [a[0]] + a[1..];
  }

  lemma {:induction false} SortedUnique<T(!new)>(a: seq<T>, b: seq<T>, le: (T, T) -> bool)
    requires Antisymmetric(le)
    requires SortedBy(a, le) && SortedBy(b, le)
    requires multiset(a) == multiset(b)
    ensures a == b
  {
    SameElements(a, b);
    if a != [] {
      assert a[0] in b && b[0] in a;
      var j :| 0 <= j < |b| && b[j] == a[0];
      var i :| 0 <= i < |a| && a[i] == b[0];
      assert a[0] == b[0];
      RestOfMultiset(a);
      RestOfMultiset(b);
      SortedUnique(a[1..], b[1..], le);
    }
  }

  /** Under an antisymmetric order the sorted list does not depend on the input's order. */
  lemma SortIgnoresOrder<T(!new)>(a: seq<T>, b: seq<T>, le: (T, T) -> bool)
    requires TotalPreorder(le) && Antisymmetric(le)
    requires multiset(a) == multiset(b)
    ensures Sort(a, le) == Sort(b, le)
  {
    SortSorts(a, le);
    SortSorts(b, le);
    SortedUnique(Sort(a, le), Sort(b, le), le);
  }

  /** What is kept of a list. */
  function Only<T(!new)>(values: seq<T>, keep: T -> bool): (r: seq<T>)
    ensures forall v :: v in r <==> v in values && keep(v)
  {
    if values == [] then []
    else
      assert values == [values[0]] + values[1..];
      (if keep(values[0]) then [values[0]] else []) + Only(values[1..], keep)
  }

  /** Sorting is stable: elements that compare equal keep their order. */
  lemma {:induction false} SortIsStable<T(!new)>(s: seq<T>, le: (T, T) -> bool, keep: T -> bool)
    requires forall a, b | keep(a) && keep(b) :: le(a, b)
    ensures Only(Sort(s, le), keep) == Only(s, keep)
  {
    if s != [] {
      SortIsStable(s[1..], le, keep);
      InsertIsStable(s[0], Sort(s[1..], le), le, keep);
    }
  }

  lemma {:induction false} InsertIsStable<T(!new)>(x: T, s: seq<T>, le: (T, T) -> bool, keep: T -> bool)
    requires forall a, b | keep(a) && keep(b) :: le(a, b)
    ensures Only(Insert(x, s, le), keep) == (if keep(x) then [x] else []) + Only(s, keep)
  {
    if s != [] {
      if le(x, s[0]) {
        assert ([x] + s)[1..] == s;
      } else {
        InsertIsStable(x, s[1..], le, keep);
        var r := [s[0]] + Insert(x, s[1..], le);
        assert r[1..] == Insert(x, s[1..], le) && r[0] == s[0];
      }
    }
  }

  lemma {:induction false} OnlyConcat<T(!new)>(a: seq<T>, b: seq<T>, keep: T -> bool)
    ensures Only(a + b, keep) == Only(a, keep) + Only(b, keep)
  {
    if a == [] {
      assert a + b == b;
    } else {
      assert (a + b)[1..] == a[1..] + b;
      OnlyConcat(a[1..], b, keep);
    }
  }

  // ---- strings -------------------------------------------------------------------------

  predicate StrLe(a: string, b: string) {
    if a == "" then true
    else if b == "" then false
    else a[0] < b[0] || (a[0] == b[0] && StrLe(a[1..], b[1..]))
  }

  lemma StrLeTotal(a: string, b: string)
    ensures StrLe(a, b) || StrLe(b, a)
    ensures StrLe(a, b) && StrLe(b, a) ==> a == b
  {
    if a != "" && b != "" && a[0] == b[0] {
      StrLeTotal(a[1..], b[1..]);
      assert a == [a[0]] + a[1..] && b == [b[0]] + b[1..];
    }
  }

  lemma StrLeTrans(a: string, b: string, c: string)
    requires StrLe(a, b) && StrLe(b, c)
    ensures StrLe(a, c)
  {
    if a != "" && a[0] == b[0] == c[0] {
      StrLeTrans(a[1..], b[1..], c[1..]);
    }
  }

  /** At `k` the first string has ended or has the smaller character, and up to there the two agree. */
  ghost predicate SmallerAt(a: string, b: string, k: nat) {
    k <= |a| && k < |b| && a[..k] == b[..k] && (k == |a| || a[k] < b[k])
  }

  /** Code-point order: equal strings, or the first difference decides. */
  lemma {:induction false} StrLeIff(a: string, b: string)
    ensures StrLe(a, b) <==> a == b || exists k: nat :: SmallerAt(a, b, k)
  {
    if a == "" {
      assert b != "" ==> SmallerAt(a, b, 0);
    } else if b != "" && a[0] == b[0] {
      StrLeIff(a[1..], b[1..]);
      assert a == [a[0]] + a[1..] && b == [b[0]] + b[1..];
      forall k: nat ensures SmallerAt(a[1..], b[1..], k) <==> SmallerAt(a, b, k + 1) {
        SmallerShift(a, b, k);
      }
      if k: nat :| SmallerAt(a, b, k) {
        assert k > 0;
        assert SmallerAt(a[1..], b[1..], k - 1);
      }
    } else {
      assert b != "" && a[0] < b[0] ==> SmallerAt(a, b, 0);
    }
  }

  lemma NotSmallerThanItself(a: string)
    ensures forall k: nat :: !SmallerAt(a, a, k)
  {
  }

  lemma SmallerShift(a: string, b: string, k: nat)
    requires a != "" && b != "" && a[0] == b[0]
    ensures SmallerAt(a[1..], b[1..], k) <==> SmallerAt(a, b, k + 1)
  {
    if k + 1 <= |a| && k + 1 <= |b| {
      assert a[..k + 1] == [a[0]] + a[1..][..k] && b[..k + 1] == [b[0]] + b[1..][..k];
      assert a[..k + 1][1..] == a[1..][..k] && b[..k + 1][1..] == b[1..][..k];
    }
  }

  lemma StrLeOrder()
    ensures TotalPreorder(StrLe) && Antisymmetric(StrLe)
  {
    forall a, b { StrLeTotal(a, b); }
    forall a, b, c | StrLe(a, b) && StrLe(b, c) { StrLeTrans(a, b, c); }
  }

  // ---- lists of distinct strings -----------------------------------------------------------

  ghost function Elements<T>(s: seq<T>): set<T> { set x | x in s }

  ghost function AnyOrder<T>(s: set<T>): (r: seq<T>)
    ensures Elements(r) == s && multiset(r) == multiset(s)
  {
    if s == {} then []
    else
      var x :| x in s;
      assert s == {x} + (s - {x});
      [x] + AnyOrder(s - {x})
  }

  lemma {:induction false} NoDupMultiset<T>(s: seq<T>)
    requires NoDup(s)
    ensures multiset(s) == multiset(Elements(s))
  {
    if s != [] {
      NoDupMultiset(s[1..]);
      assert s == [s[0]] + s[1..];
      assert s[0] !in s[1..];
      assert Elements(s) == {s[0]} + Elements(s[1..]);
    }
  }

  lemma NoDupFromMultiset<T>(s: seq<T>, c: set<T>)
    requires multiset(s) == multiset(c)
    ensures NoDup(s)
  {
    forall i, j | 0 <= i < j < |s| ensures s[i] != s[j] {
      assert s == s[..i] + [s[i]] + s[i + 1..j] + [s[j]] + s[j + 1..];
      assert multiset{s[i], s[j]} <= multiset(s);
      assert multiset(c)[s[i]] <= 1;
    }
  }

  /** `sorted(set)`: its members in ascending code-point order. */
  ghost function SortedOf(s: set<string>): (r: seq<string>)
    ensures Elements(r) == s && NoDup(r)
  {
    var l := AnyOrder(s);
    SameElements(Sort(l, StrLe), l);
    NoDupFromMultiset(Sort(l, StrLe), s);
    Sort(l, StrLe)
  }

  /** Sorting any duplicate-free listing of a set gives the set's one ascending list. */
  lemma SortListing(l: seq<string>)
    requires NoDup(l)
    ensures Sort(l, StrLe) == SortedOf(Elements(l))
  {
    StrLeOrder();
    NoDupMultiset(l);
    SortIgnoresOrder(l, AnyOrder(Elements(l)), StrLe);
  }

  method SortSet(s: set<string>) returns (l: seq<string>)
    ensures l == SortedOf(s)
  {
    l := [];
    var todo := s;
    while todo != {}
      invariant todo <= s && NoDup(l)
      invariant forall x :: x in l <==> x in s && x !in todo
      decreases |todo|
    {
      var x :| x in todo;
      l := l + [x];
      todo := todo - {x};
    }
    assert Elements(l) == s;
    SortListing(l);
    l := Sort(l, StrLe);
  }
}
