/**
 Sorting tags by version (knock/domain/semver.py). Matching a tag against the version
 pattern is a parameter: it yields the components, or nothing.
 */
module Semver {
  import opened Wrappers
  import opened Sorting

  datatype Version = Version(major: nat, minor: nat, patch: nat, prerelease: string)

  type Parser = string -> Option<Version>

  /** Field by field; every pre-release sorts before its final version, as a plain string. */
  predicate VersionLe(a: Version, b: Version) {
    if a.major != b.major then a.major < b.major
    else if a.minor != b.minor then a.minor < b.minor
    else if a.patch != b.patch then a.patch < b.patch
    else if (a.prerelease == "") != (b.prerelease == "") then a.prerelease != ""
    else StrLe(a.prerelease, b.prerelease)
  }

  lemma VersionLeOrder()
    ensures TotalPreorder(VersionLe) && Antisymmetric(VersionLe)
  {
    StrLeOrder();
  }

  /** Tags that are not versions compare equal and after all versions. */
  function ByVersion(parse: Parser): (string, string) -> bool {
    (a: string, b: string) =>
      if parse(b).None? then true else parse(a).Some? && VersionLe(parse(a).value, parse(b).value)
  }

  function ByVersionDown(parse: Parser): (string, string) -> bool {
    (a: string, b: string) =>
      if parse(b).None? then true else parse(a).Some? && VersionLe(parse(b).value, parse(a).value)
  }

  lemma ByVersionOrder(parse: Parser)
    ensures TotalPreorder(ByVersion(parse)) && TotalPreorder(ByVersionDown(parse))
  {
    hide VersionLe;
    VersionLeOrder();
  }

  function IsVersion(parse: Parser): string -> bool { (v: string) => parse(v).Some? }

  function IsOther(parse: Parser): string -> bool { (v: string) => parse(v).None? }

  /** Versions sorted, then everything else in its input order. */
  function SortSemver(parse: Parser, values: seq<string>, reverse: bool): seq<string> {
    Sort(Only(values, IsVersion(parse)), if reverse then ByVersionDown(parse) else ByVersion(parse)) +
        Only(values, IsOther(parse))
  }

  method SortTags(parse: Parser, values: seq<string>, reverse: bool) returns (r: seq<string>)
    ensures r == SortSemver(parse, values, reverse)
  {
    var versions := Only(values, IsVersion(parse));
    var others := Only(values, IsOther(parse));
    versions := Sort(versions, if reverse then ByVersionDown(parse) else ByVersion(parse));
    return versions + others;
  }

  lemma {:induction false} OnlyPartition(parse: Parser, values: seq<string>)
    ensures multiset(Only(values, IsVersion(parse))) + multiset(Only(values, IsOther(parse))) == multiset(values)
  {
    if values != [] {
      assert values == [values[0]] + values[1..];
      OnlyPartition(parse, values[1..]);
    }
  }

  /** A permutation of the input, ordered by version throughout. */
  lemma SortSemverSorts(parse: Parser, values: seq<string>, reverse: bool)
    ensures var r := SortSemver(parse, values, reverse);
            && multiset(r) == multiset(values)
            && SortedBy(r, if reverse then ByVersionDown(parse) else ByVersion(parse))
  {
    hide Sort;
    var le := if reverse then ByVersionDown(parse) else ByVersion(parse);
    var versions, others := Only(values, IsVersion(parse)), Only(values, IsOther(parse));
    ByVersionOrder(parse);
    SortSorts(versions, le);
    OnlyPartition(parse, values);
    OthersLast(Sort(versions, le), others, le);
  }

  lemma OthersLast(versions: seq<string>, others: seq<string>, le: (string, string) -> bool)
    requires SortedBy(versions, le) && forall a, b | b in others :: le(a, b)
    ensures SortedBy(versions + others, le)
  {
    var r := versions + others;
    forall i, j | 0 <= i < j < |r| ensures le(r[i], r[j]) {
      if j >= |versions| {
        assert r[j] in others;
      }
    }
  }

  /** Of two versions the one in front, by the fields: major, minor, patch, pre-release before final, code points. */
  ghost predicate Leads(x: Version, y: Version, i: int, j: int) {
    && (x.major < y.major ==> i < j)
    && (x.major == y.major && x.minor < y.minor ==> i < j)
    && (x.major == y.major && x.minor == y.minor && x.patch < y.patch ==> i < j)
    && (x.major == y.major && x.minor == y.minor && x.patch == y.patch ==>
          && (x.prerelease != "" && y.prerelease == "" ==> i < j)
          && (x.prerelease != "" && y.prerelease != "" && (exists k: nat :: SmallerAt(x.prerelease, y.prerelease, k))
              ==> i < j))
  }

  /** Versions by their fields, upwards or downwards, and whatever is no version behind them either way. */
  ghost predicate OrderedByFields(parse: Parser, r: seq<string>, reverse: bool) {
    && (forall i, j | 0 <= i < |r| && 0 <= j < |r| && parse(r[i]).Some? && parse(r[j]).Some? ::
          Leads(parse(r[i]).value, parse(r[j]).value, if reverse then j else i, if reverse then i else j))
    && (forall i, j | 0 <= i < |r| && 0 <= j < |r| && parse(r[i]).Some? && parse(r[j]).None? :: i < j)
  }

  lemma SortedByFields(parse: Parser, r: seq<string>, reverse: bool)
    requires SortedBy(r, if reverse then ByVersionDown(parse) else ByVersion(parse))
    ensures OrderedByFields(parse, r, reverse)
  {
    hide StrLe, SmallerAt;
    forall i, j | 0 <= i < |r| && 0 <= j < |r| && parse(r[i]).Some? && parse(r[j]).Some?
      ensures Leads(parse(r[i]).value, parse(r[j]).value, if reverse then j else i, if reverse then i else j)
    {
      LowerLeads(parse(r[i]).value, parse(r[j]).value, if reverse then j else i, if reverse then i else j);
    }
  }

  lemma LowerLeads(x: Version, y: Version, i: int, j: int)
    requires i >= j ==> x == y || VersionLe(y, x)
    ensures Leads(x, y, i, j)
  {
    hide StrLe, SmallerAt;
    StrLeIff(x.prerelease, y.prerelease);
    StrLeTotal(x.prerelease, y.prerelease);
    NotSmallerThanItself(x.prerelease);
  }

  /** Tags of one version, and tags of none, keep the order they came in. */
  lemma SortSemverIsStable(parse: Parser, values: seq<string>, reverse: bool, version: Option<Version>)
    ensures var same := (v: string) => parse(v) == version;
            Only(SortSemver(parse, values, reverse), same) == Only(values, same)
  {
    hide VersionLe, Sort, Only;
    var same := (v: string) => parse(v) == version;
    var le := if reverse then ByVersionDown(parse) else ByVersion(parse);
    var versions, others := Only(values, IsVersion(parse)), Only(values, IsOther(parse));
    VersionLeOrder();
    SortIsStable(versions, le, same);
    OnlyConcat(Sort(versions, le), others, same);
    OnlyWithin(values, IsVersion(parse), same);
    OnlyWithin(values, IsOther(parse), same);
  }

  lemma {:induction false} OnlyWithin(values: seq<string>, p: string -> bool, q: string -> bool)
    ensures (forall v | q(v) :: p(v)) ==> Only(Only(values, p), q) == Only(values, q)
    ensures (forall v | q(v) :: !p(v)) ==> Only(Only(values, p), q) == []
  {
    if values != [] {
      OnlyWithin(values[1..], p, q);
      OnlyConcat(if p(values[0]) then [values[0]] else [], Only(values[1..], p), q);
    }
  }

  // ---- not the precedence of Semantic Versioning 2.0.0 ---------------------------------------------------------

  predicate Numeric(s: string) { s != "" && forall i | 0 <= i < |s| :: '0' <= s[i] <= '9' }

  function Number(s: string): nat
    requires Numeric(s)
  {
    (if |s| == 1 then 0 else 10 * Number(s[..|s| - 1])) + (s[|s| - 1] as nat - '0' as nat)
  }

  /** On numbers of one width the two orders agree. */
  lemma {:induction false} SameWidthAgrees(a: string, b: string)
    requires Numeric(a) && Numeric(b) && |a| == |b|
    ensures StrLe(a, b) <==> Number(a) <= Number(b)
    ensures StrLe(b, a) <==> Number(b) <= Number(a)
  {
    var n := |a| - 1;
    if n == 0 {
      OneDigit(a, b);
    } else {
      hide Number, StrLe;
      NumberLast(a);
      NumberLast(b);
      SameWidthAgrees(a[..n], b[..n]);
      StrLeTotal(a[..n], b[..n]);
      LastDecides(a[..n], b[..n], a[n], b[n]);
      LastDecides(b[..n], a[..n], b[n], a[n]);
      assert a == a[..n] + [a[n]] && b == b[..n] + [b[n]];
      DigitsDecide(Number(a[..n]), Number(b[..n]), a[n] as nat - '0' as nat, b[n] as nat - '0' as nat);
      SameNumber(a[..n], b[..n]);
    }
  }

  lemma OneDigit(a: string, b: string)
    requires Numeric(a) && Numeric(b) && |a| == |b| == 1
    ensures StrLe(a, b) <==> Number(a) <= Number(b)
    ensures StrLe(b, a) <==> Number(b) <= Number(a)
  {
  }

  lemma NumberLast(s: string)
    requires Numeric(s) && |s| > 1
    ensures var n := |s| - 1;
            Numeric(s[..n]) && '0' <= s[n] <= '9' && Number(s) == 10 * Number(s[..n]) + (s[n] as nat - '0' as nat)
  {
  }

  lemma DigitsDecide(a: nat, b: nat, x: nat, y: nat)
    requires x <= 9 && y <= 9
    ensures 10 * a + x <= 10 * b + y <==> a < b || (a == b && x <= y)
  {
  }

  lemma SameNumber(a: string, b: string)
    requires Numeric(a) && Numeric(b) && |a| == |b|
    ensures a == b ==> Number(a) == Number(b)
  {
  }

  lemma {:induction false} LastDecides(a: string, b: string, x: char, y: char)
    requires |a| == |b|
    ensures StrLe(a + [x], b + [y]) <==> (StrLe(a, b) && a != b) || (a == b && x <= y)
  {
    if a == "" {
      assert a + [x] == [x] && b + [y] == [y];
    } else {
      assert (a + [x])[1..] == a[1..] + [x] && (b + [y])[1..] == b[1..] + [y];
      LastDecides(a[1..], b[1..], x, y);
      assert a == [a[0]] + a[1..] && b == [b[0]] + b[1..];
    }
  }

  /** A numeric identifier of Semantic Versioning 2.0.0, section 9: no leading zeros. */
  predicate NumericIdentifier(s: string) { Numeric(s) && (|s| == 1 || s[0] != '0') }

  function Power(n: nat): nat { if n == 0 then 1 else 10 * Power(n - 1) }

  lemma {:induction false} NumberBounds(s: string)
    requires Numeric(s)
    ensures Number(s) < Power(|s|)
    ensures s[0] != '0' ==> Power(|s| - 1) <= Number(s)
  {
    if |s| > 1 {
      assert Numeric(s[..|s| - 1]);
      NumberBounds(s[..|s| - 1]);
    }
  }

  lemma {:induction false} PowerGrows(m: nat, n: nat)
    requires m <= n
    ensures Power(m) <= Power(n)
  {
    if m < n {
      PowerGrows(m, n - 1);
    }
  }

  /** Of two numeric identifiers the longer is the greater. */
  lemma LongerIsGreater(a: string, b: string)
    requires Numeric(a) && NumericIdentifier(b) && |a| < |b|
    ensures Number(a) < Number(b)
  {
    NumberBounds(a);
    NumberBounds(b);
    PowerGrows(|a|, |b| - 1);
  }

  /** A string precedes a longer one exactly when it precedes, or is, its prefix of the same length. */
  lemma {:induction false} PrefixDecides(a: string, b: string)
    requires |a| <= |b|
    ensures StrLe(a, b) <==> StrLe(a, b[..|a|])
  {
    if a != "" {
      assert b[..|a|][1..] == b[1..][..|a| - 1];
      PrefixDecides(a[1..], b[1..]);
    }
  }

  lemma {:induction false} CommonFront(front: string, a: string, b: string)
    ensures StrLe(front + a, front + b) <==> StrLe(a, b)
  {
    if front == "" {
      assert front + a == a && front + b == b;
    } else {
      assert (front + a)[1..] == front[1..] + a && (front + b)[1..] == front[1..] + b;
      CommonFront(front[1..], a, b);
    }
  }

  lemma StringsAgreeIff(a: string, b: string)
    requires NumericIdentifier(a) && NumericIdentifier(b) && |a| <= |b|
    ensures ((StrLe(a, b) <==> Number(a) <= Number(b)) && (StrLe(b, a) <==> Number(b) <= Number(a)))
            <==> |a| == |b| || Number(a) <= Number(b[..|a|])
  {
    hide Number;
    if |a| == |b| {
      SameWidthAgrees(a, b);
    } else {
      LongerIsGreater(a, b);
      PrefixDecides(a, b);
      SameWidthAgrees(a, b[..|a|]);
      NotBoth(a, b);
    }
  }

  lemma NotBoth(a: string, b: string)
    requires a != b
    ensures !StrLe(a, b) || !StrLe(b, a)
  {
    StrLeOrder();
  }

  /**
   Exactly when the code orders two versions that differ in their last pre-release identifier,
   a numeric one, as section 11.4.1 does (`rc.9` and `rc.10`): the two have one width, or the
   shorter is no greater than the digits of the longer it is compared with.
   */
  lemma NumericPrereleasesAgreeIff(major: nat, minor: nat, patch: nat, front: string, a: string, b: string)
    requires NumericIdentifier(a) && NumericIdentifier(b) && |a| <= |b|
    ensures var x, y := Version(major, minor, patch, front + a), Version(major, minor, patch, front + b);
            ((VersionLe(x, y) <==> Number(a) <= Number(b)) && (VersionLe(y, x) <==> Number(b) <= Number(a)))
            <==> |a| == |b| || Number(a) <= Number(b[..|a|])
  {
    hide Number, StrLe;
    CommonFront(front, a, b);
    CommonFront(front, b, a);
    StringsAgreeIff(a, b);
  }

  /** Ten to the `n`, in digits. */
  function Ten(n: nat): (s: string)
    ensures |s| == n + 1 && NumericIdentifier(s)
  {
    if n == 0 then "1" else Ten(n - 1) + "0"
  }

  lemma {:induction false} TenIsPower(n: nat)
    ensures Number(Ten(n)) == Power(n)
  {
    if n > 0 {
      TenIsPower(n - 1);
      assert Ten(n)[..n] == Ten(n - 1);
    }
  }

  lemma StringsMisorder(a: string)
    requires NumericIdentifier(a) && a[0] != '0' && Number(a) != Power(|a| - 1)
    ensures var b := Ten(|a|); Number(a) < Number(b) && StrLe(b, a) && !StrLe(a, b)
  {
    hide Number, StrLe, Power;
    var b := Ten(|a|);
    NumberBounds(a);
    TenIsPower(|a|);
    TenIsPower(|a| - 1);
    assert b[..|a|] == Ten(|a| - 1);
    PrefixDecides(a, b);
    SameWidthAgrees(a, b[..|a|]);
    StrLeTotal(b, a);
  }

  /** Every numeric identifier but zero and the powers of ten is ordered after a greater one: the next power of ten. */
  lemma NumericPrereleasesMisorder(major: nat, minor: nat, patch: nat, front: string, a: string)
    requires NumericIdentifier(a) && a[0] != '0' && Number(a) != Power(|a| - 1)
    ensures var b := Ten(|a|);
            var x, y := Version(major, minor, patch, front + a), Version(major, minor, patch, front + b);
            Number(a) < Number(b) && VersionLe(y, x) && !VersionLe(x, y)
  {
    hide Number, StrLe, Power, Ten;
    StringsMisorder(a);
    CommonFront(front, a, Ten(|a|));
    CommonFront(front, Ten(|a|), a);
  }
}
