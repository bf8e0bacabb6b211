/** Cutting strings at separator characters, as Python's `partition`, `split` and `join` do. */
module Texts {
  import opened Wrappers

  function IndexOf(s: string, c: char): (i: nat)
    ensures i <= |s| && c !in s[..i]
    ensures i < |s| ==> s[i] == c
    ensures i == |s| ==> c !in s
  {
    if s == "" || s[0] == c then 0
    else
      assert s == [s[0]] + s[1..];
      var k := IndexOf(s[1..], c);
      assert s[..1 + k] == [s[0]] + s[1..][..k];
      1 + k
  }

  /** What follows the first occurrence of `c`, if there is one. */
  function AfterFirst(s: string, c: char): Option<string> {
    var i := IndexOf(s, c);
    if i == |s| then None else Some(s[i + 1..])
  }

  /** What follows the last occurrence of `c`, or the whole string. */
  function LastField(s: string, c: char): (r: string)
    ensures c !in r
    decreases |s|
  {
    var i := IndexOf(s, c);
    if i == |s| then s else LastField(s[i + 1..], c)
  }

  function Split(s: string, c: char): (r: seq<string>)
    ensures r != [] && forall x | x in r :: c !in x
    decreases |s|
  {
    var i := IndexOf(s, c);
    if i == |s| then [s] else [s[..i]] + Split(s[i + 1..], c)
  }

  function Join(parts: seq<string>, c: char): string {
    if parts == [] then "" else if |parts| == 1 then parts[0] else parts[0] + [c] + Join(parts[1..], c)
  }

  lemma JoinCons(first: string, rest: seq<string>, c: char)
    requires rest != []
    ensures Join([first] + rest, c) == first + [c] + Join(rest, c)
  {
    assert ([first] + rest)[1..] == rest;
  }

  lemma {:induction false} JoinSplit(s: string, c: char)
    ensures Join(Split(s, c), c) == s
    decreases |s|
  {
    hide Join;
    var i := IndexOf(s, c);
    if i < |s| {
      JoinSplit(s[i + 1..], c);
      JoinCons(s[..i], Split(s[i + 1..], c), c);
      assert s == s[..i] + [c] + s[i + 1..];
    } else {
      JoinOne(s, c);
    }
  }

  lemma JoinOne(s: string, c: char)
    ensures Join([s], c) == s
  {
  }

  lemma {:induction false} IndexAt(a: string, b: string, c: char)
    requires c !in a
    ensures IndexOf(a + [c] + b, c) == |a|
  {
    if a == "" {
      assert ([c] + b)[0] == c && a + [c] + b == [c] + b;
    } else {
      assert a[0] in a && a == [a[0]] + a[1..];
      IndexAt(a[1..], b, c);
      assert (a + [c] + b)[1..] == a[1..] + [c] + b;
    }
  }

  lemma {:induction false} SplitJoin(parts: seq<string>, c: char)
    requires parts != [] && forall x | x in parts :: c !in x
    ensures Split(Join(parts, c), c) == parts
  {
    assert parts[0] in parts;
    if |parts| == 1 {
      JoinOne(parts[0], c);
      NoCut(parts[0], c);
    } else {
      hide Join, Split;
      var rest := parts[1..];
      assert parts == [parts[0]] + rest && forall x | x in rest :: x in parts;
      SplitJoin(rest, c);
      JoinCons(parts[0], rest, c);
      SplitCons(parts[0], Join(rest, c), c);
    }
  }

  lemma NoCut(s: string, c: char)
    requires c !in s
    ensures Split(s, c) == [s]
  {
    assert IndexOf(s, c) == |s|;
  }

  lemma SplitCons(first: string, rest: string, c: char)
    requires c !in first
    ensures Split(first + [c] + rest, c) == [first] + Split(rest, c)
  {
    var s := first + [c] + rest;
    IndexAt(first, rest, c);
    assert s[..|first|] == first && s[|first| + 1..] == rest;
  }
}
