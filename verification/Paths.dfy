/**
 Lexical paths as knock's packaging reads them: `posixpath.normpath`, and the two predicates
 built on it (knock/domain/packaging.py).
 */
module Paths {
  import opened Wrappers
  import opened Texts

  const SLASH := '/'
  const UP := ".."
  const HERE := "."

  predicate Proper(c: string) { c != "" && c != HERE && c != UP && SLASH !in c }

  // ---- normpath ---------------------------------------------------------------------------------------------

  function Push(acc: seq<string>, c: string, rooted: bool): seq<string> {
    if c == "" || c == HERE then acc
    else if c != UP || (!rooted && acc == []) || (acc != [] && acc[|acc| - 1] == UP) then acc + [c]
    else if acc != [] then acc[..|acc| - 1]
    else acc
  }

  /** The components that remain. */
  function Fold(cs: seq<string>, rooted: bool): seq<string> {
    if cs == [] then [] else Push(Fold(cs[..|cs| - 1], rooted), cs[|cs| - 1], rooted)
  }

  /** POSIX keeps exactly two leading slashes apart; one and three or more mean the root. */
  function LeadingSlashes(path: string): (k: nat)
    ensures k <= 2
  {
    if path == "" || path[0] != SLASH then 0
    else if |path| >= 2 && path[1] == SLASH && !(|path| >= 3 && path[2] == SLASH) then 2
    else 1
  }

  function Slashes(k: nat): (s: string)
    ensures |s| == k && forall i | 0 <= i < k :: s[i] == SLASH
  {
    seq(k, _ => SLASH)
  }

  function OrHere(s: string): string { if s == "" then HERE else s }

  function Normpath(path: string): string {
    var k := LeadingSlashes(path);
    OrHere(Slashes(k) + Join(Fold(Split(path, SLASH), k > 0), SLASH))
  }

  method Normalise(path: string) returns (n: string)
    ensures n == Normpath(path)
  {
    if path == "" {
      NothingKept("");
      return HERE;
    }
    var k := LeadingSlashes(path);
    var comps := Split(path, SLASH);
    var kept: seq<string> := [];
    for i := 0 to |comps|
      invariant kept == Fold(comps[..i], k > 0)
    {
      assert comps[..i + 1][..i] == comps[..i];
      var c := comps[i];
      if c != "" && c != HERE {
        if c != UP || (k == 0 && kept == []) || (kept != [] && kept[|kept| - 1] == UP) {
          kept := kept + [c];
        } else if kept != [] {
          kept := kept[..|kept| - 1];
        }
      }
    }
    assert comps[..|comps|] == comps;
    n := Slashes(k) + Join(kept, SLASH);
    if n == "" {
      n := HERE;
    }
  }

  // ---- the predicates -------------------------------------------------------------------------------------------

  datatype EscapeReason = Backslash | Escapes

  predicate StartsUp(n: string) { n == UP || (|n| >= 3 && n[..3] == "../") }

  function ReasonFor(path: string): Option<EscapeReason> {
    if '\\' in path then Some(Backslash)
    else if path != "" && path[0] == SLASH then Some(Escapes)
    else
      var n := Normpath(path);
      if StartsUp(n) || n == HERE then Some(Escapes) else None
  }

  predicate EscapesRoot(path: string) { ReasonFor(path).Some? }

  predicate IsCanonical(path: string) { Normpath(path) == path }

  // ---- the walk ---------------------------------------------------------------------------------------------------

  /** How far below its start a walk along the components ends. */
  function Depth(cs: seq<string>): int {
    if cs == [] then 0
    else
      var c := cs[|cs| - 1];
      Depth(cs[..|cs| - 1]) + if c == "" || c == HERE then 0 else if c == UP then -1 else 1
  }

  ghost predicate GoesAbove(cs: seq<string>) { exists i :: 0 <= i <= |cs| && Depth(cs[..i]) < 0 }

  /** Ups first, then names. */
  ghost predicate Normal(acc: seq<string>, ups: nat) {
    && ups <= |acc|
    && (forall i | 0 <= i < ups :: acc[i] == UP)
    && (forall i | ups <= i < |acc| :: Proper(acc[i]))
  }

  lemma GoesAboveStep(cs: seq<string>)
    requires cs != []
    ensures GoesAbove(cs) <==> GoesAbove(cs[..|cs| - 1]) || Depth(cs) < 0
  {
    hide Depth;
    var n := |cs| - 1;
    assert cs[..n + 1] == cs;
    if i :| 0 <= i <= |cs| && Depth(cs[..i]) < 0 {
      Shorter(cs, n, i);
    }
    if i :| 0 <= i <= n && Depth(cs[..n][..i]) < 0 {
      Shorter(cs, n, i);
    }
  }

  lemma Shorter(cs: seq<string>, n: nat, i: nat)
    requires n <= |cs|
    ensures i <= n ==> cs[..n][..i] == cs[..i]
  {
  }

  /** What remains of a relative walk: the ups say whether it went above, the balance is its depth. */
  lemma {:induction false} FoldIsWalk(cs: seq<string>) returns (ups: nat)
    requires forall c | c in cs :: SLASH !in c
    ensures Normal(Fold(cs, false), ups)
    ensures |Fold(cs, false)| - 2 * ups == Depth(cs)
    ensures ups > 0 <==> GoesAbove(cs)
  {
    if cs == [] {
      ups := 0;
    } else {
      var n := |cs| - 1;
      var c := cs[n];
      assert c in cs && forall x | x in cs[..n] :: x in cs;
      ups := FoldIsWalk(cs[..n]);
      GoesAboveStep(cs);
      hide GoesAbove;
      var acc := Fold(cs[..n], false);
      if c == UP && (acc == [] || acc[|acc| - 1] == UP) {
        ups := ups + 1;
      }
    }
  }

  lemma {:induction false} RootedFold(cs: seq<string>)
    requires forall c | c in cs :: SLASH !in c
    ensures Normal(Fold(cs, true), 0)
  {
    if cs != [] {
      var n := |cs| - 1;
      assert cs[n] in cs && forall x | x in cs[..n] :: x in cs;
      RootedFold(cs[..n]);
    }
  }

  /** Components in normal form are left as they are. */
  lemma {:induction false} NormalStays(acc: seq<string>, ups: nat, rooted: bool)
    requires Normal(acc, ups) && (rooted ==> ups == 0)
    ensures Fold(acc, rooted) == acc
  {
    if acc != [] {
      hide Proper;
      var n := |acc| - 1;
      NormalStays(acc[..n], if ups <= n then ups else n, rooted);
      assert acc == acc[..n] + [acc[n]];
      PushKeeps(acc[..n], acc[n], ups, rooted);
    }
  }

  lemma PushKeeps(acc: seq<string>, c: string, ups: nat, rooted: bool)
    requires Normal(acc + [c], ups) && (rooted ==> ups == 0)
    ensures Push(acc, c, rooted) == acc + [c]
  {
    var all := acc + [c];
    assert all[|acc|] == c;
    if c == UP && acc != [] {
      assert all[|acc| - 1] == acc[|acc| - 1];
    }
  }

  lemma NormalHasNoSlash(acc: seq<string>, ups: nat)
    requires Normal(acc, ups)
    ensures forall c | c in acc :: SLASH !in c && c != "" && c != HERE
  {
  }

  // ---- escaping, lexically ------------------------------------------------------------------------------------------

  lemma RelativeNormpath(path: string)
    requires path == "" || path[0] != SLASH
    ensures Normpath(path) == OrHere(Join(Fold(Split(path, SLASH), false), SLASH))
  {
    assert Slashes(0) == "";
  }

  lemma JoinShape(acc: seq<string>, ups: nat)
    requires Normal(acc, ups)
    ensures OrHere(Join(acc, SLASH)) == HERE <==> acc == []
    ensures StartsUp(OrHere(Join(acc, SLASH))) <==> ups > 0
    ensures acc != [] ==>
              Join(acc, SLASH) != "" && Join(acc, SLASH)[0] != SLASH && Split(Join(acc, SLASH), SLASH) == acc
  {
    NormalHasNoSlash(acc, ups);
    if acc != [] {
      SplitJoin(acc, SLASH);
      var s := Join(acc, SLASH);
      assert acc[0] in acc && acc[0][0] != SLASH;
      assert s[..|acc[0]|] == acc[0];
      if |acc| > 1 {
        assert s == acc[0] + [SLASH] + Join(acc[1..], SLASH);
        IndexAt(acc[0], Join(acc[1..], SLASH), SLASH);
      }
      assert Split(HERE, SLASH) == [HERE];
      assert s == HERE ==> acc == [HERE];
      assert HERE !in acc;
      StartsUpIff(s);
    }
  }

  /** A string starts with an up component exactly when its first component is one. */
  lemma StartsUpIff(s: string)
    ensures StartsUp(s) <==> Split(s, SLASH)[0] == UP
  {
    var i := IndexOf(s, SLASH);
    if StartsUp(s) && s != UP {
      assert s == UP + [SLASH] + s[3..];
      IndexAt(UP, s[3..], SLASH);
    }
    if i < |s| && s[..i] == UP {
      assert s[..3] == s[..2] + [s[2]];
    }
  }

  /**
   A path with a backslash is refused as that; any other as escaping exactly when it is
   absolute, or its walk goes above the root at some prefix or ends at the root.
   */
  lemma EscapesIff(path: string)
    ensures ReasonFor(path) == Some(Backslash) <==> '\\' in path
    ensures ReasonFor(path) == Some(Escapes) <==>
              && '\\' !in path
              && (|| (path != "" && path[0] == '/')
                  || GoesAbove(Split(path, '/')) || Depth(Split(path, '/')) == 0)
  {
    if '\\' !in path && (path == "" || path[0] != '/') {
      var cs := Split(path, SLASH);
      var ups := FoldIsWalk(cs);
      RelativeNormpath(path);
      JoinShape(Fold(cs, false), ups);
    }
  }

  // ---- normalising again --------------------------------------------------------------------------------------------

  lemma SplitSlash(s: string)
    ensures Split([SLASH] + s, SLASH) == [""] + Split(s, SLASH)
  {
    SplitCons("", s, SLASH);
    assert "" + [SLASH] + s == [SLASH] + s;
  }

  lemma {:induction false} FoldDropsEmpty(k: nat, cs: seq<string>, rooted: bool)
    ensures Fold(seq(k, _ => "") + cs, rooted) == Fold(cs, rooted)
    decreases |cs|, k
  {
    var pad := seq(k, _ => "");
    var all := pad + cs;
    if cs == [] {
      if k > 0 {
        assert all[..k - 1] == seq(k - 1, _ => "") + [];
        FoldDropsEmpty(k - 1, [], rooted);
      } else {
        assert all == [];
      }
    } else {
      var n := |cs| - 1;
      assert all[..|all| - 1] == pad + cs[..n] && all[|all| - 1] == cs[n];
      FoldDropsEmpty(k, cs[..n], rooted);
    }
  }

  lemma {:induction false} SplitSlashes(k: nat, s: string)
    ensures Split(Slashes(k) + s, SLASH) == seq(k, _ => "") + Split(s, SLASH)
  {
    hide Split;
    if k == 0 {
      assert Slashes(0) + s == s;
      assert seq(0, _ => "") + Split(s, SLASH) == Split(s, SLASH);
    } else {
      SplitSlashes(k - 1, s);
      assert Slashes(k) + s == [SLASH] + (Slashes(k - 1) + s);
      SplitSlash(Slashes(k - 1) + s);
      assert seq(k, _ => "") == [""] + seq(k - 1, _ => "");
      assert [""] + (seq(k - 1, _ => "") + Split(s, SLASH)) == seq(k, _ => "") + Split(s, SLASH);
    }
  }

  lemma FoldOfNormal(acc: seq<string>, ups: nat, k: nat)
    requires Normal(acc, ups) && (k > 0 ==> ups == 0)
    ensures Fold(Split(Slashes(k) + Join(acc, SLASH), SLASH), k > 0) == acc
  {
    var s := Join(acc, SLASH);
    SplitSlashes(k, s);
    FoldDropsEmpty(k, Split(s, SLASH), k > 0);
    JoinShape(acc, ups);
    if acc == [] {
      assert Split("", SLASH) == [""];
      assert Fold([""], k > 0) == Push(Fold([""][..0], k > 0), "", k > 0);
    } else {
      NormalStays(acc, ups, k > 0);
    }
  }

  lemma SlashesRead(k: nat, s: string)
    requires k <= 2 && (s == "" || s[0] != SLASH)
    ensures LeadingSlashes(Slashes(k) + s) == k
  {
  }

  lemma NormalFold(path: string) returns (ups: nat)
    ensures Normal(Fold(Split(path, SLASH), LeadingSlashes(path) > 0), ups)
    ensures LeadingSlashes(path) > 0 ==> ups == 0
  {
    if LeadingSlashes(path) > 0 {
      RootedFold(Split(path, SLASH));
      ups := 0;
    } else {
      ups := FoldIsWalk(Split(path, SLASH));
    }
  }

  /** Normalising is idempotent: what the planner stores passes the writer's canonical check. */
  lemma NormpathIsCanonical(path: string)
    ensures IsCanonical(Normpath(path))
  {
    hide Split, Join;
    var k := LeadingSlashes(path);
    var acc := Fold(Split(path, SLASH), k > 0);
    var ups := NormalFold(path);
    JoinShape(acc, ups);
    var s := Join(acc, SLASH);
    if k == 0 && acc == [] {
      NothingKept(HERE);
      assert Join([], SLASH) == "" by { JoinNothing(); }
      assert Slashes(0) + "" == "";
    } else {
      assert acc == [] ==> s == "" by { JoinNothing(); }
      SlashesRead(k, s);
      FoldOfNormal(acc, ups, k);
    }
  }

  // ---- the same place -----------------------------------------------------------------------------------------------

  /** Where one component leads from a directory, given by the names above it; there is nothing above the root. */
  function Step(at: seq<string>, c: string): seq<string> {
    if c == "" || c == "." then at
    else if c == ".." then if at == [] then [] else at[..|at| - 1]
    else at + [c]
  }

  function Walk(start: seq<string>, cs: seq<string>): seq<string> {
    if cs == [] then start else Step(Walk(start, cs[..|cs| - 1]), cs[|cs| - 1])
  }

  lemma {:induction false} FoldKeepsNoDots(cs: seq<string>, rooted: bool)
    ensures forall c | c in Fold(cs, rooted) :: c != "" && c != "."
  {
    if cs == [] {
      assert Fold(cs, rooted) == [];
    } else {
      var n := |cs| - 1;
      FoldKeepsNoDots(cs[..n], rooted);
      var acc := Fold(cs[..n], rooted);
      assert Fold(cs, rooted) == Push(acc, cs[n], rooted);
      assert forall c | c in Push(acc, cs[n], rooted) :: c in acc || (c == cs[n] && c != "" && c != ".");
    }
  }

  /** What remains leads where the whole walk leads, from any directory; a rooted walk starts at the root. */
  lemma {:induction false} FoldLeadsTheSameWay(start: seq<string>, cs: seq<string>, rooted: bool)
    requires rooted ==> start == []
    ensures Walk(start, Fold(cs, rooted)) == Walk(start, cs)
  {
    if cs != [] {
      var n := |cs| - 1;
      FoldLeadsTheSameWay(start, cs[..n], rooted);
      FoldKeepsNoDots(cs[..n], rooted);
      PushSteps(start, Fold(cs[..n], rooted), cs[n], rooted);
    }
  }

  lemma PushSteps(start: seq<string>, acc: seq<string>, c: string, rooted: bool)
    requires rooted ==> start == []
    requires forall d | d in acc :: d != "" && d != "."
    ensures Walk(start, Push(acc, c, rooted)) == Step(Walk(start, acc), c)
  {
    assert (acc + [c])[..|acc|] == acc;
    if acc != [] {
      assert acc[|acc| - 1] in acc;
    }
  }

  /** A normalised path leads from every directory where the path leads. */
  lemma NormpathLeadsTheSameWay(start: seq<string>, path: string)
    requires path != "" && path[0] == '/' ==> start == []
    ensures Walk(start, Split(Normpath(path), '/')) == Walk(start, Split(path, '/'))
  {
    hide Split, Join, Walk;
    var k := LeadingSlashes(path);
    var acc := Fold(Split(path, SLASH), k > 0);
    var ups := NormalFold(path);
    FoldLeadsTheSameWay(start, Split(path, SLASH), k > 0);
    if k == 0 && acc == [] {
      JoinNothing();
      assert Slashes(0) + "" == "";
      HereLeadsNowhere(start);
    } else {
      assert acc == [] ==> Join(acc, SLASH) == "" by { JoinNothing(); }
      assert Slashes(k) + Join(acc, SLASH) != "" by { JoinShape(acc, ups); }
      FoldOfNormal(acc, ups, k);
      FoldLeadsTheSameWay(start, Split(Normpath(path), SLASH), k > 0);
    }
  }

  lemma HereLeadsNowhere(start: seq<string>)
    ensures Walk(start, Split(".", '/')) == start && Walk(start, []) == start
  {
    assert Split(".", '/') == ["."];
    assert Walk(start, ["."]) == Step(Walk(start, ["."][..0]), ".");
  }

  lemma JoinNothing()
    ensures Join([], SLASH) == ""
  {
  }

  lemma NothingKept(c: string)
    requires c == "" || c == HERE
    ensures Normpath(c) == HERE
  {
    assert Split(c, SLASH) == [c];
    assert Fold([c], false) == Push(Fold([c][..0], false), c, false);
    assert Slashes(0) + "" == "";
  }

  /** Splitting and joining undo each other on a normalised relative path. */
  lemma NormpathRoundTrips(path: string)
    requires path == "" || path[0] != SLASH
    ensures var n := Normpath(path); Join(Split(n, SLASH), SLASH) == n
    ensures var acc := Fold(Split(path, SLASH), false); acc != [] ==> Split(Normpath(path), SLASH) == acc
  {
    JoinSplit(Normpath(path), SLASH);
    var ups := FoldIsWalk(Split(path, SLASH));
    RelativeNormpath(path);
    JoinShape(Fold(Split(path, SLASH), false), ups);
  }

  /** A normalised path that was not refused is relative, and is not refused either. */
  lemma AcceptedStaysAccepted(path: string)
    requires ReasonFor(path).None?
    ensures ReasonFor(Normpath(path)).None?
  {
    NormpathIsCanonical(path);
    var acc := Fold(Split(path, SLASH), false);
    var ups := FoldIsWalk(Split(path, SLASH));
    RelativeNormpath(path);
    JoinShape(acc, ups);
    FoldKeepsCharacters(Split(path, SLASH), '\\');
    SplitKeepsCharacters(path, '\\');
    JoinKeepsCharacters(acc, '\\');
  }

  lemma {:induction false} SplitKeepsCharacters(s: string, c: char)
    requires c !in s
    ensures forall x | x in Split(s, SLASH) :: c !in x
    decreases |s|
  {
    var i := IndexOf(s, SLASH);
    if i < |s| {
      SplitKeepsCharacters(s[i + 1..], c);
    }
  }

  lemma {:induction false} FoldKeepsCharacters(cs: seq<string>, c: char)
    ensures (forall x | x in cs :: c !in x) ==> forall x | x in Fold(cs, false) :: c !in x
  {
    if cs != [] {
      FoldKeepsCharacters(cs[..|cs| - 1], c);
    }
  }

  lemma {:induction false} JoinKeepsCharacters(parts: seq<string>, c: char)
    requires c != SLASH
    ensures (forall x | x in parts :: c !in x) ==> c !in Join(parts, SLASH)
  {
    if |parts| > 1 {
      JoinKeepsCharacters(parts[1..], c);
    } else if |parts| == 1 {
      assert parts[0] in parts;
    }
  }
}
