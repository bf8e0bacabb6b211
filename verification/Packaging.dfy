/**
 Planning an archive (knock/domain/packaging.py): which files go in, in what order and under
 which names, or why the tree is refused. `lower` stands for Python's `str.lower`.
 */
module Packaging {
  import opened Wrappers
  import opened Sorting
  import opened Texts
  import opened Paths

  datatype SourceFile = SourceFile(path: string, size: int, isSymlink: bool, isExecutable: bool)

  datatype ArchiveEntry = ArchiveEntry(path: string, mode: nat, size: int)

  /** In the order they are checked. */
  datatype Refusal =
    | NegativeSize(path: string, size: int)
    | Symlinks(paths: seq<string>)
    | Backslashes(paths: seq<string>)
    | Escaping(paths: seq<string>)
    | Colliding(groups: map<string, multiset<string>>)
    | TooLarge(total: int)
    | NoMarker(dirs: set<string>, files: set<string>)

  const MARKER_DIRS := {".claude-plugin", "commands", "skills", "agents", "hooks", "themes", "output-styles",
      "monitors", "workflows"}

  const MARKER_FILES := {"SKILL.md", ".mcp.json", ".lsp.json"}

  const EXECUTABLE_MODE: nat := 0x1ED

  const PLAIN_MODE: nat := 0x1A4

  // ---- lists ----------------------------------------------------------------------------------------------------

  function Pick<T(!new)>(s: seq<T>, keep: T -> bool): (r: seq<T>)
    ensures forall x :: x in r <==> x in s && keep(x)
  {
    if s == [] then []
    else
      var n := |s| - 1;
      assert s == s[..n] + [s[n]];
      Pick(s[..n], keep) + if keep(s[n]) then [s[n]] else []
  }

  function Map<T, U>(s: seq<T>, f: T -> U): (r: seq<U>)
    ensures |r| == |s| && forall i | 0 <= i < |r| :: r[i] == f(s[i])
  {
    seq(|s|, i requires 0 <= i < |s| => f(s[i]))
  }

  function PathOf(f: SourceFile): string { f.path }

  function NormalisedOf(f: SourceFile): string { Normpath(f.path) }

  function ReasonIs(reason: EscapeReason): SourceFile -> bool { (f: SourceFile) => ReasonFor(f.path) == Some(reason) }

  /** The raw paths of some of the files, sorted. */
  function Named(files: seq<SourceFile>, keep: SourceFile -> bool): seq<string> {
    Sort(Map(Pick(files, keep), PathOf), StrLe)
  }

  function FirstNegative(files: seq<SourceFile>): (r: Option<SourceFile>)
    ensures r.Some? ==> r.value in files && r.value.size < 0
    ensures r.None? ==> forall f | f in files :: f.size >= 0
  {
    if files == [] then None
    else
      assert files == [files[0]] + files[1..];
      if files[0].size < 0 then Some(files[0]) else FirstNegative(files[1..])
  }

  // ---- collisions ---------------------------------------------------------------------------------------------------

  ghost function Sharing(names: seq<string>, lower: string -> string, key: string): multiset<string> {
    multiset(Pick(names, (n: string) => lower(n) == key))
  }

  /** The names that differ at most in case, where there is more than one. */
  ghost function Collisions(names: seq<string>, lower: string -> string): map<string, multiset<string>> {
    map n | n in names && |Sharing(names, lower, lower(n))| > 1 :: lower(n) := Sharing(names, lower, lower(n))
  }

  ghost predicate DistinctUpToCase(names: seq<string>, lower: string -> string) {
    forall i, j | 0 <= i < j < |names| :: lower(names[i]) != lower(names[j])
  }

  // ---- size and layout ----------------------------------------------------------------------------------------------

  function Total(files: seq<SourceFile>): int {
    if files == [] then 0 else Total(files[..|files| - 1]) + files[|files| - 1].size
  }

  function Head(path: string): string { path[..IndexOf(path, SLASH)] }

  predicate MarksRoot(path: string) {
    if SLASH in path then Head(path) in MARKER_DIRS else path in MARKER_FILES
  }

  predicate RootMarker(paths: set<string>) { exists p | p in paths :: MarksRoot(p) }

  function Roots(paths: set<string>): set<string> { set p | p in paths :: Head(p) }

  predicate Under(path: string, wrapper: string) {
    |path| > |wrapper| && path[..|wrapper|] == wrapper && path[|wrapper|] == SLASH
  }

  function Inner(paths: set<string>, wrapper: string): set<string> {
    set p | p in paths && Under(p, wrapper) :: p[|wrapper| + 1..]
  }

  /** A marker at the root, or one level inside the one directory that holds everything. */
  predicate HasMarker(paths: set<string>) {
    || RootMarker(paths)
    || (|Roots(paths)| == 1 && exists wrapper | wrapper in Roots(paths) :: RootMarker(Inner(paths, wrapper)))
  }

  function RootDirs(paths: set<string>): set<string> { set p | p in paths && SLASH in p :: Head(p) }

  function RootFiles(paths: set<string>): set<string> { set p | p in paths && SLASH !in p :: p }

  // ---- the plan -----------------------------------------------------------------------------------------------------

  function EntryOf(f: SourceFile): ArchiveEntry {
    ArchiveEntry(Normpath(f.path), if f.isExecutable then EXECUTABLE_MODE else PLAIN_MODE, f.size)
  }

  predicate ByPath(a: ArchiveEntry, b: ArchiveEntry) { StrLe(a.path, b.path) }

  ghost function Names(files: seq<SourceFile>): set<string> { Elements(Map(files, NormalisedOf)) }

  ghost function Plan(files: seq<SourceFile>, maxBytes: int,
                      lower: string -> string): Result<seq<ArchiveEntry>, Refusal> {
    var negative := FirstNegative(files);
    var names := Map(files, NormalisedOf);
    if negative.Some? then Err(NegativeSize(negative.value.path, negative.value.size))
    else if exists f | f in files :: f.isSymlink then Err(Symlinks(Named(files, (f: SourceFile) => f.isSymlink)))
    else if exists f | f in files ::
         ReasonFor(f.path) == Some(Backslash) then Err(Backslashes(Named(files, ReasonIs(Backslash))))
    else if exists f | f in files ::
         ReasonFor(f.path) == Some(Escapes) then Err(Escaping(Named(files, ReasonIs(Escapes))))
    else if Collisions(names, lower) != map[] then Err(Colliding(Collisions(names, lower)))
    else if Total(files) > maxBytes then Err(TooLarge(Total(files)))
    else if !HasMarker(Names(files)) then Err(NoMarker(RootDirs(Names(files)), RootFiles(Names(files))))
    else Ok(Sort(Map(files, EntryOf), ByPath))
  }

  // ---- the method ---------------------------------------------------------------------------------------------------

  method FindRootMarker(paths: seq<string>) returns (found: bool)
    ensures found == RootMarker(Elements(paths))
  {
    for i := 0 to |paths|
      invariant forall j | 0 <= j < i :: !MarksRoot(paths[j])
    {
      var path := paths[i];
      var cut := IndexOf(path, SLASH);
      if cut < |path| {
        if path[..cut] in MARKER_DIRS {
          assert path in Elements(paths) && MarksRoot(path);
          return true;
        }
      } else if path in MARKER_FILES {
        assert path in Elements(paths) && MarksRoot(path);
        return true;
      }
    }
    return false;
  }

  method FindMarker(paths: seq<string>) returns (found: bool)
    ensures found == HasMarker(Elements(paths))
  {
    var atRoot := FindRootMarker(paths);
    if atRoot {
      return true;
    }
    var roots := set p | p in paths :: Head(p);
    assert roots == Roots(Elements(paths));
    if |roots| != 1 {
      return false;
    }
    var wrapper :| wrapper in roots;
    assert roots == {wrapper} by { OnlyOne(roots, wrapper); }
    var inner: seq<string> := [];
    for i := 0 to |paths|
      invariant Elements(inner) == Inner(Elements(paths[..i]), wrapper)
    {
      InnerStep(Elements(paths[..i]), paths[i], wrapper);
      ElementsStep(paths, i);
      if Under(paths[i], wrapper) {
        ghost var before := inner;
        inner := inner + [paths[i][|wrapper| + 1..]];
        assert Elements(inner) == Elements(before) + {paths[i][|wrapper| + 1..]};
      }
    }
    assert paths[..|paths|] == paths;
    found := FindRootMarker(inner);
    found := inner != [] && found;
    assert inner == [] ==> Elements(inner) == {};
  }

  lemma ElementsStep(s: seq<string>, i: nat)
    requires i < |s|
    ensures Elements(s[..i + 1]) == Elements(s[..i]) + {s[i]}
  {
    assert s[..i + 1] == s[..i] + [s[i]];
  }

  lemma InnerStep(paths: set<string>, p: string, wrapper: string)
    ensures Inner(paths + {p}, wrapper) == Inner(paths, wrapper) + if Under(p, wrapper) then {p[|wrapper| + 1..]}
              else {}
  {
    if Under(p, wrapper) {
      assert p[|wrapper| + 1..] in Inner(paths + {p}, wrapper);
    }
  }

  lemma OnlyOne<T>(s: set<T>, x: T)
    requires |s| == 1 && x in s
    ensures s == {x}
  {
    assert |s - {x}| == 0;
  }

  method Collide(names: seq<string>, lower: string -> string) returns (groups: map<string, multiset<string>>)
    ensures groups == Collisions(names, lower)
  {
    hide Sharing;
    var all: map<string, multiset<string>> := map[];
    for i := 0 to |names|
      invariant forall k :: k in all <==> exists n :: n in names[..i] && lower(n) == k
      invariant forall k | k in all :: all[k] == Sharing(names[..i], lower, k)
    {
      var n := names[i];
      var key := lower(n);
      assert names[..i + 1] == names[..i] + [n];
      SharingNone(names[..i], lower, key);
      SharingStep(names, i, lower);
      all := all[key := (if key in all then all[key] else multiset{}) + multiset{n}];
    }
    assert names[..|names|] == names;
    groups := map k | k in all && |all[k]| > 1 :: all[k];
    CollisionsAre(names, lower, all, groups);
  }

  lemma CollisionsAre(names: seq<string>, lower: string -> string, all: map<string, multiset<string>>,
                      groups: map<string, multiset<string>>)
    requires forall k :: k in all <==> exists n :: n in names && lower(n) == k
    requires forall k | k in all :: all[k] == Sharing(names, lower, k)
    requires groups == map k | k in all && |all[k]| > 1 :: all[k]
    ensures groups == Collisions(names, lower)
  {
    hide Sharing;
    var c := Collisions(names, lower);
    forall k ensures (k in groups <==> k in c) && (k in c ==> c[k] == groups[k]) {
    }
  }

  lemma SharingStep(names: seq<string>, i: nat, lower: string -> string)
    requires i < |names|
    ensures forall k :: Sharing(names[..i + 1], lower, k) ==
              Sharing(names[..i], lower, k) + if lower(names[i]) == k then multiset{names[i]} else multiset{}
  {
    assert names[..i + 1][..i] == names[..i];
  }

  lemma SharingNone(names: seq<string>, lower: string -> string, key: string)
    ensures (forall n | n in names :: lower(n) != key) ==> Sharing(names, lower, key) == multiset{}
  {
    if forall n | n in names :: lower(n) != key {
      SomeMember(Pick(names, (n: string) => lower(n) == key));
    }
  }

  method SumSizes(files: seq<SourceFile>) returns (total: int)
    ensures total == Total(files)
  {
    total := 0;
    for i := 0 to |files|
      invariant total == Total(files[..i])
    {
      assert files[..i + 1][..i] == files[..i];
      total := total + files[i].size;
    }
    assert files[..|files|] == files;
  }

  method PlanArchive(files: seq<SourceFile>, maxBytes: int, lower: string -> string)
    returns (r: Result<seq<ArchiveEntry>, Refusal>)
    ensures r == Plan(files, maxBytes, lower)
  {
    hide HasMarker, Normpath, ReasonFor, Collisions, Sort, Total, Head, RootDirs, RootFiles, EntryOf, PathOf;
    hide NormalisedOf, FirstNegative, Pick, Map;
    var negative := FirstNegative(files);
    if negative.Some? {
      return Err(NegativeSize(negative.value.path, negative.value.size));
    }
    var symlinks := Pick(files, (f: SourceFile) => f.isSymlink);
    SomeMember(symlinks);
    if symlinks != [] {
      return Err(Symlinks(Sort(Map(symlinks, PathOf), StrLe)));
    }
    var backslashes := Pick(files, ReasonIs(Backslash));
    SomeMember(backslashes);
    if backslashes != [] {
      return Err(Backslashes(Sort(Map(backslashes, PathOf), StrLe)));
    }
    var escaping := Pick(files, ReasonIs(Escapes));
    SomeMember(escaping);
    if escaping != [] {
      return Err(Escaping(Sort(Map(escaping, PathOf), StrLe)));
    }
    var names := Map(files, NormalisedOf);
    var groups := Collide(names, lower);
    if groups != map[] {
      return Err(Colliding(groups));
    }
    var total := SumSizes(files);
    if total > maxBytes {
      return Err(TooLarge(total));
    }
    var marked := FindMarker(names);
    if !marked {
      var paths := set p | p in names;
      return Err(NoMarker(RootDirs(paths), RootFiles(paths)));
    }
    return Ok(Sort(Map(files, EntryOf), ByPath));
  }

  lemma SomeMember<T>(s: seq<T>)
    ensures s != [] <==> exists x :: x in s
  {
    if s != [] {
      assert s[0] in s;
    }
  }

  // ---- what a plan guarantees ---------------------------------------------------------------------------------------

  ghost predicate Acceptable(files: seq<SourceFile>, maxBytes: int, lower: string -> string) {
    && (forall f | f in files :: f.size >= 0 && !f.isSymlink && ReasonFor(f.path).None?)
    && DistinctUpToCase(Map(files, NormalisedOf), lower)
    && Total(files) <= maxBytes
    && WellLaid(files)
  }

  /** The components of the path a file is stored under. */
  function Parts(f: SourceFile): seq<string> { Split(Normpath(f.path), '/') }

  /** A marker file on its own, or anything inside a marker directory. */
  predicate Marks(parts: seq<string>) {
    || (|parts| == 1 && parts[0] in {"SKILL.md", ".mcp.json", ".lsp.json"})
    || (|parts| >= 2 && parts[0] in {".claude-plugin", "commands", "skills", "agents", "hooks", "themes",
            "output-styles", "monitors", "workflows"})
  }

  ghost predicate OneRoot(files: seq<SourceFile>) {
    forall f, g | f in files && g in files :: Parts(f)[0] == Parts(g)[0]
  }

  /** A marker at the root, or where every file is in one directory, right inside that directory. */
  ghost predicate WellLaid(files: seq<SourceFile>) {
    || (exists f :: f in files && Marks(Parts(f)))
    || (OneRoot(files) && exists f :: f in files && |Parts(f)| >= 2 && Marks(Parts(f)[1..]))
  }

  lemma MarksRootIff(path: string)
    ensures MarksRoot(path) <==> Marks(Split(path, '/'))
    ensures Head(path) == Split(path, '/')[0]
  {
    hide Split;
    SplitStart(path);
  }

  lemma SplitStart(path: string)
    ensures Split(path, '/')[0] == path[..IndexOf(path, '/')]
    ensures '/' in path <==> |Split(path, '/')| >= 2
    ensures '/' !in path ==> Split(path, '/') == [path]
  {
    var i := IndexOf(path, '/');
    if i < |path| {
      assert path[i] in path;
    } else {
      assert path[..i] == path;
    }
  }

  lemma InnerIff(path: string, wrapper: string)
    requires wrapper == Head(path)
    ensures Under(path, wrapper) <==> |Split(path, '/')| >= 2
    ensures Under(path, wrapper) ==> Split(path[|wrapper| + 1..], '/') == Split(path, '/')[1..]
  {
  }

  lemma HasMarkerIff(files: seq<SourceFile>)
    ensures HasMarker(Names(files)) <==> WellLaid(files)
  {
    hide Split, Normpath, MarksRoot, Marks, Under, Head, RootMarker, Roots, Inner, Names;
    RootMarkerIff(files);
    OneRootIff(files);
    var names := Names(files);
    if files != [] && OneRoot(files) {
      var wrapper := Head(Normpath(files[0].path));
      assert Roots(names) == {wrapper};
      InnerMarkerIff(files, wrapper);
    }
  }

  lemma RootMarkerIff(files: seq<SourceFile>)
    ensures RootMarker(Names(files)) <==> exists f :: f in files && Marks(Parts(f))
  {
    hide Split, Normpath, MarksRoot, Marks, Names;
    forall f | f in files
      ensures Normpath(f.path) in Names(files) && (MarksRoot(Normpath(f.path)) <==> Marks(Parts(f)))
    {
      StoredUnder(files, f);
      MarksRootIff(Normpath(f.path));
    }
    if n :| n in Names(files) && MarksRoot(n) {
      var f := StoredAs(files, n);
    }
  }

  lemma OneRootIff(files: seq<SourceFile>)
    ensures |Roots(Names(files))| == 1 <==> files != [] && OneRoot(files)
    ensures files != [] && OneRoot(files) ==>
              && Roots(Names(files)) == {Head(Normpath(files[0].path))}
              && forall f | f in files :: Head(Normpath(f.path)) == Head(Normpath(files[0].path))
  {
    hide Split, Normpath, Names, Head;
    var roots := Roots(Names(files));
    forall f | f in files ensures Head(Normpath(f.path)) in roots && Parts(f)[0] == Head(Normpath(f.path)) {
      StoredUnder(files, f);
      MarksRootIff(Normpath(f.path));
    }
    forall h | h in roots ensures exists f :: f in files && Head(Normpath(f.path)) == h {
      var n :| n in Names(files) && Head(n) == h;
      var f := StoredAs(files, n);
    }
    if files != [] {
      assert files[0] in files;
      if OneRoot(files) {
        assert roots == {Head(Normpath(files[0].path))};
      }
    }
    if |roots| == 1 {
      OnlyOne(roots, Head(Normpath(files[0].path)));
    }
  }

  lemma InnerMarkerIff(files: seq<SourceFile>, wrapper: string)
    requires forall f | f in files :: Head(Normpath(f.path)) == wrapper
    ensures RootMarker(Inner(Names(files), wrapper)) <==>
              exists f :: f in files && |Parts(f)| >= 2 && Marks(Parts(f)[1..])
  {
    hide Split, Normpath, MarksRoot, Marks, Under, Head;
    var names := Names(files);
    forall f | f in files && Under(Normpath(f.path), wrapper)
      ensures |Normpath(f.path)| > |wrapper| && Normpath(f.path)[|wrapper| + 1..] in Inner(names, wrapper)
    {
      StoredUnder(files, f);
      UnderIsLonger(Normpath(f.path), wrapper);
    }
    forall f | f in files
      ensures Under(Normpath(f.path), wrapper) <==> |Parts(f)| >= 2
      ensures |Parts(f)| >= 2 ==>
                |Normpath(f.path)| > |wrapper|
                && (MarksRoot(Normpath(f.path)[|wrapper| + 1..]) <==> Marks(Parts(f)[1..]))
    {
      var n := Normpath(f.path);
      InnerIff(n, wrapper);
      UnderIsLonger(n, wrapper);
      if |Parts(f)| >= 2 {
        MarksRootIff(n[|wrapper| + 1..]);
      }
    }
    if p :| p in Inner(names, wrapper) && MarksRoot(p) {
      var n :| n in names && Under(n, wrapper) && p == n[|wrapper| + 1..];
      var f := StoredAs(files, n);
    }
  }

  lemma UnderIsLonger(path: string, wrapper: string)
    ensures Under(path, wrapper) ==> |path| > |wrapper|
  {
  }

  lemma StoredUnder(files: seq<SourceFile>, f: SourceFile)
    requires f in files
    ensures Normpath(f.path) in Names(files)
  {
    hide Normpath;
    var i :| 0 <= i < |files| && files[i] == f;
    assert Map(files, NormalisedOf)[i] == Normpath(f.path);
  }

  lemma StoredAs(files: seq<SourceFile>, n: string) returns (f: SourceFile)
    requires n in Names(files)
    ensures f in files && Normpath(f.path) == n
  {
    hide Normpath;
    var names := Map(files, NormalisedOf);
    var i :| 0 <= i < |names| && names[i] == n;
    f := files[i];
  }

  lemma {:induction false} PickSize(s: seq<string>, keep: string -> bool, i: int, j: int)
    requires 0 <= i < j < |s| && keep(s[i]) && keep(s[j])
    ensures |Pick(s, keep)| > 1
  {
    var n := |s| - 1;
    if j < n {
      PickSize(s[..n], keep, i, j);
    } else {
      assert s[..n][i] == s[i] && s[i] in s[..n];
      assert s[i] in Pick(s[..n], keep);
    }
  }

  lemma {:induction false} PickTwo(s: seq<string>, keep: string -> bool) returns (i: int, j: int)
    requires |Pick(s, keep)| > 1
    ensures 0 <= i < j < |s| && keep(s[i]) && keep(s[j])
  {
    var n := |s| - 1;
    if |Pick(s[..n], keep)| > 1 {
      i, j := PickTwo(s[..n], keep);
    } else {
      j := n;
      var x := Pick(s[..n], keep)[0];
      assert x in Pick(s[..n], keep);
      i :| 0 <= i < n && s[..n][i] == x;
    }
  }

  lemma NoCollisionsIff(names: seq<string>, lower: string -> string)
    ensures Collisions(names, lower) == map[] <==> DistinctUpToCase(names, lower)
  {
    var c := Collisions(names, lower);
    forall i, j | 0 <= i < j < |names| && lower(names[i]) == lower(names[j]) ensures lower(names[i]) in c {
      PickSize(names, (n: string) => lower(n) == lower(names[i]), i, j);
    }
    if c != map[] {
      var k :| k in c;
      var n :| n in names && lower(n) == k && |Sharing(names, lower, lower(n))| > 1;
      var i, j := PickTwo(names, (m: string) => lower(m) == lower(n));
    }
  }

  /** A tree is planned exactly when every check passes. */
  lemma PlannedIff(files: seq<SourceFile>, maxBytes: int, lower: string -> string)
    ensures Plan(files, maxBytes, lower).Ok? <==> Acceptable(files, maxBytes, lower)
  {
    hide HasMarker, WellLaid, Normpath, ReasonFor, Collisions, DistinctUpToCase, Sort;
    NoCollisionsIff(Map(files, NormalisedOf), lower);
    HasMarkerIff(files);
    forall f | f in files && ReasonFor(f.path).Some?
      ensures ReasonFor(f.path) == Some(Backslash) || ReasonFor(f.path) == Some(Escapes)
    {
      var reason := ReasonFor(f.path).value;
      assert reason.Backslash? || reason.Escapes?;
    }
  }

  ghost predicate StrictlyAscending(es: seq<ArchiveEntry>) {
    forall i, j | 0 <= i < j < |es| :: StrLe(es[i].path, es[j].path) && es[i].path != es[j].path
  }

  function TotalOf(es: seq<ArchiveEntry>): int {
    if es == [] then 0 else TotalOf(es[..|es| - 1]) + es[|es| - 1].size
  }

  lemma ByPathOrder()
    ensures TotalPreorder(ByPath)
  {
    StrLeOrder();
  }

  /** Distinct keys stay distinct under permutation. */
  lemma DistinctPermuted(a: seq<ArchiveEntry>, b: seq<ArchiveEntry>, lower: string -> string)
    requires multiset(a) == multiset(b)
    requires forall i, j | 0 <= i < j < |a| :: lower(a[i].path) != lower(a[j].path)
    ensures forall i, j | 0 <= i < j < |b| :: lower(b[i].path) != lower(b[j].path)
  {
    SameElements(a, b);
    forall i, j | 0 <= i < j < |b| ensures lower(b[i].path) != lower(b[j].path) {
      assert b[i] in a && b[j] in a;
      var k :| 0 <= k < |a| && a[k] == b[i];
      var l :| 0 <= l < |a| && a[l] == b[j];
      if k == l {
        TwiceInB(b, i, j);
        OnceInA(a, k, lower);
      }
    }
  }

  lemma TwiceInB(b: seq<ArchiveEntry>, i: int, j: int)
    requires 0 <= i < j < |b|
    ensures b[i] == b[j] ==> multiset(b)[b[i]] >= 2
  {
    assert b == b[..i] + [b[i]] + b[i + 1..j] + [b[j]] + b[j + 1..];
  }

  lemma OnceInA(a: seq<ArchiveEntry>, k: int, lower: string -> string)
    requires 0 <= k < |a| && forall i, j | 0 <= i < j < |a| :: lower(a[i].path) != lower(a[j].path)
    ensures multiset(a)[a[k]] == 1
  {
    assert a == a[..k] + [a[k]] + a[k + 1..];
    assert a[k] !in a[..k] && a[k] !in a[k + 1..];
  }

  lemma {:induction false} TotalRemoved(s: seq<ArchiveEntry>, j: nat)
    requires j < |s|
    ensures TotalOf(s) == s[j].size + TotalOf(s[..j] + s[j + 1..])
  {
    var n := |s| - 1;
    if j < n {
      TotalRemoved(s[..n], j);
      assert s[..n][..j] + s[..n][j + 1..] == (s[..j] + s[j + 1..])[..n - 1];
      assert (s[..j] + s[j + 1..])[n - 1] == s[n];
    } else {
      assert s[..j] + s[j + 1..] == s[..n];
    }
  }

  lemma Without<T>(s: seq<T>, j: nat)
    requires j < |s|
    ensures multiset(s[..j] + s[j + 1..]) == multiset(s) - multiset{s[j]}
  {
    assert s == s[..j] + [s[j]] + s[j + 1..];
  }

  /** The last element of one listing, found and removed in another of the same elements. */
  lemma LastRemoved<T>(a: seq<T>, b: seq<T>) returns (j: nat)
    requires multiset(a) == multiset(b) && a != []
    ensures j < |b| && b[j] == a[|a| - 1]
    ensures multiset(a[..|a| - 1]) == multiset(b[..j] + b[j + 1..])
  {
    var n := |a| - 1;
    SameElements(a, b);
    assert a[n] in b;
    j :| 0 <= j < |b| && b[j] == a[n];
    Without(a, n);
    Without(b, j);
    assert a[..n] + a[n + 1..] == a[..n];
  }

  lemma {:induction false} TotalPermuted(a: seq<ArchiveEntry>, b: seq<ArchiveEntry>)
    requires multiset(a) == multiset(b)
    ensures TotalOf(a) == TotalOf(b)
    decreases |a|
  {
    if a != [] {
      var j := LastRemoved(a, b);
      TotalPermuted(a[..|a| - 1], b[..j] + b[j + 1..]);
      TotalRemoved(b, j);
    } else {
      SameElements(a, b);
    }
  }

  lemma {:induction false} TotalMapped(files: seq<SourceFile>)
    ensures TotalOf(Map(files, EntryOf)) == Total(files)
  {
    if files != [] {
      var n := |files| - 1;
      TotalMapped(files[..n]);
      assert Map(files, EntryOf)[..n] == Map(files[..n], EntryOf);
    }
  }

  /**
   A plan lists each file once, in strictly ascending order, under a canonical name inside
   the root, no two names alike up to case, with sizes summing to the input's, within bounds.
   */
  lemma PlanIsSound(files: seq<SourceFile>, maxBytes: int, lower: string -> string)
    requires Plan(files, maxBytes, lower).Ok?
    ensures var es := Plan(files, maxBytes, lower).value;
            && multiset(es) == multiset(Map(files, EntryOf))
            && StrictlyAscending(es)
            && (forall e | e in es :: IsCanonical(e.path) && !EscapesRoot(e.path) && e.size >= 0)
            && (forall i, j | 0 <= i < j < |es| :: lower(es[i].path) != lower(es[j].path))
            && TotalOf(es) == Total(files) <= maxBytes
  {
    hide HasMarker, WellLaid, Normpath, ReasonFor, Collisions, Sort, IsCanonical, Total, TotalOf;
    PlannedIff(files, maxBytes, lower);
    var raw := Map(files, EntryOf);
    var es := Plan(files, maxBytes, lower).value;
    assert es == Sort(raw, ByPath);
    ByPathOrder();
    SortSorts(raw, ByPath);
    SameElements(es, raw);
    forall i, j | 0 <= i < j < |raw| ensures lower(raw[i].path) != lower(raw[j].path) {
      assert Map(files, NormalisedOf)[i] == raw[i].path && Map(files, NormalisedOf)[j] == raw[j].path;
    }
    DistinctPermuted(raw, es, lower);
    TotalPermuted(es, raw);
    TotalMapped(files);
    forall e | e in es ensures IsCanonical(e.path) && !EscapesRoot(e.path) && e.size >= 0 {
      var i :| 0 <= i < |raw| && raw[i] == e;
      assert files[i] in files;
      NormpathIsCanonical(files[i].path);
      AcceptedStaysAccepted(files[i].path);
    }
  }

  /** An entry is a file under its normalised name, with the mode 0755 if it is executable and 0644 if not. */
  ghost predicate Stores(e: ArchiveEntry, f: SourceFile) {
    e.path == Normpath(f.path) && e.size == f.size && e.mode == if f.isExecutable then 493 else 420
  }

  lemma EntriesAreFiles(files: seq<SourceFile>, maxBytes: int, lower: string -> string)
    requires Plan(files, maxBytes, lower).Ok?
    ensures var es := Plan(files, maxBytes, lower).value;
            && |es| == |files|
            && (forall e | e in es :: exists f :: f in files && Stores(e, f))
            && (forall f | f in files :: exists e :: e in es && Stores(e, f))
  {
    hide Normpath, Plan, StrictlyAscending, IsCanonical, EscapesRoot, Total, TotalOf;
    PlanIsSound(files, maxBytes, lower);
    var es, raw := Plan(files, maxBytes, lower).value, Map(files, EntryOf);
    SameElements(es, raw);
    forall e | e in es ensures exists f :: f in files && Stores(e, f) {
      var i :| 0 <= i < |raw| && raw[i] == e;
      assert files[i] in files && Stores(e, files[i]);
    }
    forall f | f in files ensures exists e :: e in es && Stores(e, f) {
      var i :| 0 <= i < |files| && files[i] == f;
      assert raw[i] in raw && Stores(raw[i], f);
    }
  }

  // ---- what a refusal names -----------------------------------------------------------------------------------------

  /** The paths of the files in question, each of them and no other, in ascending order. */
  ghost predicate ListsPaths(paths: seq<string>, files: seq<SourceFile>, keep: SourceFile -> bool) {
    && paths != [] && SortedBy(paths, StrLe)
    && forall p :: p in paths <==> exists f :: f in files && keep(f) && f.path == p
  }

  lemma NamedLists(files: seq<SourceFile>, keep: SourceFile -> bool)
    requires exists f :: f in files && keep(f)
    ensures ListsPaths(Named(files, keep), files, keep)
  {
    var picked := Pick(files, keep);
    var paths := Map(picked, PathOf);
    StrLeOrder();
    SortSorts(paths, StrLe);
    SameElements(Sort(paths, StrLe), paths);
    SomeMember(picked);
    forall p | p in paths ensures exists f :: f in files && keep(f) && f.path == p {
      var i :| 0 <= i < |paths| && paths[i] == p;
      assert picked[i] in picked;
    }
    forall f | f in files && keep(f) ensures f.path in paths {
      var i :| 0 <= i < |picked| && picked[i] == f;
      assert paths[i] == f.path;
    }
  }

  /** The directories and the files found at the root. */
  ghost predicate ListsRoot(files: seq<SourceFile>, dirs: set<string>, names: set<string>) {
    && (forall d :: d in dirs <==> exists f :: f in files && |Parts(f)| >= 2 && Parts(f)[0] == d)
    && (forall n :: n in names <==> exists f :: f in files && Parts(f) == [n])
  }

  ghost predicate TwoDiffer(files: seq<SourceFile>, lower: string -> string, key: string) {
    exists i, j :: 0 <= i < j < |files| && StoredAlike(files[i], files[j], lower, key)
  }

  ghost predicate StoredAlike(f: SourceFile, g: SourceFile, lower: string -> string, key: string) {
    lower(Normpath(f.path)) == lower(Normpath(g.path)) == key
  }

  ghost predicate NoneNegative(files: seq<SourceFile>) { forall f | f in files :: f.size >= 0 }

  ghost predicate NoneUnsafe(files: seq<SourceFile>) {
    NoneNegative(files) && forall f | f in files :: !f.isSymlink && ReasonFor(f.path).None?
  }

  /** A refusal is the first of the checks that fails, and names the files that fail it. */
  ghost predicate RefusedFor(files: seq<SourceFile>, maxBytes: int, lower: string -> string, e: Refusal) {
    match e
    case NegativeSize(p, n) => n < 0 && exists f :: f in files && f.path == p && f.size == n
    case Symlinks(ps) => NoneNegative(files) && ListsPaths(ps, files, (f: SourceFile) => f.isSymlink)
    case Backslashes(ps) =>
      && NoneNegative(files) && (forall f | f in files :: !f.isSymlink)
      && ListsPaths(ps, files, (f: SourceFile) => '\\' in f.path)
    case Escaping(ps) =>
      && NoneNegative(files) && (forall f | f in files :: !f.isSymlink && '\\' !in f.path)
      && ListsPaths(ps, files, (f: SourceFile) => ReasonFor(f.path) == Some(Escapes))
    case Colliding(groups) =>
      && NoneUnsafe(files) && groups != map[]
      && forall key :: key in groups <==> TwoDiffer(files, lower, key)
    case TooLarge(total) =>
      && NoneUnsafe(files) && DistinctUpToCase(Map(files, NormalisedOf), lower)
      && total == Total(files) > maxBytes
    case NoMarker(dirs, names) =>
      && NoneUnsafe(files) && DistinctUpToCase(Map(files, NormalisedOf), lower)
      && Total(files) <= maxBytes && !WellLaid(files) && ListsRoot(files, dirs, names)
  }

  lemma RefusalNamesFiles(files: seq<SourceFile>, maxBytes: int, lower: string -> string)
    ensures var r := Plan(files, maxBytes, lower); r.Err? ==> RefusedFor(files, maxBytes, lower, r.error)
  {
    hide HasMarker, WellLaid, Normpath, Collisions, DistinctUpToCase, Named, Total, ListsPaths, TwoDiffer;
    hide ListsRoot, RootDirs, RootFiles;
    NoCollisionsIff(Map(files, NormalisedOf), lower);
    HasMarkerIff(files);
    CollisionKeys(files, lower);
    RefusedPaths(files);
    RootListed(files);
  }

  lemma RootListed(files: seq<SourceFile>)
    ensures ListsRoot(files, RootDirs(Names(files)), RootFiles(Names(files)))
  {
    hide Split, Normpath, Names, Head;
    forall f | f in files
      ensures Normpath(f.path) in Names(files) && (SLASH in Normpath(f.path) <==> |Parts(f)| >= 2)
      ensures Parts(f)[0] == Head(Normpath(f.path)) && (|Parts(f)| < 2 ==> Parts(f) == [Normpath(f.path)])
    {
      StoredUnder(files, f);
      MarksRootIff(Normpath(f.path));
      SplitStart(Normpath(f.path));
    }
    forall n | n in Names(files) ensures exists f :: f in files && Normpath(f.path) == n {
      var f := StoredAs(files, n);
    }
  }

  lemma CollisionKeys(files: seq<SourceFile>, lower: string -> string)
    ensures forall key :: key in Collisions(Map(files, NormalisedOf), lower) <==> TwoDiffer(files, lower, key)
  {
    hide Normpath;
    var names := Map(files, NormalisedOf);
    var c := Collisions(names, lower);
    forall key | TwoDiffer(files, lower, key) ensures key in c {
      var i, j :| 0 <= i < j < |files| && StoredAlike(files[i], files[j], lower, key);
      PickSize(names, (n: string) => lower(n) == lower(names[i]), i, j);
      assert names[i] in names;
    }
    forall key | key in c ensures TwoDiffer(files, lower, key) {
      var n :| n in names && lower(n) == key && |Sharing(names, lower, lower(n))| > 1;
      var i, j := PickTwo(names, (m: string) => lower(m) == lower(n));
      assert StoredAlike(files[i], files[j], lower, key);
    }
  }

  lemma RefusedPaths(files: seq<SourceFile>)
    ensures (exists f | f in files :: f.isSymlink) ==>
              ListsPaths(Named(files, (f: SourceFile) => f.isSymlink), files, (f: SourceFile) => f.isSymlink)
    ensures (exists f | f in files :: ReasonFor(f.path) == Some(Backslash)) ==>
              ListsPaths(Named(files, ReasonIs(Backslash)), files, (f: SourceFile) => '\\' in f.path)
    ensures (exists f | f in files :: ReasonFor(f.path) == Some(Escapes)) ==>
              ListsPaths(Named(files, ReasonIs(Escapes)), files, (f: SourceFile) => ReasonFor(f.path) == Some(Escapes))
  {
    hide Named, Normpath;
    if exists f | f in files :: f.isSymlink {
      NamedLists(files, (f: SourceFile) => f.isSymlink);
    }
    if exists f | f in files :: ReasonFor(f.path) == Some(Backslash) {
      NamedLists(files, ReasonIs(Backslash));
    }
    if exists f | f in files :: ReasonFor(f.path) == Some(Escapes) {
      NamedLists(files, ReasonIs(Escapes));
    }
  }

  // ---- the order of the input does not matter -----------------------------------------------------------------------

  lemma {:induction false} MapPermuted<T, U>(a: seq<T>, b: seq<T>, f: T -> U)
    requires multiset(a) == multiset(b)
    ensures multiset(Map(a, f)) == multiset(Map(b, f))
    decreases |a|
  {
    if a != [] {
      var n := |a| - 1;
      var j := LastRemoved(a, b);
      MapPermuted(a[..n], b[..j] + b[j + 1..], f);
      MapAround(a, n, f);
      MapAround(b, j, f);
      assert a[..n] + a[n + 1..] == a[..n];
    } else {
      SameElements(a, b);
    }
  }

  lemma MapAround<T, U>(s: seq<T>, j: nat, f: T -> U)
    requires j < |s|
    ensures multiset(Map(s, f)) == multiset(Map(s[..j] + s[j + 1..], f)) + multiset{f(s[j])}
  {
    assert Map(s, f) == Map(s[..j], f) + [f(s[j])] + Map(s[j + 1..], f);
    assert Map(s[..j] + s[j + 1..], f) == Map(s[..j], f) + Map(s[j + 1..], f);
  }

  lemma {:induction false} PickCounts<T(!new)>(s: seq<T>, keep: T -> bool, x: T)
    ensures multiset(Pick(s, keep))[x] == if keep(x) then multiset(s)[x] else 0
  {
    if s != [] {
      var n := |s| - 1;
      PickCounts(s[..n], keep, x);
      assert s == s[..n] + [s[n]];
    }
  }

  lemma PickPermuted<T(!new)>(a: seq<T>, b: seq<T>, keep: T -> bool)
    requires multiset(a) == multiset(b)
    ensures multiset(Pick(a, keep)) == multiset(Pick(b, keep))
  {
    forall x ensures multiset(Pick(a, keep))[x] == multiset(Pick(b, keep))[x] {
      PickCounts(a, keep, x);
      PickCounts(b, keep, x);
    }
  }

  lemma NamedPermuted(a: seq<SourceFile>, b: seq<SourceFile>, keep: SourceFile -> bool)
    requires multiset(a) == multiset(b)
    ensures Named(a, keep) == Named(b, keep)
  {
    PickPermuted(a, b, keep);
    MapPermuted(Pick(a, keep), Pick(b, keep), PathOf);
    StrLeOrder();
    SortIgnoresOrder(Map(Pick(a, keep), PathOf), Map(Pick(b, keep), PathOf), StrLe);
  }

  lemma CollisionsPermuted(a: seq<string>, b: seq<string>, lower: string -> string)
    requires multiset(a) == multiset(b)
    ensures Collisions(a, lower) == Collisions(b, lower)
  {
    SameElements(a, b);
    forall k ensures Sharing(a, lower, k) == Sharing(b, lower, k) {
      PickPermuted(a, b, (n: string) => lower(n) == k);
    }
  }

  lemma SameFirst(a: seq<ArchiveEntry>, b: seq<ArchiveEntry>)
    requires StrictlyAscending(a) && StrictlyAscending(b) && multiset(a) == multiset(b) && a != [] && b != []
    ensures a[0] == b[0]
  {
    hide StrLe;
    SameElements(a, b);
    assert a[0] in b && b[0] in a;
    var j :| 0 <= j < |b| && b[j] == a[0];
    var i :| 0 <= i < |a| && a[i] == b[0];
    StrLeTotal(a[0].path, b[0].path);
  }

  lemma TailMultiset<T>(s: seq<T>)
    requires s != []
    ensures multiset(s[1..]) == multiset(s) - multiset{s[0]}
  {
    assert s == [s[0]] + s[1..];
  }

  lemma {:induction false} SortedByKeyUnique(a: seq<ArchiveEntry>, b: seq<ArchiveEntry>)
    requires StrictlyAscending(a) && StrictlyAscending(b) && multiset(a) == multiset(b)
    ensures a == b
  {
    SameElements(a, b);
    if a != [] {
      hide StrLe;
      SameFirst(a, b);
      TailMultiset(a);
      TailMultiset(b);
      SortedByKeyUnique(a[1..], b[1..]);
      assert a == [a[0]] + a[1..] && b == [b[0]] + b[1..];
    }
  }

  lemma EntriesPermuted(a: seq<SourceFile>, b: seq<SourceFile>, maxBytes: int, lower: string -> string)
    requires multiset(a) == multiset(b) && Plan(a, maxBytes, lower).Ok? && Plan(b, maxBytes, lower).Ok?
    ensures Plan(a, maxBytes, lower) == Plan(b, maxBytes, lower)
  {
    hide Plan, StrictlyAscending;
    PlanIsSound(a, maxBytes, lower);
    PlanIsSound(b, maxBytes, lower);
    MapPermuted(a, b, EntryOf);
    SortedByKeyUnique(Plan(a, maxBytes, lower).value, Plan(b, maxBytes, lower).value);
  }

  lemma SameNames(a: seq<SourceFile>, b: seq<SourceFile>)
    requires multiset(Map(a, NormalisedOf)) == multiset(Map(b, NormalisedOf))
    ensures Names(a) == Names(b)
  {
    SameElements(Map(a, NormalisedOf), Map(b, NormalisedOf));
  }

  /**
   The verdict and the entries do not depend on the order files are listed in; only which
   negative size is named does.
   */
  lemma PlanIgnoresOrder(a: seq<SourceFile>, b: seq<SourceFile>, maxBytes: int, lower: string -> string)
    requires multiset(a) == multiset(b)
    ensures var x, y := Plan(a, maxBytes, lower), Plan(b, maxBytes, lower);
            x == y || (x.Err? && x.error.NegativeSize? && y.Err? && y.error.NegativeSize?)
  {
    hide HasMarker, Normpath, ReasonFor, Collisions, Sort, Pick, Named, RootDirs, RootFiles, Total, TotalOf;
    hide EntryOf, NormalisedOf, Elements;
    SameElements(a, b);
    NamedPermuted(a, b, (f: SourceFile) => f.isSymlink);
    NamedPermuted(a, b, ReasonIs(Backslash));
    NamedPermuted(a, b, ReasonIs(Escapes));
    MapPermuted(a, b, NormalisedOf);
    CollisionsPermuted(Map(a, NormalisedOf), Map(b, NormalisedOf), lower);
    SameElements(Map(a, NormalisedOf), Map(b, NormalisedOf));
    SameNames(a, b);
    MapPermuted(a, b, EntryOf);
    TotalPermuted(Map(a, EntryOf), Map(b, EntryOf));
    TotalMapped(a);
    TotalMapped(b);
    if Plan(a, maxBytes, lower).Ok? && Plan(b, maxBytes, lower).Ok? {
      EntriesPermuted(a, b, maxBytes, lower);
    }
  }
}
