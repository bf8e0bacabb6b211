/**
 Writing a planned archive (knock/adapters/zip_writer.py): every entry is checked again
 against the tree, and the destination is replaced only once all of them are written.
 */
module ZipWriter {
  import opened Wrappers
  import opened Sorting
  import opened Paths
  import opened Packaging

  /** What the tree holds at a path; a path that is not there cannot be read either. */
  datatype Node = Link | Unreadable | Bytes(data: string)

  type Tree = map<string, Node>

  datatype Member = Member(path: string, mode: nat, data: string)

  datatype WriteError =
    | EscapesTree(path: string)
    | NotCanonical(path: string)
    | Duplicate(path: string)
    | IsSymlink(path: string)
    | ReadFailed(path: string)
    | SizeChanged(path: string, planned: int, actual: nat)
    | DestinationFailed

  function At(tree: Tree, path: string): Node { if path in tree then tree[path] else Unreadable }

  /** The checks on one entry, in order, given the names already written. */
  function CheckEntry(tree: Tree, e: ArchiveEntry, seen: set<string>): Result<Member, WriteError> {
    if EscapesRoot(e.path) then Err(EscapesTree(e.path))
    else if !IsCanonical(e.path) then Err(NotCanonical(e.path))
    else if e.path in seen then Err(Duplicate(e.path))
    else
      match At(tree, e.path)
      case Link => Err(IsSymlink(e.path))
      case Unreadable => Err(ReadFailed(e.path))
      case Bytes(data) =>
        if |data| != e.size then Err(SizeChanged(e.path, e.size, |data|))
        else Ok(Member(e.path, e.mode, data))
  }

  function PathsUpTo(entries: seq<ArchiveEntry>): (s: set<string>)
    ensures forall p :: p in s <==> exists e :: e in entries && e.path == p
  {
    set e | e in entries :: e.path
  }

  /** All the members, or the error of the first entry that fails. */
  function Written(tree: Tree, entries: seq<ArchiveEntry>): Result<seq<Member>, WriteError> {
    if entries == [] then Ok([])
    else
      var n := |entries| - 1;
      var before := Written(tree, entries[..n]);
      if before.Err? then before
      else
        var m := CheckEntry(tree, entries[n], PathsUpTo(entries[..n]));
        if m.Err? then Err(m.error) else Ok(before.value + [m.value])
  }

  lemma {:induction false} FailsEarly(tree: Tree, entries: seq<ArchiveEntry>, i: nat)
    requires i <= |entries| && Written(tree, entries[..i]).Err?
    ensures Written(tree, entries) == Written(tree, entries[..i])
  {
    if i < |entries| {
      var n := |entries| - 1;
      assert entries[..n][..i] == entries[..i];
      FailsEarly(tree, entries[..n], i);
    } else {
      assert entries[..i] == entries;
    }
  }

  lemma WrittenStep(tree: Tree, entries: seq<ArchiveEntry>, i: nat, zip: seq<Member>)
    requires i < |entries| && Written(tree, entries[..i]) == Ok(zip)
    ensures var m := CheckEntry(tree, entries[i], PathsUpTo(entries[..i]));
            if m.Err? then Written(tree, entries) == Err(m.error)
                else Written(tree, entries[..i + 1]) == Ok(zip + [m.value])
    ensures PathsUpTo(entries[..i + 1]) == PathsUpTo(entries[..i]) + {entries[i].path}
  {
    hide CheckEntry;
    assert entries[..i + 1] == entries[..i] + [entries[i]] && entries[..i + 1][..i] == entries[..i];
    var m := CheckEntry(tree, entries[i], PathsUpTo(entries[..i]));
    if m.Err? {
      FailsEarly(tree, entries, i + 1);
    }
  }

  method WriteEntries(tree: Tree, entries: seq<ArchiveEntry>) returns (r: Result<seq<Member>, WriteError>)
    ensures r == Written(tree, entries)
  {
    hide Written, EscapesRoot, IsCanonical, PathsUpTo;
    var seen: set<string> := {};
    var zip: seq<Member> := [];
    NothingWritten(tree, entries);
    for i := 0 to |entries|
      invariant seen == PathsUpTo(entries[..i])
      invariant Written(tree, entries[..i]) == Ok(zip)
    {
      var e := entries[i];
      WrittenStep(tree, entries, i, zip);
      if EscapesRoot(e.path) {
        return Err(EscapesTree(e.path));
      }
      if !IsCanonical(e.path) {
        return Err(NotCanonical(e.path));
      }
      if e.path in seen {
        return Err(Duplicate(e.path));
      }
      seen := seen + {e.path};
      var node := At(tree, e.path);
      if node.Link? {
        return Err(IsSymlink(e.path));
      }
      if node.Unreadable? {
        return Err(ReadFailed(e.path));
      }
      if |node.data| != e.size {
        return Err(SizeChanged(e.path, e.size, |node.data|));
      }
      zip := zip + [Member(e.path, e.mode, node.data)];
    }
    assert entries[..|entries|] == entries;
    return Ok(zip);
  }

  lemma NothingWritten(tree: Tree, entries: seq<ArchiveEntry>)
    ensures Written(tree, entries[..0]) == Ok([]) && PathsUpTo(entries[..0]) == {}
  {
  }

  // ---- what the writer accepts ------------------------------------------------------------------------------------

  ghost predicate Sound(tree: Tree, e: ArchiveEntry) {
    && !EscapesRoot(e.path) && IsCanonical(e.path)
    && At(tree, e.path).Bytes? && |At(tree, e.path).data| == e.size
  }

  ghost predicate DistinctPaths(entries: seq<ArchiveEntry>) {
    forall i, j | 0 <= i < j < |entries| :: entries[i].path != entries[j].path
  }

  function MemberOf(tree: Tree, e: ArchiveEntry): Member {
    Member(e.path, e.mode, if At(tree, e.path).Bytes? then At(tree, e.path).data else "")
  }

  /** The writer succeeds exactly on sound entries under distinct names, and writes them in order. */
  lemma {:induction false} WrittenIff(tree: Tree, entries: seq<ArchiveEntry>)
    ensures Written(tree, entries).Ok? <==> DistinctPaths(entries) && forall e | e in entries :: Sound(tree, e)
    ensures Written(tree, entries).Ok? ==>
              |Written(tree, entries).value| == |entries|
              && forall i | 0 <= i < |entries| :: Written(tree, entries).value[i] == MemberOf(tree, entries[i])
  {
    hide EscapesRoot, IsCanonical, CheckEntry, Sound, DistinctPaths, MemberOf;
    if entries != [] {
      var n := |entries| - 1;
      var front, e := entries[..n], entries[n];
      assert entries == front + [e];
      WrittenIff(tree, front);
      DistinctStep(entries);
      CheckIffSound(tree, e, PathsUpTo(front));
    } else {
      assert DistinctPaths([]) by { NoneDistinct(); }
    }
  }

  lemma NoneDistinct()
    ensures DistinctPaths([])
  {
  }

  lemma CheckIffSound(tree: Tree, e: ArchiveEntry, seen: set<string>)
    ensures CheckEntry(tree, e, seen).Ok? <==> Sound(tree, e) && e.path !in seen
    ensures CheckEntry(tree, e, seen).Ok? ==> CheckEntry(tree, e, seen).value == MemberOf(tree, e)
  {
    hide EscapesRoot, IsCanonical;
  }

  lemma DistinctStep(entries: seq<ArchiveEntry>)
    requires entries != []
    ensures var n := |entries| - 1;
            DistinctPaths(entries) <==> DistinctPaths(entries[..n]) && entries[n].path !in PathsUpTo(entries[..n])
  {
    var n := |entries| - 1;
    var front, e := entries[..n], entries[n];
    if e.path in PathsUpTo(front) {
      var f :| f in front && f.path == e.path;
      var i :| 0 <= i < n && front[i] == f;
      assert entries[i].path == entries[n].path;
    }
    forall i | 0 <= i < n ensures front[i] == entries[i] && front[i] in front {
    }
  }

  ghost predicate TwiceUpTo(entries: seq<ArchiveEntry>, i: nat)
    requires i < |entries|
  {
    exists j :: 0 <= j < i && entries[j].path == entries[i].path
  }

  /** The first of its checks that entry `i` fails. */
  ghost predicate FaultAt(tree: Tree, entries: seq<ArchiveEntry>, i: nat, error: WriteError)
    requires i < |entries|
  {
    var e := entries[i];
    match error
    case EscapesTree(p) => p == e.path && EscapesRoot(e.path)
    case NotCanonical(p) => p == e.path && !EscapesRoot(e.path) && Normpath(e.path) != e.path
    case Duplicate(p) => p == e.path && !EscapesRoot(e.path) && IsCanonical(e.path) && TwiceUpTo(entries, i)
    case IsSymlink(p) =>
      && p == e.path && !EscapesRoot(e.path) && IsCanonical(e.path) && !TwiceUpTo(entries, i)
      && e.path in tree && tree[e.path] == Link
    case ReadFailed(p) =>
      && p == e.path && !EscapesRoot(e.path) && IsCanonical(e.path) && !TwiceUpTo(entries, i)
      && (e.path in tree ==> tree[e.path] == Unreadable)
    case SizeChanged(p, planned, actual) =>
      && p == e.path && !EscapesRoot(e.path) && IsCanonical(e.path) && !TwiceUpTo(entries, i)
      && e.path in tree && tree[e.path].Bytes? && |tree[e.path].data| == actual != planned == e.size
    case DestinationFailed => false
  }

  /** The error is that of the first entry that fails, all those before it being sound. */
  lemma {:induction false} FirstFaultReported(tree: Tree, entries: seq<ArchiveEntry>)
    ensures Written(tree, entries).Err? ==>
              exists i: nat :: i < |entries| && Written(tree, entries[..i]).Ok?
                               && FaultAt(tree, entries, i, Written(tree, entries).error)
  {
    hide EscapesRoot, IsCanonical, FaultAt, CheckEntry;
    if entries != [] {
      var n := |entries| - 1;
      FirstFaultReported(tree, entries[..n]);
      if Written(tree, entries[..n]).Ok? {
        CheckFaults(tree, entries, n);
      } else {
        var i: nat :| i < n && Written(tree, entries[..n][..i]).Ok?
                      && FaultAt(tree, entries[..n], i, Written(tree, entries[..n]).error);
        assert entries[..n][..i] == entries[..i];
        FaultInMore(tree, entries, n, i, Written(tree, entries).error);
      }
    }
  }

  lemma FaultInMore(tree: Tree, entries: seq<ArchiveEntry>, n: nat, i: nat, error: WriteError)
    requires i < n <= |entries| && FaultAt(tree, entries[..n], i, error)
    ensures FaultAt(tree, entries, i, error)
  {
    assert forall j | 0 <= j <= i :: entries[..n][j] == entries[j];
    assert TwiceUpTo(entries[..n], i) <==> TwiceUpTo(entries, i);
  }

  lemma CheckFaults(tree: Tree, entries: seq<ArchiveEntry>, n: nat)
    requires n < |entries|
    ensures var m := CheckEntry(tree, entries[n], PathsUpTo(entries[..n]));
            m.Err? ==> FaultAt(tree, entries, n, m.error)
  {
    hide EscapesRoot, Normpath;
    var p := entries[n].path;
    if p in PathsUpTo(entries[..n]) {
      var e :| e in entries[..n] && e.path == p;
      var j :| 0 <= j < n && entries[..n][j] == e;
      assert entries[j].path == p;
    }
    if TwiceUpTo(entries, n) {
      var j :| 0 <= j < n && entries[j].path == p;
      assert entries[..n][j] in entries[..n];
    }
  }

  /** The tree still holds what the planner was told of: each file's bytes, of the size then measured. */
  ghost predicate Unchanged(tree: Tree, files: seq<SourceFile>) {
    forall f | f in files && !f.isSymlink ::
        At(tree, Normpath(f.path)).Bytes? && |At(tree, Normpath(f.path)).data| == f.size
  }

  /** The writer accepts every plan over an unchanged tree, and writes exactly the planned members. */
  lemma PlannerAndWriterAgree(tree: Tree, files: seq<SourceFile>, maxBytes: int, lower: string -> string)
    requires Plan(files, maxBytes, lower).Ok? && Unchanged(tree, files)
    ensures var es := Plan(files, maxBytes, lower).value;
            var w := Written(tree, es);
            w.Ok? && |w.value| == |es| && forall i | 0 <= i < |es| :: w.value[i] == MemberOf(tree, es[i])
  {
    hide Plan, Normpath, EscapesRoot, IsCanonical, Written, StrLe;
    PlanIsSound(files, maxBytes, lower);
    PlannedIff(files, maxBytes, lower);
    var es := Plan(files, maxBytes, lower).value;
    var raw := Map(files, EntryOf);
    SameElements(es, raw);
    forall e | e in es ensures Sound(tree, e) {
      var i :| 0 <= i < |raw| && raw[i] == e;
      assert files[i] in files;
    }
    WrittenIff(tree, es);
  }

  // ---- all or nothing -----------------------------------------------------------------------------------------------

  /** What can go wrong on the destination's side. */
  datatype Faults = Faults(noTemp: bool, noSpace: bool, noReplace: bool, noUnlink: bool)

  class Directory {
    var files: map<string, seq<Member>>

    /** `temp` is the fresh name the temporary file gets beside the destination. */
    method WriteArchive(tree: Tree, entries: seq<ArchiveEntry>, destination: string, temp: string, faults: Faults)
      returns (r: Result<(), WriteError>)
      requires temp !in files && temp != destination
      modifies this
      ensures r.Ok? <==> Written(tree, entries).Ok? && !faults.noTemp && !faults.noSpace && !faults.noReplace
      ensures r.Ok? ==> files == old(files)[destination := Written(tree, entries).value]
      ensures r.Err? ==> files - {temp} == old(files) && (temp in files ==> faults.noUnlink)
      ensures r.Err? && !faults.noTemp && !faults.noSpace && Written(tree, entries).Err? ==>
                r.error == Written(tree, entries).error
    {
      hide Written;
      if faults.noTemp {
        assert files - {temp} == files;
        return Err(DestinationFailed);
      }
      files := files[temp := []];
      var written := WriteEntries(tree, entries);
      var completed := false;
      if faults.noSpace {
        r := Err(DestinationFailed);
      } else if written.Err? {
        r := Err(written.error);
      } else {
        files := files[temp := written.value];
        if faults.noReplace {
          r := Err(DestinationFailed);
        } else {
          files := (files - {temp})[destination := files[temp]];
          completed := true;
          r := Ok(());
        }
      }
      if !completed && !faults.noUnlink {
        files := files - {temp};
      }
    }
  }
}
