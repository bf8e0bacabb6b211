/**
 The arithmetic of a run report (knock/use_cases/report.py and the end of
 reconcile_policies in knock/use_cases/reconcile.py).
 */
module Report {
  import opened Wrappers
  import opened Apply

  /** The branches of knock's error tree; anything else counts as internal. */
  datatype Failure = Domain | Adapter | Config | Internal | QueueUnavailable | Unrooted

  function ExitCodeFor(f: Failure): (code: nat)
    ensures 1 <= code <= 5
    ensures code == 1 <==> f == Domain
    ensures code == 2 <==> f == Adapter
    ensures code == 3 <==> f == Config
    ensures code == 5 <==> f == QueueUnavailable
  {
    match f
    case Domain => 1
    case Adapter => 2
    case Config => 3
    case Internal => 4
    case QueueUnavailable => 5
    case Unrooted => 4
  }

  datatype Reported = Reported(kind: Kind, failure: Option<Failure>)

  datatype VariantNode = VariantNode(operations: seq<Reported>)

  datatype TargetNode = TargetNode(variants: seq<VariantNode>, operations: seq<Reported>)

  /** A policy either ran, over its targets, or failed as a whole. */
  datatype PolicyNode = Ran(targets: seq<TargetNode>) | Fell(failure: Failure)

  datatype Status = Clean | Partial | Failed

  datatype Counts = Counts(
    imported: nat, updated: nat, deleted: nat, aliased: nat, skipped: nat, marked: nat, attested: nat, sbom: nat,
        failed: nat)
  {
    function Total(): nat { imported + updated + deleted + aliased + skipped + marked + attested + sbom + failed }
  }

  const ZERO := Counts(0, 0, 0, 0, 0, 0, 0, 0, 0)

  function Plus(a: Counts, b: Counts): Counts {
    Counts(a.imported + b.imported, a.updated + b.updated, a.deleted + b.deleted, a.aliased + b.aliased,
           a.skipped + b.skipped, a.marked + b.marked, a.attested + b.attested, a.sbom + b.sbom, a.failed + b.failed)
  }

  function MergeCounts(parts: seq<Counts>): Counts {
    if parts == [] then ZERO else Plus(parts[0], MergeCounts(parts[1..]))
  }

  function Tally(ops: seq<Reported>, kind: Kind): (n: nat)
    ensures n <= |ops|
  {
    if ops == [] then 0
    else (if ops[0].failure.None? && ops[0].kind == kind then 1 else 0) + Tally(ops[1..], kind)
  }

  function Failures(ops: seq<Reported>): (n: nat)
    ensures n <= |ops|
  {
    if ops == [] then 0 else (if ops[0].failure.Some? then 1 else 0) + Failures(ops[1..])
  }

  function CountsOf(ops: seq<Reported>): Counts {
    Counts(Tally(ops, Imported), Tally(ops, Updated), Tally(ops, Deleted), Tally(ops, Aliased), Tally(ops, Skipped),
           Tally(ops, Marked), Tally(ops, Attested), Tally(ops, SbomAttached), Failures(ops))
  }

  predicate AllFine(ops: seq<Reported>) { forall op | op in ops :: op.failure.None? }

  predicate SomeFine(ops: seq<Reported>) { exists op | op in ops :: op.failure.None? }

  function NodeStatus(ops: seq<Reported>): Status {
    if AllFine(ops) then Clean else if SomeFine(ops) then Partial else Failed
  }

  // ---- counting is a homomorphism ------------------------------------------------------------------------------

  lemma {:induction false} TallyConcat(a: seq<Reported>, b: seq<Reported>, kind: Kind)
    ensures Tally(a + b, kind) == Tally(a, kind) + Tally(b, kind)
    ensures Failures(a + b) == Failures(a) + Failures(b)
  {
    if a == [] {
      assert a + b == b;
    } else {
      assert (a + b)[1..] == a[1..] + b;
      TallyConcat(a[1..], b, kind);
    }
  }

  lemma CountsConcat(a: seq<Reported>, b: seq<Reported>)
    ensures CountsOf(a + b) == Plus(CountsOf(a), CountsOf(b))
  {
    hide Tally, Failures;
    TallyConcat(a, b, Imported);
    TallyConcat(a, b, Updated);
    TallyConcat(a, b, Deleted);
    TallyConcat(a, b, Aliased);
    TallyConcat(a, b, Skipped);
    TallyConcat(a, b, Marked);
    TallyConcat(a, b, Attested);
    TallyConcat(a, b, SbomAttached);
  }

  /** Each operation is counted once: under its kind, or as failed. */
  lemma {:induction false} EveryOperationCounted(ops: seq<Reported>)
    ensures CountsOf(ops).Total() == |ops|
    ensures CountsOf(ops).failed == 0 <==> AllFine(ops)
  {
    if ops != [] {
      assert ops == [ops[0]] + ops[1..];
      EveryOperationCounted(ops[1..]);
    }
  }

  /** Where in a list the operations of a kind stand that did not fail. */
  ghost function Positions(ops: seq<Reported>, kind: Kind): set<nat> {
    set i: nat | i < |ops| && ops[i].failure.None? && ops[i].kind == kind
  }

  ghost function FailedPositions(ops: seq<Reported>): set<nat> {
    set i: nat | i < |ops| && ops[i].failure.Some?
  }

  lemma {:induction false} TallyIsSize(ops: seq<Reported>, kind: Kind)
    ensures Tally(ops, kind) == |Positions(ops, kind)|
    ensures Failures(ops) == |FailedPositions(ops)|
  {
    if ops != [] {
      TallyIsSize(ops[1..], kind);
      Shifted(Positions(ops[1..], kind));
      Shifted(FailedPositions(ops[1..]));
      PositionsStep(ops, kind);
    }
  }

  ghost function Shift(s: set<nat>): set<nat> { set i | i in s :: i + 1 }

  lemma {:induction false} Shifted(s: set<nat>)
    ensures |Shift(s)| == |s|
  {
    if s != {} {
      var x :| x in s;
      Shifted(s - {x});
      forall y ensures y in Shift(s) <==> y in Shift(s - {x}) || y == x + 1 {
        assert y in Shift(s) <==> y > 0 && y - 1 in s;
        assert y in Shift(s - {x}) <==> y > 0 && y - 1 in s - {x};
      }
      assert Shift(s) == Shift(s - {x}) + {x + 1};
    }
  }

  lemma PositionsStep(ops: seq<Reported>, kind: Kind)
    requires ops != []
    ensures Positions(ops, kind) ==
              (if ops[0].failure.None? && ops[0].kind == kind then {0} else {}) + Shift(Positions(ops[1..], kind))
    ensures FailedPositions(ops) == (if ops[0].failure.Some? then {0} else {}) + Shift(FailedPositions(ops[1..]))
  {
    forall i: nat | i < |ops| - 1
      ensures i in Positions(ops[1..], kind) ==> i + 1 in Shift(Positions(ops[1..], kind))
      ensures i in FailedPositions(ops[1..]) ==> i + 1 in Shift(FailedPositions(ops[1..]))
      ensures ops[1..][i] == ops[i + 1]
    {
    }
    forall i | i in Positions(ops, kind) && i > 0 ensures i in Shift(Positions(ops[1..], kind)) {
      assert i - 1 in Positions(ops[1..], kind);
    }
    forall i | i in FailedPositions(ops) && i > 0 ensures i in Shift(FailedPositions(ops[1..])) {
      assert i - 1 in FailedPositions(ops[1..]);
    }
  }

  /** Each field counts the operations of its kind that did not fail, and `failed` those that did. */
  lemma CountsAreSizes(ops: seq<Reported>)
    ensures var c := CountsOf(ops);
            && c.imported == |Positions(ops, Imported)| && c.updated == |Positions(ops, Updated)|
            && c.deleted == |Positions(ops, Deleted)| && c.aliased == |Positions(ops, Aliased)|
            && c.skipped == |Positions(ops, Skipped)| && c.marked == |Positions(ops, Marked)|
            && c.attested == |Positions(ops, Attested)| && c.sbom == |Positions(ops, SbomAttached)|
            && c.failed == |FailedPositions(ops)|
  {
    hide Positions, FailedPositions, Tally, Failures;
    forall kind ensures Tally(ops, kind) == |Positions(ops, kind)| && Failures(ops) == |FailedPositions(ops)| {
      TallyIsSize(ops, kind);
    }
  }

  lemma {:induction false} AllFailedIff(ops: seq<Reported>)
    ensures Failures(ops) == |ops| <==> !SomeFine(ops)
  {
    if ops != [] {
      assert ops == [ops[0]] + ops[1..];
      AllFailedIff(ops[1..]);
    }
  }

  /** A node is clean when nothing below it failed, failed when all of it did, and partial in between. */
  lemma NodeStatusIff(ops: seq<Reported>)
    ensures NodeStatus(ops) == Clean <==> CountsOf(ops).failed == 0
    ensures NodeStatus(ops) == Failed <==> 0 < CountsOf(ops).failed == |ops|
    ensures NodeStatus(ops) == Partial <==> 0 < CountsOf(ops).failed < |ops|
  {
    EveryOperationCounted(ops);
    AllFailedIff(ops);
  }

  function Joined<T>(parts: seq<seq<T>>): seq<T> {
    if parts == [] then [] else parts[0] + Joined(parts[1..])
  }

  function Each(parts: seq<seq<Reported>>): (r: seq<Counts>)
    ensures |r| == |parts| && forall i | 0 <= i < |r| :: r[i] == CountsOf(parts[i])
  {
    seq(|parts|, i requires 0 <= i < |parts| => CountsOf(parts[i]))
  }

  lemma {:induction false} MergeIsCount(parts: seq<seq<Reported>>)
    ensures MergeCounts(Each(parts)) == CountsOf(Joined(parts))
  {
    if parts != [] {
      assert Each(parts)[1..] == Each(parts[1..]);
      MergeIsCount(parts[1..]);
      CountsConcat(parts[0], Joined(parts[1..]));
    }
  }

  lemma PlusAssociates(a: Counts, b: Counts, c: Counts)
    ensures Plus(Plus(a, b), c) == Plus(a, Plus(b, c)) && Plus(ZERO, a) == a && Plus(a, ZERO) == a
  {
  }

  lemma {:induction false} MergeConcat(a: seq<Counts>, b: seq<Counts>)
    ensures MergeCounts(a + b) == Plus(MergeCounts(a), MergeCounts(b))
  {
    hide Plus, ZERO;
    if a == [] {
      assert a + b == b;
      PlusAssociates(MergeCounts(b), MergeCounts(b), MergeCounts(b));
    } else {
      assert (a + b)[1..] == a[1..] + b;
      MergeConcat(a[1..], b);
      PlusAssociates(a[0], MergeCounts(a[1..]), MergeCounts(b));
    }
  }

  // ---- totals at every level --------------------------------------------------------------------------------------

  function VariantLists(t: TargetNode): (r: seq<seq<Reported>>)
    ensures |r| == |t.variants| && forall i | 0 <= i < |r| :: r[i] == t.variants[i].operations
  {
    seq(|t.variants|, i requires 0 <= i < |t.variants| => t.variants[i].operations)
  }

  function TargetOps(t: TargetNode): seq<Reported> { Joined(VariantLists(t)) + t.operations }

  function TargetTotals(t: TargetNode): Counts { MergeCounts(Each(VariantLists(t)) + [CountsOf(t.operations)]) }

  function TargetLists(p: PolicyNode): (r: seq<seq<Reported>>)
    requires p.Ran?
    ensures |r| == |p.targets| && forall i | 0 <= i < |r| :: r[i] == TargetOps(p.targets[i])
  {
    seq(|p.targets|, i requires 0 <= i < |p.targets| => TargetOps(p.targets[i]))
  }

  function PolicyOps(p: PolicyNode): seq<Reported> { if p.Fell? then [] else Joined(TargetLists(p)) }

  function PolicyTotals(p: PolicyNode): Counts {
    if p.Fell? then ZERO
        else MergeCounts(seq(|p.targets|, i requires 0 <= i < |p.targets| => TargetTotals(p.targets[i])))
  }

  function RunLists(ps: seq<PolicyNode>): (r: seq<seq<Reported>>)
    ensures |r| == |ps| && forall i | 0 <= i < |r| :: r[i] == PolicyOps(ps[i])
  {
    seq(|ps|, i requires 0 <= i < |ps| => PolicyOps(ps[i]))
  }

  function RunTotals(ps: seq<PolicyNode>): Counts {
    MergeCounts(seq(|ps|, i requires 0 <= i < |ps| => PolicyTotals(ps[i])))
  }

  lemma TargetConserves(t: TargetNode)
    ensures TargetTotals(t) == CountsOf(TargetOps(t)) && TargetTotals(t).Total() == |TargetOps(t)|
  {
    hide Plus, ZERO, CountsOf, Joined;
    MergeIsCount(VariantLists(t));
    var own := CountsOf(t.operations);
    MergeConcat(Each(VariantLists(t)), [own]);
    PlusAssociates(own, own, own);
    assert MergeCounts([own]) == Plus(own, MergeCounts([])) == own;
    CountsConcat(Joined(VariantLists(t)), t.operations);
    EveryOperationCounted(TargetOps(t));
  }

  lemma PolicyConserves(p: PolicyNode)
    ensures PolicyTotals(p) == CountsOf(PolicyOps(p)) && PolicyTotals(p).Total() == |PolicyOps(p)|
  {
    if p.Ran? {
      forall i | 0 <= i < |p.targets| ensures TargetTotals(p.targets[i]) == CountsOf(TargetOps(p.targets[i])) {
        TargetConserves(p.targets[i]);
      }
      assert seq(|p.targets|, i requires 0 <= i < |p.targets| => TargetTotals(p.targets[i])) == Each(TargetLists(p));
      MergeIsCount(TargetLists(p));
    }
    EveryOperationCounted(PolicyOps(p));
  }

  /** The run's totals count each operation below it exactly once. */
  lemma RunConserves(ps: seq<PolicyNode>)
    ensures RunTotals(ps) == CountsOf(Joined(RunLists(ps))) && RunTotals(ps).Total() == |Joined(RunLists(ps))|
  {
    forall i | 0 <= i < |ps| ensures PolicyTotals(ps[i]) == CountsOf(PolicyOps(ps[i])) {
      PolicyConserves(ps[i]);
    }
    assert seq(|ps|, i requires 0 <= i < |ps| => PolicyTotals(ps[i])) == Each(RunLists(ps));
    MergeIsCount(RunLists(ps));
    EveryOperationCounted(Joined(RunLists(ps)));
  }

  // ---- status and exit code -----------------------------------------------------------------------------------------

  function PolicyStatus(p: PolicyNode): Status { if p.Fell? then Failed else NodeStatus(PolicyOps(p)) }

  function RunStatus(ps: seq<PolicyNode>): Status {
    if forall p | p in ps :: PolicyStatus(p) == Clean then Clean
    else if forall p | p in ps :: PolicyStatus(p) == Failed then Failed
    else Partial
  }

  ghost predicate FailsWith(p: PolicyNode, code: nat) {
    || (p.Fell? && ExitCodeFor(p.failure) == code)
    || (p.Ran? && exists op | op in PolicyOps(p) :: op.failure.Some? && ExitCodeFor(op.failure.value) == code)
  }

  method OperationCodes(ops: seq<Reported>) returns (codes: set<nat>)
    ensures forall c :: c in codes <==> exists op :: op in ops && op.failure.Some? && ExitCodeFor(op.failure.value) == c
  {
    codes := {};
    for i := 0 to |ops|
      invariant forall c :: c in codes <==>
                  exists op :: op in ops[..i] && op.failure.Some? && ExitCodeFor(op.failure.value) == c
    {
      assert ops[..i + 1] == ops[..i] + [ops[i]];
      if ops[i].failure.Some? {
        codes := codes + {ExitCodeFor(ops[i].failure.value)};
      }
    }
    assert ops[..|ops|] == ops;
  }

  ghost predicate Carries(ops: seq<Reported>, c: nat) {
    exists op | op in ops :: op.failure.Some? && ExitCodeFor(op.failure.value) == c
  }

  lemma {:induction false} JoinedCarries(parts: seq<seq<Reported>>, c: nat)
    ensures Carries(Joined(parts), c) <==> exists i :: 0 <= i < |parts| && Carries(parts[i], c)
  {
    if parts != [] {
      JoinedCarries(parts[1..], c);
      if i :| 0 <= i < |parts[1..]| && Carries(parts[1..][i], c) {
        assert parts[i + 1] == parts[1..][i];
      }
      if i :| 0 <= i < |parts| && Carries(parts[i], c) {
        assert i == 0 || parts[i] == parts[1..][i - 1];
      }
    }
  }

  method TargetCodes(t: TargetNode) returns (codes: set<nat>)
    ensures forall c :: c in codes <==> Carries(TargetOps(t), c)
  {
    codes := {};
    for i := 0 to |t.variants|
      invariant forall c :: c in codes <==> exists j :: 0 <= j < i && Carries(VariantLists(t)[j], c)
    {
      var more := OperationCodes(t.variants[i].operations);
      assert forall c :: c in more <==> Carries(VariantLists(t)[i], c);
      codes := codes + more;
    }
    var own := OperationCodes(t.operations);
    forall c ensures c in codes + own <==> Carries(TargetOps(t), c) {
      JoinedCarries(VariantLists(t), c);
      if Carries(t.operations, c) {
        var op :| op in t.operations && op.failure.Some? && ExitCodeFor(op.failure.value) == c;
        assert op in TargetOps(t);
      }
      if Carries(Joined(VariantLists(t)), c) {
        var op :| op in Joined(VariantLists(t)) && op.failure.Some? && ExitCodeFor(op.failure.value) == c;
        assert op in TargetOps(t);
      }
      assert c in own <==> Carries(t.operations, c);
    }
    codes := codes + own;
  }

  method PolicyCodes(p: PolicyNode) returns (codes: set<nat>)
    ensures forall c: nat :: c in codes <==> FailsWith(p, c)
  {
    if p.Fell? {
      codes := {ExitCodeFor(p.failure)};
    } else {
      codes := {};
      for i := 0 to |p.targets|
        invariant forall c :: c in codes <==> exists j :: 0 <= j < i && Carries(TargetLists(p)[j], c)
      {
        var more := TargetCodes(p.targets[i]);
        codes := codes + more;
      }
      forall c ensures c in codes <==> FailsWith(p, c) {
        JoinedCarries(TargetLists(p), c);
        assert FailsWith(p, c) <==> Carries(PolicyOps(p), c);
      }
    }
  }

  method Largest(codes: set<nat>) returns (worst: nat)
    ensures codes == {} ==> worst == 0
    ensures codes != {} ==> worst in codes
    ensures forall c | c in codes :: c <= worst
  {
    worst := 0;
    var todo := codes;
    ghost var seen: set<nat> := {};
    while todo != {}
      invariant todo + seen == codes
      invariant seen == {} ==> worst == 0
      invariant seen != {} ==> worst in seen
      invariant forall c | c in seen :: c <= worst
      decreases |todo|
    {
      var c :| c in todo;
      if c >= worst {
        worst := c;
      }
      todo := todo - {c};
      seen := seen + {c};
    }
  }

  ghost predicate SomeFailsWith(ps: seq<PolicyNode>, code: nat) { exists p | p in ps :: FailsWith(p, code) }

  /** The worst failure anywhere in the run, or zero. */
  method ReportExitCode(ps: seq<PolicyNode>) returns (code: nat)
    ensures code == 0 <==> RunStatus(ps) == Clean
    ensures code != 0 ==> SomeFailsWith(ps, code)
    ensures forall p, c: nat | p in ps && FailsWith(p, c) :: c <= code
  {
    var codes: set<nat> := {};
    for i := 0 to |ps|
      invariant forall c: nat :: c in codes <==> SomeFailsWith(ps[..i], c)
    {
      assert ps[..i + 1] == ps[..i] + [ps[i]];
      var more := PolicyCodes(ps[i]);
      codes := codes + more;
    }
    assert ps[..|ps|] == ps;
    code := Largest(codes);
    CleanIffNoCode(ps);
    forall p, c: nat | p in ps && FailsWith(p, c) ensures c <= code {
      assert c in codes;
    }
    assert code != 0 ==> code in codes;
    assert 0 !in codes;
  }

  lemma FailsWithSomething(p: PolicyNode)
    ensures PolicyStatus(p) != Clean <==> exists c: nat :: c != 0 && FailsWith(p, c)
    ensures !FailsWith(p, 0)
  {
    if PolicyStatus(p) != Clean {
      if p.Fell? {
        assert FailsWith(p, ExitCodeFor(p.failure));
      } else {
        var op :| op in PolicyOps(p) && op.failure.Some?;
        assert FailsWith(p, ExitCodeFor(op.failure.value));
      }
    }
  }

  lemma CleanIffNoCode(ps: seq<PolicyNode>)
    ensures RunStatus(ps) == Clean <==> forall p, c: nat | p in ps :: !FailsWith(p, c)
    ensures !SomeFailsWith(ps, 0)
  {
    forall p | p in ps ensures PolicyStatus(p) == Clean <==> forall c: nat :: !FailsWith(p, c)
      ensures !FailsWith(p, 0)
    {
      FailsWithSomething(p);
    }
  }

  /** A status follows the counts, but for policies that fell as a whole, which count nothing. */
  lemma StatusFromTotals(ps: seq<PolicyNode>)
    ensures RunStatus(ps) == Clean <==> RunTotals(ps).failed == 0 && forall p | p in ps :: p.Ran?
  {
    hide PolicyOps, NodeStatus, CountsOf, AllFine, Joined, PolicyStatus, RunTotals;
    RunConserves(ps);
    EveryOperationCounted(Joined(RunLists(ps)));
    FineEverywhere(RunLists(ps));
    forall p ensures PolicyStatus(p) == Clean <==> p.Ran? && AllFine(PolicyOps(p)) {
      CleanPolicy(p);
    }
    assert forall i | 0 <= i < |ps| :: RunLists(ps)[i] == PolicyOps(ps[i]) && ps[i] in ps;
    assert forall p | p in ps :: exists i :: 0 <= i < |ps| && ps[i] == p;
  }

  /**
   Of a run: clean when every policy ran without a failure; failed when there is one and each
   fell as a whole or ran operations that failed without exception; partial otherwise.
   */
  lemma RunStatusIff(ps: seq<PolicyNode>)
    ensures RunStatus(ps) == Clean <==> forall p | p in ps :: p.Ran? && PolicyTotals(p).failed == 0
    ensures RunStatus(ps) == Failed <==>
              ps != [] && forall p | p in ps :: p.Fell? || 0 < PolicyTotals(p).failed == PolicyTotals(p).Total()
  {
    hide PolicyOps, NodeStatus, CountsOf, PolicyTotals;
    forall p
      ensures PolicyStatus(p) == Clean <==> p.Ran? && PolicyTotals(p).failed == 0
      ensures PolicyStatus(p) == Failed <==> p.Fell? || 0 < PolicyTotals(p).failed == PolicyTotals(p).Total()
    {
      PolicyConserves(p);
      NodeStatusIff(PolicyOps(p));
    }
    if ps != [] {
      assert ps[0] in ps;
    }
  }

  lemma CleanPolicy(p: PolicyNode)
    ensures PolicyStatus(p) == Clean <==> p.Ran? && AllFine(PolicyOps(p))
  {
    hide PolicyOps;
  }

  lemma {:induction false} FineEverywhere(parts: seq<seq<Reported>>)
    ensures AllFine(Joined(parts)) <==> forall i | 0 <= i < |parts| :: AllFine(parts[i])
  {
    if parts != [] {
      FineEverywhere(parts[1..]);
      assert forall i | 0 < i < |parts| :: parts[i] == parts[1..][i - 1];
      assert AllFine(Joined(parts)) <==> AllFine(parts[0]) && AllFine(Joined(parts[1..]));
      if AllFine(parts[0]) && forall i | 0 <= i < |parts[1..]| :: AllFine(parts[1..][i]) {
        assert forall i | 0 <= i < |parts| :: AllFine(parts[i]);
      }
      if forall i | 0 <= i < |parts| :: AllFine(parts[i]) {
        forall i | 0 <= i < |parts[1..]| ensures AllFine(parts[1..][i]) {
          assert AllFine(parts[i + 1]);
        }
      }
    }
  }
}
