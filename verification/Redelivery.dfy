/**
 How often an entry is delivered: a reservation hands out each id once, and an entry that keeps
 going idle is retired at exactly its max(1, max_deliveries)-th claim.
 */
module Redelivery {
  import opened Wrappers
  import opened Redis
  import opened ScanQueue

  // ---- what one scan does to one entry ------------------------------------------------------------------------

  ghost predicate PendingAt(b: Broker, id: Id, n: nat) { Pending(id, n) in b.pel }

  ghost predicate Gone(b: Broker, id: Id) { forall p | p in b.pel :: p.id != id }

  /** An idle entry is claimed, or lies at or after the cursor the scan hands back. */
  lemma {:induction false} ScanOne(pel: seq<Pending>, work: seq<Entry>, idle: Id -> bool, count: nat, attempts: nat,
                                   p: Pending)
    requires Ascending(pel, PendingId) && p in pel && At(work, p.id).Some? && idle(p.id)
    ensures var s := ScanPending(pel, work, idle, count, attempts);
            if s.next.Some? && !Lt(p.id, s.next.value)
            then p in s.pel && forall e | e in s.claimed :: e.id != p.id
            else Pending(p.id, p.deliveries + 1) in s.pel && At(work, p.id).value in s.claimed
  {
    if count > 0 && attempts > 0 {
      assert Ascending(pel[1..], PendingId) && pel == [pel[0]] + pel[1..];
      var q, found := pel[0], At(work, pel[0].id);
      var c := if found.Some? && !idle(q.id) then count else count - 1;
      var rest := ScanPending(pel[1..], work, idle, c, attempts - 1);
      ClaimedArePending(pel[1..], work, idle, c, attempts - 1);
      NextIsPending(pel[1..], work, idle, c, attempts - 1);
      forall o | o in pel[1..] ensures Lt(q.id, o.id) {
        var i :| 0 <= i < |pel[1..]| && pel[1..][i] == o;
        assert Lt(PendingId(pel[0]), PendingId(pel[i + 1]));
      }
      if p in pel[1..] {
        ScanOne(pel[1..], work, idle, c, attempts - 1, p);
      }
    } else {
      FirstIsLeast(pel, p);
    }
  }

  lemma FirstIsLeast(pel: seq<Pending>, p: Pending)
    requires Ascending(pel, PendingId) && p in pel
    ensures !Lt(p.id, pel[0].id)
  {
    var i :| 0 <= i < |pel| && pel[i] == p;
    assert i == 0 || Lt(PendingId(pel[0]), PendingId(pel[i]));
  }

  lemma {:induction false} NextIsPending(pel: seq<Pending>, work: seq<Entry>, idle: Id -> bool, count: nat,
                                         attempts: nat)
    ensures var s := ScanPending(pel, work, idle, count, attempts);
            s.next.Some? ==> exists p :: p in pel && p.id == s.next.value
  {
    if pel != [] && count > 0 && attempts > 0 {
      var c := if At(work, pel[0].id).Some? && !idle(pel[0].id) then count else count - 1;
      NextIsPending(pel[1..], work, idle, c, attempts - 1);
      var s := ScanPending(pel[1..], work, idle, c, attempts - 1);
      if s.next.Some? {
        var p :| p in pel[1..] && p.id == s.next.value;
        assert p in pel;
      }
    } else if pel != [] {
      assert pel[0] in pel;
    }
  }

  lemma {:induction false} ClaimedArePending(pel: seq<Pending>, work: seq<Entry>, idle: Id -> bool, count: nat,
                                             attempts: nat)
    requires Ascending(pel, PendingId)
    ensures var s := ScanPending(pel, work, idle, count, attempts);
            Ascending(s.claimed, EntryId) && forall e | e in s.claimed :: idle(e.id) && exists p ::
                p in pel && p.id == e.id
  {
    hide Lt;
    if pel != [] && count > 0 && attempts > 0 {
      assert Ascending(pel[1..], PendingId) && pel == [pel[0]] + pel[1..];
      var q, found := pel[0], At(work, pel[0].id);
      var c := if found.Some? && !idle(q.id) then count else count - 1;
      ClaimedArePending(pel[1..], work, idle, c, attempts - 1);
      var rest := ScanPending(pel[1..], work, idle, c, attempts - 1);
      forall e | e in rest.claimed ensures Lt(q.id, e.id) && exists p :: p in pel && p.id == e.id {
        var o :| o in pel[1..] && o.id == e.id;
        var i :| 0 <= i < |pel[1..]| && pel[1..][i] == o;
        assert Lt(PendingId(pel[0]), PendingId(pel[i + 1]));
        assert o in pel;
      }
    }
  }

  /** The pending entries before the cursor are not looked at. */
  lemma ClaimFrame(b: Broker, cursor: Id, idle: Id -> bool)
    requires Valid(b)
    ensures var (b1, next, msgs) := Xautoclaim(b, cursor, idle);
            && (forall p: Pending | Lt(p.id, cursor) :: p in b1.pel <==> p in b.pel)
            && Ascending(msgs, EntryId)
            && (forall e | e in msgs :: idle(e.id) && !Lt(e.id, cursor))
            && b1.dead == b.dead && b1.lastDead == b.lastDead && b1.work == b.work
            && (next != ZERO ==> !Lt(next, cursor))
  {
    hide ScanPending;
    var k := Position(b.pel, cursor);
    var tail := b.pel[k..];
    assert Ascending(tail, PendingId) && b.pel == b.pel[..k] + tail;
    ClaimedArePending(tail, b.work, idle, CLAIM_COUNT, CLAIM_ATTEMPTS);
    NextIsPending(tail, b.work, idle, CLAIM_COUNT, CLAIM_ATTEMPTS);
    ScanKeepsIds(tail, b.work, idle, CLAIM_COUNT, CLAIM_ATTEMPTS);
    forall p | p in tail ensures !Lt(p.id, cursor) {
      FirstIsLeast(tail, p);
    }
    forall p | p in b.pel[..k] ensures Lt(p.id, cursor) {
      var i :| 0 <= i < k && b.pel[i] == p;
    }
  }

  lemma TailHolds(pel: seq<Pending>, cursor: Id, p: Pending)
    requires Ascending(pel, PendingId) && p in pel && !Lt(p.id, cursor)
    ensures p in pel[Position(pel, cursor)..] && Ascending(pel[Position(pel, cursor)..], PendingId)
  {
    var k := Position(pel, cursor);
    assert pel == pel[..k] + pel[k..];
    forall q | q in pel[..k] ensures Lt(q.id, cursor) {
      var i :| 0 <= i < k && pel[i] == q;
    }
  }

  lemma NextNotZero(pel: seq<Pending>, work: seq<Entry>, idle: Id -> bool, count: nat, attempts: nat)
    requires forall p | p in pel :: Lt(ZERO, p.id)
    ensures ScanPending(pel, work, idle, count, attempts).next != Some(ZERO)
  {
    NextIsPending(pel, work, idle, count, attempts);
  }

  lemma ClaimOne(b: Broker, cursor: Id, idle: Id -> bool, e: Entry, n: nat)
    requires Valid(b) && PendingAt(b, e.id, n) && e in b.work && idle(e.id) && !Lt(e.id, cursor)
    ensures var (b1, next, msgs) := Xautoclaim(b, cursor, idle);
            if next != ZERO && !Lt(e.id, next)
            then PendingAt(b1, e.id, n) && forall m | m in msgs :: m.id != e.id
            else PendingAt(b1, e.id, n + 1) && e in msgs
  {
    hide ScanPending, Position, Lt, Le;
    var p, k := Pending(e.id, n), Position(b.pel, cursor);
    var tail := b.pel[k..];
    TailHolds(b.pel, cursor, p);
    SameIdSameItem(b.work, EntryId, e, At(b.work, e.id).value);
    ScanOne(tail, b.work, idle, CLAIM_COUNT, CLAIM_ATTEMPTS, p);
    assert forall q | q in tail :: q in b.pel;
    NextNotZero(tail, b.work, idle, CLAIM_COUNT, CLAIM_ATTEMPTS);
    var s := ScanPending(tail, b.work, idle, CLAIM_COUNT, CLAIM_ATTEMPTS);
    assert forall q | q in s.pel :: q in b.pel[..k] + s.pel;
  }

  // ---- what retiring a batch does to one entry -------------------------------------------------------------------

  ghost predicate DeadFor(b: Broker, e: Entry, since: Id) {
    exists d | d in b.dead :: d.ref == e.ref && d.note == "max retries" && Lt(since, d.id)
  }

  ghost predicate Later(b: Broker, b': Broker) {
    Le(b.lastDead, b'.lastDead) && b.dead <= b'.dead && b'.work == b.work && b'.lastDelivered == b.lastDelivered
    && b'.lastGenerated == b.lastGenerated
  }

  lemma DeadForLater(b: Broker, b': Broker, e: Entry, since: Id)
    requires DeadFor(b, e, since) && Later(b, b')
    ensures DeadFor(b', e, since)
  {
    var d :| d in b.dead && d.ref == e.ref && d.note == "max retries" && Lt(since, d.id);
    assert d in b'.dead;
  }

  ghost function RetireFirst(b: Broker, e: Entry, maxDeliveries: int, now: nat): (r: Broker)
    requires Valid(b)
    ensures Valid(r)
  {
    if ShouldDeadLetter(TimesDelivered(b, e.id), maxDeliveries) then DeadLetterNoTrim(b, e.id, e.ref, MAX_RETRIES, now)
        else b
  }

  lemma RetireFirstEffect(b: Broker, e: Entry, maxDeliveries: int, now: nat)
    requires Valid(b)
    ensures var r := RetireFirst(b, e, maxDeliveries, now);
            && Later(b, r)
            && (forall p: Pending | p.id != e.id :: p in r.pel <==> p in b.pel)
            && (forall n: nat | PendingAt(b, e.id, n) ::
                  if n > maxDeliveries then Gone(r, e.id) && DeadFor(r, e, b.lastDead) else PendingAt(r, e.id, n))
  {
    forall n: nat | PendingAt(b, e.id, n) ensures TimesDelivered(b, e.id) == n {
      var d := Deliveries(b.pel, e.id);
      SameIdSameItem(b.pel, PendingId, Pending(e.id, n), Pending(e.id, d.value));
    }
    var r := RetireFirst(b, e, maxDeliveries, now);
    if r != b {
      var d := Entry(NextId(b.lastDead, now), e.ref, MAX_RETRIES);
      assert d in r.dead;
    }
  }

  lemma {:induction false} RetireFrame(b: Broker, claimed: seq<Entry>, maxDeliveries: int, now: nat)
    requires Valid(b)
    ensures var r := Retire(b, claimed, maxDeliveries, now);
            Later(b, r) && forall p: Pending | (forall e | e in claimed :: e.id != p.id) :: p in r.pel <==> p in b.pel
    decreases |claimed|
  {
    hide Valid, ShouldDeadLetter, TimesDelivered, DeadLetterNoTrim;
    if claimed != [] {
      RetireFirstEffect(b, claimed[0], maxDeliveries, now);
      var b1 := RetireFirst(b, claimed[0], maxDeliveries, now);
      RetireFrame(b1, claimed[1..], maxDeliveries, now);
      assert claimed == [claimed[0]] + claimed[1..];
    }
  }

  lemma GoneStays(b: Broker, r: Broker, id: Id)
    requires Gone(b, id) && forall p: Pending | p.id == id :: p in r.pel <==> p in b.pel
    ensures Gone(r, id)
  {
  }

  /** A claimed entry is retired exactly when its deliveries now exceed the maximum. */
  lemma {:induction false} RetireOne(b: Broker, claimed: seq<Entry>, maxDeliveries: int, now: nat, e: Entry, n: nat)
    requires Valid(b) && Ascending(claimed, EntryId) && e in claimed && PendingAt(b, e.id, n)
    ensures var r := Retire(b, claimed, maxDeliveries, now);
            if n > maxDeliveries then Gone(r, e.id) && DeadFor(r, e, b.lastDead) else PendingAt(r, e.id, n)
    decreases |claimed|
  {
    hide Valid, ShouldDeadLetter, TimesDelivered, DeadLetterNoTrim, Gone, DeadFor;
    var f, rest := claimed[0], claimed[1..];
    assert claimed == [f] + rest && Ascending(rest, EntryId);
    var b1 := RetireFirst(b, f, maxDeliveries, now);
    var r := Retire(b, claimed, maxDeliveries, now);
    RetireFirstEffect(b, f, maxDeliveries, now);
    RetireFrame(b1, rest, maxDeliveries, now);
    forall g | g in rest ensures Lt(f.id, g.id) {
      var i :| 0 <= i < |rest| && rest[i] == g;
      assert Lt(EntryId(claimed[0]), EntryId(claimed[i + 1]));
    }
    if e == f {
      if n > maxDeliveries {
        GoneStays(b1, r, e.id);
        DeadForLater(b1, r, e, b.lastDead);
      }
    } else {
      RetireOne(b1, rest, maxDeliveries, now, e, n);
      if n > maxDeliveries {
        DeadSinceEarlier(r, e, b.lastDead, b1.lastDead);
      }
    }
  }

  lemma DeadSinceEarlier(r: Broker, e: Entry, since: Id, later: Id)
    requires DeadFor(r, e, later) && Le(since, later)
    ensures DeadFor(r, e, since)
  {
  }

  // ---- what one reaper does to one entry ---------------------------------------------------------------------------

  lemma {:induction false} ReapPast(b: Broker, cursor: Id, idle: Id -> bool, maxDeliveries: int, now: nat, id: Id)
    requires Valid(b) && Lt(id, cursor)
    ensures var r := ReapFrom(b, cursor, idle, maxDeliveries, now).0;
            Later(b, r) && forall p: Pending | p.id == id :: p in r.pel <==> p in b.pel
    decreases Ahead(b.pel, cursor)
  {
    hide Xautoclaim, Retire, Valid, Ahead;
    var (b1, next, msgs) := Xautoclaim(b, cursor, idle);
    ClaimFrame(b, cursor, idle);
    RetireFrame(b1, msgs, maxDeliveries, now);
    assert Later(b, b1) by { ClaimLater(b, cursor, idle); }
    if next != ZERO {
      ScanLeavesFewer(b, cursor, idle, maxDeliveries, now);
      ReapPast(Retire(b1, msgs, maxDeliveries, now), next, idle, maxDeliveries, now, id);
    }
  }

  lemma ClaimLater(b: Broker, cursor: Id, idle: Id -> bool)
    requires Valid(b)
    ensures Later(b, Xautoclaim(b, cursor, idle).0)
  {
  }

  lemma {:induction false} ReapOne(b: Broker, cursor: Id, idle: Id -> bool, maxDeliveries: int, now: nat, e: Entry,
                                   n: nat)
    requires Valid(b) && PendingAt(b, e.id, n) && e in b.work && idle(e.id) && !Lt(e.id, cursor)
    ensures var (r, claimed) := ReapFrom(b, cursor, idle, maxDeliveries, now);
            && Later(b, r) && e.id in claimed
            && (if n + 1 > maxDeliveries then Gone(r, e.id) && DeadFor(r, e, b.lastDead) else PendingAt(r, e.id, n + 1))
    decreases Ahead(b.pel, cursor)
  {
    hide Xautoclaim, Retire, Valid, Ahead, Gone, DeadFor;
    var (b1, next, msgs) := Xautoclaim(b, cursor, idle);
    var b2 := Retire(b1, msgs, maxDeliveries, now);
    var r := ReapFrom(b, cursor, idle, maxDeliveries, now).0;
    ClaimFrame(b, cursor, idle);
    ClaimLater(b, cursor, idle);
    ClaimOne(b, cursor, idle, e, n);
    RetireFrame(b1, msgs, maxDeliveries, now);
    if next != ZERO {
      ScanLeavesFewer(b, cursor, idle, maxDeliveries, now);
    }
    if next != ZERO && !Lt(e.id, next) {
      ReapOne(b2, next, idle, maxDeliveries, now, e, n);
      if n + 1 > maxDeliveries {
        DeadSinceEarlier(r, e, b.lastDead, b2.lastDead);
      }
    } else {
      ClaimedIsListed(msgs, e);
      RetireOne(b1, msgs, maxDeliveries, now, e, n + 1);
      if next != ZERO {
        ReapPast(b2, next, idle, maxDeliveries, now, e.id);
        if n + 1 > maxDeliveries {
          GoneStays(b2, r, e.id);
          DeadForLater(b2, r, e, b.lastDead);
        }
      }
    }
  }

  lemma ClaimedIsListed(msgs: seq<Entry>, e: Entry)
    requires e in msgs
    ensures e.id in Tokens(msgs)
  {
    var i :| 0 <= i < |msgs| && msgs[i] == e;
    assert Tokens(msgs)[i] == e.id;
  }

  /** A reaper pass over an idle entry: claimed once more, and retired when that is one delivery too many. */
  lemma ReaperOnIdle(b: Broker, idle: Id -> bool, maxDeliveries: int, now: nat, e: Entry, n: nat)
    requires Valid(b) && PendingAt(b, e.id, n) && e in b.work && idle(e.id)
    ensures var (r, claimed) := Reaper(b, idle, maxDeliveries, now);
            && e.id in claimed
            && (if n + 1 > maxDeliveries then Gone(r, e.id) && DeadFor(r, e, b.lastDead)
                else PendingAt(r, e.id, n + 1) && e in r.work && b.dead <= r.dead)
  {
    hide ReapFrom, Floor;
    ReapOne(b, ZERO, idle, maxDeliveries, now, e, n);
    var r := ReapFrom(b, ZERO, idle, maxDeliveries, now).0;
    if n + 1 <= maxDeliveries {
      assert Needed(r, e.id);
      TrimKeepsNeeded(r, e);
    }
  }

  lemma {:induction false} ScanBusy(pel: seq<Pending>, work: seq<Entry>, idle: Id -> bool, count: nat, attempts: nat,
                                    p: Pending)
    requires p in pel && At(work, p.id).Some? && !idle(p.id)
    ensures p in ScanPending(pel, work, idle, count, attempts).pel
  {
    if count > 0 && attempts > 0 {
      assert pel == [pel[0]] + pel[1..];
      var c := if At(work, pel[0].id).Some? && !idle(pel[0].id) then count else count - 1;
      if p in pel[1..] {
        ScanBusy(pel[1..], work, idle, c, attempts - 1, p);
      }
    }
  }

  lemma ClaimBusy(b: Broker, cursor: Id, idle: Id -> bool, e: Entry, n: nat)
    requires Valid(b) && PendingAt(b, e.id, n) && e in b.work && !idle(e.id)
    ensures var (b1, next, msgs) := Xautoclaim(b, cursor, idle);
            PendingAt(b1, e.id, n) && forall m | m in msgs :: m.id != e.id
  {
    hide ScanPending;
    var k := Position(b.pel, cursor);
    assert b.pel == b.pel[..k] + b.pel[k..];
    if Pending(e.id, n) in b.pel[k..] {
      ScanBusy(b.pel[k..], b.work, idle, CLAIM_COUNT, CLAIM_ATTEMPTS, Pending(e.id, n));
    }
    ClaimFrame(b, cursor, idle);
  }

  lemma {:induction false} ReapBusy(b: Broker, cursor: Id, idle: Id -> bool, maxDeliveries: int, now: nat, e: Entry,
                                    n: nat)
    requires Valid(b) && PendingAt(b, e.id, n) && e in b.work && !idle(e.id)
    ensures var (r, claimed) := ReapFrom(b, cursor, idle, maxDeliveries, now);
            Later(b, r) && PendingAt(r, e.id, n) && e.id !in claimed
    decreases Ahead(b.pel, cursor)
  {
    hide Xautoclaim, Retire, Valid, Ahead;
    var (b1, next, msgs) := Xautoclaim(b, cursor, idle);
    ClaimLater(b, cursor, idle);
    ClaimBusy(b, cursor, idle, e, n);
    RetireFrame(b1, msgs, maxDeliveries, now);
    if next != ZERO {
      ScanLeavesFewer(b, cursor, idle, maxDeliveries, now);
      ReapBusy(Retire(b1, msgs, maxDeliveries, now), next, idle, maxDeliveries, now, e, n);
    }
  }

  /** ... and over one that is not idle: neither claimed nor counted, and still there. */
  lemma ReaperOnBusy(b: Broker, idle: Id -> bool, maxDeliveries: int, now: nat, e: Entry, n: nat)
    requires Valid(b) && PendingAt(b, e.id, n) && e in b.work && !idle(e.id)
    ensures var (r, claimed) := Reaper(b, idle, maxDeliveries, now);
            e.id !in claimed && PendingAt(r, e.id, n) && e in r.work && b.dead <= r.dead
  {
    hide ReapFrom, Floor;
    ReapBusy(b, ZERO, idle, maxDeliveries, now, e, n);
    var r := ReapFrom(b, ZERO, idle, maxDeliveries, now).0;
    assert Needed(r, e.id);
    TrimKeepsNeeded(r, e);
  }

  // ---- over many passes ---------------------------------------------------------------------------------------------

  function Passes(b: Broker, idles: seq<Id -> bool>, maxDeliveries: int, now: nat -> nat): (r: Broker)
    requires Valid(b)
    ensures Valid(r)
  {
    if idles == [] then b
    else Reaper(Passes(b, idles[..|idles| - 1], maxDeliveries, now), idles[|idles| - 1], maxDeliveries,
         now(|idles| - 1)).0
  }

  function LastClaim(maxDeliveries: int): (k: nat)
    ensures k >= 1 && (maxDeliveries >= 1 ==> k == maxDeliveries)
  {
    if maxDeliveries < 1 then 1 else maxDeliveries
  }

  /**
   A reserved entry whose workers keep dying: it survives every claim before the
   max(1, max_deliveries)-th, and that one sends it to the dead stream.
   */
  lemma {:induction false} RetiredAtLastClaim(b: Broker, idles: seq<Id -> bool>, maxDeliveries: int, now: nat -> nat,
                                              e: Entry)
    requires Valid(b) && PendingAt(b, e.id, 1) && e in b.work && forall idle | idle in idles :: idle(e.id)
    requires |idles| <= LastClaim(maxDeliveries)
    ensures var r := Passes(b, idles, maxDeliveries, now);
            if |idles| < LastClaim(maxDeliveries) then PendingAt(r, e.id, 1 + |idles|) && e in r.work
            else Gone(r, e.id) && DeadFor(r, e, Passes(b, idles[..|idles| - 1], maxDeliveries, now).lastDead)
  {
    hide Reaper, Valid, Gone, DeadFor;
    if idles != [] {
      var n := |idles| - 1;
      assert idles[n] in idles;
      RetiredAtLastClaim(b, idles[..n], maxDeliveries, now, e);
      ReaperOnIdle(Passes(b, idles[..n], maxDeliveries, now), idles[n], maxDeliveries, now(n), e, 1 + n);
    }
  }
}
