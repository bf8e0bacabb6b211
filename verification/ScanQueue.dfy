/**
 The scan queue adapter (knock/adapters/redis_streams.py), the decision that retires an entry
 (knock/domain/scan_queue.py) and the routing of a scan's outcome (knock/use_cases/scan_worker.py).
 */
module ScanQueue {
  import opened Wrappers
  import opened Redis
  import opened Texts

  // ---- decisions -----------------------------------------------------------------------------------------------

  predicate ShouldDeadLetter(deliveries: nat, maxDeliveries: int) { deliveries > maxDeliveries }

  function CoverageGap(placed: set<string>, recent: set<string>): set<string> { placed - recent }

  predicate RefMatches(ref: string, selector: string) {
    if selector == "--all" then true
    else
      var digest := AfterFirst(ref, '@');
      selector != "" && digest.Some?
      && (digest.value == selector || LastField(digest.value, ':') == LastField(selector, ':'))
  }

  /** The string is `hex`, or ends in a colon and `hex`. */
  ghost predicate EndsIn(s: string, hex: string) {
    s == hex || (|s| > |hex| && s[|s| - |hex| - 1] == ':' && s[|s| - |hex|..] == hex)
  }

  lemma EndsInRest(s: string, i: nat, hex: string)
    requires ':' !in hex && i < |s| && s[i] == ':'
    ensures EndsIn(s, hex) <==> EndsIn(s[i + 1..], hex)
  {
    var rest := s[i + 1..];
    if |hex| <= |s| && |s| - |hex| <= i {
      assert s[|s| - |hex|..][i - (|s| - |hex|)] == ':';
    }
    if |s| - |hex| > i {
      assert s[|s| - |hex|..] == rest[|rest| - |hex|..];
    }
  }

  lemma {:induction false} LastFieldIff(s: string, hex: string)
    requires ':' !in hex
    ensures LastField(s, ':') == hex <==> EndsIn(s, hex)
    decreases |s|
  {
    hide EndsIn;
    var i := IndexOf(s, ':');
    if i < |s| {
      LastFieldIff(s[i + 1..], hex);
      EndsInRest(s, i, hex);
    } else {
      NoColonEnds(s, hex);
    }
  }

  lemma NoColonEnds(s: string, hex: string)
    requires ':' !in s
    ensures EndsIn(s, hex) <==> s == hex
  {
    if |s| > |hex| {
      assert s[|s| - |hex| - 1] in s;
    }
  }

  /**
   Which selectors match a reference: `--all`; the digest; its hexadecimal part alone; and that
   part after any other algorithm's name. The empty selector matches nothing.
   */
  lemma RefMatchesIff(name: string, digest: string, hex: string, selector: string)
    requires '@' !in name && ':' !in hex && EndsIn(digest, hex)
    ensures RefMatches(name + "@" + digest, selector) <==>
              selector == "--all" || (selector != "" && EndsIn(selector, hex))
  {
    hide EndsIn;
    var ref := name + "@" + digest;
    IndexAt(name, digest, '@');
    assert ref[|name| + 1..] == digest;
    LastFieldIff(digest, hex);
    LastFieldIff(selector, hex);
  }

  /** A reference without a digest is matched by `--all` alone. */
  lemma OnlyAllMatches(ref: string, selector: string)
    requires '@' !in ref
    ensures RefMatches(ref, selector) <==> selector == "--all"
  {
  }

  // ---- trimming ---------------------------------------------------------------------------------------------------

  /** The entry is still needed: unread, or delivered and not acknowledged. */
  ghost predicate Needed(b: Broker, id: Id) {
    Lt(b.lastDelivered, id) || exists p | p in b.pel :: p.id == id
  }

  /** Where to cut when nothing is pending; nothing was delivered yet at zero. */
  function FloorWhenIdle(lastDelivered: Id, lastGenerated: Id): Option<Id> {
    if lastDelivered == ZERO then None
    else if lastDelivered == lastGenerated then Some(Id(lastDelivered.ms + 1, 0))
    else Some(lastDelivered)
  }

  function Floor(b: Broker): Option<Id> {
    if b.pel != [] then Some(b.pel[0].id) else FloorWhenIdle(b.lastDelivered, b.lastGenerated)
  }

  function TrimMinid(b: Broker): (r: Broker)
    requires Valid(b)
    ensures Valid(r)
  {
    var floor := Floor(b);
    if floor.None? then b else Xtrim(b, floor.value)
  }

  /** Trimming reclaims only what is neither unread nor pending, same-millisecond entries included. */
  lemma TrimKeepsNeeded(b: Broker, e: Entry)
    requires Valid(b) && e in b.work && Needed(b, e.id)
    ensures e in TrimMinid(b).work
  {
    if b.pel != [] {
      assert b.pel[0] in b.pel;
      if p :| p in b.pel && p.id == e.id {
        var i :| 0 <= i < |b.pel| && b.pel[i] == p;
        assert i == 0 || Lt(PendingId(b.pel[0]), PendingId(b.pel[i]));
      }
    }
  }

  /** When every entry is delivered and acknowledged, all of them are reclaimed. */
  lemma TrimReclaimsAll(b: Broker)
    requires Valid(b) && b.pel == [] && b.lastDelivered == b.lastGenerated && b.lastDelivered != ZERO
    ensures TrimMinid(b).work == []
  {
    assert forall e | e in b.work :: !Le(Id(b.lastDelivered.ms + 1, 0), e.id);
    NoneLeft(TrimMinid(b).work);
  }

  lemma NoneLeft(s: seq<Entry>)
    ensures (forall e :: e !in s) ==> s == []
  {
    assert s == [] || s[0] in s;
  }

  /** Cutting at `min` loses nothing exactly when every needed entry lies at or after it. */
  lemma CutIsSafeIff(b: Broker, min: Id)
    requires Valid(b)
    ensures (forall e | e in b.work && Needed(b, e.id) :: e in Xtrim(b, min).work)
            <==> (forall e | e in b.work && Needed(b, e.id) :: Le(min, e.id))
  {
  }

  // ---- the adapter's operations, command by command -----------------------------------------------------------------

  function EnqueueOne(b: Broker, ref: string, now: nat): (r: Broker)
    requires Valid(b)
    ensures Valid(r)
  {
    var added := Xadd(b, ref, now);
    var digest := AfterFirst(ref, '@');
    if digest.Some? then Sadd(added, digest.value) else added
  }

  function Enqueue(b: Broker, refs: seq<string>, now: nat): (r: Broker)
    requires Valid(b)
    ensures Valid(r)
    decreases |refs|
  {
    if refs == [] then b else Enqueue(EnqueueOne(b, refs[0], now), refs[1..], now)
  }

  function Ack(b: Broker, token: Id, digest: string, epoch: int): (r: Broker)
    requires Valid(b)
    ensures Valid(r)
  {
    TrimMinid(Xack(Zadd(b, digest, epoch), token))
  }

  function DeadLetterNoTrim(b: Broker, token: Id, ref: string, note: string, now: nat): (r: Broker)
    requires Valid(b)
    ensures Valid(r)
  {
    Xack(XaddDead(b, ref, note, now), token)
  }

  function DeadLetter(b: Broker, token: Id, ref: string, note: string, now: nat): (r: Broker)
    requires Valid(b)
    ensures Valid(r)
  {
    TrimMinid(DeadLetterNoTrim(b, token, ref, note, now))
  }

  const MAX_RETRIES := "max retries"

  function TimesDelivered(b: Broker, id: Id): nat {
    var d := Deliveries(b.pel, id);
    if d.Some? then d.value else 1
  }

  /** The claimed entries, in order: those delivered too often go to the dead stream. */
  function Retire(b: Broker, claimed: seq<Entry>, maxDeliveries: int, now: nat): (r: Broker)
    requires Valid(b)
    ensures Valid(r)
    decreases |claimed|
  {
    if claimed == [] then b
    else
      var e := claimed[0];
      var b1 := if ShouldDeadLetter(TimesDelivered(b, e.id), maxDeliveries)
                then DeadLetterNoTrim(b, e.id, e.ref, MAX_RETRIES, now) else b;
      Retire(b1, claimed[1..], maxDeliveries, now)
  }

  /** How many pending entries a scan from `cursor` still has before it. */
  function Ahead(pel: seq<Pending>, cursor: Id): (n: nat)
    ensures n <= |pel|
  {
    if pel == [] then 0 else (if Lt(pel[0].id, cursor) then 0 else 1) + Ahead(pel[1..], cursor)
  }

  /** The claim loop from a cursor; it ends, since every scan leaves fewer entries ahead. */
  function ReapFrom(b: Broker, cursor: Id, idle: Id -> bool, maxDeliveries: int, now: nat): (x: (Broker, seq<Id>))
    requires Valid(b)
    ensures Valid(x.0)
    decreases Ahead(b.pel, cursor)
  {
    var (b1, next, msgs) := Xautoclaim(b, cursor, idle);
    var b2 := Retire(b1, msgs, maxDeliveries, now);
    if next == ZERO then (b2, Tokens(msgs))
    else
      ScanLeavesFewer(b, cursor, idle, maxDeliveries, now);
      var (b3, more) := ReapFrom(b2, next, idle, maxDeliveries, now);
      (b3, Tokens(msgs) + more)
  }

  function Tokens(es: seq<Entry>): (r: seq<Id>)
    ensures |r| == |es| && forall i | 0 <= i < |r| :: r[i] == es[i].id
  {
    seq(|es|, i requires 0 <= i < |es| => es[i].id)
  }

  function Reaper(b: Broker, idle: Id -> bool, maxDeliveries: int, now: nat): (x: (Broker, seq<Id>))
    requires Valid(b)
    ensures Valid(x.0)
  {
    var (r, claimed) := ReapFrom(b, ZERO, idle, maxDeliveries, now);
    (TrimMinid(r), claimed)
  }

  function Replay(b: Broker, listed: seq<Entry>, selector: string, now: nat): (x: (Broker, nat))
    requires Valid(b)
    ensures Valid(x.0)
    decreases |listed|
  {
    if listed == [] then (b, 0)
    else if !RefMatches(listed[0].ref, selector) then Replay(b, listed[1..], selector, now)
    else
      var (r, n) := Replay(XdelDead(Xadd(b, listed[0].ref, now), listed[0].id), listed[1..], selector, now);
      (r, n + 1)
  }

  function Drop(b: Broker, listed: seq<Entry>, selector: string): (x: (Broker, nat))
    requires Valid(b)
    ensures Valid(x.0)
    decreases |listed|
  {
    if listed == [] then (b, 0)
    else if !RefMatches(listed[0].ref, selector) then Drop(b, listed[1..], selector)
    else
      var (r, n) := Drop(XdelDead(b, listed[0].id), listed[1..], selector);
      (r, n + 1)
  }

  // ---- what the operations do to the streams ------------------------------------------------------------------------

  /** Enqueuing appends one entry per reference, in order, under new ids, and touches nothing delivered or dead. */
  lemma {:induction false} EnqueueAppends(b: Broker, refs: seq<string>, now: nat)
    requires Valid(b)
    ensures var r, k := Enqueue(b, refs, now), |b.work|;
            && |r.work| == k + |refs| && r.work[..k] == b.work
            && (forall i | 0 <= i < |refs| :: r.work[k + i].ref == refs[i] && Lt(b.lastGenerated, r.work[k + i].id))
            && (forall d :: d in r.placed <==>
                d in b.placed || exists i :: 0 <= i < |refs| && AfterFirst(refs[i], '@') == Some(d))
            && r.pel == b.pel && r.lastDelivered == b.lastDelivered && r.dead == b.dead && r.confirmed == b.confirmed
    decreases |refs|
  {
    hide Valid, AfterFirst;
    if refs != [] {
      var one, k := EnqueueOne(b, refs[0], now), |b.work|;
      var r := Enqueue(b, refs, now);
      EnqueueAppends(one, refs[1..], now);
      assert one.work == b.work + [one.work[k]] && one.work[k].ref == refs[0];
      assert r.work[..k] == r.work[..k + 1][..k];
      assert r.work[k] == r.work[..k + 1][k];
      forall i | 0 < i < |refs| ensures r.work[k + i].ref == refs[i] && Lt(b.lastGenerated, r.work[k + i].id) {
        assert refs[1..][i - 1] == refs[i];
      }
      forall d
        ensures d in r.placed <==> d in b.placed || exists i :: 0 <= i < |refs| && AfterFirst(refs[i], '@') == Some(d)
      {
        EitherFirstOrLater(refs, d);
      }
    }
  }

  ghost predicate NamedBy(refs: seq<string>, d: string) {
    exists i :: 0 <= i < |refs| && AfterFirst(refs[i], '@') == Some(d)
  }

  lemma EitherFirstOrLater(refs: seq<string>, d: string)
    requires refs != []
    ensures NamedBy(refs, d) <==> AfterFirst(refs[0], '@') == Some(d) || NamedBy(refs[1..], d)
  {
    hide AfterFirst;
    if NamedBy(refs[1..], d) {
      var i :| 0 <= i < |refs[1..]| && AfterFirst(refs[1..][i], '@') == Some(d);
      assert refs[i + 1] == refs[1..][i];
    }
    if NamedBy(refs, d) {
      var i :| 0 <= i < |refs| && AfterFirst(refs[i], '@') == Some(d);
      assert i == 0 || refs[1..][i - 1] == refs[i];
    }
  }

  ghost predicate Matched(listed: seq<Entry>, selector: string, id: Id) {
    exists l | l in listed :: l.id == id && RefMatches(l.ref, selector)
  }

  /** The work stream gained these references, in order, at its end. */
  ghost predicate Appended(before: seq<Entry>, after: seq<Entry>, from: seq<Entry>) {
    && |after| == |before| + |from| && after[..|before|] == before
    && forall i | 0 <= i < |from| :: after[|before| + i].ref == from[i].ref
  }

  lemma AppendedOneMore(before: seq<Entry>, e: Entry, after: seq<Entry>, l: Entry, from: seq<Entry>)
    requires e.ref == l.ref && Appended(before + [e], after, from)
    ensures Appended(before, after, [l] + from)
  {
    var k := |before|;
    assert after[..k] == after[..k + 1][..k];
    assert after[k] == after[..k + 1][k];
  }

  /**
   Replaying takes the matching entries off the dead stream and appends their references to the
   work stream, in order.
   */
  lemma {:induction false} ReplayMoves(b: Broker, listed: seq<Entry>, selector: string, now: nat)
    requires Valid(b)
    ensures var (r, n) := Replay(b, listed, selector, now);
            var matching := Where(listed, (l: Entry) => RefMatches(l.ref, selector));
            && n == |matching|
            && (forall d :: d in r.dead <==> d in b.dead && !Matched(listed, selector, d.id))
            && Appended(b.work, r.work, matching)
            && r.pel == b.pel && r.lastDelivered == b.lastDelivered && r.confirmed == b.confirmed
    decreases |listed|
  {
    hide Valid, RefMatches, Appended;
    if listed == [] {
      assert Appended(b.work, b.work, []) by { NothingAppended(b.work); }
    } else {
      var l := listed[0];
      assert listed == [l] + listed[1..];
      if RefMatches(l.ref, selector) {
        var c := XdelDead(Xadd(b, l.ref, now), l.id);
        ReplayMoves(c, listed[1..], selector, now);
        AppendedOneMore(b.work, Entry(c.lastGenerated, l.ref, ""), Replay(b, listed, selector, now).0.work, l,
                        Where(listed[1..], (m: Entry) => RefMatches(m.ref, selector)));
      } else {
        var rest := Where(listed[1..], (m: Entry) => RefMatches(m.ref, selector));
        ReplayMoves(b, listed[1..], selector, now);
        assert [] + rest == rest;
      }
    }
  }

  lemma NothingAppended(s: seq<Entry>)
    ensures Appended(s, s, [])
  {
  }

  /** Dropping takes the matching entries off the dead stream and does nothing else. */
  lemma {:induction false} DropRemoves(b: Broker, listed: seq<Entry>, selector: string)
    requires Valid(b)
    ensures var (r, n) := Drop(b, listed, selector);
            && n == |Where(listed, (l: Entry) => RefMatches(l.ref, selector))|
            && (forall d :: d in r.dead <==> d in b.dead && !Matched(listed, selector, d.id))
            && r == b.(dead := r.dead)
    decreases |listed|
  {
    hide Valid, RefMatches;
    if listed != [] {
      var l := listed[0];
      assert listed == [l] + listed[1..];
      DropRemoves(if RefMatches(l.ref, selector) then XdelDead(b, l.id) else b, listed[1..], selector);
    }
  }

  // ---- the claim loop ends ------------------------------------------------------------------------------------------

  lemma {:induction false} RetireShrinks(b: Broker, claimed: seq<Entry>, maxDeliveries: int, now: nat, cursor: Id)
    requires Valid(b)
    ensures Ahead(Retire(b, claimed, maxDeliveries, now).pel, cursor) <= Ahead(b.pel, cursor)
    decreases |claimed|
  {
    if claimed != [] {
      var e := claimed[0];
      var b1 := if ShouldDeadLetter(TimesDelivered(b, e.id), maxDeliveries)
                then DeadLetterNoTrim(b, e.id, e.ref, MAX_RETRIES, now) else b;
      WhereAhead(b.pel, (p: Pending) => p.id != e.id, cursor);
      RetireShrinks(b1, claimed[1..], maxDeliveries, now, cursor);
    }
  }

  lemma {:induction false} WhereAhead(pel: seq<Pending>, keep: Pending -> bool, cursor: Id)
    ensures Ahead(Where(pel, keep), cursor) <= Ahead(pel, cursor)
  {
    if pel != [] {
      WhereAhead(pel[1..], keep, cursor);
      var rest := Where(pel[1..], keep);
      assert ([pel[0]] + rest)[1..] == rest;
      assert [] + rest == rest;
    }
  }

  lemma {:induction false} AheadConcat(a: seq<Pending>, c: seq<Pending>, cursor: Id)
    ensures Ahead(a + c, cursor) == Ahead(a, cursor) + Ahead(c, cursor)
  {
    if a == [] {
      assert a + c == c;
    } else {
      assert (a + c)[1..] == a[1..] + c;
      AheadConcat(a[1..], c, cursor);
    }
  }

  lemma {:induction false} NoneAhead(pel: seq<Pending>, cursor: Id)
    requires forall p | p in pel :: Lt(p.id, cursor)
    ensures Ahead(pel, cursor) == 0
  {
    if pel != [] {
      assert pel[0] in pel;
      NoneAhead(pel[1..], cursor);
    }
  }

  lemma {:induction false} AllAhead(pel: seq<Pending>, cursor: Id)
    requires Ascending(pel, PendingId) && (pel != [] ==> !Lt(pel[0].id, cursor))
    ensures Ahead(pel, cursor) == |pel|
  {
    if pel != [] {
      if pel[1..] != [] {
        assert Lt(PendingId(pel[0]), PendingId(pel[1]));
      }
      assert Ascending(pel[1..], PendingId);
      AllAhead(pel[1..], cursor);
    }
  }

  /** The first entry is dropped, kept or claimed, and the scan goes on behind it. */
  lemma ScanHead(pel: seq<Pending>, work: seq<Entry>, idle: Id -> bool, count: nat, attempts: nat)
    returns (head: seq<Pending>, c: nat)
    requires pel != [] && count > 0 && attempts > 0
    ensures forall q | q in head :: q.id == pel[0].id
    ensures var s, rest := ScanPending(pel, work, idle, count, attempts),
            ScanPending(pel[1..], work, idle, c, attempts - 1);
            s.next == rest.next && s.pel == head + rest.pel
  {
    var p, found := pel[0], At(work, pel[0].id);
    c := if found.Some? && !idle(p.id) then count else count - 1;
    head := if found.None? then [] else if !idle(p.id) then [p] else [Pending(p.id, p.deliveries + 1)];
  }

  /** A scan that stops early looked at a non-empty prefix; the rest is untouched and starts at the cursor. */
  lemma {:induction false} ScanSplits(pel: seq<Pending>, work: seq<Entry>, idle: Id -> bool, count: nat, attempts: nat)
    returns (k: nat)
    requires Ascending(pel, PendingId)
    requires ScanPending(pel, work, idle, count, attempts).next.Some?
    ensures k < |pel| && (count > 0 && attempts > 0 ==> k > 0)
    ensures var s := ScanPending(pel, work, idle, count, attempts);
            && s.next == Some(pel[k].id)
            && exists front :: s.pel == front + pel[k..] && forall p | p in front :: Lt(p.id, pel[k].id)
  {
    hide Lt;
    var s := ScanPending(pel, work, idle, count, attempts);
    if count == 0 || attempts == 0 {
      k := 0;
      assert s.pel == [] + pel[0..];
    } else {
      assert Ascending(pel[1..], PendingId);
      var head, c := ScanHead(pel, work, idle, count, attempts);
      var rest := ScanPending(pel[1..], work, idle, c, attempts - 1);
      hide ScanPending;
      var j := ScanSplits(pel[1..], work, idle, c, attempts - 1);
      k := j + 1;
      var front :| rest.pel == front + pel[1..][j..] && forall q | q in front :: Lt(q.id, pel[1..][j].id);
      assert pel[1..][j..] == pel[k..] && Lt(PendingId(pel[0]), PendingId(pel[k]));
      assert s.pel == (head + front) + pel[k..];
    }
  }

  lemma FrontIsBefore(pel: seq<Pending>, k: nat, j: nat, front: seq<Pending>)
    requires Ascending(pel, PendingId) && k + j < |pel| && forall p | p in front :: Lt(p.id, pel[k + j].id)
    ensures forall p | p in pel[..k] + front :: Lt(p.id, pel[k + j].id)
  {
    forall p | p in pel[..k] ensures Lt(p.id, pel[k + j].id) {
      var i :| 0 <= i < k && pel[i] == p;
      assert Lt(PendingId(pel[i]), PendingId(pel[k + j]));
    }
  }

  lemma ValidPel(b: Broker)
    requires Valid(b)
    ensures Ascending(b.pel, PendingId)
  {
  }

  lemma TailAscends(pel: seq<Pending>, k: nat)
    requires Ascending(pel, PendingId) && k <= |pel|
    ensures Ascending(pel[k..], PendingId)
  {
  }

  /** What the scan leaves is a part before the cursor and an untouched part from it on. */
  lemma ClaimSplits(b: Broker, cursor: Id, idle: Id -> bool) returns (k: nat, n: nat, front: seq<Pending>)
    requires Valid(b) && Xautoclaim(b, cursor, idle).1 != ZERO
    ensures k == Position(b.pel, cursor) && k < n < |b.pel|
    ensures Xautoclaim(b, cursor, idle).1 == b.pel[n].id
    ensures Xautoclaim(b, cursor, idle).0.pel == front + b.pel[n..]
    ensures forall p | p in front :: Lt(p.id, b.pel[n].id)
  {
    hide ScanPending, Valid, Ascending, Lt, Le;
    ValidPel(b);
    k := Position(b.pel, cursor);
    var tail := b.pel[k..];
    TailAscends(b.pel, k);
    var s := ScanPending(tail, b.work, idle, CLAIM_COUNT, CLAIM_ATTEMPTS);
    var j := ScanSplits(tail, b.work, idle, CLAIM_COUNT, CLAIM_ATTEMPTS);
    var mid :| s.pel == mid + tail[j..] && forall p | p in mid :: Lt(p.id, tail[j].id);
    n := k + j;
    assert tail[j..] == b.pel[n..] && tail[j] == b.pel[n];
    FrontIsBefore(b.pel, k, j, mid);
    front := b.pel[..k] + mid;
    assert b.pel[..k] + s.pel == front + b.pel[n..];
  }

  lemma ClaimLeavesFewer(b: Broker, cursor: Id, idle: Id -> bool)
    requires Valid(b) && Xautoclaim(b, cursor, idle).1 != ZERO
    ensures Ahead(Xautoclaim(b, cursor, idle).0.pel, Xautoclaim(b, cursor, idle).1) < Ahead(b.pel, cursor)
  {
    hide Xautoclaim, Ahead;
    var k, n, front := ClaimSplits(b, cursor, idle);
    var next := b.pel[n].id;
    assert b.pel == b.pel[..k] + b.pel[k..];
    AheadConcat(b.pel[..k], b.pel[k..], cursor);
    assert Ascending(b.pel[k..], PendingId);
    AllAhead(b.pel[k..], cursor);
    AheadConcat(front, b.pel[n..], next);
    NoneAhead(front, next);
    assert Ahead(b.pel[n..], next) <= |b.pel[n..]|;
  }

  lemma ScanLeavesFewer(b: Broker, cursor: Id, idle: Id -> bool, maxDeliveries: int, now: nat)
    requires Valid(b) && Xautoclaim(b, cursor, idle).1 != ZERO
    ensures var (b1, next, msgs) := Xautoclaim(b, cursor, idle);
            Ahead(Retire(b1, msgs, maxDeliveries, now).pel, next) < Ahead(b.pel, cursor)
  {
    hide Xautoclaim;
    var (b1, next, msgs) := Xautoclaim(b, cursor, idle);
    ClaimLeavesFewer(b, cursor, idle);
    RetireShrinks(b1, msgs, maxDeliveries, now, next);
  }

  // ---- the methods --------------------------------------------------------------------------------------------------

  datatype Reservation = Reservation(token: Id, ref: string)

  datatype FailureKind = Transient | Permanent

  /** What scanning and attaching came to; no report yet counts as neither. */
  datatype ScanResult = Attested(digest: string, epoch: int) | NoReportYet | Failed(kind: FailureKind, action: string)

  class RedisStreamsAdapter {
    var broker: Broker

    constructor (shared: Broker)
      requires Valid(shared)
      ensures Valid(broker) && broker == shared
    {
      broker := shared;
    }

    method EnqueueRefs(refs: seq<string>, now: nat)
      requires Valid(broker)
      modifies this
      ensures Valid(broker) && broker == Enqueue(old(broker), refs, now)
    {
      assert refs[0..] == refs;
      for i := 0 to |refs|
        invariant Valid(broker) && Enqueue(broker, refs[i..], now) == Enqueue(old(broker), refs, now)
      {
        assert refs[i..][1..] == refs[i + 1..];
        broker := Xadd(broker, refs[i], now);
        var digest := AfterFirst(refs[i], '@');
        if digest.Some? {
          broker := Sadd(broker, digest.value);
        }
      }
    }

    method Reserve() returns (r: Option<Reservation>)
      requires Valid(broker)
      modifies this
      ensures Valid(broker) && broker == Xreadgroup(old(broker)).0
      ensures var e := After(old(broker).work, old(broker).lastDelivered);
              r == if e.None? then None else Some(Reservation(e.value.id, e.value.ref))
    {
      var (b, e) := Xreadgroup(broker);
      broker := b;
      r := if e.None? then None else Some(Reservation(e.value.id, e.value.ref));
    }

    method Trim()
      requires Valid(broker)
      modifies this
      ensures Valid(broker) && broker == TrimMinid(old(broker))
    {
      if broker.pel != [] {
        broker := Xtrim(broker, broker.pel[0].id);
        return;
      }
      if broker.lastDelivered == ZERO {
        return;
      }
      if broker.lastDelivered == broker.lastGenerated {
        broker := Xtrim(broker, Id(broker.lastDelivered.ms + 1, 0));
      } else {
        broker := Xtrim(broker, broker.lastDelivered);
      }
    }

    method Acknowledge(res: Reservation, digest: string, epoch: int)
      requires Valid(broker)
      modifies this
      ensures Valid(broker) && broker == Ack(old(broker), res.token, digest, epoch)
    {
      broker := Zadd(broker, digest, epoch);
      broker := Xack(broker, res.token);
      Trim();
    }

    method SendToDead(res: Reservation, ref: string, note: string, now: nat)
      requires Valid(broker)
      modifies this
      ensures Valid(broker) && broker == DeadLetter(old(broker), res.token, ref, note, now)
    {
      broker := XaddDead(broker, ref, note, now);
      broker := Xack(broker, res.token);
      Trim();
    }

    method RetireClaimed(claimed: seq<Entry>, maxDeliveries: int, now: nat)
      requires Valid(broker)
      modifies this
      ensures Valid(broker) && broker == Retire(old(broker), claimed, maxDeliveries, now)
    {
      assert claimed[0..] == claimed;
      for i := 0 to |claimed|
        invariant Valid(broker) &&
                    Retire(broker, claimed[i..], maxDeliveries, now) == Retire(old(broker), claimed, maxDeliveries, now)
      {
        assert claimed[i..][1..] == claimed[i + 1..];
        var e := claimed[i];
        var delivered := TimesDelivered(broker, e.id);
        if ShouldDeadLetter(delivered, maxDeliveries) {
          broker := XaddDead(broker, e.ref, MAX_RETRIES, now);
          broker := Xack(broker, e.id);
        }
      }
    }

    method Reap(idle: Id -> bool, maxDeliveries: int, now: nat) returns (claimed: seq<Id>)
      requires Valid(broker)
      modifies this
      ensures Valid(broker) && (broker, claimed) == Reaper(old(broker), idle, maxDeliveries, now)
    {
      hide Xautoclaim, Valid, Retire, Ahead, Floor, Xtrim;
      claimed := [];
      var cursor := ZERO;
      var over := false;
      ghost var whole := ReapFrom(broker, ZERO, idle, maxDeliveries, now);
      assert [] + whole.1 == whole.1;
      while !over
        invariant Valid(broker)
        invariant if over then whole == (broker, claimed)
                  else var (b, more) := ReapFrom(broker, cursor, idle, maxDeliveries, now); whole == (b, claimed + more)
        decreases !over, Ahead(broker.pel, cursor)
      {
        ghost var before, at, more := broker, cursor, ReapFrom(broker, cursor, idle, maxDeliveries, now).1;
        var (b, next, msgs) := Xautoclaim(broker, cursor, idle);
        broker := b;
        RetireClaimed(msgs, maxDeliveries, now);
        over := next == ZERO;
        if !over {
          ScanLeavesFewer(before, at, idle, maxDeliveries, now);
          ghost var rest := ReapFrom(broker, next, idle, maxDeliveries, now).1;
          assert claimed + (Tokens(msgs) + rest) == claimed + Tokens(msgs) + rest;
        }
        claimed := claimed + Tokens(msgs);
        cursor := next;
      }
      Trim();
    }

    /** The anchor: what was placed and not confirmed within the window. */
    method CoverageCheck(placed: set<string>, maxAge: int, now: int) returns (gap: set<string>)
      ensures forall d :: d in gap <==>
                d in placed && !(d in broker.confirmed && now - maxAge <= broker.confirmed[d] <= now)
    {
      var recent := set d | d in broker.confirmed && now - maxAge <= broker.confirmed[d] <= now;
      gap := CoverageGap(placed, recent);
    }

    method DlqReplay(selector: string, now: nat) returns (moved: nat)
      requires Valid(broker)
      modifies this
      ensures Valid(broker) && (broker, moved) == Replay(old(broker), old(broker).dead, selector, now)
    {
      hide RefMatches, Xadd, XdelDead, Valid;
      moved := 0;
      var listed := broker.dead;
      ghost var whole := Replay(broker, listed, selector, now);
      assert listed[0..] == listed;
      for i := 0 to |listed|
        invariant Valid(broker)
        invariant var (b, n) := Replay(broker, listed[i..], selector, now); whole == (b, moved + n)
      {
        assert listed[i..][1..] == listed[i + 1..];
        if RefMatches(listed[i].ref, selector) {
          broker := Xadd(broker, listed[i].ref, now);
          broker := XdelDead(broker, listed[i].id);
          moved := moved + 1;
        }
      }
    }

    method DlqDrop(selector: string) returns (dropped: nat)
      requires Valid(broker)
      modifies this
      ensures Valid(broker) && (broker, dropped) == Drop(old(broker), old(broker).dead, selector)
    {
      hide RefMatches, XdelDead, Valid;
      dropped := 0;
      var listed := broker.dead;
      ghost var whole := Drop(broker, listed, selector);
      assert listed[0..] == listed;
      for i := 0 to |listed|
        invariant Valid(broker)
        invariant var (b, n) := Drop(broker, listed[i..], selector); whole == (b, dropped + n)
      {
        assert listed[i..][1..] == listed[i + 1..];
        if RefMatches(listed[i].ref, selector) {
          broker := XdelDead(broker, listed[i].id);
          dropped := dropped + 1;
        }
      }
    }

    /** Success acknowledges, a permanent failure dead-letters, anything else leaves the entry pending. */
    method HandleReservation(res: Reservation, result: ScanResult, now: nat)
      requires Valid(broker)
      modifies this
      ensures Valid(broker)
      ensures broker == match result
                        case Attested(digest, epoch) => Ack(old(broker), res.token, digest, epoch)
                        case NoReportYet => old(broker)
                        case Failed(kind, action) =>
                          if kind == Permanent then DeadLetter(old(broker), res.token, res.ref, action, now)
                              else old(broker)
    {
      match result
      case Attested(digest, epoch) => Acknowledge(res, digest, epoch);
      case NoReportYet =>
      case Failed(kind, action) =>
        if kind == Permanent {
          SendToDead(res, res.ref, action, now);
        }
    }
  }
}
