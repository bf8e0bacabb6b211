/**
 The Redis Streams commands knock's scan queue uses, on one work stream with one consumer
 group, one dead stream, the confirmed sorted set and the placed set. Each function is one
 command: atomic for every client of the broker.
 */
module Redis {
  import opened Wrappers

  /** A stream id: milliseconds and a sequence number, compared in that order. */
  datatype Id = Id(ms: nat, seqno: nat)

  const ZERO := Id(0, 0)

  predicate Lt(a: Id, b: Id) { a.ms < b.ms || (a.ms == b.ms && a.seqno < b.seqno) }

  predicate Le(a: Id, b: Id) { a == b || Lt(a, b) }

  /** The id XADD generates: the clock, unless it is behind the last id. */
  function NextId(last: Id, now: nat): (id: Id)
    ensures Lt(last, id)
  {
    if now > last.ms then Id(now, 0) else Id(last.ms, last.seqno + 1)
  }

  datatype Entry = Entry(id: Id, ref: string, note: string)

  /** A delivered entry not acknowledged yet, and how often it was delivered. */
  datatype Pending = Pending(id: Id, deliveries: nat)

  datatype Broker = Broker(
    work: seq<Entry>,
    lastGenerated: Id,
    lastDelivered: Id,
    pel: seq<Pending>,
    dead: seq<Entry>,
    lastDead: Id,
    confirmed: map<string, int>,
    placed: set<string>)

  function EntryId(e: Entry): Id { e.id }

  function PendingId(p: Pending): Id { p.id }

  ghost predicate Ascending<T>(s: seq<T>, id: T -> Id) {
    forall i, j | 0 <= i < j < |s| :: Lt(id(s[i]), id(s[j]))
  }

  /** What the broker itself maintains. */
  ghost predicate Valid(b: Broker) {
    && Ascending(b.work, EntryId) && Ascending(b.dead, EntryId) && Ascending(b.pel, PendingId)
    && (forall e | e in b.work :: Lt(ZERO, e.id) && Le(e.id, b.lastGenerated))
    && (forall e | e in b.dead :: Le(e.id, b.lastDead))
    && (forall p | p in b.pel :: Lt(ZERO, p.id) && Le(p.id, b.lastDelivered))
    && Le(b.lastDelivered, b.lastGenerated)
  }

  const EMPTY := Broker([], ZERO, ZERO, [], [], ZERO, map[], {})

  // ---- searching ---------------------------------------------------------------------------------------------

  function Where<T(!new)>(s: seq<T>, keep: T -> bool): (r: seq<T>)
    ensures forall x :: x in r <==> x in s && keep(x)
    ensures |r| <= |s|
  {
    if s == [] then []
    else
      assert s == [s[0]] + s[1..];
      (if keep(s[0]) then [s[0]] else []) + Where(s[1..], keep)
  }

  lemma {:induction false} WhereAscends<T(!new)>(s: seq<T>, keep: T -> bool, id: T -> Id)
    requires Ascending(s, id)
    ensures Ascending(Where(s, keep), id)
  {
    if s != [] {
      assert Ascending(s[1..], id);
      WhereAscends(s[1..], keep, id);
      forall x | x in Where(s[1..], keep) ensures Lt(id(s[0]), id(x)) {
        var i :| 0 <= i < |s[1..]| && s[1..][i] == x;
        assert s[i + 1] == x;
      }
    }
  }

  lemma AppendAscends<T>(s: seq<T>, x: T, id: T -> Id)
    requires Ascending(s, id) && forall y | y in s :: Lt(id(y), id(x))
    ensures Ascending(s + [x], id)
  {
  }

  lemma SameIdSameItem<T>(s: seq<T>, id: T -> Id, x: T, y: T)
    requires Ascending(s, id) && x in s && y in s && id(x) == id(y)
    ensures x == y
  {
  }

  /** The first entry after an id. */
  function After(s: seq<Entry>, at: Id): (r: Option<Entry>)
    ensures r.Some? ==> r.value in s && Lt(at, r.value.id)
    ensures r.None? ==> forall e | e in s :: !Lt(at, e.id)
  {
    if s == [] then None
    else
      assert s == [s[0]] + s[1..];
      if Lt(at, s[0].id) then Some(s[0]) else After(s[1..], at)
  }

  lemma {:induction false} AfterIsFirst(s: seq<Entry>, at: Id)
    requires Ascending(s, EntryId)
    ensures After(s, at).Some? ==> forall e | e in s && Lt(at, e.id) :: Le(After(s, at).value.id, e.id)
  {
    if s != [] {
      assert s == [s[0]] + s[1..];
      assert Ascending(s[1..], EntryId);
      AfterIsFirst(s[1..], at);
      forall e | e in s[1..] ensures Lt(EntryId(s[0]), EntryId(e)) {
        var i :| 0 <= i < |s[1..]| && s[1..][i] == e;
        assert s[i + 1] == e;
      }
    }
  }

  function At(s: seq<Entry>, id: Id): (r: Option<Entry>)
    ensures r.Some? ==> r.value in s && r.value.id == id
    ensures r.None? ==> forall e | e in s :: e.id != id
  {
    if s == [] then None
    else
      assert s == [s[0]] + s[1..];
      if s[0].id == id then Some(s[0]) else At(s[1..], id)
  }

  function Deliveries(pel: seq<Pending>, id: Id): (r: Option<nat>)
    ensures r.Some? ==> Pending(id, r.value) in pel
    ensures r.None? ==> forall p | p in pel :: p.id != id
  {
    if pel == [] then None
    else
      assert pel == [pel[0]] + pel[1..];
      if pel[0].id == id then Some(pel[0].deliveries) else Deliveries(pel[1..], id)
  }

  // ---- commands ------------------------------------------------------------------------------------------------

  /** XADD on the work stream. */
  function Xadd(b: Broker, ref: string, now: nat): (r: Broker)
    requires Valid(b)
    ensures Valid(r)
  {
    var id := NextId(b.lastGenerated, now);
    AppendAscends(b.work, Entry(id, ref, ""), EntryId);
    b.(work := b.work + [Entry(id, ref, "")], lastGenerated := id)
  }

  /** XADD on the dead stream. */
  function XaddDead(b: Broker, ref: string, note: string, now: nat): (r: Broker)
    requires Valid(b)
    ensures Valid(r)
  {
    var id := NextId(b.lastDead, now);
    AppendAscends(b.dead, Entry(id, ref, note), EntryId);
    b.(dead := b.dead + [Entry(id, ref, note)], lastDead := id)
  }

  /** XREADGROUP > COUNT 1: deliver the next unread entry. */
  function Xreadgroup(b: Broker): (x: (Broker, Option<Entry>))
    requires Valid(b)
    ensures Valid(x.0)
    ensures x.1 == After(b.work, b.lastDelivered)
  {
    var next := After(b.work, b.lastDelivered);
    if next.None? then (b, None)
    else
      AppendAscends(b.pel, Pending(next.value.id, 1), PendingId);
      (b.(lastDelivered := next.value.id, pel := b.pel + [Pending(next.value.id, 1)]), next)
  }

  function Xack(b: Broker, id: Id): (r: Broker)
    requires Valid(b)
    ensures Valid(r)
  {
    WhereAscends(b.pel, (p: Pending) => p.id != id, PendingId);
    b.(pel := Where(b.pel, (p: Pending) => p.id != id))
  }

  /** XTRIM MINID: keep the entries whose id is at least `min`. */
  function Xtrim(b: Broker, min: Id): (r: Broker)
    requires Valid(b)
    ensures Valid(r)
  {
    WhereAscends(b.work, (e: Entry) => Le(min, e.id), EntryId);
    b.(work := Where(b.work, (e: Entry) => Le(min, e.id)))
  }

  function XdelDead(b: Broker, id: Id): (r: Broker)
    requires Valid(b)
    ensures Valid(r)
  {
    WhereAscends(b.dead, (e: Entry) => e.id != id, EntryId);
    b.(dead := Where(b.dead, (e: Entry) => e.id != id))
  }

  function Zadd(b: Broker, digest: string, score: int): (r: Broker)
    requires Valid(b)
    ensures Valid(r)
  {
    b.(confirmed := b.confirmed[digest := score])
  }

  function Sadd(b: Broker, digest: string): (r: Broker)
    requires Valid(b)
    ensures Valid(r)
  {
    b.(placed := b.placed + {digest})
  }

  // ---- XAUTOCLAIM ------------------------------------------------------------------------------------------------

  const CLAIM_COUNT: nat := 50

  /** The broker looks at ten times as many pending entries as it may return. */
  const CLAIM_ATTEMPTS: nat := 500

  datatype Scan = Scan(pel: seq<Pending>, claimed: seq<Entry>, next: Option<Id>)

  /** Claim what is idle, forget what is no longer in the stream, and say where to go on. */
  function ScanPending(pel: seq<Pending>, work: seq<Entry>, idle: Id -> bool, count: nat, attempts: nat): (r: Scan)
    ensures forall e | e in r.claimed :: e in work
  {
    if pel == [] then Scan([], [], None)
    else if count == 0 || attempts == 0 then Scan(pel, [], Some(pel[0].id))
    else
      var p, found := pel[0], At(work, pel[0].id);
      if found.None? then
        ScanPending(pel[1..], work, idle, count - 1, attempts - 1)
      else if !idle(p.id) then
        var rest := ScanPending(pel[1..], work, idle, count, attempts - 1);
        Scan([p] + rest.pel, rest.claimed, rest.next)
      else
        var rest := ScanPending(pel[1..], work, idle, count - 1, attempts - 1);
        Scan([Pending(p.id, p.deliveries + 1)] + rest.pel, [found.value] + rest.claimed, rest.next)
  }

  /** How many pending entries lie before an id. */
  function Position(pel: seq<Pending>, start: Id): (k: nat)
    ensures k <= |pel|
    ensures forall i | 0 <= i < k :: Lt(pel[i].id, start)
    ensures k < |pel| ==> !Lt(pel[k].id, start)
  {
    if pel == [] || !Lt(pel[0].id, start) then 0 else 1 + Position(pel[1..], start)
  }

  /** XAUTOCLAIM: the broker, the next cursor (zero when the scan is over) and the claimed entries. */
  function Xautoclaim(b: Broker, start: Id, idle: Id -> bool): (x: (Broker, Id, seq<Entry>))
    requires Valid(b)
    ensures Valid(x.0)
    ensures forall e | e in x.2 :: e in b.work
  {
    var k := Position(b.pel, start);
    var s := ScanPending(b.pel[k..], b.work, idle, CLAIM_COUNT, CLAIM_ATTEMPTS);
    ScanAscends(b.pel, k, b.work, idle, CLAIM_COUNT, CLAIM_ATTEMPTS);
    (b.(pel := b.pel[..k] + s.pel), if s.next.None? then ZERO else s.next.value, s.claimed)
  }

  /** A scan keeps ids of the scanned list, in order. */
  lemma {:induction false} ScanKeepsIds(pel: seq<Pending>, work: seq<Entry>, idle: Id -> bool, count: nat,
                                        attempts: nat)
    requires Ascending(pel, PendingId)
    ensures var s := ScanPending(pel, work, idle, count, attempts).pel;
            Ascending(s, PendingId) && forall p | p in s :: exists q :: q in pel && q.id == p.id
  {
    if pel != [] && count > 0 && attempts > 0 {
      assert pel == [pel[0]] + pel[1..];
      assert Ascending(pel[1..], PendingId);
      var p, found := pel[0], At(work, pel[0].id);
      var c := if found.Some? && !idle(p.id) then count else count - 1;
      ScanKeepsIds(pel[1..], work, idle, c, attempts - 1);
      var rest := ScanPending(pel[1..], work, idle, c, attempts - 1).pel;
      forall q | q in rest ensures Lt(p.id, q.id) {
        var o :| o in pel[1..] && o.id == q.id;
        var i :| 0 <= i < |pel[1..]| && pel[1..][i] == o;
        assert Lt(PendingId(pel[0]), PendingId(pel[i + 1]));
      }
    }
  }

  lemma JoinAscends(front: seq<Pending>, rest: seq<Pending>)
    requires Ascending(front, PendingId) && Ascending(rest, PendingId)
    requires forall i, j | 0 <= i < |front| && 0 <= j < |rest| :: Lt(front[i].id, rest[j].id)
    ensures Ascending(front + rest, PendingId)
  {
    hide Lt;
    var s := front + rest;
    forall i, j | 0 <= i < j < |s| ensures Lt(PendingId(s[i]), PendingId(s[j])) {
      if j < |front| {
        assert Lt(PendingId(front[i]), PendingId(front[j]));
      } else if i >= |front| {
        assert Lt(PendingId(rest[i - |front|]), PendingId(rest[j - |front|]));
      }
    }
  }

  lemma ScanAscends(pel: seq<Pending>, k: nat, work: seq<Entry>, idle: Id -> bool, count: nat, attempts: nat)
    requires Ascending(pel, PendingId) && k <= |pel|
    ensures var s := pel[..k] + ScanPending(pel[k..], work, idle, count, attempts).pel;
            Ascending(s, PendingId) && forall p | p in s :: exists q :: q in pel && q.id == p.id
  {
    hide ScanPending, Lt;
    ScanKeepsIds(pel[k..], work, idle, count, attempts);
    var t := ScanPending(pel[k..], work, idle, count, attempts).pel;
    forall i, j | 0 <= i < k && 0 <= j < |t| ensures Lt(pel[i].id, t[j].id) {
      assert t[j] in t;
      var q :| q in pel[k..] && q.id == t[j].id;
      var n :| 0 <= n < |pel[k..]| && pel[k..][n] == q;
      assert Lt(PendingId(pel[i]), PendingId(pel[k + n]));
    }
    JoinAscends(pel[..k], t);
    forall p | p in pel[..k] + t ensures exists q :: q in pel && q.id == p.id {
      if p in t {
        var q :| q in pel[k..] && q.id == p.id;
        assert q in pel;
      } else {
        assert p in pel;
      }
    }
  }
}
