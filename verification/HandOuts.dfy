/**
 How often an entry has been handed out, over runs: what the broker counts for a pending entry
 is the number of reservations and claims that delivered it, whoever made them and whoever
 crashed, and the reaper retires by that number.
 */
module HandOuts {
  import opened Wrappers
  import opened Redis
  import opened ScanQueue
  import opened NoLoss

  predicate Lists(entries: seq<Entry>, id: Id) { exists m | m in entries :: m.id == id }

  /** Whether the next command of `p` hands the entry out: a reservation or a claim. */
  function Gives(s: State, p: Program, c: Choice, id: Id): nat
    requires Valid(s.b)
  {
    match p
    case Reserving => var e := Read(s).1; if e.Some? && e.value.id == id then 1 else 0
    case Reaping(cursor, _) => if Lists(Xautoclaim(s.b, cursor, c.idle).2, id) then 1 else 0
    case _ => 0
  }

  function Given(w: World, e: Event, id: Id): nat
    requires Valid(w.s.b)
  {
    if !e.Advance? || e.pid !in w.clients then 0 else Gives(w.s, w.clients[e.pid], e.choice, id)
  }

  /** How often the entry has been handed out in the run. */
  function Handed(es: seq<Event>, id: Id): nat {
    if es == [] then 0
    else
      var n := |es| - 1;
      Handed(es[..n], id) + Given(Play(es[..n]), es[n], id)
  }

  // ---- one command -----------------------------------------------------------------------------------------------

  function Once(entries: seq<Entry>, id: Id): nat { if Lists(entries, id) then 1 else 0 }

  /** Every entry of `after` is one of `pel`, with one more delivery if it is claimed; only such are claimed. */
  ghost predicate Counted(pel: seq<Pending>, after: seq<Pending>, claimed: seq<Entry>) {
    && (forall p | p in after ::
          exists q :: q in pel && q.id == p.id && p.deliveries == q.deliveries + Once(claimed, p.id))
    && (forall e | e in claimed :: exists q :: q in pel && q.id == e.id)
  }

  /** A scan counts one more delivery for what it claims, and claims pending entries only. */
  lemma {:induction false} ScanCounts(pel: seq<Pending>, work: seq<Entry>, idle: Id -> bool, count: nat, attempts: nat)
    requires Ascending(pel, PendingId)
    ensures var s := ScanPending(pel, work, idle, count, attempts); Counted(pel, s.pel, s.claimed)
  {
    hide Counted, ScanPending, Ascending;
    if pel == [] || count == 0 || attempts == 0 {
      NothingClaimed(pel, work, idle, count, attempts);
    } else {
      TailAscends(pel, 1);
      var c, head, mine := ScanFirst(pel, work, idle, count, attempts);
      ScanCounts(pel[1..], work, idle, c, attempts - 1);
      CountedOneMore(pel, head, mine, ScanPending(pel[1..], work, idle, c, attempts - 1),
          ScanPending(pel, work, idle, count, attempts));
    }
  }

  lemma CountedOneMore(pel: seq<Pending>, head: seq<Pending>, mine: seq<Entry>, rest: Scan, s: Scan)
    requires pel != [] && Ascending(pel, PendingId) && Counted(pel[1..], rest.pel, rest.claimed)
    requires s.pel == head + rest.pel && s.claimed == mine + rest.claimed
    requires if mine == [] then head == [] || head == [pel[0]]
             else |mine| == 1 && mine[0].id == pel[0].id && head == [Pending(pel[0].id, pel[0].deliveries + 1)]
    ensures Counted(pel, s.pel, s.claimed)
  {
    hide Counted, Ascending;
    LaterIds(pel);
    if mine == [] {
      assert s.claimed == rest.claimed;
      NotClaimed(pel, head, rest.pel, rest.claimed);
    } else {
      assert mine == [mine[0]];
      Claimed(pel, mine[0], rest.pel, rest.claimed);
    }
  }

  /** The first entry is dropped or kept, or claimed and counted once more; the scan goes on behind it. */
  lemma ScanFirst(pel: seq<Pending>, work: seq<Entry>, idle: Id -> bool, count: nat, attempts: nat)
    returns (c: nat, head: seq<Pending>, mine: seq<Entry>)
    requires pel != [] && count > 0 && attempts > 0
    ensures var s, rest := ScanPending(pel, work, idle, count, attempts),
            ScanPending(pel[1..], work, idle, c, attempts - 1);
            s.pel == head + rest.pel && s.claimed == mine + rest.claimed
    ensures if mine == [] then head == [] || head == [pel[0]]
            else
              |mine| == 1 && mine[0].id == pel[0].id && head == [Pending(pel[0].id, pel[0].deliveries + 1)]
  {
    var p, found := pel[0], At(work, pel[0].id);
    c := if found.Some? && !idle(p.id) then count else count - 1;
    head := if found.None? then [] else if !idle(p.id) then [p] else [Pending(p.id, p.deliveries + 1)];
    mine := if found.None? || !idle(p.id) then [] else [found.value];
  }

  lemma NothingClaimed(pel: seq<Pending>, work: seq<Entry>, idle: Id -> bool, count: nat, attempts: nat)
    requires pel == [] || count == 0 || attempts == 0
    ensures var s := ScanPending(pel, work, idle, count, attempts); Counted(pel, s.pel, s.claimed)
  {
  }

  lemma NotClaimed(pel: seq<Pending>, head: seq<Pending>, after: seq<Pending>, claimed: seq<Entry>)
    requires pel != [] && (head == [] || head == [pel[0]]) && Counted(pel[1..], after, claimed)
    requires forall q | q in pel[1..] :: q in pel && q.id != pel[0].id
    ensures Counted(pel, head + after, claimed)
  {
    assert !Lists(claimed, pel[0].id) && pel[0] in pel;
  }

  lemma Claimed(pel: seq<Pending>, e: Entry, after: seq<Pending>, claimed: seq<Entry>)
    requires pel != [] && e.id == pel[0].id && Counted(pel[1..], after, claimed)
    requires forall q | q in pel[1..] :: q in pel && q.id != pel[0].id
    ensures Counted(pel, [Pending(pel[0].id, pel[0].deliveries + 1)] + after, [e] + claimed)
  {
    var all := [e] + claimed;
    assert e in all && pel[0] in pel;
    forall p | p in after ensures Once(all, p.id) == Once(claimed, p.id) {
      var q :| q in pel[1..] && q.id == p.id;
    }
  }

  lemma LaterIds(pel: seq<Pending>)
    requires pel != [] && Ascending(pel, PendingId)
    ensures forall q | q in pel[1..] :: q in pel && q.id != pel[0].id
  {
    forall q | q in pel[1..] ensures q in pel && q.id != pel[0].id {
      var i :| 0 <= i < |pel[1..]| && pel[1..][i] == q;
      assert Lt(PendingId(pel[0]), PendingId(pel[i + 1])) && pel[i + 1] in pel;
    }
  }

  /** The same of a whole claim: what lies before the cursor is neither scanned nor claimed. */
  lemma ClaimCounts(b: Broker, cursor: Id, idle: Id -> bool)
    requires Valid(b)
    ensures var (r, _, msgs) := Xautoclaim(b, cursor, idle);
            && (forall p | p in r.pel ::
                  exists q :: q in b.pel && q.id == p.id && p.deliveries == q.deliveries + Once(msgs, p.id))
            && (forall e | e in msgs :: Le(e.id, b.lastDelivered))
  {
    hide ScanPending, Position, Lt, Le;
    var k := Position(b.pel, cursor);
    var front, tail := b.pel[..k], b.pel[k..];
    TailAscends(b.pel, k);
    ScanCounts(tail, b.work, idle, CLAIM_COUNT, CLAIM_ATTEMPTS);
    var msgs := ScanPending(tail, b.work, idle, CLAIM_COUNT, CLAIM_ATTEMPTS).claimed;
    assert forall q | q in tail :: q in b.pel;
    forall p | p in front ensures p in b.pel && Once(msgs, p.id) == 0 {
      FrontApart(b.pel, k, p);
    }
  }

  lemma TailAscends(pel: seq<Pending>, k: nat)
    requires Ascending(pel, PendingId) && k <= |pel|
    ensures Ascending(pel[k..], PendingId)
  {
  }

  lemma FrontApart(pel: seq<Pending>, k: nat, p: Pending)
    requires Ascending(pel, PendingId) && k <= |pel| && p in pel[..k]
    ensures p in pel && forall q | q in pel[k..] :: q.id != p.id
  {
    var i :| 0 <= i < k && pel[..k][i] == p;
    assert pel[i] == p;
    forall q | q in pel[k..] ensures q.id != p.id {
      var j :| 0 <= j < |pel[k..]| && pel[k..][j] == q;
      assert Lt(PendingId(pel[i]), PendingId(pel[k + j]));
    }
  }

  /** A pending entry stays pending with one more delivery if it was handed out, or is handed out for the first time. */
  ghost predicate Counts(b: Broker, r: Broker, gives: Id -> nat) {
    && Le(b.lastDelivered, r.lastDelivered)
    && (forall p | p in r.pel ::
          || (exists q :: q in b.pel && q.id == p.id && p.deliveries == q.deliveries + gives(p.id))
          || (Lt(b.lastDelivered, p.id) && p.deliveries == 1 && gives(p.id) == 1))
    && (forall id | Lt(r.lastDelivered, id) :: gives(id) == 0)
  }

  ghost function GivesOf(s: State, p: Program, c: Choice): Id -> nat
    requires Valid(s.b)
  {
    (id: Id) => if Valid(s.b) then Gives(s, p, c, id) else 0
  }

  lemma ClaimStep(s: State, p: Program, c: Choice)
    requires Valid(s.b) && p.Reaping?
    ensures Counts(s.b, Step(s, p, c).0.b, GivesOf(s, p, c))
  {
    hide Xautoclaim, ObOf, TimesDelivered, RefMatches, Lt, Valid;
    ClaimCounts(s.b, p.cursor, c.idle);
    ClaimAddsNone(s.b, p.cursor, c.idle);
    NotBeyond(Xautoclaim(s.b, p.cursor, c.idle).2, s.b.lastDelivered);
  }

  lemma NotBeyond(msgs: seq<Entry>, last: Id)
    requires forall e | e in msgs :: Le(e.id, last)
    ensures forall id | Lt(last, id) :: !Lists(msgs, id)
    ensures Le(last, last)
  {
  }

  lemma ReadStep(s: State, c: Choice)
    requires Valid(s.b)
    ensures Counts(s.b, Step(s, Reserving, c).0.b, GivesOf(s, Reserving, c))
  {
    hide ObOf, TimesDelivered, RefMatches;
    forall p | p in s.b.pel ensures GivesOf(s, Reserving, c)(p.id) == 0 {
    }
  }

  lemma OtherStep(s: State, p: Program, c: Choice)
    requires Valid(s.b) && !p.Reaping? && !p.Reserving?
    ensures var r := Step(s, p, c).0.b;
            && (forall q | q in r.pel :: q in s.b.pel) && r.lastDelivered == s.b.lastDelivered
            && forall id :: GivesOf(s, p, c)(id) == 0
  {
    hide Xautoclaim, ObOf, TimesDelivered, RefMatches, Valid;
  }

  lemma StepCounts(s: State, p: Program, c: Choice)
    requires Valid(s.b)
    ensures Counts(s.b, Step(s, p, c).0.b, GivesOf(s, p, c))
  {
    hide Step, Valid, GivesOf;
    if p.Reaping? {
      ClaimStep(s, p, c);
    } else if p.Reserving? {
      ReadStep(s, c);
    } else {
      OtherStep(s, p, c);
    }
  }

  // ---- over runs --------------------------------------------------------------------------------------------------

  ghost predicate CountsRight(b: Broker, es: seq<Event>) {
    && (forall p | p in b.pel :: p.deliveries == Handed(es, p.id))
    && (forall id | Lt(b.lastDelivered, id) :: Handed(es, id) == 0)
  }

  /** The delivery count of a pending entry is the number of times it has been handed out. */
  lemma {:induction false} DeliveriesAreHandOuts(es: seq<Event>)
    ensures CountsRight(Play(es).s.b, es)
  {
    hide Step, Gives, Valid;
    if es != [] {
      var n := |es| - 1;
      DeliveriesAreHandOuts(es[..n]);
      var w, e := Play(es[..n]), es[n];
      if e.Advance? && e.pid in w.clients {
        StepCounts(w.s, w.clients[e.pid], e.choice);
        NextCounts(es, w.s.b, Play(es).s.b, GivesOf(w.s, w.clients[e.pid], e.choice));
      }
    }
  }

  lemma NextCounts(es: seq<Event>, b: Broker, r: Broker, gives: Id -> nat)
    requires es != [] && CountsRight(b, es[..|es| - 1]) && Counts(b, r, gives)
    requires forall id :: Handed(es, id) == Handed(es[..|es| - 1], id) + gives(id)
    ensures CountsRight(r, es)
  {
    hide Handed;
  }

  /**
   The reaper's judgement over runs, other clients' commands between: a claimed entry that is
   still pending goes to the dead stream exactly when it has been handed out more than
   `maxDeliveries` times; one acknowledged meanwhile counts as handed out once.
   */
  lemma RetiredByHandOuts(es: seq<Event>, pid: nat, c: Choice)
    requires pid in Play(es).clients && Play(es).clients[pid].Judging? && Play(es).clients[pid].todo != []
    ensures var p, b := Play(es).clients[pid], Play(es).s.b;
            var id := p.todo[0].id;
            var times := if exists q :: q in b.pel && q.id == id then Handed(es, id) else 1;
            var next := Play(es + [Advance(pid, c)]).clients;
            && pid in next
            && next[pid] == (if times > p.maxDeliveries then Burying(p.todo, p.next, p.maxDeliveries)
                             else Judging(p.todo[1..], p.next, p.maxDeliveries))
  {
    hide Play, Handed, Valid;
    DeliveriesAreHandOuts(es);
    Then(es, Advance(pid, c));
  }
}
