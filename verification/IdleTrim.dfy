/**
 Trimming when nothing is pending: two reads of ids, then a cut. Which commands of other
 clients between them make the cut take an entry that is still needed, and what follows.
 */
module IdleTrim {
  import opened Wrappers
  import opened Redis
  import opened ScanQueue
  import opened NoLoss

  predicate MidTrim(p: Program) { p.Surveying? || p.Measuring? || p.CuttingIdle? }

  // ---- what a command reserves or adds --------------------------------------------------------------------------

  /** The id the next command of `p` reserves, if any. */
  function ReadId(s: State, p: Program): Option<Id>
    requires Valid(s.b)
  {
    if !p.Reserving? then None
    else
      var e := Read(s).1;
      if e.None? then None else Some(e.value.id)
  }

  /** The id the next command of `p` adds to the work stream, if any. */
  function NewId(s: State, p: Program, c: Choice): Option<Id> {
    match p
    case Adding(refs) => if refs == [] then None else Some(NextId(s.b.lastGenerated, c.now))
    case Replaying(todo, selector) =>
      if todo == [] || !RefMatches(todo[0].ref, selector) then None else Some(NextId(s.b.lastGenerated, c.now))
    case _ => None
  }

  /** What a command does to the streams: at most one reservation or one new entry, the rest only shrinks. */
  ghost predicate Changes(b: Broker, r: Broker, read: Option<Id>, added: Option<Id>) {
    && (forall p | p in r.pel :: (exists q | q in b.pel :: q.id == p.id) || read == Some(p.id))
    && (read.Some? ==> Lt(b.lastDelivered, read.value) && exists e | e in b.work :: e.id == read.value)
    && (forall e | e in r.work :: e in b.work || added == Some(e.id))
    && Le(b.lastDelivered, r.lastDelivered)
  }

  lemma ClaimChanges(b: Broker, cursor: Id, idle: Id -> bool)
    requires Valid(b)
    ensures Changes(b, Xautoclaim(b, cursor, idle).0, None, None)
  {
    hide Xautoclaim;
    ClaimAddsNone(b, cursor, idle);
  }

  lemma AddChanges(b: Broker, ref: string, now: nat)
    requires Valid(b)
    ensures Changes(b, Xadd(b, ref, now), None, Some(NextId(b.lastGenerated, now)))
  {
  }

  lemma ReadChanges(s: State)
    requires Valid(s.b)
    ensures Changes(s.b, Read(s).0.b, ReadId(s, Reserving), None)
  {
  }

  lemma ShrinkChanges(b: Broker, r: Broker)
    requires (forall p | p in r.pel :: p in b.pel) && (forall e | e in r.work :: e in b.work) &&
               r.lastDelivered == b.lastDelivered
    ensures Changes(b, r, None, None)
  {
  }

  lemma AddingChanges(s: State, p: Program, c: Choice)
    requires Valid(s.b) && (p.Adding? || p.Replaying?)
    ensures Changes(s.b, Step(s, p, c).0.b, ReadId(s, p), NewId(s, p, c))
  {
    hide Valid, ObOf, RefMatches, Changes;
    ShrinkChanges(s.b, s.b);
    if p.Adding? && p.refs != [] {
      AddChanges(s.b, p.refs[0], c.now);
    } else if p.Replaying? && p.todo != [] {
      AddChanges(s.b, p.todo[0].ref, c.now);
    }
  }

  lemma ReapingChanges(s: State, p: Program, c: Choice)
    requires Valid(s.b) && p.Reaping?
    ensures Changes(s.b, Step(s, p, c).0.b, ReadId(s, p), NewId(s, p, c))
  {
    hide Valid, Xautoclaim, Changes;
    ClaimChanges(s.b, p.cursor, c.idle);
  }

  lemma OtherChanges(s: State, p: Program, c: Choice)
    requires Valid(s.b) && !p.Reaping? && !p.Adding? && !p.Replaying? && !p.Reserving?
    ensures Changes(s.b, Step(s, p, c).0.b, ReadId(s, p), NewId(s, p, c))
  {
    hide Valid, ObOf, TimesDelivered, RefMatches, Changes;
    ShrinkChanges(s.b, Step(s, p, c).0.b);
  }

  lemma StepChanges(s: State, p: Program, c: Choice)
    requires Valid(s.b)
    ensures Changes(s.b, Step(s, p, c).0.b, ReadId(s, p), NewId(s, p, c))
  {
    hide Valid, StepProducer, StepReaper, Read, ReadId, Changes;
    if p.Reaping? {
      ReapingChanges(s, p, c);
    } else if p.Adding? || p.Replaying? {
      AddingChanges(s, p, c);
    } else if p.Reserving? {
      ReadChanges(s);
    } else {
      OtherChanges(s, p, c);
    }
  }

  // ---- what a client in the middle of a trim can still rely on ------------------------------------------------------

  /** All but the ids in `bad` stand to what the client has read as they did when it read it. */
  ghost predicate Blamed(p: Program, b: Broker, bad: set<Id>) {
    match p
    case Surveying => forall q | q in b.pel :: q.id in bad
    case Measuring(lastDelivered) =>
      Le(lastDelivered, b.lastDelivered) && forall q | q in b.pel :: Lt(lastDelivered, q.id) || q.id in bad
    case CuttingIdle(min) =>
      && (forall q | q in b.pel :: Le(min, q.id) || q.id in bad)
      && (forall e | e in b.work && Lt(b.lastDelivered, e.id) :: Le(min, e.id) || e.id in bad)
    case _ => true
  }

  lemma OwnStep(s: State, p: Program, c: Choice, bad: set<Id>)
    requires Valid(s.b) && Blamed(p, s.b, bad)
    ensures var (r, q) := Step(s, p, c); Blamed(q, r.b, bad)
  {
    hide Xautoclaim, ObOf, TimesDelivered, RefMatches, Read;
  }

  /** The id that a command of another client puts below a floor, or will once the client has read on. */
  function Disturbs(s: State, p: Program, c: Choice, trimmer: Program): Option<Id>
    requires Valid(s.b)
  {
    match trimmer
    case Surveying => ReadId(s, p)
    case CuttingIdle(min) =>
      var id := NewId(s, p, c);
      if id.Some? && Lt(id.value, min) then id else None
    case _ => None
  }

  function Elem(id: Option<Id>): set<Id> { if id.Some? then {id.value} else {} }

  lemma OthersStep(s: State, p: Program, c: Choice, trimmer: Program, bad: set<Id>)
    requires Valid(s.b) && Blamed(trimmer, s.b, bad)
    ensures Blamed(trimmer, Step(s, p, c).0.b, bad + Elem(Disturbs(s, p, c, trimmer)))
  {
    hide Step, Valid, ReadId, NewId;
    StepChanges(s, p, c);
  }

  // ---- over runs ----------------------------------------------------------------------------------------------------

  /** The id an event disturbs the trim of `pid` with. */
  function Disturbance(w: World, e: Event, pid: nat): Option<Id>
    requires Valid(w.s.b)
  {
    if !e.Advance? || e.pid !in w.clients || pid !in w.clients then None
    else Disturbs(w.s, w.clients[e.pid], e.choice, w.clients[pid])
  }

  /** What the present trim of `pid` has been disturbed with. */
  ghost function Culprits(es: seq<Event>, pid: nat): set<Id> {
    if es == [] || pid !in Play(es).clients || !MidTrim(Play(es).clients[pid]) then {}
    else
      var n := |es| - 1;
      Culprits(es[..n], pid) + Elem(Disturbance(Play(es[..n]), es[n], pid))
  }

  lemma ReactBlamed(w: World, e: Event, pid: nat, bad: set<Id>)
    requires Valid(w.s.b) && pid in React(w, e).clients && MidTrim(React(w, e).clients[pid])
    requires pid in w.clients ==> Blamed(w.clients[pid], w.s.b, bad)
    ensures Blamed(React(w, e).clients[pid], React(w, e).s.b, bad + Elem(Disturbance(w, e, pid)))
  {
    hide Valid, Step, Blamed, Disturbs;
    if e.Advance? && e.pid in w.clients {
      if e.pid == pid {
        OwnStep(w.s, w.clients[pid], e.choice, bad);
        MoreBlamed(React(w, e).clients[pid], React(w, e).s.b, bad, Elem(Disturbance(w, e, pid)));
      } else {
        OthersStep(w.s, w.clients[e.pid], e.choice, w.clients[pid], bad);
      }
    } else {
      MoreBlamed(w.clients[pid], w.s.b, bad, Elem(Disturbance(w, e, pid)));
    }
  }

  lemma MoreBlamed(p: Program, b: Broker, bad: set<Id>, more: set<Id>)
    requires Blamed(p, b, bad)
    ensures Blamed(p, b, bad + more)
  {
  }

  lemma NotMidBlamed(p: Program, b: Broker)
    requires !MidTrim(p)
    ensures Blamed(p, b, {})
  {
  }

  lemma {:induction false} BlamedAlways(es: seq<Event>, pid: nat)
    requires pid in Play(es).clients
    ensures Blamed(Play(es).clients[pid], Play(es).s.b, Culprits(es, pid))
  {
    hide React, Blamed, MidTrim, Disturbance;
    if es != [] {
      var n := |es| - 1;
      var w := Play(es[..n]);
      if MidTrim(Play(es).clients[pid]) {
        if pid in w.clients {
          BlamedAlways(es[..n], pid);
        }
        ReactBlamed(w, es[n], pid, Culprits(es[..n], pid));
      } else {
        NotMidBlamed(Play(es).clients[pid], Play(es).s.b);
      }
    }
  }

  /** A culprit is what one event brought, and the client has been in the middle of that same trim since. */
  lemma {:induction false} CulpritIsEvent(es: seq<Event>, pid: nat, id: Id) returns (k: nat)
    requires id in Culprits(es, pid)
    ensures k < |es| && Disturbance(Play(es[..k]), es[k], pid) == Some(id)
    ensures forall i | k < i <= |es| :: pid in Play(es[..i]).clients && MidTrim(Play(es[..i]).clients[pid])
  {
    hide Play, MidTrim, Disturbance;
    var n := |es| - 1;
    assert es[..|es|] == es;
    if id in Culprits(es[..n], pid) {
      k := CulpritIsEvent(es[..n], pid, id);
      assert es[..n][..k] == es[..k];
      forall i | k < i <= |es| ensures pid in Play(es[..i]).clients && MidTrim(Play(es[..i]).clients[pid]) {
        if i <= n {
          assert es[..n][..i] == es[..i];
        }
      }
    } else {
      k := n;
    }
  }

  /**
   Whatever needed entry an idle cut takes was reserved by another client between the first two
   reads of that trim, or added by one below the floor after the last.
   */
  lemma TakenIsCulprit(es: seq<Event>, pid: nat, x: Entry) returns (k: nat)
    requires pid in Play(es).clients && Play(es).clients[pid].CuttingIdle?
    requires x in Play(es).s.b.work && Needed(Play(es).s.b, x.id) && !Le(Play(es).clients[pid].min, x.id)
    ensures k < |es| && Disturbance(Play(es[..k]), es[k], pid) == Some(x.id)
    ensures forall i | k < i <= |es| :: pid in Play(es[..i]).clients && MidTrim(Play(es[..i]).clients[pid])
  {
    hide Play, Disturbance;
    BlamedAlways(es, pid);
    k := CulpritIsEvent(es, pid, x.id);
  }

  // ---- runs in which nothing disturbs a trim ------------------------------------------------------------------------

  /**
   No reservation while a client stands before the second read of an idle trim, and no entry
   added below the floor a client is about to cut at.
   */
  ghost predicate Calm(es: seq<Event>) {
    forall k, pid | 0 <= k < |es| :: Disturbance(Play(es[..k]), es[k], pid).None?
  }

  lemma {:induction false} CalmHasNoCulprits(es: seq<Event>, pid: nat)
    requires Calm(es)
    ensures Culprits(es, pid) == {}
  {
    hide Play, Disturbance;
    if es != [] {
      var n := |es| - 1;
      assert forall k | 0 <= k < n :: es[..n][..k] == es[..k] && es[..n][k] == es[k];
      CalmHasNoCulprits(es[..n], pid);
    }
  }

  /** In a calm run every idle cut keeps every needed entry. */
  lemma CalmKeeps(es: seq<Event>)
    requires Calm(es)
    ensures KeepingRun(es)
  {
    hide Play, Le, Valid, Disturbance;
    forall k | 0 <= k < |es| ensures KeepsAt(Play(es[..k]), es[k]) {
      var w, e := Play(es[..k]), es[k];
      if e.Advance? && e.pid in w.clients && w.clients[e.pid].CuttingIdle? {
        assert forall j | 0 <= j < k :: es[..k][..j] == es[..j] && es[..k][j] == es[j];
        CalmHasNoCulprits(es[..k], e.pid);
        BlamedAlways(es[..k], e.pid);
      }
    }
  }

  /** ... so nothing is lost and what is pending is in the stream. */
  lemma CalmLosesNothing(es: seq<Event>)
    requires Calm(es)
    ensures SafeRun(es) && LiveThroughout(es) && PendingInStream(Play(es).s.b)
  {
    hide Play, Calm, SafeRun, KeepingRun, LiveThroughout, PendingInStream;
    CalmKeeps(es);
    KeepingIsSafeRun(es);
    NoLossIff(es);
    PendingStays(es);
  }

  // ---- a disturbed trim can lose the entry --------------------------------------------------------------------------

  lemma {:induction false} Unused(s: set<nat>) returns (n: nat)
    ensures forall m | m in s :: m < n
  {
    if s == {} {
      n := 0;
    } else {
      var x :| x in s;
      var k := Unused(s - {x});
      n := if x < k then k else x + 1;
      assert forall m | m in s :: m == x || m in s - {x};
    }
  }

  /** The entry at position `i` of the history stands for a reference that is open, and is its last. */
  ghost predicate OpenAt(s: State, i: nat, id: Id) {
    i < |s.trail| && s.trail[i].place == InWork(id) && !Settled(s, s.trail[i].ob) && !Superseded(s, i)
  }

  /** ... and it is gone. */
  ghost predicate GoneAt(s: State, i: nat, id: Id) {
    OpenAt(s, i, id) && !Live(s.b, InWork(id), s.trail[i].ref)
  }

  /** The reference has had no other entry. */
  ghost predicate OnlyAt(s: State, i: nat) {
    i < |s.trail| && s.trail[i].ob == i && forall j | 0 <= j < |s.trail| && s.trail[j].ob == i :: j == i
  }

  /** The only entry of a reference is gone, so the reference is nowhere. */
  lemma OnlyEntryGone(s: State, i: nat, id: Id)
    requires OnlyAt(s, i) && GoneAt(s, i, id)
    ensures !StillQueued(s, i) && i !in s.done && i !in s.dropped
  {
    hide Live;
  }

  lemma CutTakes(s: State, min: Id, i: nat, id: Id)
    requires Valid(s.b) && OpenAt(s, i, id) && Lt(id, min)
    ensures GoneAt(s.(b := Xtrim(s.b, min)), i, id)
  {
    hide Valid;
    var r := s.(b := Xtrim(s.b, min));
    SameSettled(s, r, i);
  }

  /** Added below the floor: the cut takes it at once. */
  lemma AddedIsCut(es: seq<Event>, pid: nat, c: Choice, id: Id, i: nat)
    requires pid in Play(es).clients && Play(es).clients[pid].CuttingIdle? && Lt(id, Play(es).clients[pid].min)
    requires OpenAt(Play(es).s, i, id)
    ensures GoneAt(Play(es + [Advance(pid, c)]).s, i, id)
    ensures OnlyAt(Play(es).s, i) ==> OnlyAt(Play(es + [Advance(pid, c)]).s, i)
  {
    hide Play, Xtrim, OpenAt, GoneAt, Valid;
    Then(es, Advance(pid, c));
    CutTakes(Play(es).s, Play(es).clients[pid].min, i, id);
  }

  /** A new reference enters the history as the last and only entry of its own. */
  lemma AddKeepsOpen(s: State, ref: string, now: nat, i: nat, id: Id)
    requires Valid(s.b) && OpenAt(s, i, id) && s.trail[i].ob < |s.trail|
    ensures OpenAt(AddWork(s, ref, |s.trail|, now), i, id)
    ensures OnlyAt(s, i) ==> OnlyAt(AddWork(s, ref, |s.trail|, now), i)
  {
    hide Valid;
    var r := AddWork(s, ref, |s.trail|, now);
    assert r.trail[i] == s.trail[i];
    forall j | 0 <= j < |s.trail| ensures r.trail[j] == s.trail[j] {
    }
    assert forall j | i < j < |r.trail| :: r.trail[j].ob != r.trail[i].ob;
  }

  lemma ReadKeepsOpen(s: State, i: nat, id: Id)
    requires Valid(s.b) && OpenAt(s, i, id)
    ensures OpenAt(Read(s).0, i, id)
    ensures OnlyAt(s, i) ==> OnlyAt(Read(s).0, i)
  {
    hide Valid;
    SameSettled(s, Read(s).0, i);
  }

  /** After an entry was added, the next reservation delivers something beyond what was delivered before. */
  lemma ReadsOn(s: State, ref: string, ob: nat, now: nat)
    requires Valid(s.b)
    ensures var r := Read(AddWork(s, ref, ob, now)).0;
            Lt(s.b.lastDelivered, r.b.lastDelivered) && r.b.lastDelivered != ZERO &&
                Le(r.b.lastDelivered, r.b.lastGenerated)
  {
    var x := AddWork(s, ref, ob, now);
    var e := Entry(x.b.lastGenerated, ref, "");
    assert e in x.b.work && Lt(s.b.lastDelivered, e.id);
  }

  /** The rest of the trim after that: both reads and the cut. */
  lemma TrimOn(s: State, c: Choice, i: nat, id: Id)
    requires Valid(s.b) && s.b.lastDelivered != ZERO && Lt(id, s.b.lastDelivered) && OpenAt(s, i, id)
    ensures var (s1, p1) := Step(s, Surveying, c);
            var (s2, p2) := Step(s1, p1, c);
            var (s3, p3) := Step(s2, p2, c);
            GoneAt(s3, i, id) && s3.trail == s.trail
  {
    hide Valid, OpenAt, GoneAt, Xtrim;
    var floor := FloorWhenIdle(s.b.lastDelivered, s.b.lastGenerated).value;
    assert Lt(id, floor);
    CutTakes(s, floor, i, id);
  }

  /**
   Reserved between the first two reads: let one more reference be enqueued and one more entry
   be reserved, and the trim goes on to cut the first away while it is pending.
   */
  lemma ReservedIsCut(es: seq<Event>, pid: nat, c: Choice, id: Id, i: nat) returns (more: seq<Event>)
    requires pid in Play(es).clients && Play(es).clients[pid].Surveying?
    requires OpenAt(Play(es).s, i, id) && Play(es).s.trail[i].ob < |Play(es).s.trail| &&
               Le(id, Play(es).s.b.lastDelivered)
    ensures GoneAt(Play(es + more).s, i, id)
    ensures OnlyAt(Play(es).s, i) ==> OnlyAt(Play(es + more).s, i)
  {
    hide Valid, Step, Read, AddWork, OpenAt, GoneAt, Le, Lt;
    var w := Play(es);
    var a := Unused(w.clients.Keys);
    var b := a + 1;
    var s1 := AddWork(w.s, "", |w.s.trail|, c.now);
    var s2 := Read(s1).0;
    AddKeepsOpen(w.s, "", c.now, i, id);
    ReadKeepsOpen(s1, i, id);
    ReadsOn(w.s, "", |w.s.trail|, c.now);
    Farther(id, w.s.b.lastDelivered, s2.b.lastDelivered);
    TrimOn(s2, c, i, id);
    var first := [Begin(a, Enqueuer([""])), Advance(a, c), Begin(b, Worker)];
    var next := [Advance(b, c), Advance(pid, c)];
    var last := [Advance(pid, c), Advance(pid, c)];
    Then3(es, first[0], first[1], first[2]);
    EnqueueStep(w.s, c);
    Then2(es + first, next[0], next[1]);
    ReserveStep(s1, c);
    Then2(es + first + next, last[0], last[1]);
    more := first + next + last;
    assert es + first + next + last == es + more;
  }

  lemma Farther(a: Id, b: Id, c: Id)
    requires Le(a, b) && Lt(b, c)
    ensures Lt(a, c)
  {
  }

  lemma EnqueueStep(s: State, c: Choice)
    requires Valid(s.b)
    ensures Step(s, Adding([""]), c).0 == AddWork(s, "", |s.trail|, c.now)
  {
    hide Valid, AddWork;
  }

  lemma ReserveStep(s: State, c: Choice)
    requires Valid(s.b)
    ensures Step(s, Reserving, c).0 == Read(s).0
  {
    hide Valid, Read;
  }

  lemma DisturbedState(w: World, e: Event, pid: nat, id: Id)
    requires Valid(w.s.b) && Disturbance(w, e, pid) == Some(id)
    ensures var r := React(w, e);
            && pid in r.clients && r.clients[pid] == w.clients[pid]
            && (r.clients[pid].Surveying? ==> Le(id, r.s.b.lastDelivered))
            && (r.clients[pid].CuttingIdle? ==> Lt(id, r.clients[pid].min))
            && (r.clients[pid].Surveying? || r.clients[pid].CuttingIdle?)
  {
    hide Valid, ObOf, RefMatches, AddWork;
    assert e.pid != pid;
  }

  /**
   From every disturbance some continuation loses the entry, if a reference still rests on it:
   the last entry of an open reference is gone, and if it is the only one, the reference is
   nowhere.
   */
  lemma DisturbanceLoses(es: seq<Event>, e: Event, pid: nat, c: Choice, id: Id, i: nat) returns (more: seq<Event>)
    requires SafeRun(es + [e]) && Disturbance(Play(es), e, pid) == Some(id) && OpenAt(Play(es + [e]).s, i, id)
    ensures GoneAt(Play(es + [e] + more).s, i, id) && !LatestLive(Play(es + [e] + more).s)
    ensures !SafeRun(es + [e] + more)
    ensures OnlyAt(Play(es + [e]).s, i) ==>
              var x := Play(es + [e] + more).s; i < |x.trail| && !StillQueued(x, i) && i !in x.done && i !in x.dropped
  {
    hide Play, OpenAt, GoneAt, Valid, SafeRun, Steady, Disturbance;
    var now := es + [e];
    Then(es, e);
    DisturbedState(Play(es), e, pid, id);
    AlwaysSteady(now);
    OpenIsEarlier(Play(now), i, id);
    if Play(now).clients[pid].CuttingIdle? {
      more := [Advance(pid, c)];
      AddedIsCut(now, pid, c, id, i);
    } else {
      more := ReservedIsCut(now, pid, c, id, i);
    }
    GoneIsNotLive(Play(now + more).s, i, id);
    if OnlyAt(Play(now).s, i) {
      OnlyEntryGone(Play(now + more).s, i, id);
    }
    NotSafeThen(now + more);
  }

  lemma OpenIsEarlier(w: World, i: nat, id: Id)
    requires Steady(w) && OpenAt(w.s, i, id)
    ensures i < |w.s.trail| && w.s.trail[i].ob < |w.s.trail|
  {
  }

  lemma GoneIsNotLive(s: State, i: nat, id: Id)
    requires GoneAt(s, i, id)
    ensures !LatestLive(s)
  {
    hide Live;
  }

  lemma NotSafeThen(es: seq<Event>)
    requires !LatestLive(Play(es).s)
    ensures !SafeRun(es)
  {
    hide Play, SafeRun, LatestLive, Steady;
    if SafeRun(es) {
      AlwaysSteady(es);
      SteadyIsLive(Play(es));
    }
  }
}
