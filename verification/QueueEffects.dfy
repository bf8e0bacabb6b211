/**
 What acknowledging, dead-lettering and trimming do to every part of the broker
 (knock/adapters/redis_streams.py).
 */
module QueueEffects {
  import opened Wrappers
  import opened Redis
  import opened ScanQueue
  import opened Redelivery
  import opened NoLoss

  /**
   What a trim leaves: with something pending, whatever does not precede all of it; with nothing
   pending, what is unread, and the last entry read as long as anything newer was ever added.
   */
  ghost predicate Stays(pel: seq<Pending>, lastDelivered: Id, lastGenerated: Id, id: Id) {
    if pel != [] then exists p :: p in pel && (p.id == id || Lt(p.id, id))
    else
      || lastDelivered == ZERO
      || Lt(lastDelivered, id)
      || (id == lastDelivered && lastDelivered != lastGenerated)
  }

  lemma TrimExactly(b: Broker)
    requires Valid(b)
    ensures var r := TrimMinid(b);
            && (forall e :: e in r.work <==> e in b.work && Stays(b.pel, b.lastDelivered, b.lastGenerated, e.id))
            && r == b.(work := r.work)
  {
    forall e | e in b.work
      ensures e in TrimMinid(b).work <==> Stays(b.pel, b.lastDelivered, b.lastGenerated, e.id)
    {
      if b.pel != [] {
        assert b.pel[0] in b.pel;
        if p :| p in b.pel && (p.id == e.id || Lt(p.id, e.id)) {
          var i :| 0 <= i < |b.pel| && b.pel[i] == p;
          assert i == 0 || Lt(PendingId(b.pel[0]), PendingId(b.pel[i]));
        }
      }
    }
  }

  ghost predicate TrimmedTo(b: Broker, r: Broker) {
    forall e :: e in r.work <==> e in b.work && Stays(r.pel, b.lastDelivered, b.lastGenerated, e.id)
  }

  /** Acknowledging records when the digest was confirmed, ends the delivery and trims. */
  lemma AcknowledgeDoes(b: Broker, token: Id, digest: string, epoch: int)
    requires Valid(b)
    ensures var r := Ack(b, token, digest, epoch);
            && r.confirmed == b.confirmed[digest := epoch]
            && (forall p :: p in r.pel <==> p in b.pel && p.id != token)
            && TrimmedTo(b, r)
            && r == b.(confirmed := r.confirmed, pel := r.pel, work := r.work)
  {
    hide Stays, TrimMinid;
    TrimExactly(Xack(Zadd(b, digest, epoch), token));
  }

  /** Dead-lettering appends the reference and the note to the dead stream, ends the delivery and trims. */
  lemma DeadLetterDoes(b: Broker, token: Id, ref: string, note: string, now: nat)
    requires Valid(b)
    ensures var r := DeadLetter(b, token, ref, note, now);
            && (exists id :: Lt(b.lastDead, id) && r.dead == b.dead + [Entry(id, ref, note)] && r.lastDead == id)
            && (forall p :: p in r.pel <==> p in b.pel && p.id != token)
            && TrimmedTo(b, r)
            && r == b.(dead := r.dead, lastDead := r.lastDead, pel := r.pel, work := r.work)
  {
    hide Stays, TrimMinid;
    TrimExactly(DeadLetterNoTrim(b, token, ref, note, now));
    assert Lt(b.lastDead, NextId(b.lastDead, now));
  }

  /** Reserving hands out the oldest unread entry, counts one delivery of it and changes nothing else. */
  lemma ReserveDoes(b: Broker)
    requires Valid(b)
    ensures var (r, e) := Xreadgroup(b);
            && (e.None? ==> r == b && forall x | x in b.work :: !Lt(b.lastDelivered, x.id))
            && (e.Some? ==>
                  && e.value in b.work && Lt(b.lastDelivered, e.value.id)
                  && (forall x | x in b.work && Lt(b.lastDelivered, x.id) :: Le(e.value.id, x.id))
                  && r == b.(lastDelivered := e.value.id, pel := b.pel + [Pending(e.value.id, 1)]))
  {
    AfterIsFirst(b.work, b.lastDelivered);
  }

  /** A reaper pass ends with a trim. */
  lemma ReaperTrims(b: Broker, idle: Id -> bool, maxDeliveries: int, now: nat)
    requires Valid(b)
    ensures TrimmedTo(b, Reaper(b, idle, maxDeliveries, now).0)
  {
    hide ReapFrom, Stays, TrimMinid;
    ReapLater(b, ZERO, idle, maxDeliveries, now);
    TrimExactly(ReapFrom(b, ZERO, idle, maxDeliveries, now).0);
  }

  lemma {:induction false} ReapLater(b: Broker, cursor: Id, idle: Id -> bool, maxDeliveries: int, now: nat)
    requires Valid(b)
    ensures Later(b, ReapFrom(b, cursor, idle, maxDeliveries, now).0)
    decreases ScanQueue.Ahead(b.pel, cursor)
  {
    hide Xautoclaim, Retire, Valid, ScanQueue.Ahead;
    var (b1, next, msgs) := Xautoclaim(b, cursor, idle);
    ClaimLater(b, cursor, idle);
    RetireFrame(b1, msgs, maxDeliveries, now);
    if next != ZERO {
      ScanLeavesFewer(b, cursor, idle, maxDeliveries, now);
      ReapLater(Retire(b1, msgs, maxDeliveries, now), next, idle, maxDeliveries, now);
    }
  }

  // ---- a client alone, from its launch -----------------------------------------------------------------------

  /** What becomes of a reserved entry, by how its scan went. */
  ghost function Handled(b: Broker, e: Entry, c: Choice): Broker
    requires Valid(b)
  {
    match c.result
    case Attested(digest, epoch) => Ack(b, e.id, digest, epoch)
    case NoReportYet => b
    case Failed(Permanent, action) => DeadLetter(b, e.id, e.ref, action, c.now)
    case Failed(Transient, _) => b
  }

  ghost function Whole(l: Launch, b: Broker, c: Choice): Broker
    requires Valid(b)
  {
    match l
    case Enqueuer(refs) => Enqueue(b, refs, c.now)
    case Worker =>
      var (r, e) := Xreadgroup(b);
      if e.None? then r else Handled(r, e.value, c)
    case ReaperPod(maxDeliveries) => Reaper(b, c.idle, maxDeliveries, c.now).0
    case Replayer(selector) => Replay(b, b.dead, selector, c.now).0
    case Dropper(selector) => Drop(b, b.dead, selector).0
  }

  lemma HandledAlone(s: State, e: Entry, c: Choice) returns (n: nat)
    requires Valid(s.b)
    ensures Alone(s, Holding(e.id, e.ref), c, n).1 == Finished
    ensures Alone(s, Holding(e.id, e.ref), c, n).0.b == Handled(s.b, e, c)
  {
    hide Valid, Ack, DeadLetter;
    var p := Holding(e.id, e.ref);
    match c.result
    case Attested(digest, epoch) =>
      n := AckAlone(s, e.id, digest, epoch, c);
      AloneStep(s, p, c, n);
      n := n + 1;
    case NoReportYet =>
      AloneOne(s, p, c);
      n := 1;
    case Failed(Permanent, action) =>
      n := DeadLetterAlone(s, e.id, e.ref, action, c);
      AloneStep(s, p, c, n);
      n := n + 1;
    case Failed(Transient, _) =>
      AloneOne(s, p, c);
      n := 1;
  }

  /** Each client, launched and left alone, does what the adapter's operation of its kind does. */
  lemma LaunchedAlone(s: State, l: Launch, c: Choice) returns (n: nat)
    requires Valid(s.b)
    ensures var (r, p) := Alone(s, FirstProgram(l, s.b), c, n); p == Finished && r.b == Whole(l, s.b, c)
  {
    hide Valid, Alone, Handled, ReapFrom, TrimMinid;
    match l
    case Enqueuer(refs) => n := EnqueueAlone(s, refs, c);
    case ReaperPod(maxDeliveries) =>
      n := ReapAlone(s, ZERO, maxDeliveries, c);
      var (r, q) := Alone(s, Reaping(ZERO, maxDeliveries), c, n);
      var m := TrimAlone(r, c);
      AloneOnward(s, Reaping(ZERO, maxDeliveries), c, n, m);
      n := n + m;
    case Replayer(selector) => n := ReplayAlone(s, s.b.dead, selector, c);
    case Dropper(selector) => n := DropAlone(s, s.b.dead, selector, c);
    case Worker =>
      var (r, q) := Step(s, Reserving, c);
      var e := Xreadgroup(s.b).1;
      if e.None? {
        AloneOne(s, Reserving, c);
        n := 1;
      } else {
        n := HandledAlone(r, e.value, c);
        AloneStep(s, Reserving, c, n);
        n := n + 1;
      }
  }
}
