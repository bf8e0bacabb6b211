/**
 No loss in the scan queue. Enqueuers, workers, reapers and operators run concurrently, one
 Redis command at a time, and may crash between any two. The promise is that every reference
 ever enqueued stays unread, or pending and in the stream, or in the dead stream, until its
 acknowledgement has recorded it as confirmed or an operator drops it.

 Trimming reads and then cuts, each read and the cut a command of its own. A floor read off
 the pending entries stays safe whatever happens before the cut; one read when nothing was
 pending need not: `SafeRun` says that no cut takes an entry the promise still rests on, and
 `IdleTrim` which commands of other clients can bring one about.
 */
module NoLoss {
  import opened Wrappers
  import opened Redis
  import opened ScanQueue
  import opened Texts

  // ---- the queue and its history -------------------------------------------------------------------------------

  datatype Place = InWork(id: Id) | InDead(id: Id)

  /** An entry that was added: where, for which enqueued reference, and with what text. */
  datatype Birth = Birth(place: Place, ob: nat, ref: string)

  /**
   `trail` lists every entry ever added, in order; an enqueued reference is identified by the
   position of its first entry. `done` and `dropped` are the references acknowledged after
   their confirmation was recorded, and those an operator's drop removed.
   */
  datatype State = State(b: Broker, trail: seq<Birth>, done: map<nat, string>, dropped: set<nat>, reserved: seq<Id>)

  function IndexOfPlace(trail: seq<Birth>, place: Place): (i: nat)
    ensures i <= |trail|
    ensures i < |trail| ==> trail[i].place == place
    ensures i == |trail| ==> forall j | 0 <= j < |trail| :: trail[j].place != place
  {
    if trail == [] || trail[0].place == place then 0
    else
      var k := IndexOfPlace(trail[1..], place);
      assert forall j | 0 < j < |trail| :: trail[j] == trail[1..][j - 1];
      1 + k
  }

  /** The enqueued reference an entry stands for. */
  function ObOf(trail: seq<Birth>, place: Place): nat {
    var i := IndexOfPlace(trail, place);
    if i == |trail| then i else trail[i].ob
  }

  function AddWork(s: State, ref: string, ob: nat, now: nat): (r: State)
    requires Valid(s.b)
    ensures Valid(r.b)
  {
    var b := Xadd(s.b, ref, now);
    s.(b := b, trail := s.trail + [Birth(InWork(b.lastGenerated), ob, ref)])
  }

  function AddDead(s: State, ref: string, note: string, ob: nat, now: nat): (r: State)
    requires Valid(s.b)
    ensures Valid(r.b)
  {
    var b := XaddDead(s.b, ref, note, now);
    s.(b := b, trail := s.trail + [Birth(InDead(b.lastDead), ob, ref)])
  }

  function Confirm(s: State, id: Id, digest: string, epoch: int): (r: State)
    requires Valid(s.b)
    ensures Valid(r.b)
  {
    s.(b := Zadd(s.b, digest, epoch), done := s.done[ObOf(s.trail, InWork(id)) := digest])
  }

  function DropDead(s: State, id: Id): (r: State)
    requires Valid(s.b)
    ensures Valid(r.b)
  {
    if At(s.b.dead, id).None? then s
    else s.(b := XdelDead(s.b, id), dropped := s.dropped + {ObOf(s.trail, InDead(id))})
  }

  function Read(s: State): (x: (State, Option<Entry>))
    requires Valid(s.b)
    ensures Valid(x.0.b)
  {
    var (b, e) := Xreadgroup(s.b);
    (s.(b := b, reserved := if e.None? then s.reserved else s.reserved + [e.value.id]), e)
  }

  // ---- programs --------------------------------------------------------------------------------------------------

  /** What a client does next; each constructor but the last stands before one command. */
  datatype Program =
    | Adding(refs: seq<string>)
    | Placing(digest: string, refs: seq<string>)
    | Reserving
    | Holding(id: Id, ref: string)
    | Confirming(id: Id, digest: string, epoch: int)
    | Confirmed(id: Id)
    | Failing(id: Id, ref: string, note: string)
    | FailedOver(id: Id)
    | Trimming
    | Cutting(min: Id)
    | Surveying
    | Measuring(lastDelivered: Id)
    | CuttingIdle(min: Id)
    | Reaping(cursor: Id, maxDeliveries: int)
    | Judging(todo: seq<Entry>, next: Id, maxDeliveries: int)
    | Burying(todo: seq<Entry>, next: Id, maxDeliveries: int)
    | Buried(todo: seq<Entry>, next: Id, maxDeliveries: int)
    | Replaying(todo: seq<Entry>, selector: string)
    | Replayed(todo: seq<Entry>, selector: string)
    | Dropping(todo: seq<Entry>, selector: string)
    | Finished

  /** What the environment decides at a step: the clock, who has gone idle, how the scan went. */
  datatype Choice = Choice(now: nat, idle: Id -> bool, result: ScanResult)

  function Decided(id: Id, ref: string, result: ScanResult): Program {
    match result
    case Attested(digest, epoch) => Confirming(id, digest, epoch)
    case NoReportYet => Finished
    case Failed(kind, action) => if kind == Permanent then Failing(id, ref, action) else Finished
  }

  function JudgeNext(b: Broker, todo: seq<Entry>, next: Id, maxDeliveries: int): Program {
    if todo == [] then (if next == ZERO then Trimming else Reaping(next, maxDeliveries))
    else if ShouldDeadLetter(TimesDelivered(b, todo[0].id), maxDeliveries) then Burying(todo, next, maxDeliveries)
    else Judging(todo[1..], next, maxDeliveries)
  }

  function StepProducer(s: State, p: Program, c: Choice): (x: (State, Program))
    requires Valid(s.b)
    ensures Valid(x.0.b)
  {
    match p
    case Adding(refs) =>
      if refs == [] then (s, Finished)
      else
        var digest := AfterFirst(refs[0], '@');
        (AddWork(s, refs[0], |s.trail|, c.now),
            if digest.Some? then Placing(digest.value, refs[1..]) else Adding(refs[1..]))
    case Placing(digest, refs) => (s.(b := Sadd(s.b, digest)), Adding(refs))
    case Replaying(todo, selector) =>
      if todo == [] then (s, Finished)
      else if !RefMatches(todo[0].ref, selector) then (s, Replaying(todo[1..], selector))
      else (AddWork(s, todo[0].ref, ObOf(s.trail, InDead(todo[0].id)), c.now), Replayed(todo, selector))
    case Replayed(todo, selector) =>
      if todo == [] then (s, Finished) else (s.(b := XdelDead(s.b, todo[0].id)), Replaying(todo[1..], selector))
    case Dropping(todo, selector) =>
      if todo == [] then (s, Finished)
      else (if RefMatches(todo[0].ref, selector) then DropDead(s, todo[0].id) else s, Dropping(todo[1..], selector))
    case _ => (s, p)
  }

  function StepWorker(s: State, p: Program, c: Choice): (x: (State, Program))
    requires Valid(s.b)
    ensures Valid(x.0.b)
  {
    match p
    case Reserving =>
      var (r, e) := Read(s);
      (r, if e.None? then Finished else Holding(e.value.id, e.value.ref))
    case Holding(id, ref) => (s, Decided(id, ref, c.result))
    case Confirming(id, digest, epoch) => (Confirm(s, id, digest, epoch), Confirmed(id))
    case Confirmed(id) => (s.(b := Xack(s.b, id)), Trimming)
    case Failing(id, ref, note) => (AddDead(s, ref, note, ObOf(s.trail, InWork(id)), c.now), FailedOver(id))
    case FailedOver(id) => (s.(b := Xack(s.b, id)), Trimming)
    case Trimming => (s, if s.b.pel != [] then Cutting(s.b.pel[0].id) else Surveying)
    case Cutting(min) => (s.(b := Xtrim(s.b, min)), Finished)
    case Surveying => (s, if s.b.lastDelivered == ZERO then Finished else Measuring(s.b.lastDelivered))
    case Measuring(lastDelivered) =>
      var floor := FloorWhenIdle(lastDelivered, s.b.lastGenerated);
      (s, if floor.None? then Finished else CuttingIdle(floor.value))
    case CuttingIdle(min) => (s.(b := Xtrim(s.b, min)), Finished)
    case _ => (s, p)
  }

  function StepReaper(s: State, p: Program, c: Choice): (x: (State, Program))
    requires Valid(s.b)
    ensures Valid(x.0.b)
  {
    match p
    case Reaping(cursor, maxDeliveries) =>
      var (b, next, msgs) := Xautoclaim(s.b, cursor, c.idle);
      (s.(b := b), Judging(msgs, next, maxDeliveries))
    case Judging(todo, next, maxDeliveries) => (s, JudgeNext(s.b, todo, next, maxDeliveries))
    case Burying(todo, next, maxDeliveries) =>
      if todo == [] then (s, Finished)
      else (AddDead(s, todo[0].ref, MAX_RETRIES, ObOf(s.trail, InWork(todo[0].id)), c.now),
           Buried(todo, next, maxDeliveries))
    case Buried(todo, next, maxDeliveries) =>
      if todo == [] then (s, Finished)
      else (s.(b := Xack(s.b, todo[0].id)), Judging(todo[1..], next, maxDeliveries))
    case _ => (s, p)
  }

  function Step(s: State, p: Program, c: Choice): (x: (State, Program))
    requires Valid(s.b)
    ensures Valid(x.0.b)
  {
    if p.Adding? || p.Placing? || p.Replaying? || p.Replayed? || p.Dropping? then StepProducer(s, p, c)
    else if p.Reaping? || p.Judging? || p.Burying? || p.Buried? then StepReaper(s, p, c)
    else StepWorker(s, p, c)
  }

  // ---- runs ---------------------------------------------------------------------------------------------------------

  datatype Launch =
    | Enqueuer(refs: seq<string>)
    | Worker
    | ReaperPod(maxDeliveries: int)
    | Replayer(selector: string)
    | Dropper(selector: string)

  datatype Event = Begin(pid: nat, launch: Launch) | Advance(pid: nat, choice: Choice) | Crash(pid: nat)

  datatype World = World(s: State, clients: map<nat, Program>)

  /** Replay and drop list the dead stream as they start. */
  function FirstProgram(l: Launch, b: Broker): Program {
    match l
    case Enqueuer(refs) => Adding(refs)
    case Worker => Reserving
    case ReaperPod(maxDeliveries) => Reaping(ZERO, maxDeliveries)
    case Replayer(selector) => Replaying(b.dead, selector)
    case Dropper(selector) => Dropping(b.dead, selector)
  }

  const AT_FIRST := World(State(EMPTY, [], map[], {}, []), map[])

  function React(w: World, e: Event): (r: World)
    requires Valid(w.s.b)
    ensures Valid(r.s.b)
  {
    match e
    case Begin(pid, l) => w.(clients := w.clients[pid := FirstProgram(l, w.s.b)])
    case Crash(pid) => w.(clients := w.clients - {pid})
    case Advance(pid, c) =>
      if pid !in w.clients then w
      else
        var (s, p) := Step(w.s, w.clients[pid], c);
        World(s, w.clients[pid := p])
  }

  function Play(es: seq<Event>): (w: World)
    ensures Valid(w.s.b)
  {
    if es == [] then AT_FIRST else React(Play(es[..|es| - 1]), es[|es| - 1])
  }

  // ---- the invariant ------------------------------------------------------------------------------------------------

  ghost predicate Live(b: Broker, place: Place, ref: string) {
    match place
    case InWork(id) => (exists e | e in b.work :: e.id == id && e.ref == ref) && Needed(b, id)
    case InDead(id) => exists d | d in b.dead :: d.id == id && d.ref == ref
  }

  ghost predicate Known(s: State, place: Place, ref: string) {
    exists i :: 0 <= i < |s.trail| && s.trail[i].place == place && s.trail[i].ref == ref
  }

  ghost predicate Settled(s: State, ob: nat) { ob in s.done || ob in s.dropped }

  ghost predicate Superseded(s: State, i: nat)
    requires i < |s.trail|
  {
    exists j :: i < j < |s.trail| && s.trail[j].ob == s.trail[i].ob
  }

  /** The entry may go: what it stands for is settled, or a later entry stands for it. */
  ghost predicate Released(s: State, place: Place) {
    exists i :: 0 <= i < |s.trail| && s.trail[i].place == place && (Settled(s, s.trail[i].ob) || Superseded(s, i))
  }

  ghost predicate TrailOk(s: State) {
    && (forall i, j | 0 <= i < j < |s.trail| :: s.trail[i].place != s.trail[j].place)
    && (forall i | 0 <= i < |s.trail| :: s.trail[i].place.InWork? ==> Le(s.trail[i].place.id, s.b.lastGenerated))
    && (forall i | 0 <= i < |s.trail| :: s.trail[i].place.InDead? ==> Le(s.trail[i].place.id, s.b.lastDead))
    && (forall i | 0 <= i < |s.trail| ::
          s.trail[i].ob <= i && s.trail[s.trail[i].ob].ob == s.trail[i].ob &&
              s.trail[s.trail[i].ob].ref == s.trail[i].ref)
  }

  ghost predicate EntriesKnown(s: State) {
    && (forall e | e in s.b.work :: Known(s, InWork(e.id), e.ref))
    && (forall d | d in s.b.dead :: Known(s, InDead(d.id), d.ref))
  }

  ghost predicate PendingInStream(b: Broker) {
    forall p | p in b.pel :: exists e | e in b.work :: e.id == p.id
  }

  ghost predicate ReservedOnce(s: State) {
    && (forall i, j | 0 <= i < j < |s.reserved| :: Lt(s.reserved[i], s.reserved[j]))
    && (forall id | id in s.reserved :: Le(id, s.b.lastDelivered))
  }

  /** The last entry of every unsettled reference is live. */
  ghost predicate LatestLive(s: State) {
    forall i | 0 <= i < |s.trail| && !Settled(s, s.trail[i].ob) && !Superseded(s, i) ::
        Live(s.b, s.trail[i].place, s.trail[i].ref)
  }

  ghost predicate Sound(s: State) {
    && Valid(s.b) && TrailOk(s) && EntriesKnown(s) && ReservedOnce(s) && LatestLive(s)
    && (forall ob | ob in s.done :: s.done[ob] in s.b.confirmed)
  }

  /** What holds of a client between its commands, whatever the others do. */
  ghost predicate Poised(p: Program, s: State) {
    match p
    case Adding(_) => true
    case Placing(_, _) => true
    case Reserving => true
    case Holding(id, ref) => Known(s, InWork(id), ref)
    case Confirming(id, _, _) => exists ref :: Known(s, InWork(id), ref)
    case Confirmed(id) => Released(s, InWork(id))
    case Failing(id, ref, _) => Known(s, InWork(id), ref)
    case FailedOver(id) => Released(s, InWork(id))
    case Trimming => true
    case Cutting(min) => Le(min, s.b.lastDelivered) && forall p | p in s.b.pel :: Le(min, p.id)
    case Surveying => true
    case Measuring(_) => true
    case CuttingIdle(_) => true
    case Reaping(_, _) => true
    case Judging(todo, _, _) => forall e | e in todo :: Known(s, InWork(e.id), e.ref)
    case Burying(todo, _, _) => forall e | e in todo :: Known(s, InWork(e.id), e.ref)
    case Buried(todo, _, _) => (forall e | e in todo :: Known(s, InWork(e.id), e.ref)) &&
        (todo != [] ==> Released(s, InWork(todo[0].id)))
    case Replaying(todo, _) => forall e | e in todo :: Known(s, InDead(e.id), e.ref)
    case Replayed(todo, _) => (forall e | e in todo :: Known(s, InDead(e.id), e.ref)) &&
        (todo != [] ==> Released(s, InDead(todo[0].id)))
    case Dropping(todo, _) => forall e | e in todo :: Known(s, InDead(e.id), e.ref)
    case Finished => true
  }

  /** How the queue may change under a client. */
  ghost predicate Grows(s: State, r: State) {
    && s.trail <= r.trail
    && s.done.Keys <= r.done.Keys && s.dropped <= r.dropped
    && Le(s.b.lastDelivered, r.b.lastDelivered)
    && forall p | p in r.b.pel :: Le(s.b.lastDelivered, p.id) || exists q | q in s.b.pel :: q.id == p.id
  }

  lemma KnownGrows(s: State, r: State, place: Place, ref: string)
    requires Known(s, place, ref) && s.trail <= r.trail
    ensures Known(r, place, ref)
  {
    var i :| 0 <= i < |s.trail| && s.trail[i].place == place && s.trail[i].ref == ref;
    assert r.trail[i] == s.trail[i];
  }

  lemma ReleasedGrows(s: State, r: State, place: Place)
    requires Released(s, place) && Grows(s, r)
    ensures Released(r, place)
  {
    var i :| 0 <= i < |s.trail| && s.trail[i].place == place && (Settled(s, s.trail[i].ob) || Superseded(s, i));
    assert r.trail[i] == s.trail[i];
    if Superseded(s, i) {
      var j :| i < j < |s.trail| && s.trail[j].ob == s.trail[i].ob;
      assert r.trail[j] == s.trail[j];
    }
  }

  /** A client's assumptions survive every step of the others. */
  lemma StaysPoised(p: Program, s: State, r: State)
    requires Poised(p, s) && Grows(s, r)
    ensures Poised(p, r)
  {
    hide Known, Released;
    forall place, ref | Known(s, place, ref) ensures Known(r, place, ref) {
      KnownGrows(s, r, place, ref);
    }
    forall place | Released(s, place) ensures Released(r, place) {
      ReleasedGrows(s, r, place);
    }
    if p.Cutting? {
      forall q | q in r.b.pel ensures Le(p.min, q.id) {
      }
    }
  }

  // ---- what each command keeps --------------------------------------------------------------------------------------

  /** The entry kept where it was, and as needed as before. */
  ghost predicate Keeps(b: Broker, r: Broker) {
    && (forall e | e in b.work && Needed(b, e.id) :: e in r.work && Needed(r, e.id))
    && (forall d | d in b.dead :: d in r.dead)
  }

  lemma LiveKept(b: Broker, r: Broker, place: Place, ref: string)
    requires Keeps(b, r) && Live(b, place, ref)
    ensures Live(r, place, ref)
  {
  }

  /** A change of the broker alone that adds no entry and keeps what is needed. */
  lemma SoundUnder(s: State, r: State)
    requires Sound(s) && Valid(r.b) && r.trail == s.trail && r.dropped == s.dropped && r.reserved == s.reserved
    requires Keeps(s.b, r.b)
    requires (forall e | e in r.b.work :: e in s.b.work) && (forall d | d in r.b.dead :: d in s.b.dead)
    requires Le(s.b.lastGenerated, r.b.lastGenerated) && Le(s.b.lastDead, r.b.lastDead) &&
               Le(s.b.lastDelivered, r.b.lastDelivered)
    requires s.done.Keys <= r.done.Keys && forall ob | ob in r.done :: r.done[ob] in r.b.confirmed
    ensures Sound(r)
  {
    hide Valid, Needed, Keeps, Live, Known;
    forall e | e in r.b.work ensures Known(r, InWork(e.id), e.ref) {
      KnownGrows(s, r, InWork(e.id), e.ref);
    }
    forall d | d in r.b.dead ensures Known(r, InDead(d.id), d.ref) {
      KnownGrows(s, r, InDead(d.id), d.ref);
    }
    forall i | 0 <= i < |r.trail| && !Settled(r, r.trail[i].ob) && !Superseded(r, i)
      ensures Live(r.b, r.trail[i].place, r.trail[i].ref)
    {
      assert !Superseded(s, i) && !Settled(s, s.trail[i].ob);
      LiveKept(s.b, r.b, r.trail[i].place, r.trail[i].ref);
    }
  }

  // ---- adding -------------------------------------------------------------------------------------------------------

  ghost predicate Adds(s: State, r: State, birth: Birth) {
    && r.trail == s.trail + [birth] && r.done == s.done && r.dropped == s.dropped && r.reserved == s.reserved
    && r.b.pel == s.b.pel && r.b.lastDelivered == s.b.lastDelivered && r.b.confirmed == s.b.confirmed
    && Valid(r.b) && Le(s.b.lastGenerated, r.b.lastGenerated) && Le(s.b.lastDead, r.b.lastDead)
    && Live(r.b, birth.place, birth.ref)
    && match birth.place
       case InWork(id) =>
         id == r.b.lastGenerated && Lt(s.b.lastGenerated, id) && r.b.work == s.b.work + [Entry(id, birth.ref, "")] &&
             r.b.dead == s.b.dead
       case InDead(id) =>
         id == r.b.lastDead && Lt(s.b.lastDead, id) && r.b.work == s.b.work
         && |r.b.dead| == |s.b.dead| + 1 && r.b.dead[..|s.b.dead|] == s.b.dead
         && r.b.dead[|s.b.dead|].id == id && r.b.dead[|s.b.dead|].ref == birth.ref
  }

  lemma AddWorkAdds(s: State, ref: string, ob: nat, now: nat)
    requires Sound(s)
    ensures var r := AddWork(s, ref, ob, now); Adds(s, r, Birth(InWork(r.b.lastGenerated), ob, ref))
  {
    var r := AddWork(s, ref, ob, now);
    var e := Entry(r.b.lastGenerated, ref, "");
    assert e in r.b.work;
    assert Needed(r.b, e.id);
  }

  lemma AddDeadAdds(s: State, ref: string, note: string, ob: nat, now: nat)
    requires Sound(s)
    ensures var r := AddDead(s, ref, note, ob, now); Adds(s, r, Birth(InDead(r.b.lastDead), ob, ref))
  {
    var r := AddDead(s, ref, note, ob, now);
    var d := Entry(r.b.lastDead, ref, note);
    assert d in r.b.dead;
  }

  /** The new entry starts a reference, or stands for one that was enqueued with the same text. */
  ghost predicate Stands(s: State, birth: Birth) {
    birth.ob == |s.trail|
    || (birth.ob < |s.trail| && s.trail[birth.ob].ob == birth.ob && s.trail[birth.ob].ref == birth.ref)
  }

  lemma AddedTrail(s: State, r: State, birth: Birth)
    requires Sound(s) && Adds(s, r, birth) && Stands(s, birth)
    ensures TrailOk(r)
  {
    hide Valid, Live, LatestLive, ReservedOnce, EntriesKnown;
    var n := |s.trail|;
    assert r.trail[n] == birth && forall i | 0 <= i < n :: r.trail[i] == s.trail[i];
    forall i | 0 <= i < n ensures r.trail[i].place != birth.place {
    }
  }

  lemma AddedKnown(s: State, r: State, birth: Birth)
    requires EntriesKnown(s) && Adds(s, r, birth)
    ensures EntriesKnown(r)
  {
    hide Valid, Live;
    assert r.trail[|s.trail|] == birth;
    assert Known(r, birth.place, birth.ref);
    forall e | e in r.b.work ensures Known(r, InWork(e.id), e.ref) {
      if e in s.b.work {
        KnownGrows(s, r, InWork(e.id), e.ref);
      }
    }
    forall d | d in r.b.dead ensures Known(r, InDead(d.id), d.ref) {
      if d in s.b.dead {
        KnownGrows(s, r, InDead(d.id), d.ref);
      } else {
        NewDead(s, r, birth, d);
      }
    }
  }

  lemma NewDead(s: State, r: State, birth: Birth, d: Entry)
    requires Adds(s, r, birth) && d in r.b.dead && d !in s.b.dead
    ensures birth.place == InDead(d.id) && birth.ref == d.ref
  {
    hide Valid, Live;
    if birth.place.InDead? {
      assert r.b.dead == s.b.dead + [r.b.dead[|s.b.dead|]];
    }
  }

  lemma SupersededGrows(s: State, r: State, i: nat)
    requires s.trail <= r.trail && i < |s.trail|
    ensures Superseded(s, i) ==> Superseded(r, i)
  {
    if Superseded(s, i) {
      var j :| i < j < |s.trail| && s.trail[j].ob == s.trail[i].ob;
      assert r.trail[j] == s.trail[j];
    }
  }

  lemma AddedLive(s: State, r: State, birth: Birth)
    requires Sound(s) && Adds(s, r, birth)
    ensures LatestLive(r)
  {
    hide Valid, ReservedOnce, TrailOk, EntriesKnown;
    var n := |s.trail|;
    assert r.trail[n] == birth && forall i | 0 <= i < n :: r.trail[i] == s.trail[i];
    assert forall e | e in s.b.work :: e in r.b.work;
    forall d | d in s.b.dead ensures d in r.b.dead {
      if birth.place.InDead? {
        var k :| 0 <= k < |s.b.dead| && s.b.dead[k] == d;
        assert r.b.dead[..|s.b.dead|][k] == d;
      }
    }
    forall i | 0 <= i < |r.trail| && !Settled(r, r.trail[i].ob) && !Superseded(r, i)
      ensures Live(r.b, r.trail[i].place, r.trail[i].ref)
    {
      if i < n {
        SupersededGrows(s, r, i);
        assert Live(s.b, s.trail[i].place, s.trail[i].ref);
      }
    }
  }

  lemma AddedSound(s: State, r: State, birth: Birth)
    requires Sound(s) && Adds(s, r, birth) && Stands(s, birth)
    ensures Sound(r) && Grows(s, r)
    ensures forall place, ref | Known(s, place, ref) && ObOf(s.trail, place) == birth.ob :: Released(r, place)
  {
    hide Valid, Live, LatestLive, TrailOk, EntriesKnown;
    AddedTrail(s, r, birth);
    AddedKnown(s, r, birth);
    AddedLive(s, r, birth);
    forall place, ref | Known(s, place, ref) && ObOf(s.trail, place) == birth.ob ensures Released(r, place) {
      var i := IndexOfPlace(s.trail, place);
      assert i < |s.trail| && r.trail[i] == s.trail[i] && r.trail[|s.trail|] == birth;
      assert Superseded(r, i);
    }
  }

  /** An entry already known stands for an enqueued reference with its own text. */
  lemma KnownStands(s: State, place: Place, ref: string, at: Place)
    requires TrailOk(s) && Known(s, place, ref)
    ensures Stands(s, Birth(at, ObOf(s.trail, place), ref))
  {
    var i :| 0 <= i < |s.trail| && s.trail[i].place == place && s.trail[i].ref == ref;
    var j := IndexOfPlace(s.trail, place);
    assert i == j;
  }

  // ---- removing -----------------------------------------------------------------------------------------------------

  lemma ReleasedIsNotLatest(s: State, place: Place, i: nat)
    requires TrailOk(s) && Released(s, place) && i < |s.trail| && s.trail[i].place == place
    ensures Settled(s, s.trail[i].ob) || Superseded(s, i)
  {
  }

  lemma AckSound(s: State, id: Id)
    requires Sound(s) && Released(s, InWork(id))
    ensures Sound(s.(b := Xack(s.b, id))) && Grows(s, s.(b := Xack(s.b, id)))
  {
    hide Valid, Known, Settled, Released, Le, Lt;
    var r := s.(b := Xack(s.b, id));
    assert forall p: Pending | p.id != id :: p in r.b.pel <==> p in s.b.pel;
    assert forall place, ref :: Known(r, place, ref) <==> Known(s, place, ref) by {
      forall place, ref ensures Known(r, place, ref) <==> Known(s, place, ref) {
        SameTrail(s, r, place, ref);
      }
    }
    forall i | 0 <= i < |r.trail| && !Settled(r, r.trail[i].ob) && !Superseded(r, i)
      ensures Live(r.b, r.trail[i].place, r.trail[i].ref)
    {
      SameSettled(s, r, i);
      var place := s.trail[i].place;
      if place == InWork(id) {
        ReleasedIsNotLatest(s, place, i);
      } else {
        assert Live(s.b, place, s.trail[i].ref);
      }
    }
    SameBounds(s, r);
  }

  lemma SameTrail(s: State, r: State, place: Place, ref: string)
    requires s.trail == r.trail
    ensures Known(r, place, ref) <==> Known(s, place, ref)
  {
  }

  lemma SameSettled(s: State, r: State, i: nat)
    requires s.trail == r.trail && s.done == r.done && s.dropped == r.dropped && i < |s.trail|
    ensures Settled(s, s.trail[i].ob) <==> Settled(r, r.trail[i].ob)
    ensures Superseded(s, i) <==> Superseded(r, i)
  {
  }

  lemma SameBounds(s: State, r: State)
    requires r == s.(b := r.b) && s.b.lastDelivered == r.b.lastDelivered && s.b.lastGenerated == r.b.lastGenerated &&
               s.b.lastDead == r.b.lastDead
    requires forall p | p in r.b.pel :: exists q | q in s.b.pel :: q.id == p.id
    ensures Grows(s, r)
    ensures TrailOk(s) ==> TrailOk(r)
    ensures ReservedOnce(s) ==> ReservedOnce(r)
  {
  }

  lemma DeleteLive(s: State, r: State, id: Id)
    requires Sound(s) && Valid(r.b) && r.trail == s.trail && r.b.work == s.b.work && r.b.pel == s.b.pel &&
               r.b.lastDelivered == s.b.lastDelivered
    requires s.done.Keys <= r.done.Keys && s.dropped <= r.dropped && Released(r, InDead(id)) && TrailOk(r)
    requires forall d | d in s.b.dead && d.id != id :: d in r.b.dead
    ensures LatestLive(r)
  {
    hide Valid, Known, Released, ReservedOnce, EntriesKnown, Le, Lt, TrailOk;
    forall i | 0 <= i < |r.trail| && !Settled(r, r.trail[i].ob) && !Superseded(r, i)
      ensures Live(r.b, r.trail[i].place, r.trail[i].ref)
    {
      if r.trail[i].place == InDead(id) {
        ReleasedIsNotLatest(r, InDead(id), i);
      } else {
        assert !Settled(s, s.trail[i].ob) && !Superseded(s, i);
        assert Live(s.b, s.trail[i].place, s.trail[i].ref);
      }
    }
  }

  lemma DeadRemoved(s: State, id: Id, dropped: set<nat>)
    requires Sound(s) && s.dropped <= dropped && Released(s.(dropped := dropped), InDead(id))
    ensures var r := s.(b := XdelDead(s.b, id), dropped := dropped); Sound(r) && Grows(s, r)
  {
    hide Valid, Released, Live, Le, Lt, Known;
    var r := s.(b := XdelDead(s.b, id), dropped := dropped);
    assert Released(r, InDead(id)) by { SameRelease(s.(dropped := dropped), r, InDead(id)); }
    assert TrailOk(r);
    DeleteLive(s, r, id);
    forall place, ref ensures Known(r, place, ref) <==> Known(s, place, ref) {
      SameTrail(s, r, place, ref);
    }
    ReflLe(s.b.lastDelivered);
  }

  lemma ReflLe(id: Id)
    ensures Le(id, id)
  {
  }

  lemma SameRelease(s: State, r: State, place: Place)
    requires s.trail == r.trail && s.done == r.done && s.dropped == r.dropped
    ensures Released(s, place) <==> Released(r, place)
  {
    forall i | 0 <= i < |s.trail| ensures Superseded(s, i) <==> Superseded(r, i) {
    }
  }

  lemma DropSound(s: State, id: Id, ref: string)
    requires Sound(s) && Known(s, InDead(id), ref)
    ensures Sound(DropDead(s, id)) && Grows(s, DropDead(s, id))
  {
    hide Valid, Live, Le, Lt, LatestLive, EntriesKnown;
    ReflLe(s.b.lastDelivered);
    if At(s.b.dead, id).Some? {
      var dropped := s.dropped + {ObOf(s.trail, InDead(id))};
      var i := IndexOfPlace(s.trail, InDead(id));
      assert Settled(s.(dropped := dropped), s.trail[i].ob);
      DeadRemoved(s, id, dropped);
    }
  }

  // ---- the other commands -------------------------------------------------------------------------------------------

  lemma ConfirmSound(s: State, id: Id, ref: string, digest: string, epoch: int)
    requires Sound(s) && Known(s, InWork(id), ref)
    ensures var r := Confirm(s, id, digest, epoch); Sound(r) && Grows(s, r) && Released(r, InWork(id))
  {
    hide Valid, Live, Le, Lt, LatestLive, EntriesKnown, TrailOk, ReservedOnce;
    var r := Confirm(s, id, digest, epoch);
    ReflLe(s.b.lastDelivered);
    ReflLe(s.b.lastGenerated);
    ReflLe(s.b.lastDead);
    var i := IndexOfPlace(s.trail, InWork(id));
    assert Settled(r, r.trail[i].ob);
    assert Keeps(s.b, r.b);
    SoundUnder(s, r);
  }

  lemma PlaceSound(s: State, digest: string)
    requires Sound(s)
    ensures var r := s.(b := Sadd(s.b, digest)); Sound(r) && Grows(s, r)
  {
    hide Valid, Live, Le, Lt, LatestLive, EntriesKnown, TrailOk, ReservedOnce;
    var r := s.(b := Sadd(s.b, digest));
    ReflLe(s.b.lastDelivered);
    ReflLe(s.b.lastGenerated);
    ReflLe(s.b.lastDead);
    assert Keeps(s.b, r.b);
    SoundUnder(s, r);
  }

  /** No last entry of an open reference lies below the floor. */
  ghost predicate SafeCut(s: State, min: Id) {
    forall i | 0 <= i < |s.trail| && !Settled(s, s.trail[i].ob) && !Superseded(s, i) && s.trail[i].place.InWork? ::
      Le(min, s.trail[i].place.id)
  }

  /** A cut keeps every open reference exactly when it is safe. */
  lemma CutKeepsIff(s: State, min: Id)
    requires Sound(s)
    ensures LatestLive(s.(b := Xtrim(s.b, min))) <==> SafeCut(s, min)
  {
    hide TrailOk, EntriesKnown, ReservedOnce;
    var r := s.(b := Xtrim(s.b, min));
    forall i | 0 <= i < |s.trail|
      ensures Settled(r, r.trail[i].ob) <==> Settled(s, s.trail[i].ob)
      ensures Superseded(r, i) <==> Superseded(s, i)
      ensures !Settled(s, s.trail[i].ob) && !Superseded(s, i) ==>
                (Live(r.b, r.trail[i].place, r.trail[i].ref) <==>
                    (s.trail[i].place.InWork? ==> Le(min, s.trail[i].place.id)))
    {
      SameSettled(s, r, i);
      if !Settled(s, s.trail[i].ob) && !Superseded(s, i) {
        CutAtPlace(s.b, min, s.trail[i].place, s.trail[i].ref);
      }
    }
  }

  lemma CutAtPlace(b: Broker, min: Id, place: Place, ref: string)
    requires Valid(b) && Live(b, place, ref)
    ensures Live(Xtrim(b, min), place, ref) <==> (place.InWork? ==> Le(min, place.id))
  {
  }

  lemma CutSound(s: State, min: Id)
    requires Sound(s)
    ensures var r := s.(b := Xtrim(s.b, min)); Grows(s, r) && (Sound(r) <==> SafeCut(s, min))
  {
    hide Valid, Live, Le, Lt, LatestLive, SafeCut, Known, Settled;
    var r := s.(b := Xtrim(s.b, min));
    CutKeepsIff(s, min);
    forall place, ref ensures Known(r, place, ref) <==> Known(s, place, ref) {
      SameTrail(s, r, place, ref);
    }
    SameBounds(s, r);
  }

  /** The pending floor read earlier is still at or below everything needed. */
  lemma CuttingIsSafe(s: State, min: Id)
    requires Valid(s.b) && Poised(Cutting(min), s)
    ensures forall e | e in s.b.work && Needed(s.b, e.id) :: Le(min, e.id)
  {
  }

  /** What keeps every needed entry is safe. */
  lemma KeepingIsSafe(s: State, min: Id)
    requires Sound(s) && forall e | e in s.b.work && Needed(s.b, e.id) :: Le(min, e.id)
    ensures SafeCut(s, min)
  {
    hide Valid, Needed, Le, TrailOk, EntriesKnown, ReservedOnce;
    forall i | 0 <= i < |s.trail| && !Settled(s, s.trail[i].ob) && !Superseded(s, i) && s.trail[i].place.InWork?
      ensures Le(min, s.trail[i].place.id)
    {
      assert Live(s.b, s.trail[i].place, s.trail[i].ref);
    }
  }

  lemma ReadSound(s: State)
    requires Sound(s)
    ensures var (r, e) := Read(s); Sound(r) && Grows(s, r) && (e.Some? ==> Known(r, InWork(e.value.id), e.value.ref))
  {
    hide Live, LatestLive, EntriesKnown, TrailOk, ReservedOnce;
    var (r, e) := Read(s);
    if e.Some? {
      AfterIsFirst(s.b.work, s.b.lastDelivered);
      ReadKeeps(s, r, e.value);
      var x := r.(reserved := s.reserved);
      SoundUnder(s, x);
      ReadReserved(s, r, e.value);
      assert EntriesKnown(x) && EntriesKnown(s);
      SameFacts(x, r);
      EntryKnown(s, e.value);
      KnownGrows(s, r, InWork(e.value.id), e.value.ref);
    }
  }

  lemma EntryKnown(s: State, e: Entry)
    requires EntriesKnown(s) && e in s.b.work
    ensures Known(s, InWork(e.id), e.ref)
  {
  }

  lemma SameFacts(x: State, r: State)
    requires r == x.(reserved := r.reserved) && Sound(x) && ReservedOnce(r)
    ensures Sound(r)
  {
    hide Valid, Live;
    forall place, ref ensures Known(r, place, ref) <==> Known(x, place, ref) {
      SameTrail(x, r, place, ref);
    }
    forall i | 0 <= i < |x.trail|
      ensures (Settled(x, x.trail[i].ob) <==> Settled(r, r.trail[i].ob)) && (Superseded(x, i) <==> Superseded(r, i))
    {
      SameSettled(x, r, i);
    }
  }

  lemma ReadKeeps(s: State, r: State, e: Entry)
    requires Valid(s.b) && r == Read(s).0 && Read(s).1 == Some(e)
    requires forall f | f in s.b.work && Lt(s.b.lastDelivered, f.id) :: Le(e.id, f.id)
    ensures Keeps(s.b, r.b) && Grows(s, r)
  {
    forall f | f in s.b.work && Needed(s.b, f.id) ensures f in r.b.work && Needed(r.b, f.id) {
      if Lt(s.b.lastDelivered, f.id) {
        if f.id == e.id {
          assert Pending(e.id, 1) in r.b.pel;
        }
      } else {
        var p :| p in s.b.pel && p.id == f.id;
        assert p in r.b.pel;
      }
    }
  }

  lemma ReadReserved(s: State, r: State, e: Entry)
    requires Valid(s.b) && ReservedOnce(s) && r == Read(s).0 && Read(s).1 == Some(e)
    ensures ReservedOnce(r)
  {
    forall id | id in r.reserved ensures Le(id, r.b.lastDelivered) {
    }
    forall i, j | 0 <= i < j < |r.reserved| ensures Lt(r.reserved[i], r.reserved[j]) {
      if j == |s.reserved| {
        assert s.reserved[i] in s.reserved;
      }
    }
  }

  lemma {:induction false} ScanForgetsOnlyMissing(pel: seq<Pending>, work: seq<Entry>, idle: Id -> bool, count: nat,
                                                  attempts: nat)
    ensures forall p | p in pel && At(work, p.id).Some? ::
              exists q | q in ScanPending(pel, work, idle, count, attempts).pel :: q.id == p.id
  {
    if pel != [] && count > 0 && attempts > 0 {
      var c := if At(work, pel[0].id).Some? && !idle(pel[0].id) then count else count - 1;
      ScanForgetsOnlyMissing(pel[1..], work, idle, c, attempts - 1);
      var rest, all := ScanPending(pel[1..], work, idle, c, attempts - 1).pel,
          ScanPending(pel, work, idle, count, attempts).pel;
      assert pel == [pel[0]] + pel[1..];
      assert forall q | q in rest :: q in all;
      if At(work, pel[0].id).Some? {
        assert all[0].id == pel[0].id && all[0] in all;
      }
    }
  }

  /** A claim forgets no pending entry that is still in the stream. */
  lemma ClaimKeepsPending(b: Broker, cursor: Id, idle: Id -> bool, p: Pending)
    requires Valid(b) && p in b.pel && At(b.work, p.id).Some?
    ensures exists q | q in Xautoclaim(b, cursor, idle).0.pel :: q.id == p.id
  {
    hide ScanPending, Position, Valid, At;
    var k := Position(b.pel, cursor);
    var tail, after := b.pel[k..], Xautoclaim(b, cursor, idle).0.pel;
    var s := ScanPending(tail, b.work, idle, CLAIM_COUNT, CLAIM_ATTEMPTS).pel;
    assert after == b.pel[..k] + s;
    assert b.pel == b.pel[..k] + tail;
    if p in tail {
      ScanForgetsOnlyMissing(tail, b.work, idle, CLAIM_COUNT, CLAIM_ATTEMPTS);
      var q :| q in s && q.id == p.id;
      assert q in after;
    } else {
      assert p in after;
    }
  }

  lemma ClaimKeeps(s: State, cursor: Id, idle: Id -> bool)
    requires Valid(s.b)
    ensures Keeps(s.b, Xautoclaim(s.b, cursor, idle).0)
  {
    hide Xautoclaim;
    var b := Xautoclaim(s.b, cursor, idle).0;
    ClaimAddsNone(s.b, cursor, idle);
    forall e | e in s.b.work && Needed(s.b, e.id) ensures Needed(b, e.id) {
      if p :| p in s.b.pel && p.id == e.id {
        InStream(s.b, e);
        ClaimKeepsPending(s.b, cursor, idle, p);
      }
    }
  }

  lemma InStream(b: Broker, e: Entry)
    requires e in b.work
    ensures At(b.work, e.id).Some?
  {
  }

  lemma ClaimAddsNone(b: Broker, cursor: Id, idle: Id -> bool)
    requires Valid(b)
    ensures var r := Xautoclaim(b, cursor, idle).0;
            r == b.(pel := r.pel) && forall p | p in r.pel :: exists q | q in b.pel :: q.id == p.id
  {
    hide ScanPending, Position;
    ScanAscends(b.pel, Position(b.pel, cursor), b.work, idle, CLAIM_COUNT, CLAIM_ATTEMPTS);
  }

  lemma ClaimSound(s: State, cursor: Id, idle: Id -> bool)
    requires Sound(s)
    ensures var (b, _, msgs) := Xautoclaim(s.b, cursor, idle);
            Sound(s.(b := b)) && Grows(s, s.(b := b)) && forall e | e in msgs :: Known(s.(b := b), InWork(e.id), e.ref)
  {
    hide Xautoclaim, Live, Le, Lt, LatestLive, TrailOk, ReservedOnce, Known, Valid;
    var (b, next, msgs) := Xautoclaim(s.b, cursor, idle);
    var r := s.(b := b);
    ClaimAddsNone(s.b, cursor, idle);
    ReflLe(s.b.lastDelivered);
    ReflLe(s.b.lastGenerated);
    ReflLe(s.b.lastDead);
    ClaimKeeps(s, cursor, idle);
    SoundUnder(s, r);
    SameBounds(s, r);
    forall e | e in msgs ensures Known(r, InWork(e.id), e.ref) {
      KnownGrows(s, r, InWork(e.id), e.ref);
    }
  }

  // ---- every step ---------------------------------------------------------------------------------------------------

  lemma Unchanged(s: State)
    ensures Grows(s, s)
  {
  }

  lemma AddWorkSound(s: State, ref: string, ob: nat, now: nat)
    requires Sound(s) && Stands(s, Birth(InWork(ZERO), ob, ref))
    ensures var r := AddWork(s, ref, ob, now);
            Sound(r) && Grows(s, r) && forall place, t | Known(s, place, t) && ObOf(s.trail, place) == ob ::
                Released(r, place)
  {
    hide Sound, Adds, Grows, Known, Released, ObOf;
    SoundTrail(s);
    AddWorkAdds(s, ref, ob, now);
    var r := AddWork(s, ref, ob, now);
    AddedSound(s, r, Birth(InWork(r.b.lastGenerated), ob, ref));
  }

  lemma AddDeadSound(s: State, ref: string, note: string, ob: nat, now: nat)
    requires Sound(s) && Stands(s, Birth(InWork(ZERO), ob, ref))
    ensures var r := AddDead(s, ref, note, ob, now);
            Sound(r) && Grows(s, r) && forall place, t | Known(s, place, t) && ObOf(s.trail, place) == ob ::
                Released(r, place)
  {
    hide Sound, Adds, Grows, Known, Released, ObOf;
    SoundTrail(s);
    AddDeadAdds(s, ref, note, ob, now);
    var r := AddDead(s, ref, note, ob, now);
    AddedSound(s, r, Birth(InDead(r.b.lastDead), ob, ref));
  }

  lemma AllKnownGrow(s: State, r: State, todo: seq<Entry>, dead: bool)
    requires Grows(s, r)
    requires forall e | e in todo :: Known(s, if dead then InDead(e.id) else InWork(e.id), e.ref)
    ensures forall e | e in todo :: Known(r, if dead then InDead(e.id) else InWork(e.id), e.ref)
    ensures todo != [] ==> forall e | e in todo[1..] :: e in todo
  {
    hide Known;
    forall e | e in todo ensures Known(r, if dead then InDead(e.id) else InWork(e.id), e.ref) {
      KnownGrows(s, r, if dead then InDead(e.id) else InWork(e.id), e.ref);
    }
  }

  lemma SoundTrail(s: State)
    requires Sound(s)
    ensures TrailOk(s) && EntriesKnown(s) && Valid(s.b)
  {
  }

  lemma ReplayStep(s: State, todo: seq<Entry>, selector: string, c: Choice)
    requires Sound(s) && Poised(Replaying(todo, selector), s)
    ensures var (r, q) := StepProducer(s, Replaying(todo, selector), c); Sound(r) && Poised(q, r) && Grows(s, r)
  {
    hide Sound, Grows, Known, Released, ObOf, RefMatches, AddWork, TrailOk;
    SoundTrail(s);
    Unchanged(s);
    if todo != [] {
      var ob := ObOf(s.trail, InDead(todo[0].id));
      assert todo[0] in todo;
      KnownStands(s, InDead(todo[0].id), todo[0].ref, InWork(ZERO));
      AddWorkSound(s, todo[0].ref, ob, c.now);
      AllKnownGrow(s, AddWork(s, todo[0].ref, ob, c.now), todo, true);
    }
  }

  lemma ProducerStep(s: State, p: Program, c: Choice)
    requires Sound(s) && Poised(p, s)
    ensures var (r, q) := StepProducer(s, p, c); Sound(r) && Poised(q, r) && Grows(s, r)
  {
    hide Sound, Grows, Known, Released, ObOf, RefMatches, AfterFirst, AddWork, DropDead, TrailOk;
    SoundTrail(s);
    Unchanged(s);
    match p
    case Adding(refs) =>
      if refs != [] {
        AddWorkSound(s, refs[0], |s.trail|, c.now);
      }
    case Placing(digest, refs) => PlaceSound(s, digest);
    case Replaying(todo, selector) => ReplayStep(s, todo, selector, c);
    case Replayed(todo, selector) =>
      if todo != [] {
        DeadRemoved(s, todo[0].id, s.dropped);
        AllKnownGrow(s, s.(b := XdelDead(s.b, todo[0].id)), todo, true);
      }
    case Dropping(todo, selector) =>
      if todo != [] {
        assert todo[0] in todo;
        DropSound(s, todo[0].id, todo[0].ref);
        AllKnownGrow(s, DropDead(s, todo[0].id), todo, true);
      }
    case _ =>
  }

  lemma WorkerStep(s: State, p: Program, c: Choice)
    requires Sound(s) && Poised(p, s) && (p.CuttingIdle? ==> SafeCut(s, p.min))
    ensures var (r, q) := StepWorker(s, p, c); Sound(r) && Poised(q, r) && Grows(s, r)
  {
    hide Sound, Grows, Known, Released, ObOf, AddDead, Confirm, Read, TrailOk, Le, Lt, Xack, Xtrim, Valid, SafeCut;
    SoundTrail(s);
    Unchanged(s);
    match p
    case Reserving => ReadSound(s);
    case Holding(id, ref) =>
    case Confirming(id, digest, epoch) =>
      var ref :| Known(s, InWork(id), ref);
      ConfirmSound(s, id, ref, digest, epoch);
    case Confirmed(id) => AckSound(s, id);
    case Failing(id, ref, note) =>
      KnownStands(s, InWork(id), ref, InWork(ZERO));
      AddDeadSound(s, ref, note, ObOf(s.trail, InWork(id)), c.now);
    case FailedOver(id) => AckSound(s, id);
    case Trimming =>
      if s.b.pel != [] {
        OldestPending(s.b);
      }
    case Cutting(min) =>
      CuttingIsSafe(s, min);
      KeepingIsSafe(s, min);
      CutSound(s, min);
    case CuttingIdle(min) => CutSound(s, min);
    case _ =>
  }

  lemma OldestPending(b: Broker)
    requires Valid(b) && b.pel != []
    ensures Le(b.pel[0].id, b.lastDelivered) && forall p | p in b.pel :: Le(b.pel[0].id, p.id)
  {
    assert b.pel[0] in b.pel;
    forall p | p in b.pel ensures Le(b.pel[0].id, p.id) {
      var i :| 0 <= i < |b.pel| && b.pel[i] == p;
      assert i == 0 || Lt(PendingId(b.pel[0]), PendingId(b.pel[i]));
    }
  }

  lemma ReaperStep(s: State, p: Program, c: Choice)
    requires Sound(s) && Poised(p, s)
    ensures var (r, q) := StepReaper(s, p, c); Sound(r) && Poised(q, r) && Grows(s, r)
  {
    hide Sound, Grows, Known, Released, ObOf, AddDead, Xautoclaim, TrailOk, Xack, Valid, TimesDelivered;
    SoundTrail(s);
    Unchanged(s);
    match p
    case Reaping(cursor, maxDeliveries) => ClaimSound(s, cursor, c.idle);
    case Judging(todo, next, maxDeliveries) =>
      AllKnownGrow(s, s, todo, false);
    case Burying(todo, next, maxDeliveries) =>
      if todo != [] {
        assert todo[0] in todo;
        var ob := ObOf(s.trail, InWork(todo[0].id));
        KnownStands(s, InWork(todo[0].id), todo[0].ref, InWork(ZERO));
        AddDeadSound(s, todo[0].ref, MAX_RETRIES, ob, c.now);
        AllKnownGrow(s, AddDead(s, todo[0].ref, MAX_RETRIES, ob, c.now), todo, false);
      }
    case Buried(todo, next, maxDeliveries) =>
      if todo != [] {
        AckSound(s, todo[0].id);
        AllKnownGrow(s, s.(b := Xack(s.b, todo[0].id)), todo, false);
      }
    case _ =>
  }

  // ---- over runs ----------------------------------------------------------------------------------------------------

  ghost predicate Steady(w: World) {
    Sound(w.s) && forall pid | pid in w.clients :: Poised(w.clients[pid], w.s)
  }

  lemma StepSteady(s: State, p: Program, c: Choice)
    requires Sound(s) && Poised(p, s) && (p.CuttingIdle? ==> SafeCut(s, p.min))
    ensures var (r, q) := Step(s, p, c); Sound(r) && Poised(q, r) && Grows(s, r)
  {
    hide Sound, Poised, Grows, StepProducer, StepReaper, StepWorker, SafeCut;
    if p.Adding? || p.Placing? || p.Replaying? || p.Replayed? || p.Dropping? {
      ProducerStep(s, p, c);
    } else if p.Reaping? || p.Judging? || p.Burying? || p.Buried? {
      ReaperStep(s, p, c);
    } else {
      WorkerStep(s, p, c);
    }
  }

  /** If the event is an idle cut, it is safe where it falls. */
  ghost predicate SafeAt(w: World, e: Event) {
    e.Advance? && e.pid in w.clients && w.clients[e.pid].CuttingIdle? ==> SafeCut(w.s, w.clients[e.pid].min)
  }

  lemma ReactSteady(w: World, e: Event)
    requires Steady(w) && SafeAt(w, e)
    ensures Steady(React(w, e))
  {
    hide Sound, Poised, Grows, Step, Known, SafeCut;
    match e
    case Begin(pid, l) =>
      BeginPoised(w.s, l);
    case Crash(pid) =>
    case Advance(pid, c) =>
      if pid in w.clients {
        SoundTrail(w.s);
        StepSteady(w.s, w.clients[pid], c);
        var r := Step(w.s, w.clients[pid], c).0;
        forall q | q in w.clients ensures Poised(w.clients[q], r) {
          StaysPoised(w.clients[q], w.s, r);
        }
      }
  }

  lemma BeginPoised(s: State, l: Launch)
    requires Sound(s)
    ensures Poised(FirstProgram(l, s.b), s)
  {
    hide Known;
  }

  /** Every cut of a trim that found nothing pending was safe where it fell. */
  ghost predicate SafeRun(es: seq<Event>) {
    forall k | 0 <= k < |es| :: SafeAt(Play(es[..k]), es[k])
  }

  lemma SafePrefix(es: seq<Event>, k: nat)
    requires k <= |es|
    ensures SafeRun(es) ==> SafeRun(es[..k])
  {
    hide Play, SafeAt;
    if SafeRun(es) {
      forall j | 0 <= j < k ensures SafeAt(Play(es[..k][..j]), es[..k][j]) {
        assert es[..k][..j] == es[..j];
      }
    }
  }

  lemma {:induction false} AlwaysSteady(es: seq<Event>)
    requires SafeRun(es)
    ensures Steady(Play(es))
  {
    hide Steady, React, SafeAt, SafeRun;
    if es == [] {
      FirstSteady();
    } else {
      SafeStep(es);
      AlwaysSteady(es[..|es| - 1]);
      ReactSteady(Play(es[..|es| - 1]), es[|es| - 1]);
    }
  }

  lemma FirstSteady()
    ensures Steady(AT_FIRST)
  {
  }

  /** Some entry stands for the reference and is live. */
  ghost predicate StillQueued(s: State, ob: nat)
    requires ob < |s.trail|
  {
    exists i :: 0 <= i < |s.trail| && s.trail[i].ob == ob && Live(s.b, s.trail[i].place, s.trail[ob].ref)
  }

  lemma {:induction false} LastStanding(s: State, i: nat) returns (j: nat)
    requires i < |s.trail|
    ensures i <= j < |s.trail| && s.trail[j].ob == s.trail[i].ob && !Superseded(s, j)
    decreases |s.trail| - i
  {
    if Superseded(s, i) {
      var k :| i < k < |s.trail| && s.trail[k].ob == s.trail[i].ob;
      j := LastStanding(s, k);
    } else {
      j := i;
    }
  }

  /**
   No loss: after any interleaving of enqueues, workers, reapers, replays, drops, trims and
   crashes between commands in which idle cuts are safe, every reference ever enqueued is
   recorded as confirmed by its acknowledgement, or was dropped, or is unread or pending in the
   work stream, or dead.
   */
  lemma NothingIsLost(es: seq<Event>, ob: nat)
    requires SafeRun(es)
    requires var s := Play(es).s; ob < |s.trail| && s.trail[ob].ob == ob
    ensures var s := Play(es).s;
            (ob in s.done && s.done[ob] in s.b.confirmed) || ob in s.dropped || StillQueued(s, ob)
  {
    hide Play, Live, Valid, SafeRun;
    AlwaysSteady(es);
    var s := Play(es).s;
    if !Settled(s, ob) {
      var j := LastStanding(s, ob);
      assert Live(s.b, s.trail[j].place, s.trail[j].ref);
    }
  }

  lemma UnsafeBreaks(w: World, e: Event)
    requires Steady(w) && !SafeAt(w, e)
    ensures !LatestLive(React(w, e).s)
  {
    hide LatestLive, SafeCut, Sound, Poised;
    CutKeepsIff(w.s, w.clients[e.pid].min);
  }

  lemma SafeStep(es: seq<Event>)
    requires es != []
    ensures SafeRun(es) <==> SafeRun(es[..|es| - 1]) && SafeAt(Play(es[..|es| - 1]), es[|es| - 1])
  {
    hide Play, SafeAt;
    var n := |es| - 1;
    SafePrefix(es, n);
    assert forall k | 0 <= k < n :: es[..n][..k] == es[..k] && es[..n][k] == es[k];
  }

  /** At every point of the run the last entry of every open reference is in place. */
  ghost predicate LiveThroughout(es: seq<Event>) {
    forall k | 0 <= k <= |es| :: LatestLive(Play(es[..k]).s)
  }

  lemma LiveStep(es: seq<Event>)
    requires es != []
    ensures LiveThroughout(es) <==> LiveThroughout(es[..|es| - 1]) && LatestLive(Play(es).s)
  {
    hide Play, LatestLive;
    var n := |es| - 1;
    if LiveThroughout(es) {
      forall k | 0 <= k <= n ensures LatestLive(Play(es[..n][..k]).s) {
        assert es[..n][..k] == es[..k];
      }
      assert LatestLive(Play(es[..n + 1]).s) && es[..n + 1] == es;
    }
    if LiveThroughout(es[..n]) && LatestLive(Play(es).s) {
      forall k | 0 <= k <= |es| ensures LatestLive(Play(es[..k]).s) {
        if k <= n {
          assert es[..n][..k] == es[..k];
        } else {
          assert es[..k] == es;
        }
      }
    }
  }

  /**
   And only then. At every point of a run the last entry of every open reference is in place if
   and only if every idle cut was safe where it fell: an unsafe one takes such an entry at once.
   */
  lemma {:induction false} NoLossIff(es: seq<Event>)
    ensures LiveThroughout(es) <==> SafeRun(es)
  {
    hide LiveThroughout, SafeRun, LatestLive, SafeAt, Steady, React;
    if es == [] {
      NothingYet(es);
    } else {
      var n := |es| - 1;
      NoLossIff(es[..n]);
      SafeStep(es);
      LiveStep(es);
      if SafeRun(es[..n]) {
        AlwaysSteady(es[..n]);
        if SafeAt(Play(es[..n]), es[n]) {
          ReactSteady(Play(es[..n]), es[n]);
          SteadyIsLive(Play(es));
        } else {
          UnsafeBreaks(Play(es[..n]), es[n]);
        }
      }
    }
  }

  lemma NothingYet(es: seq<Event>)
    requires es == []
    ensures LiveThroughout(es) && SafeRun(es)
  {
    FirstSteady();
  }

  lemma SteadyIsLive(w: World)
    requires Steady(w)
    ensures LatestLive(w.s)
  {
  }

  // ---- cuts that keep everything needed -----------------------------------------------------------------------------

  /** Every idle cut kept every needed entry, released ones too. */
  ghost predicate KeepingRun(es: seq<Event>) {
    forall k | 0 <= k < |es| :: KeepsAt(Play(es[..k]), es[k])
  }

  ghost predicate KeepsAt(w: World, e: Event) {
    e.Advance? && e.pid in w.clients && w.clients[e.pid].CuttingIdle? ==>
      forall x | x in w.s.b.work && Needed(w.s.b, x.id) :: Le(w.clients[e.pid].min, x.id)
  }

  lemma {:induction false} KeepingIsSafeRun(es: seq<Event>)
    requires KeepingRun(es)
    ensures SafeRun(es)
  {
    hide Play, SafeCut, Needed, Le, Valid;
    if es != [] {
      var n := |es| - 1;
      forall k | 0 <= k < n ensures es[..n][..k] == es[..k] {
      }
      KeepingIsSafeRun(es[..n]);
      AlwaysSteady(es[..n]);
      var w := Play(es[..n]);
      if es[n].Advance? && es[n].pid in w.clients && w.clients[es[n].pid].CuttingIdle? {
        assert KeepsAt(w, es[n]);
        KeepingIsSafe(w.s, w.clients[es[n].pid].min);
      }
      forall k | 0 <= k < |es| ensures SafeAt(Play(es[..k]), es[k]) {
        if k < n {
          assert SafeAt(Play(es[..n][..k]), es[..n][k]);
        }
      }
    }
  }

  // ---- reservations -------------------------------------------------------------------------------------------------

  lemma ReadOnce(s: State)
    requires Valid(s.b) && ReservedOnce(s)
    ensures ReservedOnce(Read(s).0)
  {
    var (r, e) := Read(s);
    if e.Some? {
      AfterIsFirst(s.b.work, s.b.lastDelivered);
      ReadReserved(s, r, e.value);
    }
  }

  lemma StepReserves(s: State, p: Program, c: Choice)
    requires Valid(s.b) && ReservedOnce(s)
    ensures ReservedOnce(Step(s, p, c).0)
  {
    hide Valid, Read, ObOf, TimesDelivered, RefMatches, AfterFirst, Xautoclaim;
    if p.Reserving? {
      ReadOnce(s);
    } else if p.Reaping? {
      ClaimAddsNone(s.b, p.cursor, c.idle);
    }
  }

  /** No id is handed out by a reservation twice, in any run at all. */
  lemma {:induction false} ReservedAtMostOnce(es: seq<Event>)
    ensures ReservedOnce(Play(es).s)
    ensures var s := Play(es).s; forall i, j | 0 <= i < j < |s.reserved| :: s.reserved[i] != s.reserved[j]
  {
    hide Step;
    if es != [] {
      var n := |es| - 1;
      ReservedAtMostOnce(es[..n]);
      var w, e := Play(es[..n]), es[n];
      if e.Advance? && e.pid in w.clients {
        StepReserves(w.s, w.clients[e.pid], e.choice);
      }
    }
  }

  lemma StepPends(s: State, p: Program, c: Choice)
    requires Valid(s.b) && PendingInStream(s.b) && Poised(p, s)
    requires p.CuttingIdle? ==> forall e | e in s.b.work && Needed(s.b, e.id) :: Le(p.min, e.id)
    ensures PendingInStream(Step(s, p, c).0.b)
  {
    hide Valid, ObOf, TimesDelivered, RefMatches, AfterFirst, Xautoclaim, Released, Known;
    if p.Reaping? {
      ClaimAddsNone(s.b, p.cursor, c.idle);
    } else if p.Reserving? {
      ReadPends(s);
    } else if p.Cutting? {
      CuttingIsSafe(s, p.min);
      CutPends(s.b, p.min);
    } else if p.CuttingIdle? {
      CutPends(s.b, p.min);
    } else if p.Adding? || p.Replaying? {
      AddPends(s);
    }
  }

  lemma ReadPends(s: State)
    requires Valid(s.b) && PendingInStream(s.b)
    ensures PendingInStream(Read(s).0.b)
  {
    AfterIsFirst(s.b.work, s.b.lastDelivered);
  }

  lemma AddPends(s: State)
    requires Valid(s.b) && PendingInStream(s.b)
    ensures forall ref, now: nat :: PendingInStream(Xadd(s.b, ref, now))
  {
    forall ref, now: nat ensures PendingInStream(Xadd(s.b, ref, now)) {
      assert forall e | e in s.b.work :: e in Xadd(s.b, ref, now).work;
    }
  }

  lemma CutPends(b: Broker, min: Id)
    requires Valid(b) && PendingInStream(b) && forall e | e in b.work && Needed(b, e.id) :: Le(min, e.id)
    ensures PendingInStream(Xtrim(b, min))
  {
    forall p | p in b.pel ensures exists e | e in Xtrim(b, min).work :: e.id == p.id {
      var e :| e in b.work && e.id == p.id;
      assert Needed(b, e.id);
    }
  }

  /** What is pending is in the stream throughout every run whose idle cuts keep what is needed. */
  lemma {:induction false} PendingStays(es: seq<Event>)
    requires KeepingRun(es)
    ensures PendingInStream(Play(es).s.b)
  {
    hide Step, Sound, Poised, Valid, Needed, Le;
    if es != [] {
      var n := |es| - 1;
      forall k | 0 <= k < n ensures es[..n][..k] == es[..k] {
      }
      PendingStays(es[..n]);
      KeepingIsSafeRun(es[..n]);
      AlwaysSteady(es[..n]);
      var w, e := Play(es[..n]), es[n];
      assert KeepsAt(w, e);
      if e.Advance? && e.pid in w.clients {
        StepPends(w.s, w.clients[e.pid], e.choice);
      }
    }
  }

  // ---- how an idle trim that is interrupted loses entries -----------------------------------------------------------

  /**
   Between reading that nothing is pending and reading the ids, an entry is added and
   reserved: the cut removes it while it is pending.
   */
  lemma SplitTrimLosesReserved(ref: string)
    ensures var b := EMPTY.(lastGenerated := Id(5, 0), lastDelivered := Id(5, 0));
            var (c, e) := Xreadgroup(Xadd(b, ref, 7));
            && Valid(b) && b.pel == [] && e == Some(Entry(Id(7, 0), ref, ""))
            && FloorWhenIdle(c.lastDelivered, c.lastGenerated) == Some(Id(8, 0))
            && Needed(c, Id(7, 0)) && c.work == [e.value] && Xtrim(c, Id(8, 0)).work == []
  {
    var b := EMPTY.(lastGenerated := Id(5, 0), lastDelivered := Id(5, 0));
    var a := Xadd(b, ref, 7);
    assert a.work == [Entry(Id(7, 0), ref, "")];
    var (c, e) := Xreadgroup(a);
    assert Pending(Id(7, 0), 1) in c.pel;
  }

  /** Between reading the ids and the cut, an entry is added in the same millisecond: it goes unread. */
  lemma SplitTrimLosesUnread(ref: string)
    ensures var b := EMPTY.(lastGenerated := Id(5, 0), lastDelivered := Id(5, 0));
            var floor := FloorWhenIdle(b.lastDelivered, b.lastGenerated);
            var c := Xadd(b, ref, 5);
            && Valid(b) && b.pel == [] && floor == Some(Id(6, 0))
            && Needed(c, Id(5, 1)) && c.work == [Entry(Id(5, 1), ref, "")] && Xtrim(c, floor.value).work == []
  {
  }

  // One run in which both happen to a client of the code as it is: "a" is enqueued, read, confirmed and
  // acknowledged; the trim that follows finds nothing pending and reads the ids; "b" is enqueued in the
  // same millisecond; the cut takes both.

  const FIFTH := Choice(5, (id: Id) => false, Attested("d", 0))

  const A := Entry(Id(5, 0), "a", "")

  const B := Entry(Id(5, 1), "b", "")

  function Acknowledged(): Broker { Broker([A], A.id, A.id, [], [], ZERO, map["d" := 0], {}) }

  function Handled(b: Broker, more: seq<Birth>): State {
    State(b, [Birth(InWork(A.id), 0, "a")] + more, map[0 := "d"], {}, [A.id])
  }

  const ENQUEUED := [Begin(0, Enqueuer(["a"])), Advance(0, FIFTH)]

  const HELD := ENQUEUED + [Begin(1, Worker), Advance(1, FIFTH), Advance(1, FIFTH)]

  const TRIMMING := HELD + [Advance(1, FIFTH), Advance(1, FIFTH)]

  const MEASURED := TRIMMING + [Advance(1, FIFTH), Advance(1, FIFTH), Advance(1, FIFTH)]

  const LOSING := MEASURED + [Begin(2, Enqueuer(["b"])), Advance(2, FIFTH), Advance(1, FIFTH)]

  lemma Then(es: seq<Event>, e: Event)
    ensures Play(es + [e]) == React(Play(es), e)
  {
    assert (es + [e])[..|es|] == es;
  }

  lemma Then2(es: seq<Event>, e: Event, f: Event)
    ensures Play(es + [e, f]) == React(React(Play(es), e), f)
  {
    hide React;
    Then(es, e);
    Then(es + [e], f);
    assert es + [e] + [f] == es + [e, f];
  }

  lemma Then3(es: seq<Event>, e: Event, f: Event, g: Event)
    ensures Play(es + [e, f, g]) == React(React(React(Play(es), e), f), g)
  {
    hide React;
    Then2(es, e, f);
    Then(es + [e, f], g);
    assert es + [e, f] + [g] == es + [e, f, g];
  }

  lemma AfterEnqueue()
    ensures Play(ENQUEUED) ==
              World(State(EMPTY.(work := [A], lastGenerated := A.id), [Birth(InWork(A.id), 0, "a")], map[], {}, []),
                                    map[0 := Adding([])])
  {
    Then2([], Begin(0, Enqueuer(["a"])), Advance(0, FIFTH));
    assert [] + ENQUEUED == ENQUEUED;
    assert ["a"][1..] == [];
    assert AfterFirst("a", '@').None? by { NoAt("a"); }
  }

  lemma NoAt(s: string)
    requires |s| == 1 && s[0] != '@'
    ensures AfterFirst(s, '@').None?
  {
  }

  function Unread(): State {
    State(EMPTY.(work := [A], lastGenerated := A.id), [Birth(InWork(A.id), 0, "a")], map[], {}, [])
  }

  function Held(): State {
    State(Broker([A], A.id, A.id, [Pending(A.id, 1)], [], ZERO, map[], {}), [Birth(InWork(A.id), 0, "a")], map[], {},
        [A.id])
  }

  lemma ReadsA()
    requires Valid(Unread().b)
    ensures Step(Unread(), Reserving, FIFTH) == (Held(), Holding(A.id, "a"))
  {
    hide Valid;
    assert After([A], ZERO) == Some(A);
    assert [] + [Pending(A.id, 1)] == [Pending(A.id, 1)] && [] + [A.id] == [A.id];
  }

  lemma ConfirmsA()
    requires Valid(Held().b)
    ensures Step(Held(), Confirming(A.id, "d", 0), FIFTH)
            == (Handled(Acknowledged().(pel := [Pending(A.id, 1)]), []), Confirmed(A.id))
  {
    hide Valid;
    assert ObOf(Held().trail, InWork(A.id)) == 0;
    assert [Birth(InWork(A.id), 0, "a")] + [] == [Birth(InWork(A.id), 0, "a")];
  }

  lemma AcksA()
    requires Valid(Acknowledged().(pel := [Pending(A.id, 1)]))
    ensures Step(Handled(Acknowledged().(pel := [Pending(A.id, 1)]), []), Confirmed(A.id), FIFTH) ==
              (Handled(Acknowledged(), []), Trimming)
  {
    hide Valid;
    var pel := [Pending(A.id, 1)];
    assert pel[1..] == [];
    assert Where(pel, (p: Pending) => p.id != A.id) == [];
  }

  lemma ReadsIds()
    requires Valid(Acknowledged())
    ensures var s := Handled(Acknowledged(), []);
            && Step(s, Trimming, FIFTH) == (s, Surveying) && Step(s, Surveying, FIFTH) == (s, Measuring(A.id))
            && Step(s, Measuring(A.id), FIFTH) == (s, CuttingIdle(Id(6, 0)))
  {
    hide Valid;
  }

  lemma AddsB()
    requires Valid(Acknowledged())
    ensures Step(Handled(Acknowledged(), []), Adding(["b"]), FIFTH)
            == (Handled(Acknowledged().(work := [A, B], lastGenerated := B.id), [Birth(InWork(B.id), 1, "b")]),
                Adding([]))
  {
    hide Valid;
    NoAt("b");
    assert ["b"][1..] == [] && [A] + [B] == [A, B];
    assert [Birth(InWork(A.id), 0, "a")] + [] == [Birth(InWork(A.id), 0, "a")];
  }

  lemma CutsBoth()
    requires Valid(Acknowledged().(work := [A, B], lastGenerated := B.id))
    ensures Step(Handled(Acknowledged().(work := [A, B], lastGenerated := B.id), [Birth(InWork(B.id), 1, "b")]),
              CuttingIdle(Id(6, 0)), FIFTH).0
            == Handled(Acknowledged().(work := [], lastGenerated := B.id), [Birth(InWork(B.id), 1, "b")])
  {
    hide Valid;
    var two := [A, B];
    assert two[1..] == [B] && [B][1..] == [];
    assert Where(two, (e: Entry) => Le(Id(6, 0), e.id)) == [];
  }

  lemma AfterHeld()
    ensures Play(HELD).s == Held() && 1 in Play(HELD).clients && Play(HELD).clients[1] == Confirming(A.id, "d", 0)
  {
    hide Step, Valid;
    AfterEnqueue();
    Then3(ENQUEUED, Begin(1, Worker), Advance(1, FIFTH), Advance(1, FIFTH));
    assert Play(ENQUEUED).s == Unread();
    ReadsA();
    HoldsA();
  }

  lemma HoldsA()
    requires Valid(Held().b)
    ensures Step(Held(), Holding(A.id, "a"), FIFTH) == (Held(), Confirming(A.id, "d", 0))
  {
    hide Valid;
  }

  lemma AfterAck()
    ensures Play(TRIMMING).s == Handled(Acknowledged(), []) && 1 in Play(TRIMMING).clients &&
              Play(TRIMMING).clients[1] == Trimming
  {
    hide Step, Valid;
    AfterHeld();
    Then2(HELD, Advance(1, FIFTH), Advance(1, FIFTH));
    ConfirmsA();
    AcksA();
  }

  lemma AfterMeasure()
    ensures Play(MEASURED).s == Handled(Acknowledged(), [])
    ensures 1 in Play(MEASURED).clients && Play(MEASURED).clients[1] == CuttingIdle(Id(6, 0))
  {
    hide Step, Valid;
    AfterAck();
    Then3(TRIMMING, Advance(1, FIFTH), Advance(1, FIFTH), Advance(1, FIFTH));
    ReadsIds();
  }

  lemma AfterCut()
    ensures Play(LOSING).s == Handled(Acknowledged().(work := [], lastGenerated := B.id), [Birth(InWork(B.id), 1, "b")])
  {
    hide Step, Valid;
    AfterMeasure();
    Then3(MEASURED, Begin(2, Enqueuer(["b"])), Advance(2, FIFTH), Advance(1, FIFTH));
    AddsB();
    CutsBoth();
  }

  /**
   The promise is false of the code without the condition: after this run a reference is confirmed
   by nobody, dropped by nobody, and nowhere.
   */
  lemma InterruptedTrimLoses()
    ensures var s := Play(LOSING).s;
            && |s.trail| == 2 && s.trail[1].ob == 1 && s.trail[1].ref == "b"
            && 1 !in s.done && 1 !in s.dropped && !StillQueued(s, 1)
    ensures !SafeRun(LOSING)
  {
    hide Play, SafeRun;
    AfterCut();
    var s := Play(LOSING).s;
    assert s.b.work == [] && s.b.dead == [];
    if SafeRun(LOSING) {
      NothingIsLost(LOSING, 1);
    }
  }

  // ---- a client left alone does what the adapter's methods do -------------------------------------------------------

  function Alone(s: State, p: Program, c: Choice, n: nat): (x: (State, Program))
    requires Valid(s.b)
    ensures Valid(x.0.b)
    decreases n
  {
    if n == 0 then (s, p)
    else
      var (r, q) := Step(s, p, c);
      Alone(r, q, c, n - 1)
  }

  lemma {:induction false} AloneOnward(s: State, p: Program, c: Choice, m: nat, n: nat)
    requires Valid(s.b)
    ensures Alone(s, p, c, m + n) == (var (r, q) := Alone(s, p, c, m); Alone(r, q, c, n))
    decreases m
  {
    hide Step, Valid;
    if m > 0 {
      var (r, q) := Step(s, p, c);
      AloneOnward(r, q, c, m - 1, n);
    }
  }

  lemma TrimAlone(s: State, c: Choice) returns (n: nat)
    requires Valid(s.b)
    ensures Alone(s, Trimming, c, n).1 == Finished && Alone(s, Trimming, c, n).0.b == TrimMinid(s.b)
  {
    hide Valid, Alone;
    var (r, q) := Step(s, Trimming, c);
    AloneOne(r, q, c);
    AloneStep(s, Trimming, c, 1);
    if s.b.pel != [] {
      n := 2;
    } else {
      var (t, o) := Step(r, q, c);
      AloneStep(r, q, c, 1);
      AloneOne(t, o, c);
      AloneStep(s, Trimming, c, 2);
      if s.b.lastDelivered == ZERO {
        n := 2;
      } else {
        var (u, m) := Step(t, o, c);
        AloneOne(u, m, c);
        AloneStep(t, o, c, 1);
        AloneStep(r, q, c, 2);
        AloneStep(s, Trimming, c, 3);
        n := 4;
      }
    }
  }

  lemma AckAlone(s: State, id: Id, digest: string, epoch: int, c: Choice) returns (n: nat)
    requires Valid(s.b)
    ensures Alone(s, Confirming(id, digest, epoch), c, n).1 == Finished
    ensures Alone(s, Confirming(id, digest, epoch), c, n).0.b == Ack(s.b, id, digest, epoch)
  {
    hide TrimMinid, Valid;
    var (r, q) := Step(s, Confirming(id, digest, epoch), c);
    var (t, o) := Step(r, q, c);
    assert o == Trimming;
    var k := TrimAlone(t, c);
    n := k + 2;
    assert Alone(r, q, c, k + 1) == Alone(t, o, c, k);
    assert Alone(s, Confirming(id, digest, epoch), c, k + 2) == Alone(r, q, c, k + 1);
  }

  lemma DeadLetterAlone(s: State, id: Id, ref: string, note: string, c: Choice) returns (n: nat)
    requires Valid(s.b)
    ensures Alone(s, Failing(id, ref, note), c, n).1 == Finished
    ensures Alone(s, Failing(id, ref, note), c, n).0.b == DeadLetter(s.b, id, ref, note, c.now)
  {
    hide TrimMinid, Valid;
    var (r, q) := Step(s, Failing(id, ref, note), c);
    var (t, o) := Step(r, q, c);
    assert o == Trimming;
    var k := TrimAlone(t, c);
    n := k + 2;
    assert Alone(r, q, c, k + 1) == Alone(t, o, c, k);
    assert Alone(s, Failing(id, ref, note), c, k + 2) == Alone(r, q, c, k + 1);
  }

  /** The steps for one claimed entry. */
  lemma JudgeAlone(s: State, todo: seq<Entry>, next: Id, maxDeliveries: int, c: Choice) returns (n: nat)
    requires Valid(s.b) && todo != []
    ensures var (r, q) := Alone(s, Judging(todo, next, maxDeliveries), c, n);
            && q == Judging(todo[1..], next, maxDeliveries)
            && r.b == if ShouldDeadLetter(TimesDelivered(s.b, todo[0].id), maxDeliveries)
                      then DeadLetterNoTrim(s.b, todo[0].id, todo[0].ref, MAX_RETRIES, c.now) else s.b
  {
    hide Valid, TimesDelivered, ObOf;
    var p := Judging(todo, next, maxDeliveries);
    var (s1, p1) := Step(s, p, c);
    if ShouldDeadLetter(TimesDelivered(s.b, todo[0].id), maxDeliveries) {
      n := 3;
      var (s2, p2) := Step(s1, p1, c);
      var (s3, p3) := Step(s2, p2, c);
      assert Alone(s2, p2, c, 1) == Alone(s3, p3, c, 0);
      assert Alone(s1, p1, c, 2) == Alone(s2, p2, c, 1);
      assert Alone(s, p, c, 3) == Alone(s1, p1, c, 2);
    } else {
      n := 1;
      assert Alone(s, p, c, 1) == Alone(s1, p1, c, 0);
    }
  }

  /** Judging a claimed batch alone retires what the reaper's loop retires. */
  lemma {:induction false} RetireAlone(s: State, todo: seq<Entry>, next: Id, maxDeliveries: int, c: Choice)
    returns (n: nat)
    requires Valid(s.b)
    ensures var (r, q) := Alone(s, Judging(todo, next, maxDeliveries), c, n);
            q == Judging([], next, maxDeliveries) && r.b == Retire(s.b, todo, maxDeliveries, c.now)
    decreases |todo|
  {
    hide Valid, TimesDelivered, Step, DeadLetterNoTrim;
    if todo == [] {
      n := 0;
    } else {
      var k := JudgeAlone(s, todo, next, maxDeliveries, c);
      var (r, q) := Alone(s, Judging(todo, next, maxDeliveries), c, k);
      var m := RetireAlone(r, todo[1..], next, maxDeliveries, c);
      n := k + m;
      AloneOnward(s, Judging(todo, next, maxDeliveries), c, k, m);
    }
  }

  /** One turn of the claim loop alone. */
  lemma TurnAlone(s: State, cursor: Id, maxDeliveries: int, c: Choice) returns (n: nat)
    requires Valid(s.b)
    ensures var (b1, next, msgs) := Xautoclaim(s.b, cursor, c.idle);
            var (r, q) := Alone(s, Reaping(cursor, maxDeliveries), c, n);
            && q == (if next == ZERO then Trimming else Reaping(next, maxDeliveries))
            && r.b == Retire(b1, msgs, maxDeliveries, c.now)
  {
    hide Valid, Xautoclaim, Retire, Alone;
    var p := Reaping(cursor, maxDeliveries);
    var (b1, next, msgs) := Xautoclaim(s.b, cursor, c.idle);
    var (s1, p1) := Step(s, p, c);
    var k := RetireAlone(s1, msgs, next, maxDeliveries, c);
    var (s2, p2) := Alone(s1, p1, c, k);
    AloneStep(s, p, c, k);
    AloneOne(s2, p2, c);
    AloneOnward(s, p, c, k + 1, 1);
    n := k + 2;
  }

  /** The claim loop alone, up to its final trim. */
  lemma {:induction false} ReapAlone(s: State, cursor: Id, maxDeliveries: int, c: Choice) returns (n: nat)
    requires Valid(s.b)
    ensures var (r, q) := Alone(s, Reaping(cursor, maxDeliveries), c, n);
            q == Trimming && r.b == ReapFrom(s.b, cursor, c.idle, maxDeliveries, c.now).0
    decreases Ahead(s.b.pel, cursor)
  {
    hide Valid, Xautoclaim, Retire, Ahead, Alone, Step;
    var p := Reaping(cursor, maxDeliveries);
    var next := Xautoclaim(s.b, cursor, c.idle).1;
    n := TurnAlone(s, cursor, maxDeliveries, c);
    if next != ZERO {
      ScanLeavesFewer(s.b, cursor, c.idle, maxDeliveries, c.now);
      var r := Alone(s, p, c, n).0;
      var m := ReapAlone(r, next, maxDeliveries, c);
      AloneOnward(s, p, c, n, m);
      n := n + m;
    }
  }

  lemma AloneOne(s: State, p: Program, c: Choice)
    requires Valid(s.b)
    ensures Alone(s, p, c, 1) == Step(s, p, c)
  {
    hide Step;
    var (r, q) := Step(s, p, c);
    assert Alone(r, q, c, 0) == (r, q);
  }

  lemma AloneStep(s: State, p: Program, c: Choice, k: nat)
    requires Valid(s.b)
    ensures Alone(s, p, c, k + 1) == (var (r, q) := Step(s, p, c); Alone(r, q, c, k))
  {
    hide Step;
  }

  lemma {:induction false} EnqueueAlone(s: State, refs: seq<string>, c: Choice) returns (n: nat)
    requires Valid(s.b)
    ensures Alone(s, Adding(refs), c, n).1 == Finished
    ensures Alone(s, Adding(refs), c, n).0.b == Enqueue(s.b, refs, c.now)
    decreases |refs|
  {
    hide Valid, AfterFirst;
    var (s1, p1) := Step(s, Adding(refs), c);
    AloneOne(s, Adding(refs), c);
    if refs == [] {
      n := 1;
    } else if AfterFirst(refs[0], '@').Some? {
      var (s2, p2) := Step(s1, p1, c);
      var k := EnqueueAlone(s2, refs[1..], c);
      AloneStep(s1, p1, c, k);
      AloneStep(s, Adding(refs), c, k + 1);
      n := k + 2;
    } else {
      var k := EnqueueAlone(s1, refs[1..], c);
      AloneStep(s, Adding(refs), c, k);
      n := k + 1;
    }
  }

  lemma {:induction false} ReplayAlone(s: State, todo: seq<Entry>, selector: string, c: Choice) returns (n: nat)
    requires Valid(s.b)
    ensures Alone(s, Replaying(todo, selector), c, n).1 == Finished
    ensures Alone(s, Replaying(todo, selector), c, n).0.b == Replay(s.b, todo, selector, c.now).0
    decreases |todo|
  {
    hide Valid, RefMatches, ObOf;
    var p := Replaying(todo, selector);
    var (s1, p1) := Step(s, p, c);
    AloneOne(s, p, c);
    if todo == [] {
      n := 1;
    } else if RefMatches(todo[0].ref, selector) {
      var (s2, p2) := Step(s1, p1, c);
      var k := ReplayAlone(s2, todo[1..], selector, c);
      AloneStep(s1, p1, c, k);
      AloneStep(s, p, c, k + 1);
      n := k + 2;
    } else {
      var k := ReplayAlone(s1, todo[1..], selector, c);
      AloneStep(s, p, c, k);
      n := k + 1;
    }
  }

  lemma {:induction false} AllKept(es: seq<Entry>, keep: Entry -> bool)
    requires forall e | e in es :: keep(e)
    ensures Where(es, keep) == es
  {
    if es != [] {
      assert es == [es[0]] + es[1..];
      AllKept(es[1..], keep);
    }
  }

  lemma DeleteAbsent(b: Broker, id: Id)
    requires Valid(b) && At(b.dead, id).None?
    ensures XdelDead(b, id) == b
  {
    AllKept(b.dead, (e: Entry) => e.id != id);
  }

  lemma {:induction false} DropAlone(s: State, todo: seq<Entry>, selector: string, c: Choice) returns (n: nat)
    requires Valid(s.b)
    ensures Alone(s, Dropping(todo, selector), c, n).1 == Finished
    ensures Alone(s, Dropping(todo, selector), c, n).0.b == Drop(s.b, todo, selector).0
    decreases |todo|
  {
    hide Valid, RefMatches, ObOf;
    var p := Dropping(todo, selector);
    var (s1, p1) := Step(s, p, c);
    AloneOne(s, p, c);
    if todo == [] {
      n := 1;
    } else {
      if At(s.b.dead, todo[0].id).None? {
        DeleteAbsent(s.b, todo[0].id);
      }
      var k := DropAlone(s1, todo[1..], selector, c);
      AloneStep(s, p, c, k);
      n := k + 1;
    }
  }
}
