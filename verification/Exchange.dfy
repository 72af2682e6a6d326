/** Any number of request handlers, workers and clean-up tasks sharing the queue
    and the waiter table, one lock acquisition or one locked section at a time. */
module Exchange {
  import opened Basics
  import opened Conveyer

  // ----------------------------------------------------------- the threads

  datatype Thread = Waitress(id: Id) | Porter(number: nat) | Janitor(tick: nat)

  /** Where a thread is in its code. A handler goes from `Register` to
      `Finished`, a worker from `Consume` to `Rested`, a clean-up task from
      `Sweep` to `Swept`. */
  datatype Stage =
    | Register | Registering
    | Produce | Producing | Evict(victim: Id) | Evicting(victim: Id) | Pushing
    | Await
    | Withdraw | Withdrawing
    | Retract | Retracting
    | Finished(answer: Option<Package>)
    | Consume | Consuming | Serve(order: Package) | Responding(order: Package) | Rested
    | Sweep | Sweeping | Purge(todo: set<Id>) | Purging(id: Id, todo: set<Id>) | Swept
  {
    predicate HoldsQueue()
    {
      Producing? || Evict? || Evicting? || Pushing? || Retracting? || Consuming? || Purging?
    }

    predicate HoldsDesk()
    {
      Registering? || Evicting? || Withdrawing? || Responding? || Sweeping?
    }

    predicate WantsQueue()
    {
      Produce? || Retract? || Consume? || (Purge? && todo != {})
    }

    predicate WantsDesk()
    {
      Register? || Evict? || Withdraw? || Serve? || Sweep?
    }

    /** A place in the queue has been made for the order about to be pushed. */
    predicate MadeRoom()
    {
      Evict? || Evicting? || Pushing?
    }

    /** The handler's entry may be in the waiter table. */
    predicate MayWait()
    {
      Produce? || Producing? || Evict? || Evicting? || Pushing? || Await? || Withdraw? || Withdrawing?
    }

    /** The handler's order may be in the queue. */
    predicate MayQueue()
    {
      Await? || Withdraw? || Withdrawing? || Retract? || Retracting?
    }

    predicate OfWorker()
    {
      Consume? || Consuming? || Serve? || Responding? || Rested?
    }

    predicate OfCleaner()
    {
      Sweep? || Sweeping? || Purge? || Purging? || Swept?
    }
  }

  predicate Suits(t: Thread, g: Stage)
  {
    match t
    case Waitress(_) => !g.OfWorker() && !g.OfCleaner()
    case Porter(_) => g.OfWorker()
    case Janitor(_) => g.OfCleaner()
  }

  /** What has happened to the orders so far; `at` numbers them by arrival. */
  datatype Log = Log(
    produced: seq<Package>,
    at: map<Id, nat>,
    consumed: seq<Package>,
    evicted: set<Id>,
    removed: set<Id>,
    answered: seq<Id>)

  datatype State = State(
    threads: map<Thread, Stage>,
    bodies: map<Id, Bytes>,
    queueLock: Option<Thread>,
    deskLock: Option<Thread>,
    queue: seq<Package>,
    desk: Desk,
    log: Log)

  const START := State(map[], map[], None, None, [], Desk(map[], map[]), Log([], map[], [], {}, {}, []))

  // ------------------------------------------------------------- the steps

  datatype Step =
    | Arrive(id: Id, body: Bytes)
    | Hire(number: nat)
    | Tick(tick: nat)
    | Enter(thread: Thread, pick: Id)
    | Act(thread: Thread, now: nat, answer: Bytes)
    | Timeout(id: Id)

  function Moved(s: State, t: Thread, g: Stage): State
  {
    s.(threads := s.threads[t := g])
  }

  /** The section a thread enters with its lock; a clean-up task picks the next
      of its ids. */
  function Inside(g: Stage, pick: Id): Stage
    requires g.WantsQueue() || g.WantsDesk()
  {
    match g
    case Register => Registering
    case Produce => Producing
    case Evict(v) => Evicting(v)
    case Withdraw => Withdrawing
    case Retract => Retracting
    case Consume => Consuming
    case Serve(p) => Responding(p)
    case Sweep => Sweeping
    case Purge(todo) => Purging(pick, todo - {pick})
  }

  predicate CanEnter(s: State, t: Thread, pick: Id)
  {
    && t in s.threads && Suits(t, s.threads[t])
    && (s.threads[t].WantsQueue() || s.threads[t].WantsDesk())
    && (s.threads[t].WantsQueue() ==> s.queueLock == None)
    && (s.threads[t].WantsDesk() ==> s.deskLock == None)
    && (s.threads[t].Purge? ==> pick in s.threads[t].todo)
  }

  function Enters(s: State, t: Thread, pick: Id): State
    requires CanEnter(s, t, pick)
  {
    var s' := Moved(s, t, Inside(s.threads[t], pick));
    if s.threads[t].WantsQueue() then s'.(queueLock := Some(t)) else s'.(deskLock := Some(t))
  }

  function DoRegister(s: State, id: Id, now: nat): State
  {
    if id in s.desk.waiters then Moved(s, Waitress(id), Finished(None)).(deskLock := None)
    else Moved(s, Waitress(id), Produce).(deskLock := None, desk := Registered(s.desk, id, now))
  }

  function DoMakeRoom(s: State, id: Id): State
  {
    if |s.queue| >= CAPACITY then
      Moved(s, Waitress(id), Evict(s.queue[0].id))
        .(queue := s.queue[1..], log := s.log.(evicted := s.log.evicted + {s.queue[0].id}))
    else Moved(s, Waitress(id), Pushing)
  }

  function DoEvict(s: State, id: Id, victim: Id): State
  {
    Moved(s, Waitress(id), Pushing).(deskLock := None, desk := Dropped(s.desk, {victim}))
  }

  function DoPush(s: State, id: Id): State
    requires id in s.bodies
  {
    var p := Package(id, s.bodies[id]);
    Moved(s, Waitress(id), Await)
      .(queueLock := None, queue := s.queue + [p],
        log := s.log.(produced := s.log.produced + [p], at := s.log.at[id := |s.log.produced|]))
  }

  /** The wait ends with the answer or with the end of the channel. */
  function DoAwait(s: State, id: Id): State
    requires id in s.desk.channels
  {
    match s.desk.channels[id]
    case Sent(p) => Moved(s, Waitress(id), Finished(Some(p)))
    case _ => Moved(s, Waitress(id), Withdraw)
  }

  function DoWithdraw(s: State, id: Id): State
  {
    Moved(s, Waitress(id), Retract).(deskLock := None, desk := Dropped(s.desk, {id}))
  }

  function DoRemove(s: State, t: Thread, g: Stage, id: Id): State
  {
    Moved(s, t, g)
      .(queueLock := None, queue := Without(s.queue, {id}),
        log := if Has(s.queue, id) then s.log.(removed := s.log.removed + {id}) else s.log)
  }

  function DoConsume(s: State, t: Thread): State
  {
    if s.queue == [] then Moved(s, t, Rested).(queueLock := None)
    else
      Moved(s, t, Serve(s.queue[0]))
        .(queueLock := None, queue := s.queue[1..], log := s.log.(consumed := s.log.consumed + [s.queue[0]]))
  }

  function DoRespond(s: State, t: Thread, response: Package): State
  {
    if response.id in s.desk.waiters then
      Moved(s, t, Rested)
        .(deskLock := None, desk := Answered(s.desk, response),
            log := s.log.(answered := s.log.answered + [response.id]))
    else Moved(s, t, Rested).(deskLock := None)
  }

  function DoSweep(s: State, t: Thread, now: nat): State
  {
    Moved(s, t, Purge(Expired(s.desk, now))).(deskLock := None, desk := Dropped(s.desk, Expired(s.desk, now)))
  }

  /** A thread in a section that waits for no further lock, at the end of its
      work, or with news on its channel. */
  predicate CanAct(s: State, t: Thread)
  {
    && t in s.threads && Suits(t, s.threads[t])
    && match s.threads[t]
       case Await => t.id in s.desk.channels && s.desk.channels[t.id] != Open
       case Pushing => t.id in s.bodies
       case Purge(todo) => todo == {}
       case g => (g.HoldsQueue() || g.HoldsDesk()) && !g.Evict?
  }

  function Acts(s: State, t: Thread, now: nat, answer: Bytes): (s': State)
    requires CanAct(s, t)
    ensures t in s'.threads && s'.threads == s.threads[t := s'.threads[t]] && s'.bodies == s.bodies
  {
    match s.threads[t]
    case Registering => DoRegister(s, t.id, now)
    case Producing => DoMakeRoom(s, t.id)
    case Evicting(v) => DoEvict(s, t.id, v)
    case Pushing => DoPush(s, t.id)
    case Await => DoAwait(s, t.id)
    case Withdrawing => DoWithdraw(s, t.id)
    case Retracting => DoRemove(s, t, Finished(None), t.id)
    case Consuming => DoConsume(s, t)
    case Responding(p) => DoRespond(s, t, Package(p.id, answer))
    case Sweeping => DoSweep(s, t, now)
    case Purge(_) => Moved(s, t, Swept)
    case Purging(id, todo) => DoRemove(s, t, Purge(todo), id)
  }

  predicate Can(s: State, step: Step)
  {
    match step
    case Arrive(id, _) => Waitress(id) !in s.threads
    case Hire(n) => Porter(n) !in s.threads
    case Tick(n) => Janitor(n) !in s.threads
    case Enter(t, pick) => CanEnter(s, t, pick)
    case Act(t, _, _) => CanAct(s, t)
    case Timeout(id) => Waitress(id) in s.threads && s.threads[Waitress(id)].Await?
  }

  function Next(s: State, step: Step): State
    requires Can(s, step)
  {
    match step
    case Arrive(id, body) => Moved(s, Waitress(id), Register).(bodies := s.bodies[id := body])
    case Hire(n) => Moved(s, Porter(n), Consume)
    case Tick(n) => Moved(s, Janitor(n), Sweep)
    case Enter(t, pick) => Enters(s, t, pick)
    case Act(t, now, answer) => Acts(s, t, now, answer)
    case Timeout(id) => Moved(s, Waitress(id), Withdraw)
  }

  // ---------------------------------------------------------------- locks

  ghost predicate LocksHeld(s: State)
  {
    && (forall t :: t in s.threads && s.threads[t].HoldsQueue() <==> s.queueLock == Some(t))
    && (forall t :: t in s.threads && s.threads[t].HoldsDesk() <==> s.deskLock == Some(t))
  }

  /** The lock after a step of `t`: taken, given back or left alone. */
  predicate LockPassed(before: Option<Thread>, after: Option<Thread>, t: Thread, holds: bool)
  {
    if holds then (before == None || before == Some(t)) && after == Some(t)
    else after == if before == Some(t) then None else before
  }

  /** Only `t` has moved. */
  predicate OnlyMoved(s: State, s': State, t: Thread)
  {
    && t in s'.threads && s'.threads == s.threads[t := s'.threads[t]]
    && Suits(t, s'.threads[t])
    && LockPassed(s.queueLock, s'.queueLock, t, s'.threads[t].HoldsQueue())
    && LockPassed(s.deskLock, s'.deskLock, t, s'.threads[t].HoldsDesk())
  }

  lemma LocksAfter(s: State, s': State, t: Thread)
    requires LocksHeld(s) && OnlyMoved(s, s', t)
    ensures LocksHeld(s')
  {
  }

  lemma MovedTo(s: State, s': State, t: Thread, g: Stage)
    requires s'.threads == s.threads[t := g] && Suits(t, g)
    requires LockPassed(s.queueLock, s'.queueLock, t, g.HoldsQueue())
    requires LockPassed(s.deskLock, s'.deskLock, t, g.HoldsDesk())
    ensures OnlyMoved(s, s', t)
  {
  }

  lemma ProducerMovesOne(s: State, t: Thread, now: nat, answer: Bytes)
    requires CanAct(s, t) && s.queueLock == Some(t) && s.threads[t].HoldsQueue() && t.Waitress?
    requires s.threads[t].HoldsDesk() <==> s.deskLock == Some(t)
    ensures OnlyMoved(s, Acts(s, t, now, answer), t)
  {
    match s.threads[t] {
      case Producing =>
        MovedTo(s, DoMakeRoom(s, t.id), t, if |s.queue| >= CAPACITY then Evict(s.queue[0].id) else Pushing);
      case Evicting(v) => MovedTo(s, DoEvict(s, t.id, v), t, Pushing);
      case Pushing => MovedTo(s, DoPush(s, t.id), t, Await);
      case Retracting => MovedTo(s, DoRemove(s, t, Finished(None), t.id), t, Finished(None));
    }
  }

  lemma TakerMovesOne(s: State, t: Thread, now: nat, answer: Bytes)
    requires CanAct(s, t) && s.queueLock == Some(t) && s.threads[t].HoldsQueue() && !t.Waitress?
    requires s.deskLock != Some(t)
    ensures OnlyMoved(s, Acts(s, t, now, answer), t)
  {
    match s.threads[t] {
      case Consuming => MovedTo(s, DoConsume(s, t), t, if s.queue == [] then Rested else Serve(s.queue[0]));
      case Purging(id, todo) => MovedTo(s, DoRemove(s, t, Purge(todo), id), t, Purge(todo));
    }
  }

  lemma DeskMovesOne(s: State, t: Thread, now: nat, answer: Bytes)
    requires CanAct(s, t) && s.queueLock != Some(t) && s.deskLock == Some(t)
    requires s.threads[t].HoldsDesk() && !s.threads[t].HoldsQueue()
    ensures OnlyMoved(s, Acts(s, t, now, answer), t)
  {
    match s.threads[t] {
      case Registering =>
        MovedTo(s, DoRegister(s, t.id, now), t, if t.id in s.desk.waiters then Finished(None) else Produce);
      case Withdrawing => MovedTo(s, DoWithdraw(s, t.id), t, Retract);
      case Responding(p) => MovedTo(s, DoRespond(s, t, Package(p.id, answer)), t, Rested);
      case Sweeping => MovedTo(s, DoSweep(s, t, now), t, Purge(Expired(s.desk, now)));
    }
  }

  lemma ActMovesOne(s: State, t: Thread, now: nat, answer: Bytes)
    requires LocksHeld(s) && CanAct(s, t)
    ensures OnlyMoved(s, Acts(s, t, now, answer), t)
  {
    assert s.threads[t].HoldsQueue() <==> s.queueLock == Some(t);
    assert s.threads[t].HoldsDesk() <==> s.deskLock == Some(t);
    if s.threads[t].HoldsQueue() {
      if t.Waitress? { ProducerMovesOne(s, t, now, answer); } else { TakerMovesOne(s, t, now, answer); }
    } else if s.threads[t].HoldsDesk() {
      DeskMovesOne(s, t, now, answer);
    } else {
      FreeMovesOne(s, t, now, answer);
    }
  }

  lemma FreeMovesOne(s: State, t: Thread, now: nat, answer: Bytes)
    requires CanAct(s, t) && s.queueLock != Some(t) && s.deskLock != Some(t)
    requires !s.threads[t].HoldsDesk() && !s.threads[t].HoldsQueue()
    ensures OnlyMoved(s, Acts(s, t, now, answer), t)
  {
    match s.threads[t] {
      case Await => MovedTo(s, DoAwait(s, t.id), t, DoAwait(s, t.id).threads[t]);
      case Purge(_) => MovedTo(s, Moved(s, t, Swept), t, Swept);
    }
  }

  lemma EnterMovesOne(s: State, t: Thread, pick: Id)
    requires LocksHeld(s) && CanEnter(s, t, pick)
    ensures OnlyMoved(s, Enters(s, t, pick), t)
  {
    assert s.threads[t].HoldsQueue() <==> s.queueLock == Some(t);
    assert s.threads[t].HoldsDesk() <==> s.deskLock == Some(t);
  }

  // ------------------------------------------------------------- the book

  /** A produced order is in exactly one place; any other id is nowhere. */
  ghost predicate OnePlace(queue: seq<Package>, l: Log, id: Id)
  {
    var queued, consumed, evicted, removed := Has(queue, id), Has(l.consumed, id), id in l.evicted, id in l.removed;
    if id in l.at then
      || (queued && !consumed && !evicted && !removed)
      || (!queued && consumed && !evicted && !removed)
      || (!queued && !consumed && evicted && !removed)
      || (!queued && !consumed && !evicted && removed)
    else !queued && !consumed && !evicted && !removed
  }

  /** What is queued and what was consumed are in order of arrival, and the
      consumed came before the queued. */
  ghost predicate Fifo(queue: seq<Package>, l: Log)
  {
    && InOrder(l.at, queue) && InOrder(l.at, l.consumed)
    && (forall i, j | 0 <= i < |l.consumed| && 0 <= j < |queue| :: l.at[l.consumed[i].id] < l.at[queue[j].id])
  }

  /** What was evicted came before all that is queued. */
  ghost predicate EvictedOlder(queue: seq<Package>, l: Log)
  {
    forall id, p | id in l.evicted && p in queue :: id in l.at && p.id in l.at && l.at[id] < l.at[p.id]
  }

  /** `at` is the place in the sequence of produced orders. */
  ghost predicate Numbered(l: Log)
  {
    && (forall k | 0 <= k < |l.produced| :: l.produced[k].id in l.at && l.at[l.produced[k].id] == k)
    && (forall id | id in l.at :: l.at[id] < |l.produced| && l.produced[l.at[id]].id == id)
  }

  ghost predicate AllProduced(ps: seq<Package>, produced: seq<Package>)
  {
    forall p | p in ps :: p in produced
  }

  ghost predicate BookSound(queue: seq<Package>, l: Log)
  {
    && (forall id :: OnePlace(queue, l, id))
    && Fifo(queue, l) && Numbered(l) && EvictedOlder(queue, l)
    && AllProduced(queue, l.produced) && AllProduced(l.consumed, l.produced)
  }

  lemma HasTail(q: seq<Package>, id: Id)
    requires q != []
    ensures Has(q, id) <==> q[0].id == id || Has(q[1..], id)
  {
    if Has(q, id) && q[0].id != id {
      var i :| 0 <= i < |q| && q[i].id == id;
      assert q[1..][i - 1].id == id;
    }
    if Has(q[1..], id) {
      var i :| 0 <= i < |q[1..]| && q[1..][i].id == id;
      assert q[i + 1].id == id;
    }
  }

  lemma HeadIsNotInTail(at: map<Id, nat>, q: seq<Package>)
    requires InOrder(at, q) && q != []
    ensures !Has(q[1..], q[0].id) && InOrder(at, q[1..])
  {
  }

  lemma EvictsHead(queue: seq<Package>, l: Log)
    requires InOrder(l.at, queue) && EvictedOlder(queue, l) && queue != []
    ensures EvictedOlder(queue[1..], l) && EvictedOlder(queue[1..], l.(evicted := l.evicted + {queue[0].id}))
  {
    forall p | p in queue[1..] ensures p in queue && p.id in l.at && l.at[queue[0].id] < l.at[p.id] {
      var i :| 0 <= i < |queue[1..]| && queue[1..][i] == p;
      assert queue[i + 1] == p;
    }
  }

  lemma BookEvict(queue: seq<Package>, l: Log)
    requires BookSound(queue, l) && queue != []
    ensures BookSound(queue[1..], l.(evicted := l.evicted + {queue[0].id}))
  {
    var l' := l.(evicted := l.evicted + {queue[0].id});
    HeadIsNotInTail(l.at, queue);
    assert EvictedOlder(queue[1..], l') by { EvictsHead(queue, l); }
    forall id ensures OnePlace(queue[1..], l', id) {
      HasTail(queue, id);
      assert OnePlace(queue, l, id);
    }
  }

  lemma FifoConsume(queue: seq<Package>, l: Log)
    requires Fifo(queue, l) && queue != []
    ensures Fifo(queue[1..], l.(consumed := l.consumed + [queue[0]]))
  {
    HeadIsNotInTail(l.at, queue);
  }

  lemma BookConsume(queue: seq<Package>, l: Log)
    requires BookSound(queue, l) && queue != []
    ensures BookSound(queue[1..], l.(consumed := l.consumed + [queue[0]]))
  {
    var l' := l.(consumed := l.consumed + [queue[0]]);
    assert Fifo(queue[1..], l') by { FifoConsume(queue, l); }
    assert EvictedOlder(queue[1..], l') by { EvictsHead(queue, l); }
    HeadIsNotInTail(l.at, queue);
    forall id ensures OnePlace(queue[1..], l', id) {
      HasTail(queue, id);
      HasSnoc(l.consumed, queue[0], id);
      assert OnePlace(queue, l, id);
    }
  }

  lemma EvictedPush(queue: seq<Package>, l: Log, p: Package)
    requires EvictedOlder(queue, l) && Numbered(l) && p.id !in l.at && forall id :: OnePlace(queue, l, id)
    ensures EvictedOlder(queue + [p], l.(produced := l.produced + [p], at := l.at[p.id := |l.produced|]))
  {
    forall id | id in l.evicted ensures id in l.at && l.at[id] < |l.produced| { assert OnePlace(queue, l, id); }
  }

  lemma FifoPush(queue: seq<Package>, l: Log, p: Package)
    requires Fifo(queue, l) && Numbered(l) && p.id !in l.at
    ensures var l' := l.(produced := l.produced + [p], at := l.at[p.id := |l.produced|]);
            Fifo(queue + [p], l') && Numbered(l')
  {
  }

  lemma BookPush(queue: seq<Package>, l: Log, p: Package)
    requires BookSound(queue, l) && p.id !in l.at
    ensures BookSound(queue + [p], l.(produced := l.produced + [p], at := l.at[p.id := |l.produced|]))
  {
    var l' := l.(produced := l.produced + [p], at := l.at[p.id := |l.produced|]);
    assert Fifo(queue + [p], l') && Numbered(l') by { FifoPush(queue, l, p); }
    assert EvictedOlder(queue + [p], l') by { EvictedPush(queue, l, p); }
    forall id ensures OnePlace(queue + [p], l', id) {
      HasSnoc(queue, p, id);
      assert OnePlace(queue, l, id);
    }
  }

  lemma BookRemove(queue: seq<Package>, l: Log, id: Id)
    requires BookSound(queue, l)
    ensures BookSound(Without(queue, {id}), if Has(queue, id) then l.(removed := l.removed + {id}) else l)
  {
    var queue', l' := Without(queue, {id}), if Has(queue, id) then l.(removed := l.removed + {id}) else l;
    forall other ensures OnePlace(queue', l', other) {
      WithoutHas(queue, {id}, Package(other, []));
      assert OnePlace(queue, l, other);
    }
    WithoutInOrder(l.at, queue, {id});
    forall j | 0 <= j < |queue'| ensures queue'[j] in queue {
      WithoutHas(queue, {id}, queue'[j]);
    }
  }

  /** The book after a step. */
  lemma BookNext(s: State, step: Step)
    requires BookSound(s.queue, s.log) && Can(s, step)
    requires forall t | t in s.threads && s.threads[t].Pushing? && t.Waitress? :: t.id !in s.log.at
    ensures BookSound(Next(s, step).queue, Next(s, step).log)
  {
    if step.Act? && s.threads[step.thread].HoldsQueue() && !s.threads[step.thread].Evicting? {
      BookActs(s, step.thread, step.now, step.answer);
    } else {
      LogUnderLock(s, step);
      BookAnswer(s.queue, s.log, Next(s, step).log.answered);
    }
  }

  lemma BookActs(s: State, t: Thread, now: nat, answer: Bytes)
    requires BookSound(s.queue, s.log) && CanAct(s, t) && s.threads[t].HoldsQueue() && !s.threads[t].Evicting?
    requires t.Waitress? && s.threads[t].Pushing? ==> t.id !in s.log.at
    ensures BookSound(Acts(s, t, now, answer).queue, Acts(s, t, now, answer).log)
  {
    match s.threads[t] {
      case Producing => if |s.queue| >= CAPACITY { BookEvict(s.queue, s.log); }
      case Pushing => BookPush(s.queue, s.log, Package(t.id, s.bodies[t.id]));
      case Retracting => BookRemove(s.queue, s.log, t.id);
      case Consuming => if s.queue != [] { BookConsume(s.queue, s.log); }
      case Purging(id, _) => BookRemove(s.queue, s.log, id);
    }
  }

  /** The orders' part of the log changes only with the queue. */
  lemma LogUnderLock(s: State, step: Step)
    requires Can(s, step)
    requires !(step.Act? && s.threads[step.thread].HoldsQueue() && !s.threads[step.thread].Evicting?)
    ensures Next(s, step).queue == s.queue
    ensures Next(s, step).log == s.log.(answered := Next(s, step).log.answered)
  {
  }

  lemma BookAnswer(queue: seq<Package>, l: Log, answered: seq<Id>)
    requires BookSound(queue, l)
    ensures BookSound(queue, l.(answered := answered))
  {
    forall id ensures OnePlace(queue, l.(answered := answered), id) {
      assert OnePlace(queue, l, id);
    }
  }

  // ------------------------------------------------------ room and placing

  ghost predicate Bounded(s: State)
  {
    && |s.queue| <= CAPACITY
    && (forall t | t in s.threads && s.threads[t].MadeRoom() :: |s.queue| < CAPACITY)
  }

  /** The queue changes only in a section that holds its lock. */
  lemma QueueUnderLock(s: State, step: Step)
    requires Can(s, step) && !(step.Act? && s.threads[step.thread].HoldsQueue())
    ensures Next(s, step).queue == s.queue
    ensures forall u | u in Next(s, step).threads && Next(s, step).threads[u].MadeRoom() ::
              u in s.threads && s.threads[u].MadeRoom()
  {
    LogUnderLock(s, step);
    var s' := Next(s, step);
    forall u | u in s'.threads && s'.threads[u].MadeRoom() ensures u in s.threads && s.threads[u].MadeRoom() {
      if u != Mover(step) { OtherStays(s, step, u); }
    }
  }

  lemma RoomActs(s: State, t: Thread, now: nat, answer: Bytes)
    requires CanAct(s, t) && s.threads[t].HoldsQueue() && |s.queue| <= CAPACITY
    requires s.threads[t].MadeRoom() ==> |s.queue| < CAPACITY
    ensures var s' := Acts(s, t, now, answer);
            |s'.queue| <= CAPACITY && (s'.threads[t].MadeRoom() ==> |s'.queue| < CAPACITY)
  {
  }

  /** Whoever changes the queue holds its lock, so no one else's room is taken. */
  lemma BoundedNext(s: State, step: Step)
    requires LocksHeld(s) && Bounded(s) && Can(s, step)
    ensures Bounded(Next(s, step))
  {
    if step.Act? && s.threads[step.thread].HoldsQueue() {
      var t, s' := step.thread, Next(s, step);
      RoomActs(s, t, step.now, step.answer);
      forall u | u in s'.threads && s'.threads[u].MadeRoom() ensures |s'.queue| < CAPACITY {
        assert s.queueLock == Some(t);
        if u != t {
          assert s.threads[u].HoldsQueue();
        }
      }
    } else {
      QueueUnderLock(s, step);
    }
  }

  /** A handler's place in its code, against the queue and the log. */
  ghost predicate Placed(s: State, t: Thread)
  {
    t in s.threads ==>
      && Suits(t, s.threads[t])
      && (t.Waitress? ==>
            && t.id in s.bodies
            && (t.id in s.log.at ==> s.threads[t].MayQueue() || s.threads[t].Finished?)
            && (Has(s.queue, t.id) ==> s.threads[t].MayQueue()))
  }

  ghost predicate Owned(s: State, id: Id)
  {
    id in s.log.at ==>
      && Waitress(id) in s.threads && id in s.bodies
      && s.log.at[id] < |s.log.produced| && s.log.produced[s.log.at[id]] == Package(id, s.bodies[id])
  }

  /** The queue only grows by the order its own handler pushes. */
  lemma QueueNext(s: State, step: Step, id: Id)
    requires Can(s, step) && Has(Next(s, step).queue, id)
    ensures Has(s.queue, id) || (step.Act? && step.thread == Waitress(id) && s.threads[step.thread].Pushing?)
    ensures step.Act? && step.thread == Waitress(id) ==> !s.threads[step.thread].Retracting?
  {
    if step.Act? {
      var t := step.thread;
      match s.threads[t] {
        case Producing => if |s.queue| >= CAPACITY { HasTail(s.queue, id); }
        case Pushing => HasSnoc(s.queue, Package(t.id, s.bodies[t.id]), id);
        case Retracting => WithoutHas(s.queue, {t.id}, Package(id, []));
        case Consuming => if s.queue != [] { HasTail(s.queue, id); }
        case Purging(other, _) => WithoutHas(s.queue, {other}, Package(id, []));
        case _ =>
      }
    }
  }

  lemma AtNext(s: State, step: Step, id: Id)
    requires Can(s, step) && id in Next(s, step).log.at
    ensures id in s.log.at || (step.Act? && step.thread == Waitress(id) && s.threads[step.thread].Pushing?)
  {
  }

  /** The thread a step moves. */
  function Mover(step: Step): Thread
  {
    match step
    case Arrive(id, _) => Waitress(id)
    case Hire(n) => Porter(n)
    case Tick(n) => Janitor(n)
    case Enter(t, _) => t
    case Act(t, _, _) => t
    case Timeout(id) => Waitress(id)
  }

  lemma OtherStays(s: State, step: Step, t: Thread)
    requires Can(s, step) && t != Mover(step)
    ensures t in Next(s, step).threads <==> t in s.threads
    ensures t in s.threads ==> Next(s, step).threads[t] == s.threads[t]
    ensures t.Waitress? && t.id in s.bodies ==> t.id in Next(s, step).bodies
  {
    var s' := Next(s, step);
    assert Mover(step) in s'.threads && s'.threads == s.threads[Mover(step) := s'.threads[Mover(step)]];
  }

  lemma PlacedOther(s: State, step: Step, t: Thread)
    requires Can(s, step) && Placed(s, t) && t != Mover(step)
    ensures Placed(Next(s, step), t)
  {
    OtherStays(s, step, t);
    if t.Waitress? {
      if Has(Next(s, step).queue, t.id) {
        QueueNext(s, step, t.id);
      }
      if t.id in Next(s, step).log.at {
        AtNext(s, step, t.id);
      }
    }
  }

  /** The stage a handler's own step takes it to. */
  lemma OwnStage(s: State, step: Step)
    requires Can(s, step) && Mover(step).Waitress? && (step.Act? || step.Enter?)
    ensures Mover(step) in Next(s, step).threads && Next(s, step).bodies == s.bodies
    ensures var g, g' := s.threads[Mover(step)], Next(s, step).threads[Mover(step)];
            && Suits(Mover(step), g')
            && (g.Pushing? ==> g'.Await?)
            && (g.MayQueue() ==> g'.MayQueue() || g'.Finished?)
            && (g'.Finished? ==>
                  || g.Registering? || g.Retracting?
                  || (g.Await? && Mover(step).id in s.desk.channels && s.desk.channels[Mover(step).id].Sent?))
  {
  }

  lemma PlacedNext(s: State, step: Step, t: Thread)
    requires Can(s, step) && Placed(s, t)
    requires t.Waitress? ==> Owned(s, t.id) && (Has(s.queue, t.id) ==> t.id in s.log.at)
    requires t.Waitress? && t.id in s.desk.channels && s.desk.channels[t.id].Sent? ==> !Has(s.queue, t.id)
    ensures Placed(Next(s, step), t)
  {
    if t != Mover(step) {
      PlacedOther(s, step, t);
    } else if t.Waitress? && (step.Act? || step.Enter?) {
      OwnStage(s, step);
      if Has(Next(s, step).queue, t.id) {
        QueueNext(s, step, t.id);
      }
      if t.id in Next(s, step).log.at {
        AtNext(s, step, t.id);
      }
    }
  }

  lemma OwnedNext(s: State, step: Step, id: Id)
    requires Can(s, step) && Owned(s, id)
    requires step.Arrive? ==> step.id !in s.log.at
    ensures Owned(Next(s, step), id)
  {
  }

  // ----------------------------------------------------------- the channels

  /** An open channel is one whose sender is in the table; an answer carries
      the handler's own id, and its order was consumed. */
  ghost predicate ChannelAt(s: State, id: Id)
  {
    var d := s.desk;
    && (id in d.waiters <==> id in d.channels && d.channels[id].Open?)
    && (id in s.log.answered <==> id in d.channels && d.channels[id].Sent?)
    && (id in d.channels && d.channels[id].Sent? ==> d.channels[id].response.id == id && Has(s.log.consumed, id))
  }

  ghost predicate Waits(s: State, id: Id)
  {
    var t, d := Waitress(id), s.desk;
    && (id in d.waiters ==> t in s.threads && s.threads[t].MayWait())
    && (t in s.threads && s.threads[t].MayWait() ==> id in d.channels)
    && (id in d.channels ==> t in s.threads && !s.threads[t].Register? && !s.threads[t].Registering?)
    && (t in s.threads && s.threads[t].Finished? && s.threads[t].answer.Some? ==>
          id in d.channels && d.channels[id] == Sent(s.threads[t].answer.value))
  }

  ghost predicate Served(s: State, t: Thread)
  {
    t in s.threads && (s.threads[t].Serve? || s.threads[t].Responding?) ==> Has(s.log.consumed, s.threads[t].order.id)
  }

  lemma ConsumedNext(s: State, step: Step, id: Id)
    requires Can(s, step) && Has(s.log.consumed, id)
    ensures Has(Next(s, step).log.consumed, id)
  {
    if step.Act? && s.threads[step.thread].Consuming? && s.queue != [] {
      HasSnoc(s.log.consumed, s.queue[0], id);
    }
  }

  lemma ServedNext(s: State, step: Step, t: Thread)
    requires Can(s, step) && Served(s, t)
    ensures Served(Next(s, step), t)
  {
    if t != Mover(step) {
      OtherStays(s, step, t);
      if t in s.threads && (s.threads[t].Serve? || s.threads[t].Responding?) {
        ConsumedNext(s, step, s.threads[t].order.id);
      }
    } else if step.Act? {
      ServedActs(s, t, step.now, step.answer);
    }
  }

  /** The order a worker has just taken is among the consumed. */
  lemma ServedActs(s: State, t: Thread, now: nat, answer: Bytes)
    requires CanAct(s, t)
    ensures Served(Acts(s, t, now, answer), t)
  {
    if s.threads[t].Consuming? && s.queue != [] {
      HasSnoc(s.log.consumed, s.queue[0], s.queue[0].id);
    }
  }

  /** The waiter table and the answers as far as one id goes. */
  datatype Seat = Seat(waiting: bool, channel: Option<Channel>, answers: bool)

  ghost function SeatOf(s: State, id: Id): Seat
  {
    Seat(id in s.desk.waiters, if id in s.desk.channels then Some(s.desk.channels[id]) else None, id in s.log.answered)
  }

  lemma DropSeat(s: State, s': State, ids: set<Id>, id: Id)
    requires s'.desk == Dropped(s.desk, ids) && s'.log.answered == s.log.answered
    ensures SeatOf(s', id) == SeatOf(s, id) || Ends(SeatOf(s, id), SeatOf(s', id))
    ensures id in ids ==> !SeatOf(s', id).waiting
  {
  }

  /** The seat is closed without an answer. */
  predicate Ends(a: Seat, b: Seat)
  {
    a.waiting && b == Seat(false, if a.channel.Some? then Some(Closed) else None, a.answers)
  }

  /** The waiter table changes only in a section that holds its lock. */
  lemma DeskUnderLock(s: State, step: Step)
    requires Can(s, step) && !(step.Act? && s.threads[step.thread].HoldsDesk())
    ensures Next(s, step).desk == s.desk && Next(s, step).log.answered == s.log.answered
  {
  }

  lemma SeatActs(s: State, t: Thread, now: nat, answer: Bytes, id: Id)
    requires CanAct(s, t) && s.threads[t].HoldsDesk()
    ensures var g, a, b := s.threads[t], SeatOf(s, id), SeatOf(Acts(s, t, now, answer), id);
            || b == a
            || (t == Waitress(id) && g.Registering? && b == Seat(true, Some(Open), a.answers))
            || (g.Responding? && g.order.id == id && a.waiting
                && b == Seat(false, Some(Sent(Package(id, answer))), true))
            || Ends(a, b)
    ensures t == Waitress(id) && s.threads[t].Withdrawing? ==> !SeatOf(Acts(s, t, now, answer), id).waiting
  {
    match s.threads[t] {
      case Evicting(v) => DropSeat(s, DoEvict(s, t.id, v), {v}, id);
      case Withdrawing => DropSeat(s, DoWithdraw(s, t.id), {t.id}, id);
      case Sweeping => DropSeat(s, DoSweep(s, t, now), Expired(s.desk, now), id);
      case Registering =>
      case Responding(p) =>
    }
  }

  /** A step leaves a seat as it was, opens it for its own handler, answers it
      out of a served order, or closes it. */
  lemma SeatNext(s: State, step: Step, id: Id)
    requires Can(s, step)
    ensures var a, b := SeatOf(s, id), SeatOf(Next(s, step), id);
            || b == a
            || (&& step.Act? && step.thread == Waitress(id) && s.threads[step.thread].Registering?
                && b == Seat(true, Some(Open), a.answers))
            || (&& step.Act? && s.threads[step.thread].Responding? && s.threads[step.thread].order.id == id && a.waiting
                && b.channel.Some? && b.channel.value.Sent? && b.channel.value.response.id == id
                && b == Seat(false, b.channel, true))
            || Ends(a, b)
    ensures step.Act? && step.thread == Waitress(id) && s.threads[step.thread].Withdrawing? ==>
              !SeatOf(Next(s, step), id).waiting
  {
    if step.Act? && s.threads[step.thread].HoldsDesk() {
      SeatActs(s, step.thread, step.now, step.answer, id);
    } else {
      DeskUnderLock(s, step);
    }
  }

  lemma ChannelNext(s: State, step: Step, id: Id)
    requires Can(s, step) && ChannelAt(s, id) && Waits(s, id) && Served(s, Mover(step))
    ensures ChannelAt(Next(s, step), id)
  {
    SeatNext(s, step, id);
    if Has(s.log.consumed, id) {
      ConsumedNext(s, step, id);
    }
    ChannelFromSeat(s, SeatOf(s, id), id);
    ChannelFromSeat(Next(s, step), SeatOf(Next(s, step), id), id);
  }

  lemma ChannelFromSeat(s: State, a: Seat, id: Id)
    requires a == SeatOf(s, id)
    ensures ChannelAt(s, id) <==>
              && (a.waiting <==> a.channel == Some(Open))
              && (a.answers <==> a.channel.Some? && a.channel.value.Sent?)
              && (a.answers && a.channel.Some? && a.channel.value.Sent? ==>
                  a.channel.value.response.id == id && Has(s.log.consumed, id))
  {
  }

  /** `Waits` in terms of the seat and the handler's stage. */
  ghost predicate WaitsAt(a: Seat, g: Option<Stage>)
  {
    && (a.waiting ==> g.Some? && g.value.MayWait())
    && (g.Some? && g.value.MayWait() ==> a.channel.Some?)
    && (a.channel.Some? ==> g.Some? && !g.value.Register? && !g.value.Registering?)
    && (g.Some? && g.value.Finished? && g.value.answer.Some? ==> a.channel == Some(Sent(g.value.answer.value)))
  }

  function StageOf(s: State, t: Thread): Option<Stage>
  {
    if t in s.threads then Some(s.threads[t]) else None
  }

  lemma WaitsIsAt(s: State, id: Id)
    ensures Waits(s, id) <==> WaitsAt(SeatOf(s, id), StageOf(s, Waitress(id)))
  {
  }

  /** Where a handler's own step takes it. */
  predicate Advances(g: Option<Stage>, g': Option<Stage>, a: Seat, b: Seat)
  {
    match g
    case None => g' == Some(Register) && b == a
    case Some(Register) => g' == Some(Registering) && b == a
    case Some(Registering) =>
      (g' == Some(Produce) && b == Seat(true, Some(Open), a.answers))
          || (a.waiting && g' == Some(Finished(None)) && b == a)
    case Some(Await) =>
      && b == a && g'.Some?
      && (g'.value.Withdraw?
          || (g'.value.Finished? && g'.value.answer.Some? && a.channel == Some(Sent(g'.value.answer.value))))
    case Some(Withdraw) => g' == Some(Withdrawing) && b == a
    case Some(Withdrawing) => g' == Some(Retract) && !b.waiting && (b == a || Ends(a, b))
    case Some(Retract) => g' == Some(Retracting) && b == a
    case Some(Retracting) => g' == Some(Finished(None)) && b == a
    case Some(g) => g.MayWait() && g'.Some? && g'.value.MayWait() && (b == a || Ends(a, b))
  }

  lemma AdvanceWaits(g: Option<Stage>, g': Option<Stage>, a: Seat, b: Seat)
    requires Advances(g, g', a, b) && WaitsAt(a, g) && (a.waiting ==> a.channel == Some(Open))
    ensures WaitsAt(b, g')
  {
  }

  lemma OwnActAdvances(s: State, id: Id, now: nat, answer: Bytes)
    requires CanAct(s, Waitress(id)) && !s.threads[Waitress(id)].Evicting?
    ensures var s' := Acts(s, Waitress(id), now, answer);
            Advances(StageOf(s, Waitress(id)), StageOf(s', Waitress(id)), SeatOf(s, id), SeatOf(s', id))
  {
    if s.threads[Waitress(id)].Withdrawing? { DropSeat(s, DoWithdraw(s, id), {id}, id); }
  }

  lemma OwnStepAdvances(s: State, step: Step, id: Id)
    requires Can(s, step) && Mover(step) == Waitress(id) && ChannelAt(s, id) && Waits(s, id)
    ensures var s' := Next(s, step);
            Advances(StageOf(s, Waitress(id)), StageOf(s', Waitress(id)), SeatOf(s, id), SeatOf(s', id))
  {
    match step {
      case Act(t, now, answer) =>
        if s.threads[t].Evicting? {
          DropSeat(s, DoEvict(s, id, s.threads[t].victim), {s.threads[t].victim}, id);
        } else {
          OwnActAdvances(s, id, now, answer);
        }
      case _ =>
    }
  }

  lemma OtherSeatWaits(a: Seat, b: Seat, g: Option<Stage>)
    requires WaitsAt(a, g) && (a.waiting ==> a.channel == Some(Open))
    requires b == a || Ends(a, b) || (a.waiting && b.channel.Some? && b == Seat(false, b.channel, true))
    ensures WaitsAt(b, g)
  {
  }

  lemma WaitsNext(s: State, step: Step, id: Id)
    requires Can(s, step) && ChannelAt(s, id) && Waits(s, id)
    ensures Waits(Next(s, step), id)
  {
    var t, s' := Waitress(id), Next(s, step);
    WaitsIsAt(s, id);
    ChannelFromSeat(s, SeatOf(s, id), id);
    if t == Mover(step) {
      OwnStepAdvances(s, step, id);
      AdvanceWaits(StageOf(s, t), StageOf(s', t), SeatOf(s, id), SeatOf(s', id));
    } else {
      OtherStays(s, step, t);
      SeatNext(s, step, id);
      OtherSeatWaits(SeatOf(s, id), SeatOf(s', id), StageOf(s, t));
    }
    WaitsIsAt(s', id);
  }

  // ------------------------------------------------------- who will answer

  /** Thread `t` has the order of `id` in hand: to serve it, or to tell its
      waiter that it was evicted. */
  ghost predicate Carries(s: State, t: Thread, id: Id)
  {
    && t in s.threads
    && var g := s.threads[t];
       || ((g.Serve? || g.Responding?) && g.order.id == id)
       || ((g.Evict? || g.Evicting?) && g.victim == id)
  }

  /** An order whose handler waits is in the queue or in someone's hands. */
  ghost predicate Answerable(s: State, id: Id)
  {
    id in s.desk.waiters && id in s.log.at ==> Has(s.queue, id) || exists t :: Carries(s, t, id)
  }

  /** The channel of `id` has been given up or answered. */
  predicate Gone(s: State, id: Id)
  {
    id in s.desk.channels && id !in s.desk.waiters
  }

  /** A clean-up task removes only orders that no one waits for. */
  ghost predicate Purges(s: State, t: Thread)
  {
    t in s.threads ==>
      && (s.threads[t].Purge? ==> forall id | id in s.threads[t].todo :: Gone(s, id))
      && (s.threads[t].Purging? ==> Gone(s, s.threads[t].id) && forall id | id in s.threads[t].todo :: Gone(s, id))
  }

  /** A handler that waits for its answer has produced its order. */
  ghost predicate Pushed(s: State, t: Thread)
  {
    t in s.threads && t.Waitress? && s.threads[t].MayQueue() ==> t.id in s.log.at
  }

  lemma GoneNext(s: State, step: Step, id: Id)
    requires Can(s, step) && Waits(s, id) && Gone(s, id)
    ensures Gone(Next(s, step), id)
  {
    SeatNext(s, step, id);
    assert !SeatOf(s, id).waiting && SeatOf(s, id).channel.Some?;
    assert !SeatOf(Next(s, step), id).waiting && SeatOf(Next(s, step), id).channel.Some?;
  }

  lemma SweepIsGone(s: State, t: Thread, now: nat, id: Id)
    requires id in Expired(s.desk, now) && ChannelAt(s, id)
    ensures Gone(DoSweep(s, t, now), id)
  {
  }

  lemma PurgesNext(s: State, step: Step, t: Thread)
    requires Can(s, step) && Purges(s, t) && forall id :: ChannelAt(s, id) && Waits(s, id)
    ensures Purges(Next(s, step), t)
  {
    var s' := Next(s, step);
    if t != Mover(step) {
      OtherStays(s, step, t);
      if t in s.threads && s.threads[t].Purge? {
        forall id | id in s.threads[t].todo ensures Gone(s', id) { GoneNext(s, step, id); }
      }
      if t in s.threads && s.threads[t].Purging? {
        GoneNext(s, step, s.threads[t].id);
        forall id | id in s.threads[t].todo ensures Gone(s', id) { GoneNext(s, step, id); }
      }
    } else if step.Act? {
      PurgesActs(s, t, step.now, step.answer);
    } else if step.Enter? {
      DeskUnderLock(s, step);
    }
  }

  lemma PurgesActs(s: State, t: Thread, now: nat, answer: Bytes)
    requires CanAct(s, t) && Purges(s, t) && forall id :: ChannelAt(s, id)
    ensures Purges(Acts(s, t, now, answer), t)
  {
    if s.threads[t].Sweeping? {
      forall id | id in Expired(s.desk, now) ensures Gone(DoSweep(s, t, now), id) {
        assert ChannelAt(s, id);
        SweepIsGone(s, t, now, id);
      }
    }
  }

  lemma AtKept(s: State, step: Step, id: Id)
    requires Can(s, step) && id in s.log.at
    ensures id in Next(s, step).log.at
  {
  }

  lemma PushedNext(s: State, step: Step, t: Thread)
    requires Can(s, step) && Pushed(s, t)
    ensures Pushed(Next(s, step), t)
  {
    if t != Mover(step) { OtherStays(s, step, t); }
    if t.Waitress? && t.id in s.log.at { AtKept(s, step, t.id); }
    if t == Mover(step) && t.Waitress? && step.Act? { PushedActs(s, t, step.now, step.answer); }
  }

  lemma PushedActs(s: State, t: Thread, now: nat, answer: Bytes)
    requires CanAct(s, t) && Pushed(s, t)
    ensures Pushed(Acts(s, t, now, answer), t)
  {
  }

  /** A queued order stays, or goes into the hands of the thread that took it,
      or is removed by its own handler or by a clean-up task. */
  lemma QueueKept(s: State, step: Step, id: Id)
    requires Can(s, step) && Has(s.queue, id)
    ensures || Has(Next(s, step).queue, id)
            || (step.Act? && Carries(Next(s, step), step.thread, id))
            || (step.Act? && s.threads[step.thread].Retracting? && step.thread == Waitress(id))
            || (step.Act? && s.threads[step.thread].Purging? && s.threads[step.thread].id == id)
  {
    if step.Act? && s.threads[step.thread].HoldsQueue() {
      QueueActs(s, step.thread, step.now, step.answer, id);
    } else {
      LogUnderLock(s, step);
    }
  }

  lemma QueueActs(s: State, t: Thread, now: nat, answer: Bytes, id: Id)
    requires CanAct(s, t) && s.threads[t].HoldsQueue() && Has(s.queue, id)
    ensures var s' := Acts(s, t, now, answer);
            || Has(s'.queue, id) || Carries(s', t, id)
            || (s.threads[t].Retracting? && t == Waitress(id))
            || (s.threads[t].Purging? && s.threads[t].id == id)
  {
    match s.threads[t] {
      case Producing => HasTail(s.queue, id);
      case Evicting(_) =>
      case Pushing => HasSnoc(s.queue, Package(t.id, s.bodies[t.id]), id);
      case Retracting => WithoutHas(s.queue, {t.id}, Package(id, []));
      case Consuming => HasTail(s.queue, id);
      case Purging(other, _) => WithoutHas(s.queue, {other}, Package(id, []));
    }
  }

  /** An order in hand stays there until its waiter has been told. */
  lemma CarrierKept(s: State, step: Step, t: Thread, id: Id)
    requires Can(s, step) && Carries(s, t, id)
    ensures Carries(Next(s, step), t, id) || id !in Next(s, step).desk.waiters
  {
    if t != Mover(step) {
      OtherStays(s, step, t);
    } else if step.Act? {
      CarrierActs(s, t, step.now, step.answer, id);
    }
  }

  lemma CarrierActs(s: State, t: Thread, now: nat, answer: Bytes, id: Id)
    requires CanAct(s, t) && Carries(s, t, id)
    ensures id !in Acts(s, t, now, answer).desk.waiters
  {
    match s.threads[t] {
      case Responding(p) =>
      case Evicting(v) =>
    }
  }

  /** Where an id that waits after a step waited before it, its order is still
      queued or in hand. */
  lemma AnswerableNext(s: State, step: Step, id: Id)
    requires Can(s, step) && Answerable(s, id) && Waits(s, id)
    requires Placed(s, Waitress(id)) && Purges(s, Mover(step))
    ensures Answerable(Next(s, step), id)
  {
    var s' := Next(s, step);
    if id in s'.desk.waiters && id in s'.log.at {
      WaitedBefore(s, step, id);
      if id !in s.log.at {
        AtNext(s, step, id);
        HasSnoc(s.queue, Package(id, s.bodies[id]), id);
      } else if Has(s.queue, id) {
        QueueKept(s, step, id);
      } else {
        var t :| Carries(s, t, id);
        CarrierKept(s, step, t, id);
      }
    }
  }

  /** An id that waits and has produced its order waited before. */
  lemma WaitedBefore(s: State, step: Step, id: Id)
    requires Can(s, step) && Placed(s, Waitress(id)) && Waits(s, id)
    requires id in Next(s, step).desk.waiters && id in Next(s, step).log.at
    ensures id in s.desk.waiters
  {
    SeatNext(s, step, id);
    AtNext(s, step, id);
    assert SeatOf(Next(s, step), id).waiting;
  }

  // ---------------------------------------------------------- the invariant

  ghost predicate Distinct(ids: seq<Id>)
  {
    forall i, j | 0 <= i < j < |ids| :: ids[i] != ids[j]
  }

  ghost predicate ThreadsSound(s: State)
  {
    forall t :: Placed(s, t) && Served(s, t)
  }

  ghost predicate IdsSound(s: State)
  {
    forall id :: Owned(s, id) && ChannelAt(s, id) && Waits(s, id)
  }

  ghost predicate Inv(s: State)
  {
    && LocksHeld(s) && Bounded(s) && BookSound(s.queue, s.log)
    && ThreadsSound(s) && IdsSound(s) && Distinct(s.log.answered)
    && OrdersCarried(s)
  }

  /** No order that someone waits for is lost. */
  ghost predicate OrdersCarried(s: State)
  {
    && (forall t :: Purges(s, t) && Pushed(s, t))
    && (forall id :: Answerable(s, id))
  }

  lemma CarriedNext(s: State, step: Step)
    requires Inv(s) && Can(s, step)
    ensures OrdersCarried(Next(s, step))
  {
    assert forall id :: ChannelAt(s, id) && Waits(s, id) by {
      forall id ensures ChannelAt(s, id) && Waits(s, id) {
        assert Owned(s, id) && ChannelAt(s, id) && Waits(s, id);
      }
    }
    forall t ensures Purges(Next(s, step), t) && Pushed(Next(s, step), t) {
      assert Purges(s, t) && Pushed(s, t);
      PurgesNext(s, step, t);
      PushedNext(s, step, t);
    }
    assert Purges(s, Mover(step));
    forall id ensures Answerable(Next(s, step), id) {
      assert Answerable(s, id) && Waits(s, id) && Placed(s, Waitress(id));
      AnswerableNext(s, step, id);
    }
  }

  lemma LocksNext(s: State, step: Step)
    requires LocksHeld(s) && Can(s, step)
    ensures LocksHeld(Next(s, step))
  {
    match step {
      case Enter(t, pick) =>
        EnterMovesOne(s, t, pick);
        LocksAfter(s, Next(s, step), t);
      case Act(t, now, answer) =>
        ActMovesOne(s, t, now, answer);
        LocksAfter(s, Next(s, step), t);
      case _ =>
        LocksAfter(s, Next(s, step), Mover(step));
    }
  }

  lemma ThreadsNext(s: State, step: Step)
    requires Inv(s) && Can(s, step)
    ensures ThreadsSound(Next(s, step))
  {
    forall t ensures Placed(Next(s, step), t) && Served(Next(s, step), t) {
      assert Placed(s, t) && Served(s, t);
      if t.Waitress? {
        assert Owned(s, t.id) && ChannelAt(s, t.id);
        assert OnePlace(s.queue, s.log, t.id);
      }
      PlacedNext(s, step, t);
      ServedNext(s, step, t);
    }
  }

  lemma IdsNext(s: State, step: Step)
    requires Inv(s) && Can(s, step)
    ensures IdsSound(Next(s, step))
  {
    assert Placed(s, Mover(step)) && Served(s, Mover(step));
    forall id ensures Owned(Next(s, step), id) && ChannelAt(Next(s, step), id) && Waits(Next(s, step), id) {
      assert Owned(s, id) && ChannelAt(s, id) && Waits(s, id);
      if step.Arrive? {
        assert Owned(s, step.id);
      }
      OwnedNext(s, step, id);
      ChannelNext(s, step, id);
      WaitsNext(s, step, id);
    }
  }

  lemma AnswersNext(s: State, step: Step)
    requires Inv(s) && Can(s, step)
    ensures Distinct(Next(s, step).log.answered)
  {
    if step.Act? && s.threads[step.thread].Responding? {
      assert ChannelAt(s, s.threads[step.thread].order.id);
    }
  }

  lemma InvNext(s: State, step: Step)
    requires Inv(s) && Can(s, step)
    ensures Inv(Next(s, step))
  {
    LocksNext(s, step);
    BoundedNext(s, step);
    forall t | t in s.threads && s.threads[t].Pushing? && t.Waitress? ensures t.id !in s.log.at {
      assert Placed(s, t);
    }
    BookNext(s, step);
    ThreadsNext(s, step);
    IdsNext(s, step);
    AnswersNext(s, step);
    CarriedNext(s, step);
  }

  /** The state after a run, if each of its steps was possible. */
  function After(steps: seq<Step>): Option<State>
  {
    if steps == [] then Some(START)
    else
      match After(steps[..|steps| - 1])
      case None => None
      case Some(s) => if Can(s, steps[|steps| - 1]) then Some(Next(s, steps[|steps| - 1])) else None
  }

  lemma {:induction false} RunsKeepInv(steps: seq<Step>)
    requires After(steps).Some?
    ensures Inv(After(steps).value)
  {
    if steps != [] {
      RunsKeepInv(steps[..|steps| - 1]);
      InvNext(After(steps[..|steps| - 1]).value, steps[|steps| - 1]);
    }
  }

  // -------------------------------------------------------- what runs keep

  /** What is promised of the orders: a bounded queue, each produced order in
      exactly one place, consumption in order of arrival, once, and eviction of
      older orders than those still queued. */
  ghost predicate OrdersConserved(s: State)
  {
    var l := s.log;
    && |s.queue| <= 32
    && (forall k | 0 <= k < |l.produced| ::
          l.produced[k].id in l.at && l.at[l.produced[k].id] == k && OnePlace(s.queue, l, l.produced[k].id))
    && (forall p | p in s.queue || p in l.consumed :: p in l.produced)
    && (forall i | 0 <= i < |l.consumed| :: l.consumed[i].id in l.at)
    && (forall i, j | 0 <= i < j < |l.consumed| :: l.at[l.consumed[i].id] < l.at[l.consumed[j].id])
    && EvictedOlder(s.queue, l)
  }

  /** What is promised of a handler: it is answered at most once, with its own
      id, out of its own order; while it waits, its channel has ended, or its
      order is queued, or a worker or an evicting producer has it in hand; when
      it has finished, it is in neither table. */
  ghost predicate HandlerServed(s: State, id: Id)
  {
    var t := Waitress(id);
    t in s.threads ==>
      && (s.threads[t].Registering? ==> id !in s.desk.waiters)
      && (s.threads[t].Await? ==>
            && id in s.desk.channels
            && (s.desk.channels[id].Open? ==>
                  id in s.desk.waiters && (Has(s.queue, id) || exists u :: Carries(s, u, id))))
      && (s.threads[t].Finished? ==> id !in s.desk.waiters && !Has(s.queue, id))
      && (s.threads[t].Finished? && s.threads[t].answer.Some? ==>
            && s.threads[t].answer.value.id == id
            && id in s.desk.channels && s.desk.channels[id] == Sent(s.threads[t].answer.value)
            && id in s.log.answered && Has(s.log.consumed, id)
            && id in s.bodies && Package(id, s.bodies[id]) in s.log.produced)
  }

  lemma ProducedIsOwn(s: State, id: Id)
    requires Inv(s) && Has(s.log.consumed, id)
    ensures id in s.bodies && Package(id, s.bodies[id]) in s.log.produced
  {
    assert OnePlace(s.queue, s.log, id);
    assert Owned(s, id);
  }

  /** Over every run, however the threads interleave. */
  lemma EveryRunServes(steps: seq<Step>)
    requires After(steps).Some?
    ensures OrdersConserved(After(steps).value)
    ensures Distinct(After(steps).value.log.answered)
    ensures forall id :: HandlerServed(After(steps).value, id)
  {
    RunsKeepInv(steps);
    var s := After(steps).value;
    forall id ensures HandlerServed(s, id) {
      assert Placed(s, Waitress(id));
      assert Owned(s, id) && ChannelAt(s, id) && Waits(s, id);
      assert Pushed(s, Waitress(id)) && Answerable(s, id);
      if Has(s.log.consumed, id) {
        ProducedIsOwn(s, id);
      }
    }
  }

  /** An order is given up only by a queue of 32, and it is the first. */
  lemma EvictsOldest(steps: seq<Step>, step: Step)
    requires After(steps).Some? && Can(After(steps).value, step)
    ensures var s := After(steps).value;
            var s' := Next(s, step);
            || s'.log.evicted == s.log.evicted
            || (|s.queue| == 32 && s'.log.evicted == s.log.evicted + {s.queue[0].id} && s'.queue == s.queue[1..])
  {
    RunsKeepInv(steps);
    var s := After(steps).value;
    assert |s.queue| <= 32;
    EvictsOnlyFull(s, step);
  }

  lemma EvictsOnlyFull(s: State, step: Step)
    requires Can(s, step)
    ensures var s' := Next(s, step);
            || s'.log.evicted == s.log.evicted
            || (|s.queue| >= 32 && s'.log.evicted == s.log.evicted + {s.queue[0].id} && s'.queue == s.queue[1..])
  {
    if !(step.Act? && s.threads[step.thread].HoldsQueue() && !s.threads[step.thread].Evicting?) {
      LogUnderLock(s, step);
    }
  }

  /** The step in which a worker answers a handler that is waiting for it. */
  predicate Answering(s: State, step: Step, id: Id)
    requires Can(s, step)
  {
    && step.Act? && s.threads[step.thread].Responding? && s.threads[step.thread].order.id == id
    && id in s.desk.waiters
  }

  /** What a worker answers is what the handler's channel holds, from then on. */
  lemma AnswersStay(steps: seq<Step>, step: Step, id: Id)
    requires After(steps).Some? && Can(After(steps).value, step)
    ensures var s := After(steps).value;
            var d, d' := s.desk, Next(s, step).desk;
            && (Answering(s, step, id) ==> id in d'.channels && d'.channels[id] == Sent(Package(id, step.answer)))
            && (id in d.channels && d.channels[id].Sent? ==> id in d'.channels && d'.channels[id] == d.channels[id])
  {
    RunsKeepInv(steps);
    var s := After(steps).value;
    assert Owned(s, id) && ChannelAt(s, id) && Waits(s, id);
    SeatNext(s, step, id);
  }

  // --------------------------------------------------------------- progress

  /** The thread that can go on when `t` waits for a lock: itself, the holder of
      the lock, or whoever holds the second lock the holder waits for. */
  function Leader(s: State, t: Thread): Thread
    requires t in s.threads
  {
    if s.threads[t].WantsDesk() && s.deskLock.Some? then s.deskLock.value
    else if s.threads[t].WantsQueue() && s.queueLock.Some? then
      var h := s.queueLock.value;
      if h in s.threads && s.threads[h].Evict? && s.deskLock.Some? then s.deskLock.value else h
    else t
  }

  lemma HolderGoesOn(s: State, h: Thread)
    requires Inv(s) && h in s.threads && (s.threads[h].HoldsQueue() || s.threads[h].HoldsDesk())
    requires s.threads[h].Evict? ==> s.deskLock == None
    ensures CanAct(s, h) || CanEnter(s, h, 0)
  {
    assert Placed(s, h);
  }

  lemma TakerGoesOn(s: State, t: Thread) returns (pick: Id)
    requires Inv(s) && t in s.threads
    requires s.threads[t].WantsQueue() ==> s.queueLock == None
    requires s.threads[t].WantsDesk() ==> s.deskLock == None
    requires s.threads[t].WantsQueue() || s.threads[t].WantsDesk()
    ensures CanEnter(s, t, pick)
  {
    assert Placed(s, t);
    pick := 0;
    if s.threads[t].Purge? {
      pick :| pick in s.threads[t].todo;
    }
  }

  /** The thread has nothing more to do, or its handler waits for an answer. */
  predicate AtRest(s: State, t: Thread)
    requires t in s.threads
  {
    match s.threads[t]
    case Finished(_) => true
    case Rested => true
    case Swept => true
    case Await => t.Waitress? && t.id in s.desk.channels && s.desk.channels[t.id] == Open
    case _ => false
  }

  /** No deadlock: in every run, for a thread that is not at rest, the thread it
      waits for can take its next step; a handler whose channel holds an answer
      can finish with it. */
  lemma NoDeadlock(steps: seq<Step>, t: Thread) returns (pick: Id)
    requires After(steps).Some? && t in After(steps).value.threads && !AtRest(After(steps).value, t)
    ensures var s := After(steps).value;
            CanAct(s, Leader(s, t)) || CanEnter(s, Leader(s, t), pick)
    ensures var s := After(steps).value;
            && Leader(s, t) in s.threads && (s.threads[Leader(s, t)].Await? ==> Leader(s, t) == t)
            && (s.threads[t].Await? && s.desk.channels[t.id].Sent? ==>
                  && CanAct(s, t)
                  && forall now, answer ::
                       Acts(s, t, now, answer).threads[t] == Finished(Some(s.desk.channels[t.id].response)))
  {
    RunsKeepInv(steps);
    var s := After(steps).value;
    var h := Leader(s, t);
    pick := 0;
    assert s.deskLock == Some(h) ==> h in s.threads && s.threads[h].HoldsDesk();
    assert s.queueLock == Some(h) ==> h in s.threads && s.threads[h].HoldsQueue();
    assert Placed(s, t);
    if s.threads[t].Await? {
      assert Owned(s, t.id) && ChannelAt(s, t.id) && Waits(s, t.id);
    } else if s.threads[h].HoldsQueue() || s.threads[h].HoldsDesk() {
      HolderGoesOn(s, h);
    } else if !(s.threads[h].Purge? && s.threads[h].todo == {}) {
      pick := TakerGoesOn(s, h);
    }
  }
}
