/** The porter's loop among producers, workers and a shutdown: draining the
    queue, parking in its select, and leaving. */
module Porter {
  import opened Basics
  import opened Conveyer
  import Shutdown

  /** `Drain` is the head of the inner loop, `Holding` the wait for a permit with
      an order in hand, `Settle` the test after the inner loop, `Arm`, `Look` and
      `Parked` the select (its shutdown branch not yet listening, listening, and
      asleep), `Check` the test after the select. */
  datatype Place =
    | Drain | Holding(order: Package) | Settle
    | Arm | Look(from: nat) | Parked(from: nat)
    | Check | Left

  datatype State = State(
    place: Place,
    stopping: bool,
    orders: seq<Package>,
    unsent: nat,      // producers between push and send
    sent: nat,        // the version of the watch channel
    seen: nat,        // the version the porter has seen
    running: nat,     // workers at work, each with a permit
    ended: nat,       // workers done and not yet joined
    permits: nat,     // permits not handed out
    bell: Shutdown.Bell,
    ringing: bool,    // a shutdown between its swap and its notification
    arrived: seq<Package>,
    taken: seq<Package>,
    started: seq<Package>)

  /** The porter at its start: subscribed, nothing taken. Orders, producers and
      a shutdown may already be there. */
  predicate Begins(s: State, limit: nat)
  {
    && s.place.Drain? && !s.stopping && s.seen == s.sent
    && s.running == 0 && s.ended == 0 && s.permits == limit
    && s.taken == [] && s.started == [] && s.arrived == s.orders
    && s.bell.calls == (if s.bell.raised && !s.ringing then 1 else 0)
    && (s.ringing ==> s.bell.raised)
  }

  function Workers(s: State): nat
  {
    s.running + s.ended
  }

  datatype Step =
    | Push(order: Package) | Send | Remove(id: Id)
    | Raise | Ring
    | WorkerEnds
    | Go | Changed | Joined

  /** The select stands before its branches. */
  predicate Selecting(s: State)
  {
    s.place.Arm? || s.place.Look? || s.place.Parked?
  }

  predicate ChangedArmed(s: State, limit: nat)
  {
    !s.stopping && Workers(s) < limit
  }

  predicate Can(s: State, limit: nat, step: Step)
  {
    match step
    case Push(_) => true
    case Send => s.unsent > 0
    case Remove(_) => true
    case Raise => true
    case Ring => s.ringing
    case WorkerEnds => s.running > 0
    case Go =>
      (match s.place
       case Holding(_) => s.permits > 0
       case Parked(from) => !s.stopping && Shutdown.CanWake(s.bell, from)
       case Left => false
       case _ => true)
    case Changed => Selecting(s) && ChangedArmed(s, limit) && s.sent != s.seen
    case Joined => Selecting(s) && s.ended > 0
  }

  /** The porter's own step. In the select it is the shutdown branch. */
  function Goes(s: State, limit: nat): State
    requires Can(s, limit, Go)
  {
    match s.place
    case Drain =>
      if !s.stopping && Workers(s) < limit && s.orders != [] then
        s.(place := Holding(s.orders[0]), orders := s.orders[1..], taken := s.taken + [s.orders[0]])
      else s.(place := Settle)
    case Holding(order) =>
      s.(place := Drain, permits := s.permits - 1, running := s.running + 1, started := s.started + [order])
    case Settle => s.(place := if s.stopping && Workers(s) == 0 then Left else Arm)
    case Arm => s.(place := Look(s.bell.calls))
    case Look(from) =>
      if !s.stopping && s.bell.raised then s.(place := Check, stopping := true) else s.(place := Parked(from))
    case Parked(_) => s.(place := Check, stopping := true)
    case Check => s.(place := Drain, stopping := s.stopping || s.bell.raised)
  }

  function Next(s: State, limit: nat, step: Step): State
    requires Can(s, limit, step)
  {
    match step
    case Push(order) =>
      s.(orders := Room(s.orders) + [order], unsent := s.unsent + 1, arrived := s.arrived + [order])
    case Send => s.(unsent := s.unsent - 1, sent := s.sent + 1)
    case Remove(id) => s.(orders := Without(s.orders, {id}))
    case Raise => s.(bell := s.bell.(raised := true), ringing := s.ringing || !s.bell.raised)
    case Ring => s.(bell := s.bell.(calls := s.bell.calls + 1), ringing := false)
    case WorkerEnds => s.(running := s.running - 1, ended := s.ended + 1, permits := s.permits + 1)
    case Go => Goes(s, limit)
    case Changed => s.(place := Check, seen := s.sent)
    case Joined => s.(place := Check, ended := s.ended - 1)
  }

  function After(start: State, limit: nat, steps: seq<Step>): Option<State>
  {
    if steps == [] then Some(start)
    else
      match After(start, limit, steps[..|steps| - 1])
      case None => None
      case Some(s) =>
        if Can(s, limit, steps[|steps| - 1]) then Some(Next(s, limit, steps[|steps| - 1])) else None
  }

  // --------------------------------------------------------- the invariant

  /** With room for another worker, a queued order is one the porter will hear
      of: a notification it has not seen, or a producer about to send it. */
  predicate NoLostWork(s: State, limit: nat)
  {
    !s.stopping && Workers(s) < limit && s.orders != [] ==> s.sent != s.seen || s.unsent > 0
  }

  predicate PermitsSound(s: State, limit: nat)
  {
    && Workers(s) <= limit
    && s.permits + s.running == limit
    && (s.place.Holding? ==> Workers(s) < limit && !s.stopping)
  }

  predicate BellSound(s: State)
  {
    && s.bell.calls == (if s.bell.raised && !s.ringing then 1 else 0)
    && (s.ringing ==> s.bell.raised)
    && (s.stopping ==> s.bell.raised)
    && (s.place.Look? ==> s.place.from <= s.bell.calls)
    && (s.place.Parked? && !s.stopping ==> s.place.from == 0)
  }

  predicate PlaceSound(s: State)
  {
    && (Selecting(s) ==> !s.stopping || Workers(s) > 0)
    && (s.place.Left? ==> s.stopping && Workers(s) == 0)
    && s.taken == s.started + (if s.place.Holding? then [s.place.order] else [])
  }

  /** The elements of `a` stand in `b` in the same order, at places of their own. */
  predicate Within(a: seq<Package>, b: seq<Package>)
    decreases |b|
  {
    if a == [] then true
    else if b == [] then false
    else
      var x, y := a[..|a| - 1], b[..|b| - 1];
      (a[|a| - 1] == b[|b| - 1] && Within(x, y)) || Within(a, y)
  }

  lemma {:induction false} WithinSelf(a: seq<Package>)
    ensures Within(a, a)
  {
    if a != [] { WithinSelf(a[..|a| - 1]); }
  }

  lemma WithinNothingBefore(a: seq<Package>)
    ensures Within([] + a, a)
  {
    assert [] + a == a;
    WithinSelf(a);
  }

  lemma WithinSnoc(a: seq<Package>, b: seq<Package>, p: Package)
    requires Within(a, b)
    ensures Within(a + [p], b + [p]) && Within(a, b + [p])
  {
    assert (a + [p])[..|a|] == a && (b + [p])[..|b|] == b;
  }

  /** Leaving out an element keeps the order of the rest. */
  lemma {:induction false} WithinLess(a: seq<Package>, i: nat, b: seq<Package>)
    requires i < |a| && Within(a, b)
    ensures Within(a[..i] + a[i + 1..], b)
    decreases |b|
  {
    var less := a[..i] + a[i + 1..];
    if b != [] {
      var n, x, y := |a| - 1, a[..|a| - 1], b[..|b| - 1];
      if a[n] == b[|b| - 1] && Within(x, y) {
        if i == n {
          assert less == x;
        } else {
          WithinLess(x, i, y);
          assert less[..|less| - 1] == x[..i] + x[i + 1..];
        }
      } else {
        WithinLess(a, i, y);
      }
    }
  }

  lemma {:induction false} WithinWithout(front: seq<Package>, q: seq<Package>, id: Id, b: seq<Package>)
    requires Within(front + q, b)
    ensures Within(front + Without(q, {id}), b)
    decreases |b|
  {
    if q == [] {
      assert Without(q, {id}) == q;
    } else {
      var rest, last, y := q[..|q| - 1], q[|q| - 1], b[..|b| - 1];
      assert (front + q)[..|front + q| - 1] == front + rest && (front + q)[|front + q| - 1] == last;
      assert b == y + [b[|b| - 1]];
      if last == b[|b| - 1] && Within(front + rest, y) {
        WithinWithout(front, rest, id, y);
        WithinSnoc(front + Without(rest, {id}), y, last);
        assert front + (Without(rest, {id}) + [last]) == front + Without(rest, {id}) + [last];
      } else {
        WithinWithout(front, q, id, y);
        WithinSnoc(front + Without(q, {id}), y, b[|b| - 1]);
      }
    }
  }

  lemma WithinRoom(taken: seq<Package>, orders: seq<Package>, order: Package, arrived: seq<Package>)
    requires Within(taken + orders, arrived)
    ensures Within(taken + (Room(orders) + [order]), arrived + [order])
  {
    if |orders| >= CAPACITY {
      WithinLess(taken + orders, |taken|, arrived);
      assert (taken + orders)[..|taken|] + (taken + orders)[|taken| + 1..] == taken + Room(orders);
    }
    WithinSnoc(taken + Room(orders), arrived, order);
    assert taken + (Room(orders) + [order]) == taken + Room(orders) + [order];
  }

  predicate Inv(s: State, limit: nat)
  {
    && PermitsSound(s, limit) && BellSound(s) && PlaceSound(s)
    && s.seen <= s.sent && Within(s.taken + s.orders, s.arrived)
    && (s.place.Settle? || Selecting(s) ==> NoLostWork(s, limit))
  }

  lemma InvNext(s: State, limit: nat, step: Step)
    requires Inv(s, limit) && Can(s, limit, step)
    ensures Inv(Next(s, limit, step), limit)
  {
    match step {
      case Go => GoKeepsInv(s, limit);
      case Push(order) => PushKeepsInv(s, limit, order);
      case Remove(id) =>
        WithoutNothing(s.orders, id);
        WithinWithout(s.taken, s.orders, id, s.arrived);
      case Send =>
      case _ => if step.Raise? || step.Ring? { BellKeepsInv(s, limit, step); } else { WorkKeepsInv(s, limit, step); }
    }
  }

  lemma BellKeepsInv(s: State, limit: nat, step: Step)
    requires Inv(s, limit) && Can(s, limit, step) && (step.Raise? || step.Ring?)
    ensures Inv(Next(s, limit, step), limit)
  {
  }

  lemma WorkKeepsInv(s: State, limit: nat, step: Step)
    requires Inv(s, limit) && Can(s, limit, step) && (step.WorkerEnds? || step.Changed? || step.Joined?)
    ensures Inv(Next(s, limit, step), limit)
  {
  }

  lemma PushKeepsInv(s: State, limit: nat, order: Package)
    requires Inv(s, limit)
    ensures Inv(Next(s, limit, Push(order)), limit)
  {
    WithinRoom(s.taken, s.orders, order, s.arrived);
  }

  /** Removing from an empty queue leaves it empty. */
  lemma WithoutNothing(q: seq<Package>, id: Id)
    ensures q == [] ==> Without(q, {id}) == []
  {
  }

  /** The porter's own step. */
  lemma GoKeepsInv(s: State, limit: nat)
    requires Inv(s, limit) && Can(s, limit, Go)
    ensures Inv(Goes(s, limit), limit)
  {
    match s.place {
      case Drain =>
        if s.orders != [] { assert s.taken + [s.orders[0]] + s.orders[1..] == s.taken + s.orders; }
      case Holding(_) =>
      case Settle =>
      case Arm =>
      case Look(_) =>
      case Parked(_) =>
      case Check =>
    }
  }

  lemma BeginsSound(start: State, limit: nat)
    requires Begins(start, limit)
    ensures Inv(start, limit)
  {
    WithinNothingBefore(start.orders);
  }

  lemma {:induction false} RunsKeepInv(start: State, limit: nat, steps: seq<Step>)
    requires Begins(start, limit) && After(start, limit, steps).Some?
    ensures Inv(After(start, limit, steps).value, limit)
  {
    if steps == [] {
      BeginsSound(start, limit);
    } else {
      RunsKeepInv(start, limit, steps[..|steps| - 1]);
      InvNext(After(start, limit, steps[..|steps| - 1]).value, limit, steps[|steps| - 1]);
    }
  }

  // ------------------------------------------------------------ the promises

  /** In every run: never more workers than the limit; the wait for a permit
      never blocks; the select always has a branch whose condition holds; parked
      with room to spare, no queued order goes unheard; every order taken from
      the queue is handed to exactly one worker, in order of arrival; and the
      porter stops only after a shutdown, with no worker left. */
  lemma EveryRunKeeps(start: State, limit: nat, steps: seq<Step>)
    requires Begins(start, limit) && After(start, limit, steps).Some?
    ensures var s := After(start, limit, steps).value;
            && Workers(s) <= limit
            && (s.place.Holding? ==> Can(s, limit, Go))
            && (Selecting(s) ==> !s.stopping || Workers(s) > 0)
            && (Selecting(s) ==> NoLostWork(s, limit))
            && s.taken == s.started + (if s.place.Holding? then [s.place.order] else [])
            && Within(s.taken + s.orders, s.arrived)
            && (Workers(s) == limit ==> !Can(s, limit, Changed))
            && (s.place.Left? ==> s.bell.raised && Workers(s) == 0)
  {
    RunsKeepInv(start, limit, steps);
  }

  /** No step but the porter's own is still to come: no producer is about to
      send, no worker is at work, no shutdown is about to notify. */
  predicate Quiet(s: State)
  {
    s.unsent == 0 && s.running == 0 && !s.ringing
  }

  /** When all is quiet, the porter can go on, or it has left after a shutdown,
      or there is neither a shutdown nor an order: it never sleeps on either. */
  lemma NeverSleepsOnWork(start: State, limit: nat, steps: seq<Step>)
    requires limit > 0 && Begins(start, limit) && After(start, limit, steps).Some?
    ensures var s := After(start, limit, steps).value;
            Quiet(s) ==>
              || Can(s, limit, Go) || Can(s, limit, Changed) || Can(s, limit, Joined)
              || (if s.bell.raised then s.place.Left? else s.orders == [])
  {
    RunsKeepInv(start, limit, steps);
  }

  /** How far the porter is from heeding a shutdown. */
  function Delay(s: State, limit: nat): nat
    requires Workers(s) <= limit
  {
    match s.place
    case Drain => 2 * (limit - Workers(s)) + 6
    case Holding(_) => 2 * (limit - Workers(s)) + 5
    case Settle => 5
    case Arm => 4
    case Look(_) => 3
    case Parked(_) => 2
    case Check => 1
    case Left => 0
  }

  /** Once the shutdown is raised, every step of the porter's own brings it
      nearer to stopping, no other step takes it away from there, and until it
      is stopping it can go on, or can once the shutdown has notified. */
  lemma HeedsShutdown(start: State, limit: nat, steps: seq<Step>, step: Step)
    requires Begins(start, limit) && After(start, limit, steps).Some? && After(start, limit, steps).value.bell.raised
    requires Can(After(start, limit, steps).value, limit, step) && !After(start, limit, steps).value.stopping
    ensures var s := After(start, limit, steps).value;
            var s' := Next(s, limit, step);
            && Workers(s) <= limit && Workers(s') <= limit
            && (if step.Go? || step.Changed? || step.Joined? then s'.stopping || Delay(s', limit) < Delay(s, limit)
                else !s'.stopping && Delay(s', limit) == Delay(s, limit))
            && (Can(s, limit, Go) || (s.ringing && Can(Next(s, limit, Ring), limit, Go)))
  {
    RunsKeepInv(start, limit, steps);
    var s := After(start, limit, steps).value;
    InvNext(s, limit, step);
    if step.Go? {
      GoHeeds(s, limit);
    } else {
      OtherHeeds(s, limit, step);
    }
  }

  lemma GoHeeds(s: State, limit: nat)
    requires Inv(s, limit) && s.bell.raised && !s.stopping && Can(s, limit, Go) && Workers(Goes(s, limit)) <= limit
    ensures Goes(s, limit).stopping || Delay(Goes(s, limit), limit) < Delay(s, limit)
  {
  }

  lemma OtherHeeds(s: State, limit: nat, step: Step)
    requires Inv(s, limit) && s.bell.raised && !s.stopping && Can(s, limit, step) && !step.Go?
    requires Workers(Next(s, limit, step)) <= limit
    ensures var s' := Next(s, limit, step);
            if step.Changed? || step.Joined? then Delay(s', limit) < Delay(s, limit)
            else !s'.stopping && Delay(s', limit) == Delay(s, limit)
  {
  }

  /** How far the porter is from leaving, once it is stopping. */
  function Distance(s: State): nat
  {
    8 * s.running + 7 * s.ended +
    (match s.place
     case Check => 5
     case Drain => 4
     case Settle => 3
     case Arm => 2
     case Look(_) => 1
     case _ => 0)
  }

  /** Once the porter is stopping it takes no further order, and each step of
      its own or of a worker's end brings it nearer to leaving; no other step
      takes it away; and until it has left, one of these steps can be taken. */
  lemma StoppingLeaves(start: State, limit: nat, steps: seq<Step>, step: Step)
    requires Begins(start, limit) && After(start, limit, steps).Some? && After(start, limit, steps).value.stopping
    requires Can(After(start, limit, steps).value, limit, step)
    ensures var s := After(start, limit, steps).value;
            var s' := Next(s, limit, step);
            && s'.stopping && s'.taken == s.taken
            && (if step.Go? || step.Joined? || step.WorkerEnds? then Distance(s') < Distance(s)
                else Distance(s') == Distance(s))
            && (s.place.Left? || Can(s, limit, Go) || Can(s, limit, Joined) || Can(s, limit, WorkerEnds))
  {
    RunsKeepInv(start, limit, steps);
  }
}
