/** Raising the shutdown and waiting for it, one atomic access at a time. */
module Shutdown {
  import opened Basics

  /** The flag, and how many times the waiters have been notified. */
  datatype Bell = Bell(raised: bool, calls: nat)

  /** A caller swaps the flag; only the first goes on to notify. */
  datatype Caller = Swapping | Notifying | Returned

  /** A waiter listens from the number of notifications so far, then looks at
      the flag, then sleeps until it is notified. */
  datatype Waiter = Listening | Looking(from: nat) | Sleeping(from: nat) | Released

  datatype State = State(bell: Bell, callers: map<nat, Caller>, waiters: map<nat, Waiter>)

  const START := State(Bell(false, 0), map[], map[])

  datatype Step = Call(n: nat) | Caller(n: nat) | Wait(n: nat) | Waiter(n: nat)

  predicate CanWake(b: Bell, from: nat)
  {
    b.calls != from
  }

  predicate Can(s: State, step: Step)
  {
    match step
    case Call(n) => n !in s.callers
    case Caller(n) => n in s.callers && !s.callers[n].Returned?
    case Wait(n) => n !in s.waiters
    case Waiter(n) =>
      && n in s.waiters && !s.waiters[n].Released?
      && (s.waiters[n].Sleeping? ==> CanWake(s.bell, s.waiters[n].from))
  }

  function CallerStep(s: State, n: nat): State
    requires Can(s, Caller(n))
  {
    if s.callers[n].Swapping? then
      State(s.bell.(raised := true), s.callers[n := if s.bell.raised then Returned else Notifying], s.waiters)
    else
      State(s.bell.(calls := s.bell.calls + 1), s.callers[n := Returned], s.waiters)
  }

  function WaiterStep(s: State, n: nat): State
    requires Can(s, Waiter(n))
  {
    var next :=
      match s.waiters[n]
      case Listening => Looking(s.bell.calls)
      case Looking(from) => if s.bell.raised then Released else Sleeping(from)
      case Sleeping(_) => Released;
    s.(waiters := s.waiters[n := next])
  }

  function Next(s: State, step: Step): State
    requires Can(s, step)
  {
    match step
    case Call(n) => s.(callers := s.callers[n := Swapping])
    case Caller(n) => CallerStep(s, n)
    case Wait(n) => s.(waiters := s.waiters[n := Listening])
    case Waiter(n) => WaiterStep(s, n)
  }

  // -------------------------------------------------------- the invariant

  /** Before the flag is raised no one has notified; after, either the one
      notifier is on its way or it has been. */
  ghost predicate BellSound(s: State)
  {
    && (forall n, m | n in s.callers && m in s.callers && s.callers[n].Notifying? && s.callers[m].Notifying? :: n == m)
    && (forall n | n in s.callers && s.callers[n].Notifying? :: s.bell == Bell(true, 0))
    && (s.bell == Bell(true, 0) ==> exists n :: n in s.callers && s.callers[n].Notifying?)
    && s.bell.calls == (if s.bell.raised && s.bell.calls != 0 then 1 else 0)
  }

  ghost predicate WaiterSound(b: Bell, w: Waiter)
  {
    match w
    case Listening => true
    case Looking(from) => from <= b.calls
    case Sleeping(from) => from == 0
    case Released => b.raised
  }

  ghost predicate Inv(s: State)
  {
    BellSound(s) && forall n | n in s.waiters :: WaiterSound(s.bell, s.waiters[n])
  }

  lemma CallerKeeps(s: State, n: nat)
    requires BellSound(s) && Can(s, Caller(n))
    ensures BellSound(CallerStep(s, n))
  {
    var s' := CallerStep(s, n);
    if s'.bell == Bell(true, 0) {
      if s.bell.raised {
        var m :| m in s.callers && s.callers[m].Notifying?;
        assert m in s'.callers && s'.callers[m].Notifying?;
      } else {
        assert n in s'.callers && s'.callers[n].Notifying?;
      }
    }
  }

  lemma InvNext(s: State, step: Step)
    requires Inv(s) && Can(s, step)
    ensures Inv(Next(s, step))
  {
    match step {
      case Caller(n) => CallerKeeps(s, n);
      case Call(n) =>
        if s.bell == Bell(true, 0) {
          var m :| m in s.callers && s.callers[m].Notifying?;
          assert m in Next(s, step).callers && Next(s, step).callers[m].Notifying?;
        }
      case _ =>
    }
  }

  function After(steps: seq<Step>): Option<State>
  {
    if steps == [] then Some(START)
    else
      match After(steps[..|steps| - 1])
      case None => None
      case Some(s) => if Can(s, steps[|steps| - 1]) then Some(Next(s, steps[|steps| - 1])) else None
  }

  lemma {:induction false} RunsKeepInv(steps: seq<Step>)
    requires After(steps).Some?
    ensures Inv(After(steps).value)
  {
    if steps != [] {
      RunsKeepInv(steps[..|steps| - 1]);
      InvNext(After(steps[..|steps| - 1]).value, steps[|steps| - 1]);
    }
  }

  /** A shutdown is never missed: whenever the flag is raised and a waiter has
      not returned, the waiter can take its next step, or the one caller that
      will notify it can, and after that the waiter can. A waiter that has
      returned did so after the flag was raised. */
  lemma NeverMissed(steps: seq<Step>, w: nat) returns (n: nat)
    requires After(steps).Some? && w in After(steps).value.waiters
    ensures var s := After(steps).value;
            if s.waiters[w].Released? then s.bell.raised
            else s.bell.raised ==>
                   || Can(s, Waiter(w))
                   || (Can(s, Caller(n)) && Can(Next(s, Caller(n)), Waiter(w)))
  {
    RunsKeepInv(steps);
    var s := After(steps).value;
    assert WaiterSound(s.bell, s.waiters[w]);
    n := 0;
    if s.bell == Bell(true, 0) {
      n :| n in s.callers && s.callers[n].Notifying?;
    }
  }
}
