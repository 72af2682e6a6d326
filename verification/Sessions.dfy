/** The store manager across process lives: an operation that the process did
    not survive is followed by a restart. */
module Sessions {
  import opened Basics
  import opened Disks
  import opened Plans
  import opened Recovery
  import opened Runs
  import opened Storage

  /** Starts a process on the disk that the dead one left. */
  method Restart(m: StoreManager)
    requires m.weather == Down
    modifies m
    ensures m.weather == Calm && m.Now() == Recover(old(m.Now()))
  {
    m.weather := Calm;
    var ok := m.ReconcileOrphans();
  }

  lemma RestartUndone(d: Disk, now: Disk)
    requires Clean(d) && Offstage(d, now)
    ensures SameButTemps(d, Recover(now))
  {
    RecoverStage(d, now);
  }

  lemma StoppedPutStep(t: Tools, d: Disk, q: Request, plan: Plan, now: Disk) returns (step: Step)
    requires Fits(t, d, q, plan) && Stopped(Passed(t, d, q, plan), now)
    ensures Next(t, d, Recover(now), step) && step.PutCrash? && step.q == q
  {
    var k :| 0 <= k < |Passed(t, d, q, plan)| && Offstage(Passed(t, d, q, plan)[k], now);
    step := PutCrash(q, plan, k);
  }

  /** Whatever strikes a put, what is left is a step of a run. */
  method PutAndRestart(m: StoreManager, q: Request, l: Id, s: Id, tag: Id, tag2: Id)
      returns (ok: bool, ghost step: Step)
    requires m.weather != Down && Layout(m.tools, m.Now()) && m.tools.Blocks(m.gzip)
    requires l !in m.links && s !in m.sources
    modifies m
    ensures m.weather != Down && Next(m.tools, old(m.Now()), m.Now(), step)
    ensures ok ==> step.PutDone? && step.q == q
    ensures !ok ==> step == Undone || (step.PutCrash? && step.q == q)
    ensures old(m.weather) == Calm ==> ok || step == Undone
    ensures old(m.weather) == Calm && q.name.text != "" && Inv(m.tools, old(m.Now())) ==> ok
  {
    ghost var d := m.Now();
    ghost var plan;
    ok, plan := m.Put(q, l, s, tag, tag2);
    step := if ok then PutDone(q, plan.value) else Undone;
    if m.weather == Down {
      step := DownStep(m.tools, d, q, plan, m.Now());
      Restart(m);
    }
    NotRefused(m.tools, d, plan);
  }

  /** Without a lost count no put is refused. */
  lemma NotRefused(t: Tools, d: Disk, plan: Option<Plan>)
    ensures Inv(t, d) && plan.Some? ==> !Refuses(d, plan.value)
  {
    if Inv(t, d) && plan.Some? && plan.value.Move? { NothingPinned(t, d, plan.value.link); }
  }

  /** A put that the process did not survive. */
  lemma DownStep(t: Tools, d: Disk, q: Request, plan: Option<Plan>, now: Disk) returns (step: Step)
    requires Clean(d) && (plan == None ==> now == d)
    requires plan.Some? ==> Fits(t, d, q, plan.value) && Stopped(Passed(t, d, q, plan.value), now)
    ensures Next(t, d, Recover(now), step) && (step == Undone || (step.PutCrash? && step.q == q))
  {
    if plan.Some? {
      step := StoppedPutStep(t, d, q, plan.value, now);
    } else {
      RestartUndone(d, now);
      step := Undone;
    }
  }

  lemma CrashedAt(t: Tools, d: Disk, front: seq<Id>, l: Id, now: Disk) returns (step: Step)
    requires SomeLinks(d.links, front + [l]) && DeletableInTurn(t, d, front) && l in DeleteAll(d, front).links
    requires DeleteAll(d, front).links[l].source in DeleteAll(d, front).sources
    requires Stopped(DeletePassed(DeleteAll(d, front), l), now)
    ensures Next(t, d, Recover(now), step) && step.DeleteCrash? && step.rows == front && step.next == l
  {
    var e := DeleteAll(d, front);
    var k :| 0 <= k < |DeletePassed(e, l)| && Offstage(DeletePassed(e, l)[k], now);
    assert DeletePassed(e, l)[k] == DeleteStages(e, l)[k];
    step := DeleteCrash(front, l, k);
  }

  /** Without a lost count no deletion is refused. */
  lemma NextIsNotPinned(t: Tools, d: Disk, rows: seq<Id>, done: nat)
    requires Inv(t, d) && SomeLinks(d.links, rows) && done < |rows|
    ensures !Pinned(DeleteAll(d, rows[..done]), rows[done])
  {
    NextIsDeletable(t, d, rows, done);
  }

  /** The rows a step may have deleted. */
  function Taken(step: Step): seq<Id>
  {
    match step
    case Deleted(rows) => rows
    case DeleteCrash(rows, l, _) => rows + [l]
    case _ => []
  }

  lemma OneMoreLink(links: map<Id, Link>, rows: seq<Id>, done: nat)
    requires SomeLinks(links, rows) && done < |rows|
    ensures rows[..done] + [rows[done]] <= rows && SomeLinks(links, rows[..done] + [rows[done]])
  {
    FirstLinks(links, rows, done + 1);
    assert rows[..done] + [rows[done]] == rows[..done + 1];
  }

  lemma StoppedDeleteStep(t: Tools, d: Disk, rows: seq<Id>, done: nat, now: Disk) returns (step: Step)
    requires Clean(d) && SomeLinks(d.links, rows) && StoppedDeleting(t, d, rows, done, now)
    ensures Next(t, d, Recover(now), step) && Taken(step) <= rows && !step.PutDone? && !step.PutCrash?
  {
    if done < |rows| {
      var front, l := rows[..done], rows[done];
      OneMoreLink(d.links, rows, done);
      step := CrashedAt(t, d, front, l, now);
    } else {
      RestartUndone(d, now);
      step := Undone;
    }
  }

  /** Whatever strikes a delete, what is left is a step of a run. */
  method DeleteAndRestart(m: StoreManager, pattern: string, useRegex: bool) returns (ok: bool, ghost step: Step)
    requires m.weather != Down && Layout(m.tools, m.Now())
    modifies m
    ensures m.weather != Down && Next(m.tools, old(m.Now()), m.Now(), step)
    ensures !step.PutDone? && !step.PutCrash?
    ensures forall l | l in Taken(step) ::
              l in old(m.links) && Matches(m.tools, pattern, useRegex, old(m.links)[l].name)
    ensures ok ==>
              && step.Deleted?
              && forall l | l in old(m.links) && Matches(m.tools, pattern, useRegex, old(m.links)[l].name) ::
                   l in step.rows
    ensures old(m.weather) == Calm && pattern != "" && Inv(m.tools, old(m.Now())) ==> ok
  {
    ghost var d := m.Now();
    ghost var rows, done;
    ok, rows, done := m.Delete(pattern, useRegex);
    assert rows[..|rows|] == rows;
    step := Deleted(rows[..done]);
    if m.weather == Down {
      step := StoppedDeleteStep(m.tools, d, rows, done, m.Now());
      Restart(m);
    } else {
      FirstLinks(d.links, rows, done);
      if Inv(m.tools, d) && !ok && done < |rows| { NextIsNotPinned(m.tools, d, rows, done); }
    }
  }
}
