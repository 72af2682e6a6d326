/** Concurrent callers of the store, under its lock for many readers or one
    writer. A put hashes and encodes before it takes the lock, a get decodes
    after it has given it up; in between, a get reads link, row and payload one
    after the other, and a put or a delete goes through its stages. */
module Linear {
  import opened Basics
  import opened Disks
  import opened Plans
  import opened Recovery
  import opened Guarantees
  import opened Runs
  import opened Storage

  datatype Op = PutOp(q: Request) | GetOp(name: Name) | DeleteOp(pattern: string, useRegex: bool)

  datatype Answer = Success | Value(found: Option<Option<Bytes>>) | Error

  /** A writer's turn: the disk it found, and its place in the order of locking. */
  datatype Turn = Turn(begun: Disk, ticket: nat)

  datatype Place =
    | Called(op: Op)
    | Encoded(q: Request, row: Source, raw: Bytes)
    // holding the write lock
    | PutHeld(q: Request, row: Source, raw: Bytes, turn: Turn)
    | PutUnder(q: Request, row: Source, raw: Bytes, plan: Plan, turn: Turn)
    | DeleteHeld(pattern: string, useRegex: bool, turn: Turn)
    | DeleteUnder(pattern: string, useRegex: bool, rows: seq<Id>, turn: Turn)
    // holding a read lock; `at` is the get's entry in the log
    | Locating(name: Name, at: nat)
    | Reading(name: Name, link: Link, at: nat)
    | Loading(name: Name, source: Id, row: Source, at: nat)
    | Loaded(name: Name, fetch: Fetch, at: nat)
    // holding nothing again
    | Opening(name: Name, fetch: Fetch, at: nat)
    | Returned(op: Op, entry: Option<nat>, answer: Answer)
  {
    predicate Writes()
    {
      PutHeld? || PutUnder? || DeleteHeld? || DeleteUnder?
    }

    predicate Reads()
    {
      Locating? || Reading? || Loading? || Loaded?
    }
  }

  /** What an operation did. A put sets `names` to `result`: its own name to its
      data, unless counts were lost or contents torn before. A delete that
      failed half-way is not complete. */
  datatype Event =
    | PutEvent(q: Request, names: set<Name>, result: Option<Bytes>)
    | GetEvent(name: Name)
    | DeleteEvent(pattern: string, useRegex: bool, gone: set<Name>, complete: bool)

  datatype Entry = Entry(event: Event, ticket: nat)

  /** `log` lists what was done; `tickets` counts the locks taken so far, and
      `called` how many had been when each caller arrived. */
  datatype State = State(
    disk: Disk,
    writer: Option<nat>,
    readers: set<nat>,
    tickets: nat,
    threads: map<nat, Place>,
    called: map<nat, nat>,
    log: seq<Entry>)

  // ------------------------------------------------------------- the steps

  predicate HasLink(d: Disk, name: Name, link: Link)
  {
    link.name == name && exists l | l in d.links :: d.links[l] == link
  }

  ghost predicate Lists(t: Tools, d: Disk, pattern: string, useRegex: bool, rows: seq<Id>)
  {
    && SomeLinks(d.links, rows)
    && forall l | l in d.links :: l in rows <==> Matches(t, pattern, useRegex, d.links[l].name)
  }

  function Opened(t: Tools, fetch: Fetch): Option<Option<Bytes>>
  {
    match fetch
    case Fetched(row, raw) => Some(Decode(t, row, raw))
    case _ => None
  }

  /** Thread `i` goes on to `p`; nothing but its place changes. */
  predicate Goes(s: State, s': State, i: nat, p: Place)
  {
    s' == s.(threads := s.threads[i := p])
  }

  predicate TakesWriteLock(s: State, s': State, i: nat, p: Place)
  {
    && s.writer == None && s.readers == {}
    && s' == s.(threads := s.threads[i := p], writer := Some(i), tickets := s.tickets + 1)
  }

  predicate TakesReadLock(s: State, s': State, i: nat, p: Place, event: Event)
  {
    && s.writer == None
    && s' == s.(threads := s.threads[i := p], readers := s.readers + {i}, tickets := s.tickets + 1,
                log := s.log + [Entry(event, s.tickets)])
  }

  /** The writer leaves disk `e` behind, having done nothing worth an entry. */
  predicate LeavesNothing(s: State, s': State, i: nat, op: Op, e: Disk)
  {
    s' == s.(threads := s.threads[i := Returned(op, None, Error)], writer := None, disk := e)
  }

  /** The writer leaves disk `e` behind, with an entry for what it did. */
  predicate Leaves(s: State, s': State, i: nat, op: Op, answer: Answer, e: Disk, entry: Entry)
  {
    s' == s.(threads := s.threads[i := Returned(op, Some(|s.log|), answer)], writer := None, disk := e,
             log := s.log + [entry])
  }

  /** What a put does to what names read. */
  ghost function PutDid(t: Tools, d: Disk, q: Request, plan: Plan): Event
    requires Applies(d, plan)
  {
    PutEvent(q, Touched(d.links, q.name, plan), PutResult(t, d, q, plan))
  }

  /** A put under the lock: the lookups, the stages of its branch, its end. It
      goes by the encoded form of its request. */
  ghost predicate PutStep(t: Tools, s: State, s': State, i: nat)
    requires i in s.threads
  {
    match s.threads[i]
    case PutHeld(q, row, raw, turn) =>
      || LeavesNothing(s, s', i, PutOp(q), s.disk)
      || exists plan :: FitsRow(s.disk, q.name, q.cover, row, plan) && Goes(s, s', i, PutUnder(q, row, raw, plan, turn))
    case PutUnder(q, row, raw, plan, turn) =>
      && Applies(turn.begun, plan)
      && var stages := PassedOf(t, turn.begun, q.name, row, raw, plan);
         || (s' == s.(disk := s'.disk) && Stopped(stages, s'.disk))
         || (LeavesNothing(s, s', i, PutOp(q), s'.disk) && SameButTemps(turn.begun, s'.disk))
         || (&& !Refuses(turn.begun, plan) && SameButTemps(stages[|stages| - 1], s'.disk)
             && Leaves(s, s', i, PutOp(q), Success, s'.disk, Entry(PutDid(t, turn.begun, q, plan), turn.ticket)))
    case _ => false
  }

  /** A delete under the lock: the listing, each link's stages, its end. */
  ghost predicate DeleteStep(t: Tools, s: State, s': State, i: nat)
    requires i in s.threads
  {
    match s.threads[i]
    case DeleteHeld(pattern, useRegex, turn) =>
      || LeavesNothing(s, s', i, DeleteOp(pattern, useRegex), s.disk)
      || exists rows :: Lists(t, s.disk, pattern, useRegex, rows)
                        && Goes(s, s', i, DeleteUnder(pattern, useRegex, rows, turn))
    case DeleteUnder(pattern, useRegex, rows, turn) =>
      || (s' == s.(disk := s'.disk) && exists done :: StoppedDeleting(t, turn.begun, rows, done, s'.disk))
      || (exists done | 0 <= done <= |rows| :: DeleteEnds(t, s, s', i, pattern, useRegex, rows, turn, done))
    case _ => false
  }

  /** The first `done` of the listed links are gone; all of them if it succeeded. */
  ghost predicate DeleteEnds(
    t: Tools, s: State, s': State, i: nat, pattern: string, useRegex: bool, rows: seq<Id>, turn: Turn, done: nat)
    requires done <= |rows|
  {
    var gone := NamesOf(turn.begun.links, rows[..done]);
    && DeletableInTurn(t, turn.begun, rows[..done]) && s'.disk == DeleteAll(turn.begun, rows[..done])
    && Leaves(s, s', i, DeleteOp(pattern, useRegex), if done == |rows| then Success else Error, s'.disk,
              Entry(DeleteEvent(pattern, useRegex, gone, done == |rows|), turn.ticket))
  }

  /** A get under the lock: link, row and payload, each read when it is its
      turn; any of the reads may fail. */
  ghost predicate GetStep(s: State, s': State, i: nat)
    requires i in s.threads
  {
    match s.threads[i]
    case Locating(name, at) =>
      || Goes(s, s', i, Loaded(name, Failed, at))
      || (name !in Names(s.disk.links) && Goes(s, s', i, Loaded(name, Missing, at)))
      || exists link :: HasLink(s.disk, name, link) && Goes(s, s', i, Reading(name, link, at))
    case Reading(name, link, at) =>
      || Goes(s, s', i, Loaded(name, Failed, at))
      || (link.source !in s.disk.sources && Goes(s, s', i, Loaded(name, Missing, at)))
      || (link.source in s.disk.sources
          && Goes(s, s', i, Loading(name, link.source, s.disk.sources[link.source], at)))
    case Loading(name, source, row, at) =>
      || Goes(s, s', i, Loaded(name, Failed, at))
      || (source in s.disk.payloads && Goes(s, s', i, Loaded(name, Fetched(row, s.disk.payloads[source]), at)))
    case Loaded(name, fetch, at) =>
      s' == s.(threads := s.threads[i := Opening(name, fetch, at)], readers := s.readers - {i})
    case _ => false
  }

  /** Outside the lock: refusing an empty name or pattern, encoding, taking the
      lock, decoding. */
  predicate OutsideStep(t: Tools, s: State, s': State, i: nat)
    requires i in s.threads
  {
    match s.threads[i]
    case Called(PutOp(q)) =>
      if q.name.text == "" then Goes(s, s', i, Returned(PutOp(q), None, Error))
      else Goes(s, s', i, Encoded(q, RowFor(t, q), RawFor(t, q)))
    case Encoded(q, row, raw) => TakesWriteLock(s, s', i, PutHeld(q, row, raw, Turn(s.disk, s.tickets)))
    case Called(DeleteOp(pattern, useRegex)) =>
      if pattern == "" then Goes(s, s', i, Returned(DeleteOp(pattern, useRegex), None, Error))
      else TakesWriteLock(s, s', i, DeleteHeld(pattern, useRegex, Turn(s.disk, s.tickets)))
    case Called(GetOp(name)) =>
      if name.text == "" then Goes(s, s', i, Returned(GetOp(name), None, Error))
      else TakesReadLock(s, s', i, Locating(name, |s.log|), GetEvent(name))
    case Opening(name, fetch, at) =>
      Goes(s, s', i, Returned(GetOp(name), Some(at), if fetch == Failed then Error else Value(Opened(t, fetch))))
    case _ => false
  }

  /** One step of caller `i`, every other caller standing still. */
  ghost predicate ThreadStep(t: Tools, s: State, s': State, i: nat)
  {
    && i in s.threads
    && (OutsideStep(t, s, s', i) || PutStep(t, s, s', i) || DeleteStep(t, s, s', i) || GetStep(s, s', i))
  }

  /** A new caller arrives. */
  predicate Arrives(s: State, s': State, i: nat, op: Op)
  {
    i !in s.threads && s' == s.(threads := s.threads[i := Called(op)], called := s.called[i := s.tickets])
  }

  ghost predicate StateNext(t: Tools, s: State, s': State)
  {
    (exists i :: ThreadStep(t, s, s', i)) || (exists i, op :: Arrives(s, s', i, op))
  }

  // -------------------------------------------------- the sequential store

  function Apply(v: View, event: Event): View
  {
    match event
    case PutEvent(_, names, result) => Setting(v, names, result)
    case GetEvent(_) => v
    case DeleteEvent(_, _, gone, _) => v - gone
  }

  function Replay(v: View, log: seq<Entry>): View
  {
    if log == [] then v else Apply(Replay(v, log[..|log| - 1]), log[|log| - 1].event)
  }

  lemma ReplaySnoc(v: View, log: seq<Entry>, entry: Entry)
    ensures Replay(v, log + [entry]) == Apply(Replay(v, log), entry.event)
  {
    assert (log + [entry])[..|log|] == log;
  }

  /** Where a sequential run begins: what names read, the contents that may be
      about, and whether no count was lost. */
  datatype Base = Base(view: View, world: World, counted: bool)

  /** These names are there and read the same. */
  predicate Alike(v: View, names: set<Name>)
  {
    forall m, n | m in names && n in names :: m in v && n in v && v[m] == v[n]
  }

  /** A put sets its own name to its data; but for torn contents it may read as
      corrupt, and after a lost count a cover may set other names with it, all
      of which read the same before. A delete takes away matching names only,
      and all of them if it is complete. Nothing is done under an empty name or
      pattern. */
  predicate Legal(t: Tools, b: Base, v: View, event: Event)
  {
    match event
    case PutEvent(q, names, result) =>
      && q.name.text != "" && q.name in names
      && (result == Some(q.data) || (result == None && t.hash(q.data) in b.world.torn))
      && (names != {q.name} ==> !b.counted && q.cover && Alike(v, names))
    case GetEvent(name) => name.text != ""
    case DeleteEvent(pattern, useRegex, gone, complete) =>
      && pattern != ""
      && (forall n | n in gone :: n in v && Matches(t, pattern, useRegex, n))
      && (complete ==> forall n | n in v && Matches(t, pattern, useRegex, n) :: n in gone)
  }

  /** On a store with no lost count and nothing torn a put is the map update. */
  lemma LegalPutIsUpdate(t: Tools, b: Base, v: View, event: Event)
    requires Legal(t, b, v, event) && event.PutEvent? && b.counted && b.world.torn == {}
    ensures Apply(v, event) == v[event.q.name := Some(event.q.data)]
  {
    SettingOne(v, event.q.name, event.result);
  }

  /** The event that answers an operation. */
  predicate Answers(op: Op, event: Event, answer: Answer)
  {
    match op
    case PutOp(q) => event.PutEvent? && event.q == q && answer == Success
    case GetOp(name) => event == GetEvent(name) && answer != Success
    case DeleteOp(pattern, useRegex) =>
      && event.DeleteEvent? && event.pattern == pattern && event.useRegex == useRegex
      && answer == if event.complete then Success else Error
  }

  // -------------------------------------------------------------- the lock

  /** Who is where holds what: one writer, or any number of readers. */
  ghost predicate Locked(s: State)
  {
    && (forall i :: i in s.threads && s.threads[i].Writes() <==> s.writer == Some(i))
    && (forall i :: i in s.threads && s.threads[i].Reads() <==> i in s.readers)
    && (s.writer.Some? ==> s.readers == {})
  }

  /** The lock follows the place of `i`, and no one else moves. */
  ghost predicate Tracks(s: State, s': State, i: nat)
  {
    && i in s.threads && i in s'.threads && s'.threads == s.threads[i := s'.threads[i]]
    && s'.writer == (if s'.threads[i].Writes() then Some(i) else if s.threads[i].Writes() then None else s.writer)
    && s'.readers == (if s'.threads[i].Reads() then s.readers + {i} else s.readers - {i})
    && (s'.threads[i].Writes() && !s.threads[i].Writes() ==> s.writer == None && s.readers == {})
    && (s'.threads[i].Reads() && !s.threads[i].Reads() ==> s.writer == None)
  }

  lemma LockedAfter(s: State, s': State, i: nat)
    requires Locked(s) && Tracks(s, s', i)
    ensures Locked(s')
  {
  }

  lemma PutTracks(t: Tools, s: State, s': State, i: nat)
    requires Locked(s) && i in s.threads && PutStep(t, s, s', i)
    ensures Tracks(s, s', i)
  {
    assert s.writer == Some(i) && i !in s.readers;
  }

  /** A writer that goes on under its lock, or leaves. */
  lemma WriterTracks(s: State, s': State, i: nat, p: Place)
    requires i in s.threads && s.threads[i].Writes() && s.writer == Some(i) && i !in s.readers
    requires s'.threads == s.threads[i := p] && s'.readers == s.readers && !p.Reads()
    requires s'.writer == if p.Writes() then Some(i) else None
    ensures Tracks(s, s', i)
  {
  }

  lemma DeleteTracks(t: Tools, s: State, s': State, i: nat)
    requires Locked(s) && i in s.threads && DeleteStep(t, s, s', i)
    ensures Tracks(s, s', i)
  {
    assert s.writer == Some(i) && i !in s.readers;
    DeleteMoves(t, s, s', i);
    WriterTracks(s, s', i, s'.threads[i]);
  }

  lemma DeleteMoves(t: Tools, s: State, s': State, i: nat)
    requires i in s.threads && DeleteStep(t, s, s', i) && s.writer == Some(i)
    ensures i in s'.threads && s'.threads == s.threads[i := s'.threads[i]] && s'.readers == s.readers
    ensures !s'.threads[i].Reads() && s'.writer == if s'.threads[i].Writes() then Some(i) else None
  {
    assert s.threads == s.threads[i := s.threads[i]];
  }

  lemma GetTracks(s: State, s': State, i: nat)
    requires Locked(s) && i in s.threads && GetStep(s, s', i)
    ensures Tracks(s, s', i)
  {
    assert i in s.readers;
  }

  lemma StepTracks(t: Tools, s: State, s': State, i: nat)
    requires Locked(s) && ThreadStep(t, s, s', i)
    ensures Tracks(s, s', i)
  {
    if PutStep(t, s, s', i) {
      PutTracks(t, s, s', i);
    } else if DeleteStep(t, s, s', i) {
      DeleteTracks(t, s, s', i);
    } else if GetStep(s, s', i) {
      GetTracks(s, s', i);
    } else {
      assert s.writer != Some(i) && i !in s.readers;
    }
  }

  // ------------------------------------------------------------ the tickets

  /** The entry that a place speaks of. */
  function EntryOf(p: Place): Option<nat>
  {
    match p
    case Returned(_, entry, _) => entry
    case p => if p.Reads() || p.Opening? then Some(p.at) else None
  }

  /** Entries are in the order in which their locks were taken, and every lock
      was taken after its caller arrived. */
  ghost predicate Ticketed(s: State)
  {
    && (forall j, k | 0 <= j < k < |s.log| :: s.log[j].ticket < s.log[k].ticket)
    && (forall k | 0 <= k < |s.log| :: s.log[k].ticket < s.tickets)
    && (forall i | i in s.threads :: TicketOf(s, i))
    && (forall i | i in s.called :: i in s.threads)
  }

  ghost predicate TicketOf(s: State, i: nat)
    requires i in s.threads
  {
    var p := s.threads[i];
    && i in s.called && s.called[i] <= s.tickets
    && (p.Writes() ==>
          && s.called[i] <= p.turn.ticket && p.turn.ticket + 1 == s.tickets
          && forall k | 0 <= k < |s.log| :: s.log[k].ticket < p.turn.ticket)
    && (EntryOf(p).Some? ==> EntryOf(p).value < |s.log| && s.called[i] <= s.log[EntryOf(p).value].ticket)
  }

  /** What a step does to tickets and log: nothing, a ticket drawn, an entry. */
  ghost predicate Draws(s: State, s': State, i: nat)
  {
    && s'.called == s.called && s.log <= s'.log
    && (|| (s'.tickets == s.tickets && s'.log == s.log)
        || (s'.tickets == s.tickets + 1 && s'.log == s.log && s.writer == None)
        || (s'.tickets == s.tickets + 1 && |s'.log| == |s.log| + 1 && s'.log[|s.log|].ticket == s.tickets
            && s.writer == None)
        || (s'.tickets == s.tickets && |s'.log| == |s.log| + 1 && i in s.threads && s.threads[i].Writes()
            && s'.log[|s.log|].ticket == s.threads[i].turn.ticket && s.writer == Some(i) && s'.writer == None))
  }

  lemma StepDraws(t: Tools, s: State, s': State, i: nat)
    requires Locked(s) && ThreadStep(t, s, s', i)
    ensures Draws(s, s', i)
  {
    assert s.threads[i].Writes() ==> s.writer == Some(i);
  }

  // The mover's own ticket after its step.

  lemma OutsideTicket(t: Tools, s: State, s': State, i: nat)
    requires i in s.threads && TicketOf(s, i) && OutsideStep(t, s, s', i)
    requires forall k | 0 <= k < |s.log| :: s.log[k].ticket < s.tickets
    ensures i in s'.threads && TicketOf(s', i)
  {
  }

  lemma PutTicket(t: Tools, s: State, s': State, i: nat)
    requires i in s.threads && TicketOf(s, i) && PutStep(t, s, s', i)
    ensures i in s'.threads && TicketOf(s', i)
  {
  }

  lemma DeleteTicket(t: Tools, s: State, s': State, i: nat)
    requires i in s.threads && TicketOf(s, i) && DeleteStep(t, s, s', i)
    ensures i in s'.threads && TicketOf(s', i)
  {
  }

  lemma GetTicket(s: State, s': State, i: nat)
    requires i in s.threads && TicketOf(s, i) && GetStep(s, s', i)
    ensures i in s'.threads && TicketOf(s', i)
  {
  }

  lemma StepTicket(t: Tools, s: State, s': State, i: nat)
    requires Ticketed(s) && ThreadStep(t, s, s', i)
    ensures i in s'.threads && TicketOf(s', i)
  {
    assert TicketOf(s, i);
    if OutsideStep(t, s, s', i) {
      OutsideTicket(t, s, s', i);
    } else if PutStep(t, s, s', i) {
      PutTicket(t, s, s', i);
    } else if DeleteStep(t, s, s', i) {
      DeleteTicket(t, s, s', i);
    } else {
      GetTicket(s, s', i);
    }
  }

  lemma OtherTicket(s: State, s': State, i: nat, j: nat)
    requires Locked(s) && Ticketed(s) && Tracks(s, s', i) && Draws(s, s', i) && j != i && j in s.threads
    ensures j in s'.threads && TicketOf(s', j)
  {
    assert TicketOf(s, j);
    assert s.threads[j].Writes() <==> s.writer == Some(j);
  }

  lemma StepTicketed(t: Tools, s: State, s': State, i: nat)
    requires Locked(s) && Ticketed(s) && ThreadStep(t, s, s', i)
    ensures Ticketed(s')
  {
    StepTracks(t, s, s', i);
    StepDraws(t, s, s', i);
    StepTicket(t, s, s', i);
    assert TicketOf(s, i);
    LogTicketed(s, s', i);
    forall j | j in s'.threads ensures TicketOf(s', j) {
      if j != i { OtherTicket(s, s', i, j); }
    }
  }

  lemma LogTicketed(s: State, s': State, i: nat)
    requires Ticketed(s) && i in s.threads && TicketOf(s, i) && Draws(s, s', i)
    ensures forall j, k | 0 <= j < k < |s'.log| :: s'.log[j].ticket < s'.log[k].ticket
    ensures forall k | 0 <= k < |s'.log| :: s'.log[k].ticket < s'.tickets
  {
  }

  // ---------------------------------------------------------- what is true

  /** The disk shows what the log says, and holds known bytes or torn ones. */
  ghost predicate Settled(t: Tools, b: Base, d: Disk, log: seq<Entry>)
  {
    Layout(t, d) && (b.counted ==> Inv(t, d)) && Healthy(t, d, b.world) && ViewOf(t, d) == Replay(b.view, log)
  }

  predicate Logged(log: seq<Entry>, at: nat, event: Event)
  {
    at < |log| && log[at].event == event
  }

  /** What thread `i` knows at its place. A reader's knowledge is of the disk as
      it is now, which is the disk of its entry. */
  ghost predicate Knows(t: Tools, b: Base, s: State, i: nat)
    requires i in s.threads
  {
    match s.threads[i]
    case Called(op) => op.PutOp? ==> op.q.data in b.world.known
    case Encoded(q, row, raw) =>
      q.data in b.world.known && q.name.text != "" && row == RowFor(t, q) && raw == RawFor(t, q)
    case PutHeld(q, row, raw, turn) =>
      && q.data in b.world.known && q.name.text != "" && row == RowFor(t, q) && raw == RawFor(t, q)
      && s.disk == turn.begun && Settled(t, b, turn.begun, s.log)
    case PutUnder(q, row, raw, plan, turn) =>
      && q.data in b.world.known && q.name.text != "" && row == RowFor(t, q) && raw == RawFor(t, q)
      && Fits(t, turn.begun, q, plan) && Settled(t, b, turn.begun, s.log)
    case DeleteHeld(pattern, _, turn) =>
      pattern != "" && s.disk == turn.begun && Settled(t, b, turn.begun, s.log)
    case DeleteUnder(pattern, useRegex, rows, turn) =>
      pattern != "" && Settled(t, b, turn.begun, s.log) && Lists(t, turn.begun, pattern, useRegex, rows)
    case Locating(name, at) => AtLock(t, b.view, s, name, at)
    case Reading(name, link, at) => AtLock(t, b.view, s, name, at) && HasLink(s.disk, name, link)
    case Loading(name, source, row, at) =>
      && AtLock(t, b.view, s, name, at) && source in s.disk.sources && row == s.disk.sources[source]
      && exists link :: HasLink(s.disk, name, link) && link.source == source
    case Loaded(name, fetch, at) => AtLock(t, b.view, s, name, at) && Tells(t, b.view, s.log, name, fetch, at)
    case Opening(name, fetch, at) => Logged(s.log, at, GetEvent(name)) && Tells(t, b.view, s.log, name, fetch, at)
    case Returned(op, entry, answer) => Answered(b.view, s.log, op, entry, answer)
  }

  /** The disk is still the one of the reader's entry. */
  ghost predicate AtLock(t: Tools, v: View, s: State, name: Name, at: nat)
  {
    Logged(s.log, at, GetEvent(name)) && ViewOf(t, s.disk) == Replay(v, s.log[..at])
  }

  /** What was fetched decodes to what the log says the name read at entry `at`. */
  ghost predicate Tells(t: Tools, v: View, log: seq<Entry>, name: Name, fetch: Fetch, at: nat)
    requires at < |log|
  {
    fetch != Failed ==> Opened(t, fetch) == At(Replay(v, log[..at]), name)
  }

  /** An operation that succeeded has its entry, and a get's answer is what the
      log says its name read there. */
  predicate Answered(v: View, log: seq<Entry>, op: Op, entry: Option<nat>, answer: Answer)
  {
    && (answer != Error ==> entry.Some?)
    && (entry.Some? ==> entry.value < |log| && Answers(op, log[entry.value].event, answer))
    && (entry.Some? && op.GetOp? && answer != Error ==>
          answer == Value(At(Replay(v, log[..entry.value]), op.name)))
  }

  ghost predicate AllLegal(t: Tools, b: Base, log: seq<Entry>)
  {
    forall k | 0 <= k < |log| :: Legal(t, b, Replay(b.view, log[..k]), log[k].event)
  }

  /** What every reachable state satisfies. */
  ghost predicate Good(t: Tools, b: Base, s: State)
  {
    && Locked(s) && Ticketed(s) && AllLegal(t, b, s.log)
    && (s.writer == None ==> Settled(t, b, s.disk, s.log))
    && (forall i | i in s.threads :: Knows(t, b, s, i))
  }

  lemma PrefixKept(log: seq<Entry>, log': seq<Entry>, at: nat)
    requires log <= log' && at < |log|
    ensures log'[..at] == log[..at] && log'[at] == log[at]
  {
  }

  /** Another thread's step takes nothing from what `j` knows: the disk moves
      only under the writer, and then no one reads. */
  lemma OtherKnows(t: Tools, b: Base, s: State, s': State, i: nat, j: nat)
    requires Locked(s) && Tracks(s, s', i) && j != i && j in s.threads && Knows(t, b, s, j)
    requires s.log <= s'.log && (s'.disk == s.disk || s.writer == Some(i))
              && (s'.log == s.log || !s.threads[j].Writes())
    ensures j in s'.threads && Knows(t, b, s', j)
  {
    assert s.threads[j].Writes() <==> s.writer == Some(j);
    assert s.threads[j].Reads() <==> j in s.readers;
    var p := s.threads[j];
    if EntryOf(p).Some? && EntryOf(p).value < |s.log| {
      PrefixKept(s.log, s'.log, EntryOf(p).value);
    }
  }

  lemma OneMoreLegal(t: Tools, b: Base, log: seq<Entry>, entry: Entry)
    requires AllLegal(t, b, log) && Legal(t, b, Replay(b.view, log), entry.event)
    ensures AllLegal(t, b, log + [entry])
  {
    var more := log + [entry];
    forall k | 0 <= k < |more| ensures Legal(t, b, Replay(b.view, more[..k]), more[k].event) {
      if k < |log| { PrefixKept(log, more, k); } else { assert more[..k] == log; }
    }
  }

  // ------------------------------------------------- steps outside the lock

  lemma OutsideKnows(t: Tools, b: Base, s: State, s': State, i: nat)
    requires i in s.threads && Knows(t, b, s, i) && OutsideStep(t, s, s', i)
    requires s.writer == None ==> Settled(t, b, s.disk, s.log)
    ensures i in s'.threads && Knows(t, b, s', i)
  {
    if s.threads[i].Called? && s.threads[i].op.GetOp? {
      assert s'.log[..|s.log|] == s.log;
    }
  }

  lemma OutsideSettled(t: Tools, b: Base, s: State, s': State, i: nat)
    requires i in s.threads && OutsideStep(t, s, s', i) && AllLegal(t, b, s.log)
    requires s.writer == None ==> Settled(t, b, s.disk, s.log)
    ensures s'.disk == s.disk && AllLegal(t, b, s'.log)
    ensures s'.writer == None ==> Settled(t, b, s'.disk, s'.log)
  {
    if s'.log != s.log {
      var entry := s'.log[|s.log|];
      assert s'.log == s.log + [entry];
      ReplaySnoc(b.view, s.log, entry);
      OneMoreLegal(t, b, s.log, entry);
    }
  }

  // ---------------------------------------------------------- steps of a get

  lemma LocatedNothing(t: Tools, v: View, s: State, name: Name, at: nat)
    requires AtLock(t, v, s, name, at) && name !in Names(s.disk.links)
    ensures Tells(t, v, s.log, name, Missing, at)
  {
  }

  lemma LoadedPayload(t: Tools, v: View, s: State, name: Name, link: Link, at: nat)
    requires AtLock(t, v, s, name, at) && Layout(t, s.disk) && HasLink(s.disk, name, link)
    ensures link.source in s.disk.sources && link.source in s.disk.payloads
    ensures Tells(t, v, s.log, name, Fetched(s.disk.sources[link.source], s.disk.payloads[link.source]), at)
  {
    var l :| l in s.disk.links && s.disk.links[l] == link;
    LinkShows(t, s.disk, l);
  }

  /** The three reads of a get see one disk, so together they tell what the
      name read when the lock was taken. */
  lemma GetKnows(t: Tools, b: Base, s: State, s': State, i: nat)
    requires Locked(s) && i in s.threads && Knows(t, b, s, i) && GetStep(s, s', i)
    requires s.writer == None ==> Layout(t, s.disk)
    ensures i in s'.threads && Knows(t, b, s', i)
  {
    assert i in s.readers;
    match s.threads[i] {
      case Locating(name, at) => LocatingKnows(t, b, s, s', i);
      case Reading(name, link, at) => LoadedPayload(t, b.view, s, name, link, at);
      case Loading(name, source, row, at) => LoadingKnows(t, b, s, s', i);
      case Loaded(name, fetch, at) =>
    }
  }

  lemma LocatingKnows(t: Tools, b: Base, s: State, s': State, i: nat)
    requires i in s.threads && s.threads[i].Locating? && Knows(t, b, s, i) && GetStep(s, s', i)
    ensures i in s'.threads && Knows(t, b, s', i)
  {
    if s.threads[i].name !in Names(s.disk.links) { LocatedNothing(t, b.view, s, s.threads[i].name, s.threads[i].at); }
  }

  lemma LoadingKnows(t: Tools, b: Base, s: State, s': State, i: nat)
    requires i in s.threads && s.threads[i].Loading? && Knows(t, b, s, i) && GetStep(s, s', i) && Layout(t, s.disk)
    ensures i in s'.threads && Knows(t, b, s', i)
  {
    var p := s.threads[i];
    var link :| HasLink(s.disk, p.name, link) && link.source == p.source;
    LoadedPayload(t, b.view, s, p.name, link, p.at);
  }

  // ---------------------------------------------------------- steps of a put

  lemma SettledSame(t: Tools, b: Base, d: Disk, e: Disk, log: seq<Entry>)
    requires Settled(t, b, d, log) && SameButTemps(d, e)
    ensures Settled(t, b, e, log)
  {
    SameButTempsKeeps(t, d, e);
    SameButTempsHealthy(t, d, e, b.world);
  }

  /** A finished put under the lock does to what names read what its event says. */
  lemma PutSettles(t: Tools, b: Base, d: Disk, e: Disk, q: Request, plan: Plan, log: seq<Entry>, ticket: nat)
    requires t.Lossless() && Settled(t, b, d, log) && q.data in b.world.known
    requires Fits(t, d, q, plan) && !Refuses(d, plan) && SameButTemps(Done(t, d, q, plan), e)
    ensures Settled(t, b, e, log + [Entry(PutDid(t, d, q, plan), ticket)])
  {
    PutIsMapUpdate(t, d, e, q, plan);
    assert Healthy(t, e, b.world) by {
      DoneHealthy(t, d, q, plan, b.world);
      SameButTempsHealthy(t, Done(t, d, q, plan), e, b.world);
    }
    ReplaySnoc(b.view, log, Entry(PutDid(t, d, q, plan), ticket));
  }

  /** And what it says is what a put may do. */
  lemma PutIsLegal(t: Tools, b: Base, d: Disk, q: Request, plan: Plan)
    requires Unambiguous(t, b.world.known) && q.data in b.world.known && q.name.text != ""
    requires Layout(t, d) && (b.counted ==> Inv(t, d)) && Healthy(t, d, b.world) && Fits(t, d, q, plan)
    ensures Legal(t, b, ViewOf(t, d), PutDid(t, d, q, plan))
  {
    ReusedShows(t, d, q, plan, b.world);
    TouchedIffClobbers(t, d, q, plan);
    if Clobbers(d, plan) {
      if b.counted { NothingPinned(t, d, plan.link); }
      SameReading(t, d, d.links[plan.link].source);
    }
  }

  lemma SameReading(t: Tools, d: Disk, s: Id)
    requires OneLinkPerName(d.links)
    ensures Alike(ViewOf(t, d), NamesOn(d.links, s))
  {
    forall n | n in NamesOn(d.links, s) ensures n in ViewOf(t, d) && ViewOf(t, d)[n] == ReadAt(t, d, s) {
      NamesRead(t, d, s, n);
    }
  }

  lemma PutKnows(t: Tools, b: Base, s: State, s': State, i: nat)
    requires t.Lossless() && i in s.threads && Knows(t, b, s, i) && PutStep(t, s, s', i)
    ensures i in s'.threads && Knows(t, b, s', i)
  {
  }

  lemma PutLeaves(t: Tools, b: Base, s: State, s': State, i: nat)
    requires t.Lossless() && Unambiguous(t, b.world.known) && Locked(s) && AllLegal(t, b, s.log)
    requires i in s.threads && Knows(t, b, s, i) && PutStep(t, s, s', i)
    ensures AllLegal(t, b, s'.log) && (s'.writer == None ==> Settled(t, b, s'.disk, s'.log))
  {
    assert s.writer == Some(i);
    if s.threads[i].PutUnder? && s'.writer == None {
      var p := s.threads[i];
      if s'.threads[i].answer == Success {
        PutEnds(t, b, s, s', i, p);
      } else {
        assert SameButTemps(p.turn.begun, s'.disk) && s'.log == s.log;
        SettledSame(t, b, p.turn.begun, s'.disk, s.log);
      }
    }
  }

  /** A put that succeeds under its lock leaves its last stage and its entry. */
  lemma PutEnds(t: Tools, b: Base, s: State, s': State, i: nat, p: Place)
    requires t.Lossless() && Unambiguous(t, b.world.known) && AllLegal(t, b, s.log) && i in s.threads
    requires p.PutUnder? && p == s.threads[i] && Knows(t, b, s, i) && PutStep(t, s, s', i)
    requires i in s'.threads && s'.threads[i].Returned? && s'.threads[i].answer == Success
    ensures AllLegal(t, b, s'.log) && Settled(t, b, s'.disk, s'.log)
  {
    var d, entry := p.turn.begun, Entry(PutDid(t, p.turn.begun, p.q, p.plan), p.turn.ticket);
    PutFinished(t, s, s', i, p);
    PutSettles(t, b, d, s'.disk, p.q, p.plan, s.log, p.turn.ticket);
    PutIsLegal(t, b, d, p.q, p.plan);
    OneMoreLegal(t, b, s.log, entry);
  }

  lemma PutFinished(t: Tools, s: State, s': State, i: nat, p: Place)
    requires i in s.threads && p == s.threads[i] && p.PutUnder? && PutStep(t, s, s', i)
    requires i in s'.threads && s'.threads[i].Returned? && s'.threads[i].answer == Success
    requires p.row == RowFor(t, p.q) && p.raw == RawFor(t, p.q) && Fits(t, p.turn.begun, p.q, p.plan)
    ensures !Refuses(p.turn.begun, p.plan) && SameButTemps(Done(t, p.turn.begun, p.q, p.plan), s'.disk)
    ensures s'.log == s.log + [Entry(PutDid(t, p.turn.begun, p.q, p.plan), p.turn.ticket)]
  {
  }

  // ------------------------------------------------------- steps of a delete

  /** The names that went match the pattern; all that match went if all the
      listed links did. */
  lemma GoneIsLegal(t: Tools, b: Base, d: Disk, pattern: string, useRegex: bool, rows: seq<Id>, done: nat)
    requires OneLinkPerName(d.links) && Lists(t, d, pattern, useRegex, rows) && done <= |rows| && pattern != ""
    ensures Legal(t, b, ViewOf(t, d), DeleteEvent(pattern, useRegex, NamesOf(d.links, rows[..done]), done == |rows|))
  {
    var front := rows[..done];
    forall n | n in NamesOf(d.links, front) ensures n in Names(d.links) && Matches(t, pattern, useRegex, n) {
      var i :| 0 <= i < |front| && front[i] in d.links && d.links[front[i]].name == n;
      assert front[i] in rows;
    }
    if done == |rows| {
      forall n | n in Names(d.links) && Matches(t, pattern, useRegex, n) ensures n in NamesOf(d.links, front) {
        var l := LinkOf(d.links, n);
        var i :| 0 <= i < |rows| && rows[i] == l;
        assert front[i] == l;
      }
    }
  }

  lemma DeleteSettles(t: Tools, b: Base, d: Disk, rows: seq<Id>, log: seq<Entry>, entry: Entry)
    requires Settled(t, b, d, log) && SomeLinks(d.links, rows) && DeletableInTurn(t, d, rows)
    requires entry.event.DeleteEvent? && entry.event.gone == NamesOf(d.links, rows)
    ensures Settled(t, b, DeleteAll(d, rows), log + [entry])
  {
    var e := DeleteAll(d, rows);
    assert Layout(t, e) && Healthy(t, e, b.world) && ViewOf(t, e) == ViewOf(t, d) - NamesOf(d.links, rows) by {
      DeletedStep(t, d, rows, b.world);
    }
    if b.counted { DeleteAllInv(t, d, rows); }
    ReplayDelete(b.view, log, entry, ViewOf(t, d), ViewOf(t, e));
  }

  lemma ReplayDelete(v: View, log: seq<Entry>, entry: Entry, before: View, after: View)
    requires before == Replay(v, log) && entry.event.DeleteEvent? && after == before - entry.event.gone
    ensures after == Replay(v, log + [entry])
  {
    ReplaySnoc(v, log, entry);
  }

  lemma DeleteKnows(t: Tools, b: Base, s: State, s': State, i: nat)
    requires i in s.threads && Knows(t, b, s, i) && DeleteStep(t, s, s', i)
    ensures i in s'.threads && Knows(t, b, s', i)
  {
  }

  lemma DeleteLeaves(t: Tools, b: Base, s: State, s': State, i: nat)
    requires Locked(s) && AllLegal(t, b, s.log)
    requires i in s.threads && Knows(t, b, s, i) && DeleteStep(t, s, s', i)
    ensures AllLegal(t, b, s'.log) && (s'.writer == None ==> Settled(t, b, s'.disk, s'.log))
  {
    assert s.writer == Some(i);
    if s.threads[i].DeleteUnder? && s'.writer == None {
      var p := s.threads[i];
      var done :| 0 <= done <= |p.rows| && DeleteEnds(t, s, s', i, p.pattern, p.useRegex, p.rows, p.turn, done);
      DeleteEnded(t, b, s, s', i, p, done);
    }
  }

  lemma DeleteEnded(t: Tools, b: Base, s: State, s': State, i: nat, p: Place, done: nat)
    requires AllLegal(t, b, s.log) && p.DeleteUnder? && p.pattern != "" && Settled(t, b, p.turn.begun, s.log)
    requires Lists(t, p.turn.begun, p.pattern, p.useRegex, p.rows) && done <= |p.rows|
    requires DeleteEnds(t, s, s', i, p.pattern, p.useRegex, p.rows, p.turn, done)
    ensures AllLegal(t, b, s'.log) && Settled(t, b, s'.disk, s'.log)
  {
    var d, front, entry := p.turn.begun, p.rows[..done], s'.log[|s.log|];
    FirstLinks(d.links, p.rows, done);
    DeleteSettles(t, b, d, front, s.log, entry);
    GoneIsLegal(t, b, d, p.pattern, p.useRegex, p.rows, done);
    OneMoreLegal(t, b, s.log, entry);
  }

  // ------------------------------------------------------------- the theorem

  lemma StepOwn(t: Tools, b: Base, s: State, s': State, i: nat)
    requires t.Lossless() && Unambiguous(t, b.world.known) && Good(t, b, s) && ThreadStep(t, s, s', i)
    ensures i in s'.threads && Knows(t, b, s', i) && AllLegal(t, b, s'.log)
    ensures s'.writer == None ==> Settled(t, b, s'.disk, s'.log)
  {
    assert Knows(t, b, s, i);
    if OutsideStep(t, s, s', i) {
      OutsideKnows(t, b, s, s', i);
      OutsideSettled(t, b, s, s', i);
    } else if PutStep(t, s, s', i) {
      PutKnows(t, b, s, s', i);
      PutLeaves(t, b, s, s', i);
    } else if DeleteStep(t, s, s', i) {
      DeleteKnows(t, b, s, s', i);
      DeleteLeaves(t, b, s, s', i);
    } else {
      GetKnows(t, b, s, s', i);
      GetLeaves(s, s', i);
    }
  }

  lemma GetLeaves(s: State, s': State, i: nat)
    requires i in s.threads && GetStep(s, s', i)
    ensures s'.disk == s.disk && s'.log == s.log && s'.writer == s.writer
  {
  }

  /** The disk moves only under the writer; the log grows when no one writes or
      by the writer. */
  lemma StepMoves(t: Tools, s: State, s': State, i: nat)
    requires Locked(s) && ThreadStep(t, s, s', i)
    ensures s.log <= s'.log && (s'.disk == s.disk || s.writer == Some(i))
    ensures s'.log == s.log || s.writer == None || s.writer == Some(i)
  {
    StepDraws(t, s, s', i);
    assert s.threads[i].Writes() ==> s.writer == Some(i);
  }

  lemma StepKeepsGood(t: Tools, b: Base, s: State, s': State, i: nat)
    requires t.Lossless() && Unambiguous(t, b.world.known) && Good(t, b, s) && ThreadStep(t, s, s', i)
    ensures Good(t, b, s')
  {
    StepTracks(t, s, s', i);
    LockedAfter(s, s', i);
    StepTicketed(t, s, s', i);
    StepMoves(t, s, s', i);
    StepOwn(t, b, s, s', i);
    forall j | j in s'.threads ensures Knows(t, b, s', j) {
      if j != i {
        assert Knows(t, b, s, j);
        assert s.threads[j].Writes() ==> s.writer == Some(j);
        OtherKnows(t, b, s, s', i, j);
      }
    }
  }

  lemma ArrivalKnows(t: Tools, b: Base, s: State, s': State, i: nat, op: Op, j: nat)
    requires Arrives(s, s', i, op) && j in s.threads && Knows(t, b, s, j)
    ensures j in s'.threads && Knows(t, b, s', j)
  {
    assert s'.threads[j] == s.threads[j] && s'.disk == s.disk && s'.log == s.log;
  }

  lemma ArrivalTicketed(s: State, s': State, i: nat, op: Op)
    requires Ticketed(s) && Arrives(s, s', i, op)
    ensures Ticketed(s')
  {
    forall j | j in s'.threads ensures TicketOf(s', j) {
      if j != i { assert TicketOf(s, j); }
    }
  }

  lemma ArrivalLocked(s: State, s': State, i: nat, op: Op)
    requires Locked(s) && Arrives(s, s', i, op)
    ensures Locked(s')
  {
  }

  lemma ArrivalKeepsGood(t: Tools, b: Base, s: State, s': State, i: nat, op: Op)
    requires Good(t, b, s) && Arrives(s, s', i, op) && (op.PutOp? ==> op.q.data in b.world.known)
    ensures Good(t, b, s')
  {
    ArrivalTicketed(s, s', i, op);
    ArrivalLocked(s, s', i, op);
    forall j | j in s'.threads ensures Knows(t, b, s', j) {
      if j != i {
        assert Knows(t, b, s, j);
        ArrivalKnows(t, b, s, s', i, op, j);
      }
    }
  }

  /** A history: each state follows from the one before. */
  ghost predicate History(t: Tools, states: seq<State>)
  {
    && |states| > 0
    && forall k | 0 <= k < |states| - 1 :: StateNext(t, states[k], states[k + 1])
  }

  /** It begins with no callers, on any disk that a restart can find. */
  ghost predicate Begins(t: Tools, s: State, world: World)
  {
    && Layout(t, s.disk) && Healthy(t, s.disk, world) && Unambiguous(t, world.known)
    && s.writer == None && s.readers == {} && s.threads == map[] && s.called == map[] && s.log == []
  }

  /** The contents that callers bring in are known. */
  ghost predicate CallsInvolved(s: State, known: iset<Bytes>)
  {
    forall i | i in s.threads && s.threads[i].Called? && s.threads[i].op.PutOp? :: s.threads[i].op.q.data in known
  }

  ghost function BaseOf(t: Tools, d: Disk, world: World): Base
  {
    Base(ViewOf(t, d), world, Inv(t, d))
  }

  /** An execution: such a history from such a beginning. */
  ghost predicate Execution(t: Tools, states: seq<State>, world: World)
  {
    && History(t, states) && Begins(t, states[0], world)
    && forall k | 0 <= k < |states| :: CallsInvolved(states[k], world.known)
  }

  lemma ExecutionStep(t: Tools, states: seq<State>, world: World, k: nat)
    requires Execution(t, states, world) && 0 < k < |states|
    ensures StateNext(t, states[k - 1], states[k])
    ensures CallsInvolved(states[k], world.known) && Unambiguous(t, world.known)
  {
    assert StateNext(t, states[k - 1], states[(k - 1) + 1]);
  }

  lemma NextKeepsGood(t: Tools, b: Base, s: State, s': State)
    requires t.Lossless() && Unambiguous(t, b.world.known) && Good(t, b, s)
    requires StateNext(t, s, s') && CallsInvolved(s', b.world.known)
    ensures Good(t, b, s')
  {
    if i :| ThreadStep(t, s, s', i) {
      StepKeepsGood(t, b, s, s', i);
    } else {
      var i, op :| Arrives(s, s', i, op);
      assert s'.threads[i] == Called(op);
      ArrivalKeepsGood(t, b, s, s', i, op);
    }
  }

  lemma {:induction false} HistoryIsGood(t: Tools, states: seq<State>, world: World, k: nat)
    requires t.Lossless() && Execution(t, states, world) && k < |states|
    ensures Good(t, BaseOf(t, states[0].disk, world), states[k])
  {
    if k > 0 {
      HistoryIsGood(t, states, world, k - 1);
      ExecutionStep(t, states, world, k);
      NextKeepsGood(t, BaseOf(t, states[0].disk, world), states[k - 1], states[k]);
    } else {
      BeginningIsGood(t, states[0], world);
    }
  }

  lemma BeginningIsGood(t: Tools, s: State, world: World)
    requires Begins(t, s, world)
    ensures Good(t, BaseOf(t, s.disk, world), s)
  {
    assert Settled(t, BaseOf(t, s.disk, world), s.disk, []);
  }

  /** What a caller sees of a sequential store: while no one writes the disk
      shows the log replayed; the log is legal and in the order of locking; and
      every operation that has returned has its place in it. */
  ghost predicate Sequential(t: Tools, b: Base, s: State)
  {
    && (s.writer == None ==> ViewOf(t, s.disk) == Replay(b.view, s.log))
    && (s.readers != {} ==> s.writer == None)
    && AllLegal(t, b, s.log)
    && (forall j, k | 0 <= j < k < |s.log| :: s.log[j].ticket < s.log[k].ticket)
    && (forall i | i in s.threads && s.threads[i].Returned? ::
          Answered(b.view, s.log, s.threads[i].op, s.threads[i].entry, s.threads[i].answer))
  }

  /** Every interleaving of puts, gets and deletes, failures included, equals
      the sequential run in the order in which they took the lock, and each get
      answers with the map's value at its lock point. */
  lemma InterleavingsAreSequential(t: Tools, states: seq<State>, world: World)
    requires t.Lossless() && Execution(t, states, world)
    ensures forall k | 0 <= k < |states| :: Sequential(t, BaseOf(t, states[0].disk, world), states[k])
  {
    forall k | 0 <= k < |states| ensures Sequential(t, BaseOf(t, states[0].disk, world), states[k]) {
      HistoryIsGood(t, states, world, k);
      GoodIsSequential(t, BaseOf(t, states[0].disk, world), states[k]);
    }
  }

  lemma GoodIsSequential(t: Tools, b: Base, s: State)
    requires Good(t, b, s)
    ensures Sequential(t, b, s)
  {
    forall i | i in s.threads && s.threads[i].Returned?
      ensures Answered(b.view, s.log, s.threads[i].op, s.threads[i].entry, s.threads[i].answer)
    {
      assert Knows(t, b, s, i);
    }
  }

  // -------------------------------------------------------- real-time order

  /** What no step takes back. */
  ghost predicate Grows(s: State, s': State)
  {
    && s.log <= s'.log && s.tickets <= s'.tickets
    && (forall i | i in s.called :: i in s'.called && s'.called[i] == s.called[i])
    && (forall i | i in s'.called && i !in s.called :: s.tickets <= s'.called[i])
  }

  lemma StepGrows(t: Tools, s: State, s': State, i: nat)
    requires Locked(s) && Ticketed(s) && ThreadStep(t, s, s', i)
    ensures Grows(s, s')
  {
    StepDraws(t, s, s', i);
  }

  lemma ArrivalGrows(s: State, s': State, i: nat, op: Op)
    requires Ticketed(s) && Arrives(s, s', i, op)
    ensures Grows(s, s')
  {
  }

  lemma NextGrows(t: Tools, s: State, s': State)
    requires Locked(s) && Ticketed(s) && StateNext(t, s, s')
    ensures Grows(s, s')
  {
    if i :| ThreadStep(t, s, s', i) {
      StepGrows(t, s, s', i);
    } else {
      var i, op :| Arrives(s, s', i, op);
      ArrivalGrows(s, s', i, op);
    }
  }

  lemma ExecutionGrows(t: Tools, states: seq<State>, world: World, k: nat)
    requires t.Lossless() && Execution(t, states, world) && 0 < k < |states|
    ensures Grows(states[k - 1], states[k])
  {
    HistoryTicketed(t, states, world, k - 1);
    ExecutionStep(t, states, world, k);
    NextGrows(t, states[k - 1], states[k]);
  }

  ghost predicate Growing(states: seq<State>)
  {
    forall k | 0 < k < |states| :: Grows(states[k - 1], states[k])
  }

  lemma {:induction false} GrowsAlong(states: seq<State>, j: nat, k: nat)
    requires Growing(states) && j <= k < |states|
    ensures Grows(states[j], states[k])
  {
    if j < k {
      GrowsAlong(states, j, k - 1);
      GrowsOn(states[j], states[k - 1], states[k]);
    }
  }

  lemma HistoryGrows(t: Tools, states: seq<State>, world: World, j: nat, k: nat)
    requires t.Lossless() && Execution(t, states, world) && j <= k < |states|
    ensures Grows(states[j], states[k])
  {
    forall n | 0 < n < |states| ensures Grows(states[n - 1], states[n]) {
      ExecutionGrows(t, states, world, n);
    }
    GrowsAlong(states, j, k);
  }

  lemma GrowsOn(a: State, b: State, c: State)
    requires Grows(a, b) && Grows(b, c)
    ensures Grows(a, c)
  {
  }

  /** An operation that had returned before another was called comes before it
      in the sequential run. */
  lemma ReturnedBeforeCalled(t: Tools, states: seq<State>, world: World, j: nat, k: nat, a: nat, b: nat)
    requires t.Lossless() && Execution(t, states, world) && j <= k < |states|
    requires a in states[j].threads && states[j].threads[a].Returned? && states[j].threads[a].entry.Some?
    requires b !in states[j].called && b in states[k].threads && EntryOf(states[k].threads[b]).Some?
    ensures states[j].threads[a].entry.value < EntryOf(states[k].threads[b]).value
  {
    HistoryTicketed(t, states, world, j);
    HistoryTicketed(t, states, world, k);
    HistoryGrows(t, states, world, j, k);
    EntriesInOrder(states[j], states[k], a, b);
  }

  lemma HistoryTicketed(t: Tools, states: seq<State>, world: World, k: nat)
    requires t.Lossless() && Execution(t, states, world) && k < |states|
    ensures Locked(states[k]) && Ticketed(states[k])
  {
    HistoryIsGood(t, states, world, k);
  }

  lemma EntriesInOrder(s: State, s': State, a: nat, b: nat)
    requires Ticketed(s) && Ticketed(s') && Grows(s, s')
    requires a in s.threads && EntryOf(s.threads[a]).Some?
    requires b !in s.called && b in s'.threads && EntryOf(s'.threads[b]).Some?
    ensures EntryOf(s.threads[a]).value < EntryOf(s'.threads[b]).value
  {
    assert TicketOf(s, a) && TicketOf(s', b);
    var x, y := EntryOf(s.threads[a]).value, EntryOf(s'.threads[b]).value;
    assert s'.log[x] == s.log[x];
    assert s'.log[x].ticket < s.tickets <= s'.called[b] <= s'.log[y].ticket;
  }
}
