/** The store manager: put, get, delete and the restart scan, as sequences of
    fallible database and file steps with their compensations. */
module Storage {
  import opened Basics
  import opened Disks
  import opened Plans
  import opened Recovery
  import Codec

  /** What may befall the steps to come. In a storm any step may fail once with
      no effect, struck or refused, and the sky clears; or the process may die
      there, and no later step has any effect. */
  datatype Weather = Stormy | Calm | Down

  datatype GetResult = Found(data: Bytes) | NotFound | Corrupt | IoError | NoFileName

  /** What a read takes away from under the lock. */
  datatype Fetch = Fetched(row: Source, raw: Bytes) | Missing | Failed

  /** The pattern with per cent signs exactly where it has stars. */
  predicate Translates(pattern: string, p: string)
  {
    && |p| == |pattern|
    && (forall i | 0 <= i < |p| && pattern[i] == '*' :: p[i] == '%')
    && (forall i | 0 <= i < |p| && pattern[i] != '*' :: p[i] == pattern[i])
  }

  lemma OneTranslation(pattern: string, p: string)
    requires Translates(pattern, p)
    ensures p == Percented(pattern)
  {
  }

  predicate Matches(t: Tools, pattern: string, useRegex: bool, name: Name)
  {
    if (pattern == "" || pattern == "*") && useRegex then true
    else if '*' in pattern && useRegex then t.like(Percented(pattern), name)
    else name.text == pattern
  }

  function Percented(pattern: string): string
  {
    seq(|pattern|, i requires 0 <= i < |pattern| => if pattern[i] == '*' then '%' else pattern[i])
  }

  lemma NothingReckoned(t: Tools, d: Disk)
    requires Layout(t, d)
    ensures forall s :: Reckoned(d, d, s)
  {
    forall s ensures Reckoned(d, d, s) { DeleteAllReckoned(t, d, [], s); }
  }

  lemma DeletedRows(t: Tools, d: Disk, rows: seq<Id>, done: nat)
    requires Layout(t, d) && done <= |rows| && DeletableInTurn(t, d, rows[..done])
    ensures var e := DeleteAll(d, rows[..done]);
            && (forall l | l in e.links :: l in d.links && e.links[l] == d.links[l])
            && (done == |rows| ==> forall l :: l in e.links <==> l in d.links && l !in rows)
            && forall s :: Reckoned(d, e, s)
  {
    var e := DeleteAll(d, rows[..done]);
    DeleteAllLinks(d, rows[..done]);
    DeleteAllLeaves(t, d, rows[..done]);
    if done == |rows| { assert rows[..done] == rows; }
    forall s ensures Reckoned(d, e, s) { DeleteAllReckoned(t, d, rows[..done], s); }
  }

  class StoreManager {
    const tools: Tools
    const gzip: Codec.Gzip
    var links: map<Id, Link>
    var sources: map<Id, Source>
    var payloads: map<Id, Bytes>
    var tombs: map<Id, Bytes>
    var temps: map<Temp, Bytes>
    var weather: Weather

    ghost function Now(): Disk
      reads this
    {
      Disk(links, sources, payloads, tombs, temps)
    }

    constructor (tools: Tools, gzip: Codec.Gzip, disk: Disk)
      ensures this.tools == tools && this.gzip == gzip && Now() == disk && weather == Calm
    {
      this.tools, this.gzip := tools, gzip;
      links, sources, payloads, tombs, temps := disk.links, disk.sources, disk.payloads, disk.tombs, disk.temps;
      weather := Calm;
    }

    // ------------------------------------------------------ single steps

    /** A step either runs or, in a storm, is the one that is struck. */
    twostate predicate Weathered(ok: bool)
      reads this
    {
      match old(weather)
      case Calm => ok && weather == Calm
      case Down => !ok && weather == Down
      case Stormy => ok <==> weather == Stormy
    }

    /** The same for something that runs only if it is not refused. */
    twostate predicate Turned(ok: bool, refused: bool)
      reads this
    {
      if refused then !ok && weather != Stormy && (old(weather) != Stormy ==> weather == old(weather))
          else Weathered(ok)
    }

    /** A step of the database or the directory that `next` says how to answer;
        it leaves no trace when it is struck or refused. */
    twostate predicate Stepped(ok: bool, next: Option<Disk>)
      reads this
    {
      && Turned(ok, next.None?)
      && Now() == if ok && next.Some? then next.value else old(Now())
    }

    method Strike() returns (go: bool)
      modifies this`weather
      ensures Weathered(go)
    {
      match weather {
        case Calm => go := true;
        case Down => go := false;
        case Stormy =>
          if * {
            go := true;
          } else {
            go := false;
            if * { weather := Calm; } else { weather := Down; }
          }
      }
    }

    /** The database or the directory refuses a step. */
    method Refuse() returns (ok: bool)
      requires weather != Down
      modifies this`weather
      ensures !ok && weather == Calm
    {
      ok, weather := false, Calm;
    }

    method InsertLinkWithId(id: Id, link: Link) returns (ok: bool)
      modifies this
      ensures Stepped(ok, InsertLink(old(Now()), id, link))
      ensures ok ==> id !in old(links) && link.source in old(sources) && links == old(links)[id := link]
      ensures old(weather) == Calm && id !in old(links) && link.source in old(sources) ==> ok
    {
      ok := Strike();
      if ok {
        if id in links || link.source !in sources { ok := Refuse(); } else { links := links[id := link]; }
      }
    }

    method DeleteLinkById(id: Id) returns (ok: bool)
      modifies this
      ensures Stepped(ok, Some(DeleteLink(old(Now()), id)))
      ensures ok ==> links == old(links) - {id}
    {
      ok := Strike();
      if ok { links := links - {id}; }
    }

    method UpdateLinkSourceId(id: Id, s: Id) returns (ok: bool)
      modifies this
      ensures Stepped(ok, UpdateLinkSource(old(Now()), id, s))
      ensures ok && id in old(links) ==> s in old(sources) && links == old(links)[id := old(links)[id].(source := s)]
      ensures ok && id !in old(links) ==> links == old(links)
      ensures old(weather) == Calm && (id in old(links) ==> s in old(sources)) ==> ok
    {
      ok := Strike();
      if ok && id in links {
        if s !in sources { ok := Refuse(); } else { links := links[id := links[id].(source := s)]; }
      }
    }

    method InsertSourceRow(s: Id, row: Source) returns (ok: bool)
      modifies this
      ensures Stepped(ok, InsertSource(old(Now()), s, row))
      ensures ok ==> s !in old(sources) && sources == old(sources)[s := row]
      ensures old(weather) == Calm && s !in old(sources) ==> ok
    {
      ok := Strike();
      if ok {
        if s in sources { ok := Refuse(); } else { sources := sources[s := row]; }
      }
    }

    method UpdateSourceRow(s: Id, row: Source) returns (ok: bool)
      modifies this
      ensures Stepped(ok, Some(UpdateSource(old(Now()), s, row)))
      ensures ok ==> sources == if s in old(sources) then old(sources)[s := row] else old(sources)
    {
      ok := Strike();
      if ok && s in sources { sources := sources[s := row]; }
    }

    method DeleteSourceById(s: Id) returns (ok: bool)
      modifies this
      ensures Stepped(ok, DeleteSource(old(Now()), s))
      ensures ok ==> sources == old(sources) - {s}
      ensures ok && s in old(sources) ==> forall l | l in links :: links[l].source != s
      ensures old(weather) == Calm && (forall l | l in links :: links[l].source != s) ==> ok
    {
      ok := Strike();
      if ok {
        var referenced := exists l | l in links :: links[l].source == s;
        if s in sources && referenced { ok := Refuse(); } else { sources := sources - {s}; }
      }
    }

    method RenameToTombstone(s: Id) returns (ok: bool)
      modifies this
      ensures Stepped(ok, Bury(old(Now()), s))
    {
      ok := Strike();
      if ok {
        if s !in payloads { ok := Refuse(); } else { tombs, payloads := tombs[s := payloads[s]], payloads - {s}; }
      }
    }

    method RenameFromTombstone(s: Id) returns (ok: bool)
      modifies this
      ensures Stepped(ok, Exhume(old(Now()), s))
    {
      ok := Strike();
      if ok {
        if s !in tombs { ok := Refuse(); } else { payloads, tombs := payloads[s := tombs[s]], tombs - {s}; }
      }
    }

    method RemoveTombstone(s: Id) returns (ok: bool)
      modifies this
      ensures Stepped(ok, RemoveTomb(old(Now()), s))
    {
      ok := Strike();
      if ok {
        if s !in tombs { ok := Refuse(); } else { tombs := tombs - {s}; }
      }
    }

    /** Removes a payload; a payload that is not there is no error. */
    method RemoveSourceFileIfExists(s: Id) returns (ok: bool)
      modifies this
      ensures Stepped(ok, Some(RemovePayload(old(Now()), s)))
      ensures ok ==> payloads == old(payloads) - {s}
    {
      ok := Strike();
      if ok { payloads := payloads - {s}; }
    }

    /** Writes a temporary file and renames it over the payload: whatever
        strikes, the payload holds its old bytes or all of the new ones. */
    method PersistSourceBytes(s: Id, tag: Id, raw: Bytes) returns (ok: bool)
      modifies this
      ensures Weathered(ok)
      ensures SameButTemps(if ok then old(Now()).(payloads := old(payloads)[s := raw]) else old(Now()), Now())
    {
      ok := Strike();  // create the directory
      if !ok { return; }
      var t := Temp(s, tag);
      ok := Strike();  // create the file
      if !ok { return; }
      temps := temps[t := []];
      ok := Strike();  // write: what is struck leaves a prefix behind
      if !ok {
        var n: nat :| n <= |raw|;
        temps := temps[t := raw[..n]];
        return;
      }
      temps := temps[t := raw];
      ok := Strike();  // sync
      if !ok { return; }
      ok := Strike();  // rename
      if !ok {
        var removed := Strike();
        if removed { temps := temps - {t}; }
        return;
      }
      payloads, temps := payloads[s := temps[t]], temps - {t};
    }

    // ------------------------------------------------------------ queries

    method GetLinkByName(name: Name) returns (ok: bool, found: Option<Id>)
      modifies this
      ensures Stepped(ok, Some(old(Now())))
      ensures ok ==> (found.None? <==> name !in Names(links))
      ensures ok && found.Some? ==> found.value in links && links[found.value].name == name
    {
      found := None;
      ok := Strike();
      if ok && exists l | l in links :: links[l].name == name {
        var l :| l in links && links[l].name == name;
        found := Some(l);
      }
    }

    method GetSourceById(s: Id) returns (ok: bool, found: Option<Source>)
      modifies this
      ensures Stepped(ok, Some(old(Now())))
      ensures ok ==> found == if s in sources then Some(sources[s]) else None
    {
      found := None;
      ok := Strike();
      if ok && s in sources { found := Some(sources[s]); }
    }

    method GetSourceByHash(hash: Digest) returns (ok: bool, found: Option<Id>)
      modifies this
      ensures Stepped(ok, Some(old(Now())))
      ensures ok && found.None? ==> forall r | r in sources :: sources[r].hash != hash
      ensures ok && found.Some? ==> found.value in sources && sources[found.value].hash == hash
    {
      found := None;
      ok := Strike();
      if ok && exists r | r in sources :: sources[r].hash == hash {
        var r :| r in sources && sources[r].hash == hash;
        found := Some(r);
      }
    }

    method ReadPayload(s: Id) returns (ok: bool, raw: Bytes)
      modifies this
      ensures Stepped(ok, if s in old(payloads) then Some(old(Now())) else None)
      ensures ok ==> s in payloads && raw == payloads[s]
    {
      raw := [];
      ok := Strike();
      if ok {
        if s in payloads { raw := payloads[s]; } else { ok := Refuse(); }
      }
    }

    // ------------------------------------------------- dropping a reference

    /** The last reference to a row that still has a link is one that the
        database does not let go. */
    method ReleaseSource(s: Id, source: Source, count: nat) returns (ok: bool)
      requires weather != Down && Clean(Now()) && s in sources && sources[s] == source && source.count == count + 1
      modifies this
      ensures Turned(ok, count == 0 && Referenced(old(Now()), s))
      ensures ok ==> Now() == Released(old(Now()), s)
      ensures !ok && weather != Down ==> Now() == old(Now())
      ensures weather == Down ==>
                || Offstage(old(Now()), Now())
                || (!(count == 0 && Referenced(old(Now()), s)) && Offstage(Released(old(Now()), s), Now()))
    {
      if count > 0 {
        ok := UpdateSourceRow(s, source.(count := count));
      } else {
        ok := DropSource(s, source);
      }
    }

    /** Tombstone, row, file: in this order, and undone in the other. */
    method DropSource(s: Id, source: Source) returns (ok: bool)
      requires weather != Down && Clean(Now()) && s in sources && sources[s] == source && source.count == 1
      modifies this
      ensures Turned(ok, Referenced(old(Now()), s))
      ensures ok ==> Now() == Released(old(Now()), s)
      ensures !ok && weather != Down ==> Now() == old(Now())
      ensures weather == Down ==>
                || Offstage(old(Now()), Now())
                || (!Referenced(old(Now()), s) && Offstage(Released(old(Now()), s), Now()))
    {
      ok := RenameToTombstone(s);
      if !ok { return; }
      assert Referenced(Now(), s) == Referenced(old(Now()), s);
      ok := DeleteSourceById(s);
      if !ok {
        var _ := RenameFromTombstone(s);
        return;
      }
      ok := DropTombstone(old(Now()), s, source);
    }

    /** The last part of a drop: the row of `d` is gone, the file is to go. */
    method DropTombstone(ghost d: Disk, s: Id, source: Source) returns (ok: bool)
      requires weather != Down && Clean(d) && s in d.sources && d.sources[s] == source && source.count == 1
      requires Now() == d.(sources := d.sources - {s}, payloads := d.payloads - {s}, tombs := map[s := d.payloads[s]])
      modifies this
      ensures Weathered(ok)
      ensures ok ==> Now() == Released(d, s)
      ensures !ok && weather != Down ==> Now() == d
      ensures weather == Down ==> Offstage(Released(d, s), Now())
    {
      ok := RemoveTombstone(s);
      if !ok {
        assert d.payloads == (d.payloads - {s})[s := d.payloads[s]] && d.sources == (d.sources - {s})[s := source];
        var _ := RenameFromTombstone(s);
        var _ := InsertSourceRow(s, source);
      }
    }

    // ------------------------------------------------ the branches of a put

    /** The outcome of a branch: done, undone, or stopped at one of its stages;
        a refused one is never done. */
    twostate predicate Performed(ok: bool, stages: seq<Disk>, refused: bool)
      requires |stages| > 0
      reads this
    {
      && Turned(ok, refused)
      && (ok ==> SameButTemps(stages[|stages| - 1], Now()))
      && (!ok && weather != Down ==> SameButTemps(stages[0], Now()))
      && (weather == Down ==> Stopped(stages, Now()))
    }

    /** Payload first, then the row that owns it. */
    method StoreNewSource(s: Id, tag: Id, row: Source, raw: Bytes) returns (ok: bool)
      requires weather != Down && Clean(Now()) && s !in sources
      modifies this
      ensures Weathered(ok)
      ensures ok ==> SameButTemps(WithSource(old(Now()), s, row, raw), Now())
      ensures !ok && weather != Down ==> SameButTemps(old(Now()), Now())
      ensures weather == Down ==> Offstage(old(Now()), Now())
    {
      ok := PersistSourceBytes(s, tag, raw);
      if !ok { return; }
      ok := InsertSourceRow(s, row);
      if !ok {
        var _ := RemoveSourceFileIfExists(s);
      }
    }

    /** Takes a new source back. */
    method DropNewSource(s: Id)
      requires weather != Stormy && (weather == Calm ==> s in sources && !Referenced(Now(), s))
      modifies this
      ensures weather == old(weather)
      ensures weather == Calm ==> Now() == old(Now()).(sources := old(sources) - {s}, payloads := old(payloads) - {s})
      ensures weather != Calm ==> Now() == old(Now())
    {
      var _ := DeleteSourceById(s);
      var _ := RemoveSourceFileIfExists(s);
    }

    /** Cover of a shared source, and replace without cover. */
    method MoveToNewSource(l: Id, source: Source, s: Id, tag: Id, row: Source, raw: Bytes) returns (ok: bool)
      requires weather != Down && Movable(Now(), l, s) && source == sources[links[l].source]
      modifies this
      ensures Performed(ok, MovePassed(old(Now()), l, s, row, raw), Pinned(old(Now()), l))
    {
      ghost var d := Now();
      ghost var stages := MovePassed(d, l, s, row, raw);
      var o := links[l].source;
      ok := StoreNewSource(s, tag, row, raw);
      if !ok {
        assert weather == Down ==> Offstage(stages[0], Now());
        return;
      }
      MoveUndone(d, l, s, row, raw);
      ok := UpdateLinkSourceId(l, s);
      if !ok {
        DropNewSource(s);
        assert weather == Down ==> Offstage(stages[1], Now());
        return;
      }
      ok := ReleaseMoved(d, l, source, o, s, row, raw);
    }

    /** The last part of a move: the old source loses a reference. */
    method ReleaseMoved(ghost d: Disk, l: Id, source: Source, o: Id, s: Id, row: Source, raw: Bytes) returns (ok: bool)
      requires weather != Down && Movable(d, l, s) && o == d.links[l].source && source == d.sources[o]
      requires SameButTemps(MoveChain(d, l, s, row, raw)[2], Now())
      modifies this
      ensures Performed(ok, MovePassed(d, l, s, row, raw), Pinned(d, l))
    {
      ghost var stages := MovePassed(d, l, s, row, raw);
      assert Referenced(Now(), o) <==> Shared(d.links, l) by {
        MovedReferences(d, l, s, row, raw);
        SameReferences(MoveChain(d, l, s, row, raw)[2], Now(), o);
      }
      ok := ReleaseSource(o, source, source.count - 1);
      if !ok {
        if weather == Down {
          assert Offstage(stages[2], Now()) || (|stages| == 4 && Offstage(stages[3], Now()));
        }
        UndoMove(d, l, o, s, row, raw);
      }
    }

    /** The link goes back to its source and the new source is dropped. */
    method UndoMove(ghost d: Disk, l: Id, o: Id, s: Id, ghost row: Source, ghost raw: Bytes)
      requires weather != Stormy && Movable(d, l, s) && o == d.links[l].source
      requires weather == Calm ==> SameButTemps(MoveChain(d, l, s, row, raw)[2], Now())
      modifies this
      ensures weather == old(weather)
      ensures if weather == Calm then SameButTemps(d, Now()) else Now() == old(Now())
    {
      MoveUndone(d, l, s, row, raw);
      var _ := UpdateLinkSourceId(l, o);
      DropNewSource(s);
    }

    /** Cover of a source of its own: the new bytes go over the old ones. */
    method OverwriteSource(o: Id, source: Source, tag: Id, tag2: Id, row: Source, raw: Bytes) returns (ok: bool)
      requires weather != Down && Clean(Now()) && o in sources && source == sources[o]
      modifies this
      ensures Performed(ok, OverwriteChain(old(Now()), o, row.(count := source.count), raw), false)
    {
      ghost var d := Now();
      ghost var stages := OverwriteChain(d, o, row.(count := source.count), raw);
      var previous;
      ok, previous := ReadPayload(o);
      if !ok {
        assert weather == Down ==> Offstage(stages[0], Now());
        return;
      }
      ok := PersistSourceBytes(o, tag, raw);
      if !ok {
        assert weather == Down ==> Offstage(stages[0], Now());
        return;
      }
      ok := RewriteRow(d, o, row.(count := source.count), raw, previous, tag2);
    }

    /** The last part of a cover in place: the row, or the previous bytes again. */
    method RewriteRow(ghost d: Disk, o: Id, row: Source, ghost raw: Bytes, previous: Bytes, tag: Id) returns (ok: bool)
      requires weather != Down && Clean(d) && o in d.sources && previous == d.payloads[o]
      requires SameButTemps(OverwriteChain(d, o, row, raw)[1], Now())
      modifies this
      ensures Performed(ok, OverwriteChain(d, o, row, raw), false)
    {
      ghost var stages := OverwriteChain(d, o, row, raw);
      ok := UpdateSourceRow(o, row);
      if !ok {
        assert weather == Down ==> Offstage(stages[1], Now());
        assert payloads[o := previous] == d.payloads;
        var _ := PersistSourceBytes(o, tag, previous);
      }
    }

    /** A name for a source that already holds these bytes. */
    method ShareSource(l: Id, link: Link, source: Source) returns (ok: bool)
      requires weather != Down && l !in links && link.source in sources && source == sources[link.source]
      modifies this
      ensures Performed(ok, ShareChain(old(Now()), l, link), false)
    {
      ghost var d := Now();
      ghost var stages := ShareChain(d, l, link);
      ok := InsertLinkWithId(l, link);
      if !ok {
        assert weather == Down ==> Offstage(stages[0], Now());
        return;
      }
      assert links - {l} == d.links;
      ok := UpdateSourceRow(link.source, source.(count := source.count + 1));
      if !ok {
        assert weather == Down ==> Offstage(stages[1], Now());
        var _ := DeleteLinkById(l);
      }
    }

    method StoreFresh(l: Id, link: Link, tag: Id, row: Source, raw: Bytes) returns (ok: bool)
      requires weather != Down && Clean(Now()) && l !in links && link.source !in sources
                && !Referenced(Now(), link.source)
      modifies this
      ensures Performed(ok, FreshChain(old(Now()), l, link, row, raw), false)
    {
      ghost var d := Now();
      ghost var stages := FreshChain(d, l, link, row, raw);
      var s := link.source;
      ok := StoreNewSource(s, tag, row, raw);
      if !ok {
        assert weather == Down ==> Offstage(stages[0], Now());
        return;
      }
      assert sources - {s} == d.sources && payloads - {s} == d.payloads;
      ok := InsertLinkWithId(l, link);
      if !ok {
        assert weather == Down ==> Offstage(stages[1], Now());
        DropNewSource(s);
      }
    }

    // ---------------------------------------------------------------- put

    /** Either no branch was entered and nothing changed, or the branch in
        `plan` ran to its end, was undone, or was stopped at a stage; a move
        that the database refuses is undone or stopped. */
    twostate predicate LockedOutcome(
      ok: bool, name: Name, cover: bool, row: Source, raw: Bytes, new plan: Option<Plan>)
      reads this
    {
      match plan
      case None => !ok && Now() == old(Now()) && old(weather) != Calm
      case Some(p) =>
        && FitsRow(old(Now()), name, cover, row, p)
        && Performed(ok, PassedOf(tools, old(Now()), name, row, raw, p), Refuses(old(Now()), p))
    }

    /** An empty name is refused; else the outcome is that of the encoded data. */
    twostate predicate PutOutcome(ok: bool, q: Request, new plan: Option<Plan>)
      reads this
    {
      if q.name.text == "" then !ok && plan == None && Now() == old(Now()) && weather == old(weather)
      else LockedOutcome(ok, q.name, q.cover, RowFor(tools, q), RawFor(tools, q), plan)
    }

    /** The part before the lock: hashing and encoding. */
    method Seal(q: Request) returns (row: Source, raw: Bytes)
      requires tools.Blocks(gzip)
      ensures row == RowFor(tools, q) && raw == RawFor(tools, q)
    {
      row := Source(tools.hash(q.data), q.compressed, |q.data|, 1);
      raw := q.data;
      if q.compressed {
        var encoded := Codec.CompressAll(gzip, q.data);
        raw := encoded.value;
      }
    }

    /** `l` and `s` are the identifiers drawn for a new link and a new source. */
    method Put(q: Request, l: Id, s: Id, tag: Id, tag2: Id) returns (ok: bool, ghost plan: Option<Plan>)
      requires weather != Down && Layout(tools, Now()) && tools.Blocks(gzip)
      requires l !in links && s !in sources
      modifies this
      ensures PutOutcome(ok, q, plan)
      ensures ok ==> PutEffect(tools, old(Now()), Now(), q)
    {
      ghost var d := Now();
      plan := None;
      if q.name.text == "" {
        return false, None;
      }
      var row, raw := Seal(q);
      ok, plan := PutLocked(q.name, q.cover, row, raw, l, s, tag, tag2);
      if ok { PutTakesEffect(tools, d, Now(), q, plan.value); }
    }

    method PutLocked(name: Name, cover: bool, row: Source, raw: Bytes, l: Id, s: Id, tag: Id, tag2: Id)
      returns (ok: bool, ghost plan: Option<Plan>)
      requires weather != Down && Layout(tools, Now())
      requires l !in links && s !in sources
      modifies this
      ensures LockedOutcome(ok, name, cover, row, raw, plan)
    {
      plan := None;
      var found;
      ok, found := GetLinkByName(name);
      if !ok { return; }
      if found.Some? {
        ok, plan := PutOver(name, cover, row, raw, found.value, s, tag, tag2);
      } else {
        ok, plan := PutNew(name, cover, row, raw, l, s, tag);
      }
    }

    /** The name has a link already. */
    method PutOver(name: Name, cover: bool, row: Source, raw: Bytes, link: Id, s: Id, tag: Id, tag2: Id)
      returns (ok: bool, ghost plan: Option<Plan>)
      requires weather != Down && Layout(tools, Now())
      requires link in links && links[link].name == name && s !in sources
      modifies this
      ensures LockedOutcome(ok, name, cover, row, raw, plan)
    {
      ghost var d := Now();
      plan := None;
      var o := links[link].source;
      var answer;
      ok, answer := GetSourceById(o);
      if !ok { return; }
      var source := answer.value;
      if cover && source.count <= 1 {
        plan := Some(Overwrite(link));
        ok := OverwriteSource(o, source, tag, tag2, row, raw);
      } else if !cover && row.hash == source.hash && source.compressed == row.compressed {
        plan := Some(Keep(link));
      } else {
        plan := Some(Move(link, s));
        LayoutIsMovable(tools, d, link, s);
        assert PassedOf(tools, d, name, row, raw, Move(link, s)) == MovePassed(d, link, s, row, raw);
        ok := MoveToNewSource(link, source, s, tag, row, raw);
      }
    }

    /** The name is new. */
    method PutNew(name: Name, ghost cover: bool, row: Source, raw: Bytes, l: Id, s: Id, tag: Id)
      returns (ok: bool, ghost plan: Option<Plan>)
      requires weather != Down && Layout(tools, Now())
      requires name !in Names(links) && l !in links && s !in sources
      modifies this
      ensures LockedOutcome(ok, name, cover, row, raw, plan)
    {
      ghost var d := Now();
      plan := None;
      var same;
      ok, same := GetSourceByHash(row.hash);
      if !ok { return; }
      var ext := tools.extension(name);
      if same.Some? {
        plan := Some(Share(l, same.value));
        ok := ShareSource(l, Link(name, ext, same.value, 420), sources[same.value]);
      } else {
        plan := Some(Fresh(l, s));
        FreshIsUnreferenced(tools, d, s);
        ok := StoreFresh(l, Link(name, ext, s, 420), tag, row, raw);
      }
    }

    // ------------------------------------------------------------- delete

    /** One link is removed, or restored, or stopped at a stage. That the count
        is not zero, which the program checks here, is part of `Listed`. */
    method DeleteOne(l: Id, link: Link) returns (ok: bool)
      requires weather != Down && Listed(tools, Now(), l) && links[l] == link
      modifies this
      ensures Turned(ok, Pinned(old(Now()), l))
      ensures ok ==> Now() == DeleteStages(old(Now()), l)[2]
      ensures !ok && weather != Down ==> Now() == old(Now())
      ensures weather == Down ==> Stopped(DeletePassed(old(Now()), l), Now())
    {
      ghost var d := Now();
      ghost var stages := DeletePassed(d, l);
      var answer;
      ok, answer := GetSourceById(link.source);
      if !ok {
        assert weather == Down ==> Offstage(stages[0], Now());
        return;
      }
      var source := answer.value;
      ok := DeleteLinkById(l);
      if !ok {
        assert weather == Down ==> Offstage(stages[0], Now());
        return;
      }
      DroppedReferences(d, l);
      ok := ReleaseSource(link.source, source, source.count - 1);
      if !ok {
        if weather == Down {
          assert Offstage(stages[1], Now()) || (|stages| == 3 && Offstage(stages[2], Now()));
        }
        assert d.links == (d.links - {l})[l := link];
        var _ := InsertLinkWithId(l, Link(link.name, tools.extension(link.name), link.source, link.mode));
      }
    }

    /** All links whose names match, each once, in any order. */
    method ListLocked(pattern: string, useRegex: bool) returns (ok: bool, rows: seq<Id>)
      modifies this
      ensures Stepped(ok, Some(old(Now())))
      ensures SomeLinks(links, rows)
      ensures ok ==> forall l | l in links :: l in rows <==> Matches(tools, pattern, useRegex, links[l].name)
      ensures ok && (!useRegex || (pattern != "" && '*' !in pattern)) ==>
                forall l | l in links :: l in rows <==> links[l].name == Name(pattern)
      ensures ok && useRegex && (pattern == "" || pattern == "*") ==> forall l | l in links :: l in rows
      ensures ok && useRegex && '*' in pattern && pattern != "*" ==>
                forall p, l | Translates(pattern, p) && l in links :: l in rows <==> tools.like(p, links[l].name)
    {
      forall p | Translates(pattern, p) ensures p == Percented(pattern) { OneTranslation(pattern, p); }
      rows := [];
      ok := Strike();
      if ok {
        var todo := set l | l in links && Matches(tools, pattern, useRegex, links[l].name);
        while todo != {}
          invariant SomeLinks(links, rows)
          invariant forall l | l in rows :: l !in todo
          invariant forall l | l in todo :: l in links
          invariant forall l | l in links ::
                      l in rows || l in todo <==> Matches(tools, pattern, useRegex, links[l].name)
          decreases todo
        {
          var l :| l in todo;
          todo, rows := todo - {l}, rows + [l];
        }
      }
    }

    /** Deletes the listed links in turn, up to the first that fails. */
    method DeleteRows(rows: seq<Id>) returns (ok: bool, ghost done: nat)
      requires weather != Down && Layout(tools, Now()) && SomeLinks(links, rows)
      modifies this
      ensures ok ==> weather == old(weather) && done == |rows|
      ensures !ok ==> done < |rows| && weather != Stormy
      ensures done <= |rows| && DeletableInTurn(tools, old(Now()), rows[..done])
      ensures weather != Down ==> Now() == DeleteAll(old(Now()), rows[..done])
      ensures weather == Down ==> StoppedDeleting(tools, old(Now()), rows, done, Now())
      ensures old(weather) == Calm ==> weather == Calm && (ok || Pinned(Now(), rows[done]))
    {
      ghost var d := Now();
      ok, done := true, 0;
      for i := 0 to |rows|
        invariant ok && done == i && weather == old(weather)
        invariant Now() == DeleteAll(d, rows[..i]) && DeletableInTurn(tools, d, rows[..i])
      {
        StillListed(tools, d, rows, i);
        ok := DeleteOne(rows[i], links[rows[i]]);
        if !ok { return; }
        OneMoreInTurn(tools, d, rows, i);
        DeleteOneMore(d, rows, i);
        done := i + 1;
      }
    }

    /** Deletes every matching link. Whatever strikes, what is gone is a first
        part of the listing, and at most the next link is half deleted. In calm
        weather it stops only at a link whose row the database does not let go. */
    method Delete(pattern: string, useRegex: bool) returns (ok: bool, ghost rows: seq<Id>, ghost done: nat)
      requires weather != Down && Layout(tools, Now())
      modifies this
      ensures pattern == "" ==> !ok && weather == old(weather)
      ensures ok ==> weather == old(weather) && done == |rows|
      ensures done <= |rows| && SomeLinks(old(links), rows) && DeletableInTurn(tools, old(Now()), rows[..done])
      ensures forall l | l in rows :: Matches(tools, pattern, useRegex, old(links)[l].name)
      ensures ok || done < |rows| ==>
                forall l | l in old(links) && Matches(tools, pattern, useRegex, old(links)[l].name) :: l in rows
      ensures ok ==> forall l | l in links :: l in old(links) && links[l] == old(links)[l]
      ensures ok && (!useRegex || '*' !in pattern) ==>
                forall l :: l in links <==> l in old(links) && old(links)[l].name != Name(pattern)
      ensures ok && useRegex && pattern == "*" ==> links == map[]
      ensures ok && useRegex && '*' in pattern && pattern != "*" ==>
                forall p, l | Translates(pattern, p) ::
                  l in links <==> l in old(links) && !tools.like(p, old(links)[l].name)
      ensures weather != Down ==> forall s :: Reckoned(old(Now()), Now(), s)
      ensures weather != Down ==> Now() == DeleteAll(old(Now()), rows[..done])
      ensures weather == Down ==> StoppedDeleting(tools, old(Now()), rows, done, Now())
      ensures old(weather) == Calm && pattern != "" ==>
                weather == Calm && (ok || (done < |rows| && Pinned(Now(), rows[done])))
    {
      ghost var d := Now();
      NothingReckoned(tools, d);
      rows, done := [], 0;
      if pattern == "" {
        return false, [], 0;
      }
      var listed;
      ok, listed := ListLocked(pattern, useRegex);
      if !ok { return; }
      rows := listed;
      ok, done := DeleteRows(listed);
      DeletedRows(tools, d, rows, done);
    }

    // ---------------------------------------------------------------- get

    /** The part of a read that holds the lock: the row and the raw bytes. */
    method GetLocked(name: Name) returns (r: Fetch)
      requires weather != Down && Linked(tools, links, sources) && Clean(Now())
      modifies this
      ensures Now() == old(Now())
      ensures old(weather) == Calm ==> weather == Calm && r != Failed
      ensures r.Fetched? ==> name in ViewOf(tools, Now()) && ViewOf(tools, Now())[name] == Decode(tools, r.row, r.raw)
      ensures r == Missing ==> name !in ViewOf(tools, Now())
    {
      var ok, found := GetLinkByName(name);
      if !ok { return Failed; }
      if found.None? { return Missing; }
      LinkShows(tools, Now(), found.value);
      var s := links[found.value].source;
      var answer;
      ok, answer := GetSourceById(s);
      if !ok { return Failed; }
      var raw;
      ok, raw := ReadPayload(s);
      if !ok { return Failed; }
      return Fetched(answer.value, raw);
    }

    /** The part after the lock: decoding and the integrity check. */
    method Unseal(row: Source, raw: Bytes) returns (plain: Option<Bytes>)
      requires tools.Blocks(gzip)
      ensures plain == Decode(tools, row, raw)
      ensures plain.Some? ==> tools.hash(plain.value) == row.hash
      ensures plain.Some? ==> if row.compressed then tools.unpack(raw) == plain else raw == plain.value
      ensures plain.None? ==>
                if row.compressed then tools.unpack(raw).Some? ==> tools.hash(tools.unpack(raw).value) != row.hash
                else tools.hash(raw) != row.hash
    {
      plain := Some(raw);
      if row.compressed {
        plain := Codec.DecompressAll(gzip, raw);
      }
      if plain.Some? && tools.hash(plain.value) != row.hash {
        plain := None;
      }
    }

    method Get(name: Name) returns (r: GetResult)
      requires weather != Down && Linked(tools, links, sources) && Clean(Now()) && tools.Blocks(gzip)
      modifies this
      ensures Now() == old(Now())
      ensures old(weather) == Calm ==> weather == Calm && r != IoError
      ensures r.Found? ==> name in ViewOf(tools, Now()) && ViewOf(tools, Now())[name] == Some(r.data)
      ensures r == Corrupt ==> name in ViewOf(tools, Now()) && ViewOf(tools, Now())[name] == None
      ensures r == NotFound ==> name !in ViewOf(tools, Now())
      ensures r == NoFileName <==> name.text == ""
    {
      if name.text == "" {
        return NoFileName;
      }
      var fetch := GetLocked(name);
      match fetch {
        case Failed => r := IoError;
        case Missing => r := NotFound;
        case Fetched(row, raw) =>
          var plain := Unseal(row, raw);
          r := if plain.Some? then Found(plain.value) else Corrupt;
      }
    }

    // ------------------------------------------------------------ restart

    /** The restart scan, over the leaves in any order; a payload that was just
        restored may or may not be visited again. The scan cannot be caught in a
        state that a later scan would see differently. */
    method ReconcileOrphans() returns (ok: bool)
      modifies this
      ensures links == old(links) && sources == old(sources)
      ensures Recover(Now()) == Recover(old(Now()))
      ensures old(weather) == Calm ==> ok && weather == Calm && Now() == Recover(old(Now()))
      ensures old(weather) == Calm ==> Restores(old(Now()), Now())
    {
      ghost var d := Now();
      ok := Strike();
      if !ok { return; }
      var known := sources.Keys;
      var todo := Leaves(Disk(links, sources, payloads, tombs, temps));
      while todo != {}
        invariant links == d.links && sources == d.sources && known == sources.Keys
        invariant Recover(Now()) == Recover(d)
        invariant old(weather) == Calm ==> weather == Calm && StrayAmong(Now(), todo)
        decreases TombsAmong(todo), todo
      {
        var f :| f in todo;
        TombsLess(todo, f);
        todo := todo - {f};
        ghost var e := Now();
        var restored := VisitLeaf(f, known);
        RecoverOffstage(e, Now());
        if restored {
          TombsMore(todo, PayloadLeaf(f.s));
          if * { todo := todo + {PayloadLeaf(f.s)}; }
        }
      }
      if old(weather) == Calm {
        ScanEnds(d, Now());
      }
    }

    method VisitLeaf(f: Leaf, known: set<Id>) returns (restored: bool)
      requires known == sources.Keys
      modifies this
      ensures Offstage(old(Now()), Now())
      ensures old(weather) == Calm ==> weather == Calm && Cleared(old(Now()), Now(), f)
      ensures restored ==> f.TombLeaf?
    {
      restored := false;
      var go := Strike();
      if !go { return; }
      match f {
        case TempLeaf(t) =>
          temps := temps - {t};
        case TombLeaf(s) =>
          if s !in known {
            tombs := tombs - {s};
          } else if s in tombs {
            payloads, tombs := payloads[s := tombs[s]], tombs - {s};
            restored := true;
          }
        case PayloadLeaf(s) =>
          if s !in known { payloads := payloads - {s}; }
      }
    }
  }
}
