/** What a restart makes of a disk, and where a crash can leave it. */
module Recovery {
  import opened Basics
  import opened Disks
  import opened Plans

  /** The disk the restart scan leaves: no temporary files, no tombstones, no
      orphans; tombstones of live rows restored. */
  function Recover(d: Disk): Disk
  {
    Disk(d.links, d.sources,
         map s | s in d.sources && Stored(d, s).Some? :: Stored(d, s).value,
         map[], map[])
  }

  /** What a scan that meets no trouble has done: no temporary file and no
      tombstone is left; a payload is left exactly where there is a row, and
      holds the tombstone's bytes if there was one. */
  ghost predicate Restores(d: Disk, e: Disk)
  {
    && e.links == d.links && e.sources == d.sources && e.temps == map[] && e.tombs == map[]
    && forall s {:trigger s in e.payloads} ::
         && (s in e.payloads <==> s in d.sources && (s in d.payloads || s in d.tombs))
         && (s in e.payloads ==> e.payloads[s] == if s in d.tombs then d.tombs[s] else d.payloads[s])
  }

  lemma RecoverRestores(d: Disk)
    ensures Restores(d, Recover(d))
  {
  }

  /** A crash shows through a restart only as the stage it stopped at. */
  lemma RecoverStage(stage: Disk, d: Disk)
    requires Clean(stage) && Offstage(stage, d)
    ensures Recover(d) == stage.(temps := map[])
  {
    forall s | s in stage.sources ensures Stored(d, s) == Some(stage.payloads[s]) {
      assert Stored(stage, s) == Some(stage.payloads[s]);
    }
    assert Recover(d).payloads == stage.payloads;
  }

  lemma RecoverTwice(d: Disk)
    ensures Recover(Recover(d)) == Recover(d)
  {
    var e := Recover(d);
    forall s | s in e.sources ensures Stored(e, s) == Stored(d, s) {}
    assert Recover(e).payloads == e.payloads;
  }

  // ------------------------------------------------ one file at a time

  /** What the scan finds in a leaf directory. */
  datatype Leaf = TempLeaf(t: Temp) | TombLeaf(s: Id) | PayloadLeaf(s: Id)

  predicate Present(d: Disk, f: Leaf)
  {
    match f
    case TempLeaf(t) => t in d.temps
    case TombLeaf(s) => s in d.tombs
    case PayloadLeaf(s) => s in d.payloads
  }

  /** Files the scan must not leave behind. */
  predicate Stray(d: Disk, f: Leaf)
  {
    Present(d, f) && (f.PayloadLeaf? ==> f.s !in d.sources)
  }

  function Leaves(d: Disk): (fs: set<Leaf>)
    ensures forall f :: f in fs <==> Present(d, f)
  {
    (set t | t in d.temps :: TempLeaf(t)) + (set s | s in d.tombs :: TombLeaf(s))
        + (set s | s in d.payloads :: PayloadLeaf(s))
  }

  ghost predicate StrayAmong(d: Disk, todo: set<Leaf>)
  {
    forall f | Stray(d, f) :: f in todo
  }

  /** Visiting leaf `f` disposes of it and leaves no new stray. */
  ghost predicate Cleared(d: Disk, e: Disk, f: Leaf)
  {
    !Stray(e, f) && forall g | Stray(e, g) :: Stray(d, g)
  }

  ghost function TombsAmong(fs: set<Leaf>): set<Leaf>
  {
    set f | f in fs && f.TombLeaf?
  }

  lemma TombsLess(fs: set<Leaf>, f: Leaf)
    requires f in fs
    ensures TombsAmong(fs - {f}) == TombsAmong(fs) - {f}
    ensures f.TombLeaf? ==> f in TombsAmong(fs)
    ensures !f.TombLeaf? ==> TombsAmong(fs - {f}) == TombsAmong(fs)
  {
  }

  lemma TombsMore(fs: set<Leaf>, f: Leaf)
    requires !f.TombLeaf?
    ensures TombsAmong(fs + {f}) == TombsAmong(fs)
  {
  }

  lemma NothingStray(d: Disk)
    requires StrayAmong(d, {})
    ensures d == Recover(d)
  {
    forall t ensures t !in d.temps { assert !Stray(d, TempLeaf(t)); }
    forall s ensures s !in d.tombs { assert !Stray(d, TombLeaf(s)); }
    forall s | s in d.payloads ensures s in d.sources { assert !Stray(d, PayloadLeaf(s)); }
    assert d.temps == map[] && d.tombs == map[];
    assert Recover(d).payloads == d.payloads;
  }

  /** A scan that leaves nothing stray has reached the recovered disk. */
  lemma ScanEnds(d: Disk, now: Disk)
    requires Recover(now) == Recover(d) && StrayAmong(now, {})
    ensures now == Recover(d) && Restores(d, now)
  {
    NothingStray(now);
    RecoverRestores(d);
  }

  lemma RecoverOffstage(d: Disk, e: Disk)
    requires Offstage(d, e)
    ensures Recover(d) == Recover(e)
  {
    assert Recover(d).payloads == Recover(e).payloads;
  }

  // ----------------------------------------------------- where a crash stops

  /** `now` is one of the stages, up to files that nobody can see. */
  ghost predicate Stopped(stages: seq<Disk>, now: Disk)
  {
    exists k | 0 <= k < |stages| :: Offstage(stages[k], now)
  }

  /** Stopped in the deletion of `rows[done]`, or before anything was done. */
  ghost predicate StoppedDeleting(t: Tools, d: Disk, rows: seq<Id>, done: nat, now: Disk)
  {
    if done < |rows| then
      var e, l := DeleteAll(d, rows[..done]), rows[done];
      && DeletableInTurn(t, d, rows[..done])
      && l in e.links && e.links[l].source in e.sources && Stopped(DeletePassed(e, l), now)
    else
      rows == [] && Offstage(d, now)
  }
}
