/** The store's operations as chains of logical disks. Every put and every
    one-link delete passes through a few such stages; a stage is clean, and a
    crash is shown elsewhere to land on one of them. */
module Plans {
  import opened Basics
  import opened Disks

  datatype Request = Request(name: Name, data: Bytes, cover: bool, compressed: bool)

  function RowFor(t: Tools, q: Request): Source
  {
    Source(t.hash(q.data), q.compressed, |q.data|, 1)
  }

  function RawFor(t: Tools, q: Request): Bytes
  {
    if q.compressed then t.pack(q.data) else q.data
  }

  lemma FreshRowReadsBack(t: Tools, q: Request, count: nat)
    requires t.Lossless()
    ensures Decode(t, RowFor(t, q).(count := count), RawFor(t, q)) == Some(q.data)
  {
    if q.compressed { var packed := t.pack(q.data); assert t.unpack(packed) == Some(q.data); }
  }

  // ---------------------------------------------------------- the branches

  /** The branch a put takes: nothing to do; move the link to a new source
      (cover of a shared source, or replace without cover); overwrite the
      link's own source; share a source with the same hash; store afresh. */
  datatype Plan =
    | Keep(link: Id)
    | Move(link: Id, source: Id)
    | Overwrite(link: Id)
    | Share(link: Id, source: Id)
    | Fresh(link: Id, source: Id)

  /** The branch that a put of a row takes under a name. */
  ghost predicate FitsRow(d: Disk, name: Name, cover: bool, row: Source, plan: Plan)
  {
    match plan
    case Keep(l) =>
      && l in d.links && d.links[l].name == name && d.links[l].source in d.sources && !cover
      && d.sources[d.links[l].source].hash == row.hash
      && d.sources[d.links[l].source].compressed == row.compressed
    case Move(l, s) =>
      && l in d.links && d.links[l].name == name && d.links[l].source in d.sources
      && (cover ==> d.sources[d.links[l].source].count > 1)
      && (!cover && d.sources[d.links[l].source].hash == row.hash ==>
            d.sources[d.links[l].source].compressed != row.compressed)
      && s !in d.sources
    case Overwrite(l) =>
      && l in d.links && d.links[l].name == name && d.links[l].source in d.sources && cover
      && d.sources[d.links[l].source].count <= 1
    case Share(l, s) =>
      name !in Names(d.links) && l !in d.links && s in d.sources && d.sources[s].hash == row.hash
    case Fresh(l, s) =>
      && name !in Names(d.links) && l !in d.links && s !in d.sources
      && forall r | r in d.sources :: d.sources[r].hash != row.hash
  }

  ghost predicate Fits(t: Tools, d: Disk, q: Request, plan: Plan)
  {
    FitsRow(d, q.name, q.cover, RowFor(t, q), plan)
  }

  /** Another link names the source of link `l`. */
  ghost predicate Shared(links: map<Id, Link>, l: Id)
    requires l in links
  {
    exists m | m in links :: m != l && links[m].source == links[l].source
  }

  /** The source of link `l` counts one and yet has another link: the database
      refuses to delete its row. */
  ghost predicate Pinned(d: Disk, l: Id)
  {
    l in d.links && d.links[l].source in d.sources && d.sources[d.links[l].source].count <= 1 && Shared(d.links, l)
  }

  /** A move that ends in such a refusal. */
  ghost predicate Refuses(d: Disk, plan: Plan)
  {
    plan.Move? && Pinned(d, plan.link)
  }

  /** A cover in place of bytes that another name reads too. */
  ghost predicate Clobbers(d: Disk, plan: Plan)
  {
    plan.Overwrite? && Pinned(d, plan.link)
  }

  /** The names whose reading a put sets: its own, and with a cover in place
      every name that reads the same source. */
  ghost function Touched(links: map<Id, Link>, name: Name, plan: Plan): set<Name>
  {
    if plan.Overwrite? && plan.link in links then NamesOn(links, links[plan.link].source) else {name}
  }

  lemma NamesOnShared(links: map<Id, Link>, l: Id)
    requires OneLinkPerName(links) && l in links
    ensures links[l].name in NamesOn(links, links[l].source)
    ensures NamesOn(links, links[l].source) == {links[l].name} <==> !Shared(links, l)
  {
    var names := NamesOn(links, links[l].source);
    if Shared(links, l) {
      var m :| m in links && m != l && links[m].source == links[l].source;
      assert links[m].name in names && links[m].name != links[l].name;
    } else {
      forall n | n in names ensures n == links[l].name {
        var m :| m in links && links[m].source == links[l].source && links[m].name == n;
      }
    }
  }

  /** A put sets its own name, and no other exactly when it does not clobber. */
  lemma TouchedIffClobbers(t: Tools, d: Disk, q: Request, plan: Plan)
    requires Layout(t, d) && Fits(t, d, q, plan)
    ensures q.name in Touched(d.links, q.name, plan)
    ensures Touched(d.links, q.name, plan) == {q.name} <==> !Clobbers(d, plan)
  {
    if plan.Overwrite? { NamesOnShared(d.links, plan.link); }
  }

  /** A count that is not lost rules out both. */
  lemma NothingPinned(t: Tools, d: Disk, l: Id)
    requires Inv(t, d)
    ensures !Pinned(d, l)
  {
    if Pinned(d, l) {
      var m :| m in d.links && m != l && d.links[m].source == d.links[l].source;
      SoleLink(d.links, l, m);
    }
  }

  /** The stages at which a put can be found. */
  ghost function PassedOf(t: Tools, d: Disk, name: Name, row: Source, raw: Bytes, plan: Plan): (r: seq<Disk>)
    requires Applies(d, plan)
    ensures 0 < |r| <= |StagesOf(t, d, name, row, raw, plan)| && r == StagesOf(t, d, name, row, raw, plan)[..|r|]
    ensures r[0] == d
  {
    var stages := StagesOf(t, d, name, row, raw, plan);
    if Refuses(d, plan) then stages[..3] else stages
  }

  ghost function Passed(t: Tools, d: Disk, q: Request, plan: Plan): (r: seq<Disk>)
    requires Fits(t, d, q, plan)
    ensures 0 < |r| <= |Stages(t, d, q, plan)| && r == Stages(t, d, q, plan)[..|r|] && r[0] == d
  {
    PassedOf(t, d, q.name, RowFor(t, q), RawFor(t, q), plan)
  }

  /** The stages at which the deletion of a link can be found. */
  ghost function DeletePassed(d: Disk, l: Id): (r: seq<Disk>)
    requires l in d.links && d.links[l].source in d.sources
    ensures 0 < |r| <= 3 && r == DeleteStages(d, l)[..|r|] && r[0] == d
  {
    if Pinned(d, l) then DeleteStages(d, l)[..2] else DeleteStages(d, l)
  }

  /** Dropping one reference to a source. */
  function Released(d: Disk, s: Id): Disk
    requires s in d.sources
  {
    if d.sources[s].count > 1 then d.(sources := d.sources[s := d.sources[s].(count := d.sources[s].count - 1)])
    else d.(sources := d.sources - {s}, payloads := d.payloads - {s})
  }

  function WithSource(d: Disk, s: Id, row: Source, raw: Bytes): Disk
  {
    d.(sources := d.sources[s := row], payloads := d.payloads[s := raw])
  }

  function WithLink(d: Disk, l: Id, link: Link): Disk
  {
    d.(links := d.links[l := link])
  }

  function LinkFor(t: Tools, name: Name, s: Id): Link
  {
    Link(name, t.extension(name), s, 420)
  }

  function NewLink(t: Tools, q: Request, s: Id): Link
  {
    LinkFor(t, q.name, s)
  }

  function MoveChain(d: Disk, l: Id, s: Id, row: Source, raw: Bytes): (r: seq<Disk>)
    requires l in d.links && d.links[l].source in d.sources && s !in d.sources
    ensures |r| == 4 && r[0] == d
  {
    var stored := WithSource(d, s, row, raw);
    var moved := WithLink(stored, l, d.links[l].(source := s));
    [d, stored, moved, Released(moved, d.links[l].source)]
  }

  function OverwriteChain(d: Disk, o: Id, row: Source, raw: Bytes): (r: seq<Disk>)
    requires o in d.sources
    ensures |r| == 3 && r[0] == d
  {
    [d, WithSource(d, o, d.sources[o], raw), WithSource(d, o, row, raw)]
  }

  function ShareChain(d: Disk, l: Id, link: Link): (r: seq<Disk>)
    requires link.source in d.sources
    ensures |r| == 3 && r[0] == d
  {
    var s := link.source;
    var linked := WithLink(d, l, link);
    [d, linked, linked.(sources := d.sources[s := d.sources[s].(count := d.sources[s].count + 1)])]
  }

  function FreshChain(d: Disk, l: Id, link: Link, row: Source, raw: Bytes): (r: seq<Disk>)
    ensures |r| == 3 && r[0] == d
  {
    var stored := WithSource(d, link.source, row, raw);
    [d, stored, WithLink(stored, l, link)]
  }

  /** A plan whose links and sources are there, or not yet there. */
  predicate Applies(d: Disk, plan: Plan)
  {
    && (plan.Keep? || plan.Move? || plan.Overwrite? ==> plan.link in d.links && d.links[plan.link].source in d.sources)
    && (plan.Move? ==> plan.source !in d.sources)
    && (plan.Share? ==> plan.source in d.sources)
  }

  /** The stages of a put of a row and its bytes, first to last. */
  function StagesOf(t: Tools, d: Disk, name: Name, row: Source, raw: Bytes, plan: Plan): (r: seq<Disk>)
    requires Applies(d, plan)
    ensures |r| > 0 && r[0] == d && (plan.Move? ==> |r| == 4)
  {
    match plan
    case Keep(l) => [d]
    case Move(l, s) => MoveChain(d, l, s, row, raw)
    case Overwrite(l) =>
      var o := d.links[l].source;
      OverwriteChain(d, o, row.(count := d.sources[o].count), raw)
    case Share(l, s) => ShareChain(d, l, LinkFor(t, name, s))
    case Fresh(l, s) => FreshChain(d, l, LinkFor(t, name, s), row, raw)
  }

  function Stages(t: Tools, d: Disk, q: Request, plan: Plan): (r: seq<Disk>)
    requires Applies(d, plan)
    ensures |r| > 0 && r[0] == d
  {
    StagesOf(t, d, q.name, RowFor(t, q), RawFor(t, q), plan)
  }

  function Done(t: Tools, d: Disk, q: Request, plan: Plan): Disk
    requires Applies(d, plan)
  {
    var stages := Stages(t, d, q, plan);
    stages[|stages| - 1]
  }

  /** The stages of deleting one link. */
  function DeleteStages(d: Disk, l: Id): (r: seq<Disk>)
    requires l in d.links && d.links[l].source in d.sources
    ensures |r| == 3 && r[0] == d
  {
    var dropped := DeleteLink(d, l);
    [d, dropped, Released(dropped, d.links[l].source)]
  }

  // ------------------------------------------- what a put does to the tables

  /** One link more, on a row with the hash of the data: this row counts one
      more, and no payload is written. */
  ghost predicate Deduplicates(t: Tools, d: Disk, e: Disk, q: Request)
  {
    exists l, s | l !in d.links && s in d.sources && d.sources[s].hash == t.hash(q.data) ::
      && e.links == d.links[l := Link(q.name, t.extension(q.name), s, 0x1A4)]
      && e.sources == d.sources[s := d.sources[s].(count := d.sources[s].count + 1)]
      && e.payloads == d.payloads
  }

  /** One link, one row and one payload more. */
  ghost predicate StoresAfresh(t: Tools, d: Disk, e: Disk, q: Request)
  {
    exists l, s | l !in d.links && s !in d.sources ::
      && e.links == d.links[l := Link(q.name, t.extension(q.name), s, 0x1A4)]
      && e.sources == d.sources[s := Source(t.hash(q.data), q.compressed, |q.data|, 1)]
      && e.payloads == d.payloads[s := RawFor(t, q)]
  }

  /** Link `l` keeps its row; this gets the new fields under its old count. */
  ghost predicate RewritesInPlace(t: Tools, d: Disk, e: Disk, q: Request, l: Id)
    requires l in d.links && d.links[l].source in d.sources
  {
    var o := d.links[l].source;
    && e.links == d.links
    && e.sources == d.sources[o := Source(t.hash(q.data), q.compressed, |q.data|, d.sources[o].count)]
    && e.payloads == d.payloads[o := RawFor(t, q)]
  }

  /** Link `l` goes to a new row of its own; its old row counts one less, or is
      gone with its payload if it counted no other. */
  ghost predicate MovesAway(t: Tools, d: Disk, e: Disk, q: Request, l: Id)
    requires l in d.links && d.links[l].source in d.sources
  {
    var o := d.links[l].source;
    exists s | s !in d.sources ::
      var rows := d.sources[s := Source(t.hash(q.data), q.compressed, |q.data|, 1)];
      var files := d.payloads[s := RawFor(t, q)];
      && e.links == d.links[l := d.links[l].(source := s)]
      && (if d.sources[o].count <= 1 then e.sources == rows - {o} && e.payloads == files - {o}
          else e.sources == rows[o := rows[o].(count := rows[o].count - 1)] && e.payloads == files)
  }

  /** What a put that succeeds has done to links, rows and payloads, from the
      tables it found: a new name shares a row with the hash of its data if
      there is one, and is stored afresh only if there is none; a known name is
      rewritten in place if it covers a row that counts no other link, is left
      alone without cover if hash and encoding are the same, and else moves. */
  ghost predicate PutEffect(t: Tools, d: Disk, e: Disk, q: Request)
    requires Linked(t, d.links, d.sources)
  {
    if q.name !in Names(d.links) then
      if exists s | s in d.sources :: d.sources[s].hash == t.hash(q.data) then Deduplicates(t, d, e, q)
      else StoresAfresh(t, d, e, q)
    else
      forall l | l in d.links && d.links[l].name == q.name ::
        var row := d.sources[d.links[l].source];
        if q.cover && row.count <= 1 then RewritesInPlace(t, d, e, q, l)
        else if !q.cover && row.hash == t.hash(q.data) && row.compressed == q.compressed then
          e.links == d.links && e.sources == d.sources && e.payloads == d.payloads
        else MovesAway(t, d, e, q, l)
  }

  /** Whichever branch it takes, this is what a finished put has done. */
  lemma PutTakesEffect(t: Tools, d: Disk, e: Disk, q: Request, plan: Plan)
    requires Layout(t, d) && Fits(t, d, q, plan) && SameButTemps(Done(t, d, q, plan), e)
    ensures PutEffect(t, d, e, q)
  {
    match plan
    case Share(l, s) => assert Deduplicates(t, d, e, q);
    case Fresh(l, s) => assert StoresAfresh(t, d, e, q);
    case Move(l, s) => assert MovesAway(t, d, e, q, l);
    case _ =>
  }

  // ------------------------------------------------------------- releasing

  lemma ReleasedLayout(t: Tools, d: Disk, s: Id)
    requires Layout(t, d) && s in d.sources && (d.sources[s].count <= 1 ==> !Referenced(d, s))
    ensures Layout(t, Released(d, s))
  {
  }

  lemma ReleasedInv(t: Tools, d: Disk, s: Id)
    requires Inv(t, d) && s in d.sources && |LinksTo(d.links, s)| < d.sources[s].count
    ensures Inv(t, Released(d, s))
  {
    if d.sources[s].count <= 1 { NoReference(d, s); }
    ReleasedLayout(t, d, s);
  }

  lemma ReleasedView(t: Tools, d: Disk, s: Id)
    requires Layout(t, d) && s in d.sources && (d.sources[s].count <= 1 ==> !Referenced(d, s))
    ensures ViewOf(t, Released(d, s)) == ViewOf(t, d)
  {
    var e := Released(d, s);
    if d.sources[s].count > 1 {
      RecountView(t, d, s, d.sources[s].count - 1);
    } else {
      forall l | l in d.links ensures SameSource(d, e, d.links[l].source) {
        assert d.links[l].source != s;
      }
      RowsView(t, d, e);
    }
  }

  lemma ReleasedExact(d: Disk, s: Id)
    requires s in d.sources && |LinksTo(d.links, s)| + 1 == d.sources[s].count
    requires forall r | r in d.sources && r != s :: d.sources[r].count == |LinksTo(d.links, r)|
    ensures Exact(Released(d, s).links, Released(d, s).sources)
  {
  }

  lemma ReleasedHealthy(t: Tools, d: Disk, s: Id, w: World)
    requires s in d.sources && d.tombs == map[] && Healthy(t, d, w)
    ensures Healthy(t, Released(d, s), w)
  {
    var e := Released(d, s);
    forall r | r in e.sources ensures Sound(t, e.sources[r], Stored(e, r), w) {
      assert Sound(t, d.sources[r], Stored(d, r), w);
      assert Stored(e, r) == Stored(d, r);
    }
  }

  // ----------------------------------------------------- a source is stored

  lemma StoredLayout(t: Tools, d: Disk, s: Id, row: Source, raw: Bytes)
    requires Layout(t, d) && s !in d.sources && 1 <= row.count
    ensures Layout(t, WithSource(d, s, row, raw)) && LinksTo(d.links, s) == {}
  {
    Unlinked(t, d.links, d.sources, s);
  }

  lemma StoredInv(t: Tools, d: Disk, s: Id, row: Source, raw: Bytes)
    requires Inv(t, d) && s !in d.sources && 1 <= row.count
    ensures Inv(t, WithSource(d, s, row, raw)) && LinksTo(d.links, s) == {}
  {
    StoredLayout(t, d, s, row, raw);
  }

  lemma StoredView(t: Tools, d: Disk, s: Id, row: Source, raw: Bytes)
    requires Linked(t, d.links, d.sources) && Clean(d) && s !in d.sources
    ensures ViewOf(t, WithSource(d, s, row, raw)) == ViewOf(t, d)
  {
    RowsView(t, d, WithSource(d, s, row, raw));
  }

  lemma StoredHealthy(t: Tools, d: Disk, s: Id, row: Source, raw: Bytes, w: World)
    requires Healthy(t, d, w) && d.tombs == map[] && Sound(t, row, Some(raw), w)
    ensures Healthy(t, WithSource(d, s, row, raw), w)
  {
    var e := WithSource(d, s, row, raw);
    forall r | r in e.sources ensures Sound(t, e.sources[r], Stored(e, r), w) {
      if r != s { assert Sound(t, d.sources[r], Stored(d, r), w); }
    }
  }

  /** Links and counts do not enter into it. */
  lemma HealthyFiles(t: Tools, d: Disk, e: Disk, w: World)
    requires Healthy(t, d, w)
    requires forall s | s in e.sources :: SameSource(d, e, s)
    ensures Healthy(t, e, w)
  {
    forall r | r in e.sources ensures Sound(t, e.sources[r], Stored(e, r), w) {
      assert SameSource(d, e, r);
      assert Sound(t, d.sources[r], Stored(d, r), w);
    }
  }

  // ------------------------------------------------------------------ Move

  /** A link is pointed at a source that no link names and that counts one. */
  lemma MovedInv(t: Tools, d: Disk, l: Id, s: Id)
    requires Inv(t, d) && l in d.links && s in d.sources && s != d.links[l].source && LinksTo(d.links, s) == {}
    ensures var e, o := WithLink(d, l, d.links[l].(source := s)), d.links[l].source;
            && Inv(t, e)
            && |LinksTo(e.links, o)| + 1 == |LinksTo(d.links, o)|
            && |LinksTo(e.links, s)| == 1
            && (forall r | r != o && r != s :: LinksTo(e.links, r) == LinksTo(d.links, r))
  {
    RepointTable(t, d.links, d.sources, l, s);
  }

  /** Up to its release a move needs no more than the layout. */
  lemma MoveLayout(t: Tools, d: Disk, l: Id, s: Id, row: Source, raw: Bytes)
    requires Layout(t, d) && l in d.links && s !in d.sources && 1 <= row.count
    ensures var chain := MoveChain(d, l, s, row, raw);
            && Layout(t, chain[1]) && Layout(t, chain[2])
            && (Referenced(chain[2], d.links[l].source) <==> Shared(d.links, l))
  {
    var stored := WithSource(d, s, row, raw);
    StoredLayout(t, d, s, row, raw);
    RepointTable(t, stored.links, stored.sources, l, s);
    var moved, o := WithLink(stored, l, d.links[l].(source := s)), d.links[l].source;
    if Shared(d.links, l) {
      var m :| m in d.links && m != l && d.links[m].source == o;
      assert moved.links[m].source == o;
    }
  }

  lemma MoveReleasedLayout(t: Tools, d: Disk, l: Id, s: Id, row: Source, raw: Bytes)
    requires Layout(t, d) && l in d.links && s !in d.sources && 1 <= row.count && !Pinned(d, l)
    ensures Layout(t, MoveChain(d, l, s, row, raw)[3])
  {
    MoveLayout(t, d, l, s, row, raw);
    ReleasedLayout(t, MoveChain(d, l, s, row, raw)[2], d.links[l].source);
  }

  lemma MoveInv(t: Tools, d: Disk, q: Request, l: Id, s: Id)
    requires Inv(t, d) && Fits(t, d, q, Move(l, s))
    ensures var stages := Stages(t, d, q, Move(l, s));
            Inv(t, stages[1]) && Inv(t, stages[2]) && Inv(t, stages[3])
  {
    var row, raw := RowFor(t, q), RawFor(t, q);
    var stored, o := WithSource(d, s, row, raw), d.links[l].source;
    var moved := WithLink(stored, l, d.links[l].(source := s));
    assert Inv(t, stored) && LinksTo(stored.links, s) == {} by { StoredInv(t, d, s, row, raw); }
    assert Inv(t, moved) && |LinksTo(moved.links, o)| < moved.sources[o].count by { MovedInv(t, stored, l, s); }
    assert Inv(t, Released(moved, o)) by { ReleasedInv(t, moved, o); }
  }

  /** Link `l` can be moved to the new source `s`. */
  ghost predicate Movable(d: Disk, l: Id, s: Id)
  {
    && Clean(d) && l in d.links && d.links[l].source in d.sources && s !in d.sources
    && !Referenced(d, s)
    && d.sources[d.links[l].source].count >= 1
  }

  lemma LayoutIsMovable(t: Tools, d: Disk, l: Id, s: Id)
    requires Layout(t, d) && l in d.links && s !in d.sources
    ensures Movable(d, l, s)
  {
    Unlinked(t, d.links, d.sources, s);
    NoReference(d, s);
  }

  lemma MoveIsMovable(t: Tools, d: Disk, q: Request, l: Id, s: Id)
    requires Layout(t, d) && Fits(t, d, q, Move(l, s))
    ensures Movable(d, l, s)
    ensures Stages(t, d, q, Move(l, s)) == MoveChain(d, l, s, RowFor(t, q), RawFor(t, q))
  {
    LayoutIsMovable(t, d, l, s);
  }

  /** The stages of a move that can be reached. */
  ghost function MovePassed(d: Disk, l: Id, s: Id, row: Source, raw: Bytes): (r: seq<Disk>)
    requires l in d.links && d.links[l].source in d.sources && s !in d.sources
    ensures 3 <= |r| <= 4 && r == MoveChain(d, l, s, row, raw)[..|r|]
  {
    if Pinned(d, l) then MoveChain(d, l, s, row, raw)[..3] else MoveChain(d, l, s, row, raw)
  }

  lemma SameReferences(d: Disk, e: Disk, s: Id)
    requires d.links == e.links
    ensures Referenced(d, s) <==> Referenced(e, s)
  {
  }

  /** After the link has moved, its old source is referenced if it was shared. */
  lemma MovedReferences(d: Disk, l: Id, s: Id, row: Source, raw: Bytes)
    requires Movable(d, l, s)
    ensures Referenced(MoveChain(d, l, s, row, raw)[2], d.links[l].source) <==> Shared(d.links, l)
  {
    var moved, o := MoveChain(d, l, s, row, raw)[2], d.links[l].source;
    if Shared(d.links, l) {
      var m :| m in d.links && m != l && d.links[m].source == o;
      assert moved.links[m].source == o;
    }
  }

  /** The compensations of a move lead back to where it began. */
  lemma MoveUndone(d: Disk, l: Id, s: Id, row: Source, raw: Bytes)
    requires Movable(d, l, s)
    ensures var moved := MoveChain(d, l, s, row, raw)[2];
            && moved.links[l := moved.links[l].(source := d.links[l].source)] == d.links
            && moved.sources - {s} == d.sources
            && moved.payloads - {s} == d.payloads
  {
  }

  lemma NoReference(d: Disk, s: Id)
    requires LinksTo(d.links, s) == {}
    ensures !Referenced(d, s)
  {
    forall l | l in d.links ensures d.links[l].source != s {
      assert l in LinksTo(d.links, d.links[l].source);
    }
  }

  lemma MoveChainView(t: Tools, d: Disk, l: Id, s: Id, row: Source, raw: Bytes)
    requires Movable(d, l, s) && Linked(t, d.links, d.sources)
    ensures var chain := MoveChain(d, l, s, row, raw);
            && ViewOf(t, chain[1]) == ViewOf(t, d)
            && ViewOf(t, chain[2]) == ViewOf(t, d)[d.links[l].name := Decode(t, row, raw)]
  {
    var stored := WithSource(d, s, row, raw);
    var moved := WithLink(stored, l, d.links[l].(source := s));
    StoredView(t, d, s, row, raw);
    assert OneLinkPerName(moved.links) by { assert forall m | m in d.links :: moved.links[m].name == d.links[m].name; }
    Repoint(t, stored, moved, l, s);
  }

  lemma MoveReleasedView(t: Tools, d: Disk, l: Id, s: Id, row: Source, raw: Bytes)
    requires Layout(t, d) && l in d.links && s !in d.sources && 1 <= row.count && !Pinned(d, l)
    ensures var chain := MoveChain(d, l, s, row, raw);
            ViewOf(t, chain[3]) == ViewOf(t, chain[2])
  {
    MoveLayout(t, d, l, s, row, raw);
    ReleasedView(t, MoveChain(d, l, s, row, raw)[2], d.links[l].source);
  }

  lemma MoveView(t: Tools, d: Disk, q: Request, l: Id, s: Id)
    requires t.Lossless() && Layout(t, d) && Fits(t, d, q, Move(l, s))
    ensures var stages := Stages(t, d, q, Move(l, s));
            && ViewOf(t, stages[1]) == ViewOf(t, d)
            && ViewOf(t, stages[2]) == ViewOf(t, d)[q.name := Some(q.data)]
            && (!Pinned(d, l) ==> ViewOf(t, stages[3]) == ViewOf(t, stages[2]))
  {
    MoveIsMovable(t, d, q, l, s);
    MoveChainView(t, d, l, s, RowFor(t, q), RawFor(t, q));
    if !Pinned(d, l) { MoveReleasedView(t, d, l, s, RowFor(t, q), RawFor(t, q)); }
    FreshRowReadsBack(t, q, 1);
  }

  /** One link went from `o` to the new source `s`: counts are exact but for `o`. */
  lemma CountMoved(links: map<Id, Link>, after: map<Id, Link>, sources: map<Id, Source>, o: Id, s: Id, row: Source)
    requires Exact(links, sources) && o in sources && s !in sources && row.count == 1
    requires |LinksTo(after, o)| + 1 == |LinksTo(links, o)| && |LinksTo(after, s)| == 1
    requires forall r | r != o && r != s :: LinksTo(after, r) == LinksTo(links, r)
    ensures |LinksTo(after, o)| + 1 == sources[o].count
    ensures forall r | r in sources[s := row] && r != o :: sources[s := row][r].count == |LinksTo(after, r)|
  {
  }

  lemma MoveExact(t: Tools, d: Disk, q: Request, l: Id, s: Id)
    requires Inv(t, d) && Fits(t, d, q, Move(l, s)) && Exact(d.links, d.sources)
    ensures var e := Done(t, d, q, Move(l, s)); Exact(e.links, e.sources)
  {
    var row, raw, o := RowFor(t, q), RawFor(t, q), d.links[l].source;
    var stored := WithSource(d, s, row, raw);
    var moved := WithLink(stored, l, d.links[l].(source := s));
    assert |LinksTo(moved.links, o)| + 1 == moved.sources[o].count &&
           forall r | r in moved.sources && r != o :: moved.sources[r].count == |LinksTo(moved.links, r)| by {
      StoredInv(t, d, s, row, raw);
      MovedInv(t, stored, l, s);
      CountMoved(d.links, moved.links, d.sources, o, s, row);
    }
    ReleasedExact(moved, o);
  }

  /** The row and the bytes of a put are sound where its data is known. */
  lemma FreshRowSound(t: Tools, q: Request, count: nat, w: World)
    requires t.Lossless() && q.data in w.known
    ensures Sound(t, RowFor(t, q).(count := count), Some(RawFor(t, q)), w)
  {
    FreshRowReadsBack(t, q, count);
  }

  lemma MoveHealthy(t: Tools, d: Disk, q: Request, l: Id, s: Id, w: World)
    requires t.Lossless() && Layout(t, d) && Fits(t, d, q, Move(l, s)) && Healthy(t, d, w) && q.data in w.known
    ensures Healthy(t, Done(t, d, q, Move(l, s)), w)
  {
    FreshRowSound(t, q, 1, w);
    var stored := WithSource(d, s, RowFor(t, q), RawFor(t, q));
    StoredHealthy(t, d, s, RowFor(t, q), RawFor(t, q), w);
    var moved := WithLink(stored, l, d.links[l].(source := s));
    HealthyFiles(t, stored, moved, w);
    ReleasedHealthy(t, moved, d.links[l].source, w);
  }

  // ------------------------------------------------------------- Overwrite

  lemma RewrittenLayout(t: Tools, d: Disk, s: Id, row: Source, raw: Bytes)
    requires Layout(t, d) && s in d.sources && row.count == d.sources[s].count
    ensures Layout(t, WithSource(d, s, row, raw))
    ensures Counted(d.links, d.sources) ==> Counted(d.links, WithSource(d, s, row, raw).sources)
  {
  }

  lemma OverwriteStages(t: Tools, d: Disk, q: Request, l: Id)
    requires t.Lossless() && Layout(t, d) && Fits(t, d, q, Overwrite(l))
    ensures var stages, names := Stages(t, d, q, Overwrite(l)), NamesOn(d.links, d.links[l].source);
            && |stages| == 3
            && ViewOf(t, stages[1]) ==
                 Setting(ViewOf(t, d), names, Decode(t, d.sources[d.links[l].source], RawFor(t, q)))
            && ViewOf(t, stages[2]) == Setting(ViewOf(t, d), names, Some(q.data))
  {
    var o, raw := d.links[l].source, RawFor(t, q);
    var row := RowFor(t, q).(count := d.sources[o].count);
    Rewrite(t, d, WithSource(d, o, d.sources[o], raw), o, d.sources[o], raw);
    Rewrite(t, d, WithSource(d, o, row, raw), o, row, raw);
    FreshRowReadsBack(t, q, d.sources[o].count);
  }

  lemma OverwriteHealthy(t: Tools, d: Disk, q: Request, l: Id, w: World)
    requires t.Lossless() && Layout(t, d) && Fits(t, d, q, Overwrite(l)) && Healthy(t, d, w) && q.data in w.known
    ensures Healthy(t, Done(t, d, q, Overwrite(l)), w)
  {
    var o := d.links[l].source;
    FreshRowSound(t, q, d.sources[o].count, w);
    StoredHealthy(t, d, o, RowFor(t, q).(count := d.sources[o].count), RawFor(t, q), w);
  }

  // ----------------------------------------------------------------- Share

  lemma ShareTable(t: Tools, d: Disk, q: Request, l: Id, s: Id)
    requires Layout(t, d) && Fits(t, d, q, Share(l, s))
    ensures var e := WithLink(d, l, NewLink(t, q, s));
            && Layout(t, e)
            && |LinksTo(e.links, s)| == |LinksTo(d.links, s)| + 1
            && (forall r | r != s :: LinksTo(e.links, r) == LinksTo(d.links, r))
  {
    AddLinkTable(t, d.links, d.sources, l, NewLink(t, q, s));
  }

  lemma ShareLayout(t: Tools, d: Disk, q: Request, l: Id, s: Id)
    requires Layout(t, d) && Fits(t, d, q, Share(l, s))
    ensures Layout(t, Stages(t, d, q, Share(l, s))[1]) && Layout(t, Stages(t, d, q, Share(l, s))[2])
  {
    ShareTable(t, d, q, l, s);
  }

  /** One more link to `s`, and one more in its count. */
  lemma CountUp(links: map<Id, Link>, after: map<Id, Link>, sources: map<Id, Source>, s: Id)
    requires s in sources && |LinksTo(after, s)| == |LinksTo(links, s)| + 1
    requires forall r | r != s :: LinksTo(after, r) == LinksTo(links, r)
    ensures var rows := sources[s := sources[s].(count := sources[s].count + 1)];
            && (Counted(links, sources) ==> Counted(after, rows))
            && (Exact(links, sources) ==> Exact(after, rows))
  {
  }

  lemma SharedInv(t: Tools, d: Disk, q: Request, l: Id, s: Id)
    requires Inv(t, d) && Fits(t, d, q, Share(l, s))
    ensures Inv(t, Done(t, d, q, Share(l, s)))
  {
    var e := Done(t, d, q, Share(l, s));
    assert Layout(t, e) by { ShareLayout(t, d, q, l, s); }
    assert Counted(e.links, e.sources) by {
      ShareTable(t, d, q, l, s);
      CountUp(d.links, d.links[l := NewLink(t, q, s)], d.sources, s);
    }
  }

  lemma SharedExact(t: Tools, d: Disk, q: Request, l: Id, s: Id)
    requires Inv(t, d) && Fits(t, d, q, Share(l, s)) && Exact(d.links, d.sources)
    ensures var e := Done(t, d, q, Share(l, s)); Exact(e.links, e.sources)
  {
    ShareTable(t, d, q, l, s);
    CountUp(d.links, d.links[l := NewLink(t, q, s)], d.sources, s);
  }

  lemma ShareChainView(t: Tools, d: Disk, l: Id, link: Link)
    requires OneLinkPerName(d.links) && OneLinkPerName(d.links[l := link]) && l !in d.links && link.source in d.sources
    ensures var chain := ShareChain(d, l, link);
            ViewOf(t, chain[1]) == ViewOf(t, chain[2]) == ViewOf(t, d)[link.name := ReadAt(t, d, link.source)]
  {
    var linked, s := WithLink(d, l, link), link.source;
    var shared := linked.(sources := linked.sources[s := linked.sources[s].(count := d.sources[s].count + 1)]);
    assert ShareChain(d, l, link) == [d, linked, shared];
    assert ViewOf(t, linked) == ViewOf(t, d)[link.name := ReadAt(t, d, s)] by { AddLink(t, d, linked, l, link); }
    assert ViewOf(t, shared) == ViewOf(t, linked) by { RecountView(t, linked, s, d.sources[s].count + 1); }
  }

  lemma ShareView(t: Tools, d: Disk, q: Request, l: Id, s: Id)
    requires Layout(t, d) && Fits(t, d, q, Share(l, s))
    ensures var stages := Stages(t, d, q, Share(l, s));
            ViewOf(t, stages[1]) == ViewOf(t, stages[2]) == ViewOf(t, d)[q.name := ReadAt(t, d, s)]
  {
    ShareTable(t, d, q, l, s);
    ShareChainView(t, d, l, NewLink(t, q, s));
  }

  // ----------------------------------------------------------------- Fresh

  lemma LinkedUpInv(t: Tools, d: Disk, l: Id, link: Link)
    requires Inv(t, d) && l !in d.links && link.name !in Names(d.links)
    requires link.source in d.sources && link.ext == t.extension(link.name) && LinksTo(d.links, link.source) == {}
    ensures Inv(t, WithLink(d, l, link)) && |LinksTo(d.links[l := link], link.source)| == 1
    ensures forall r | r != link.source :: LinksTo(d.links[l := link], r) == LinksTo(d.links, r)
  {
    AddLinkTable(t, d.links, d.sources, l, link);
  }

  lemma FreshIsUnreferenced(t: Tools, d: Disk, s: Id)
    requires Layout(t, d) && s !in d.sources
    ensures !Referenced(d, s)
  {
    Unlinked(t, d.links, d.sources, s);
    NoReference(d, s);
  }

  lemma FreshLayout(t: Tools, d: Disk, q: Request, l: Id, s: Id)
    requires Layout(t, d) && Fits(t, d, q, Fresh(l, s))
    ensures Layout(t, Stages(t, d, q, Fresh(l, s))[1]) && Layout(t, Stages(t, d, q, Fresh(l, s))[2])
  {
    var stored := WithSource(d, s, RowFor(t, q), RawFor(t, q));
    StoredLayout(t, d, s, RowFor(t, q), RawFor(t, q));
    AddLinkTable(t, stored.links, stored.sources, l, NewLink(t, q, s));
  }

  lemma FreshInv(t: Tools, d: Disk, q: Request, l: Id, s: Id)
    requires Inv(t, d) && Fits(t, d, q, Fresh(l, s))
    ensures Inv(t, Stages(t, d, q, Fresh(l, s))[1]) && Inv(t, Stages(t, d, q, Fresh(l, s))[2])
  {
    StoredInv(t, d, s, RowFor(t, q), RawFor(t, q));
    LinkedUpInv(t, WithSource(d, s, RowFor(t, q), RawFor(t, q)), l, NewLink(t, q, s));
  }

  lemma FreshChainView(t: Tools, d: Disk, l: Id, link: Link, row: Source, raw: Bytes)
    requires Linked(t, d.links, d.sources) && Clean(d) && link.source !in d.sources
    requires OneLinkPerName(d.links[l := link]) && l !in d.links
    ensures var chain := FreshChain(d, l, link, row, raw);
            && ViewOf(t, chain[1]) == ViewOf(t, d)
            && ViewOf(t, chain[2]) == ViewOf(t, d)[link.name := Decode(t, row, raw)]
  {
    var stored := WithSource(d, link.source, row, raw);
    StoredView(t, d, link.source, row, raw);
    AddLink(t, stored, WithLink(stored, l, link), l, link);
  }

  lemma FreshView(t: Tools, d: Disk, q: Request, l: Id, s: Id)
    requires t.Lossless() && Layout(t, d) && Fits(t, d, q, Fresh(l, s))
    ensures ViewOf(t, Stages(t, d, q, Fresh(l, s))[1]) == ViewOf(t, d)
    ensures ViewOf(t, Stages(t, d, q, Fresh(l, s))[2]) == ViewOf(t, d)[q.name := Some(q.data)]
  {
    FreshLayout(t, d, q, l, s);
    FreshChainView(t, d, l, NewLink(t, q, s), RowFor(t, q), RawFor(t, q));
    FreshRowReadsBack(t, q, 1);
  }

  /** A new source with one link keeps the counts exact. */
  lemma CountOne(links: map<Id, Link>, after: map<Id, Link>, sources: map<Id, Source>, s: Id, row: Source)
    requires Exact(links, sources) && row.count == 1 && |LinksTo(after, s)| == 1
    requires forall r | r != s :: LinksTo(after, r) == LinksTo(links, r)
    ensures Exact(after, sources[s := row])
  {
  }

  lemma FreshExact(t: Tools, d: Disk, q: Request, l: Id, s: Id)
    requires Inv(t, d) && Fits(t, d, q, Fresh(l, s)) && Exact(d.links, d.sources)
    ensures var e := Done(t, d, q, Fresh(l, s)); Exact(e.links, e.sources)
  {
    var row, raw, link := RowFor(t, q), RawFor(t, q), NewLink(t, q, s);
    StoredInv(t, d, s, row, raw);
    LinkedUpInv(t, WithSource(d, s, row, raw), l, link);
    CountOne(d.links, d.links[l := link], d.sources, s, row);
  }

  lemma FreshHealthy(t: Tools, d: Disk, q: Request, l: Id, s: Id, w: World)
    requires t.Lossless() && Layout(t, d) && Fits(t, d, q, Fresh(l, s)) && Healthy(t, d, w) && q.data in w.known
    ensures Healthy(t, Done(t, d, q, Fresh(l, s)), w)
  {
    FreshRowSound(t, q, 1, w);
    var stored := WithSource(d, s, RowFor(t, q), RawFor(t, q));
    StoredHealthy(t, d, s, RowFor(t, q), RawFor(t, q), w);
    HealthyFiles(t, stored, WithLink(stored, l, NewLink(t, q, s)), w);
  }

  // ------------------------------------------------------- deleting a link

  lemma DroppedInv(t: Tools, d: Disk, l: Id)
    requires Layout(t, d) && l in d.links
    ensures Layout(t, DeleteLink(d, l)) && d.links[l].name !in Names(DeleteLink(d, l).links)
    ensures var s := d.links[l].source; |LinksTo(DeleteLink(d, l).links, s)| + 1 == |LinksTo(d.links, s)|
    ensures forall r | r != d.links[l].source :: LinksTo(DeleteLink(d, l).links, r) == LinksTo(d.links, r)
    ensures Counted(d.links, d.sources) ==> Counted(d.links - {l}, d.sources)
  {
    DropLinkTable(t, d.links, d.sources, l);
  }

  /** Link `l` is there, with its row and its extension. */
  ghost predicate Listed(t: Tools, d: Disk, l: Id)
  {
    && Clean(d) && l in d.links && d.links[l].source in d.sources
    && d.links[l].ext == t.extension(d.links[l].name)
    && d.sources[d.links[l].source].count >= 1
  }

  /** It can be deleted with its reference. */
  ghost predicate Deletable(t: Tools, d: Disk, l: Id)
  {
    Listed(t, d, l) && !Pinned(d, l)
  }

  lemma DroppedReferences(d: Disk, l: Id)
    requires l in d.links
    ensures Referenced(DeleteLink(d, l), d.links[l].source) <==> Shared(d.links, l)
  {
    if Shared(d.links, l) {
      var m :| m in d.links && m != l && d.links[m].source == d.links[l].source;
      assert m in DeleteLink(d, l).links;
    }
  }

  /** Where a lost count pins a source, the database refuses the row deletion in
      which deleting the link, or replacing it without cover, would end. */
  lemma PinnedIsRefused(t: Tools, d: Disk, l: Id, q: Request, s: Id)
    requires Layout(t, d) && Pinned(d, l)
    ensures DeleteSource(DeleteLink(d, l), d.links[l].source) == None
    ensures Fits(t, d, q, Move(l, s)) ==>
              !q.cover && Refuses(d, Move(l, s))
                  && DeleteSource(Stages(t, d, q, Move(l, s))[2], d.links[l].source) == None
  {
    DroppedReferences(d, l);
    if Fits(t, d, q, Move(l, s)) {
      MoveIsMovable(t, d, q, l, s);
      MovedReferences(d, l, s, RowFor(t, q), RawFor(t, q));
    }
  }

  lemma LinksAreDeletable(t: Tools, d: Disk, l: Id)
    requires Inv(t, d) && l in d.links
    ensures Deletable(t, d, l)
  {
    NothingPinned(t, d, l);
  }

  /** Up to its release a deletion needs no more than the layout. */
  lemma DroppedView(t: Tools, d: Disk, l: Id)
    requires Layout(t, d) && l in d.links
    ensures ViewOf(t, DeleteStages(d, l)[1]) == ViewOf(t, d) - {d.links[l].name}
  {
    DroppedInv(t, d, l);
    DropLink(t, d, DeleteLink(d, l), l);
  }

  lemma DeleteStagesLayout(t: Tools, d: Disk, l: Id)
    requires Layout(t, d) && l in d.links && !Pinned(d, l)
    ensures var stages := DeleteStages(d, l);
            && Layout(t, stages[2])
            && ViewOf(t, stages[2]) == ViewOf(t, d) - {d.links[l].name}
  {
    var e, s := DeleteLink(d, l), d.links[l].source;
    DroppedInv(t, d, l);
    DroppedReferences(d, l);
    DroppedView(t, d, l);
    ReleasedLayout(t, e, s);
    ReleasedView(t, e, s);
  }

  lemma DeleteKeepsInv(t: Tools, d: Disk, l: Id)
    requires Inv(t, d) && l in d.links
    ensures Inv(t, DeleteStages(d, l)[1]) && Inv(t, DeleteStages(d, l)[2])
  {
    DroppedInv(t, d, l);
    ReleasedInv(t, DeleteLink(d, l), d.links[l].source);
  }

  lemma DeleteHealthy(t: Tools, d: Disk, l: Id, w: World)
    requires Layout(t, d) && l in d.links && Healthy(t, d, w)
    ensures Healthy(t, DeleteStages(d, l)[1], w) && Healthy(t, DeleteStages(d, l)[2], w)
  {
    HealthyFiles(t, d, DeleteLink(d, l), w);
    ReleasedHealthy(t, DeleteLink(d, l), d.links[l].source, w);
  }

  lemma DeleteExact(t: Tools, d: Disk, l: Id)
    requires Inv(t, d) && l in d.links && Exact(d.links, d.sources)
    ensures var e := DeleteStages(d, l)[2]; Exact(e.links, e.sources)
  {
    DroppedInv(t, d, l);
    ReleasedExact(DeleteLink(d, l), d.links[l].source);
  }

  // ------------------------------------------------ deleting several links

  /** Deletes a link; one that is not there is passed over. */
  function DeleteStep(d: Disk, l: Id): Disk
  {
    if l in d.links && d.links[l].source in d.sources then DeleteStages(d, l)[2] else d
  }

  function DeleteAll(d: Disk, rows: seq<Id>): Disk
  {
    if rows == [] then d else DeleteStep(DeleteAll(d, rows[..|rows| - 1]), rows[|rows| - 1])
  }

  /** Some of the links of a table, each once. */
  predicate SomeLinks(links: map<Id, Link>, rows: seq<Id>)
  {
    && (forall i, j | 0 <= i < j < |rows| :: rows[i] != rows[j])
    && (forall i | 0 <= i < |rows| :: rows[i] in links)
  }

  lemma FirstLinks(links: map<Id, Link>, rows: seq<Id>, done: nat)
    requires SomeLinks(links, rows) && done <= |rows|
    ensures SomeLinks(links, rows[..done])
  {
  }

  ghost function NamesOf(links: map<Id, Link>, rows: seq<Id>): set<Name>
  {
    set i | 0 <= i < |rows| && rows[i] in links :: links[rows[i]].name
  }

  lemma {:induction false} DeleteAllLinks(d: Disk, rows: seq<Id>)
    ensures forall l :: l in DeleteAll(d, rows).links ==> l in d.links && DeleteAll(d, rows).links[l] == d.links[l]
    ensures forall l | l in d.links && l !in rows :: l in DeleteAll(d, rows).links
  {
    if rows != [] {
      var front, l := rows[..|rows| - 1], rows[|rows| - 1];
      DeleteAllLinks(d, front);
      assert rows == front + [l];
    }
  }

  /** Each of these links can be deleted when its turn comes. */
  ghost predicate DeletableInTurn(t: Tools, d: Disk, rows: seq<Id>)
  {
    forall i | 0 <= i < |rows| :: Deletable(t, DeleteAll(d, rows[..i]), rows[i])
  }

  lemma FrontInTurn(t: Tools, d: Disk, rows: seq<Id>)
    requires rows != [] && DeletableInTurn(t, d, rows)
    ensures DeletableInTurn(t, d, rows[..|rows| - 1])
    ensures Deletable(t, DeleteAll(d, rows[..|rows| - 1]), rows[|rows| - 1])
  {
    var front := rows[..|rows| - 1];
    forall i | 0 <= i < |front| ensures Deletable(t, DeleteAll(d, front[..i]), front[i]) {
      assert front[..i] == rows[..i];
    }
  }

  ghost function Elements<T>(rows: seq<T>): set<T>
  {
    set l | l in rows
  }

  lemma ElementsSnoc<T>(rows: seq<T>)
    requires rows != []
    ensures Elements(rows) == Elements(rows[..|rows| - 1]) + {rows[|rows| - 1]}
  {
    assert rows == rows[..|rows| - 1] + [rows[|rows| - 1]];
  }

  lemma StepLeaves(t: Tools, d: Disk, l: Id)
    requires Deletable(t, d, l)
    ensures DeleteStep(d, l).links == d.links - {l}
  {
  }

  /** What is left are the links that were not listed. */
  lemma {:induction false} DeleteAllLeaves(t: Tools, d: Disk, rows: seq<Id>)
    requires DeletableInTurn(t, d, rows)
    ensures DeleteAll(d, rows).links == d.links - Elements(rows)
  {
    if rows != [] {
      var front, l := rows[..|rows| - 1], rows[|rows| - 1];
      FrontInTurn(t, d, rows);
      DeleteAllLeaves(t, d, front);
      StepLeaves(t, DeleteAll(d, front), l);
      ElementsSnoc(rows);
      assert d.links - Elements(front) - {l} == d.links - (Elements(front) + {l});
    }
  }

  /** The links on a source that are in one table and not in another. */
  ghost function Lost(links: map<Id, Link>, left: map<Id, Link>, s: Id): set<Id>
  {
    set l | l in links && l !in left && links[l].source == s
  }

  /** A row that has lost links counts as many less, and is gone with its
      payload if that leaves nothing; nothing else happens to it. */
  ghost predicate Reckoned(d: Disk, e: Disk, s: Id)
  {
    if s !in d.sources then s !in e.sources && s !in e.payloads
    else
      var row, k := d.sources[s], |Lost(d.links, e.links, s)|;
      if k >= row.count then s !in e.sources && s !in e.payloads
      else
        && s in e.sources && e.sources[s] == row.(count := row.count - k)
        && s in e.payloads && s in d.payloads && e.payloads[s] == d.payloads[s]
  }

  lemma {:induction false} DeleteAllReckoned(t: Tools, d: Disk, rows: seq<Id>, s: Id)
    requires Layout(t, d) && DeletableInTurn(t, d, rows)
    ensures Reckoned(d, DeleteAll(d, rows), s)
  {
    if rows == [] {
      assert Lost(d.links, d.links, s) == {};
    } else {
      var front, l := rows[..|rows| - 1], rows[|rows| - 1];
      var e := DeleteAll(d, front);
      FrontInTurn(t, d, rows);
      DeleteAllReckoned(t, d, front, s);
      DeleteAllLinks(d, front);
      OneMoreReckoned(d, e, l, s);
    }
  }

  lemma OneMoreReckoned(d: Disk, e: Disk, l: Id, s: Id)
    requires Reckoned(d, e, s) && l in e.links && l in d.links && e.links[l] == d.links[l]
    requires e.links[l].source in e.sources
    ensures Reckoned(d, DeleteStages(e, l)[2], s)
  {
    var left := e.links - {l};
    if d.links[l].source == s {
      assert Lost(d.links, left, s) == Lost(d.links, e.links, s) + {l};
    } else {
      assert Lost(d.links, left, s) == Lost(d.links, e.links, s);
    }
  }

  lemma {:induction false} DeleteAllLayout(t: Tools, d: Disk, rows: seq<Id>)
    requires Layout(t, d) && DeletableInTurn(t, d, rows)
    ensures Layout(t, DeleteAll(d, rows))
  {
    if rows != [] {
      FrontInTurn(t, d, rows);
      DeleteAllLayout(t, d, rows[..|rows| - 1]);
      DeleteStagesLayout(t, DeleteAll(d, rows[..|rows| - 1]), rows[|rows| - 1]);
    }
  }

  lemma {:induction false} DeleteAllHealthy(t: Tools, d: Disk, rows: seq<Id>, w: World)
    requires Layout(t, d) && DeletableInTurn(t, d, rows) && Healthy(t, d, w)
    ensures Healthy(t, DeleteAll(d, rows), w)
  {
    if rows != [] {
      FrontInTurn(t, d, rows);
      DeleteAllHealthy(t, d, rows[..|rows| - 1], w);
      DeleteAllLayout(t, d, rows[..|rows| - 1]);
      DeleteHealthy(t, DeleteAll(d, rows[..|rows| - 1]), rows[|rows| - 1], w);
    }
  }

  lemma {:induction false} DeleteAllInv(t: Tools, d: Disk, rows: seq<Id>)
    requires Inv(t, d) && SomeLinks(d.links, rows)
    ensures Inv(t, DeleteAll(d, rows))
    ensures Exact(d.links, d.sources) ==> Exact(DeleteAll(d, rows).links, DeleteAll(d, rows).sources)
  {
    if rows != [] {
      var front, l := rows[..|rows| - 1], rows[|rows| - 1];
      DeleteAllInv(t, d, front);
      DeleteAllLinks(d, front);
      var e := DeleteAll(d, front);
      DeleteKeepsInv(t, e, l);
      if Exact(e.links, e.sources) { DeleteExact(t, e, l); }
    }
  }

  /** What has not been deleted yet is still listed. */
  lemma StillListed(t: Tools, d: Disk, rows: seq<Id>, i: nat)
    requires Layout(t, d) && SomeLinks(d.links, rows) && i < |rows| && DeletableInTurn(t, d, rows[..i])
    ensures Listed(t, DeleteAll(d, rows[..i]), rows[i])
  {
    DeleteAllLayout(t, d, rows[..i]);
    DeleteAllLinks(d, rows[..i]);
    assert rows[i] !in rows[..i];
  }

  lemma OneMoreInTurn(t: Tools, d: Disk, rows: seq<Id>, i: nat)
    requires i < |rows| && DeletableInTurn(t, d, rows[..i]) && Deletable(t, DeleteAll(d, rows[..i]), rows[i])
    ensures DeletableInTurn(t, d, rows[..i + 1])
  {
    var more := rows[..i + 1];
    forall j | 0 <= j < |more| ensures Deletable(t, DeleteAll(d, more[..j]), more[j]) {
      TakeTwice(rows, i + 1, j);
      if j < i { TakeTwice(rows, i, j); }
    }
  }

  lemma TakeTwice(rows: seq<Id>, i: nat, j: nat)
    requires j < i <= |rows|
    ensures rows[..i][..j] == rows[..j] && rows[..i][j] == rows[j]
  {
  }

  lemma DeleteOneMore(d: Disk, rows: seq<Id>, i: nat)
    requires i < |rows| && rows[i] in DeleteAll(d, rows[..i]).links
    requires var e := DeleteAll(d, rows[..i]); e.links[rows[i]].source in e.sources
    ensures DeleteAll(d, rows[..i + 1]) == DeleteStages(DeleteAll(d, rows[..i]), rows[i])[2]
  {
    TakeTwice(rows, i + 1, i);
  }

  lemma NextIsDeletable(t: Tools, d: Disk, rows: seq<Id>, i: nat)
    requires Inv(t, d) && SomeLinks(d.links, rows) && i < |rows|
    ensures Deletable(t, DeleteAll(d, rows[..i]), rows[i])
  {
    var front := rows[..i];
    assert rows[i] !in front && rows[i] in d.links && SomeLinks(d.links, front);
    NotYetDeleted(t, d, front, rows[i]);
  }

  lemma NotYetDeleted(t: Tools, d: Disk, front: seq<Id>, l: Id)
    requires Inv(t, d) && SomeLinks(d.links, front) && l in d.links && l !in front
    ensures Deletable(t, DeleteAll(d, front), l)
  {
    assert l in DeleteAll(d, front).links by { DeleteAllLinks(d, front); }
    assert Inv(t, DeleteAll(d, front)) by { DeleteAllInv(t, d, front); }
    LinksAreDeletable(t, DeleteAll(d, front), l);
  }

  lemma NamesOfSnoc(links: map<Id, Link>, front: seq<Id>, l: Id)
    requires l in links
    ensures NamesOf(links, front + [l]) == NamesOf(links, front) + {links[l].name}
  {
    var rows := front + [l];
    forall n ensures n in NamesOf(links, rows) <==> n in NamesOf(links, front) || n == links[l].name {
      if n in NamesOf(links, front) {
        var i :| 0 <= i < |front| && front[i] in links && links[front[i]].name == n;
        assert rows[i] == front[i];
      }
      if n == links[l].name { assert rows[|front|] == l; }
    }
  }

  /** Deleting links takes their names away, and no others. */
  lemma {:induction false} DeleteAllView(t: Tools, d: Disk, rows: seq<Id>)
    requires Layout(t, d) && DeletableInTurn(t, d, rows)
    ensures ViewOf(t, DeleteAll(d, rows)) == ViewOf(t, d) - NamesOf(d.links, rows)
  {
    if rows != [] {
      var front, l := rows[..|rows| - 1], rows[|rows| - 1];
      assert rows == front + [l];
      FrontInTurn(t, d, rows);
      DeleteAllView(t, d, front);
      var e := DeleteAll(d, front);
      assert l in e.links && e.links[l] == d.links[l] && l in d.links by { DeleteAllLinks(d, front); }
      DeleteAllLayout(t, d, front);
      DeleteStagesLayout(t, e, l);
      NamesOfSnoc(d.links, front, l);
      LessNames(ViewOf(t, d), NamesOf(d.links, front), d.links[l].name);
    } else {
      LessNothing(ViewOf(t, d), NamesOf(d.links, rows));
    }
  }

  lemma LessNames(v: View, names: set<Name>, n: Name)
    ensures v - names - {n} == v - (names + {n})
  {
  }

  lemma LessNothing(v: View, names: set<Name>)
    requires names == {}
    ensures v - names == v
  {
  }
}
