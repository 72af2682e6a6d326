/** What survives a restart: the link and source tables and the payload files,
    with the primitive steps of the database and of the directory. */
module Disks {
  import opened Basics
  import Codec

  datatype Name = Name(text: string)

  datatype Id = Id(text: string)

  datatype Digest = Digest(hex: string)

  datatype Ext = Ext(text: string)

  datatype Link = Link(name: Name, ext: Ext, source: Id, mode: nat)

  datatype Source = Source(hash: Digest, compressed: bool, size: nat, count: nat)

  /** The name of a write in progress: `<id>.tmp-<tag>`. */
  datatype Temp = Temp(id: Id, tag: Id)

  /** `payloads` are the files named `<id>`, `tombs` those named `<id>.deleting`. */
  datatype Disk = Disk(
    links: map<Id, Link>,
    sources: map<Id, Source>,
    payloads: map<Id, Bytes>,
    tombs: map<Id, Bytes>,
    temps: map<Temp, Bytes>)

  /** The functions the store is built on: BLAKE3, the block codec, the
      extension of a path, and SQL's LIKE. */
  datatype Tools = Tools(
    hash: Bytes -> Digest,
    pack: Bytes -> Bytes,
    unpack: Bytes -> Option<Bytes>,
    extension: Name -> Ext,
    like: (string, Name) -> bool)
  {
    ghost predicate Lossless() {
      forall x: Bytes {:trigger pack(x)} :: unpack(pack(x)) == Some(x)
    }

    /** The codec is the block codec over this gzip. */
    ghost predicate Blocks(gz: Codec.Gzip) {
      && (forall x: Bytes :: pack(x) == Codec.Compressed(gz, x))
      && (forall y: Bytes :: unpack(y) == Codec.Decompressed(gz, y))
    }
  }

  lemma BlocksAreLossless(t: Tools, gz: Codec.Gzip)
    requires t.Blocks(gz) && gz.Lossless()
    ensures t.Lossless()
  {
    forall x: Bytes ensures t.unpack(t.pack(x)) == Some(x) {
      Codec.RoundTrip(gz, x);
    }
  }

  // ------------------------------------------------------------- reading

  ghost function LinksTo(links: map<Id, Link>, s: Id): set<Id>
  {
    set l | l in links && links[l].source == s
  }

  /** The bytes a restart would leave under a source id: an interrupted delete
      is undone in favour of the tombstone. */
  function Stored(d: Disk, s: Id): Option<Bytes>
  {
    if s in d.tombs then Some(d.tombs[s])
    else if s in d.payloads then Some(d.payloads[s])
    else None
  }

  /** A payload decoded by its row, None when decoding or the hash check fails. */
  function Decode(t: Tools, row: Source, raw: Bytes): (r: Option<Bytes>)
    ensures r.Some? ==> t.hash(r.value) == row.hash
  {
    var plain := if row.compressed then t.unpack(raw) else Some(raw);
    if plain.Some? && t.hash(plain.value) == row.hash then plain else None
  }

  function ReadAt(t: Tools, d: Disk, s: Id): Option<Bytes>
  {
    if s in d.sources && Stored(d, s).Some? then Decode(t, d.sources[s], Stored(d, s).value) else None
  }

  ghost function Names(links: map<Id, Link>): set<Name>
  {
    set l | l in links :: links[l].name
  }

  ghost function LinkOf(links: map<Id, Link>, name: Name): (l: Id)
    requires name in Names(links)
    ensures l in links && links[l].name == name
  {
    var l :| l in links && links[l].name == name;
    l
  }

  type View = map<Name, Option<Bytes>>

  /** The store as its callers see it: every name with what reading it gives. */
  ghost function ViewOf(t: Tools, d: Disk): View
  {
    map n | n in Names(d.links) :: ReadAt(t, d, d.links[LinkOf(d.links, n)].source)
  }

  // ---------------------------------------------------------- invariants

  ghost predicate OneLinkPerName(links: map<Id, Link>)
  {
    forall l, m | l in links && m in links && links[l].name == links[m].name :: l == m
  }

  /** Each name once, with the extension of its name, pointing at a source row. */
  ghost predicate Linked(t: Tools, links: map<Id, Link>, sources: map<Id, Source>)
  {
    && OneLinkPerName(links)
    && forall l | l in links :: links[l].source in sources && links[l].ext == t.extension(links[l].name)
  }

  /** No source has more links than it counts. */
  ghost predicate Counted(links: map<Id, Link>, sources: map<Id, Source>)
  {
    forall s | s in sources :: |LinksTo(links, s)| <= sources[s].count
  }

  /** The payload files are exactly the source rows. */
  predicate Clean(d: Disk)
  {
    d.payloads.Keys == d.sources.Keys && d.tombs == map[]
  }

  predicate Positive(sources: map<Id, Source>)
  {
    forall s | s in sources :: 1 <= sources[s].count
  }

  /** What every restart finds, whatever crash went before it. */
  ghost predicate Layout(t: Tools, d: Disk)
  {
    Linked(t, d.links, d.sources) && Positive(d.sources) && Clean(d)
  }

  /** What it finds unless a crash has lost a count. */
  ghost predicate Inv(t: Tools, d: Disk)
  {
    Layout(t, d) && Counted(d.links, d.sources)
  }

  /** Reference counts are the numbers of links. */
  ghost predicate Exact(links: map<Id, Link>, sources: map<Id, Source>)
  {
    forall s | s in sources :: sources[s].count == |LinksTo(links, s)|
  }

  /** The contents that may be about, and the hashes of contents that a crash
      may have torn. */
  datatype World = World(known: iset<Bytes>, torn: set<Digest>)

  /** A row was made for known bytes. */
  ghost predicate RowKnown(t: Tools, row: Source, known: iset<Bytes>)
  {
    exists x | x in known :: t.hash(x) == row.hash && |x| == row.size
  }

  /** A payload decodes to known bytes, or it is torn. */
  ghost predicate Sound(t: Tools, row: Source, raw: Option<Bytes>, w: World)
  {
    var plain := if raw.Some? then Decode(t, row, raw.value) else None;
    RowKnown(t, row, w.known) && if plain.Some? then plain.value in w.known else row.hash in w.torn
  }

  /** No two known contents have one hash. */
  ghost predicate Unambiguous(t: Tools, known: iset<Bytes>)
  {
    forall x, y | x in known && y in known && t.hash(x) == t.hash(y) :: x == y
  }

  /** What passes its check has the size in its row. */
  lemma SoundSize(t: Tools, row: Source, raw: Bytes, w: World)
    requires Sound(t, row, Some(raw), w) && Unambiguous(t, w.known) && Decode(t, row, raw).Some?
    ensures |Decode(t, row, raw).value| == row.size
  {
    var x :| x in w.known && t.hash(x) == row.hash && |x| == row.size;
    assert x == Decode(t, row, raw).value;
  }

  ghost predicate Healthy(t: Tools, d: Disk, w: World)
  {
    forall s | s in d.sources :: Sound(t, d.sources[s], Stored(d, s), w)
  }

  /** Equal up to writes in progress. */
  predicate SameButTemps(d: Disk, e: Disk)
  {
    d == e.(temps := d.temps)
  }

  // ---------------------------------------------- primitive steps: database

  // A result of None is a statement that the database refuses.

  function InsertLink(d: Disk, id: Id, link: Link): Option<Disk>
  {
    if id in d.links || link.source !in d.sources then None else Some(d.(links := d.links[id := link]))
  }

  function DeleteLink(d: Disk, id: Id): Disk
  {
    d.(links := d.links - {id})
  }

  function UpdateLinkSource(d: Disk, id: Id, s: Id): Option<Disk>
  {
    if id !in d.links then Some(d)
    else if s !in d.sources then None
    else Some(d.(links := d.links[id := d.links[id].(source := s)]))
  }

  function InsertSource(d: Disk, s: Id, row: Source): Option<Disk>
  {
    if s in d.sources then None else Some(d.(sources := d.sources[s := row]))
  }

  function UpdateSource(d: Disk, s: Id, row: Source): Disk
  {
    if s in d.sources then d.(sources := d.sources[s := row]) else d
  }

  predicate Referenced(d: Disk, s: Id)
  {
    exists l | l in d.links :: d.links[l].source == s
  }

  function DeleteSource(d: Disk, s: Id): Option<Disk>
  {
    if s in d.sources && Referenced(d, s) then None else Some(d.(sources := d.sources - {s}))
  }

  // ------------------------------------------------ primitive steps: files

  function RemovePayload(d: Disk, s: Id): Disk
  {
    d.(payloads := d.payloads - {s})
  }

  /** Renames a payload to its tombstone. */
  function Bury(d: Disk, s: Id): Option<Disk>
  {
    if s in d.payloads then Some(d.(tombs := d.tombs[s := d.payloads[s]], payloads := d.payloads - {s})) else None
  }

  /** Renames a tombstone back to its payload. */
  function Exhume(d: Disk, s: Id): Option<Disk>
  {
    if s in d.tombs then Some(d.(payloads := d.payloads[s := d.tombs[s]], tombs := d.tombs - {s})) else None
  }

  function RemoveTomb(d: Disk, s: Id): Option<Disk>
  {
    if s in d.tombs then Some(d.(tombs := d.tombs - {s})) else None
  }

  // ------------------------------------------------------------ the view

  lemma ViewAt(t: Tools, d: Disk, l: Id)
    requires OneLinkPerName(d.links) && l in d.links
    ensures d.links[l].name in ViewOf(t, d)
    ensures ViewOf(t, d)[d.links[l].name] == ReadAt(t, d, d.links[l].source)
  {
    assert d.links[l].name in Names(d.links);
  }

  lemma LinkShows(t: Tools, d: Disk, l: Id)
    requires Linked(t, d.links, d.sources) && Clean(d) && l in d.links
    ensures var s := d.links[l].source;
            && s in d.sources && s in d.payloads && d.links[l].name in ViewOf(t, d)
            && ViewOf(t, d)[d.links[l].name] == Decode(t, d.sources[s], d.payloads[s])
  {
    ViewAt(t, d, l);
  }

  /** Equal tables whose rows read the same give equal views. */
  lemma ViewSame(t: Tools, d: Disk, e: Disk)
    requires d.links == e.links
    requires forall l | l in d.links :: ReadAt(t, d, d.links[l].source) == ReadAt(t, e, d.links[l].source)
    ensures ViewOf(t, d) == ViewOf(t, e)
  {
  }

  /** Link `l` stands in both disks, under one name, and reads the same. */
  ghost predicate SameLink(t: Tools, d: Disk, e: Disk, l: Id)
  {
    && l in d.links && l in e.links
    && d.links[l].name == e.links[l].name
    && ReadAt(t, d, d.links[l].source) == ReadAt(t, e, e.links[l].source)
  }

  /** Two views that differ at most at `name`. */
  ghost predicate Elsewhere(v: View, w: View, name: Name)
  {
    v - {name} == w - {name}
  }

  lemma ViewElsewhere(t: Tools, d: Disk, e: Disk, name: Name)
    requires OneLinkPerName(d.links) && OneLinkPerName(e.links)
    requires forall l | l in d.links && d.links[l].name != name :: SameLink(t, d, e, l)
    requires forall l | l in e.links && e.links[l].name != name :: SameLink(t, d, e, l)
    ensures Elsewhere(ViewOf(t, d), ViewOf(t, e), name)
  {
    var v, w := ViewOf(t, d) - {name}, ViewOf(t, e) - {name};
    forall n | n in v
      ensures n in w && v[n] == w[n]
    {
      var l := LinkOf(d.links, n);
      assert SameLink(t, d, e, l);
      ViewAt(t, d, l);
      ViewAt(t, e, l);
    }
    forall n | n in w
      ensures n in v
    {
      var l := LinkOf(e.links, n);
      assert SameLink(t, d, e, l);
      ViewAt(t, d, l);
    }
  }

  lemma ViewUpdated(v: View, w: View, name: Name, r: Option<Bytes>)
    requires Elsewhere(v, w, name) && name in w && w[name] == r
    ensures w == v[name := r]
  {
    forall n | n in w ensures n == name || (n in v && v[n] == w[n]) {
      if n != name { assert n in w - {name}; assert n in v - {name}; }
    }
    forall n | n in v ensures n in w {
      if n != name { assert n in v - {name}; assert n in w - {name}; }
    }
  }

  lemma ViewDropped(v: View, w: View, name: Name)
    requires Elsewhere(v, w, name) && name !in w
    ensures w == v - {name}
  {
    assert w - {name} == w;
  }

  // ----------------------------------------------- steps nobody can see

  /** The tables are the same and every source row has the same bytes behind
      it: temporary, orphan and tombstone files may differ. */
  ghost predicate Offstage(d: Disk, e: Disk)
  {
    d.links == e.links && d.sources == e.sources && forall s | s in d.sources :: Stored(d, s) == Stored(e, s)
  }

  // ------------------------------------------------ steps on the tables

  // First what each step does to the tables, then what it does to the view.

  lemma Unlinked(t: Tools, links: map<Id, Link>, sources: map<Id, Source>, s: Id)
    requires Linked(t, links, sources) && s !in sources
    ensures LinksTo(links, s) == {}
  {
  }

  lemma RepointTable(t: Tools, links: map<Id, Link>, sources: map<Id, Source>, l: Id, s: Id)
    requires Linked(t, links, sources) && l in links && s in sources && s != links[l].source
    ensures var after := links[l := links[l].(source := s)];
            && Linked(t, after, sources)
            && LinksTo(after, s) == LinksTo(links, s) + {l} && l !in LinksTo(links, s)
            && LinksTo(after, links[l].source) == LinksTo(links, links[l].source) - {l}
                && l in LinksTo(links, links[l].source)
            && forall r | r != s && r != links[l].source :: LinksTo(after, r) == LinksTo(links, r)
  {
    var after := links[l := links[l].(source := s)];
    assert forall m | m in links :: after[m].name == links[m].name;
  }

  lemma AddLinkTable(t: Tools, links: map<Id, Link>, sources: map<Id, Source>, l: Id, link: Link)
    requires Linked(t, links, sources) && l !in links && link.name !in Names(links)
    requires link.source in sources && link.ext == t.extension(link.name)
    ensures var after := links[l := link];
            && Linked(t, after, sources)
            && LinksTo(after, link.source) == LinksTo(links, link.source) + {l} && l !in LinksTo(links, link.source)
            && forall r | r != link.source :: LinksTo(after, r) == LinksTo(links, r)
  {
    assert forall m | m in links :: links[m].name in Names(links);
  }

  lemma DropLinkTable(t: Tools, links: map<Id, Link>, sources: map<Id, Source>, l: Id)
    requires Linked(t, links, sources) && l in links
    ensures var after := links - {l};
            && Linked(t, after, sources)
            && LinksTo(after, links[l].source) == LinksTo(links, links[l].source) - {l}
                && l in LinksTo(links, links[l].source)
            && (forall r | r != links[l].source :: LinksTo(after, r) == LinksTo(links, r))
            && links[l].name !in Names(after)
  {
  }

  lemma SoleLink(links: map<Id, Link>, l: Id, m: Id)
    requires l in links && m in links && links[l].source == links[m].source
    requires |LinksTo(links, links[l].source)| <= 1
    ensures l == m
  {
    if l != m {
      var both := {l, m};
      assert both <= LinksTo(links, links[l].source);
      SubsetSize(both, LinksTo(links, links[l].source));
    }
  }

  /** Source `s` has the same bytes and, but for the count, the same row in both disks. */
  predicate SameSource(d: Disk, e: Disk, s: Id)
  {
    && s in d.sources && s in e.sources
    && e.sources[s] == d.sources[s].(count := e.sources[s].count)
    && Stored(d, s) == Stored(e, s)
  }

  /** Counts, and rows and files that no link names, do not show. */
  lemma RowsView(t: Tools, d: Disk, e: Disk)
    requires d.links == e.links
    requires forall l | l in d.links :: SameSource(d, e, d.links[l].source)
    ensures ViewOf(t, e) == ViewOf(t, d)
  {
    forall l | l in d.links ensures ReadAt(t, d, d.links[l].source) == ReadAt(t, e, d.links[l].source) {
      assert SameSource(d, e, d.links[l].source);
    }
    ViewSame(t, d, e);
  }

  lemma RecountView(t: Tools, d: Disk, s: Id, count: nat)
    requires s in d.sources
    ensures ViewOf(t, d.(sources := d.sources[s := d.sources[s].(count := count)])) == ViewOf(t, d)
  {
    var e := d.(sources := d.sources[s := d.sources[s].(count := count)]);
    forall r ensures ReadAt(t, d, r) == ReadAt(t, e, r) {}
    ViewSame(t, d, e);
  }

  /** Changing one link leaves the other names alone. */
  lemma LinkElsewhere(t: Tools, d: Disk, e: Disk, name: Name)
    requires OneLinkPerName(d.links) && OneLinkPerName(e.links) && e == d.(links := e.links)
    requires forall m | m in d.links && d.links[m].name != name :: m in e.links && e.links[m] == d.links[m]
    requires forall m | m in e.links && e.links[m].name != name :: m in d.links && d.links[m] == e.links[m]
    ensures Elsewhere(ViewOf(t, d), ViewOf(t, e), name)
  {
    forall m | m in d.links && d.links[m].name != name ensures SameLink(t, d, e, m) {}
    forall m | m in e.links && e.links[m].name != name ensures SameLink(t, d, e, m) {}
    ViewElsewhere(t, d, e, name);
  }

  lemma LinkSet(t: Tools, d: Disk, e: Disk, l: Id)
    requires OneLinkPerName(e.links) && l in e.links && e == d.(links := e.links)
    requires Elsewhere(ViewOf(t, d), ViewOf(t, e), e.links[l].name)
    ensures ViewOf(t, e) == ViewOf(t, d)[e.links[l].name := ReadAt(t, d, e.links[l].source)]
  {
    var s := e.links[l].source;
    assert ReadAt(t, e, s) == ReadAt(t, d, s);
    ViewAt(t, e, l);
    ViewUpdated(ViewOf(t, d), ViewOf(t, e), e.links[l].name, ReadAt(t, d, s));
  }

  /** Pointing a link at another source changes what its name reads, and no more. */
  lemma Repoint(t: Tools, d: Disk, e: Disk, l: Id, s: Id)
    requires OneLinkPerName(d.links) && OneLinkPerName(e.links) && l in d.links
    requires e == d.(links := d.links[l := d.links[l].(source := s)])
    ensures ViewOf(t, e) == ViewOf(t, d)[d.links[l].name := ReadAt(t, d, s)]
  {
    LinkElsewhere(t, d, e, d.links[l].name);
    LinkSet(t, d, e, l);
  }

  lemma AddLink(t: Tools, d: Disk, e: Disk, l: Id, link: Link)
    requires OneLinkPerName(d.links) && OneLinkPerName(e.links) && l !in d.links
    requires e == d.(links := d.links[l := link])
    ensures ViewOf(t, e) == ViewOf(t, d)[link.name := ReadAt(t, d, link.source)]
  {
    LinkElsewhere(t, d, e, link.name);
    LinkSet(t, d, e, l);
  }

  lemma DropLink(t: Tools, d: Disk, e: Disk, l: Id)
    requires OneLinkPerName(d.links) && OneLinkPerName(e.links) && l in d.links && e == DeleteLink(d, l)
    requires d.links[l].name !in Names(e.links)
    ensures ViewOf(t, e) == ViewOf(t, d) - {d.links[l].name}
  {
    LinkElsewhere(t, d, e, d.links[l].name);
    ViewDropped(ViewOf(t, d), ViewOf(t, e), d.links[l].name);
  }

  /** The names that read one source. */
  ghost function NamesOn(links: map<Id, Link>, s: Id): set<Name>
  {
    set l | l in links && links[l].source == s :: links[l].name
  }

  /** A view in which all of `names` read `r`. */
  function Setting(v: View, names: set<Name>, r: Option<Bytes>): View
  {
    map n | n in v.Keys + names :: if n in names then r else v[n]
  }

  lemma SettingOne(v: View, n: Name, r: Option<Bytes>)
    ensures Setting(v, {n}, r) == v[n := r]
  {
  }

  lemma SettingSame(v: View, names: set<Name>, r: Option<Bytes>)
    requires forall n | n in names :: n in v && v[n] == r
    ensures Setting(v, names, r) == v
  {
  }

  lemma NamesRead(t: Tools, d: Disk, s: Id, n: Name)
    requires OneLinkPerName(d.links) && n in NamesOn(d.links, s)
    ensures n in ViewOf(t, d) && ViewOf(t, d)[n] == ReadAt(t, d, s)
  {
    var l :| l in d.links && d.links[l].source == s && d.links[l].name == n;
    ViewAt(t, d, l);
  }

  /** A name that does not read source `s` reads another. */
  lemma NameReadsOther(d: Disk, s: Id, n: Name)
    requires n in Names(d.links) && n !in NamesOn(d.links, s)
    ensures d.links[LinkOf(d.links, n)].source != s
  {
  }

  lemma SettingIs(v: View, w: View, names: set<Name>, r: Option<Bytes>)
    requires v.Keys == w.Keys && names <= v.Keys
    requires forall n | n in w :: w[n] == if n in names then r else v[n]
    ensures w == Setting(v, names, r)
  {
  }

  lemma RewriteReads(t: Tools, d: Disk, e: Disk, s: Id, row: Source, raw: Bytes)
    requires d.tombs == map[] && e == d.(sources := d.sources[s := row], payloads := d.payloads[s := raw])
    ensures ReadAt(t, e, s) == Decode(t, row, raw)
    ensures forall r | r != s :: ReadAt(t, d, r) == ReadAt(t, e, r)
  {
  }

  lemma RewriteName(t: Tools, d: Disk, e: Disk, s: Id, row: Source, raw: Bytes, n: Name)
    requires OneLinkPerName(d.links) && d.tombs == map[] && n in Names(d.links)
    requires e == d.(sources := d.sources[s := row], payloads := d.payloads[s := raw])
    ensures ViewOf(t, e)[n] == if n in NamesOn(d.links, s) then Decode(t, row, raw) else ViewOf(t, d)[n]
  {
    RewriteReads(t, d, e, s, row, raw);
    if n in NamesOn(d.links, s) {
      NamesRead(t, e, s, n);
    } else {
      NameReadsOther(d, s, n);
    }
  }

  /** Replacing the row and the bytes of a source changes what the names that
      read it read, all to the same, and nothing else. */
  lemma Rewrite(t: Tools, d: Disk, e: Disk, s: Id, row: Source, raw: Bytes)
    requires OneLinkPerName(d.links) && d.tombs == map[]
    requires e == d.(sources := d.sources[s := row], payloads := d.payloads[s := raw])
    ensures ViewOf(t, e) == Setting(ViewOf(t, d), NamesOn(d.links, s), Decode(t, row, raw))
  {
    var v, w, names := ViewOf(t, d), ViewOf(t, e), NamesOn(d.links, s);
    forall n | n in w ensures w[n] == if n in names then Decode(t, row, raw) else v[n] {
      RewriteName(t, d, e, s, row, raw, n);
    }
    SettingIs(v, w, names, Decode(t, row, raw));
  }

  lemma SubsetSize<T>(a: set<T>, b: set<T>)
    requires a <= b
    ensures |a| <= |b|
  {
    assert b == a + (b - a);
  }
}
