/** Tidying a directory: duplicates become relative links to the file that is
    kept, and every path goes on reading the same. */
module Tidy {
  import opened Basics
  import opened Disks

  // ---------------------------------------------------------------- paths

  datatype Part = Named(text: string) | Up | Here

  type Path = seq<Part>

  predicate Plain(p: Path)
  {
    forall i | 0 <= i < |p| :: p[i].Named?
  }

  function Parent(p: Path): Path
    requires p != []
  {
    p[..|p| - 1]
  }

  /** Following a relative path from a directory. */
  function Resolve(dir: Path, rel: Path): Path
    decreases |rel|
  {
    if rel == [] then dir
    else
      match rel[0]
      case Here => Resolve(dir, rel[1..])
      case Up => Resolve(if dir == [] then [] else Parent(dir), rel[1..])
      case Named(_) => Resolve(dir + [rel[0]], rel[1..])
  }

  lemma {:induction false} ResolvePlain(dir: Path, rel: Path)
    requires Plain(rel)
    ensures Resolve(dir, rel) == dir + rel
    decreases |rel|
  {
    if rel == [] {
      assert dir + rel == dir;
    } else {
      ResolvePlain(dir + [rel[0]], rel[1..]);
      assert (dir + [rel[0]]) + rel[1..] == dir + rel;
    }
  }

  function Ups(n: nat): (r: Path)
    ensures |r| == n
  {
    seq(n, _ => Up)
  }

  lemma {:induction false} ResolveUps(dir: Path, n: nat, rel: Path)
    requires n <= |dir|
    ensures Resolve(dir, Ups(n) + rel) == Resolve(dir[..|dir| - n], rel)
    decreases n
  {
    if n == 0 {
      assert Ups(0) + rel == rel && dir[..|dir|] == dir;
    } else {
      var path := Ups(n) + rel;
      assert path[0] == Up && path[1..] == Ups(n - 1) + rel;
      ResolveUps(Parent(dir), n - 1, rel);
      assert Parent(dir)[..|dir| - n] == dir[..|dir| - n];
    }
  }

  /** `common` is the length of the longest common prefix. */
  ghost predicate Common(from: Path, to: Path, common: nat)
  {
    && common <= |from| && common <= |to| && from[..common] == to[..common]
    && (common < |from| && common < |to| ==> from[common] != to[common])
  }

  function Climb(from: Path, common: nat): Path
    requires common <= |from|
  {
    if |from| - common > 1 then Ups(|from| - common - 1)
    else if |from| - common == 1 then [Here]
    else []
  }

  /** Up from the first path's directory to the common part and down again:
      it leads to the second path unless the first is a prefix of it. */
  method RelativePath(from: Path, to: Path) returns (result: Path)
    ensures exists c: nat :: Common(from, to, c) && result == Climb(from, c) + to[c..]
    ensures from != [] && Plain(to) ==> (Resolve(Parent(from), result) == to <==> !(from <= to))
  {
    var c := 0;
    while c < |from| && c < |to| && from[c] == to[c]
      invariant c <= |from| && c <= |to| && from[..c] == to[..c]
    {
      c := c + 1;
    }
    result := [];
    if |from| - c > 1 {
      for i := c + 1 to |from|
        invariant result == Ups(i - c - 1)
      {
        assert Ups(i - c - 1) + [Up] == Ups(i - c);
        result := result + [Up];
      }
    } else if |from| - c == 1 {
      result := result + [Here];
    }
    for i := c to |to|
      invariant result == Climb(from, c) + to[c..i]
    {
      assert to[c..i] + [to[i]] == to[c..i + 1];
      result := result + [to[i]];
    }
    assert to[c..|to|] == to[c..];
    if from != [] && Plain(to) {
      RelativeResolvesIff(from, to, c);
    }
  }

  lemma ResolveFar(from: Path, to: Path, common: nat)
    requires Common(from, to, common) && |from| - common > 1 && Plain(to)
    ensures Resolve(Parent(from), Climb(from, common) + to[common..]) == to
  {
    var dir, tail := Parent(from), to[common..];
    ResolveUps(dir, |from| - common - 1, tail);
    assert dir[..common] == to[..common];
    ResolvePlain(to[..common], tail);
    assert to[..common] + tail == to;
  }

  lemma ResolveNear(from: Path, to: Path, common: nat)
    requires Common(from, to, common) && |from| - common == 1 && Plain(to)
    ensures Resolve(Parent(from), Climb(from, common) + to[common..]) == to
  {
    var tail := to[common..];
    assert ([Here] + tail)[1..] == tail;
    assert Parent(from) == to[..common];
    ResolvePlain(to[..common], tail);
    assert to[..common] + tail == to;
  }

  lemma ResolvePrefix(from: Path, to: Path, common: nat)
    requires from != [] && Common(from, to, common) && |from| == common && Plain(to)
    ensures from <= to && |Resolve(Parent(from), Climb(from, common) + to[common..])| == |to| - 1
  {
    var tail := to[common..];
    assert [] + tail == tail;
    ResolvePlain(Parent(from), tail);
  }

  /** The computed path leads from the one file's directory to the other file
      exactly when the first path is not a prefix of the second. */
  lemma RelativeResolvesIff(from: Path, to: Path, common: nat)
    requires from != [] && Plain(to) && Common(from, to, common)
    ensures Resolve(Parent(from), Climb(from, common) + to[common..]) == to <==> !(from <= to)
  {
    if |from| - common > 1 {
      ResolveFar(from, to, common);
    } else if |from| - common == 1 {
      ResolveNear(from, to, common);
    } else {
      ResolvePrefix(from, to, common);
    }
  }

  // ------------------------------------------------------------ the files

  datatype Node = File(data: Bytes, created: nat) | Symlink(target: Path)

  type Tree = map<Path, Node>

  /** What a path reads as; links lead to files, never to links. */
  function Read(fs: Tree, p: Path): Option<Bytes>
  {
    if p !in fs then None
    else
      match fs[p]
      case File(data, _) => Some(data)
      case Symlink(rel) =>
        if p == [] then None
        else
          var q := Resolve(Parent(p), rel);
          if q in fs && fs[q].File? then Some(fs[q].data) else None
  }

  datatype Info = Info(path: Path, date: nat)

  type Cache = map<Digest, seq<Info>>

  /** Files below one root: regular, plainly named, none inside another. */
  ghost predicate Walkable(fs: Tree, paths: seq<Path>)
  {
    && (forall i | 0 <= i < |paths| :: paths[i] in fs && fs[paths[i]].File? && paths[i] != [] && Plain(paths[i]))
    && (forall i, j | 0 <= i < |paths| && 0 <= j < |paths| && paths[i] != paths[j] :: !(paths[i] <= paths[j]))
  }

  ghost predicate NoCollision(t: Tools, fs: Tree, paths: seq<Path>)
  {
    forall p, q | p in paths && q in paths && p in fs && q in fs && fs[p].File? && fs[q].File?
                  && t.hash(fs[p].data) == t.hash(fs[q].data) :: fs[p].data == fs[q].data
  }

  ghost predicate Entry(t: Tools, fs: Tree, paths: seq<Path>, key: Digest, info: Info)
  {
    && info.path in paths && InGroup(t, fs, key, info.path)
    && info.date == fs[info.path].created
  }

  ghost predicate InGroup(t: Tools, fs: Tree, key: Digest, p: Path)
  {
    p in fs && fs[p].File? && t.hash(fs[p].data) == key
  }

  ghost predicate Grouped(t: Tools, fs: Tree, paths: seq<Path>, cache: Cache)
  {
    forall key, i | key in cache && 0 <= i < |cache[key]| :: Entry(t, fs, paths, key, cache[key][i])
  }

  /** Every readable path of the group is listed. */
  ghost predicate Complete(t: Tools, fs: Tree, paths: seq<Path>, unreadable: set<Path>, key: Digest, infos: seq<Info>)
  {
    forall p | p in paths && p !in unreadable && InGroup(t, fs, key, p) :: Info(p, fs[p].created) in infos
  }

  ghost predicate AllComplete(t: Tools, fs: Tree, paths: seq<Path>, unreadable: set<Path>, cache: Cache)
  {
    forall p | p in paths && p !in unreadable && p in fs && fs[p].File? ::
      t.hash(fs[p].data) in cache && Info(p, fs[p].created) in cache[t.hash(fs[p].data)]
  }

  /** Nothing unreadable is listed. */
  ghost predicate Legible(cache: Cache, unreadable: set<Path>)
  {
    forall key, i | key in cache && 0 <= i < |cache[key]| :: cache[key][i].path !in unreadable
  }

  /** What the file system refuses to do. */
  datatype Denied = Denied(unreadable: set<Path>, unremovable: set<Path>, unlinkable: set<Path>)

  predicate Outranks(keepNew: bool, a: nat, b: nat)
  {
    if keepNew then b <= a else a <= b
  }

  /** In the group, what is left as a file has the newest (or oldest) date. */
  ghost predicate Reduced(t: Tools, was: Tree, fs: Tree, paths: seq<Path>, denied: Denied, keepNew: bool, key: Digest)
  {
    forall p, q | p in paths && q in paths && p !in denied.unreadable + denied.unremovable && q !in denied.unreadable
                  && InGroup(t, was, key, p) && InGroup(t, was, key, q) && p in fs && fs[p].File? ::
      Outranks(keepNew, was[p].created, was[q].created)
  }

  /** A readable file with the same contents is newer, or older. */
  ghost predicate Superseded(was: Tree, paths: seq<Path>, unreadable: set<Path>, keepNew: bool, p: Path)
    requires p in was && was[p].File?
  {
    exists q | q in paths && q !in unreadable && q in was && was[q].File? && was[q].data == was[p].data ::
      if keepNew then was[q].created > was[p].created else was[q].created < was[p].created
  }

  /** Path `p` of the group is one that the tidying must leave alone: not to be
      read or removed, or of the chosen date. */
  ghost predicate Exempt(t: Tools, was: Tree, paths: seq<Path>, denied: Denied, keepNew: bool, key: Digest, p: Path)
    requires p in was && was[p].File?
  {
    || p in denied.unreadable + denied.unremovable
    || forall q | q in paths && q !in denied.unreadable && InGroup(t, was, key, q) ::
         Outranks(keepNew, was[p].created, was[q].created)
  }

  ghost predicate Spared(t: Tools, was: Tree, fs: Tree, paths: seq<Path>, denied: Denied, keepNew: bool, key: Digest)
  {
    forall p | p in paths && InGroup(t, was, key, p) && Exempt(t, was, paths, denied, keepNew, key, p) ::
      p in fs && fs[p] == was[p]
  }

  ghost predicate AllSpared(t: Tools, was: Tree, fs: Tree, paths: seq<Path>, denied: Denied, keepNew: bool)
  {
    forall key :: Spared(t, was, fs, paths, denied, keepNew, key)
  }

  /** The first of the newest, or of the oldest. */
  method FindExtreme(infos: seq<Info>, keepNew: bool) returns (k: nat)
    requires infos != []
    ensures k < |infos|
    ensures keepNew ==> forall i | 0 <= i < |infos| :: infos[i].date <= infos[k].date
    ensures !keepNew ==> forall i | 0 <= i < |infos| :: infos[k].date <= infos[i].date
    ensures forall i | 0 <= i < k :: infos[i].date != infos[k].date
  {
    k := 0;
    for i := 1 to |infos|
      invariant k < i
      invariant forall j | 0 <= j < i :: Outranks(keepNew, infos[k].date, infos[j].date)
      invariant forall j | 0 <= j < k :: infos[j].date != infos[k].date
    {
      if (if keepNew then infos[i].date > infos[k].date else infos[i].date < infos[k].date) {
        k := i;
      }
    }
  }

  // ---------------------------------------------------------- the argument

  /** Path `p` is as it was, or a link to a file with its contents that is as
      it was. */
  ghost predicate Kept(was: Tree, fs: Tree, p: Path)
  {
    && p in was && was[p].File? && p in fs
    && (|| fs[p] == was[p]
        || (fs[p].Symlink? && p != [] && LeadsTo(was, fs, Resolve(Parent(p), fs[p].target), was[p].data)))
  }

  ghost predicate LeadsTo(was: Tree, fs: Tree, q: Path, data: Bytes)
  {
    q in was && q in fs && fs[q] == was[q] && fs[q].File? && fs[q].data == data
  }

  lemma KeptReadsTheSame(was: Tree, fs: Tree, p: Path)
    requires Kept(was, fs, p)
    ensures Read(fs, p) == Some(was[p].data)
  {
  }

  ghost predicate AllKept(was: Tree, fs: Tree, paths: seq<Path>, lost: Option<Path>)
  {
    forall p | p in paths && Some(p) != lost :: Kept(was, fs, p)
  }

  /** In the group of `key` every path is untouched or a link to the keeper. */
  ghost predicate GroupInHand(t: Tools, was: Tree, fs: Tree, paths: seq<Path>, key: Digest, keeper: Path)
  {
    && keeper in was && keeper in fs && fs[keeper] == was[keeper]
    && forall p | p in paths && InGroup(t, was, key, p) ::
         p in fs && (fs[p] == was[p] || (fs[p].Symlink? && p != [] && Resolve(Parent(p), fs[p].target) == keeper))
  }

  /** The groups of `keys` have not been touched. */
  ghost predicate Untouched(t: Tools, was: Tree, fs: Tree, paths: seq<Path>, keys: set<Digest>)
  {
    forall p | p in paths && p in was && was[p].File? && t.hash(was[p].data) in keys :: p in fs && fs[p] == was[p]
  }

  /** Changing a path of the group in hand, other than the keeper, leaves every
      other path kept: nothing else leads to it. */
  lemma ChangeKeeps(t: Tools, was: Tree, fs: Tree, after: Tree, paths: seq<Path>, key: Digest, keeper: Path, x: Path,
      p: Path)
    requires GroupInHand(t, was, fs, paths, key, keeper)
    requires x in paths && InGroup(t, was, key, x) && x != keeper
    requires forall q | q != x :: (q in after <==> q in fs) && (q in fs ==> after[q] == fs[q])
    requires p in paths && p != x && Kept(was, fs, p)
    ensures Kept(was, after, p)
  {
    if fs[p] != was[p] {
      var q := Resolve(Parent(p), fs[p].target);
      if t.hash(was[p].data) == key {
        assert q == keeper;
      } else {
        assert q != x;
      }
    }
  }

  lemma LinkKeeps(t: Tools, was: Tree, fs: Tree, paths: seq<Path>, key: Digest, keeper: Path, x: Path, rel: Path)
    requires AllKept(was, fs, paths, None) && GroupInHand(t, was, fs, paths, key, keeper) && NoCollision(t, was, paths)
    requires x in paths && InGroup(t, was, key, x) && x != keeper && x != []
    requires keeper in paths && InGroup(t, was, key, keeper)
    requires Resolve(Parent(x), rel) == keeper
    ensures AllKept(was, fs[x := Symlink(rel)], paths, None)
    ensures GroupInHand(t, was, fs[x := Symlink(rel)], paths, key, keeper)
  {
    var after := fs[x := Symlink(rel)];
    forall p | p in paths ensures Kept(was, after, p) {
      if p != x {
        assert Kept(was, fs, p);
        ChangeKeeps(t, was, fs, after, paths, key, keeper, x, p);
      }
    }
  }

  lemma LossKeeps(t: Tools, was: Tree, fs: Tree, paths: seq<Path>, key: Digest, keeper: Path, x: Path)
    requires AllKept(was, fs, paths, None) && GroupInHand(t, was, fs, paths, key, keeper)
    requires x in paths && InGroup(t, was, key, x) && x != keeper
    ensures AllKept(was, fs - {x}, paths, Some(x))
  {
    forall p | p in paths && p != x ensures Kept(was, fs - {x}, p) {
      assert Kept(was, fs, p);
      ChangeKeeps(t, was, fs, fs - {x}, paths, key, keeper, x, p);
    }
  }

  // ----------------------------------------------------------- the manager

  lemma AllKeptRead(was: Tree, fs: Tree, paths: seq<Path>, lost: Option<Path>)
    requires AllKept(was, fs, paths, lost)
    ensures forall p | p in paths && Some(p) != lost :: p in was && Read(fs, p) == Read(was, p) && Read(fs, p).Some?
  {
    forall p | p in paths && Some(p) != lost ensures p in was && Read(fs, p) == Read(was, p) && Read(fs, p).Some? {
      assert Kept(was, fs, p);
      KeptReadsTheSame(was, fs, p);
    }
  }

  /** Another group stays reduced while the one of `key` is worked on. */
  lemma ReducedElsewhere(t: Tools, was: Tree, fs: Tree, after: Tree, paths: seq<Path>, denied: Denied, keepNew: bool,
      key: Digest, other: Digest)
    requires other != key && Reduced(t, was, fs, paths, denied, keepNew, other) && AllKept(was, fs, paths, None)
    requires SameOutside(t, was, fs, after, key)
    ensures Reduced(t, was, after, paths, denied, keepNew, other)
  {
    forall p | p in paths && InGroup(t, was, other, p) ensures p in fs && p in after && after[p] == fs[p] {
      assert Kept(was, fs, p);
    }
  }

  ghost predicate AllReduced(t: Tools, was: Tree, fs: Tree, paths: seq<Path>, denied: Denied, keepNew: bool,
      keys: set<Digest>)
  {
    forall key | key in keys :: Reduced(t, was, fs, paths, denied, keepNew, key)
  }

  lemma ReducedWith(t: Tools, was: Tree, fs: Tree, after: Tree, paths: seq<Path>, denied: Denied, keepNew: bool,
      key: Digest, keys: set<Digest>)
    requires key !in keys && AllReduced(t, was, fs, paths, denied, keepNew, keys) && AllKept(was, fs, paths, None)
    requires SameOutside(t, was, fs, after, key) && Reduced(t, was, after, paths, denied, keepNew, key)
    ensures AllReduced(t, was, after, paths, denied, keepNew, keys + {key})
  {
    forall other | other in keys ensures Reduced(t, was, after, paths, denied, keepNew, other) {
      ReducedElsewhere(t, was, fs, after, paths, denied, keepNew, key, other);
    }
  }

  /** Nothing has come into being, and nothing but `paths` has changed. */
  ghost predicate OnlyAmong(fs: Tree, after: Tree, paths: seq<Path>)
  {
    after.Keys <= fs.Keys && forall p | p in fs && p !in paths :: p in after && after[p] == fs[p]
  }

  /** Nothing outside the group of `key` has changed. */
  ghost predicate SameOutside(t: Tools, was: Tree, fs: Tree, after: Tree, key: Digest)
  {
    forall p | p in fs && !InGroup(t, was, key, p) :: p in after && after[p] == fs[p]
  }

  /** Every listed path with another date than the keeper's is a link, if it
      could be removed. */
  ghost predicate Relinked(fs: Tree, infos: seq<Info>, date: nat, denied: Denied)
  {
    forall info | info in infos && info.date != date && info.path !in denied.unremovable ::
      info.path in fs && fs[info.path].Symlink?
  }

  lemma RelinkedIsReduced(t: Tools, was: Tree, fs: Tree, paths: seq<Path>, denied: Denied, keepNew: bool,
      key: Digest, infos: seq<Info>, k: nat)
    requires k < |infos| && forall i | 0 <= i < |infos| :: Outranks(keepNew, infos[k].date, infos[i].date)
    requires Complete(t, was, paths, denied.unreadable, key, infos) && Relinked(fs, infos, infos[k].date, denied)
    ensures Reduced(t, was, fs, paths, denied, keepNew, key)
  {
    forall p, q | p in paths && q in paths && p !in denied.unreadable + denied.unremovable && q !in denied.unreadable
                  && InGroup(t, was, key, p) && InGroup(t, was, key, q) && p in fs && fs[p].File?
      ensures Outranks(keepNew, was[p].created, was[q].created)
    {
      assert Info(p, was[p].created) in infos && Info(q, was[q].created) in infos;
    }
  }

  /** A list of its readable files, none of a better date than `infos[k]`: those
      of that date are the ones that nothing supersedes. */
  lemma DatedIsSpared(t: Tools, was: Tree, fs: Tree, paths: seq<Path>, denied: Denied, keepNew: bool,
      key: Digest, infos: seq<Info>, k: nat)
    requires k < |infos| && Entry(t, was, paths, key, infos[k]) && infos[k].path !in denied.unreadable
    requires forall i | 0 <= i < |infos| :: Outranks(keepNew, infos[k].date, infos[i].date)
    requires Complete(t, was, paths, denied.unreadable, key, infos)
    requires Dated(t, was, fs, paths, denied, key, infos[k].date)
    ensures Spared(t, was, fs, paths, denied, keepNew, key)
  {
    forall p | p in paths && InGroup(t, was, key, p) && Exempt(t, was, paths, denied, keepNew, key, p)
      ensures p in fs && fs[p] == was[p]
    {
      if p !in denied.unreadable + denied.unremovable {
        assert Info(p, was[p].created) in infos;
        assert Outranks(keepNew, was[p].created, was[infos[k].path].created);
      }
    }
  }

  /** What may not be read or removed, and what has this date, is as it was. */
  ghost predicate Dated(t: Tools, was: Tree, fs: Tree, paths: seq<Path>, denied: Denied, key: Digest, date: nat)
  {
    forall p | p in paths && InGroup(t, was, key, p)
               && (p in denied.unreadable + denied.unremovable || was[p].created == date) ::
      p in fs && fs[p] == was[p]
  }

  lemma SparedWith(t: Tools, was: Tree, fs: Tree, after: Tree, paths: seq<Path>, denied: Denied, keepNew: bool,
      key: Digest)
    requires AllSpared(t, was, fs, paths, denied, keepNew)
    requires SameOutside(t, was, fs, after, key) && Spared(t, was, after, paths, denied, keepNew, key)
    ensures AllSpared(t, was, after, paths, denied, keepNew)
  {
    forall other ensures Spared(t, was, after, paths, denied, keepNew, other) {
      assert Spared(t, was, fs, paths, denied, keepNew, other);
    }
  }

  lemma DeniedStay(t: Tools, was: Tree, fs: Tree, paths: seq<Path>, denied: Denied, keepNew: bool)
    requires Walkable(was, paths) && AllSpared(t, was, fs, paths, denied, keepNew)
    ensures forall p | p in paths && p in denied.unreadable + denied.unremovable :: p in fs && fs[p] == was[p]
  {
    forall p | p in paths && p in denied.unreadable + denied.unremovable ensures p in fs && fs[p] == was[p] {
      assert Spared(t, was, fs, paths, denied, keepNew, t.hash(was[p].data));
    }
  }

  /** Hashes that tell contents apart make groups of files with one content: a
      readable and removable file ends as a link exactly when another supersedes
      it. */
  lemma LinkedIffSuperseded(t: Tools, was: Tree, fs: Tree, paths: seq<Path>, denied: Denied, keepNew: bool, p: Path)
    requires Walkable(was, paths) && NoCollision(t, was, paths) && p in paths
    requires p !in denied.unreadable + denied.unremovable && Kept(was, fs, p)
    requires Spared(t, was, fs, paths, denied, keepNew, t.hash(was[p].data))
    requires Reduced(t, was, fs, paths, denied, keepNew, t.hash(was[p].data))
    ensures fs[p].Symlink? <==> Superseded(was, paths, denied.unreadable, keepNew, p)
  {
    var key := t.hash(was[p].data);
    forall q | q in paths && q in was && was[q].File? ensures InGroup(t, was, key, q) <==> was[q].data == was[p].data {
    }
    assert Superseded(was, paths, denied.unreadable, keepNew, p) <==>
           !Exempt(t, was, paths, denied, keepNew, key, p);
  }

  lemma Tidied(t: Tools, was: Tree, fs: Tree, paths: seq<Path>, denied: Denied, keepNew: bool, cache: Cache)
    requires Walkable(was, paths) && NoCollision(t, was, paths) && AllKept(was, fs, paths, None)
    requires AllComplete(t, was, paths, denied.unreadable, cache)
    requires AllReduced(t, was, fs, paths, denied, keepNew, cache.Keys)
    requires AllSpared(t, was, fs, paths, denied, keepNew)
    ensures forall p | p in paths && p !in denied.unreadable + denied.unremovable ::
              && p in fs && p in was && was[p].File?
              && (fs[p].Symlink? <==> Superseded(was, paths, denied.unreadable, keepNew, p))
  {
    forall p | p in paths && p !in denied.unreadable + denied.unremovable
      ensures p in fs && p in was && was[p].File?
      ensures fs[p].Symlink? <==> Superseded(was, paths, denied.unreadable, keepNew, p)
    {
      assert Kept(was, fs, p) && t.hash(was[p].data) in cache;
      LinkedIffSuperseded(t, was, fs, paths, denied, keepNew, p);
    }
  }

  class TidyManager {
    const tools: Tools
    const denied: Denied
    var cache: Cache
    var fs: Tree

    constructor (tools: Tools, denied: Denied, fs: Tree)
      ensures this.tools == tools && this.denied == denied && this.fs == fs && cache == map[]
    {
      this.tools, this.denied, this.fs, cache := tools, denied, fs, map[];
    }

    /** Groups the walked files by the hash of their contents; a file that
        cannot be read is passed over. */
    method Collect(paths: seq<Path>)
      requires cache == map[] && Walkable(fs, paths)
      modifies this`cache
      ensures Grouped(tools, fs, paths, cache)
      ensures Legible(cache, denied.unreadable)
      ensures AllComplete(tools, fs, paths, denied.unreadable, cache)
    {
      for i := 0 to |paths|
        invariant Grouped(tools, fs, paths, cache)
        invariant Legible(cache, denied.unreadable)
        invariant AllComplete(tools, fs, paths[..i], denied.unreadable, cache)
      {
        assert paths[..i + 1] == paths[..i] + [paths[i]];
        if paths[i] in denied.unreadable { continue; }
        var node := fs[paths[i]];
        var key := tools.hash(node.data);
        var before := if key in cache then cache[key] else [];
        cache := cache[key := before + [Info(paths[i], node.created)]];
      }
      assert paths[..|paths|] == paths;
    }

    /** Replaces one duplicate. A file that cannot be removed is left; a link
        that cannot be made ends the run, its path gone. */
    method Replace(ghost was: Tree, ghost paths: seq<Path>, ghost key: Digest, info: Info, keeper: Info)
      returns (ok: bool, ghost lost: Option<Path>)
      requires Walkable(was, paths) && NoCollision(tools, was, paths)
      requires Entry(tools, was, paths, key, info) && Entry(tools, was, paths, key, keeper) && info.path != keeper.path
      requires AllKept(was, fs, paths, None) && GroupInHand(tools, was, fs, paths, key, keeper.path)
      modifies this`fs
      ensures AllKept(was, fs, paths, lost)
      ensures if ok then lost == None else lost == Some(info.path) && info.path in denied.unlinkable && info.path !in fs
      ensures ok ==> GroupInHand(tools, was, fs, paths, key, keeper.path)
      ensures ok && info.path !in denied.unremovable ==> info.path in fs && fs[info.path].Symlink?
      ensures forall p | p in old(fs) && p != info.path :: p in fs && fs[p] == old(fs)[p]
      ensures info.path in denied.unremovable ==> fs == old(fs)
      ensures OnlyAmong(old(fs), fs, paths)
    {
      var rel := RelativePath(info.path, keeper.path);
      if info.path in denied.unremovable {
        return true, None;
      }
      if info.path in denied.unlinkable {
        LossKeeps(tools, was, fs, paths, key, keeper.path, info.path);
        fs := fs - {info.path};
        return false, Some(info.path);
      }
      LinkKeeps(tools, was, fs, paths, key, keeper.path, info.path, rel);
      fs := fs[info.path := Symlink(rel)];
      return true, None;
    }

    /** Replaces the duplicates of one group by links to its newest, or oldest,
        file. */
    method TidyGroup(ghost was: Tree, ghost paths: seq<Path>, ghost key: Digest, infos: seq<Info>, keepNew: bool)
      returns (ok: bool, ghost lost: Option<Path>)
      requires infos != [] && Walkable(was, paths) && NoCollision(tools, was, paths)
      requires forall i | 0 <= i < |infos| :: Entry(tools, was, paths, key, infos[i])
      requires forall i | 0 <= i < |infos| :: infos[i].path !in denied.unreadable
      requires Complete(tools, was, paths, denied.unreadable, key, infos)
      requires AllKept(was, fs, paths, None) && Untouched(tools, was, fs, paths, {key})
      modifies this`fs
      ensures AllKept(was, fs, paths, lost)
      ensures if ok then lost == None else lost.Some? && lost.value in denied.unlinkable && lost.value !in fs
      ensures ok ==> Reduced(tools, was, fs, paths, denied, keepNew, key)
      ensures Spared(tools, was, fs, paths, denied, keepNew, key)
      ensures SameOutside(tools, was, old(fs), fs, key)
      ensures OnlyAmong(old(fs), fs, paths)
    {
      var k := FindExtreme(infos, keepNew);
      var keeper := infos[k];
      lost := None;
      for i := 0 to |infos|
        invariant lost == None && AllKept(was, fs, paths, None) && GroupInHand(tools, was, fs, paths, key, keeper.path)
        invariant SameOutside(tools, was, old(fs), fs, key) && OnlyAmong(old(fs), fs, paths)
        invariant Relinked(fs, infos[..i], keeper.date, denied)
        invariant Dated(tools, was, fs, paths, denied, key, keeper.date)
      {
        assert infos[..i + 1] == infos[..i] + [infos[i]];
        if infos[i].date != keeper.date && infos[i].path != keeper.path {
          ok, lost := Replace(was, paths, key, infos[i], keeper);
          if !ok {
            DatedIsSpared(tools, was, fs, paths, denied, keepNew, key, infos, k);
            return;
          }
        }
      }
      assert infos[..|infos|] == infos;
      RelinkedIsReduced(tools, was, fs, paths, denied, keepNew, key, infos, k);
      DatedIsSpared(tools, was, fs, paths, denied, keepNew, key, infos, k);
      ok := true;
    }

    /** A whole run over the files below one root: every path reads the same
        afterwards, but for one whose link could not be made; and when the run
        ends well, every group is reduced to the files of the chosen date. */
    method Tidy(paths: seq<Path>, keepNew: bool) returns (ok: bool, ghost lost: Option<Path>)
      requires cache == map[] && Walkable(fs, paths) && NoCollision(tools, fs, paths)
      modifies this
      ensures if ok then lost == None else lost.Some? && lost.value in denied.unlinkable && lost.value !in fs
      ensures AllKept(old(fs), fs, paths, lost)
      ensures forall p | p in paths && Some(p) != lost ::
                p in old(fs) && Read(fs, p) == Read(old(fs), p) && Read(fs, p).Some?
      ensures ok ==> AllReduced(tools, old(fs), fs, paths, denied, keepNew, cache.Keys)
      ensures AllComplete(tools, old(fs), paths, denied.unreadable, cache)
      ensures ok ==> forall p | p in paths && p !in denied.unreadable + denied.unremovable ::
                p in fs && (fs[p].Symlink? <==> Superseded(old(fs), paths, denied.unreadable, keepNew, p))
      ensures forall p | p in paths && p in denied.unreadable + denied.unremovable :: p in fs && fs[p] == old(fs)[p]
      ensures OnlyAmong(old(fs), fs, paths)
    {
      ghost var was := fs;
      Collect(paths);
      lost := None;
      var todo := cache.Keys;
      ghost var done: set<Digest> := {};
      while todo != {}
        invariant Grouped(tools, was, paths, cache) && AllComplete(tools, was, paths, denied.unreadable, cache)
        invariant todo + done == cache.Keys && todo !! done
        invariant lost == None && AllKept(was, fs, paths, None) && Untouched(tools, was, fs, paths, todo)
        invariant AllReduced(tools, was, fs, paths, denied, keepNew, done) && OnlyAmong(was, fs, paths)
        invariant AllSpared(tools, was, fs, paths, denied, keepNew)
        invariant Legible(cache, denied.unreadable)
        decreases todo
      {
        var key :| key in todo;
        ghost var before := fs;
        todo := todo - {key};
        var infos := cache[key];
        if infos == [] {
          done := done + {key};
          continue;
        }
        ok, lost := TidyGroup(was, paths, key, infos, keepNew);
        SparedWith(tools, was, before, fs, paths, denied, keepNew, key);
        if !ok {
          AllKeptRead(was, fs, paths, lost);
          DeniedStay(tools, was, fs, paths, denied, keepNew);
          return;
        }
        ReducedWith(tools, was, before, fs, paths, denied, keepNew, key, done);
        done := done + {key};
      }
      AllKeptRead(was, fs, paths, None);
      DeniedStay(tools, was, fs, paths, denied, keepNew);
      Tidied(tools, was, fs, paths, denied, keepNew, cache);
      ok := true;
    }
  }
}
