/** The write-back buffer of the mounted filesystem, against plain byte files. */
module WriteBuffer {
  import opened Basics
  import opened Disks

  type Ino = nat

  // --------------------------------------------------------- plain files

  function Resize(c: Bytes, n: nat): (r: Bytes)
    ensures |r| == n
    ensures forall i | 0 <= i < n :: r[i] == if i < |c| then c[i] else 0
  {
    if n <= |c| then c[..n] else c + seq(n - |c|, _ => 0)
  }

  /** The handler: grow if the write ends past the end, then copy. */
  function Written(c: Bytes, offset: nat, data: Bytes): (r: Bytes)
  {
    var grown := Grown(c, offset + |data|);
    grown[..offset] + data + grown[offset + |data|..]
  }

  /** The octet a write leaves at `i`. */
  function OctetAfter(c: Bytes, offset: nat, data: Bytes, i: nat): Byte
  {
    if offset <= i < offset + |data| then data[i - offset] else if i < |c| then c[i] else 0
  }

  /** What a file must hold after a write: the data at its place, the old bytes
      elsewhere, zeros in a gap; a write of nothing changes nothing. */
  function FileWrite(c: Bytes, offset: nat, data: Bytes): (r: Bytes)
  {
    if data == [] then c
    else
      var n := if offset + |data| > |c| then offset + |data| else |c|;
      seq(n, i requires 0 <= i < n => OctetAfter(c, offset, data, i))
  }

  predicate Past(c: Bytes, offset: nat, data: Bytes)
  {
    data == [] && offset > |c|
  }

  function Grown(c: Bytes, end: nat): (r: Bytes)
    ensures |r| == if end > |c| then end else |c|
    ensures forall i | 0 <= i < |r| :: r[i] == if i < |c| then c[i] else 0
  {
    if end > |c| then Resize(c, end) else c
  }

  /** Three parts end to end, read before, in and after the second. */
  lemma ThreeParts(a: Bytes, b: Bytes, c: Bytes, i: nat)
    requires i < |a| + |b| + |c|
    ensures |a + b + c| == |a| + |b| + |c|
    ensures i < |a| ==> (a + b + c)[i] == a[i]
    ensures |a| <= i < |a| + |b| ==> (a + b + c)[i] == b[i - |a|]
    ensures |a| + |b| <= i ==> (a + b + c)[i] == c[i - |a| - |b|]
  {
  }

  lemma WrittenAt(c: Bytes, offset: nat, data: Bytes, i: nat)
    requires i < |c| || i < offset + |data|
    ensures |Written(c, offset, data)| == if offset + |data| > |c| then offset + |data| else |c|
    ensures Written(c, offset, data)[i] == OctetAfter(c, offset, data, i)
  {
    var grown := Grown(c, offset + |data|);
    var head, tail := grown[..offset], grown[offset + |data|..];
    ThreeParts(head, data, tail, i);
    if i < offset {
      assert head[i] == grown[i];
    } else if i >= offset + |data| {
      assert tail[i - offset - |data|] == grown[i];
    }
  }

  /** The handler writes as a file should, but for one case: a write of nothing
      past the end grows the file. */
  lemma WriteIsFaithfulIff(c: Bytes, offset: nat, data: Bytes)
    ensures Written(c, offset, data) == FileWrite(c, offset, data) <==> !Past(c, offset, data)
  {
    if data == [] {
      if offset <= |c| {
        assert c[..offset] + [] + c[offset..] == c;
      } else {
        assert |Written(c, offset, data)| == offset;
      }
    } else {
      WrittenAt(c, offset, data, 0);
      forall i | 0 <= i < |FileWrite(c, offset, data)|
        ensures Written(c, offset, data)[i] == FileWrite(c, offset, data)[i]
      {
        WrittenAt(c, offset, data, i);
      }
    }
  }

  // ------------------------------------------------ buffer and store, as values

  datatype Fs = Fs(buf: map<Ino, Bytes>, store: map<Name, Bytes>)

  datatype Op =
    | Write(ino: Ino, offset: nat, data: Bytes)
    | Truncate(ino: Ino, size: nat)
    | Flush(ino: Ino)
    | Release(ino: Ino, flushCalled: bool)

  ghost predicate Distinct(inode: Name -> Ino, store: map<Name, Bytes>)
  {
    forall a, b | a in store && b in store && inode(a) == inode(b) :: a == b
  }

  predicate HasFile(inode: Name -> Ino, store: map<Name, Bytes>, ino: Ino)
  {
    exists n | n in store :: inode(n) == ino
  }

  /** Every buffer belongs to a stored file, and inode numbers tell files apart. */
  ghost predicate Valid(inode: Name -> Ino, s: Fs)
  {
    Distinct(inode, s.store) && forall i | i in s.buf :: HasFile(inode, s.store, i)
  }

  ghost function NameOf(inode: Name -> Ino, store: map<Name, Bytes>, ino: Ino): (n: Name)
    requires HasFile(inode, store, ino)
    ensures n in store && inode(n) == ino
  {
    var n :| n in store && inode(n) == ino;
    n
  }

  /** What a reader sees: the buffer if there is one, else the store. */
  ghost function Visible(inode: Name -> Ino, s: Fs, ino: Ino): Bytes
    requires HasFile(inode, s.store, ino)
  {
    if ino in s.buf then s.buf[ino] else s.store[NameOf(inode, s.store, ino)]
  }

  /** The state after an operation that met no error. */
  ghost function After(inode: Name -> Ino, s: Fs, op: Op): Fs
    requires HasFile(inode, s.store, op.ino)
  {
    var name := NameOf(inode, s.store, op.ino);
    match op
    case Write(ino, offset, data) => s.(buf := s.buf[ino := Written(Visible(inode, s, ino), offset, data)])
    case Truncate(ino, size) =>
      var cut := Resize(Visible(inode, s, ino), size);
      Fs(if ino in s.buf then s.buf[ino := cut] else s.buf, s.store[name := cut])
    case Flush(ino) => Settled(s, ino, name)
    case Release(ino, flushCalled) => if flushCalled then s.(buf := s.buf - {ino}) else Settled(s, ino, name)
  }

  /** The buffer written through to the store. */
  function Settled(s: Fs, ino: Ino, name: Name): Fs
  {
    if ino in s.buf then Fs(s.buf - {ino}, s.store[name := s.buf[ino]]) else s
  }

  /** The plain file's side of an operation. */
  function FileAfter(c: Bytes, op: Op): Bytes
  {
    match op
    case Write(_, offset, data) => FileWrite(c, offset, data)
    case Truncate(_, size) => Resize(c, size)
    case Flush(_) => c
    case Release(_, _) => c
  }

  lemma NamesAreStable(inode: Name -> Ino, s: Fs, op: Op, ino: Ino)
    requires Valid(inode, s) && HasFile(inode, s.store, op.ino)
    ensures var t := After(inode, s, op);
            && t.store.Keys == s.store.Keys && Valid(inode, t)
            && (HasFile(inode, s.store, ino) ==>
                  HasFile(inode, t.store, ino) && NameOf(inode, t.store, ino) == NameOf(inode, s.store, ino))
  {
    var t := After(inode, s, op);
    assert t.store.Keys == s.store.Keys;
    forall n | n in s.store ensures n in t.store { assert n in s.store.Keys; }
    forall n | n in t.store ensures n in s.store { assert n in t.store.Keys; }
    forall i | HasFile(inode, s.store, i) ensures HasFile(inode, t.store, i) {
      var n := NameOf(inode, s.store, i);
      assert n in t.store;
    }
  }

  /** A release after a flush drops the buffer: nothing is lost exactly when
      there is no buffer or it is what the store holds. */
  ghost predicate Drops(inode: Name -> Ino, s: Fs, op: Op)
    requires HasFile(inode, s.store, op.ino)
  {
    op.Release? && op.flushCalled && op.ino in s.buf && s.buf[op.ino] != s.store[NameOf(inode, s.store, op.ino)]
  }

  /** The other case in which readers do not see what a plain file would hold. */
  ghost predicate Strays(inode: Name -> Ino, s: Fs, op: Op)
    requires HasFile(inode, s.store, op.ino)
  {
    op.Write? && Past(Visible(inode, s, op.ino), op.offset, op.data)
  }

  /** One operation does to what readers see exactly what it does to a plain
      file if and only if it is neither of the two cases. */
  lemma StepIsFileStepIff(inode: Name -> Ino, s: Fs, op: Op)
    requires Valid(inode, s) && HasFile(inode, s.store, op.ino)
    ensures var t := After(inode, s, op);
            && Valid(inode, t) && HasFile(inode, t.store, op.ino)
            && (Visible(inode, t, op.ino) == FileAfter(Visible(inode, s, op.ino), op)
                <==> !Drops(inode, s, op) && !Strays(inode, s, op))
  {
    NamesAreStable(inode, s, op, op.ino);
    if op.Write? { WriteIsFaithfulIff(Visible(inode, s, op.ino), op.offset, op.data); }
  }

  lemma OthersUntouched(inode: Name -> Ino, s: Fs, op: Op, ino: Ino)
    requires Valid(inode, s) && HasFile(inode, s.store, op.ino) && HasFile(inode, s.store, ino) && ino != op.ino
    ensures var t := After(inode, s, op);
            HasFile(inode, t.store, ino) && Visible(inode, t, ino) == Visible(inode, s, ino)
  {
    NamesAreStable(inode, s, op, ino);
    NamesAreStable(inode, s, op, op.ino);
  }

  /** After a flush the store itself holds what readers saw. */
  lemma FlushStores(inode: Name -> Ino, s: Fs, ino: Ino)
    requires Valid(inode, s) && HasFile(inode, s.store, ino)
    ensures var t := After(inode, s, Flush(ino));
            && ino !in t.buf && HasFile(inode, t.store, ino)
            && t.store[NameOf(inode, t.store, ino)] == Visible(inode, s, ino)
  {
    NamesAreStable(inode, s, Flush(ino), ino);
  }

  // ------------------------------------------------------------ whole runs

  /** Whether a write to `ino` has not been followed by a flush or a release. */
  predicate Dirty(ops: seq<Op>, ino: Ino)
  {
    if ops == [] then false
    else
      var op := ops[|ops| - 1];
      if op.ino != ino || op.Truncate? then Dirty(ops[..|ops| - 1], ino) else op.Write?
  }

  /** Writes write something, and no release that counts on a flush comes with
      a write still pending. */
  predicate Orderly(ops: seq<Op>)
  {
    && (forall i | 0 <= i < |ops| && ops[i].Write? :: ops[i].data != [])
    && (forall i | 0 <= i < |ops| && ops[i].Release? && ops[i].flushCalled :: !Dirty(ops[..i], ops[i].ino))
  }

  function FileAfterAll(c: Bytes, ops: seq<Op>, ino: Ino): Bytes
  {
    if ops == [] then c
    else
      var before := FileAfterAll(c, ops[..|ops| - 1], ino);
      var op := ops[|ops| - 1];
      if op.ino == ino then FileAfter(before, op) else before
  }

  ghost predicate IsRun(inode: Name -> Ino, states: seq<Fs>, ops: seq<Op>)
  {
    && |states| == |ops| + 1
    && forall i | 0 <= i < |ops| ::
         HasFile(inode, states[i].store, ops[i].ino) && states[i + 1] == After(inode, states[i], ops[i])
  }

  /** Over every orderly run from an empty buffer, what a reader sees of any
      file is that file under the same operations. */
  lemma {:induction false} RunIsFileRun(inode: Name -> Ino, states: seq<Fs>, ops: seq<Op>, ino: Ino)
    requires IsRun(inode, states, ops) && Orderly(ops)
    requires Valid(inode, states[0]) && states[0].buf == map[] && HasFile(inode, states[0].store, ino)
    ensures var last := states[|ops|];
            && Valid(inode, last) && HasFile(inode, last.store, ino)
            && (ino in last.buf <==> Dirty(ops, ino))
            && Visible(inode, last, ino) == FileAfterAll(Visible(inode, states[0], ino), ops, ino)
    decreases |ops|
  {
    if ops != [] {
      var n := |ops| - 1;
      var front, op := ops[..n], ops[n];
      FrontRun(inode, states, ops);
      RunIsFileRun(inode, states[..n + 1], front, ino);
      assert states[..n + 1][n] == states[n];
      RunStep(inode, states[n], op, front, ino);
    }
  }

  lemma FrontRun(inode: Name -> Ino, states: seq<Fs>, ops: seq<Op>)
    requires IsRun(inode, states, ops) && Orderly(ops) && ops != []
    ensures IsRun(inode, states[..|ops|], ops[..|ops| - 1]) && Orderly(ops[..|ops| - 1])
  {
    var n := |ops| - 1;
    assert forall i | 0 <= i < n :: ops[..n][..i] == ops[..i];
  }

  lemma RunStep(inode: Name -> Ino, s: Fs, op: Op, front: seq<Op>, ino: Ino)
    requires Valid(inode, s) && HasFile(inode, s.store, op.ino) && HasFile(inode, s.store, ino)
    requires ino in s.buf <==> Dirty(front, ino)
    requires op.Release? && op.flushCalled ==> !Dirty(front, op.ino)
    requires op.Write? ==> op.data != []
    ensures var t := After(inode, s, op);
            && Valid(inode, t) && HasFile(inode, t.store, ino)
            && (ino in t.buf <==> Dirty(front + [op], ino))
            && Visible(inode, t, ino) == if op.ino == ino then FileAfter(Visible(inode, s, ino), op)
                else Visible(inode, s, ino)
  {
    assert (front + [op])[..|front|] == front;
    StepIsFileStepIff(inode, s, op);
    if op.ino != ino { OthersUntouched(inode, s, op, ino); }
  }

  // ------------------------------------------------------------ the handlers

  function Slice(c: Bytes, offset: nat, size: nat): Bytes
  {
    if offset >= |c| then []
    else if offset + size < |c| then c[offset..offset + size]
    else c[offset..]
  }

  class LinaFs {
    const inode: Name -> Ino
    var buf: map<Ino, Bytes>
    var store: map<Name, Bytes>

    constructor (inode: Name -> Ino, store: map<Name, Bytes>)
      ensures this.inode == inode && this.store == store && buf == map[]
    {
      this.inode, this.store, buf := inode, store, map[];
    }

    ghost function Now(): Fs
      reads this
    {
      Fs(buf, store)
    }

    method FindName(ino: Ino) returns (name: Option<Name>)
      ensures name.None? <==> !HasFile(inode, store, ino)
      ensures name.Some? ==> name.value in store && inode(name.value) == ino
      ensures name.Some? && Distinct(inode, store) ==> name.value == NameOf(inode, store, ino)
    {
      if exists n | n in store :: inode(n) == ino {
        var n :| n in store && inode(n) == ino;
        return Some(n);
      }
      return None;
    }

    /** A read of the store, which may fail. */
    method GetBinaryData(name: Name) returns (r: Option<Bytes>)
      ensures r.Some? ==> name in store && r.value == store[name]
    {
      if * { return None; }
      return if name in store then Some(store[name]) else None;
    }

    /** A put with cover, which may fail and then changes nothing. */
    method PutBinaryData(name: Name, data: Bytes) returns (ok: bool)
      modifies this`store
      ensures store == if ok then old(store)[name := data] else old(store)
    {
      if * { return false; }
      store := store[name := data];
      return true;
    }

    /** Octet by octet what is visible from `offset` on, `size` of them or as
        many as there are. A buffered file always replies, and a file that is
        not there never does. */
    method Read(ino: Ino, offset: nat, size: nat) returns (reply: Option<Bytes>)
      requires Valid(inode, Now())
      ensures reply.Some? ==> HasFile(inode, store, ino)
      ensures ino in buf ==> reply.Some?
      ensures reply.Some? ==>
                var c := Visible(inode, Now(), ino);
                && |reply.value| == (if offset >= |c| then 0 else if size < |c| - offset then size else |c| - offset)
                && forall i | 0 <= i < |reply.value| :: reply.value[i] == c[offset + i]
    {
      if ino in buf {
        return Some(Slice(buf[ino], offset, size));
      }
      var name := FindName(ino);
      if name.None? { return None; }
      var data := GetBinaryData(name.value);
      if data.None? { return None; }
      return Some(Slice(data.value, offset, size));
    }

    /** A failed write changes nothing. */
    method WriteAt(ino: Ino, offset: nat, data: Bytes) returns (ok: bool)
      requires Valid(inode, Now())
      modifies this`buf
      ensures ok ==> HasFile(inode, store, ino) && Now() == After(inode, old(Now()), Write(ino, offset, data))
      ensures ok ==>
                var was, end := old(Visible(inode, Now(), ino)), offset + |data|;
                && buf == old(buf)[ino := Visible(inode, Now(), ino)] && store == old(store)
                && |Visible(inode, Now(), ino)| == (if |was| < end then end else |was|)
                && forall i | 0 <= i < |Visible(inode, Now(), ino)| ::
                     Visible(inode, Now(), ino)[i] ==
                     if offset <= i < end then data[i - offset] else if i < |was| then was[i] else 0
      ensures !ok ==> Now() == old(Now())
    {
      var entry;
      if ino in buf {
        entry := buf[ino];
      } else {
        var name := FindName(ino);
        if name.None? { return false; }
        var stored := GetBinaryData(name.value);
        if stored.None? { return false; }
        entry := stored.value;
      }
      if offset + |data| > |entry| {
        entry := Resize(entry, offset + |data|);
      }
      entry := entry[..offset] + data + entry[offset + |data|..];
      buf := buf[ino := entry];
      return true;
    }

    /** A truncation that fails in the store has still cut the buffer. */
    method SetSize(ino: Ino, size: nat) returns (ok: bool)
      requires Valid(inode, Now())
      modifies this
      ensures ok ==> HasFile(inode, old(store), ino) && Now() == After(inode, old(Now()), Truncate(ino, size))
      ensures ok ==> store.Keys == old(store).Keys && buf.Keys == old(buf).Keys
      ensures ok ==> forall n | n in store && inode(n) == ino ::
                && store[n] == Visible(inode, Now(), ino) && |store[n]| == size
                && var was := old(Visible(inode, Now(), ino));
                   forall i | 0 <= i < size :: store[n][i] == if i < |was| then was[i] else 0
      ensures !ok ==> store == old(store)
      ensures !ok ==> buf == old(buf) || (ino in old(buf) && buf == old(buf)[ino := Resize(old(buf)[ino], size)])
    {
      var name := FindName(ino);
      if name.None? { return false; }
      var cut;
      if ino in buf {
        cut := Resize(buf[ino], size);
        buf := buf[ino := cut];
      } else {
        var stored := GetBinaryData(name.value);
        if stored.None? { return false; }
        cut := Resize(stored.value, size);
      }
      ok := PutBinaryData(name.value, cut);
    }

    /** Flush, fsync, and a release without a flush. The buffer is gone even
        when its file is or when the store refuses it: then the pending writes
        are lost. */
    method WriteBack(ino: Ino) returns (ok: bool)
      requires Distinct(inode, store)
      modifies this
      ensures ok && HasFile(inode, old(store), ino) ==> Now() == After(inode, old(Now()), Flush(ino))
      ensures ok && !HasFile(inode, old(store), ino) ==> ino !in old(buf) && Now() == old(Now())
      ensures ok && ino !in old(buf) ==> Now() == old(Now())
      ensures ok && ino in old(buf) ==> buf == old(buf) - {ino} && store.Keys == old(store).Keys
      ensures ok && ino in old(buf) ==>
                forall n | n in store :: store[n] == if inode(n) == ino then old(buf)[ino] else old(store)[n]
      ensures !ok ==> ino in old(buf) && Now() == old(Now()).(buf := old(buf) - {ino})
    {
      if ino !in buf { return true; }
      var data := buf[ino];
      buf := buf - {ino};
      var name := FindName(ino);
      if name.None? { return false; }
      ok := PutBinaryData(name.value, data);
    }

    method ReleaseFile(ino: Ino, flushCalled: bool) returns (ok: bool)
      requires Distinct(inode, store)
      modifies this
      ensures ok && HasFile(inode, old(store), ino) ==> Now() == After(inode, old(Now()), Release(ino, flushCalled))
      ensures ok && !HasFile(inode, old(store), ino) ==>
                Now() == old(Now()).(buf := old(buf) - {ino}) && (flushCalled || ino !in old(buf))
      ensures flushCalled ==> ok && buf == old(buf) - {ino} && store == old(store)
      ensures !flushCalled && ok && ino in old(buf) ==> buf == old(buf) - {ino} && store.Keys == old(store).Keys
      ensures !flushCalled && ok && ino in old(buf) ==>
                forall n | n in store :: store[n] == if inode(n) == ino then old(buf)[ino] else old(store)[n]
      ensures !ok ==> !flushCalled && ino in old(buf) && Now() == old(Now()).(buf := old(buf) - {ino})
    {
      if flushCalled {
        buf := buf - {ino};
        return true;
      }
      ok := WriteBack(ino);
    }
  }
}
