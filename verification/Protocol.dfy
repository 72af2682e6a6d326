/** The LiNa message: its checksum, its wire form, and the parser that reads it
    from a stream in arbitrary pieces. */
module Protocol {
  import opened Basics
  import opened Crc

  datatype Message = Message(flags: bv8, ilen: bv8, identifier: Octets, dlen: bv32, checksum: bv32, data: Octets)

  datatype Parsed = Accepted(message: Message) | Disconnected | Rejected

  // -------------------------------------------------- little-endian words

  function Le32(x: bv32): (r: Octets)
    ensures |r| == 4
  {
    [Low(x), Low(x >> 8), Low(x >> 16), Low(x >> 24)]
  }

  function FromLe32(b: Octets): bv32
    requires |b| == 4
  {
    (b[0] as bv32) | ((b[1] as bv32) << 8) | ((b[2] as bv32) << 16) | ((b[3] as bv32) << 24)
  }

  lemma Bytes32(x: bv32)
    ensures (x & 0xFF) | (((x >> 8) & 0xFF) << 8) | (((x >> 16) & 0xFF) << 16) | (((x >> 24) & 0xFF) << 24) == x
  {
  }

  lemma Le32RoundTrip(x: bv32)
    ensures FromLe32(Le32(x)) == x
  {
    LowWord(x);
    LowWord(x >> 8);
    LowWord(x >> 16);
    LowWord(x >> 24);
    Bytes32(x);
  }

  lemma Words32(a: bv8, b: bv8, c: bv8, d: bv8)
    ensures var x := (a as bv32) | ((b as bv32) << 8) | ((c as bv32) << 16) | ((d as bv32) << 24);
            (x & 0xFF) as bv8 == a && ((x >> 8) & 0xFF) as bv8 == b && ((x >> 16) & 0xFF) as bv8 == c
                && ((x >> 24) & 0xFF) as bv8 == d
  {
  }

  lemma FromLe32RoundTrip(b: Octets)
    requires |b| == 4
    ensures Le32(FromLe32(b)) == b
  {
    Words32(b[0], b[1], b[2], b[3]);
  }

  // -------------------------------------------------------- the checksum

  /** The hasher takes the length, the identifier, the data length and the
      data, in four updates. */
  function Digest(m: Message): bv32
  {
    Checksum(Joined([[m.ilen], m.identifier, Le32(m.dlen), m.data]))
  }

  predicate Verify(m: Message)
  {
    m.checksum == Digest(m)
  }

  lemma JoinedFour(a: Octets, b: Octets, c: Octets, d: Octets)
    ensures Joined([a, b, c, d]) == a + b + c + d
  {
    var all := [a, b, c, d];
    assert all[..3] == [a, b, c] && [a, b, c][..2] == [a, b] && [a, b][..1] == [a] && [a][..0] == [];
    assert Joined([a]) == [] + a == a;
    assert Joined([a, b]) == a + b;
  }

  /** The same octets in two places: a change of up to four of them. */
  predicate BurstChange(a: Octets, b: Octets, from: nat, len: nat)
  {
    && |a| == |b| && a != b && len <= 4 && from + len <= |a|
    && a[..from] == b[..from] && a[from + len..] == b[from + len..]
  }

  lemma BurstChangesChecksum(pre: Octets, a: Octets, b: Octets, from: nat, len: nat, post: Octets)
    requires BurstChange(a, b, from, len)
    ensures Checksum(pre + a + post) != Checksum(pre + b + post)
  {
    var w, x := a[from..from + len], b[from..from + len];
    var head, tail := pre + a[..from], a[from + len..] + post;
    Regrouped(pre, a, from, len, post);
    Regrouped(pre, b, from, len, post);
    assert w != x by { Parted(a, b, from, len); }
    BurstDetected(head, w, x, tail);
  }

  lemma Regrouped<T>(pre: seq<T>, a: seq<T>, from: nat, len: nat, post: seq<T>)
    requires from + len <= |a|
    ensures pre + a + post == (pre + a[..from]) + (a[from..from + len] + (a[from + len..] + post))
  {
    InThree(a, from, len);
  }

  lemma Parted<T>(a: seq<T>, b: seq<T>, from: nat, len: nat)
    requires from + len <= |a| == |b| && a != b && a[..from] == b[..from] && a[from + len..] == b[from + len..]
    ensures a[from..from + len] != b[from..from + len]
  {
    InThree(a, from, len);
    InThree(b, from, len);
  }

  lemma InThree<T>(a: seq<T>, from: nat, len: nat)
    requires from + len <= |a|
    ensures a == a[..from] + a[from..from + len] + a[from + len..]
  {
  }

  /** A message whose identifier changed within four consecutive octets, its
      checksum field left alone, no longer verifies. */
  lemma IdentifierChangeDetected(m: Message, identifier: Octets, from: nat, len: nat)
    requires Verify(m) && BurstChange(m.identifier, identifier, from, len)
    ensures !Verify(m.(identifier := identifier))
  {
    var n := m.(identifier := identifier);
    JoinedFour([m.ilen], m.identifier, Le32(m.dlen), m.data);
    JoinedFour([n.ilen], n.identifier, Le32(n.dlen), n.data);
    var pre, post := [m.ilen], Le32(m.dlen) + m.data;
    assert pre + m.identifier + Le32(m.dlen) + m.data == pre + m.identifier + post;
    assert pre + identifier + Le32(m.dlen) + m.data == pre + identifier + post;
    BurstChangesChecksum(pre, m.identifier, identifier, from, len, post);
  }

  /** The same for the data. */
  lemma DataChangeDetected(m: Message, data: Octets, from: nat, len: nat)
    requires Verify(m) && BurstChange(m.data, data, from, len)
    ensures !Verify(m.(data := data))
  {
    var n := m.(data := data);
    JoinedFour([m.ilen], m.identifier, Le32(m.dlen), m.data);
    JoinedFour([n.ilen], n.identifier, Le32(n.dlen), n.data);
    var pre := [m.ilen] + m.identifier + Le32(m.dlen);
    assert pre + m.data + [] == pre + m.data && pre + data + [] == pre + data;
    BurstChangesChecksum(pre, m.data, data, from, len, []);
  }

  /** And for the two length fields. */
  lemma IdentifierLengthChangeDetected(m: Message, ilen: bv8)
    requires Verify(m) && ilen != m.ilen
    ensures !Verify(m.(ilen := ilen))
  {
    var post := m.identifier + Le32(m.dlen) + m.data;
    JoinedFour([m.ilen], m.identifier, Le32(m.dlen), m.data);
    JoinedFour([ilen], m.identifier, Le32(m.dlen), m.data);
    AllAfter([m.ilen], m.identifier, Le32(m.dlen), m.data);
    AllAfter([ilen], m.identifier, Le32(m.dlen), m.data);
    BurstChangesChecksum([], [m.ilen], [ilen], 0, 1, post);
  }

  lemma DataLengthChangeDetected(m: Message, dlen: bv32)
    requires Verify(m) && dlen != m.dlen
    ensures !Verify(m.(dlen := dlen))
  {
    JoinedFour([m.ilen], m.identifier, Le32(m.dlen), m.data);
    JoinedFour([m.ilen], m.identifier, Le32(dlen), m.data);
    assert Le32(dlen) != Le32(m.dlen) by {
      Le32RoundTrip(dlen);
      Le32RoundTrip(m.dlen);
    }
    BurstChangesChecksum([m.ilen] + m.identifier, Le32(m.dlen), Le32(dlen), 0, 4, m.data);
  }

  lemma AllAfter<T>(a: seq<T>, b: seq<T>, c: seq<T>, d: seq<T>)
    ensures a + b + c + d == [] + a + (b + c + d)
  {
  }

  /** Octet `k` of a word, the lowest first. */
  predicate WordLies(s: Octets, at: nat, word: bv32)
  {
    && at + 4 <= |s|
    && s[at] == (word & 0xFF) as bv8 && s[at + 1] == ((word >> 8) & 0xFF) as bv8
    && s[at + 2] == ((word >> 16) & 0xFF) as bv8 && s[at + 3] == ((word >> 24) & 0xFF) as bv8
  }

  lemma Le32Lies(s: Octets, at: nat, word: bv32)
    requires at + 4 <= |s|
    ensures WordLies(s, at, word) <==> s[at..at + 4] == Le32(word)
  {
    var part := s[at..at + 4];
    assert part[0] == s[at] && part[1] == s[at + 1] && part[2] == s[at + 2] && part[3] == s[at + 3];
  }

  /** The octets that the checksum is taken of: the identifier length at 0, the
      identifier at 1, then the data length, then the data. */
  predicate Covered(m: Message, s: Octets)
  {
    var n := |m.identifier|;
    && |s| == 5 + n + |m.data| && s[0] == m.ilen && s[1..1 + n] == m.identifier
    && WordLies(s, 1 + n, m.dlen) && s[5 + n..] == m.data
  }

  lemma VerifiesIff(m: Message, s: Octets)
    requires Covered(m, s)
    ensures Verify(m) <==> m.checksum == Checksum(s)
  {
    var n := |m.identifier|;
    JoinedFour([m.ilen], m.identifier, Le32(m.dlen), m.data);
    Le32Lies(s, 1 + n, m.dlen);
    assert s == s[..1] + s[1..1 + n] + s[1 + n..5 + n] + s[5 + n..];
    assert s[..1] == [m.ilen];
  }

  // -------------------------------------------------------- the wire form

  function Serialize(m: Message): Octets
  {
    [m.flags, m.ilen] + m.identifier + Le32(m.dlen) + Le32(m.checksum) + m.data
  }

  predicate WellFormed(m: Message, limit: nat)
  {
    |m.identifier| == m.ilen as int && |m.data| == m.dlen as int && m.dlen as int <= limit && Verify(m)
  }

  /** Where the fields of a stream lie. */
  function IdLen(s: Octets): nat requires |s| >= 2 { s[1] as int }

  predicate HasLength(s: Octets) { |s| >= 2 && |s| >= 6 + IdLen(s) }

  predicate HasHeader(s: Octets) { HasLength(s) && |s| >= 10 + IdLen(s) }

  function LengthAt(s: Octets): bv32
    requires HasLength(s)
  {
    WordAt(s, 2 + IdLen(s))
  }

  function WordAt(s: Octets, i: nat): bv32
    requires i + 4 <= |s|
  {
    FromLe32(s[i..i + 4])
  }

  function Body(s: Octets): Octets
    requires HasHeader(s)
  {
    s[10 + IdLen(s)..]
  }

  function MessageAt(s: Octets, data: Octets): Message
    requires HasHeader(s)
  {
    var n := IdLen(s);
    Message(s[0], s[1], s[2..2 + n], LengthAt(s), WordAt(s, 6 + n), data)
  }

  /** What a stream that ends after `s` parses as, when the reads of the data
      took `k` octets in all. */
  function Decoded(s: Octets, limit: nat, k: nat): Parsed
  {
    if !HasLength(s) then Disconnected
    else if LengthAt(s) as int > limit then Rejected
    else if !HasHeader(s) then Disconnected
    else if LengthAt(s) as int > 0 && |Body(s)| < LengthAt(s) as int then Disconnected
    else Judged(MessageAt(s, DataTaken(s, k)))
  }

  function Judged(m: Message): Parsed
  {
    if Verify(m) then Accepted(m) else Rejected
  }

  function DataTaken(s: Octets, k: nat): Octets
    requires HasHeader(s)
  {
    if LengthAt(s) as int > 0 && k <= |Body(s)| then Body(s)[..k] else []
  }

  /** How many octets the reads of the data may take: at least the announced
      length, at most what is there. */
  predicate Taken(s: Octets, k: nat)
  {
    HasHeader(s) && LengthAt(s) as int > 0 && |Body(s)| >= LengthAt(s) as int ==> LengthAt(s) as int <= k <= |Body(s)|
  }

  /** The stream holds no octets past the announced data. */
  predicate Single(s: Octets)
  {
    HasHeader(s) && LengthAt(s) as int > 0 ==> |Body(s)| <= LengthAt(s) as int
  }

  /** On a stream with a single message the chunking of the reads is irrelevant. */
  lemma ChunkingIrrelevant(s: Octets, limit: nat, k: nat, l: nat)
    requires Single(s) && Taken(s, k) && Taken(s, l)
    ensures Decoded(s, limit, k) == Decoded(s, limit, l)
  {
    if HasHeader(s) && LengthAt(s) as int > 0 && |Body(s)| >= LengthAt(s) as int {
      assert k == l;
    } else if HasHeader(s) && !(LengthAt(s) as int > 0) {
      assert DataTaken(s, k) == DataTaken(s, l);
    }
  }

  /** Where the parts of a concatenation lie. */
  lemma PartsLie<T>(a: seq<T>, b: seq<T>, c: seq<T>, d: seq<T>, e: seq<T>, s: seq<T>)
    requires |a| == 2 && |c| == 4 && |d| == 4 && s == a + b + c + d + e
    ensures var n := |b|;
            && |s| == 10 + n + |e| && s[0] == a[0] && s[1] == a[1]
            && s[2..2 + n] == b && s[2 + n..6 + n] == c && s[6 + n..10 + n] == d && s[10 + n..] == e
  {
    var n := |b|;
    assert s[0] == a[0] && s[1] == a[1];
    assert s[2..2 + n] == b;
    assert s[2 + n..6 + n] == c;
    assert s[6 + n..10 + n] == d;
    assert s[10 + n..] == e;
  }

  lemma PartsMake<T>(s: seq<T>, n: nat)
    requires |s| >= 10 + n
    ensures s == s[..2] + s[2..2 + n] + s[2 + n..6 + n] + s[6 + n..10 + n] + s[10 + n..]
  {
  }

  /** The octets of a message on the wire: flags at 0, identifier length at 1,
      the identifier, the data length and the checksum as words, the data. */
  predicate OnWire(m: Message, s: Octets)
  {
    var n := |m.identifier|;
    && |s| == 10 + n + |m.data| && s[0] == m.flags && s[1] == m.ilen && s[2..2 + n] == m.identifier
    && WordLies(s, 2 + n, m.dlen) && WordLies(s, 6 + n, m.checksum) && s[10 + n..] == m.data
  }

  lemma SerializedOnWire(m: Message)
    ensures OnWire(m, Serialize(m))
  {
    var s, n := Serialize(m), |m.identifier|;
    PartsLie([m.flags, m.ilen], m.identifier, Le32(m.dlen), Le32(m.checksum), m.data, s);
    Le32Lies(s, 2 + n, m.dlen);
    Le32Lies(s, 6 + n, m.checksum);
  }

  /** Where the fields of a message lie in its serialisation. */
  lemma SerializedParts(m: Message)
    requires |m.identifier| == m.ilen as int
    ensures var s, n := Serialize(m), |m.identifier|;
            && |s| == 10 + n + |m.data| && s[0] == m.flags && s[1] == m.ilen && s[2..2 + n] == m.identifier
            && s[2 + n..6 + n] == Le32(m.dlen) && s[6 + n..10 + n] == Le32(m.checksum) && s[10 + n..] == m.data
  {
    PartsLie([m.flags, m.ilen], m.identifier, Le32(m.dlen), Le32(m.checksum), m.data, Serialize(m));
  }

  /** A message of the right identifier length reads back field by field. */
  lemma SerializedFields(m: Message)
    requires |m.identifier| == m.ilen as int
    ensures var s := Serialize(m);
            HasHeader(s) && Body(s) == m.data && LengthAt(s) == m.dlen && MessageAt(s, m.data) == m
  {
    SerializedParts(m);
    SerializedWords(m);
  }

  lemma SerializedWords(m: Message)
    requires |m.identifier| == m.ilen as int
    ensures var s, n := Serialize(m), |m.identifier|;
            |s| >= 10 + n && WordAt(s, 2 + n) == m.dlen && WordAt(s, 6 + n) == m.checksum
  {
    SerializedParts(m);
    WordRoundTrip(Serialize(m), 2 + |m.identifier|, m.dlen);
    WordRoundTrip(Serialize(m), 6 + |m.identifier|, m.checksum);
  }

  lemma WordRoundTrip(s: Octets, i: nat, word: bv32)
    requires i + 4 <= |s| && s[i..i + 4] == Le32(word)
    ensures WordAt(s, i) == word
  {
    Le32RoundTrip(word);
  }

  lemma TakenAll(m: Message, k: nat)
    requires |m.identifier| == m.ilen as int && |m.data| == m.dlen as int && Taken(Serialize(m), k)
    ensures Single(Serialize(m)) && (m.dlen as int > 0 ==> k == |m.data|) && (!(m.dlen as int > 0) ==> m.data == [])
  {
    SerializedFields(m);
  }

  /** Serialising and parsing give the message back, however the reads fall. */
  lemma FramingRoundTrip(m: Message, limit: nat, k: nat)
    requires WellFormed(m, limit) && Taken(Serialize(m), k)
    ensures Single(Serialize(m)) && Decoded(Serialize(m), limit, k) == Accepted(m)
  {
    SerializedFields(m);
    TakenAll(m, k);
    WholeSlice(m.data);
    assert DataTaken(Serialize(m), k) == m.data;
    DecodedWhole(Serialize(m), limit, k, m);
  }

  /** A well-formed message cut short anywhere is a lost connection. */
  lemma TruncatedIsDisconnected(m: Message, limit: nat, j: nat, k: nat)
    requires WellFormed(m, limit) && j < |Serialize(m)|
    ensures Decoded(Serialize(m)[..j], limit, k) == Disconnected
  {
    var s, n := Serialize(m), |m.identifier|;
    SerializedParts(m);
    SerializedFields(m);
    if j >= 2 { CutShort(s, n, j); }
  }

  lemma CutShort(s: Octets, n: nat, j: nat)
    requires 2 <= j < |s| && |s| >= 10 + n && s[1] as int == n
    ensures s[..j][1] == s[1]
    ensures HasLength(s[..j]) ==> LengthAt(s[..j]) == LengthAt(s)
    ensures HasHeader(s[..j]) ==> |Body(s[..j])| < |Body(s)|
  {
    if 6 + n <= j { SliceOfFront(s, j, 2 + n, 6 + n); }
  }

  lemma SliceOfFront<T>(s: seq<T>, j: nat, a: nat, b: nat)
    requires a <= b <= j <= |s|
    ensures s[..j][a..b] == s[a..b]
  {
  }

  /** A message that announces more than the limit is refused as soon as its
      length is there. */
  lemma OversizedIsRejected(m: Message, limit: nat, j: nat, k: nat)
    requires |m.identifier| == m.ilen as int && m.dlen as int > limit
    requires 6 + |m.identifier| <= j <= |Serialize(m)|
    ensures Decoded(Serialize(m)[..j], limit, k) == Rejected
  {
    var s, n := Serialize(m), |m.identifier|;
    SerializedParts(m);
    SerializedFields(m);
    SliceOfFront(s, j, 2 + n, 6 + n);
    assert s[..j][1] == s[1];
  }

  /** One within the limit whose checksum is wrong is refused once all of it is
      there. */
  lemma CorruptIsRejected(m: Message, limit: nat, k: nat)
    requires |m.identifier| == m.ilen as int && |m.data| == m.dlen as int && m.dlen as int <= limit
    requires !Verify(m) && Taken(Serialize(m), k)
    ensures Decoded(Serialize(m), limit, k) == Rejected
  {
    SerializedFields(m);
    TakenAll(m, k);
    WholeSlice(m.data);
    assert DataTaken(Serialize(m), k) == m.data;
  }

  lemma DecodedWhole(s: Octets, limit: nat, k: nat, m: Message)
    requires HasHeader(s) && LengthAt(s) as int <= limit && LengthAt(s) as int <= |Body(s)|
    requires MessageAt(s, DataTaken(s, k)) == m && Verify(m)
    ensures Decoded(s, limit, k) == Accepted(m)
  {
  }

  lemma WholeSlice<T>(s: seq<T>)
    ensures s[..|s|] == s
  {
  }

  /** A message cut out of a stream serialises to that part of the stream. */
  lemma MessageAtSerializes(s: Octets, data: Octets)
    requires HasHeader(s)
    ensures var n := IdLen(s);
            Serialize(MessageAt(s, data)) == s[..2] + s[2..2 + n] + s[2 + n..6 + n] + s[6 + n..10 + n] + data
  {
    var n := IdLen(s);
    FromLe32RoundTrip(s[2 + n..6 + n]);
    FromLe32RoundTrip(s[6 + n..10 + n]);
    assert s[..2] == [s[0], s[1]];
  }

  lemma PrefixOfParts<T>(a: seq<T>, x: seq<T>, y: seq<T>)
    requires x <= y
    ensures a + x <= a + y
  {
  }

  /** Whatever is accepted was the serialisation of what it is accepted as. */
  lemma AcceptedIsSerialized(s: Octets, limit: nat, k: nat)
    requires Taken(s, k) && Decoded(s, limit, k).Accepted?
    ensures var m := Decoded(s, limit, k).message;
            && Verify(m) && m.dlen as int <= limit && |m.identifier| == m.ilen as int
            && Serialize(m) <= s
            && (Single(s) ==> WellFormed(m, limit))
  {
    var m := Decoded(s, limit, k).message;
    var n := IdLen(s);
    MessageAtSerializes(s, m.data);
    PartsMake(s, n);
    PrefixOfParts(s[..2] + s[2..2 + n] + s[2 + n..6 + n] + s[6 + n..10 + n], m.data, Body(s));
    if Single(s) { SingleLength(s, limit, k); }
  }

  lemma SingleLength(s: Octets, limit: nat, k: nat)
    requires Taken(s, k) && Single(s) && Decoded(s, limit, k).Accepted?
    ensures var m := Decoded(s, limit, k).message; |m.data| == m.dlen as int
  {
  }

  lemma SamePrefix<T>(s: seq<T>, t: seq<T>, n: nat)
    requires s <= t && |s| >= 10 + n
    ensures s[0] == t[0] && s[1] == t[1] && s[2..2 + n] == t[2..2 + n]
    ensures s[2 + n..6 + n] == t[2 + n..6 + n] && s[6 + n..10 + n] == t[6 + n..10 + n]
  {
    assert forall i | 0 <= i < |s| :: s[i] == t[i];
  }

  lemma SameBody<T>(s: seq<T>, t: seq<T>, n: nat)
    requires s <= t && |s| == |t| && |s| >= n
    ensures s[n..] == t[n..]
  {
  }

  lemma SameHeader(s: Octets, t: Octets)
    requires HasHeader(s) && HasHeader(t) && s <= t
    ensures IdLen(s) == IdLen(t) && LengthAt(s) == LengthAt(t)
    ensures forall data :: MessageAt(s, data) == MessageAt(t, data)
  {
    SamePrefix(s, t, IdLen(s));
  }

  /** No well-formed message is a proper prefix of another. */
  lemma PrefixFree(m: Message, n: Message, limit: nat)
    requires WellFormed(m, limit) && WellFormed(n, limit) && Serialize(m) <= Serialize(n)
    ensures m == n
  {
    var s, t := Serialize(m), Serialize(n);
    SerializedFields(m);
    SerializedFields(n);
    SameHeader(s, t);
    SameBody(s, t, 10 + IdLen(s));
  }

  // ----------------------------------------------------------- the parser

  /** A connection: what is still to come before its end. Reads return what
      the network has ready, in pieces of any size, or break. */
  class Stream {
    var rest: Octets
    var broken: bool

    constructor (all: Octets)
      ensures rest == all && !broken
    {
      rest, broken := all, false;
    }

    /** One read: nothing only at the end of the stream. */
    method ReadSome(most: nat) returns (chunk: Octets)
      requires most > 0
      modifies this
      ensures broken ==> chunk == []
      ensures old(broken) ==> broken
      ensures !broken ==> chunk + rest == old(rest) && |chunk| <= most && (chunk == [] <==> old(rest) == [])
    {
      chunk := [];
      if broken { return; }
      if * {
        broken := true;
      } else if rest != [] {
        var n: nat :| 0 < n <= |rest| && n <= most;
        chunk, rest := rest[..n], rest[n..];
      }
    }

    /** Reads until `n` octets are there; None when the stream ends first. */
    method ReadExact(n: nat) returns (r: Option<Octets>)
      modifies this
      ensures old(broken) ==> broken
      ensures broken ==> r.None?
      ensures !broken ==> r == (if n <= |old(rest)| then Some(old(rest)[..n]) else None)
      ensures !broken && n <= |old(rest)| ==> rest == old(rest)[n..]
    {
      var got: Octets := [];
      while |got| < n
        invariant |got| <= n && (old(broken) ==> broken)
        invariant !broken ==> got + rest == old(rest)
        decreases n - |got|
      {
        var chunk := ReadSome(n - |got|);
        if chunk == [] { return None; }
        ghost var before := got;
        got := got + chunk;
        assert !broken ==> got + rest == before + (chunk + rest);
      }
      if broken { return None; }
      assert old(rest)[..n] == got && old(rest)[n..] == rest;
      return Some(got);
    }
  }

  class LiNaProtocol {
    var flags: bv8
    var ilen: bv8
    var identifier: Octets
    var dlen: bv32
    var checksum: bv32
    var data: Octets

    constructor ()
      ensures data == []
    {
      flags, ilen, identifier, dlen, checksum, data := 0, 0, [], 0, 0, [];
    }

    function Contents(): Message
      reads this
    {
      Message(flags, ilen, identifier, dlen, checksum, data)
    }

    /** Flags, identifier length and identifier. */
    method ReadIdentifier(stream: Stream) returns (ok: bool)
      requires !stream.broken
      modifies this, stream
      ensures data == old(data)
      ensures stream.broken ==> !ok
      ensures !stream.broken ==> (ok <==> |old(stream.rest)| >= 2 && |old(stream.rest)| >= 2 + IdLen(old(stream.rest)))
      ensures ok ==> flags == old(stream.rest)[0] && ilen == old(stream.rest)[1]
      ensures ok ==> var n := IdLen(old(stream.rest));
                     identifier == old(stream.rest)[2..2 + n] && stream.rest == old(stream.rest)[2 + n..]
    {
      ghost var s := stream.rest;
      var part := stream.ReadExact(1);
      if part.None? { return false; }
      flags := part.value[0];
      part := stream.ReadExact(1);
      if part.None? { return false; }
      ilen := part.value[0];
      assert stream.rest == s[2..];
      part := stream.ReadExact(ilen as int);
      if part.None? { return false; }
      identifier := part.value;
      return true;
    }

    /** Everything before the data. None means that the data is next. */
    method ReadHeader(stream: Stream, limit: nat) returns (stop: Option<Parsed>)
      requires !stream.broken
      modifies this, stream
      ensures data == old(data)
      ensures stream.broken ==> stop.Some? && !stop.value.Accepted?
      ensures !stream.broken && stop.Some? ==> Headless(old(stream.rest), limit, stop.value)
      ensures stop.None? ==> HasHeader(old(stream.rest)) && LengthAt(old(stream.rest)) as int <= limit
      ensures stop.None? ==> stream.rest == Body(old(stream.rest)) && Contents() == MessageAt(old(stream.rest), data)
    {
      ghost var s := stream.rest;
      var ok := ReadIdentifier(stream);
      if !ok { return Some(Disconnected); }
      stop := ReadLengthAndChecksum(stream, limit, s);
    }

    /** The two words between the identifier and the data of the octets `s`. */
    method ReadLengthAndChecksum(stream: Stream, limit: nat, ghost s: Octets) returns (stop: Option<Parsed>)
      requires !stream.broken && |s| >= 2 && |s| >= 2 + IdLen(s) && stream.rest == s[2 + IdLen(s)..]
      modifies this`dlen, this`checksum, stream
      ensures stream.broken ==> stop.Some? && !stop.value.Accepted?
      ensures !stream.broken && stop.Some? ==> Headless(s, limit, stop.value)
      ensures stop.None? ==> HasHeader(s) && LengthAt(s) as int <= limit && stream.rest == Body(s)
      ensures stop.None? ==> dlen == LengthAt(s) && checksum == WordAt(s, 6 + IdLen(s))
    {
      var word := ReadWord(stream, s, 2 + IdLen(s));
      if word.None? { return Some(Disconnected); }
      dlen := word.value;
      if dlen as int > limit { return Some(Rejected); }
      word := ReadWord(stream, s, 6 + IdLen(s));
      if word.None? { return Some(Disconnected); }
      checksum := word.value;
      return None;
    }

    /** A little-endian word at offset `i` of the octets `s`. */
    method ReadWord(stream: Stream, ghost s: Octets, ghost i: nat) returns (word: Option<bv32>)
      requires !stream.broken && i <= |s| && stream.rest == s[i..]
      modifies stream
      ensures stream.broken ==> word.None?
      ensures !stream.broken ==> (word.Some? <==> i + 4 <= |s|)
      ensures word.Some? ==> word.value == WordAt(s, i) && stream.rest == s[i + 4..]
    {
      SliceTwice(s, i);
      var part := stream.ReadExact(4);
      if part.None? { return None; }
      return Some(FromLe32(part.value));
    }

    /** Collects the data: at least `dlen` octets, and whatever came with them. */
    method ReadData(stream: Stream) returns (ok: bool)
      requires !stream.broken && dlen as int > 0
      modifies this`data, stream
      ensures !stream.broken ==> (ok <==> |old(stream.rest)| >= dlen as int)
      ensures stream.broken ==> !ok
      ensures ok ==> dlen as int <= |data| <= |old(stream.rest)| && data == old(stream.rest)[..|data|]
    {
      var buf: Octets := [];
      while true
        invariant !stream.broken && buf + stream.rest == old(stream.rest) && |buf| < dlen as int
        decreases dlen as int - |buf|
      {
        var room: nat :| room > 0;
        var chunk := stream.ReadSome(room);
        if chunk == [] { return false; }
        ghost var before := buf;
        buf := buf + chunk;
        assert buf + stream.rest == before + (chunk + stream.rest);
        if |buf| >= dlen as int { break; }
      }
      data := buf;
      return true;
    }

    /** Unless the connection breaks, the outcome is that of the stream's
        octets; which of them count as data past the announced length is the
        only thing the sizes of the reads decide. */
    method ParseProtocolMessage(stream: Stream, limit: nat) returns (r: Parsed, ghost taken: nat)
      requires data == [] && !stream.broken
      modifies this, stream
      ensures stream.broken ==> !r.Accepted?
      ensures !stream.broken ==> Taken(old(stream.rest), taken) && r == Decoded(old(stream.rest), limit, taken)
      ensures r.Accepted? ==> r.message == Contents()
    {
      ghost var s := stream.rest;
      taken := |Rest(s)|;
      var stop := ReadHeader(stream, limit);
      if stop.Some? { return stop.value, taken; }
      if dlen as int > 0 {
        var ok := ReadData(stream);
        if !ok { return Disconnected, taken; }
        taken := |data|;
      }
      r := Judged(Contents());
    }
  }

  lemma SliceTwice<T>(s: seq<T>, i: nat)
    requires i <= |s|
    ensures i + 4 <= |s| ==> s[i..][..4] == s[i..i + 4] && s[i..][4..] == s[i + 4..]
  {
  }

  /** The outcome is settled before any data is read. */
  predicate Headless(s: Octets, limit: nat, r: Parsed)
  {
    if !HasLength(s) then r == Disconnected
    else if LengthAt(s) as int > limit then r == Rejected
    else !HasHeader(s) && r == Disconnected
  }

  /** The data part, if the header is there. */
  function Rest(s: Octets): Octets
  {
    if HasHeader(s) then Body(s) else []
  }
}
