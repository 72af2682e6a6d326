/** CRC-32 (section 8 of RFC 1952): the bit-serial definition, the table-driven
    forms of the C and C++ clients, and what the checksum detects. */
module Crc {
  import opened Registers

  const POLY: bv32 := 0xEDB88320

  const START: bv32 := 0xFFFF_FFFF

  type Octets = seq<bv8>

  // ------------------------------------------------ the definition, bitwise

  /** One message bit enters the reflected shift register. */
  function FeedBit(reg: bv32, bit: bool): bv32
  {
    if (reg & 1 == 1) != bit then (reg >> 1) ^ POLY else reg >> 1
  }

  predicate Odd(c: bv32) { c & 1 == 1 }

  function Half(c: bv32): bv32 { c >> 1 }

  /** The bits of a message: octets in order, least significant bit first. */
  function BitsOf(data: Octets): seq<bool>
  {
    if data == [] then [] else BitsFrom(Odd, Half, data[0] as bv32, 8) + BitsOf(data[1..])
  }

  /** The register after a message, and the published checksum. */
  function Register(reg: bv32, data: Octets): bv32
  {
    Feed(FeedBit, reg, BitsOf(data))
  }

  function Checksum(data: Octets): bv32
  {
    Complement(Register(START, data))
  }

  function Complement(v: bv32): bv32 { !v }

  // ------------------------------------------------------- shifting a word

  /** One round of the table's inner loop. */
  function Shift(v: bv32): bv32
  {
    if v & 1 == 1 then (v >> 1) ^ POLY else v >> 1
  }

  function Unshift(v: bv32): bv32
  {
    if v & 0x8000_0000 != 0 then ((v ^ POLY) << 1) | 1 else v << 1
  }

  function Xor(a: bv32, b: bv32): bv32 { a ^ b }

  /** The eight rounds that a byte takes. */
  function Shift8(v: bv32): bv32 { Iter(Shift, v, 8) }

  // Identities of 32-bit words, each a fact about one expression.

  lemma XorCancels(a: bv32, b: bv32, p: bv32)
    ensures (a ^ p) ^ (b ^ p) == a ^ b
  {
  }

  lemma XorMoves(a: bv32, b: bv32, p: bv32)
    ensures (a ^ b) ^ p == (a ^ p) ^ b && (a ^ b) ^ p == a ^ (b ^ p)
  {
  }

  lemma HalfOfXor(x: bv32, y: bv32)
    ensures (x ^ y) >> 1 == (x >> 1) ^ (y >> 1) && (x ^ y) & 1 == (x & 1) ^ (y & 1)
  {
  }

  lemma LowBit(x: bv32)
    ensures x & 1 == 0 || x & 1 == 1
  {
  }

  lemma UnshiftOdd(v: bv32)
    requires v & 0x8000_0000 != 0
    ensures (((v ^ POLY) << 1) | 1) & 1 == 1 && ((((v ^ POLY) << 1) | 1) >> 1) ^ POLY == v
  {
  }

  lemma UnshiftEven(v: bv32)
    requires v & 0x8000_0000 == 0
    ensures (v << 1) & 1 == 0 && (v << 1) >> 1 == v
  {
  }

  lemma ShiftInverse(v: bv32)
    ensures Unshift(Shift(v)) == v
  {
  }

  lemma UnshiftInverse(v: bv32)
    ensures Shift(Unshift(v)) == v
  {
    if v & 0x8000_0000 != 0 { UnshiftOdd(v); } else { UnshiftEven(v); }
  }

  lemma ShiftLinearOdd(x: bv32, y: bv32)
    requires x & 1 == 1 && y & 1 == 1
    ensures Shift(x ^ y) == Shift(x) ^ Shift(y)
  {
    HalfOfXor(x, y);
    XorCancels(x >> 1, y >> 1, POLY);
  }

  lemma ShiftLinearMixed(x: bv32, y: bv32)
    requires x & 1 == 1 && y & 1 == 0
    ensures Shift(x ^ y) == Shift(x) ^ Shift(y)
  {
    HalfOfXor(x, y);
    XorMoves(x >> 1, y >> 1, POLY);
  }

  lemma ShiftLinearEven(x: bv32, y: bv32)
    requires x & 1 == 0 && y & 1 == 0
    ensures Shift(x ^ y) == Shift(x) ^ Shift(y)
  {
    HalfOfXor(x, y);
  }

  lemma XorCommutes(x: bv32, y: bv32)
    ensures Xor(x, y) == Xor(y, x)
  {
  }

  lemma ShiftLinear(x: bv32, y: bv32)
    ensures Shift(Xor(x, y)) == Xor(Shift(x), Shift(y))
  {
    LowBit(x);
    LowBit(y);
    if x & 1 == 1 {
      if y & 1 == 1 { ShiftLinearOdd(x, y); } else { ShiftLinearMixed(x, y); }
    } else {
      if y & 1 == 1 {
        ShiftLinearMixed(y, x);
        XorCommutes(x, y);
        XorCommutes(Shift(x), Shift(y));
      } else {
        ShiftLinearEven(x, y);
      }
    }
  }

  lemma Shift8Linear(x: bv32, y: bv32)
    ensures Shift8(Xor(x, y)) == Xor(Shift8(x), Shift8(y))
  {
    assert Linear(Shift, Xor) by {
      forall a, b ensures Shift(Xor(a, b)) == Xor(Shift(a), Shift(b)) { ShiftLinear(a, b); }
    }
    IterLinear(Shift, Xor, x, y, 8);
  }

  lemma Shift8Injective(x: bv32, y: bv32)
    requires Shift8(x) == Shift8(y)
    ensures x == y
  {
    forall v ensures Unshift(Shift(v)) == v { ShiftInverse(v); }
    IterInjective(Shift, Unshift, x, y, 8);
  }

  /** A byte fed bit by bit is a byte folded in and shifted eight times. */
  lemma FeedBitCase(r: bv32, w: bv32)
    ensures Xor(FeedBit(r, Odd(w)), Half(w)) == Shift(Xor(r, w))
  {
    LowBit(r);
    LowBit(w);
    HalfOfXor(r, w);
    XorMoves(r >> 1, w >> 1, POLY);
    if r & 1 == 1 {
      if w & 1 == 1 {} else {}
    } else {
      if w & 1 == 1 {} else {}
    }
  }

  // ------------------------------------------------------ a byte at a time

  lemma ByteHalves(c: bv32)
    requires c & 0xFFFF_FF00 == 0
    ensures c >> 1 >> 1 >> 1 >> 1 >> 1 >> 1 >> 1 >> 1 == 0
  {
  }

  lemma ByteIsLow(b: bv8)
    ensures (b as bv32) & 0xFFFF_FF00 == 0
  {
  }

  lemma XorZero(v: bv32)
    ensures v ^ 0 == v
  {
  }

  /** What one byte does to the register. */
  function Step(v: bv32, b: bv8): bv32 { Shift8(Xor(v, b as bv32)) }

  lemma ByteHalved(b: bv8)
    ensures Iter(Half, b as bv32, 8) == 0
  {
    IterEight(Half, b as bv32);
    ByteIsLow(b);
    ByteHalves(b as bv32);
  }

  lemma XorIdentity(f: bv32, h: bv32, s: bv32)
    requires Xor(f, h) == s && h == 0
    ensures f == s
  {
    XorZero(f);
  }

  lemma FeedByteShifts(reg: bv32, c: bv32)
    ensures Xor(Feed(FeedBit, reg, BitsFrom(Odd, Half, c, 8)), Iter(Half, c, 8)) == Iter(Shift, Xor(reg, c), 8)
  {
    forall r, w ensures Xor(FeedBit(r, Odd(w)), Half(w)) == Shift(Xor(r, w)) { FeedBitCase(r, w); }
    FeedIsShift(Shift, FeedBit, Xor, Odd, Half, reg, c, 8);
  }

  lemma ByteIsStep(reg: bv32, b: bv8)
    ensures Feed(FeedBit, reg, BitsFrom(Odd, Half, b as bv32, 8)) == Step(reg, b)
  {
    FeedByteShifts(reg, b as bv32);
    ByteHalved(b);
    XorIdentity(Feed(FeedBit, reg, BitsFrom(Odd, Half, b as bv32, 8)), Iter(Half, b as bv32, 8), Step(reg, b));
  }

  /** The serial register advances a byte at a time. */
  lemma {:induction false} RegisterIsFold(reg: bv32, data: Octets)
    ensures Register(reg, data) == Fold(Step, reg, data)
    decreases |data|
  {
    if data != [] {
      FeedAppend(FeedBit, reg, BitsFrom(Odd, Half, data[0] as bv32, 8), BitsOf(data[1..]));
      ByteIsStep(reg, data[0]);
      RegisterIsFold(Step(reg, data[0]), data[1..]);
    }
  }

  /** However a message is split into updates, the register is the same. */
  lemma RegisterAppend(reg: bv32, a: Octets, b: Octets)
    ensures Register(reg, a + b) == Register(Register(reg, a), b)
  {
    RegisterIsFold(reg, a + b);
    RegisterIsFold(reg, a);
    RegisterIsFold(Register(reg, a), b);
    FoldAppend(Step, reg, a, b);
  }

  // ------------------------------------------------------------- the table

  lemma Even7(y: bv32)
    requires y & 0xFF00_0000 == 0
    ensures (y << 8) & 1 == 0 && (y << 8) >> 1 == y << 7
  {
  }

  lemma Even6(y: bv32)
    requires y & 0xFF00_0000 == 0
    ensures (y << 7) & 1 == 0 && (y << 7) >> 1 == y << 6
  {
  }

  lemma Even5(y: bv32)
    requires y & 0xFF00_0000 == 0
    ensures (y << 6) & 1 == 0 && (y << 6) >> 1 == y << 5
  {
  }

  lemma Even4(y: bv32)
    requires y & 0xFF00_0000 == 0
    ensures (y << 5) & 1 == 0 && (y << 5) >> 1 == y << 4
  {
  }

  lemma Even3(y: bv32)
    requires y & 0xFF00_0000 == 0
    ensures (y << 4) & 1 == 0 && (y << 4) >> 1 == y << 3
  {
  }

  lemma Even2(y: bv32)
    requires y & 0xFF00_0000 == 0
    ensures (y << 3) & 1 == 0 && (y << 3) >> 1 == y << 2
  {
  }

  lemma Even1(y: bv32)
    requires y & 0xFF00_0000 == 0
    ensures (y << 2) & 1 == 0 && (y << 2) >> 1 == y << 1
  {
  }

  lemma Even0(y: bv32)
    requires y & 0xFF00_0000 == 0
    ensures (y << 1) & 1 == 0 && (y << 1) >> 1 == y
  {
  }

  /** Eight rounds bring a word's upper bytes down unchanged. */
  lemma Shift8High(y: bv32)
    requires y & 0xFF00_0000 == 0
    ensures Shift8(y << 8) == y
  {
    Even7(y); Even6(y); Even5(y); Even4(y); Even3(y); Even2(y); Even1(y); Even0(y);
    IterEight(Shift, y << 8);
  }

  function Low(v: bv32): bv8 { (v & 0xFF) as bv8 }

  lemma SplitWord(v: bv32)
    ensures Xor(v & 0xFF, (v >> 8) << 8) == v && (v >> 8) & 0xFF00_0000 == 0 && (Low(v) as bv32) == v & 0xFF
  {
  }

  ghost predicate IsTable(table: seq<bv32>)
  {
    |table| == 256 && forall i: bv8 {:trigger Entry(table, i)} :: Entry(table, i) == Shift8(i as bv32)
  }

  function Entry(table: seq<bv32>, i: bv8): bv32
    requires |table| == 256
  {
    table[i as int]
  }

  lemma Shift8LowHigh(low: bv32, high: bv32)
    requires high & 0xFF00_0000 == 0
    ensures Shift8(Xor(low, high << 8)) == Xor(Shift8(low), high)
  {
    Shift8Linear(low, high << 8);
    Shift8High(high);
  }

  lemma Shift8Split(v: bv32)
    ensures Xor(Shift8(v & 0xFF), v >> 8) == Shift8(v)
  {
    SplitWord(v);
    Shift8LowHigh(v & 0xFF, v >> 8);
  }

  lemma LowWord(v: bv32)
    ensures (Low(v) as bv32) == v & 0xFF
  {
  }

  lemma EntryOfLow(table: seq<bv32>, v: bv32)
    requires IsTable(table)
    ensures Entry(table, Low(v)) == Shift8(v & 0xFF)
  {
    LowWord(v);
  }

  /** A table lookup and an exclusive or do the eight rounds. */
  lemma LookupIsShift8(table: seq<bv32>, v: bv32)
    requires IsTable(table)
    ensures Xor(v >> 8, Entry(table, Low(v))) == Shift8(v)
  {
    EntryOfLow(table, v);
    Shift8Split(v);
    XorCommutes(v >> 8, Shift8(v & 0xFF));
  }

  lemma FoldByte(v: bv32, b: bv8)
    ensures Low(Xor(v, b as bv32)) == Low(v) ^ b
    ensures Xor(v, b as bv32) >> 8 == v >> 8
  {
  }

  /** The lookup with the byte folded in, as the C client writes it. */
  function Lookup(table: seq<bv32>, v: bv32, b: bv8): bv32
    requires |table| == 256
  {
    Xor(v >> 8, Entry(table, Low(v) ^ b))
  }

  lemma LookupIsStep(table: seq<bv32>, v: bv32, b: bv8)
    requires IsTable(table)
    ensures Lookup(table, v, b) == Step(v, b)
  {
    LookupIsShift8(table, Xor(v, b as bv32));
    FoldByte(v, b);
  }

  // ------------------------------------------------------------ the clients

  /** The inner loop that both clients fill their tables with. */
  method TableEntry(start: bv32) returns (v: bv32)
    ensures v == Shift8(start)
  {
    v := start;
    var bit := 8;
    while bit != 0
      invariant 0 <= bit <= 8
      invariant Iter(Shift, v, bit) == Shift8(start)
      decreases bit
    {
      v := Shift(v);
      bit := bit - 1;
    }
  }

  class CClient {
    var value: bv32
    var table: array<bv32>

    ghost predicate Valid()
      reads this, table
    {
      IsTable(table[..])
    }

    /** An 8-bit index runs through all values and stops when it wraps to zero. */
    constructor Init()
      ensures Valid() && fresh(table) && value == START
    {
      value := START;
      var t := new bv32[256](_ => 0);
      var index: bv8 := 0;
      var again := true;
      while again
        invariant Filled(t[..], index, again)
        decreases again, 255 - index as int
      {
        var entry := TableEntry(index as bv32);
        ghost var before := t[..];
        t[index as int] := entry;
        assert t[..] == before[index as int := entry];
        FillOne(before, index);
        index := index + 1;
        again := index != 0;
      }
      table := t;
      new;
      AllFilled(table[..], index);
    }

    method UpdateByte(b: bv8)
      requires Valid()
      modifies this`value
      ensures Valid() && value == Step(old(value), b)
    {
      LookupIsStep(table[..], value, b);
      value := Lookup(table[..], value, b);
    }

    method Update(data: Octets)
      requires Valid()
      modifies this`value
      ensures Valid() && value == Register(old(value), data)
    {
      for i := 0 to |data|
        invariant Valid() && value == Fold(Step, old(value), data[..i])
      {
        FoldTake(Step, old(value), data, i);
        UpdateByte(data[i]);
      }
      assert data[..|data|] == data;
      RegisterIsFold(old(value), data);
    }

    method Finalize() returns (sum: bv32)
      modifies this`value
      ensures sum == Complement(old(value)) && value == START
    {
      sum := !value;
      value := START;
    }
  }

  /** Entries below `index` are done; all of them once the index has wrapped. */
  ghost predicate Filled(table: seq<bv32>, index: bv8, again: bool)
  {
    && |table| == 256 && (!again ==> index == 0)
    && forall i: bv8 {:trigger Entry(table, i)} :: i < index || !again ==> Entry(table, i) == Shift8(i as bv32)
  }

  lemma Distinct(i: bv8, j: bv8)
    requires i != j
    ensures i as int != j as int
  {
  }

  lemma NextIndex(i: bv8, index: bv8)
    ensures index + 1 != 0 && i < index + 1 ==> i < index || i == index
    ensures index + 1 == 0 ==> i < index || i == index
    ensures index + 1 != 0 ==> (index + 1) as int == index as int + 1
  {
  }

  lemma FillOne(table: seq<bv32>, index: bv8)
    requires Filled(table, index, true)
    ensures Filled(table[index as int := Shift8(index as bv32)], index + 1, index + 1 != 0)
    ensures index + 1 != 0 ==> (index + 1) as int == index as int + 1
  {
    var after := table[index as int := Shift8(index as bv32)];
    NextIndex(0, index);
    forall i: bv8 | i < index + 1 || index + 1 == 0 ensures Entry(after, i) == Shift8(i as bv32) {
      NextIndex(i, index);
      if i != index {
        Distinct(i, index);
        assert Entry(table, i) == Shift8(i as bv32);
      }
    }
  }

  lemma AllFilled(table: seq<bv32>, index: bv8)
    requires Filled(table, index, false)
    ensures IsTable(table)
  {
  }

  class CppClient {
    var crc: bv32
    const table: array<bv32>

    ghost predicate Valid()
      reads table
    {
      IsTable(table[..])
    }

    constructor ()
      ensures Valid() && fresh(table) && crc == START
    {
      crc := START;
      var t := new bv32[256](_ => 0);
      var i: bv32 := 0;
      while i < 256
        invariant FilledTo(t[..], i)
        decreases 256 - i as int
      {
        SmallIndex(i);
        var entry := TableEntry(i);
        ghost var before := t[..];
        t[i as int] := entry;
        assert t[..] == before[i as int := entry];
        FillNext(before, i);
        i := i + 1;
      }
      table := t;
      new;
      AllFilledTo(table[..], i);
    }

    method UpdateByte(b: bv8)
      requires Valid()
      modifies this`crc
      ensures crc == Step(old(crc), b)
    {
      LookupIsStepCpp(table[..], crc, b);
      crc := LookupCpp(table[..], crc, b);
    }

    /** One round of the unrolled loop, `start` being the register at its entry. */
    method UpdateEight(data: Octets, p: nat, ghost start: bv32)
      requires Valid() && p + 8 <= |data| && crc == Fold(Step, start, data[..p])
      modifies this`crc
      ensures crc == Fold(Step, start, data[..p + 8])
    {
      FoldEight(Step, start, data, p);
      UpdateByte(data[p]);
      UpdateByte(data[p + 1]);
      UpdateByte(data[p + 2]);
      UpdateByte(data[p + 3]);
      UpdateByte(data[p + 4]);
      UpdateByte(data[p + 5]);
      UpdateByte(data[p + 6]);
      UpdateByte(data[p + 7]);
    }

    /** Eight bytes a round while there are eight, then one at a time. */
    method Update(data: Octets)
      requires Valid()
      modifies this`crc
      ensures crc == Register(old(crc), data)
    {
      var p := 0;
      while p + 8 <= |data|
        invariant 0 <= p <= |data|
        invariant crc == Fold(Step, old(crc), data[..p])
      {
        UpdateEight(data, p, old(crc));
        p := p + 8;
      }
      while p < |data|
        invariant 0 <= p <= |data|
        invariant crc == Fold(Step, old(crc), data[..p])
      {
        FoldTake(Step, old(crc), data, p);
        UpdateByte(data[p]);
        p := p + 1;
      }
      assert data[..p] == data;
      RegisterIsFold(old(crc), data);
    }

    method Finalize() returns (sum: bv32)
      modifies this`crc
      ensures sum == Complement(old(crc)) && crc == START
    {
      sum := !crc;
      crc := START;
    }
  }

  ghost predicate FilledTo(table: seq<bv32>, i: bv32)
  {
    && |table| == 256 && i <= 256
    && forall k: bv8 {:trigger Entry(table, k)} :: (k as bv32) < i ==> Entry(table, k) == Shift8(k as bv32)
  }

  lemma SmallIndex(i: bv32)
    requires i < 256
    ensures i as int < 256 && (i + 1) as int == i as int + 1 && i + 1 <= 256
  {
  }

  lemma WidenIndex(k: bv8)
    ensures (k as bv32) as int == k as int && (k as bv32) < 256
  {
  }

  lemma WidenDistinct(k: bv8, i: bv32)
    requires (k as bv32) != i && i < 256
    ensures k as int != i as int
  {
    WidenIndex(k);
    WordDistinct(k as bv32, i);
  }

  lemma WordDistinct(a: bv32, b: bv32)
    requires a != b
    ensures a as int != b as int
  {
    assert (a as int) as bv32 == a && (b as int) as bv32 == b;
  }

  lemma NextWord(k: bv32, i: bv32)
    requires i < 256 && k < i + 1 && k != i
    ensures k < i
  {
  }

  lemma FillNextAt(table: seq<bv32>, i: bv32, k: bv8)
    requires FilledTo(table, i) && i < 256 && i as int < 256 && (k as bv32) < i + 1
    ensures Entry(table[i as int := Shift8(i)], k) == Shift8(k as bv32)
  {
    WidenIndex(k);
    if (k as bv32) != i {
      NextWord(k as bv32, i);
      WidenDistinct(k, i);
      assert Entry(table, k) == Shift8(k as bv32);
    }
  }

  lemma FillNext(table: seq<bv32>, i: bv32)
    requires FilledTo(table, i) && i < 256 && i as int < 256
    ensures FilledTo(table[i as int := Shift8(i)], i + 1)
  {
    SmallIndex(i);
    var after := table[i as int := Shift8(i)];
    forall k: bv8 | (k as bv32) < i + 1 ensures Entry(after, k) == Shift8(k as bv32) {
      FillNextAt(table, i, k);
    }
  }

  lemma AllFilledTo(table: seq<bv32>, i: bv32)
    requires FilledTo(table, i) && i >= 256
    ensures IsTable(table)
  {
    forall k: bv8 ensures Entry(table, k) == Shift8(k as bv32) { WidenIndex(k); }
  }

  /** The lookup as the C++ client writes it. */
  function LookupCpp(table: seq<bv32>, v: bv32, b: bv8): bv32
    requires |table| == 256
  {
    Xor(Entry(table, Low(Xor(v, b as bv32))), v >> 8)
  }

  lemma LookupIsStepCpp(table: seq<bv32>, v: bv32, b: bv8)
    requires IsTable(table)
    ensures LookupCpp(table, v, b) == Step(v, b)
  {
    LookupIsShift8(table, Xor(v, b as bv32));
    FoldByte(v, b);
    XorCommutes(v >> 8, Entry(table, Low(Xor(v, b as bv32))));
  }

  // ---------------------------------------------------- any split, any client

  function Joined(parts: seq<Octets>): Octets
  {
    if parts == [] then [] else Joined(parts[..|parts| - 1]) + parts[|parts| - 1]
  }

  lemma RegisterJoined(parts: seq<Octets>, i: nat)
    requires i < |parts|
    ensures Register(START, Joined(parts[..i + 1])) == Register(Register(START, Joined(parts[..i])), parts[i])
  {
    assert parts[..i + 1][..i] == parts[..i];
    RegisterAppend(START, Joined(parts[..i]), parts[i]);
  }

  lemma NothingJoined(parts: seq<Octets>)
    ensures Register(START, Joined(parts[..0])) == START
    ensures parts[..|parts|] == parts
  {
  }

  /** The C client, over a message in any number of updates. */
  method ChecksumByC(parts: seq<Octets>) returns (sum: bv32)
    ensures sum == Checksum(Joined(parts))
  {
    var client := new CClient.Init();
    NothingJoined(parts);
    for i := 0 to |parts|
      invariant client.Valid() && client.value == Register(START, Joined(parts[..i]))
    {
      RegisterJoined(parts, i);
      client.Update(parts[i]);
    }
    sum := client.Finalize();
  }

  /** The C++ client, over a message in any number of updates. */
  method ChecksumByCpp(parts: seq<Octets>) returns (sum: bv32)
    ensures sum == Checksum(Joined(parts))
  {
    var client := new CppClient();
    NothingJoined(parts);
    for i := 0 to |parts|
      invariant client.Valid() && client.crc == Register(START, Joined(parts[..i]))
    {
      RegisterJoined(parts, i);
      client.Update(parts[i]);
    }
    sum := client.Finalize();
  }

  // ------------------------------------------------- the published value

  /** The eight rounds, written out. */
  lemma StepIs(v: bv32, b: bv8)
    ensures Step(v, b) == Shift(Shift(Shift(Shift(Shift(Shift(Shift(Shift(v ^ (b as bv32)))))))))
  {
    IterEight(Shift, Xor(v, b as bv32));
  }

  lemma FirstOctets()
    ensures Step(Step(Step(0xFFFF_FFFF, 0x31), 0x32), 0x33) == 0x77B7_9C2D
  {
    StepIs(0xFFFF_FFFF, 0x31);
    StepIs(0x7C23_1048, 0x32);
    StepIs(0xB0AC_BB32, 0x33);
  }

  lemma MiddleOctets()
    ensures Step(Step(Step(0x77B7_9C2D, 0x34), 0x35), 0x36) == 0xF68D_2C9E
  {
    StepIs(0x77B7_9C2D, 0x34);
    StepIs(0x641C_1F5C, 0x35);
    StepIs(0x340A_C5E3, 0x36);
  }

  lemma LastOctets()
    ensures Step(Step(Step(0xF68D_2C9E, 0x37), 0x38), 0x39) == 0x340B_C6D9
  {
    StepIs(0xF68D_2C9E, 0x37);
    StepIs(0xAFFC_9660, 0x38);
    StepIs(0x651F_2550, 0x39);
  }

  /** The checksum of the nine digits "123456789" is the published 0xCBF43926. */
  lemma CheckValue()
    ensures Checksum([0x31, 0x32, 0x33] + [0x34, 0x35, 0x36] + [0x37, 0x38, 0x39]) == 0xCBF4_3926
  {
    var a: Octets, b: Octets, c: Octets := [0x31, 0x32, 0x33], [0x34, 0x35, 0x36], [0x37, 0x38, 0x39];
    var v: bv32, w: bv32 := 0x77B7_9C2D, 0xF68D_2C9E;
    RegisterIsFold(START, a + b + c);
    FoldAppend(Step, START, a + b, c);
    FoldAppend(Step, START, a, b);
    assert Fold(Step, START, a) == v by { FirstOctets(); FoldThree(Step, START, 0x31, 0x32, 0x33); }
    assert Fold(Step, v, b) == w by { MiddleOctets(); FoldThree(Step, v, 0x34, 0x35, 0x36); }
    assert Fold(Step, w, c) == 0x340B_C6D9 by { LastOctets(); FoldThree(Step, w, 0x37, 0x38, 0x39); }
    assert Complement(0x340B_C6D9) == 0xCBF4_3926;
  }

  // -------------------------------------------------- what it detects

  lemma StepInjective(v: bv32, w: bv32, b: bv8)
    requires Step(v, b) == Step(w, b)
    ensures v == w
  {
    Shift8Injective(Xor(v, b as bv32), Xor(w, b as bv32));
    XorCancelsRight(v, w, b as bv32);
  }

  lemma XorCancelsRight(v: bv32, w: bv32, b: bv32)
    requires Xor(v, b) == Xor(w, b)
    ensures v == w
  {
    assert (v ^ b) ^ b == v && (w ^ b) ^ b == w;
  }

  /** After a byte the register is a bijection of the register before it. */
  lemma RegisterInjective(v: bv32, w: bv32, data: Octets)
    requires Register(v, data) == Register(w, data)
    ensures v == w
  {
    RegisterIsFold(v, data);
    RegisterIsFold(w, data);
    forall x: bv32, y: bv32, b: bv8 {:trigger Step(x, b), Step(y, b)}
      ensures Step(x, b) == Step(y, b) ==> x == y
    {
      if Step(x, b) == Step(y, b) { StepInjective(x, y, b); }
    }
    FoldInjective(Step, v, w, data);
  }

  function Join(b: bv8, y: bv32): bv32 { Xor(b as bv32, y << 8) }

  lemma XorAssoc(v: bv32, x: bv32, y: bv32)
    ensures Xor(v, Xor(x, y)) == Xor(Xor(v, x), y)
  {
    XorRegroups(v, x, y);
    assert Xor(x, y) == x ^ y && Xor(v, x) == v ^ x;
  }

  lemma XorRegroups(v: bv32, x: bv32, y: bv32)
    ensures v ^ (x ^ y) == (v ^ x) ^ y
  {
  }

  /** Eight rounds use up the lowest byte of a word and bring down the rest. */
  lemma PeelByte(v: bv32, b: bv8, y: bv32)
    requires y & 0xFF00_0000 == 0
    ensures Shift8(Xor(v, Join(b, y))) == Xor(Step(v, b), y)
  {
    XorAssoc(v, b as bv32, y << 8);
    Shift8LowHigh(Xor(v, b as bv32), y);
  }

  lemma JoinSmall(b: bv8, c: bv8, d: bv8)
    ensures (d as bv32) & 0xFF00_0000 == 0
    ensures Join(c, d as bv32) & 0xFF00_0000 == 0
    ensures Join(b, Join(c, d as bv32)) & 0xFF00_0000 == 0
  {
  }

  function Word(w: Octets): bv32
    requires |w| == 4
  {
    Join(w[0], Join(w[1], Join(w[2], w[3] as bv32)))
  }

  lemma JoinInjective(b: bv8, y: bv32, c: bv8, z: bv32)
    requires y & 0xFF00_0000 == 0 && z & 0xFF00_0000 == 0 && Join(b, y) == Join(c, z)
    ensures b == c && y == z
  {
    JoinParts(b, y);
    JoinParts(c, z);
  }

  lemma JoinParts(b: bv8, y: bv32)
    requires y & 0xFF00_0000 == 0
    ensures Low(Join(b, y)) == b && Join(b, y) >> 8 == y
  {
  }

  lemma WidenInjective(b: bv8, c: bv8)
    requires b as bv32 == c as bv32
    ensures b == c
  {
  }

  lemma WordInjective(w: Octets, x: Octets)
    requires |w| == |x| == 4 && Word(w) == Word(x)
    ensures w == x
  {
    JoinSmall(w[1], w[2], w[3]);
    JoinSmall(x[1], x[2], x[3]);
    JoinInjective(w[0], Join(w[1], Join(w[2], w[3] as bv32)), x[0], Join(x[1], Join(x[2], x[3] as bv32)));
    JoinInjective(w[1], Join(w[2], w[3] as bv32), x[1], Join(x[2], x[3] as bv32));
    JoinInjective(w[2], w[3] as bv32, x[2], x[3] as bv32);
    WidenInjective(w[3], x[3]);
  }

  lemma PeelWord(v: bv32, b: bv8, c: bv8, d: bv8, e: bv8)
    ensures Shift8(Shift8(Shift8(Shift8(Xor(v, Word([b, c, d, e])))))) == Step(Step(Step(Step(v, b), c), d), e)
  {
    JoinSmall(c, d, e);
    PeelByte(v, b, Join(c, Join(d, e as bv32)));
    PeelByte(Step(v, b), c, Join(d, e as bv32));
    PeelByte(Step(Step(v, b), c), d, e as bv32);
  }

  lemma FoldFour(v: bv32, w: Octets)
    requires |w| == 4
    ensures Fold(Step, v, w) == Shift8(Shift8(Shift8(Shift8(Xor(v, Word(w))))))
  {
    assert w == [w[0], w[1], w[2], w[3]];
    PeelWord(v, w[0], w[1], w[2], w[3]);
    FoldOfFour(Step, v, w);
  }

  /** Four bytes fill the register: different words leave different registers. */
  lemma FourInjective(v: bv32, w: Octets, x: Octets)
    requires |w| == |x| == 4 && Fold(Step, v, w) == Fold(Step, v, x)
    ensures w == x
  {
    FoldFour(v, w);
    FoldFour(v, x);
    UnwindFour(Xor(v, Word(w)), Xor(v, Word(x)));
    XorCommutes(v, Word(w));
    XorCommutes(v, Word(x));
    XorCancelsRight(Word(w), Word(x), v);
    WordInjective(w, x);
  }

  lemma UnwindFour(x: bv32, y: bv32)
    requires Shift8(Shift8(Shift8(Shift8(x)))) == Shift8(Shift8(Shift8(Shift8(y))))
    ensures x == y
  {
    Shift8Injective(Shift8(Shift8(Shift8(x))), Shift8(Shift8(Shift8(y))));
    Shift8Injective(Shift8(Shift8(x)), Shift8(Shift8(y)));
    Shift8Injective(Shift8(x), Shift8(y));
    Shift8Injective(x, y);
  }

  lemma BurstInjective(v: bv32, w: Octets, x: Octets)
    requires |w| == |x| <= 4 && Fold(Step, v, w) == Fold(Step, v, x)
    ensures w == x
  {
    var pad: Octets := seq(4 - |w|, _ => 0);
    FoldAppend(Step, v, w, pad);
    FoldAppend(Step, v, x, pad);
    FourInjective(v, w + pad, x + pad);
    assert w == (w + pad)[..|w|] && x == (x + pad)[..|w|];
  }

  lemma BurstRegister(reg: bv32, w: Octets, x: Octets, post: Octets)
    requires |w| == |x| <= 4 && Register(reg, w + post) == Register(reg, x + post)
    ensures w == x
  {
    RegisterAppend(reg, w, post);
    RegisterAppend(reg, x, post);
    RegisterInjective(Register(reg, w), Register(reg, x), post);
    RegisterIsFold(reg, w);
    RegisterIsFold(reg, x);
    BurstInjective(reg, w, x);
  }

  /** Any change confined to four consecutive bytes of a message of any length
      changes its checksum. */
  lemma BurstDetected(pre: Octets, w: Octets, x: Octets, post: Octets)
    requires |w| == |x| <= 4 && w != x
    ensures Checksum(pre + (w + post)) != Checksum(pre + (x + post))
  {
    if Checksum(pre + (w + post)) == Checksum(pre + (x + post)) {
      ChecksumInjective(pre + (w + post), pre + (x + post));
      RegisterAppend(START, pre, w + post);
      RegisterAppend(START, pre, x + post);
      BurstRegister(Register(START, pre), w, x, post);
    }
  }

  lemma ComplementTwice(v: bv32)
    ensures Complement(Complement(v)) == v
  {
  }

  lemma ChecksumInjective(a: Octets, b: Octets)
    requires Checksum(a) == Checksum(b)
    ensures Register(START, a) == Register(START, b)
  {
    ComplementTwice(Register(START, a));
    ComplementTwice(Register(START, b));
  }
}
