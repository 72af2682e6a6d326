/** The block codec: an input is cut into chunks, each chunk becomes one frame
    (flag, 16-bit little-endian length, body), and the frames are concatenated. */
module Codec {
  import opened Basics

  const CHUNK_SIZE: nat := 0x10000 - 0x400
  const U16: nat := 0x10000

  /** The gzip library, seen only through its two entry points. */
  datatype Gzip = Gzip(encode: Bytes -> Bytes, decode: Bytes -> Option<Bytes>) {
    ghost predicate Lossless() {
      forall x: Bytes {:trigger encode(x)} :: decode(encode(x)) == Some(x)
    }
  }

  // ---------------------------------------------------------------- frames

  datatype Frame = Frame(flag: Byte, body: Bytes) {
    predicate Fits() { |body| < U16 }
  }

  predicate AllFit(fs: seq<Frame>) { forall i | 0 <= i < |fs| :: fs[i].Fits() }

  function Le16(n: nat): (r: Bytes)
    requires n < U16
    ensures |r| == 2 && FromLe16(r[0], r[1]) == n
  {
    [(n % 0x100) as Byte, (n / 0x100) as Byte]
  }

  function FromLe16(lo: Byte, hi: Byte): nat { lo as nat + 0x100 * hi as nat }

  function Render(f: Frame): Bytes
    requires f.Fits()
  {
    [f.flag] + Le16(|f.body|) + f.body
  }

  function RenderAll(fs: seq<Frame>): Bytes
    requires AllFit(fs)
  {
    if fs == [] then [] else Render(fs[0]) + RenderAll(fs[1..])
  }

  /** What the index scan recognises: complete frames up to the end of the input. */
  function Frames(input: Bytes): (r: Option<seq<Frame>>)
    ensures r.Some? ==> AllFit(r.value)
  {
    if input == [] then Some([])
    else if |input| < 3 then None
    else
      var n := FromLe16(input[1], input[2]);
      if |input| < 3 + n then None
      else
        match Frames(input[3 + n..])
        case None => None
        case Some(rest) => Some([Frame(input[0], input[3..3 + n])] + rest)
  }

  // -------------------------------------------------------------- encoding

  function Chunks(input: Bytes): (r: seq<Bytes>)
    ensures Flatten(r) == input
    ensures forall i | 0 <= i < |r| :: 0 < |r[i]| <= CHUNK_SIZE
    ensures |r| == (|input| + CHUNK_SIZE - 1) / CHUNK_SIZE
  {
    if input == [] then []
    else if |input| <= CHUNK_SIZE then assert [input][1..] == []; [input]
    else
      var rest := Chunks(input[CHUNK_SIZE..]);
      assert ([input[..CHUNK_SIZE]] + rest)[1..] == rest;
      [input[..CHUNK_SIZE]] + rest
  }

  /** One chunk as the encoder builds it, casts to u16 truncating as they do in
      the program; None is its "greater than 64KiB" error. */
  function CompressChunk(gz: Gzip, chunk: Bytes): Option<Bytes>
  {
    var packed := gz.encode(chunk);
    if |packed| > |chunk| then
      Some([0] + Le16(|chunk| % U16) + chunk)
    else if |packed| > U16 then
      None
    else
      Some([1] + Le16(|packed| % U16) + packed)
  }

  /** The frame a chunk is stored as. */
  function FrameOf(gz: Gzip, chunk: Bytes): (f: Frame)
    ensures |chunk| <= CHUNK_SIZE ==> f.Fits()
    ensures |f.body| <= |chunk|
  {
    var packed := gz.encode(chunk);
    if |packed| > |chunk| then Frame(0, chunk) else Frame(1, packed)
  }

  function FramesOf(gz: Gzip, chunks: seq<Bytes>): (fs: seq<Frame>)
    requires forall i | 0 <= i < |chunks| :: |chunks[i]| <= CHUNK_SIZE
    ensures |fs| == |chunks| && AllFit(fs)
    ensures forall i | 0 <= i < |fs| :: fs[i] == FrameOf(gz, chunks[i])
  {
    seq(|chunks|, i requires 0 <= i < |chunks| => FrameOf(gz, chunks[i]))
  }

  function Compressed(gz: Gzip, input: Bytes): Bytes
  {
    RenderAll(FramesOf(gz, Chunks(input)))
  }

  // -------------------------------------------------------------- decoding

  function DecodeFrame(gz: Gzip, f: Frame): Option<Bytes>
  {
    if f.flag == 0 then Some(f.body)
    else if f.flag == 1 then gz.decode(f.body)
    else None
  }

  function DecodeFrames(gz: Gzip, fs: seq<Frame>): Option<Bytes>
  {
    if fs == [] then Some([])
    else
      match (DecodeFrame(gz, fs[0]), DecodeFrames(gz, fs[1..]))
      case (Some(x), Some(rest)) => Some(x + rest)
      case _ => None
  }

  function Decompressed(gz: Gzip, input: Bytes): Option<Bytes>
  {
    match Frames(input)
    case None => None
    case Some(fs) => DecodeFrames(gz, fs)
  }

  // ------------------------------------------------- the frame grammar

  function Prepend(fs: seq<Frame>, r: Option<seq<Frame>>): Option<seq<Frame>>
  {
    match r case None => None case Some(gs) => Some(fs + gs)
  }

  lemma PrependNone(r: Option<seq<Frame>>)
    ensures Prepend([], r) == r
  {
    if r.Some? { assert [] + r.value == r.value; }
  }

  lemma PrependTwice(a: seq<Frame>, b: seq<Frame>, r: Option<seq<Frame>>)
    ensures Prepend(a, Prepend(b, r)) == Prepend(a + b, r)
  {
    if r.Some? { assert a + (b + r.value) == (a + b) + r.value; }
  }

  lemma {:induction false} FramesOfRender(f: Frame, rest: Bytes)
    requires f.Fits()
    ensures Frames(Render(f) + rest) == Prepend([f], Frames(rest))
  {
    var input := Render(f) + rest;
    var n := |f.body|;
    assert input[1] == Le16(n)[0] && input[2] == Le16(n)[1];
    assert input[3..3 + n] == f.body;
    assert input[3 + n..] == rest;
  }

  lemma RenderAllCons(fs: seq<Frame>, rest: Bytes)
    requires AllFit(fs) && fs != []
    ensures RenderAll(fs) + rest == Render(fs[0]) + (RenderAll(fs[1..]) + rest)
  {
    AppendAssoc(Render(fs[0]), RenderAll(fs[1..]), rest);
  }

  lemma {:induction false} FramesComplete(fs: seq<Frame>, rest: Bytes)
    requires AllFit(fs)
    ensures Frames(RenderAll(fs) + rest) == Prepend(fs, Frames(rest))
  {
    if fs == [] {
      assert RenderAll(fs) + rest == rest;
      PrependNone(Frames(rest));
    } else {
      FramesComplete(fs[1..], rest);
      RenderAllCons(fs, rest);
      FramesOfRender(fs[0], RenderAll(fs[1..]) + rest);
      PrependTwice([fs[0]], fs[1..], Frames(rest));
      assert [fs[0]] + fs[1..] == fs;
    }
  }

  lemma RenderCons(f: Frame, fs: seq<Frame>)
    requires f.Fits() && AllFit(fs)
    ensures AllFit([f] + fs) && RenderAll([f] + fs) == Render(f) + RenderAll(fs)
  {
    assert ([f] + fs)[1..] == fs;
  }

  lemma RenderHead(input: Bytes, n: nat)
    requires 3 + n <= |input| && n == FromLe16(input[1], input[2])
    ensures Render(Frame(input[0], input[3..3 + n])) + input[3 + n..] == input
  {
    var head := Render(Frame(input[0], input[3..3 + n]));
    assert Le16(n) == [input[1], input[2]];
    assert head == input[..3 + n];
  }

  lemma {:induction false} FramesSound(input: Bytes)
    requires Frames(input).Some?
    ensures RenderAll(Frames(input).value) == input
  {
    if input != [] {
      var n := FromLe16(input[1], input[2]);
      var f, rest := Frame(input[0], input[3..3 + n]), input[3 + n..];
      FramesSound(rest);
      RenderCons(f, Frames(rest).value);
      RenderHead(input, n);
    }
  }

  /** The scan accepts exactly the concatenations of complete frames, and
      recovers the frames that were concatenated. */
  lemma ScanAcceptsExactlyFrames(input: Bytes, fs: seq<Frame>)
    ensures Frames(input) == Some(fs) <==> AllFit(fs) && RenderAll(fs) == input
  {
    if Frames(input) == Some(fs) {
      FramesSound(input);
    }
    if AllFit(fs) && RenderAll(fs) == input {
      FramesComplete(fs, []);
      assert RenderAll(fs) + [] == input;
      assert fs + [] == fs;
    }
  }

  /** What each frame stands for: its body under flag 0, the unpacked body under
      flag 1. No other flag stands for anything. */
  predicate Unpacks(gz: Gzip, fs: seq<Frame>, parts: seq<Bytes>)
  {
    && |fs| == |parts|
    && forall i | 0 <= i < |fs| ::
         || (fs[i].flag == 0 && parts[i] == fs[i].body)
         || (fs[i].flag == 1 && gz.decode(fs[i].body) == Some(parts[i]))
  }

  lemma {:induction false} DecodeFramesSound(gz: Gzip, fs: seq<Frame>) returns (parts: seq<Bytes>)
    requires DecodeFrames(gz, fs).Some?
    ensures Unpacks(gz, fs, parts) && Flatten(parts) == DecodeFrames(gz, fs).value
  {
    parts := [];
    if fs != [] {
      var rest := DecodeFramesSound(gz, fs[1..]);
      parts := [DecodeFrame(gz, fs[0]).value] + rest;
      assert parts[1..] == rest;
      forall i | 0 < i < |fs|
        ensures (fs[i].flag == 0 && parts[i] == fs[i].body) ||
                (fs[i].flag == 1 && gz.decode(fs[i].body) == Some(parts[i]))
      {
        assert fs[1..][i - 1] == fs[i] && rest[i - 1] == parts[i];
      }
    }
  }

  lemma OneFails(gz: Gzip, fs: seq<Frame>, k: nat)
    requires k < |fs| && DecodeFrame(gz, fs[k]).None?
    ensures DecodeFrames(gz, fs).None?
  {
    if DecodeFrames(gz, fs).Some? {
      var _ := DecodeFramesSound(gz, fs);
    }
  }

  lemma {:induction false} DecodeFramesComplete(gz: Gzip, fs: seq<Frame>, parts: seq<Bytes>)
    requires Unpacks(gz, fs, parts)
    ensures DecodeFrames(gz, fs) == Some(Flatten(parts))
  {
    if fs != [] {
      DecodeFramesComplete(gz, fs[1..], parts[1..]);
    }
  }

  /** An input made of these frames, which stand for these parts of `output`. */
  ghost predicate Denotes(gz: Gzip, fs: seq<Frame>, parts: seq<Bytes>, input: Bytes, output: Bytes)
  {
    AllFit(fs) && RenderAll(fs) == input && Unpacks(gz, fs, parts) && Flatten(parts) == output
  }

  /** Decoding gives the output exactly when the input is a concatenation of
      complete frames that stand for it, part by part. */
  lemma DecompressAcceptsExactly(gz: Gzip, input: Bytes, output: Bytes)
    ensures Decompressed(gz, input) == Some(output) <==> exists fs, parts :: Denotes(gz, fs, parts, input, output)
  {
    if Decompressed(gz, input) == Some(output) {
      var fs := Frames(input).value;
      FramesSound(input);
      var parts := DecodeFramesSound(gz, fs);
      assert Denotes(gz, fs, parts, input, output);
    }
    forall fs, parts | Denotes(gz, fs, parts, input, output) ensures Decompressed(gz, input) == Some(output) {
      ScanAcceptsExactlyFrames(input, fs);
      DecodeFramesComplete(gz, fs, parts);
    }
  }

  /** What follows decoded bytes. */
  function After(x: Bytes, r: Option<Bytes>): Option<Bytes>
  {
    match r case None => None case Some(y) => Some(x + y)
  }

  lemma {:induction false} DecodeFramesAppend(gz: Gzip, fs: seq<Frame>, gs: seq<Frame>)
    requires DecodeFrames(gz, fs).Some?
    ensures DecodeFrames(gz, fs + gs) == After(DecodeFrames(gz, fs).value, DecodeFrames(gz, gs))
  {
    if fs == [] {
      assert fs + gs == gs;
      if DecodeFrames(gz, gs).Some? {
        var z := DecodeFrames(gz, gs).value;
        assert [] + z == z;
      }
    } else {
      DecodeFramesAppend(gz, fs[1..], gs);
      assert (fs + gs)[1..] == fs[1..] + gs;
      if DecodeFrames(gz, gs).Some? {
        AppendAssoc(DecodeFrame(gz, fs[0]).value, DecodeFrames(gz, fs[1..]).value, DecodeFrames(gz, gs).value);
      }
    }
  }

  /** Decoding a concatenation is the concatenation of the decodings; after a
      first part that decodes, the whole fails exactly when the rest does. */
  lemma DecompressConcat(gz: Gzip, a: Bytes, b: Bytes)
    requires Decompressed(gz, a).Some?
    ensures Decompressed(gz, a + b) == After(Decompressed(gz, a).value, Decompressed(gz, b))
  {
    FramesSound(a);
    FramesComplete(Frames(a).value, b);
    if Frames(b).Some? { DecodeFramesAppend(gz, Frames(a).value, Frames(b).value); }
  }

  // ---------------------------------------------------------- round trip

  lemma ChunkFitsItsFrame(gz: Gzip, chunk: Bytes)
    requires |chunk| <= CHUNK_SIZE
    ensures CompressChunk(gz, chunk) == Some(Render(FrameOf(gz, chunk)))
  {
    var n := |FrameOf(gz, chunk).body|;
    assert n % U16 == n;
  }

  lemma {:induction false} DecodeFramesOf(gz: Gzip, chunks: seq<Bytes>)
    requires gz.Lossless()
    requires forall i | 0 <= i < |chunks| :: |chunks[i]| <= CHUNK_SIZE
    ensures DecodeFrames(gz, FramesOf(gz, chunks)) == Some(Flatten(chunks))
  {
    if chunks != [] {
      DecodeFramesOf(gz, chunks[1..]);
      assert FramesOf(gz, chunks)[1..] == FramesOf(gz, chunks[1..]);
    }
  }

  /** What was compressed is what decompression returns. */
  lemma RoundTrip(gz: Gzip, input: Bytes)
    requires gz.Lossless()
    ensures Decompressed(gz, Compressed(gz, input)) == Some(input)
  {
    var fs := FramesOf(gz, Chunks(input));
    ScanAcceptsExactlyFrames(Compressed(gz, input), fs);
    DecodeFramesOf(gz, Chunks(input));
  }

  lemma {:induction false} RenderedSize(gz: Gzip, chunks: seq<Bytes>)
    requires forall i | 0 <= i < |chunks| :: |chunks[i]| <= CHUNK_SIZE
    ensures |RenderAll(FramesOf(gz, chunks))| <= |Flatten(chunks)| + 3 * |chunks|
  {
    if chunks != [] {
      RenderedSize(gz, chunks[1..]);
      assert FramesOf(gz, chunks)[1..] == FramesOf(gz, chunks[1..]);
    }
  }

  /** Compression costs at most three bytes per started chunk. */
  lemma ExpansionBound(gz: Gzip, input: Bytes)
    ensures |Compressed(gz, input)| <= |input| + 3 * ((|input| + CHUNK_SIZE - 1) / CHUNK_SIZE)
  {
    RenderedSize(gz, Chunks(input));
  }

  /** One chunk of output, octet by octet: packed with flag 1 if packing does
      not make it longer, else as it is with flag 0; the length of the body,
      low octet first; the body. */
  ghost predicate OneFrame(gz: Gzip, chunk: Bytes, output: Bytes)
  {
    var packed := gz.encode(chunk);
    var body := if |packed| <= |chunk| then packed else chunk;
    && |output| == 3 + |body|
    && (output[0] == 1 <==> |packed| <= |chunk|) && (output[0] == 0 <==> |packed| > |chunk|)
    && output[1] as int == |body| % 256 && output[2] as int == |body| / 256
    && forall i | 0 <= i < |body| :: output[3 + i] == body[i]
  }

  /** An input of at most 64512 bytes is one such frame. */
  lemma CompressedOne(gz: Gzip, input: Bytes)
    requires 0 < |input| <= 64512
    ensures OneFrame(gz, input, Compressed(gz, input))
  {
    var f := FrameOf(gz, input);
    assert FramesOf(gz, Chunks(input)) == [f];
    RenderedOne(f);
  }

  lemma RenderedOne(f: Frame)
    requires f.Fits()
    ensures AllFit([f]) && RenderAll([f]) == Render(f)
  {
    assert [f][1..] == [];
    assert Render(f) + RenderAll([]) == Render(f);
  }

  /** A longer one is its first 64512 bytes and then the rest. */
  lemma CompressedConcat(gz: Gzip, x: Bytes, y: Bytes)
    requires |x| == 64512
    ensures Compressed(gz, x + y) == Compressed(gz, x) + Compressed(gz, y)
  {
    ChunksConcat(x, y);
    FramesOfCons(gz, x, Chunks(y));
    FramesOfCons(gz, x, []);
    RenderedOne(FrameOf(gz, x));
    RenderCons(FrameOf(gz, x), FramesOf(gz, Chunks(y)));
  }

  lemma ChunksConcat(x: Bytes, y: Bytes)
    requires |x| == 64512
    ensures Chunks(x) == [x] + [] && Chunks(x + y) == [x] + Chunks(y)
  {
    assert [x] + [] == [x];
    if y == [] {
      assert x + y == x;
    } else {
      assert (x + y)[..CHUNK_SIZE] == x && (x + y)[CHUNK_SIZE..] == y;
    }
  }

  lemma FramesOfCons(gz: Gzip, x: Bytes, ys: seq<Bytes>)
    requires |x| <= CHUNK_SIZE && forall i | 0 <= i < |ys| :: |ys[i]| <= CHUNK_SIZE
    ensures FramesOf(gz, [x] + ys) == [FrameOf(gz, x)] + FramesOf(gz, ys)
    ensures FramesOf(gz, [x]) == [FrameOf(gz, x)]
  {
  }

  /** The whole output: one such frame for each 64512 bytes, and for what is
      left, end to end. */
  ghost predicate Laid(gz: Gzip, input: Bytes, output: Bytes)
    decreases |input|
  {
    if input == [] then output == []
    else
      var n := if |input| < 64512 then |input| else 64512;
      var packed := gz.encode(input[..n]);
      var k := 3 + if |packed| <= n then |packed| else n;
      k <= |output| && OneFrame(gz, input[..n], output[..k]) && Laid(gz, input[n..], output[k..])
  }

  lemma {:induction false} CompressedIsLaid(gz: Gzip, input: Bytes)
    ensures Laid(gz, input, Compressed(gz, input))
    decreases |input|
  {
    if input != [] {
      var n := if |input| < 64512 then |input| else 64512;
      var x, y := input[..n], input[n..];
      assert x + y == input;
      CompressedOne(gz, x);
      CompressedIsLaid(gz, y);
      if n == 64512 { CompressedConcat(gz, x, y); } else { assert x == input && y == []; }
      var head, rest := Compressed(gz, x), Compressed(gz, y);
      assert (head + rest)[..|head|] == head && (head + rest)[|head|..] == rest;
    }
  }

  // -------------------------------------------------- the imperative codec

  /** A slot of a buffer whose length was set before it was filled. */
  datatype Cell = Uninit | Init(byte: Byte)

  method CopyInto(buf: array<Cell>, offset: nat, bytes: Bytes)
    requires offset + |bytes| <= buf.Length
    requires forall i | offset <= i < offset + |bytes| :: buf[i].Uninit?  // no byte is written twice
    modifies buf
    ensures forall i | 0 <= i < buf.Length ::
              buf[i] == if offset <= i < offset + |bytes| then Init(bytes[i - offset]) else old(buf[i])
  {
    for k := 0 to |bytes|
      invariant forall i | 0 <= i < buf.Length ::
                  buf[i] == if offset <= i < offset + k then Init(bytes[i - offset]) else old(buf[i])
    {
      buf[offset + k] := Init(bytes[k]);
    }
  }

  lemma {:induction false} FlattenPrefix(parts: seq<Bytes>, k: nat)
    requires k <= |parts|
    ensures Flatten(parts) == Flatten(parts[..k]) + Flatten(parts[k..])
  {
    FlattenAppend(parts[..k], parts[k..]);
    assert parts[..k] + parts[k..] == parts;
  }

  /** Sizes the output, then copies every part to its offset: each byte of the
      buffer is written exactly once. */
  method Assemble(parts: seq<Bytes>) returns (result: Bytes)
    ensures result == Flatten(parts)
  {
    var total := 0;
    for k := 0 to |parts|
      invariant total == |Flatten(parts[..k])|
    {
      FlattenSnoc(parts[..k], parts[k]);
      assert parts[..k + 1] == parts[..k] + [parts[k]];
      total := total + |parts[k]|;
    }
    assert parts[..|parts|] == parts;
    var buf := new Cell[total](_ => Uninit);
    var offset := 0;
    for k := 0 to |parts|
      invariant offset == |Flatten(parts[..k])| <= total
      invariant forall i | 0 <= i < offset :: buf[i] == Init(Flatten(parts)[i])
      invariant forall i | offset <= i < total :: buf[i].Uninit?
    {
      FlattenSnoc(parts[..k], parts[k]);
      assert parts[..k + 1] == parts[..k] + [parts[k]];
      FlattenPrefix(parts, k + 1);
      if |parts[k]| != 0 {
        CopyInto(buf, offset, parts[k]);
        offset := offset + |parts[k]|;
      }
    }
    result := seq(total, i requires 0 <= i < total && buf.Length == total && buf[i].Init? reads buf => buf[i].byte);
  }

  /** Each chunk on its own, in order. */
  method CompressChunks(gz: Gzip, chunks: seq<Bytes>) returns (r: Option<seq<Bytes>>)
    requires forall i | 0 <= i < |chunks| :: |chunks[i]| <= CHUNK_SIZE
    ensures r.Some? && |r.value| == |chunks| && Flatten(r.value) == RenderAll(FramesOf(gz, chunks))
  {
    var frames := FramesOf(gz, chunks);
    var parts: seq<Bytes> := [];
    for k := 0 to |chunks|
      invariant |parts| == k
      invariant Flatten(parts) == RenderAll(frames[..k])
    {
      ChunkFitsItsFrame(gz, chunks[k]);
      match CompressChunk(gz, chunks[k]) {
        case None => return None;
        case Some(part) =>
          FlattenSnoc(parts, part);
          RenderAllSnoc(frames[..k], frames[k]);
          assert frames[..k + 1] == frames[..k] + [frames[k]];
          parts := parts + [part];
      }
    }
    assert frames[..|chunks|] == frames;
    return Some(parts);
  }

  method CompressAll(gz: Gzip, input: Bytes) returns (r: Option<Bytes>)
    ensures r == Some(Compressed(gz, input)) && Laid(gz, input, r.value)
  {
    var parts := CompressChunks(gz, Chunks(input));
    if parts.None? { return None; }
    var result := Assemble(parts.value);
    CompressedIsLaid(gz, input);
    return Some(result);
  }

  lemma {:induction false} RenderAllSnoc(fs: seq<Frame>, f: Frame)
    requires AllFit(fs) && f.Fits()
    ensures AllFit(fs + [f]) && RenderAll(fs + [f]) == RenderAll(fs) + Render(f)
  {
    if fs == [] {
      assert (fs + [f])[1..] == [];
    } else {
      RenderAllSnoc(fs[1..], f);
      assert (fs + [f])[1..] == fs[1..] + [f];
    }
  }

  /** A recorded chunk: its flag and where its body lies in the input. */
  datatype Range = Range(flag: Byte, start: nat, end: nat)

  /** The ranges with their 3-byte headers cover the input from `from` to its end, end to end. */
  ghost predicate Tiles(ranges: seq<Range>, from: nat, to: nat)
  {
    if ranges == [] then from == to
    else ranges[0].start == from + 3 && ranges[0].start <= ranges[0].end <= to && Tiles(ranges[1..], ranges[0].end, to)
  }

  lemma {:induction false} TilesSnoc(ranges: seq<Range>, from: nat, mid: nat, r: Range)
    requires Tiles(ranges, from, mid) && r.start == mid + 3 && r.start <= r.end
    ensures Tiles(ranges + [r], from, r.end)
    decreases |ranges|
  {
    if ranges == [] {
      assert (ranges + [r])[1..] == [];
    } else {
      TilesSnoc(ranges[1..], ranges[0].end, mid, r);
      assert (ranges + [r])[1..] == ranges[1..] + [r];
      TilesBound(ranges[1..] , ranges[0].end, mid);
    }
  }

  lemma {:induction false} TilesBound(ranges: seq<Range>, from: nat, to: nat)
    requires Tiles(ranges, from, to)
    ensures from <= to
    decreases |ranges|
  {
    if ranges != [] { TilesBound(ranges[1..], ranges[0].end, to); }
  }

  ghost predicate Records(input: Bytes, r: Range, f: Frame)
  {
    r.start <= r.end <= |input| && f == Frame(r.flag, input[r.start..r.end])
  }

  lemma FramesAt(input: Bytes, i: nat)
    requires i + 3 <= |input|
    ensures var n := FromLe16(input[i + 1], input[i + 2]);
            Frames(input[i..]) ==
            if i + 3 + n > |input| then None
            else Prepend([Frame(input[i], input[i + 3..i + 3 + n])], Frames(input[i + 3 + n..]))
  {
    var here := input[i..];
    var n := FromLe16(input[i + 1], input[i + 2]);
    assert here[0] == input[i] && here[1] == input[i + 1] && here[2] == input[i + 2];
    if i + 3 + n <= |input| {
      assert here[3..3 + n] == input[i + 3..i + 3 + n] && here[3 + n..] == input[i + 3 + n..];
    }
  }

  /** The recorded ranges cover the input before `i` and hold the bodies of `done`. */
  ghost predicate Recorded(input: Bytes, i: nat, ranges: seq<Range>, done: seq<Frame>)
  {
    && Tiles(ranges, 0, i)
    && |ranges| == |done|
    && forall k | 0 <= k < |ranges| :: Records(input, ranges[k], done[k])
  }

  lemma RecordOne(input: Bytes, i: nat, ranges: seq<Range>, done: seq<Frame>, end: nat)
    requires Recorded(input, i, ranges, done) && i + 3 <= end <= |input|
    ensures Recorded(input, end, ranges + [Range(input[i], i + 3, end)], done + [Frame(input[i], input[i + 3..end])])
  {
    TilesSnoc(ranges, 0, i, Range(input[i], i + 3, end));
  }

  /** The part of the input before `i` has been indexed. */
  ghost predicate Indexed(input: Bytes, i: nat, ranges: seq<Range>, done: seq<Frame>)
  {
    i <= |input| && Frames(input) == Prepend(done, Frames(input[i..])) && Recorded(input, i, ranges, done)
  }

  lemma IndexOne(input: Bytes, i: nat, ranges: seq<Range>, done: seq<Frame>, end: nat)
    requires Indexed(input, i, ranges, done) && i + 3 <= |input|
    requires end == i + 3 + FromLe16(input[i + 1], input[i + 2])
    ensures end > |input| ==> Frames(input).None?
    ensures end <= |input| ==>
              Indexed(input, end, ranges + [Range(input[i], i + 3, end)], done + [Frame(input[i], input[i + 3..end])])
  {
    FramesAt(input, i);
    if end <= |input| {
      PrependTwice(done, [Frame(input[i], input[i + 3..end])], Frames(input[end..]));
      RecordOne(input, i, ranges, done, end);
    }
  }

  lemma IndexNone(input: Bytes)
    ensures Indexed(input, 0, [], [])
  {
    assert input[0..] == input;
    PrependNone(Frames(input));
  }

  lemma IndexShort(input: Bytes, i: nat, ranges: seq<Range>, done: seq<Frame>)
    requires Indexed(input, i, ranges, done) && i < |input| < i + 3
    ensures Frames(input).None?
  {
    assert Frames(input[i..]).None?;
  }

  lemma IndexAll(input: Bytes, ranges: seq<Range>, done: seq<Frame>)
    requires Indexed(input, |input|, ranges, done)
    ensures Frames(input) == Some(done)
  {
    assert input[|input|..] == [];
    assert done + [] == done;
  }

  /** The index loop: it succeeds exactly when the input is made of complete
      frames, and then records each body in place with no gap and no overlap. */
  method Scan(input: Bytes) returns (r: Option<seq<Range>>)
    ensures r.Some? <==> Frames(input).Some?
    ensures r.Some? ==> Indexed(input, |input|, r.value, Frames(input).value)
  {
    var i := 0;
    var ranges: seq<Range> := [];
    ghost var done: seq<Frame> := [];
    IndexNone(input);
    while i < |input|
      invariant Indexed(input, i, ranges, done)
    {
      if i + 3 > |input| {
        IndexShort(input, i, ranges, done);
        return None;
      }
      var flag := input[i];
      var len := FromLe16(input[i + 1], input[i + 2]);
      IndexOne(input, i, ranges, done, i + 3 + len);
      if i + 3 + len > |input| {
        return None;
      }
      done := done + [Frame(flag, input[i + 3..i + 3 + len])];
      ranges := ranges + [Range(flag, i + 3, i + 3 + len)];
      i := i + 3 + len;
    }
    IndexAll(input, ranges, done);
    return Some(ranges);
  }

  lemma {:induction false} DecodeFramesSnoc(gz: Gzip, fs: seq<Frame>, f: Frame)
    ensures DecodeFrames(gz, fs + [f]) ==
            (match (DecodeFrames(gz, fs), DecodeFrame(gz, f))
             case (Some(x), Some(y)) => Some(x + y)
             case _ => None)
  {
    if fs == [] {
      assert (fs + [f])[1..] == [];
      if DecodeFrame(gz, f).Some? { var x := DecodeFrame(gz, f).value; assert x + [] == x == [] + x; }
    } else {
      DecodeFramesSnoc(gz, fs[1..], f);
      assert (fs + [f])[1..] == fs[1..] + [f];
      if DecodeFrame(gz, fs[0]).Some? && DecodeFrames(gz, fs[1..]).Some? && DecodeFrame(gz, f).Some? {
        AppendAssoc(DecodeFrame(gz, fs[0]).value, DecodeFrames(gz, fs[1..]).value, DecodeFrame(gz, f).value);
      }
    }
  }

  method DecompressAll(gz: Gzip, input: Bytes) returns (r: Option<Bytes>)
    ensures r == Decompressed(gz, input)
  {
    var index := Scan(input);
    if index.None? {
      return None;
    }
    var ranges := index.value;
    ghost var fs := Frames(input).value;
    var parts: seq<Bytes> := [];
    for k := 0 to |ranges|
      invariant |parts| == k
      invariant DecodeFrames(gz, fs[..k]) == Some(Flatten(parts))
    {
      DecodeFramesSnoc(gz, fs[..k], fs[k]);
      assert fs[..k + 1] == fs[..k] + [fs[k]];
      assert Records(input, ranges[k], fs[k]);
      var part := DecodeFrame(gz, Frame(ranges[k].flag, input[ranges[k].start..ranges[k].end]));
      if part.None? {
        OneFails(gz, fs, k);
        return None;
      }
      FlattenSnoc(parts, part.value);
      parts := parts + [part.value];
    }
    assert fs[..|ranges|] == fs;
    var result := Assemble(parts);
    return Some(result);
  }
}
