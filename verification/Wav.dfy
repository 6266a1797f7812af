/** The WAV printer and the seek-backed parser of the fixture generator
    (cmd/gen-noisy-greetings/main.go). A file is its bytes. */
module Wav {
  import opened Wrappers
  import opened Int64
  import opened ByteStreams

  const TWO_TO_THE_16: int := 0x1_0000
  const TWO_TO_THE_32: int := 0x1_0000_0000

  const RIFF: seq<Byte> := [0x52, 0x49, 0x46, 0x46]
  const WAVE: seq<Byte> := [0x57, 0x41, 0x56, 0x45]
  const FMT: seq<Byte> := [0x66, 0x6d, 0x74, 0x20]
  const DATA: seq<Byte> := [0x64, 0x61, 0x74, 0x61]

  const NUM_CHANNELS: int := 1
  const BITS_PER_SAMPLE: int := 16
  const HEAD: nat := 4096

  // ---- Little-endian fields ----

  /** The conversion to uint16 and its two bytes. */
  function Le16(x: int): (b: seq<Byte>)
    ensures |b| == 2
  {
    var u := x % TWO_TO_THE_16;
    [u % 0x100, u / 0x100]
  }

  /** The conversion to uint32 and its four bytes. */
  function Le32(x: int): (b: seq<Byte>)
    ensures |b| == 4
  {
    var u := x % TWO_TO_THE_32;
    [u % 0x100, u / 0x100 % 0x100, u / 0x1_0000 % 0x100, u / 0x100_0000]
  }

  function U16(b: seq<Byte>, i: nat): nat
    requires i + 2 <= |b|
  {
    var b0: int, b1: int := b[i], b[i + 1];
    b0 + 0x100 * b1
  }

  function U32(b: seq<Byte>, i: nat): nat
    requires i + 4 <= |b|
  {
    var b0: int, b1: int, b2: int, b3: int := b[i], b[i + 1], b[i + 2], b[i + 3];
    b0 + 0x100 * b1 + 0x1_0000 * b2 + 0x100_0000 * b3
  }

  /** `bytes` stand at offset `i` of `b`. */
  ghost predicate At(b: seq<Byte>, i: nat, bytes: seq<Byte>) {
    i + |bytes| <= |b| && b[i..i + |bytes|] == bytes
  }

  lemma SliceOfSlice(b: seq<Byte>, from: nat, to: nat, lo: nat, hi: nat)
    requires from <= to <= |b| && lo <= hi <= to - from
    ensures b[from..to][lo..hi] == b[from + lo..from + hi]
  {
    var x, y := b[from..to][lo..hi], b[from + lo..from + hi];
    forall k | 0 <= k < |x|
      ensures x[k] == y[k]
    {
      assert b[from..to][lo + k] == b[from + (lo + k)];
    }
  }

  lemma AtSlice(b: seq<Byte>, i: nat, bytes: seq<Byte>, lo: nat, hi: nat)
    requires At(b, i, bytes) && lo <= hi <= |bytes|
    ensures At(b, i + lo, bytes[lo..hi])
  {
    SliceOfSlice(b, i, i + |bytes|, lo, hi);
  }

  lemma AtParts(b: seq<Byte>, i: nat, x: seq<Byte>, y: seq<Byte>)
    requires At(b, i, x + y)
    ensures At(b, i, x) && At(b, i + |x|, y)
  {
    AtSlice(b, i, x + y, 0, |x|);
    AtSlice(b, i, x + y, |x|, |x + y|);
    assert (x + y)[0..|x|] == x && (x + y)[|x|..|x + y|] == y;
  }

  lemma U32Moves(b: seq<Byte>, i: nat, field: seq<Byte>)
    requires |field| == 4 && At(b, i, field)
    ensures i + 4 <= |b| && U32(b, i) == U32(field, 0)
  {
    assert b[i..i + 4][0] == b[i] && b[i..i + 4][1] == b[i + 1] && b[i..i + 4][2] == b[i + 2] && b[i..i + 4][3] == b[i + 3];
  }

  lemma U16Moves(b: seq<Byte>, i: nat, field: seq<Byte>, k: nat)
    requires k + 2 <= |field| && At(b, i, field)
    ensures i + k + 2 <= |b| && U16(b, i + k) == U16(field, k)
  {
    assert b[i..i + |field|][k] == b[i + k] && b[i..i + |field|][k + 1] == b[i + k + 1];
  }

  lemma U32OfLe32(x: int)
    ensures U32(Le32(x), 0) == x % TWO_TO_THE_32
  {
    BytesOfWord(x % TWO_TO_THE_32);
  }

  lemma BytesOfWord(u: nat)
    ensures u == u % 0x100 + 0x100 * (u / 0x100 % 0x100) + 0x1_0000 * (u / 0x1_0000 % 0x100) + 0x100_0000 * (u / 0x100_0000)
  {
    assert u == u / 0x100 * 0x100 + u % 0x100;
    assert u / 0x100 == u / 0x1_0000 * 0x100 + u / 0x100 % 0x100;
    assert u / 0x1_0000 == u / 0x100_0000 * 0x100 + u / 0x1_0000 % 0x100;
  }

  // ---- The printer ----

  /** The samples as bytes. */
  function Pcm(samples: seq<Int16>): (b: seq<Byte>)
    ensures |b| == 2 * |samples|
  {
    if samples == [] then [] else Pcm(samples[..|samples| - 1]) + Le16(samples[|samples| - 1])
  }

  /** The variable fields of the header, as bytes. */
  datatype Fields = Fields(riffSize: seq<Byte>, rate: seq<Byte>, byteRate: seq<Byte>, dataSize: seq<Byte>)

  predicate FourEach(f: Fields) {
    |f.riffSize| == 4 && |f.rate| == 4 && |f.byteRate| == 4 && |f.dataSize| == 4
  }

  function FieldsFor(dataLen: nat, rate: int64): (f: Fields)
    ensures FourEach(f)
  {
    Fields(
      Le32(36 + dataLen), Le32(rate),
      Le32(Quotient(Wrap(rate * NUM_CHANNELS * BITS_PER_SAMPLE), 8)), Le32(dataLen))
  }

  const PCM_FORMAT: seq<Byte> := [1, 0]
  const CHANNELS: seq<Byte> := [1, 0]
  const BLOCK_ALIGN: seq<Byte> := [2, 0]
  const DEPTH: seq<Byte> := [16, 0]
  const FMT_SIZE: seq<Byte> := [16, 0, 0, 0]

  function FmtBody(f: Fields): seq<Byte> {
    PCM_FORMAT + CHANNELS + f.rate + f.byteRate + BLOCK_ALIGN + DEPTH
  }

  function Layout(f: Fields): seq<Byte> {
    RIFF + f.riffSize + (WAVE + FMT) + FMT_SIZE
    + PCM_FORMAT + CHANNELS + f.rate + f.byteRate + BLOCK_ALIGN + DEPTH
    + DATA + f.dataSize
  }

  /** The constant fields are the little-endian numbers the source writes. */
  lemma ConstantFields()
    ensures FMT_SIZE == Le32(16) && PCM_FORMAT == Le16(1) && CHANNELS == Le16(NUM_CHANNELS)
    ensures BLOCK_ALIGN == Le16(NUM_CHANNELS * BITS_PER_SAMPLE / 8) && DEPTH == Le16(BITS_PER_SAMPLE)
  {
  }

  /** The file writeWAV writes. */
  function Written(samples: seq<Int16>, rate: int64): seq<Byte> {
    Layout(FieldsFor(2 * |samples|, rate)) + Pcm(samples)
  }

  /** Fills the next field of a buffer written from front to back. */
  method PutBytes(a: array<Byte>, off: nat, bytes: seq<Byte>)
    requires off + |bytes| <= a.Length
    modifies a
    ensures a[..off + |bytes|] == old(a[..off]) + bytes
  {
    for k := 0 to |bytes|
      invariant a[..off] == old(a[..off])
      invariant forall j | 0 <= j < k :: a[off + j] == bytes[j]
    {
      a[off + k] := bytes[k];
    }
  }

  method EncodePcm(samples: seq<Int16>, data: array<Byte>)
    requires data.Length == 2 * |samples|
    modifies data
    ensures data[..] == Pcm(samples)
  {
    for i := 0 to |samples|
      invariant data[..2 * i] == Pcm(samples[..i])
    {
      assert samples[..i + 1][..i] == samples[..i];
      PutBytes(data, 2 * i, Le16(samples[i]));
    }
    assert samples[..|samples|] == samples && data[..2 * |samples|] == data[..];
  }

  method PutHeader(h: array<Byte>, f: Fields)
    requires h.Length == 44 && FourEach(f)
    modifies h
    ensures h[..] == Layout(f)
  {
    PutBytes(h, 0, RIFF);
    assert h[..4] == RIFF;
    PutBytes(h, 4, f.riffSize);
    PutBytes(h, 8, WAVE + FMT);
    PutBytes(h, 16, FMT_SIZE);
    PutBytes(h, 20, PCM_FORMAT);
    PutBytes(h, 22, CHANNELS);
    PutBytes(h, 24, f.rate);
    PutBytes(h, 28, f.byteRate);
    PutBytes(h, 32, BLOCK_ALIGN);
    PutBytes(h, 34, DEPTH);
    PutBytes(h, 36, DATA);
    PutBytes(h, 40, f.dataSize);
    assert h[..44] == h[..];
  }

  /** writeWAV, returning the file it would write. */
  method WriteWav(samples: seq<Int16>, rate: int64) returns (file: seq<Byte>)
    ensures file == Written(samples, rate)
  {
    var data := new Byte[2 * |samples|];
    EncodePcm(samples, data);
    var h := new Byte[44];
    PutHeader(h, FieldsFor(data.Length, rate));
    file := h[..] + data[..];
  }

  // ---- The parser ----

  datatype WavFile = WavFile(rate: int, dataOff: nat, dataLen: nat)

  /** OutOfRange is the run-time panic of slicing past the 4096-byte buffer. */
  datatype WavError = Unreadable | NotRiff | WantMono | Want16Bit | NoData | OutOfRange

  /** What Read of the first 4096 bytes leaves: the fixed buffer, zeros where
      the file ends early, and the sizes of what was read and of the file. */
  datatype Head = Head(buffer: seq<Byte>, length: nat, fileSize: nat)

  predicate ValidHead(h: Head) {
    |h.buffer| == HEAD && h.length <= HEAD && h.length <= h.fileSize && (h.length == h.fileSize || h.length == HEAD)
  }

  function ReadHead(file: seq<Byte>): (h: Head)
    ensures ValidHead(h) && h.fileSize == |file|
  {
    if |file| >= HEAD then Head(file[..HEAD], HEAD, |file|)
    else Head(file + seq(HEAD - |file|, _ => 0), |file|, |file|)
  }

  /** What the walk does at one chunk: end with a result, or go on. */
  datatype Visit = Stop(result: Result<WavFile, WavError>) | Next(i: nat, rate: int)

  /** The data chunk, whose extent is clamped to the file. */
  function DataChunk(fileSize: nat, off: nat, declared: nat, rate: int): Result<WavFile, WavError>
    requires off <= fileSize
  {
    Ok(WavFile(rate, off, if off + declared > fileSize then fileSize - off else declared))
  }

  /** The four bytes at `i` spell `id`. */
  predicate Spells(b: seq<Byte>, i: nat, id: seq<Byte>)
    requires i + 4 <= |b| && |id| == 4
  {
    b[i] == id[0] && b[i + 1] == id[1] && b[i + 2] == id[2] && b[i + 3] == id[3]
  }

  function VisitChunk(h: Head, i: nat, rate: int): Visit
    requires ValidHead(h) && i + 8 <= h.length
  {
    var sz := U32(h.buffer, i + 4);
    var next := i + 8 + sz + sz % 2;
    if Spells(h.buffer, i, FMT) then
      if i + 12 > HEAD then Stop(Err(OutOfRange))
      else if U16(h.buffer, i + 10) != NUM_CHANNELS then Stop(Err(WantMono))
      else if i + 24 > HEAD then Stop(Err(OutOfRange))
      else if U16(h.buffer, i + 22) != BITS_PER_SAMPLE then Stop(Err(Want16Bit))
      else Next(next, U32(h.buffer, i + 12))
    else if Spells(h.buffer, i, DATA) then Stop(DataChunk(h.fileSize, i + 8, sz, rate))
    else Next(next, rate)
  }

  /** The walk over the chunks from offset `i`, with the rate seen so far. */
  function Walk(h: Head, i: nat, rate: int): Result<WavFile, WavError>
    requires ValidHead(h)
    decreases if i < HEAD then HEAD - i else 0
  {
    if i + 8 > h.length then Err(NoData)
    else
      match VisitChunk(h, i, rate)
      case Stop(result) => result
      case Next(next, r) => Walk(h, next, r)
  }

  function OpenHead(h: Head): Result<WavFile, WavError>
    requires ValidHead(h)
  {
    if h.length == 0 then Err(Unreadable)
    else if h.length < 12 || !Spells(h.buffer, 0, RIFF) || !Spells(h.buffer, 8, WAVE) then Err(NotRiff)
    else Walk(h, 12, 0)
  }

  function Open(file: seq<Byte>): Result<WavFile, WavError> {
    OpenHead(ReadHead(file))
  }

  /** openWAV: the loop with its moving offset. */
  method OpenWav(file: seq<Byte>) returns (r: Result<WavFile, WavError>)
    ensures r == Open(file)
  {
    var h := ReadHead(file);
    r := WalkChunks(h);
  }

  method WalkChunks(h: Head) returns (r: Result<WavFile, WavError>)
    requires ValidHead(h)
    ensures r == OpenHead(h)
  {
    if h.length == 0 {
      return Err(Unreadable);
    }
    var head := h.buffer;
    if h.length < 12 || !Spells(head, 0, RIFF) || !Spells(head, 8, WAVE) {
      return Err(NotRiff);
    }
    var i, rate := 12, 0;
    while i + 8 <= h.length
      invariant OpenHead(h) == Walk(h, i, rate)
      decreases h.length - i
    {
      var visit := ReadChunk(h, i, rate);
      if visit.Stop? {
        return visit.result;
      }
      i, rate := visit.i, visit.rate;
    }
    r := Err(NoData);
  }

  /** The body of the loop: the switch on the chunk id. */
  method ReadChunk(h: Head, i: nat, rate: int) returns (visit: Visit)
    requires ValidHead(h) && i + 8 <= h.length
    ensures visit == VisitChunk(h, i, rate)
    ensures visit.Next? ==> visit.i >= i + 8
  {
    var head := h.buffer;
    var sz := U32(head, i + 4);
    var newRate := rate;
    if Spells(head, i, FMT) {
      if i + 12 > HEAD {
        return Stop(Err(OutOfRange));
      }
      if U16(head, i + 10) != NUM_CHANNELS {
        return Stop(Err(WantMono));
      }
      if i + 24 > HEAD {
        return Stop(Err(OutOfRange));
      }
      if U16(head, i + 22) != BITS_PER_SAMPLE {
        return Stop(Err(Want16Bit));
      }
      newRate := U32(head, i + 12);
    } else if Spells(head, i, DATA) {
      var dataLen := sz;
      if i + 8 + dataLen > h.fileSize {
        dataLen := h.fileSize - (i + 8);
      }
      return Stop(Ok(WavFile(rate, i + 8, dataLen)));
    }
    visit := Next(i + 8 + sz + sz % 2, newRate);
  }

  /** The first `n` samples stored at `b`. */
  function Decode(b: seq<Byte>, n: nat): (samples: seq<Int16>)
    requires 2 * n <= |b|
    ensures |samples| == n
  {
    if n == 0 then [] else Decode(b, n - 1) + [Sample(b[2 * n - 2], b[2 * n - 1])]
  }

  /** readAt on the seek-backed path; None is a read past the end. */
  method ReadAt(file: seq<Byte>, w: WavFile, sampleOff: nat, n: nat) returns (r: Option<seq<Int16>>)
    ensures r == if w.dataOff + 2 * (sampleOff + n) <= |file| || n == 0
                 then Some(Decode(if n == 0 then [] else file[w.dataOff + 2 * sampleOff..], n)) else None
  {
    var off := w.dataOff + 2 * sampleOff;
    if n == 0 {
      return Some([]);
    }
    if off + 2 * n > |file| {
      return None;
    }
    var buf := file[off..off + 2 * n];
    var out := [];
    for i := 0 to n
      invariant out == Decode(file[off..], i)
    {
      out := out + [Sample(buf[2 * i], buf[2 * i + 1])];
    }
    r := Some(out);
  }

  /** readWAV: everything in the data chunk, and the rate. */
  function Read(file: seq<Byte>): Result<(seq<Int16>, int), WavError> {
    match Open(file)
    case Err(e) => Err(e)
    case Ok(w) =>
      DataStaysInside(ReadHead(file), 12, 0);
      Ok((Decode(file[w.dataOff..], w.dataLen / 2), w.rate))
  }

  /** readWAV on the seek-backed path. */
  method ReadWav(file: seq<Byte>) returns (r: Result<(seq<Int16>, int), WavError>)
    ensures r == Read(file)
  {
    var w := OpenWav(file);
    if w.Err? {
      return Err(w.error);
    }
    DataStaysInside(ReadHead(file), 12, 0);
    var s := ReadAt(file, w.value, 0, w.value.dataLen / 2);
    r := Ok((s.value, w.value.rate));
  }

  /** The data extent the walk finds lies inside the file. */
  lemma DataStaysInside(h: Head, i: nat, rate: int)
    requires ValidHead(h)
    ensures var r := Walk(h, i, rate); r.Ok? ==> r.value.dataOff + r.value.dataLen <= h.fileSize
    decreases if i < HEAD then HEAD - i else 0
  {
  }

  // ---- The parser against well-formed files ----

  /** A RIFF chunk with its size field; an odd body is padded with one byte. */
  datatype Chunk = Chunk(id: seq<Byte>, size: seq<Byte>, body: seq<Byte>, pad: Byte)

  predicate WellFormed(c: Chunk) {
    && |c.id| == 4 && c.id != DATA
    && |c.size| == 4 && U32(c.size, 0) == |c.body|
    && (c.id == FMT ==>
          |c.body| >= 16 && U16(c.body, 2) == NUM_CHANNELS && U16(c.body, 14) == BITS_PER_SAMPLE)
  }

  function Padding(c: Chunk): seq<Byte> {
    if |c.body| % 2 == 1 then [c.pad] else []
  }

  function ChunkBytes(c: Chunk): seq<Byte> {
    (c.id + c.size) + (c.body + Padding(c))
  }

  function AllChunks(chunks: seq<Chunk>): seq<Byte> {
    if chunks == [] then [] else ChunkBytes(chunks[0]) + AllChunks(chunks[1..])
  }

  predicate AllWellFormed(chunks: seq<Chunk>) {
    chunks == [] || (WellFormed(chunks[0]) && AllWellFormed(chunks[1..]))
  }

  /** The rate a chunk leaves behind. */
  function RateAfter(c: Chunk, rate: int): int
    requires WellFormed(c)
  {
    if c.id == FMT then U32(c.body, 4) else rate
  }

  /** The rate of the last format chunk, or `rate` when there is none. */
  function LastRate(chunks: seq<Chunk>, rate: int): int
    requires AllWellFormed(chunks)
    decreases |chunks|
  {
    if chunks == [] then rate else LastRate(chunks[1..], RateAfter(chunks[0], rate))
  }

  lemma AtSpells(b: seq<Byte>, i: nat, id: seq<Byte>)
    requires |id| == 4 && At(b, i, id)
    ensures Spells(b, i, id)
  {
    var s := b[i..i + 4];
    assert s[0] == b[i] && s[1] == b[i + 1] && s[2] == b[i + 2] && s[3] == b[i + 3];
  }

  /** Two different ids cannot both be spelled at one place. */
  lemma SpellsOne(b: seq<Byte>, i: nat, id: seq<Byte>, other: seq<Byte>)
    requires i + 4 <= |b| && |id| == 4 && |other| == 4 && Spells(b, i, id)
    ensures Spells(b, i, other) <==> id == other
  {
    assert id == [id[0], id[1], id[2], id[3]] && other == [other[0], other[1], other[2], other[3]];
  }

  /** The id and the size the walk reads at offset `i`. */
  lemma IdAndSize(b: seq<Byte>, i: nat, id: seq<Byte>, size: seq<Byte>)
    requires |id| == 4 && |size| == 4 && At(b, i, id + size)
    ensures i + 8 <= |b| && Spells(b, i, id) && U32(b, i + 4) == U32(size, 0)
  {
    AtParts(b, i, id, size);
    AtSpells(b, i, id);
    U32Moves(b, i + 4, size);
  }

  /** The three fields the walk reads in a format chunk. */
  lemma FormatFields(b: seq<Byte>, i: nat, c: Chunk)
    requires WellFormed(c) && c.id == FMT && At(b, i + 8, c.body)
    ensures i + 24 <= |b|
    ensures U16(b, i + 10) == NUM_CHANNELS && U16(b, i + 22) == BITS_PER_SAMPLE && U32(b, i + 12) == RateAfter(c, 0)
  {
    U16Moves(b, i + 8, c.body, 2);
    U16Moves(b, i + 8, c.body, 14);
    AtSlice(b, i + 8, c.body, 4, 8);
    U32Moves(b, i + 12, c.body[4..8]);
  }

  /** The bytes a chunk occupies. */
  function Span(c: Chunk): nat {
    8 + |c.body| + |c.body| % 2
  }

  function TotalSpan(chunks: seq<Chunk>): nat {
    if chunks == [] then 0 else Span(chunks[0]) + TotalSpan(chunks[1..])
  }

  lemma ChunkSpan(c: Chunk)
    requires WellFormed(c)
    ensures |ChunkBytes(c)| == Span(c)
  {
  }

  lemma {:induction false} AllSpans(chunks: seq<Chunk>)
    requires AllWellFormed(chunks)
    ensures |AllChunks(chunks)| == TotalSpan(chunks)
    decreases |chunks|
  {
    if chunks != [] {
      ChunkSpan(chunks[0]);
      AllSpans(chunks[1..]);
    }
  }

  /** The walk passes one well-formed chunk. */
  lemma WalkPasses(h: Head, i: nat, rate: int, c: Chunk)
    requires ValidHead(h) && WellFormed(c)
    requires At(h.buffer, i, ChunkBytes(c)) && i + Span(c) <= h.length
    ensures Walk(h, i, rate) == Walk(h, i + Span(c), RateAfter(c, rate))
  {
    AtParts(h.buffer, i, c.id + c.size, c.body + Padding(c));
    IdAndSize(h.buffer, i, c.id, c.size);
    SpellsOne(h.buffer, i, c.id, FMT);
    SpellsOne(h.buffer, i, c.id, DATA);
    AtParts(h.buffer, i + 8, c.body, Padding(c));
    if c.id == FMT {
      FormatFields(h.buffer, i, c);
    }
  }

  /** The walk stops at the data chunk. */
  lemma WalkStops(h: Head, i: nat, rate: int, tail: seq<Byte>)
    requires ValidHead(h) && |tail| == 8 && tail[..4] == DATA && At(h.buffer, i, tail) && i + 8 <= h.length
    ensures Walk(h, i, rate) == DataChunk(h.fileSize, i + 8, U32(tail, 4), rate)
  {
    assert tail == tail[..4] + tail[4..];
    IdAndSize(h.buffer, i, tail[..4], tail[4..]);
    SpellsOne(h.buffer, i, DATA, FMT);
    assert DATA[0] != FMT[0];
  }

  /** Three parts, the first two of which were joined. */
  lemma AtJoined(b: seq<Byte>, i: nat, x: seq<Byte>, y: seq<Byte>, z: seq<Byte>)
    requires At(b, i, (x + y) + z)
    ensures At(b, i, x) && At(b, i + |x|, y + z)
  {
    assert (x + y) + z == x + (y + z);
    AtParts(b, i, x, y + z);
  }

  lemma FirstChunkFirst(b: seq<Byte>, i: nat, chunks: seq<Chunk>, tail: seq<Byte>)
    requires AllWellFormed(chunks) && chunks != [] && At(b, i, AllChunks(chunks) + tail)
    ensures At(b, i, ChunkBytes(chunks[0]))
    ensures At(b, i + Span(chunks[0]), AllChunks(chunks[1..]) + tail)
  {
    ChunkSpan(chunks[0]);
    AtJoined(b, i, ChunkBytes(chunks[0]), AllChunks(chunks[1..]), tail);
  }

  lemma TailAt(b: seq<Byte>, i: nat, tail: seq<Byte>)
    requires At(b, i, AllChunks([]) + tail)
    ensures At(b, i, tail)
  {
    assert AllChunks([]) + tail == tail;
  }

  lemma NoChunksLeft(h: Head, i: nat, rate: int, tail: seq<Byte>)
    requires ValidHead(h) && |tail| == 8 && tail[..4] == DATA && At(h.buffer, i, AllChunks([]) + tail)
    requires i + 8 <= h.length
    ensures Walk(h, i, rate) == DataChunk(h.fileSize, i + 8, U32(tail, 4), rate)
  {
    TailAt(h.buffer, i, tail);
    WalkStops(h, i, rate, tail);
  }

  lemma WalkPassesFirst(h: Head, i: nat, rate: int, chunks: seq<Chunk>, tail: seq<Byte>)
    requires ValidHead(h) && AllWellFormed(chunks) && chunks != []
    requires At(h.buffer, i, AllChunks(chunks) + tail) && i + TotalSpan(chunks) <= h.length
    ensures Walk(h, i, rate) == Walk(h, i + Span(chunks[0]), RateAfter(chunks[0], rate))
    ensures At(h.buffer, i + Span(chunks[0]), AllChunks(chunks[1..]) + tail)
  {
    FirstChunkFirst(h.buffer, i, chunks, tail);
    WalkPasses(h, i, rate, chunks[0]);
  }

  /** The walk finds the data chunk behind any well-formed chunks. */
  lemma {:induction false} WalkFindsData(h: Head, i: nat, rate: int, chunks: seq<Chunk>, tail: seq<Byte>)
      returns (off: nat, last: int)
    requires ValidHead(h) && AllWellFormed(chunks) && |tail| == 8 && tail[..4] == DATA
    requires At(h.buffer, i, AllChunks(chunks) + tail)
    requires i + TotalSpan(chunks) + 8 <= h.length
    ensures off == i + TotalSpan(chunks) + 8 && last == LastRate(chunks, rate)
    ensures Walk(h, i, rate) == DataChunk(h.fileSize, off, U32(tail, 4), last)
    decreases |chunks|
  {
    if chunks == [] {
      NoChunksLeft(h, i, rate, tail);
      off, last := i + 8, rate;
    } else {
      WalkPassesFirst(h, i, rate, chunks, tail);
      off, last := WalkFindsData(h, i + Span(chunks[0]), RateAfter(chunks[0], rate), chunks[1..], tail);
    }
  }

  /** A file: the preamble, some chunks, the data chunk's header, and its bytes. */
  function FileOf(riffSize: seq<Byte>, chunks: seq<Chunk>, size: seq<Byte>, data: seq<Byte>): seq<Byte> {
    (RIFF + riffSize + WAVE) + (AllChunks(chunks) + (DATA + size)) + data
  }

  lemma HeadHolds(file: seq<Byte>, i: nat, bytes: seq<Byte>)
    requires At(file, i, bytes) && i + |bytes| <= HEAD
    ensures At(ReadHead(file).buffer, i, bytes) && i + |bytes| <= ReadHead(file).length
  {
  }

  lemma OpenFinds(h: Head, riffSize: seq<Byte>, chunks: seq<Chunk>, size: seq<Byte>)
    requires ValidHead(h) && |riffSize| == 4 && |size| == 4
    requires AllWellFormed(chunks)
    requires At(h.buffer, 0, (RIFF + riffSize + WAVE) + (AllChunks(chunks) + (DATA + size)))
    requires 12 + |AllChunks(chunks)| + 8 <= h.length
    ensures OpenHead(h) == Walk(h, 12, 0)
    ensures At(h.buffer, 12, AllChunks(chunks) + (DATA + size))
  {
    var preamble := RIFF + riffSize + WAVE;
    AtParts(h.buffer, 0, preamble, AllChunks(chunks) + (DATA + size));
    AtParts(h.buffer, 0, RIFF + riffSize, WAVE);
    AtParts(h.buffer, 0, RIFF, riffSize);
    AtSpells(h.buffer, 0, RIFF);
    AtSpells(h.buffer, 8, WAVE);
  }

  /** Everything up to the data bytes. */
  function FrontOf(riffSize: seq<Byte>, chunks: seq<Chunk>, size: seq<Byte>): seq<Byte> {
    (RIFF + riffSize + WAVE) + (AllChunks(chunks) + (DATA + size))
  }

  lemma FileShape(riffSize: seq<Byte>, chunks: seq<Chunk>, size: seq<Byte>, data: seq<Byte>)
    requires |riffSize| == 4 && |size| == 4 && AllWellFormed(chunks)
    ensures var file := FileOf(riffSize, chunks, size, data);
            var off := 12 + TotalSpan(chunks) + 8;
            && |FrontOf(riffSize, chunks, size)| == off && At(file, 0, FrontOf(riffSize, chunks, size))
            && |file| == off + |data| && file[off..] == data
  {
    AllSpans(chunks);
    assert FileOf(riffSize, chunks, size, data) == FrontOf(riffSize, chunks, size) + data;
  }

  lemma HeadFinds(h: Head, riffSize: seq<Byte>, chunks: seq<Chunk>, size: seq<Byte>)
    requires ValidHead(h) && |riffSize| == 4 && |size| == 4 && AllWellFormed(chunks)
    requires At(h.buffer, 0, FrontOf(riffSize, chunks, size)) && 12 + TotalSpan(chunks) + 8 <= h.length
    ensures OpenHead(h) == DataChunk(h.fileSize, 12 + TotalSpan(chunks) + 8, U32(size, 0), LastRate(chunks, 0))
  {
    AllSpans(chunks);
    OpenFinds(h, riffSize, chunks, size);
    var tail := DATA + size;
    assert tail[..4] == DATA && U32(tail, 4) == U32(size, 0);
    var off, last := WalkFindsData(h, 12, 0, chunks, tail);
  }

  lemma OpenOfFront(file: seq<Byte>, riffSize: seq<Byte>, chunks: seq<Chunk>, size: seq<Byte>)
    requires |riffSize| == 4 && |size| == 4 && AllWellFormed(chunks)
    requires At(file, 0, FrontOf(riffSize, chunks, size)) && 12 + TotalSpan(chunks) + 8 <= HEAD
    ensures 12 + TotalSpan(chunks) + 8 <= |file|
    ensures Open(file) == DataChunk(|file|, 12 + TotalSpan(chunks) + 8, U32(size, 0), LastRate(chunks, 0))
  {
    AllSpans(chunks);
    HeadHolds(file, 0, FrontOf(riffSize, chunks, size));
    HeadFinds(ReadHead(file), riffSize, chunks, size);
  }

  /** Any well-formed, padded chunks may precede the data chunk, as long as its
      header lies in the first 4096 bytes: the parser finds the data, clamped to
      the file, with the rate of the last format chunk. */
  lemma ParserFindsData(file: seq<Byte>, riffSize: seq<Byte>, chunks: seq<Chunk>, size: seq<Byte>, data: seq<Byte>)
    requires |riffSize| == 4 && |size| == 4
    requires AllWellFormed(chunks)
    requires 12 + TotalSpan(chunks) + 8 <= HEAD
    requires file == FileOf(riffSize, chunks, size, data)
    ensures var off := 12 + TotalSpan(chunks) + 8;
            && |file| == off + |data| && file[off..] == data
            && Open(file) == DataChunk(|file|, off, U32(size, 0), LastRate(chunks, 0))
  {
    FileShape(riffSize, chunks, size, data);
    OpenOfFront(file, riffSize, chunks, size);
  }

  // ---- The round trip ----

  lemma SampleOfLe16(x: Int16)
    ensures Sample(Le16(x)[0], Le16(x)[1]) == x
  {
  }

  lemma DecodePcm(samples: seq<Int16>, n: nat)
    requires n <= |samples|
    ensures Decode(Pcm(samples), n) == samples[..n]
  {
    if n > 0 {
      DecodePcm(samples, n - 1);
      PcmAt(samples, n - 1);
      SampleOfLe16(samples[n - 1]);
    }
  }

  lemma {:induction false} PcmAt(samples: seq<Int16>, i: nat)
    requires i < |samples|
    ensures Pcm(samples)[2 * i] == Le16(samples[i])[0] && Pcm(samples)[2 * i + 1] == Le16(samples[i])[1]
    decreases |samples|
  {
    var before := samples[..|samples| - 1];
    if i < |before| {
      PcmAt(before, i);
    }
  }

  /** The format chunk of a header. */
  function FmtChunk(f: Fields): Chunk {
    Chunk(FMT, FMT_SIZE, FmtBody(f), 0)
  }

  lemma FmtChunkWellFormed(f: Fields)
    requires FourEach(f)
    ensures WellFormed(FmtChunk(f)) && RateAfter(FmtChunk(f), 0) == U32(f.rate, 0) && Span(FmtChunk(f)) == 24
  {
    var body := FmtBody(f);
    assert body[2] == 1 && body[3] == 0 && body[14] == 16 && body[15] == 0;
    assert body[4] == f.rate[0] && body[5] == f.rate[1] && body[6] == f.rate[2] && body[7] == f.rate[3];
  }

  lemma OneChunk(c: Chunk)
    requires WellFormed(c)
    ensures AllWellFormed([c]) && TotalSpan([c]) == Span(c) && LastRate([c], 0) == RateAfter(c, 0)
    ensures AllChunks([c]) == ChunkBytes(c)
  {
    assert [c][1..] == [];
    assert ChunkBytes(c) + [] == ChunkBytes(c);
  }

  /** The header is a RIFF preamble, one format chunk and the data chunk's own header. */
  lemma LayoutIsFront(f: Fields)
    requires FourEach(f)
    ensures Layout(f) == (RIFF + f.riffSize + WAVE) + (ChunkBytes(FmtChunk(f)) + (DATA + f.dataSize))
  {
    assert ChunkBytes(FmtChunk(f)) == (FMT + FMT_SIZE) + FmtBody(f);
  }

  lemma OpenLayout(file: seq<Byte>, f: Fields, data: seq<Byte>)
    requires FourEach(f) && file == Layout(f) + data
    ensures |file| == 44 + |data| && file[44..] == data
    ensures Open(file) == DataChunk(|file|, 44, U32(f.dataSize, 0), U32(f.rate, 0))
  {
    var c := FmtChunk(f);
    FmtChunkWellFormed(f);
    OneChunk(c);
    LayoutIsFront(f);
    ParserFindsData(file, f.riffSize, [c], f.dataSize, data);
  }

  /** readWAV, once the data chunk is found. */
  lemma ReadAt44(file: seq<Byte>, declared: nat, rate: int)
    requires |file| >= 44 && Open(file) == DataChunk(|file|, 44, declared, rate)
    ensures var k := if declared > |file| - 44 then |file| - 44 else declared;
            Read(file) == Ok((Decode(file[44..], k / 2), rate))
  {
  }

  lemma ReadLayout(file: seq<Byte>, f: Fields, data: seq<Byte>)
    requires FourEach(f) && file == Layout(f) + data
    ensures var k := if U32(f.dataSize, 0) > |data| then |data| else U32(f.dataSize, 0);
            Read(file) == Ok((Decode(data, k / 2), U32(f.rate, 0)))
  {
    OpenLayout(file, f, data);
    ReadAt44(file, U32(f.dataSize, 0), U32(f.rate, 0));
  }

  lemma FieldsDecode(samples: seq<Int16>, rate: int64)
    ensures var f := FieldsFor(2 * |samples|, rate);
            && U32(f.dataSize, 0) == 2 * |samples| % TWO_TO_THE_32
            && U32(f.rate, 0) == rate % TWO_TO_THE_32
  {
    U32OfLe32(2 * |samples|);
    U32OfLe32(rate);
  }

  lemma ReadFields(file: seq<Byte>, samples: seq<Int16>, f: Fields)
    requires FourEach(f) && U32(f.dataSize, 0) <= 2 * |samples| && file == Layout(f) + Pcm(samples)
    ensures Read(file) == Ok((samples[..U32(f.dataSize, 0) / 2], U32(f.rate, 0)))
  {
    ReadLayout(file, f, Pcm(samples));
    DecodePcm(samples, U32(f.dataSize, 0) / 2);
  }

  /** The samples whose bytes the 32-bit data length covers. */
  function Recovered(samples: seq<Int16>): seq<Int16> {
    samples[..2 * |samples| % TWO_TO_THE_32 / 2]
  }

  /** What readWAV gets back from any file writeWAV wrote: the sizes come back
      modulo 2^32. */
  lemma ReadAfterWrite(file: seq<Byte>, samples: seq<Int16>, rate: int64)
    requires file == Written(samples, rate)
    ensures Read(file) == Ok((Recovered(samples), rate % TWO_TO_THE_32))
  {
    FieldsDecode(samples, rate);
    ReadFields(file, samples, FieldsFor(2 * |samples|, rate));
  }

  lemma RecoveredAll(samples: seq<Int16>)
    ensures Recovered(samples) == samples <==> 2 * |samples| < TWO_TO_THE_32
  {
    var k := 2 * |samples| % TWO_TO_THE_32 / 2;
    if 2 * |samples| < TWO_TO_THE_32 {
      assert k == |samples| && samples[..k] == samples;
    } else {
      assert |samples[..k]| == k < |samples|;
    }
  }

  lemma SameAudio(samples: seq<Int16>, rate: int, got: Result<(seq<Int16>, int), WavError>)
    requires got == Ok((Recovered(samples), rate % TWO_TO_THE_32))
    ensures got == Ok((samples, rate)) <==> 2 * |samples| < TWO_TO_THE_32 && 0 <= rate < TWO_TO_THE_32
  {
    RecoveredAll(samples);
  }

  /** The round trip is exact for precisely the inputs whose data length and
      rate fit their 32-bit fields. */
  lemma RoundTrip(file: seq<Byte>, samples: seq<Int16>, rate: int64)
    requires file == Written(samples, rate)
    ensures Read(file) == Ok((samples, rate)) <==> 2 * |samples| < TWO_TO_THE_32 && 0 <= rate < TWO_TO_THE_32
  {
    ReadAfterWrite(file, samples, rate);
    SameAudio(samples, rate, Read(file));
  }
}
