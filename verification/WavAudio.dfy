/** The WAV validator and the chunk grammar it decides. */
module WavAudio {
  import opened Wrappers
  import opened Octets

  const RIFF: Bytes := [0x52, 0x49, 0x46, 0x46]
  const WAVE: Bytes := [0x57, 0x41, 0x56, 0x45]
  const FMT: Bytes := [0x66, 0x6d, 0x74, 0x20]
  const DATA: Bytes := [0x64, 0x61, 0x74, 0x61]
  const TWO32 := 0x1_0000_0000

  function Le16(b: Bytes, i: nat): nat
    requires i + 2 <= |b|
  {
    b[i] as int + 256 * b[i + 1] as int
  }

  function Le32(b: Bytes, i: nat): (n: nat)
    requires i + 4 <= |b|
    ensures n < TWO32
  {
    b[i] as int + 0x100 * b[i + 1] as int + 0x1_0000 * b[i + 2] as int + 0x100_0000 * b[i + 3] as int
  }

  function ToLe32(n: nat): (b: Bytes)
    requires n < TWO32
    ensures |b| == 4
  {
    [n % 0x100, n / 0x100 % 0x100, n / 0x1_0000 % 0x100, n / 0x100_0000]
  }

  lemma Le32RoundTrip(n: nat)
    requires n < TWO32
    ensures Le32(ToLe32(n), 0) == n
  {
    var n1 := n / 0x100;
    var n2 := n1 / 0x100;
    assert n / 0x1_0000 == n2 && n / 0x100_0000 == n2 / 0x100;
    assert n == n % 0x100 + 0x100 * n1 && n1 == n1 % 0x100 + 0x100 * n2 && n2 == n2 % 0x100 + 0x100 * (n2 / 0x100);
  }

  lemma ToLe32RoundTrip(b: Bytes, i: nat)
    requires i + 4 <= |b|
    ensures ToLe32(Le32(b, i)) == b[i..i + 4]
  {
    var n := Le32(b, i);
    var b0, b1, b2, b3 := b[i] as int, b[i + 1] as int, b[i + 2] as int, b[i + 3] as int;
    var n1, n2 := b1 + 0x100 * b2 + 0x1_0000 * b3, b2 + 0x100 * b3;
    assert n == b0 + 0x100 * n1 && n1 == b1 + 0x100 * n2;
    assert n / 0x100 == n1 && n / 0x1_0000 == n2 && n / 0x100_0000 == b3;
  }

  // ---- the grammar -------------------------------------------------------------------------

  /** A chunk: four-byte id, body, and a pad byte of any value after an odd body. */
  datatype Chunk = Chunk(id: Bytes, body: Bytes, pad: Bytes)

  datatype Kind = Format | Samples | Other

  function KindOf(id: Bytes): Kind {
    if id == FMT then Format else if id == DATA then Samples else Other
  }

  predicate ChunkOk(c: Chunk) {
    |c.id| == 4 && |c.body| < TWO32 && |c.pad| == |c.body| % 2
  }

  function EncodeChunk(c: Chunk): (b: Bytes)
    requires ChunkOk(c)
    ensures |b| == 8 + |c.body| + |c.pad|
  {
    c.id + ToLe32(|c.body|) + c.body + c.pad
  }

  predicate ChunksOk(cs: seq<Chunk>) {
    forall c :: c in cs ==> ChunkOk(c)
  }

  function EncodeChunks(cs: seq<Chunk>): Bytes
    requires ChunksOk(cs)
  {
    if cs == [] then [] else EncodeChunk(cs[0]) + EncodeChunks(cs[1..])
  }

  function BlockAlign(format: Bytes): nat
    requires 16 <= |format|
  {
    Le16(format, 2) * Le16(format, 14) / 8
  }

  /** Integer PCM, mono or stereo, 8 or 16 bits, 8 to 192 kHz, with consistent derived fields. */
  predicate FormatOk(format: Bytes) {
    16 <= |format| &&
    var channels, rate, bits, align := Le16(format, 2), Le32(format, 4), Le16(format, 14), BlockAlign(format);
    && Le16(format, 0) == 1
    && (channels == 1 || channels == 2) && (bits == 8 || bits == 16) && 8000 <= rate <= 192000
    && Le16(format, 12) == align
    && Le32(format, 8) == rate * align
  }

  /** The accepted format byte by byte, all numbers little-endian. */
  lemma FormatInNumbers(f: Bytes)
    ensures FormatOk(f) <==>
      && 16 <= |f|
      && f[0] == 1 && f[1] == 0                                                    // integer PCM
      && (f[2] == 1 || f[2] == 2) && f[3] == 0                                     // channels
      && (f[14] == 8 || f[14] == 16) && f[15] == 0                                 // bits
      && f[12] == f[2] * f[14] / 8 && f[13] == 0                                   // bytes of one block
      && (var rate := f[4] as int + 0x100 * f[5] as int + 0x1_0000 * f[6] as int + 0x100_0000 * f[7] as int;
          && 8000 <= rate <= 192000
          && f[8] as int + 0x100 * f[9] as int + 0x1_0000 * f[10] as int + 0x100_0000 * f[11] as int
             == rate * (f[2] * f[14] / 8))
  {
  }

  predicate SamplesOk(samples: Bytes, align: nat)
    requires 0 < align
  {
    samples != [] && |samples| % align == 0
  }

  function Relevant(cs: seq<Chunk>): seq<Chunk> {
    if cs == [] then []
    else (if KindOf(cs[0].id) != Other then [cs[0]] else []) + Relevant(cs[1..])
  }

  /** Among chunks of other kinds there is exactly one format chunk, followed by exactly one
      data chunk of whole blocks. */
  predicate Playable(cs: seq<Chunk>) {
    var r := Relevant(cs);
    && |r| == 2 && r[0].id == FMT && r[1].id == DATA
    && FormatOk(r[0].body) && 0 < BlockAlign(r[0].body) && SamplesOk(r[1].body, BlockAlign(r[0].body))
  }

  /** A RIFF file of exactly the size it declares. */
  ghost predicate IsWav(data: Bytes, cs: seq<Chunk>) {
    && 8 <= |data| < TWO32 + 8 && ChunksOk(cs)
    && data == RIFF + ToLe32(|data| - 8) + WAVE + EncodeChunks(cs)
  }

  ghost predicate PlayableWav(data: Bytes) {
    exists cs :: IsWav(data, cs) && Playable(cs)
  }

  function Ascii(s: string): Bytes
    requires forall i :: 0 <= i < |s| ==> s[i] < 128 as char
  {
    seq<Byte>(|s|, i requires 0 <= i < |s| => s[i] as int)
  }

  /** Four bytes that spell a number, the lowest first. */
  predicate Spells(b: Bytes, n: nat) {
    |b| == 4 && b[0] as int + 0x100 * b[1] as int + 0x1_0000 * b[2] as int + 0x100_0000 * b[3] as int == n
  }

  /** A file with the usual 44 bytes in front of its samples, and a pad byte behind an odd number. */
  function Canonical(size: Bytes, format: Bytes, length: Bytes, samples: Bytes, pad: Bytes): Bytes {
    Ascii("RIFF") + size + Ascii("WAVE")
    + (Ascii("fmt ") + [16, 0, 0, 0] + format + []) + (Ascii("data") + length + samples + pad)
  }

  lemma SpelledBytes(b: Bytes, n: nat)
    requires Spells(b, n)
    ensures n < TWO32 && ToLe32(n) == b
  {
    ToLe32RoundTrip(b, 0);
    assert b[0..4] == b;
  }

  /** Every such file is playable, for every accepted format of sixteen bytes. */
  lemma CanonicalIsPlayable(size: Bytes, format: Bytes, length: Bytes, samples: Bytes, pad: Bytes)
    requires |format| == 16 && FormatOk(format) && |pad| == |samples| % 2
    requires samples != [] && |samples| % (format[2] * format[14] / 8) == 0
    requires Spells(size, 36 + |samples| + |pad|) && Spells(length, |samples|)
    ensures PlayableWav(Canonical(size, format, length, samples, pad))
  {
    var data := Canonical(size, format, length, samples, pad);
    SpelledBytes(size, 36 + |samples| + |pad|);
    SpelledBytes(length, |samples|);
    SpelledBytes([16, 0, 0, 0], 16);
    NamesInLetters();
    var c, d := Chunk(FMT, format, []), Chunk(DATA, samples, pad);
    TwoChunks(c, d);
    assert |data| == 44 + |samples| + |pad|;
    CanonicalBytes(data, size, c, d);
    TwoChunksPlay(c, d);
  }

  lemma CanonicalBytes(data: Bytes, size: Bytes, c: Chunk, d: Chunk)
    requires ChunkOk(c) && ChunkOk(d) && 8 <= |data| < TWO32 + 8 && size == ToLe32(|data| - 8)
    requires data == RIFF + size + WAVE + EncodeChunk(c) + EncodeChunk(d)
    ensures ChunksOk([c, d]) && IsWav(data, [c, d])
  {
    TwoChunks(c, d);
    var head := RIFF + size + WAVE;
    assert head + EncodeChunk(c) + EncodeChunk(d) == head + (EncodeChunk(c) + EncodeChunk(d));
  }

  lemma TwoChunks(c: Chunk, d: Chunk)
    requires ChunkOk(c) && ChunkOk(d)
    ensures ChunksOk([c, d]) && EncodeChunks([c, d]) == EncodeChunk(c) + EncodeChunk(d)
  {
    assert [c, d][1..] == [d] && [d][1..] == [];
    assert EncodeChunks([d]) == EncodeChunk(d);
  }

  /** No format or data chunk among these. */
  predicate Irrelevant(cs: seq<Chunk>) {
    forall k :: 0 <= k < |cs| ==> cs[k].id != FMT && cs[k].id != DATA
  }

  /** The first relevant chunk stands at i, and the others are those behind it. */
  predicate FirstAt(cs: seq<Chunk>, i: nat) {
    && i < |cs| && Irrelevant(cs[..i]) && Relevant(cs) == [cs[i]] + Relevant(cs[i + 1..])
    && (cs[i].id == FMT || cs[i].id == DATA)
  }

  lemma IrrelevantFirst(c: Chunk, cs: seq<Chunk>)
    requires c.id != FMT && c.id != DATA && Irrelevant(cs)
    ensures Irrelevant([c] + cs)
  {
  }

  lemma SkipOne(cs: seq<Chunk>, k: nat)
    requires cs != [] && cs[0].id != FMT && cs[0].id != DATA && FirstAt(cs[1..], k)
    ensures FirstAt(cs, k + 1)
  {
    assert cs[1..][k + 1..] == cs[k + 1 + 1..] && cs[..k + 1] == [cs[0]] + cs[1..][..k];
    IrrelevantFirst(cs[0], cs[1..][..k]);
  }

  lemma FirstIsRelevant(cs: seq<Chunk>)
    requires cs != [] && KindOf(cs[0].id) != Other
    ensures FirstAt(cs, 0) && Relevant(cs) != []
  {
    assert cs[..0] == [] && cs[0 + 1..] == cs[1..];
  }

  lemma {:induction false} FirstRelevant(cs: seq<Chunk>) returns (i: nat)
    ensures if Relevant(cs) == [] then Irrelevant(cs) else FirstAt(cs, i)
  {
    i := 0;
    if cs == [] {
    } else if KindOf(cs[0].id) != Other {
      FirstIsRelevant(cs);
    } else {
      i := FirstRelevant(cs[1..]);
      assert Relevant(cs) == Relevant(cs[1..]);
      if Relevant(cs[1..]) == [] {
        IrrelevantFirst(cs[0], cs[1..]);
        assert [cs[0]] + cs[1..] == cs;
      } else {
        SkipOne(cs, i);
        i := i + 1;
      }
    }
  }

  /** Two relevant chunks and where they stand. */
  lemma BothRelevant(cs: seq<Chunk>) returns (i: nat, j: nat)
    requires |Relevant(cs)| == 2
    ensures i < j < |cs| && cs[i] == Relevant(cs)[0] && cs[j] == Relevant(cs)[1]
    ensures Irrelevant(cs[..i]) && Irrelevant(cs[i + 1..j]) && Irrelevant(cs[j + 1..])
  {
    i := FirstRelevant(cs);
    var rest := cs[i + 1..];
    var k := FirstRelevant(rest);
    j := i + 1 + k;
    var end := FirstRelevant(rest[k + 1..]);
    assert rest[..k] == cs[i + 1..j] && rest[k + 1..] == cs[j + 1..];
  }

  /** A playable file by its places: a format chunk, later a data chunk that is not empty and holds
      whole blocks, and no second one of either. */
  lemma PlayableMeans(cs: seq<Chunk>) returns (i: nat, j: nat)
    requires Playable(cs)
    ensures i < j < |cs| && cs[i].id == Ascii("fmt ") && cs[j].id == Ascii("data")
    ensures Irrelevant(cs[..i]) && Irrelevant(cs[i + 1..j]) && Irrelevant(cs[j + 1..])
    ensures FormatOk(cs[i].body) && 16 <= |cs[i].body| && 0 < |cs[j].body|
    ensures
      var align := Le16(cs[i].body, 2) * Le16(cs[i].body, 14) / 8;
      1 <= align <= 4 && |cs[j].body| % align == 0
  {
    NamesInLetters();
    i, j := BothRelevant(cs);
    FormatAligns(cs[i].body);
  }

  lemma NamesInLetters()
    ensures RIFF == Ascii("RIFF") && WAVE == Ascii("WAVE") && FMT == Ascii("fmt ") && DATA == Ascii("data")
  {
  }

  lemma TwoChunksPlay(c: Chunk, d: Chunk)
    requires c.id == FMT && d.id == DATA && FormatOk(c.body)
    requires d.body != [] && |d.body| % (c.body[2] * c.body[14] / 8) == 0
    ensures Playable([c, d])
  {
    FormatInNumbers(c.body);
    FormatAligns(c.body);
    assert [c, d][1..] == [d] && [d][1..] == [];
    assert Relevant([d]) == [d] && Relevant([c, d]) == [c, d];
  }

  // ---- what the scanning loop decides ------------------------------------------------------

  /** What the loop remembers: whether it saw a format chunk, of which block size, and data. */
  datatype Seen = Seen(format: bool, samples: bool, align: nat)

  const NOTHING := Seen(false, false, 0)

  /** What the loop makes of one chunk. */
  function Accept(kind: Kind, body: Bytes, seen: Seen): (o: Option<Seen>)
    ensures o.Some? && (seen.format ==> 0 < seen.align) ==> o.value.format ==> 0 < o.value.align
  {
    match kind
    case Format =>
      if seen.format || !FormatOk(body) then None
      else
        FormatAligns(body);
        Some(Seen(true, seen.samples, BlockAlign(body)))
    case Samples =>
      if !seen.format || seen.samples || seen.align == 0 || !SamplesOk(body, seen.align) then None
      else Some(seen.(samples := true))
    case Other => Some(seen)
  }

  predicate PlayableFrom(cs: seq<Chunk>, seen: Seen) {
    if cs == [] then seen.format && seen.samples
    else
      var o := Accept(KindOf(cs[0].id), cs[0].body, seen);
      o.Some? && PlayableFrom(cs[1..], o.value)
  }

  lemma {:induction false} NothingMoreToCome(cs: seq<Chunk>, align: nat)
    ensures PlayableFrom(cs, Seen(true, true, align)) <==> Relevant(cs) == []
  {
    if cs != [] {
      NothingMoreToCome(cs[1..], align);
    }
  }

  lemma {:induction false} SamplesToCome(cs: seq<Chunk>, align: nat)
    requires 0 < align
    ensures PlayableFrom(cs, Seen(true, false, align))
       <==> |Relevant(cs)| == 1 && Relevant(cs)[0].id == DATA && SamplesOk(Relevant(cs)[0].body, align)
  {
    if cs != [] {
      NothingMoreToCome(cs[1..], align);
      SamplesToCome(cs[1..], align);
    }
  }

  lemma FormatAligns(format: Bytes)
    requires FormatOk(format)
    ensures 0 < BlockAlign(format) <= 4
  {
    var channels, bits := Le16(format, 2), Le16(format, 14);
    assert channels * bits in {8, 16, 32};
  }

  /** The loop's order of checks is the declarative condition. */
  lemma {:induction false} PlayableFromStart(cs: seq<Chunk>)
    ensures PlayableFrom(cs, NOTHING) <==> Playable(cs)
  {
    if cs != [] {
      if cs[0].id == FMT && FormatOk(cs[0].body) {
        FormatAligns(cs[0].body);
        SamplesToCome(cs[1..], BlockAlign(cs[0].body));
      } else if KindOf(cs[0].id) == Other {
        PlayableFromStart(cs[1..]);
      }
    }
  }

  /** The chunk that starts at an offset, if one fits. */
  predicate ChunkFits(data: Bytes, offset: nat) {
    && offset + 8 <= |data|
    && var size := Le32(data, offset + 4);
       offset + 8 + size + size % 2 <= |data|
  }

  function ChunkAt(data: Bytes, offset: nat): (c: Chunk)
    requires ChunkFits(data, offset)
    ensures ChunkOk(c)
  {
    var size := Le32(data, offset + 4);
    var start := offset + 8;
    Chunk(data[offset..offset + 4], data[start..start + size], data[start + size..start + size + size % 2])
  }

  function ChunkEnd(data: Bytes, offset: nat): (end: nat)
    requires ChunkFits(data, offset)
    ensures offset < end <= |data|
  {
    var size := Le32(data, offset + 4);
    offset + 8 + size + size % 2
  }

  lemma ChunkAtEncodes(data: Bytes, offset: nat)
    requires ChunkFits(data, offset)
    ensures EncodeChunk(ChunkAt(data, offset)) == data[offset..ChunkEnd(data, offset)]
  {
    ToLe32RoundTrip(data, offset + 4);
    var size := Le32(data, offset + 4);
    var c := ChunkAt(data, offset);
    assert data[offset..ChunkEnd(data, offset)]
        == data[offset..offset + 4] + data[offset + 4..offset + 8] + c.body + c.pad;
  }

  /** One round of the loop: what is remembered after the chunk at an offset. */
  function Round(data: Bytes, offset: nat, seen: Seen): Option<Seen> {
    if !ChunkFits(data, offset) then None
    else
      var c := ChunkAt(data, offset);
      Accept(KindOf(c.id), c.body, seen)
  }

  /** What the loop decides about the rest of the file. */
  predicate Scans(data: Bytes, offset: nat, seen: Seen)
    requires offset <= |data|
    decreases |data| - offset
  {
    if offset == |data| then seen.format && seen.samples
    else
      var o := Round(data, offset, seen);
      o.Some? && Scans(data, ChunkEnd(data, offset), o.value)
  }

  /** Everything the loop accepts is a sequence of chunks. */
  lemma {:induction false} ScanFindsChunks(data: Bytes, offset: nat, seen: Seen) returns (cs: seq<Chunk>)
    requires offset <= |data|
    ensures Scans(data, offset, seen) ==> ChunksOk(cs) && data[offset..] == EncodeChunks(cs) && PlayableFrom(cs, seen)
    decreases |data| - offset
  {
    cs := [];
    if offset < |data| && Scans(data, offset, seen) {
      var c, next := ChunkAt(data, offset), ChunkEnd(data, offset);
      var rest := ScanFindsChunks(data, next, Round(data, offset, seen).value);
      ChunkAtEncodes(data, offset);
      cs := [c] + rest;
      assert cs[1..] == rest;
      assert data[offset..] == data[offset..next] + data[next..];
    }
  }

  lemma TailSlice(data: Bytes, offset: nat, i: nat, j: nat)
    requires offset <= |data| && i <= j <= |data| - offset
    ensures data[offset + i..offset + j] == data[offset..][i..j]
  {
  }

  /** The declared size of a chunk written at an offset. */
  lemma SizeIsRead(data: Bytes, offset: nat, c: Chunk, rest: Bytes)
    requires offset <= |data| && ChunkOk(c) && data[offset..] == EncodeChunk(c) + rest
    ensures offset + 8 <= |data| && Le32(data, offset + 4) == |c.body| && data[offset..offset + 4] == c.id
  {
    var tail, size := data[offset..], ToLe32(|c.body|);
    assert tail == c.id + (size + (c.body + c.pad + rest));
    TailSlice(data, offset, 0, 4);
    TailSlice(data, offset, 4, 8);
    assert data[offset + 4..offset + 8] == size;
    Le32RoundTrip(|c.body|);
    SameLe32(data, offset + 4, size, 0);
  }

  lemma SameLe32(a: Bytes, i: nat, b: Bytes, j: nat)
    requires i + 4 <= |a| && j + 4 <= |b| && a[i..i + 4] == b[j..j + 4]
    ensures Le32(a, i) == Le32(b, j)
  {
    var s, t := a[i..i + 4], b[j..j + 4];
    assert a[i] == s[0] && a[i + 1] == s[1] && a[i + 2] == s[2] && a[i + 3] == s[3];
    assert b[j] == t[0] && b[j + 1] == t[1] && b[j + 2] == t[2] && b[j + 3] == t[3];
  }

  /** A chunk written at an offset is the chunk found there. */
  lemma ChunkIsRead(data: Bytes, offset: nat, c: Chunk, rest: Bytes)
    requires offset <= |data| && ChunkOk(c) && data[offset..] == EncodeChunk(c) + rest
    ensures ChunkFits(data, offset) && ChunkAt(data, offset) == c && data[ChunkEnd(data, offset)..] == rest
  {
    SizeIsRead(data, offset, c, rest);
    var n := |c.body|;
    var end := 8 + n + n % 2;
    var head := c.id + ToLe32(n);
    assert data[offset..] == head + (c.body + (c.pad + rest));
    TailSlice(data, offset, 8, 8 + n);
    TailSlice(data, offset, 8 + n, end);
    TailSlice(data, offset, end, |data| - offset);
    assert data[offset..][8..8 + n] == c.body;
    assert data[offset..][8 + n..end] == c.pad;
    assert data[offset..][end..|data| - offset] == rest;
  }

  /** Every sequence of chunks that is right is accepted by the loop. */
  lemma {:induction false} ChunksAreScanned(data: Bytes, offset: nat, cs: seq<Chunk>, seen: Seen)
    requires offset <= |data| && ChunksOk(cs) && data[offset..] == EncodeChunks(cs)
    requires PlayableFrom(cs, seen)
    ensures Scans(data, offset, seen)
    decreases |cs|
  {
    if cs != [] {
      var c, rest := cs[0], cs[1..];
      assert c in cs;
      ChunkIsRead(data, offset, c, EncodeChunks(rest));
      ChunksAreScanned(data, ChunkEnd(data, offset), rest, Round(data, offset, seen).value);
    }
  }

  predicate HeaderOk(data: Bytes) {
    12 <= |data| && data[..4] == RIFF && data[8..12] == WAVE && Le32(data, 4) + 8 == |data|
  }

  /** A header in front and chunks behind. */
  lemma HeaderSplits(data: Bytes, cs: seq<Chunk>)
    requires ChunksOk(cs)
    ensures IsWav(data, cs) <==> HeaderOk(data) && data[12..] == EncodeChunks(cs)
  {
    if IsWav(data, cs) {
      var size := ToLe32(|data| - 8);
      assert data[..4] == RIFF && data[4..8] == size && data[8..12] == WAVE && data[12..] == EncodeChunks(cs);
      Le32RoundTrip(|data| - 8);
      assert Le32(data, 4) == Le32(size, 0);
    }
    if HeaderOk(data) && data[12..] == EncodeChunks(cs) {
      ToLe32RoundTrip(data, 4);
      assert data == data[..4] + data[4..8] + data[8..12] + data[12..];
    }
  }

  /** A scan that has yet to see a format chunk and a data chunk needs the bytes for them. */
  lemma {:induction false} PlayableNeedsBytes(cs: seq<Chunk>, seen: Seen)
    requires ChunksOk(cs) && PlayableFrom(cs, seen)
    ensures |EncodeChunks(cs)| >= (if seen.format then 0 else 24) + (if seen.samples then 0 else 9)
  {
    if cs != [] {
      assert cs[0] in cs;
      PlayableNeedsBytes(cs[1..], Accept(KindOf(cs[0].id), cs[0].body, seen).value);
    }
  }

  /** The smallest playable file has 46 bytes, so the length check loses nothing. */
  lemma PlayableIsLong(data: Bytes, cs: seq<Chunk>)
    requires IsWav(data, cs) && Playable(cs)
    ensures 44 <= |data|
  {
    HeaderSplits(data, cs);
    PlayableFromStart(cs);
    PlayableNeedsBytes(cs, NOTHING);
  }

  lemma ScanDecides(data: Bytes)
    ensures PlayableWav(data) <==> 44 <= |data| && HeaderOk(data) && Scans(data, 12, NOTHING)
  {
    if PlayableWav(data) {
      var cs :| IsWav(data, cs) && Playable(cs);
      PlayableIsLong(data, cs);
      HeaderSplits(data, cs);
      PlayableFromStart(cs);
      ChunksAreScanned(data, 12, cs, NOTHING);
    }
    if HeaderOk(data) && Scans(data, 12, NOTHING) {
      var cs := ScanFindsChunks(data, 12, NOTHING);
      PlayableFromStart(cs);
      HeaderSplits(data, cs);
    }
  }

  // ---- the validator ---------------------------------------------------------------------------

  /** uint16 and uint32 products wrap around in Go; with the accepted channel counts,
      widths and rates they do not. */
  method CheckFormat(chunk: Bytes) returns (ok: bool, alignment: nat)
    requires 16 <= |chunk|
    ensures ok <==> FormatOk(chunk)
    ensures ok ==> alignment == BlockAlign(chunk)
  {
    var channels, rate, bits := Le16(chunk, 2), Le32(chunk, 4), Le16(chunk, 14);
    alignment := (channels * bits) % 0x1_0000 / 8;
    ok := false;
    if Le16(chunk, 0) == 1 && (channels == 1 || channels == 2) && (bits == 8 || bits == 16) {
      BlocksDoNotWrap(channels, bits);
      assert alignment == BlockAlign(chunk);
      if 8000 <= rate <= 192000 && Le16(chunk, 12) == alignment {
        RatesDoNotWrap(rate, alignment);
        ok := Le32(chunk, 8) == (rate * alignment) % TWO32;
      }
    }
  }

  lemma BlocksDoNotWrap(channels: nat, bits: nat)
    requires channels in {1, 2} && bits in {8, 16}
    ensures (channels * bits) % 0x1_0000 == channels * bits && channels * bits / 8 <= 4
  {
    assert channels * bits in {8, 16, 32};
  }

  lemma RatesDoNotWrap(rate: nat, align: nat)
    requires rate <= 192000 && align <= 4
    ensures (rate * align) % TWO32 == rate * align
  {
    assert rate * align <= 192000 * 4;
  }

  /** The body of the loop, which returns its new variables. */
  method ScanChunk(data: Bytes, offset: nat, format: bool, samples: bool, alignment: nat)
      returns (ok: bool, format': bool, samples': bool, alignment': nat, next: nat)
    requires offset < |data| && (format ==> 0 < alignment)
    ensures ok <==> Round(data, offset, Seen(format, samples, alignment)).Some?
    ensures ok ==> next == ChunkEnd(data, offset)
    ensures ok ==> Round(data, offset, Seen(format, samples, alignment)).value == Seen(format', samples', alignment')
  {
    ok, format', samples', alignment', next := false, format, samples, alignment, offset;
    if |data| < offset + 8 {
      return;
    }
    var size := Le32(data, offset + 4);
    var start := offset + 8;
    if |data| - start < size {
      return;
    }
    var chunk := data[start..start + size];
    match KindOf(data[offset..offset + 4]) {
      case Format =>
        if format || |chunk| < 16 {
          return;
        }
        var good;
        good, alignment' := CheckFormat(chunk);
        if !good {
          return;
        }
        format' := true;
      case Samples =>
        if !format || samples || size == 0 || size % alignment != 0 {
          return;
        }
        samples' := true;
      case Other =>
    }
    next := start + size + size % 2;
    ok := next <= |data|;
  }

  method ValidPcm(data: Bytes) returns (ok: bool)
    ensures ok <==> PlayableWav(data)
  {
    ScanDecides(data);
    if |data| < 44 || data[..4] != RIFF || data[8..12] != WAVE || Le32(data, 4) + 8 != |data| {
      return false;
    }
    var format, samples, alignment := false, false, 0;
    var offset := 12;
    while offset < |data|
      invariant 12 <= offset <= |data|
      invariant format ==> 0 < alignment
      invariant PlayableWav(data) <==> Scans(data, offset, Seen(format, samples, alignment))
      decreases |data| - offset
    {
      var good;
      good, format, samples, alignment, offset := ScanChunk(data, offset, format, samples, alignment);
      if !good {
        return false;
      }
    }
    ok := format && samples;
  }
}
