/** The MP3 validator: frames of MPEG audio layer III between an optional ID3v2 tag and an
    optional ID3v1 tag. */
module Mp3Audio {
  import opened Wrappers
  import opened Octets
  import opened Framing

  const ID3: Bytes := [0x49, 0x44, 0x33]
  const TAG: Bytes := [0x54, 0x41, 0x47]
  const RATES: seq<nat> := [44100, 48000, 32000]
  const MPEG1: seq<nat> := [0, 32, 40, 48, 56, 64, 80, 96, 112, 128, 160, 192, 224, 256, 320]
  const MPEG2: seq<nat> := [0, 8, 16, 24, 32, 40, 48, 56, 64, 80, 96, 112, 128, 144, 160]

  // ---- frames --------------------------------------------------------------------------------

  function Version(b: Byte): nat { b / 8 % 4 }

  function Layer(b: Byte): nat { b / 2 % 4 }

  function BitrateIndex(b: Byte): nat { b / 16 % 16 }

  function SampleIndex(b: Byte): nat { b / 4 % 4 }

  function Padding(b: Byte): nat { b / 2 % 2 }

  /** A layer III header: eleven sync bits, no reserved version, bitrate or sampling rate. */
  predicate HeaderOk(d: Bytes) {
    && 4 <= |d| && d[0] == 0xff && 0xe0 <= d[1]
    && Version(d[1]) != 1 && Layer(d[1]) == 1
    && 1 <= BitrateIndex(d[2]) <= 14 && SampleIndex(d[2]) != 3
  }

  /** Version 3 is MPEG 1, version 2 halves its rates and version 0 halves them again. */
  function SizeOf(version: nat, bitrate: nat, sample: nat, padding: nat): nat
    requires version in {0, 2, 3} && 1 <= bitrate <= 14 && sample <= 2
  {
    if version == 3 then 144 * MPEG1[bitrate] * 1000 / RATES[sample] + padding
    else 72 * MPEG2[bitrate] * 1000 / (RATES[sample] / (if version == 2 then 2 else 4)) + padding
  }

  lemma SizesRange(version: nat, bitrate: nat, sample: nat, padding: nat)
    requires version in {0, 2, 3} && 1 <= bitrate <= 14 && sample <= 2 && padding <= 1
    ensures 24 <= SizeOf(version, bitrate, sample, padding) <= 1441
  {
    var fast, slow := 144 * MPEG1[bitrate] * 1000, 72 * MPEG2[bitrate] * 1000;
    assert 32 <= MPEG1[bitrate] <= 320 && 8 <= MPEG2[bitrate] <= 160;
    if version == 3 {
      match sample
      case 0 => assert 24 <= fast / 44100 <= 1440;
      case 1 => assert 24 <= fast / 48000 <= 1440;
      case 2 => assert 24 <= fast / 32000 <= 1440;
    } else if version == 2 {
      match sample
      case 0 => assert 24 <= slow / 22050 <= 1440;
      case 1 => assert 24 <= slow / 24000 <= 1440;
      case 2 => assert 24 <= slow / 16000 <= 1440;
    } else {
      match sample
      case 0 => assert 24 <= slow / 11025 <= 1440;
      case 1 => assert 24 <= slow / 12000 <= 1440;
      case 2 => assert 24 <= slow / 8000 <= 1440;
    }
  }

  /** The tables in closed form, in kilobits per second and hertz. */
  lemma RatesInNumbers(i: nat)
    requires 1 <= i <= 14
    ensures i < |MPEG1| && MPEG1[i] == (32 + 8 * ((i - 1) % 4)) * [1, 2, 4, 8][(i - 1) / 4]
    ensures i < |MPEG2| && MPEG2[i] == if i <= 8 then 8 * i else 64 + 16 * (i - 8)
    ensures RATES[0] == 44100 && RATES[1] == 48000 && RATES[2] == 32000
  {
  }

  /** Kilobits per second of a bitrate index, and hertz of a sampling index. */
  function Kilobits(version: nat, i: nat): nat
    requires 1 <= i <= 14
  {
    if version == 3 then (32 + 8 * ((i - 1) % 4)) * [1, 2, 4, 8][(i - 1) / 4]
    else if i <= 8 then 8 * i else 64 + 16 * (i - 8)
  }

  function Hertz(version: nat, sample: nat): nat
    requires version in {0, 2, 3} && sample <= 2
  {
    match version
    case 3 => [44100, 48000, 32000][sample]
    case 2 => [22050, 24000, 16000][sample]
    case _ => [11025, 12000, 8000][sample]
  }

  /** A frame holds 1152 samples in MPEG 1 and 576 in the others, and is as long as the whole bytes
      of that playing time at its bitrate, and its padding byte. */
  lemma SizeInNumbers(version: nat, bitrate: nat, sample: nat, padding: nat)
    requires version in {0, 2, 3} && 1 <= bitrate <= 14 && sample <= 2
    ensures SizeOf(version, bitrate, sample, padding)
         == (if version == 3 then 1152 else 576) * 125 * Kilobits(version, bitrate) / Hertz(version, sample) + padding
  {
    RatesInNumbers(bitrate);
    Halved(version, sample);
    var bits := (if version == 3 then 1152 else 576) * 125 * Kilobits(version, bitrate);
    if version == 3 {
      SameQuotient(144 * MPEG1[bitrate] * 1000, bits, RATES[sample], Hertz(version, sample));
    } else {
      SameQuotient(72 * MPEG2[bitrate] * 1000, bits, RATES[sample] / (if version == 2 then 2 else 4),
                   Hertz(version, sample));
    }
  }

  lemma SameQuotient(a: nat, b: nat, c: nat, d: nat)
    requires a == b && c == d && 0 < c
    ensures a / c == b / d
  {
  }

  lemma Halved(version: nat, sample: nat)
    requires version in {0, 2, 3} && sample <= 2
    ensures Hertz(version, sample)
         == if version == 3 then RATES[sample] else RATES[sample] / (if version == 2 then 2 else 4)
  {
  }

  /** The fields of a header, written into its bytes. */
  datatype Fields = Fields(version: nat, protection: nat, bitrate: nat, sample: nat, padding: nat, private: nat,
                           rest: Byte)

  predicate FieldsOk(h: Fields) {
    && h.version in {0, 2, 3} && h.protection <= 1 && 1 <= h.bitrate <= 14 && h.sample <= 2
    && h.padding <= 1 && h.private <= 1
  }

  function HeaderBytes(h: Fields): Bytes
    requires FieldsOk(h)
  {
    [255, 224 + 8 * h.version + 2 + h.protection, 16 * h.bitrate + 4 * h.sample + 2 * h.padding + h.private, h.rest]
  }

  lemma WrittenBits(h: Fields)
    requires FieldsOk(h)
    ensures
      var b, c := HeaderBytes(h)[1], HeaderBytes(h)[2];
      && Version(b) == h.version && Layer(b) == 1
      && BitrateIndex(c) == h.bitrate && SampleIndex(c) == h.sample && Padding(c) == h.padding
  {
    WrittenThird(h.bitrate, h.sample, h.padding, h.private);
  }

  lemma WrittenThird(bitrate: nat, sample: nat, padding: nat, private: nat)
    requires bitrate <= 15 && sample <= 3 && padding <= 1 && private <= 1
    ensures
      var c := 16 * bitrate + 4 * sample + 2 * padding + private;
      c / 16 % 16 == bitrate && c / 4 % 4 == sample && c / 2 % 2 == padding
  {
    var c := 16 * bitrate + 4 * sample + 2 * padding + private;
    assert c / 2 == 8 * bitrate + 2 * sample + padding && c / 4 == 4 * bitrate + sample && c / 16 == bitrate;
  }

  /** Every such header announces the size that its fields mean, whatever follows it. */
  lemma HeaderAnnounces(h: Fields, data: Bytes)
    requires FieldsOk(h)
    ensures Announced(HeaderBytes(h) + data) == Some(
      (if h.version == 3 then 1152 else 576) * 125 * Kilobits(h.version, h.bitrate) / Hertz(h.version, h.sample)
      + h.padding)
  {
    WrittenBits(h);
    SizeInNumbers(h.version, h.bitrate, h.sample, h.padding);
  }

  /** And nothing else announces a size. */
  lemma OnlyHeadersAnnounce(d: Bytes) returns (h: Fields)
    requires Announced(d).Some?
    ensures FieldsOk(h) && 4 <= |d| && d[..4] == HeaderBytes(h)
  {
    h := ReadFields(d[1], d[2], d[3]);
  }

  lemma ReadFields(b: Byte, c: Byte, rest: Byte) returns (h: Fields)
    requires 0xe0 <= b && Version(b) != 1 && Layer(b) == 1 && 1 <= BitrateIndex(c) <= 14 && SampleIndex(c) != 3
    ensures FieldsOk(h) && HeaderBytes(h) == [255, b, c, rest]
  {
    h := Fields(Version(b), b % 2, BitrateIndex(c), SampleIndex(c), Padding(c), c % 2, rest);
    SecondByte(b);
    ThirdByte(c);
  }

  lemma SecondByte(b: Byte)
    requires 0xe0 <= b && Layer(b) == 1
    ensures b == 224 + 8 * Version(b) + 2 + b % 2
  {
    var b1 := b / 2;
    var b3 := b / 8;
    assert b3 == b1 / 4 && b == 2 * b1 + b % 2 && b1 == 4 * b3 + b1 % 4;
    assert 28 <= b3 <= 31;
  }

  lemma ThirdByte(c: Byte)
    ensures c / 16 < 16 && c == 16 * BitrateIndex(c) + 4 * SampleIndex(c) + 2 * Padding(c) + c % 2
  {
    var c1 := c / 2;
    var c2 := c / 4;
    assert c2 == c1 / 2 && c / 16 == c2 / 4;
    assert c == 2 * c1 + c % 2 && c1 == 2 * c2 + c1 % 2 && c2 == 4 * (c2 / 4) + c2 % 4;
  }

  function FrameSize(d: Bytes): nat
    requires HeaderOk(d)
  {
    SizeOf(Version(d[1]), BitrateIndex(d[2]), SampleIndex(d[2]), Padding(d[2]))
  }

  /** No frame is smaller than 24 bytes or larger than 1441, so every round consumes some. */
  lemma FrameSizeRange(d: Bytes)
    requires HeaderOk(d)
    ensures 24 <= FrameSize(d) <= 1441
  {
    SizesRange(Version(d[1]), BitrateIndex(d[2]), SampleIndex(d[2]), Padding(d[2]));
  }

  function Announced(d: Bytes): Option<nat> {
    if HeaderOk(d) then Some(FrameSize(d)) else None
  }

  lemma HeaderDecides(d: Bytes, e: Bytes)
    requires 4 <= |d| && 4 <= |e| && d[..4] == e[..4]
    ensures Announced(d) == Announced(e)
  {
    assert forall i | 0 <= i < 4 :: d[i] == d[..4][i] == e[..4][i] == e[i];
  }

  lemma AnnouncedIsSound()
    ensures Sound(Announced)
  {
    forall d: Bytes, rest: Bytes
      ensures SoundAt(Announced, d, rest)
    {
      if Announced(d).Some? && Announced(d).value <= |d| {
        FrameSizeRange(d);
        HeaderDecides(d, d + rest);
        HeaderDecides(d, d[..Announced(d).value]);
      }
    }
  }

  // ---- the file ------------------------------------------------------------------------------

  predicate StartsWith(d: Bytes, prefix: Bytes) {
    |prefix| <= |d| && d[..|prefix|] == prefix
  }

  /** Four bytes of seven bits each. */
  predicate Syncsafe(b: Bytes) {
    |b| == 4 && forall i :: 0 <= i < 4 ==> b[i] < 128
  }

  function SyncsafeValue(b: Bytes): nat
    requires |b| == 4
  {
    ((b[0] as int * 128 + b[1] as int) * 128 + b[2] as int) * 128 + b[3] as int
  }

  predicate Id3HeaderOk(d: Bytes) {
    StartsWith(d, ID3) && 10 <= |d| && 2 <= d[3] <= 4 && Syncsafe(d[6..10])
  }

  /** Header, body of the declared size and, in version 4, the footer the header announces. */
  function Id3Size(d: Bytes): nat
    requires Id3HeaderOk(d)
  {
    10 + SyncsafeValue(d[6..10]) + (if d[3] == 4 && d[5] / 16 % 2 == 1 then 10 else 0)
  }

  predicate IsId3(d: Bytes) {
    Id3HeaderOk(d) && |d| == Id3Size(d)
  }

  predicate IsTag(d: Bytes) {
    |d| == 128 && StartsWith(d, TAG)
  }

  /** The two tags byte by byte.  Bit 4 of the flags announces a footer in version 4. */
  lemma TagsInNumbers(d: Bytes)
    ensures IsTag(d) <==> |d| == 128 && d[0] == 'T' as int && d[1] == 'A' as int && d[2] == 'G' as int
    ensures IsId3(d) <==>
      && 10 <= |d| && d[0] == 'I' as int && d[1] == 'D' as int && d[2] == '3' as int && 2 <= d[3] <= 4
      && d[6] < 0x80 && d[7] < 0x80 && d[8] < 0x80 && d[9] < 0x80
      && |d| == 10 + 0x20_0000 * d[6] as int + 0x4000 * d[7] as int + 0x80 * d[8] as int + d[9] as int
              + (if d[3] == 4 && d[5] / 16 % 2 == 1 then 10 else 0)
  {
    if 3 <= |d| {
      assert d[..3] == [d[0], d[1], d[2]];
    }
    if 10 <= |d| {
      assert d[6..10] == [d[6], d[7], d[8], d[9]];
    }
  }

  predicate EndsWithTag(d: Bytes) {
    128 <= |d| && IsTag(d[|d| - 128..])
  }

  datatype File = File(id3: Bytes, frames: seq<Bytes>, tag: Bytes)

  function Encode(f: File): Bytes {
    f.id3 + (Concat(f.frames) + f.tag)
  }

  /** Optional ID3v2, at least two whole frames, optional ID3v1. */
  predicate Mp3File(size: Sizer, f: File) {
    && (f.id3 == [] || IsId3(f.id3)) && AllFrames(size, f.frames) && 2 <= |f.frames|
    && (f.tag == [] || IsTag(f.tag))
  }

  ghost predicate IsMp3(size: Sizer, data: Bytes) {
    exists f :: Mp3File(size, f) && data == Encode(f)
  }

  /** A trailing tag is never taken for frame data. */
  predicate TagIsLast(f: File) {
    f.tag == [] ==> !EndsWithTag(Concat(f.frames))
  }

  ghost predicate IsPlainMp3(size: Sizer, data: Bytes) {
    exists f :: Mp3File(size, f) && data == Encode(f) && TagIsLast(f)
  }

  // ---- what the validator decides --------------------------------------------------------------

  /** Frames that cannot be mistaken for either tag. */
  ghost predicate Synced(size: Sizer) {
    Sound(size) && forall d :: size(d).Some? ==> d != [] && d[0] == 0xff
  }

  /** What is left after the ID3v2 tag, unless it is malformed. */
  function AfterId3(d: Bytes): Option<Bytes> {
    if !StartsWith(d, ID3) then Some(d)
    else if !Id3HeaderOk(d) || |d| < Id3Size(d) then None
    else Some(d[Id3Size(d)..])
  }

  function BeforeTag(d: Bytes): Bytes {
    if EndsWithTag(d) then d[..|d| - 128] else d
  }

  ghost predicate TwoFrames(size: Sizer, d: Bytes)
    requires Sound(size)
  {
    CountFrames(size, d).Some? && 2 <= CountFrames(size, d).value
  }

  ghost predicate Decides(size: Sizer, data: Bytes)
    requires Sound(size)
  {
    AfterId3(data).Some? && TwoFrames(size, BeforeTag(AfterId3(data).value))
  }

  lemma FramesStartWithSync(size: Sizer, fs: seq<Bytes>, rest: Bytes)
    requires Synced(size) && AllFrames(size, fs) && fs != []
    ensures
      var d := Concat(fs) + rest;
      d != [] && d[0] == 0xff
  {
    assert fs[0] in fs;
  }

  /** The tag in front of a file is found exactly where the file has it. */
  lemma Id3IsFound(size: Sizer, f: File)
    requires Synced(size) && Mp3File(size, f)
    ensures AfterId3(Encode(f)) == Some(Concat(f.frames) + f.tag)
  {
    var d, body := Encode(f), Concat(f.frames) + f.tag;
    if f.id3 == [] {
      FramesStartWithSync(size, f.frames, f.tag);
      assert d == body;
    } else {
      Id3IsRead(f.id3, body);
    }
  }

  lemma Id3IsRead(id3: Bytes, body: Bytes)
    requires IsId3(id3)
    ensures AfterId3(id3 + body) == Some(body)
  {
    var d := id3 + body;
    assert d[..3] == id3[..3] && d[6..10] == id3[6..10] && d[|id3|..] == body;
  }

  lemma Id3IsCut(data: Bytes)
    requires AfterId3(data).Some?
    ensures
      var n := |data| - |AfterId3(data).value|;
      0 <= n && data == data[..n] + AfterId3(data).value && (n == 0 || IsId3(data[..n]))
  {
    if StartsWith(data, ID3) {
      var n := Id3Size(data);
      assert data[..n][..3] == data[..3] && data[..n][6..10] == data[6..10];
    }
  }

  lemma TagIsFound(frames: Bytes, tag: Bytes)
    requires IsTag(tag)
    ensures EndsWithTag(frames + tag) && BeforeTag(frames + tag) == frames
  {
    assert (frames + tag)[|frames|..] == tag;
  }

  lemma TagIsNoFrame(size: Sizer, tag: Bytes)
    requires Synced(size) && IsTag(tag)
    ensures CountFrames(size, tag).None?
  {
    assert tag[0] == tag[..3][0];
  }

  lemma FramesAreCounted(size: Sizer, fs: seq<Bytes>)
    requires Sound(size) && AllFrames(size, fs)
    ensures CountFrames(size, Concat(fs)) == Some(|fs|)
  {
    CountPast(size, fs, []);
    assert Concat(fs) + [] == Concat(fs);
  }

  lemma PlainIsDecided(size: Sizer, f: File)
    requires Synced(size) && Mp3File(size, f) && TagIsLast(f)
    ensures Decides(size, Encode(f))
  {
    Id3IsFound(size, f);
    FramesAreCounted(size, f.frames);
    if f.tag == [] {
      assert Concat(f.frames) + [] == Concat(f.frames);
    } else {
      TagIsFound(Concat(f.frames), f.tag);
    }
  }

  lemma DecidedIsPlain(size: Sizer, data: Bytes) returns (f: File)
    requires Sound(size) && Decides(size, data)
    ensures Mp3File(size, f) && data == Encode(f) && TagIsLast(f)
  {
    Id3IsCut(data);
    var body := AfterId3(data).value;
    var frames := CountSplits(size, BeforeTag(body));
    f := File(data[..|data| - |body|], frames, body[|BeforeTag(body)|..]);
    assert body == Concat(frames) + f.tag;
  }

  /** The order of checks decides the grammar in which a trailing tag is never frame data. */
  lemma DecidesPlainMp3(size: Sizer, data: Bytes)
    requires Synced(size)
    ensures Decides(size, data) <==> IsPlainMp3(size, data)
  {
    if IsPlainMp3(size, data) {
      var f :| Mp3File(size, f) && data == Encode(f) && TagIsLast(f);
      PlainIsDecided(size, f);
    }
    if Decides(size, data) {
      var f := DecidedIsPlain(size, data);
    }
  }

  /** The documented shape is not quite what is accepted: what is refused of it are the files
      that end in whole frames and yet have "TAG" 128 bytes before their end. */
  lemma TagInFrameDataIsRefused(size: Sizer, data: Bytes)
    requires Synced(size) && IsMp3(size, data)
    ensures AfterId3(data).Some?
    ensures
      var body := AfterId3(data).value;
      IsPlainMp3(size, data) <==> !(EndsWithTag(body) && CountFrames(size, body).Some?)
  {
    var f :| Mp3File(size, f) && data == Encode(f);
    Id3IsFound(size, f);
    DecidesPlainMp3(size, data);
    FramesAreCounted(size, f.frames);
    var frames := Concat(f.frames);
    if f.tag != [] {
      TagIsFound(frames, f.tag);
      TagIsNoFrame(size, f.tag);
      CountPast(size, f.frames, f.tag);
    } else {
      assert frames + [] == frames;
      if EndsWithTag(frames) {
        TagHidesFrames(size, frames);
      }
    }
  }

  /** A tag that starts inside a frame cuts it short. */
  lemma TagHidesFrames(size: Sizer, d: Bytes)
    requires Synced(size) && EndsWithTag(d) && CountFrames(size, d).Some?
    ensures CountFrames(size, BeforeTag(d)).None?
  {
    if CountFrames(size, BeforeTag(d)).Some? {
      var fs := CountSplits(size, BeforeTag(d));
      var tag := d[|d| - 128..];
      assert d == Concat(fs) + tag;
      CountPast(size, fs, tag);
      TagIsNoFrame(size, tag);
      assert false;
    }
  }

  lemma AnnouncedIsSynced()
    ensures Synced(Announced)
  {
    AnnouncedIsSound();
  }

  function Zeros(n: nat): (b: Bytes)
    ensures |b| == n
  {
    seq(n, _ => 0)
  }

  const HEADER: Bytes := [0xff, 0xfb, 0x14, 0]

  lemma SilentFrame(f: Bytes)
    requires |f| == 96 && f[..4] == HEADER
    ensures IsFrame(Announced, f)
  {
    HeaderDecides(f, HEADER);
  }

  lemma ConcatTwo(first: Bytes, second: Bytes)
    ensures Concat([first, second]) == first + second
  {
    var fs: seq<Bytes> := [first, second];
    var last: seq<Bytes> := [second];
    assert fs[1..] == last && last[1..] == [];
    assert Concat(last) == second;
  }

  const FIRST := HEADER + Zeros(60) + TAG + Zeros(29)
  const SECOND := HEADER + Zeros(92)

  lemma ExampleIsMp3(f: File)
    requires f == File([], [FIRST, SECOND], [])
    ensures Mp3File(Announced, f) && Encode(f) == FIRST + SECOND && EndsWithTag(FIRST + SECOND)
  {
    SilentFrame(FIRST);
    SilentFrame(SECOND);
    ConcatTwo(FIRST, SECOND);
    assert Encode(f) == FIRST + SECOND;
    assert (FIRST + SECOND)[64..][..3] == TAG;
  }

  /** Two silent frames of 96 bytes, the first with "TAG" in its data. */
  lemma RefusedExample()
    ensures IsMp3(Announced, FIRST + SECOND) && !IsPlainMp3(Announced, FIRST + SECOND)
  {
    var f := File([], [FIRST, SECOND], []);
    ExampleIsMp3(f);
    AnnouncedIsSynced();
    ExampleIsRefused(Announced, f);
  }

  lemma ExampleIsRefused(size: Sizer, f: File)
    requires Synced(size) && Mp3File(size, f) && f.tag == [] && EndsWithTag(Concat(f.frames))
    ensures IsMp3(size, Encode(f)) && !IsPlainMp3(size, Encode(f))
  {
    FramesAreCounted(size, f.frames);
    Id3IsFound(size, f);
    assert Concat(f.frames) + [] == Concat(f.frames);
    TagInFrameDataIsRefused(size, Encode(f));
  }

  lemma ExampleFrame(frame: Bytes)
    requires frame == [255, 251, 144, 0] + Zeros(413)
    ensures IsFrame(Announced, frame)
  {
    var h := Fields(3, 1, 9, 0, 0, 0, 0);
    assert HeaderBytes(h) == [255, 251, 144, 0] && Kilobits(3, 9) == 128 && Hertz(3, 0) == 44100;
    HeaderAnnounces(h, Zeros(413));
  }

  /** A frame at 128 kilobits per second and 44.1 kilohertz has 417 bytes; two of them are a file. */
  lemma AcceptedExample(frame: Bytes)
    requires frame == [255, 251, 144, 0] + Zeros(413)
    ensures IsPlainMp3(Announced, frame + frame)
  {
    ExampleFrame(frame);
    ConcatTwo(frame, frame);
    var f := File([], [frame, frame], []);
    var all := frame + frame;
    assert Concat(f.frames) == all && Encode(f) == all;
    var end := all[|all| - 128..];
    assert end[0] == 0;
    TagsInNumbers(end);
    assert Mp3File(Announced, f) && TagIsLast(f);
  }

  lemma FrameIsNoTag(frame: Bytes)
    requires IsFrame(Announced, frame)
    ensures !StartsWith(frame, ID3)
  {
    assert 3 <= |frame| && frame[..3][0] == frame[0];
  }

  /** One frame alone is not a file. */
  lemma OneFrameIsRefused(frame: Bytes)
    requires IsFrame(Announced, frame) && !EndsWithTag(frame)
    ensures !IsPlainMp3(Announced, frame)
  {
    AnnouncedIsSynced();
    DecidesPlainMp3(Announced, frame);
    FramesAreCounted(Announced, [frame]);
    assert Concat([frame]) == frame by {
      assert [frame][1..] == [];
    }
    FrameIsNoTag(frame);
  }

  // ---- the validator ---------------------------------------------------------------------------

  method SkipId3(data: Bytes) returns (ok: bool, rest: Bytes)
    ensures ok <==> AfterId3(data).Some?
    ensures ok ==> AfterId3(data) == Some(rest)
  {
    ok, rest := true, data;
    if StartsWith(data, ID3) {
      if |data| < 10 || data[3] < 2 || 4 < data[3] {
        return false, data;
      }
      var size := 0;
      var digits := data[6..10];
      for i := 0 to 4
        invariant forall j :: 0 <= j < i ==> digits[j] < 128
        invariant size == Digits(digits[..i])
      {
        if 128 <= digits[i] {
          return false, data;
        }
        size := size * 128 + digits[i] as int;
        assert digits[..i + 1][..i] == digits[..i];
      }
      assert digits[..4] == digits;
      DigitsValue(digits);
      var end := 10 + size;
      if data[3] == 4 && data[5] / 16 % 2 == 1 {
        end := end + 10;
      }
      if |data| < end {
        return false, data;
      }
      rest := data[end..];
    }
  }

  ghost function Digits(b: Bytes): nat {
    if b == [] then 0 else Digits(b[..|b| - 1]) * 128 + b[|b| - 1] as int
  }

  lemma DigitsValue(b: Bytes)
    requires |b| == 4
    ensures Digits(b) == SyncsafeValue(b)
  {
    var c := b[..3];
    assert c[..2] == b[..2] && b[..2][..1] == b[..1] && b[..1][..0] == [];
    assert Digits(b[..1]) == b[0] as int;
    assert Digits(b[..2]) == b[0] as int * 128 + b[1] as int;
    assert Digits(c) == Digits(b[..2]) * 128 + b[2] as int;
  }

  predicate AnnouncedAt(size: Sizer, d: Bytes) {
    size(d) == Announced(d)
  }

  /** The header at the front of the data. */
  method ReadHeader(ghost sizer: Sizer, data: Bytes) returns (size: Option<nat>)
    requires AnnouncedAt(sizer, data)
    ensures size == sizer(data)
    ensures size.Some? ==> 24 <= size.value
  {
    if |data| < 4 || data[0] != 0xff || data[1] < 0xe0 {
      return None;
    }
    var version, layer := data[1] / 8 % 4, data[1] / 2 % 4;
    var bitrate, sample := data[2] / 16 % 16, data[2] / 4 % 4;
    if version == 1 || layer != 1 || bitrate == 0 || bitrate == 15 || sample == 3 {
      return None;
    }
    FrameSizeRange(data);
    size := Some(SizeOf(version, bitrate, sample, data[2] / 2 % 2));
  }

  /** Whether the rest of the file is whole frames, and how many. */
  method SkipFrames(ghost sizer: Sizer, input: Bytes) returns (ok: bool, frames: nat)
    requires Sound(sizer) && forall d: Bytes :: AnnouncedAt(sizer, d)
    ensures CountFrames(sizer, input) == if ok then Some(frames) else None
  {
    var data := input;
    frames := 0;
    while 0 < |data|
      invariant CountFrames(sizer, input) == More(frames, CountFrames(sizer, data))
      decreases |data|
    {
      assert AnnouncedAt(sizer, data);
      var size := ReadHeader(sizer, data);
      if size.None? || size.value < 4 || |data| < size.value {
        return false, frames;
      }
      data := data[size.value..];
      frames := frames + 1;
    }
    ok := true;
  }

  method ValidMp3(input: Bytes) returns (ok: bool)
    ensures ok <==> IsPlainMp3(Announced, input)
  {
    AnnouncedIsSynced();
    DecidesPlainMp3(Announced, input);
    var good, data := SkipId3(input);
    if !good {
      return false;
    }
    if EndsWithTag(data) {
      data := data[..|data| - 128];
    }
    var frames;
    good, frames := SkipFrames(Announced, data);
    ok := good && 2 <= frames;
  }
}
