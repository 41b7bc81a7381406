/** Streams of frames that announce their own size. */
module Framing {
  import opened Wrappers
  import opened Octets

  /** The size announced by the bytes at the front, unless they start no frame. */
  type Sizer = Bytes -> Option<nat>

  predicate SoundAt(size: Sizer, d: Bytes, rest: Bytes) {
    size(d).Some? && size(d).value <= |d| ==>
      0 < size(d).value && size(d + rest) == size(d) && size(d[..size(d).value]) == size(d)
  }

  /** Frames are not empty, and the size of a frame does not depend on what follows it. */
  ghost predicate Sound(size: Sizer) {
    forall d: Bytes, rest: Bytes :: SoundAt(size, d, rest)
  }

  predicate IsFrame(size: Sizer, f: Bytes) {
    size(f) == Some(|f|)
  }

  predicate AllFrames(size: Sizer, fs: seq<Bytes>) {
    forall f :: f in fs ==> IsFrame(size, f)
  }

  function Concat(fs: seq<Bytes>): Bytes {
    if fs == [] then [] else fs[0] + Concat(fs[1..])
  }

  function More(n: nat, o: Option<nat>): Option<nat> {
    if o.None? then None else Some(n + o.value)
  }

  /** How many frames a reader finds, unless it meets something else. */
  ghost function CountFrames(size: Sizer, d: Bytes): Option<nat>
    requires Sound(size)
    decreases |d|
  {
    if d == [] then Some(0)
    else if size(d).None? || |d| < size(d).value then None
    else
      assert SoundAt(size, d, []);
      More(1, CountFrames(size, d[size(d).value..]))
  }

  /** Whole frames in front are counted, whatever follows them. */
  lemma {:induction false} CountPast(size: Sizer, fs: seq<Bytes>, rest: Bytes)
    requires Sound(size) && AllFrames(size, fs)
    ensures CountFrames(size, Concat(fs) + rest) == More(|fs|, CountFrames(size, rest))
  {
    if fs == [] {
      assert Concat(fs) + rest == rest;
    } else {
      var f, tail := fs[0], Concat(fs[1..]) + rest;
      assert f in fs;
      assert Concat(fs) + rest == f + tail;
      assert SoundAt(size, f, tail);
      assert (f + tail)[|f|..] == tail;
      CountPast(size, fs[1..], rest);
    }
  }

  /** What is counted splits into that many frames. */
  lemma {:induction false} CountSplits(size: Sizer, d: Bytes) returns (fs: seq<Bytes>)
    requires Sound(size) && CountFrames(size, d).Some?
    ensures AllFrames(size, fs) && Concat(fs) == d && CountFrames(size, d).value == |fs|
    decreases |d|
  {
    if d == [] {
      fs := [];
    } else {
      var n := size(d).value;
      assert SoundAt(size, d, []);
      var rest := CountSplits(size, d[n..]);
      fs := [d[..n]] + rest;
      assert fs[1..] == rest;
    }
  }

  lemma FramesHaveBytes(size: Sizer, fs: seq<Bytes>)
    requires Sound(size) && AllFrames(size, fs)
    ensures Concat(fs) == [] ==> fs == []
  {
    if fs != [] {
      assert fs[0] in fs;
      assert SoundAt(size, fs[0], []);
    }
  }

  /** A stream splits into whole frames in one way only. */
  lemma {:induction false} SplitsOnce(size: Sizer, fs: seq<Bytes>, gs: seq<Bytes>)
    requires Sound(size) && AllFrames(size, fs) && AllFrames(size, gs) && Concat(fs) == Concat(gs)
    ensures fs == gs
  {
    FramesHaveBytes(size, fs);
    FramesHaveBytes(size, gs);
    if fs != [] && gs != [] {
      var f, g := fs[0], gs[0];
      assert f in fs && g in gs;
      assert SoundAt(size, f, Concat(fs[1..])) && SoundAt(size, g, Concat(gs[1..]));
      assert Concat(fs)[..|f|] == f && Concat(gs)[..|g|] == g;
      assert Concat(fs)[|f|..] == Concat(fs[1..]) && Concat(gs)[|g|..] == Concat(gs[1..]);
      SplitsOnce(size, fs[1..], gs[1..]);
    }
  }
}
