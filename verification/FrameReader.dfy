/** The browser client's incremental reader of length-prefixed stream frames (golem-js/src/client.ts). */
module FrameReader {
  import opened Datagrams
  import opened BigEndian

  /** The length at the front of a buffer: DataView.getUint32(offset, false). */
  function Length(b: bytes): nat
    requires |b| >= 4
  {
    Read32(b[..4])
  }

  /** writeReliableFrame on a frame within the limit; longer ones are refused. */
  function WriteFrame(frame: bytes): bytes
    requires |frame| <= MAX_RELIABLE_BYTES
  {
    Put32(|frame|) + frame
  }

  /** A frame on the wire: its length in four bytes, then its data. */
  lemma FrameLayout(frame: bytes)
    requires |frame| <= MAX_RELIABLE_BYTES
    ensures var s := WriteFrame(frame); |s| == 4 + |frame| && Read32(s[..4]) == |frame| && s[4..] == frame
  {
    assert WriteFrame(frame)[..4] == Put32(|frame|);
  }

  predicate Writable(frames: seq<bytes>)
  {
    forall i :: 0 <= i < |frames| ==> |frames[i]| <= MAX_RELIABLE_BYTES
  }

  function WriteAll(frames: seq<bytes>): bytes
    requires Writable(frames)
  {
    if frames == [] then [] else WriteFrame(frames[0]) + WriteAll(frames[1..])
  }

  /** A buffer that holds the start of one frame, but not all of it. */
  predicate Incomplete(b: bytes)
  {
    |b| < 4 || (Length(b) <= MAX_RELIABLE_BYTES && |b| - 4 < Length(b))
  }

  predicate BadLength(b: bytes) { |b| >= 4 && Length(b) > MAX_RELIABLE_BYTES }

  /** b is exactly these frames, encoded one after the other, and the start of another. */
  ghost predicate Splits(b: bytes, frames: seq<bytes>, rest: bytes)
  {
    Writable(frames) && Incomplete(rest) && b == WriteAll(frames) + rest
  }

  lemma {:induction false} WriteAllAppend(f: seq<bytes>, g: seq<bytes>)
    requires Writable(f) && Writable(g)
    ensures Writable(f + g) && WriteAll(f + g) == WriteAll(f) + WriteAll(g)
    decreases |f|
  {
    if f == [] {
      assert f + g == g;
    } else {
      WriteAllAppend(f[1..], g);
      assert (f + g)[1..] == f[1..] + g;
    }
  }

  lemma WriteOne(frame: bytes)
    requires |frame| <= MAX_RELIABLE_BYTES
    ensures WriteAll([frame]) == WriteFrame(frame)
  {
    assert [frame][1..] == [];
  }

  /** What a reader sees at the front of an encoded frame. */
  lemma ReadFront(frame: bytes, later: bytes)
    requires |frame| <= MAX_RELIABLE_BYTES
    ensures var b := WriteFrame(frame) + later;
            Length(b) == |frame| && b[4..4 + |frame|] == frame && b[4 + |frame|..] == later
  {
    var b := WriteFrame(frame) + later;
    assert b[..4] == Put32(|frame|);
  }

  /** A complete frame at the front of a buffer is the encoding of its contents. */
  lemma FrameAtFront(b: bytes)
    requires |b| >= 4 && Length(b) <= MAX_RELIABLE_BYTES && |b| - 4 >= Length(b)
    ensures var n := 4 + Length(b); WriteFrame(b[4..n]) == b[..n] && b == b[..n] + b[n..]
  {
    var n := 4 + Length(b);
    WrittenRead(b[..4]);
    assert b[..n] == b[..4] + b[4..n];
  }

  /** There is at most one way to split a stream. */
  lemma {:induction false} SplitIsUnique(f: seq<bytes>, r: bytes, g: seq<bytes>, s: bytes)
    requires Writable(f) && Incomplete(r) && Writable(g) && (Incomplete(s) || BadLength(s))
    requires WriteAll(f) + r == WriteAll(g) + s
    ensures f == g && r == s
    decreases |f| + |g|
  {
    if f != [] { FrontOfAll(f, r); }
    if g != [] { FrontOfAll(g, s); }
    if f == [] { assert WriteAll(f) + r == r; }
    if g == [] { assert WriteAll(g) + s == s; }
    if f != [] && g != [] {
      SplitIsUnique(f[1..], r, g[1..], s);
      assert f == [f[0]] + f[1..] && g == [g[0]] + g[1..];
    }
  }

  lemma FrontOfAll(f: seq<bytes>, r: bytes)
    requires Writable(f) && f != []
    ensures var b, n := WriteAll(f) + r, 4 + |f[0]|;
            && |b| >= n && Length(b) == |f[0]| && b[4..n] == f[0]
            && b[n..] == WriteAll(f[1..]) + r
  {
    Assoc(WriteFrame(f[0]), WriteAll(f[1..]), r);
    ReadFront(f[0], WriteAll(f[1..]) + r);
  }

  lemma Assoc(a: bytes, b: bytes, c: bytes)
    ensures (a + b) + c == a + (b + c)
  {
  }

  lemma SplitCons(first: bytes, b: bytes, f: seq<bytes>, r: bytes)
    requires |first| <= MAX_RELIABLE_BYTES && Splits(b, f, r)
    ensures Splits(WriteFrame(first) + b, [first] + f, r)
  {
    WriteOne(first);
    WriteAllAppend([first], f);
    Assoc(WriteFrame(first), WriteAll(f), r);
  }

  lemma ShortPrefix(b: bytes, n: nat)
    requires n <= |b| && (n >= 4 ==> Length(b) <= MAX_RELIABLE_BYTES && n - 4 < Length(b))
    ensures Splits(b[..n], [], b[..n])
  {
    assert n >= 4 ==> b[..n][..4] == b[..4];
    assert WriteAll([]) + b[..n] == b[..n];
  }

  /** Taking one more complete frame off a partly read buffer. */
  lemma ReadOne(b: bytes, offset: nat, frames: seq<bytes>)
    requires Writable(frames) && offset + 4 <= |b| && b[..offset] == WriteAll(frames)
    requires var n := Length(b[offset..]); n <= MAX_RELIABLE_BYTES && offset + 4 + n <= |b|
    ensures var n := Length(b[offset..]);
            var frames' := frames + [b[offset + 4..offset + 4 + n]];
            Writable(frames') && b[..offset + 4 + n] == WriteAll(frames')
  {
    var n := Length(b[offset..]);
    var frame := b[offset + 4..offset + 4 + n];
    FrameAtFront(b[offset..]);
    assert b[offset..][4..4 + n] == frame;
    WriteOne(frame);
    WriteAllAppend(frames, [frame]);
    assert b[..offset + 4 + n] == b[..offset] + b[offset..][..4 + n];
  }

  class ReliableFrameReader {
    var buffer: bytes

    constructor ()
      ensures buffer == []
    {
      buffer := [];
    }

    /** push: all complete frames, in order. On a bad length it fails, with everything left in the buffer. */
    method Push(chunk: bytes) returns (frames: seq<bytes>, ok: bool)
      modifies this
      ensures chunk == [] ==> ok && frames == [] && buffer == old(buffer)
      ensures ok && (chunk != [] || Incomplete(old(buffer))) ==> Splits(old(buffer) + chunk, frames, buffer)
      ensures !ok ==> frames == [] && buffer == old(buffer) + chunk && !Splittable(buffer)
    {
      if |chunk| == 0 {
        NothingPushed(buffer, chunk);
        return [], true;
      }
      buffer := buffer + chunk;
      frames := [];
      var offset := 0;
      while |buffer| - offset >= 4
        invariant 0 <= offset <= |buffer| && buffer == old(buffer) + chunk
        invariant Writable(frames) && buffer[..offset] == WriteAll(frames)
        decreases |buffer| - offset
      {
        var frameLen := Length(buffer[offset..]);
        if frameLen > MAX_RELIABLE_BYTES {
          NotSplittable(buffer, offset, frames);
          return [], false;
        }
        if |buffer| - offset - 4 < frameLen {
          break;
        }
        ReadOne(buffer, offset, frames);
        frames := frames + [buffer[offset + 4..offset + 4 + frameLen]];
        offset := offset + 4 + frameLen;
      }
      SplitHere(buffer, offset, frames);
      buffer := buffer[offset..];
      return frames, true;
    }
  }

  lemma SplitHere(b: bytes, offset: nat, frames: seq<bytes>)
    requires Writable(frames) && offset <= |b| && b[..offset] == WriteAll(frames) && Incomplete(b[offset..])
    ensures Splits(b, frames, b[offset..])
  {
    assert b == b[..offset] + b[offset..];
  }

  lemma NothingPushed(buffer: bytes, chunk: bytes)
    requires chunk == []
    ensures Incomplete(buffer) ==> Splits(buffer + chunk, [], buffer)
  {
    assert WriteAll([]) + buffer == buffer + chunk;
  }

  ghost predicate Splittable(b: bytes) { exists frames, rest :: Splits(b, frames, rest) }

  lemma NotSplittable(b: bytes, offset: nat, frames: seq<bytes>)
    requires Writable(frames) && offset <= |b| && b[..offset] == WriteAll(frames) && BadLength(b[offset..])
    ensures !Splittable(b)
  {
    if f, r :| Splits(b, f, r) {
      assert b == b[..offset] + b[offset..];
      SplitIsUnique(f, r, frames, b[offset..]);
    }
  }

  // ---- any chunking ----

  function Concat(chunks: seq<bytes>): bytes
  {
    if chunks == [] then [] else Concat(chunks[..|chunks| - 1]) + chunks[|chunks| - 1]
  }

  lemma SplitOneMore(b: bytes, frames: seq<bytes>, rest: bytes, chunk: bytes, out: seq<bytes>, rest': bytes)
    requires Splits(b, frames, rest) && Splits(rest + chunk, out, rest')
    ensures Splits(b + chunk, frames + out, rest')
  {
    WriteAllAppend(frames, out);
    assert (WriteAll(frames) + rest) + chunk == WriteAll(frames) + (rest + chunk);
    assert WriteAll(frames) + (WriteAll(out) + rest') == WriteAll(frames + out) + rest';
  }

  /** What has arrived of a stream that can be split can be split too. */
  lemma {:induction false} PrefixSplits(b: bytes, frames: seq<bytes>, rest: bytes, n: nat)
    returns (f: seq<bytes>, r: bytes)
    requires Splits(b, frames, rest) && n <= |b|
    ensures Splits(b[..n], f, r)
    decreases |frames|
  {
    if frames == [] {
      assert b == rest;
      ShortPrefix(b, n);
      f, r := [], b[..n];
    } else {
      FrontOfAll(frames, rest);
      var m := 4 + |frames[0]|;
      if n < m {
        ShortPrefix(b, n);
        f, r := [], b[..n];
      } else {
        f, r := PrefixSplits(b[m..], frames[1..], rest, n - m);
        SplitCons(frames[0], b[m..][..n - m], f, r);
        PrefixRejoins(b, n);
        f := [frames[0]] + f;
      }
    }
  }

  lemma PrefixRejoins(b: bytes, n: nat)
    requires |b| >= 4 && Length(b) <= MAX_RELIABLE_BYTES && 4 + Length(b) <= n <= |b|
    ensures var m := 4 + Length(b); b[..n] == WriteFrame(b[4..m]) + b[m..][..n - m]
  {
    FrameAtFront(b);
  }

  /** What is left in the buffer, with the next chunk, can be split if all that has arrived can. */
  lemma {:induction false} RestSplits(b: bytes, f: seq<bytes>, rest: bytes, chunk: bytes, g: seq<bytes>, r: bytes)
    requires Splits(b, f, rest) && Splits(b + chunk, g, r)
    ensures Splittable(rest + chunk)
    decreases |f|
  {
    if f == [] {
      assert Splits(rest + chunk, g, r);
    } else {
      SameFirstFrame(b, f, rest, chunk, g, r);
      RestSplits(b[4 + |f[0]|..], f[1..], rest, chunk, g[1..], r);
    }
  }

  lemma SameFirstFrame(b: bytes, f: seq<bytes>, rest: bytes, chunk: bytes, g: seq<bytes>, r: bytes)
    requires Splits(b, f, rest) && Splits(b + chunk, g, r) && f != []
    ensures g != [] && |b| >= 4 + |f[0]|
    ensures Splits(b[4 + |f[0]|..], f[1..], rest) && Splits(b[4 + |f[0]|..] + chunk, g[1..], r)
  {
    var m := 4 + |f[0]|;
    FrontOfAll(f, rest);
    SameFront(b, chunk);
    HasFrame(b + chunk, g, r);
    FrontOfAll(g, r);
    assert (b + chunk)[m..] == b[m..] + chunk;
  }

  /** Bytes that hold a whole frame at the front do not split into none. */
  lemma HasFrame(b: bytes, g: seq<bytes>, r: bytes)
    requires Splits(b, g, r) && |b| >= 4 && |b| - 4 >= Length(b)
    ensures g != []
  {
    assert WriteAll([]) + r == r;
  }

  lemma SameFront(b: bytes, chunk: bytes)
    requires |b| >= 4
    ensures Length(b + chunk) == Length(b)
  {
    assert (b + chunk)[..4] == b[..4];
  }

  lemma ConcatPrefix(chunks: seq<bytes>, n: nat)
    requires n <= |chunks|
    ensures |Concat(chunks[..n])| <= |Concat(chunks)|
    ensures Concat(chunks)[..|Concat(chunks[..n])|] == Concat(chunks[..n])
    decreases |chunks|
  {
    if n < |chunks| {
      var p := chunks[..|chunks| - 1];
      ConcatPrefix(p, n);
      assert p[..n] == chunks[..n];
    } else {
      assert chunks[..n] == chunks;
    }
  }

  /** If one push fails, no continuation of the stream is well-formed. */
  lemma FailureIsFinal(chunks: seq<bytes>, n: nat, f: seq<bytes>, rest: bytes)
    requires n < |chunks| && Splits(Concat(chunks[..n]), f, rest) && !Splittable(rest + chunks[n])
    ensures !Splittable(Concat(chunks))
  {
    if g, r :| Splits(Concat(chunks), g, r) {
      NextPushSplits(chunks, n, f, rest, g, r);
    }
  }

  lemma NextPushSplits(chunks: seq<bytes>, n: nat, f: seq<bytes>, rest: bytes, g: seq<bytes>, r: bytes)
    requires n < |chunks| && Splits(Concat(chunks[..n]), f, rest) && Splits(Concat(chunks), g, r)
    ensures Splittable(rest + chunks[n])
  {
    var g1, r1 := PushedSplits(chunks, n + 1, g, r);
    ConcatOneMore(chunks, n);
    RestSplits(Concat(chunks[..n]), f, rest, chunks[n], g1, r1);
  }

  lemma ConcatOneMore(chunks: seq<bytes>, n: nat)
    requires n < |chunks|
    ensures Concat(chunks[..n + 1]) == Concat(chunks[..n]) + chunks[n]
  {
    assert chunks[..n + 1][..n] == chunks[..n];
  }

  /** What was pushed so far splits when the whole does. */
  lemma PushedSplits(chunks: seq<bytes>, n: nat, g: seq<bytes>, r: bytes) returns (g1: seq<bytes>, r1: bytes)
    requires n <= |chunks| && Splits(Concat(chunks), g, r)
    ensures Splits(Concat(chunks[..n]), g1, r1)
  {
    ConcatPrefix(chunks, n);
    g1, r1 := PrefixSplits(Concat(chunks), g, r, |Concat(chunks[..n])|);
  }

  /** Chunk invariance: a fresh reader fed with any chunks, until a push fails. No push fails if and only if
      the bytes are a list of frames and the start of another, however they are cut into chunks; and then the
      frames returned over all pushes are exactly those, in order, and the buffer is exactly the rest. */
  method FeedAll(chunks: seq<bytes>) returns (out: seq<bytes>, rest: bytes, ok: bool)
    ensures ok <==> Splittable(Concat(chunks))
    ensures forall frames, unfinished ::
              Writable(frames) && Incomplete(unfinished) && WriteAll(frames) + unfinished == Concat(chunks) ==>
                ok && out == frames && rest == unfinished
  {
    var reader := new ReliableFrameReader();
    out := [];
    assert Splits(Concat(chunks[..0]), out, reader.buffer) by { assert WriteAll([]) + [] == []; }
    for i := 0 to |chunks|
      invariant Splits(Concat(chunks[..i]), out, reader.buffer)
    {
      ghost var before := reader.buffer;
      var frames, pushed := reader.Push(chunks[i]);
      if !pushed {
        FailureIsFinal(chunks, i, out, before);
        SplitMeansSplittable(Concat(chunks));
        return out, reader.buffer, false;
      }
      assert chunks[..i + 1][..i] == chunks[..i];
      SplitOneMore(Concat(chunks[..i]), out, before, chunks[i], frames, reader.buffer);
      out := out + frames;
    }
    assert chunks[..|chunks|] == chunks;
    rest, ok := reader.buffer, true;
    OnlySplit(Concat(chunks), out, rest);
  }

  lemma OnlySplit(b: bytes, f: seq<bytes>, r: bytes)
    requires Splits(b, f, r)
    ensures Splittable(b)
    ensures forall g, s :: Writable(g) && Incomplete(s) && WriteAll(g) + s == b ==> g == f && s == r
  {
    forall g, s | Writable(g) && Incomplete(s) && WriteAll(g) + s == b ensures g == f && s == r {
      SplitIsUnique(f, r, g, s);
    }
  }

  lemma SplitMeansSplittable(b: bytes)
    ensures forall f, r :: Writable(f) && Incomplete(r) && WriteAll(f) + r == b ==> Splittable(b)
  {
    forall f, r | Writable(f) && Incomplete(r) && WriteAll(f) + r == b ensures Splittable(b) {
      assert Splits(b, f, r);
    }
  }

  // ---- batch payloads ----

  ghost predicate IsBatch(b: bytes) { exists frames :: Writable(frames) && WriteAll(frames) == b }

  /** decodeReliableBatchPayload: the frames, or None for what it throws on. */
  method DecodeReliableBatchPayload(b: bytes) returns (r: Option<seq<bytes>>)
    ensures r.Some? ==> Writable(r.value) && WriteAll(r.value) == b
    ensures r.None? ==> !IsBatch(b)
  {
    var frames: seq<bytes> := [];
    var offset := 0;
    while |b| - offset >= 4
      invariant 0 <= offset <= |b|
      invariant Writable(frames) && b[..offset] == WriteAll(frames)
      decreases |b| - offset
    {
      var frameLen := Length(b[offset..]);
      if frameLen > MAX_RELIABLE_BYTES || |b| - offset - 4 < frameLen {
        NotABatch(b, offset, frames);
        return None;
      }
      ReadOne(b, offset, frames);
      frames := frames + [b[offset + 4..offset + 4 + frameLen]];
      offset := offset + 4 + frameLen;
    }
    if offset != |b| {
      NotABatch(b, offset, frames);
      return None;
    }
    assert b[..offset] == b;
    return Some(frames);
  }

  lemma NotABatch(b: bytes, offset: nat, frames: seq<bytes>)
    requires Writable(frames) && offset < |b| && b[..offset] == WriteAll(frames)
    requires Incomplete(b[offset..]) || BadLength(b[offset..])
    ensures !IsBatch(b)
  {
    if f :| Writable(f) && WriteAll(f) == b {
      assert b == b[..offset] + b[offset..];
      assert WriteAll(f) + [] == b;
      SplitIsUnique(f, [], frames, b[offset..]);
    }
  }
}
