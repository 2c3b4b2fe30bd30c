/**
  Length-prefixed frames of the bridge socket (packages/bridge-client/src/frame.ts).

  `Splits` says, without any algorithm, what it means for a byte stream to be a run of whole
  frames followed by an unfinished one.  The one-shot decoder is proved against that meaning,
  and the incremental `FrameAccumulator` is proved against the one-shot decoder for every way of
  cutting the stream into chunks.
 */
module Frames {

  import opened Bytes

  const MAX_FRAME_BYTES: nat := 16 * 1024 * 1024

  datatype Encoded = Frame(data: bytes) | PayloadTooLarge(size: nat)

  datatype Decoded = Decoded(frames: seq<bytes>, remainder: bytes) | FrameTooLarge(size: nat)

  // ----- the header

  function ReadUInt32BE(b: bytes): nat
    requires 4 <= |b|
  {
    b[0] as nat * 0x100_0000 + b[1] as nat * 0x1_0000 + b[2] as nat * 0x100 + b[3] as nat
  }

  function WriteUInt32BE(n: nat): (b: bytes)
    requires n < 0x1_0000_0000
    ensures |b| == 4
    ensures ReadUInt32BE(b) == n
  {
    var hi, lo := n / 0x1_0000, n % 0x1_0000;
    [(hi / 0x100) as byte, (hi % 0x100) as byte, (lo / 0x100) as byte, (lo % 0x100) as byte]
  }

  /** Headers determine their size and sizes their header. */
  lemma HeaderIsExact(b: bytes)
    requires |b| == 4
    ensures ReadUInt32BE(b) == ((b[0] as nat * 256 + b[1] as nat) * 256 + b[2] as nat) * 256 + b[3] as nat
    ensures ReadUInt32BE(b) < 0x1_0000_0000
    ensures WriteUInt32BE(ReadUInt32BE(b)) == b
  {
    var n := ReadUInt32BE(b);
    var lo := b[2] as nat * 0x100 + b[3] as nat;
    var hi := b[0] as nat * 0x100 + b[1] as nat;
    assert n == hi * 0x1_0000 + lo;
    assert n / 0x1_0000 == hi && n % 0x1_0000 == lo;
  }

  // ----- encoding

  function EncodeFrame(body: bytes): (r: Encoded)
    ensures r.Frame? <==> |body| <= 16_777_216
    ensures r.PayloadTooLarge? ==> r.size == |body|
    ensures r.Frame? ==> |r.data| == 4 + |body| && ReadUInt32BE(r.data) == |body| && r.data[4..] == body
  {
    if |body| > MAX_FRAME_BYTES then PayloadTooLarge(|body|)
    else Frame(WriteUInt32BE(|body|) + body)
  }

  ghost predicate Sendable(bodies: seq<bytes>) {
    forall i :: 0 <= i < |bodies| ==> |bodies[i]| <= MAX_FRAME_BYTES
  }

  /** The bytes a sender writes for `bodies`, one frame after the other. */
  ghost function Wire(bodies: seq<bytes>): bytes
    requires Sendable(bodies)
  {
    if bodies == [] then [] else EncodeFrame(bodies[0]).data + Wire(bodies[1..])
  }

  lemma {:induction false} WireConcat(a: seq<bytes>, b: seq<bytes>)
    requires Sendable(a) && Sendable(b)
    ensures Sendable(a + b) && Wire(a + b) == Wire(a) + Wire(b)
  {
    if a == [] {
      assert a + b == b;
    } else {
      WireConcat(a[1..], b);
      assert (a + b)[1..] == a[1..] + b;
      assert (a + b)[0] == a[0];
      var head := EncodeFrame(a[0]).data;
      assert head + Wire(a[1..]) + Wire(b) == head + (Wire(a[1..]) + Wire(b));
    }
  }

  // ----- what a stream means

  /** A frame announced by an acceptable header, of which some byte is still missing. */
  ghost predicate Unfinished(b: bytes) {
    |b| < 4 || (ReadUInt32BE(b) <= MAX_FRAME_BYTES && |b| < 4 + ReadUInt32BE(b))
  }

  ghost predicate Oversize(b: bytes, size: nat) {
    4 <= |b| && ReadUInt32BE(b) == size && size > MAX_FRAME_BYTES
  }

  ghost predicate Splits(stream: bytes, d: Decoded) {
    match d
    case Decoded(frames, rest) => Sendable(frames) && stream == Wire(frames) + rest && Unfinished(rest)
    case FrameTooLarge(size) =>
      exists frames: seq<bytes>, rest: bytes ::
        Sendable(frames) && stream == Wire(frames) + rest && Oversize(rest, size)
  }

  /** Two readings of one stream agree frame by frame up to the shorter of them. */
  lemma {:induction false} SameHead(frames: seq<bytes>, rest: bytes, frames': seq<bytes>, rest': bytes)
    requires Sendable(frames) && Sendable(frames')
    requires Wire(frames) + rest == Wire(frames') + rest'
    requires Unfinished(rest) || exists n :: Oversize(rest, n)
    requires Unfinished(rest') || exists n :: Oversize(rest', n)
    ensures frames == frames' && rest == rest'
    decreases |frames|
  {
    if frames == [] || frames' == [] {
      if frames != [] {
        FirstFrameIsWhole(frames, rest);
      } else if frames' != [] {
        FirstFrameIsWhole(frames', rest');
      } else {
        assert rest == Wire(frames) + rest && rest' == Wire(frames') + rest';
      }
    } else {
      var stream := Wire(frames) + rest;
      FirstFrameIsWhole(frames, rest);
      FirstFrameIsWhole(frames', rest');
      assert frames[0] == frames'[0];
      SameHead(frames[1..], rest, frames'[1..], rest');
      assert frames == [frames[0]] + frames[1..];
      assert frames' == [frames'[0]] + frames'[1..];
    }
  }

  lemma FirstFrameIsWhole(frames: seq<bytes>, rest: bytes)
    requires frames != [] && Sendable(frames)
    ensures |Wire(frames) + rest| >= 4 + |frames[0]|
    ensures ReadUInt32BE(Wire(frames) + rest) == |frames[0]|
    ensures (Wire(frames) + rest)[4..4 + |frames[0]|] == frames[0]
    ensures (Wire(frames) + rest)[4 + |frames[0]|..] == Wire(frames[1..]) + rest
  {
    HeadOf(EncodeFrame(frames[0]).data, Wire(frames[1..]), rest);
  }

  lemma HeadOf(head: bytes, middle: bytes, rest: bytes)
    requires 4 <= |head|
    ensures ReadUInt32BE(head + middle + rest) == ReadUInt32BE(head)
    ensures (head + middle + rest)[4..|head|] == head[4..]
    ensures (head + middle + rest)[|head|..] == middle + rest
  {}

  /** A stream has one reading only: frames, remainder and verdict are determined by the bytes. */
  lemma ReadingIsUnique(stream: bytes, d: Decoded, d': Decoded)
    requires Splits(stream, d) && Splits(stream, d')
    ensures d == d'
  {
    var f, r := Parts(stream, d);
    var f', r' := Parts(stream, d');
    SameHead(f, r, f', r');
  }

  lemma Parts(stream: bytes, d: Decoded) returns (frames: seq<bytes>, rest: bytes)
    requires Splits(stream, d)
    ensures Sendable(frames) && stream == Wire(frames) + rest
    ensures d.Decoded? ==> frames == d.frames && rest == d.remainder && Unfinished(rest)
    ensures d.FrameTooLarge? ==> Oversize(rest, d.size)
  {
    match d
    case Decoded(f, r) => frames, rest := f, r;
    case FrameTooLarge(size) =>
      frames, rest :| Sendable(frames) && stream == Wire(frames) + rest && Oversize(rest, size);
  }

  // ----- the one-shot decoder

  /** `decodeFrames`: every complete frame of `buffer` and the bytes after the last of them. */
  method DecodeFrames(buffer: bytes) returns (d: Decoded)
    ensures Splits(buffer, d)
  {
    var frames: seq<bytes> := [];
    var offset := 0;
    while |buffer| - offset >= 4
      invariant 0 <= offset <= |buffer|
      invariant Sendable(frames)
      invariant buffer == Wire(frames) + buffer[offset..]
    {
      var size := ReadUInt32BE(buffer[offset..]);
      if size > MAX_FRAME_BYTES {
        assert Oversize(buffer[offset..], size);
        return FrameTooLarge(size);
      }
      if |buffer| - offset - 4 < size {
        break;
      }
      var body := buffer[offset + 4..offset + 4 + size];
      AppendWire(frames, body, buffer[offset..]);
      frames := frames + [body];
      offset := offset + 4 + size;
    }
    d := Decoded(frames, buffer[offset..]);
  }

  lemma AppendWire(frames: seq<bytes>, body: bytes, rest: bytes)
    requires Sendable(frames) && 4 <= |rest| && ReadUInt32BE(rest) == |body| <= MAX_FRAME_BYTES
    requires |rest| >= 4 + |body| && body == rest[4..4 + |body|]
    ensures Sendable(frames + [body])
    ensures Wire(frames) + rest == Wire(frames + [body]) + rest[4 + |body|..]
  {
    WireConcat(frames, [body]);
    var data, tail := EncodeFrame(body).data, rest[4 + |body|..];
    assert rest == data + tail by {
      HeaderIsExact(rest[..4]);
      assert ReadUInt32BE(rest[..4]) == |body|;
    }
    assert Wire([body]) == data + Wire([]) == data;
    Regroup(Wire(frames), data, tail);
  }

  lemma Regroup(a: bytes, b: bytes, c: bytes)
    ensures a + b + c == a + (b + c)
  {}

  // ----- streams that arrive in pieces

  ghost function Join(chunks: seq<bytes>): bytes {
    if chunks == [] then [] else chunks[0] + Join(chunks[1..])
  }

  lemma {:induction false} JoinConcat(a: seq<bytes>, b: seq<bytes>)
    ensures Join(a + b) == Join(a) + Join(b)
  {
    if a == [] {
      assert a + b == b;
    } else {
      JoinConcat(a[1..], b);
      assert (a + b)[0] == a[0] && (a + b)[1..] == a[1..] + b;
      Regroup(a[0], Join(a[1..]), Join(b));
    }
  }

  lemma JoinAppend(chunks: seq<bytes>, chunk: bytes)
    ensures Join(chunks + [chunk]) == Join(chunks) + chunk
  {
    JoinConcat(chunks, [chunk]);
    assert Join([chunk]) == chunk;
  }

  /** Bytes arriving later never change the frames already read, nor an error already raised. */
  lemma MoreBytes(stream: bytes, more: bytes, d: Decoded, e: Decoded)
    requires Splits(stream, d)
    requires d.Decoded? ==> Splits(d.remainder + more, e)
    ensures d.FrameTooLarge? ==> Splits(stream + more, d)
    ensures d.Decoded? ==> Splits(stream + more, Prepend(d.frames, e))
  {
    var frames, rest := Parts(stream, d);
    if d.FrameTooLarge? {
      Regroup(Wire(frames), rest, more);
      assert Oversize(rest + more, d.size);
    } else {
      var frames', rest' := Parts(rest + more, e);
      WireConcat(frames, frames');
      Regroup(Wire(frames), rest, more);
      Regroup(Wire(frames), Wire(frames'), rest');
    }
  }

  function Prepend(frames: seq<bytes>, d: Decoded): Decoded {
    match d
    case Decoded(more, rest) => Decoded(frames + more, rest)
    case FrameTooLarge(size) => d
  }

  /**
    The incremental decoder: chunks are queued unjoined until they cover the next frame.
   */
  class FrameAccumulator {
    var chunks: seq<bytes>
    var queuedBytes: nat

    ghost function Queue(): bytes
      reads this
    {
      Join(chunks)
    }

    /** Between pushes the queue never holds a whole frame, nor an oversize header. */
    ghost predicate Valid()
      reads this
    {
      queuedBytes == |Queue()| && Unfinished(Queue())
    }

    constructor ()
      ensures Valid() && Queue() == []
    {
      chunks := [];
      queuedBytes := 0;
    }

    /**
      Queues `chunk` and hands out what it completes.  A push that throws leaves the queue as it
      found it plus the new chunk.
     */
    method Push(chunk: bytes) returns (d: Decoded)
      requires Valid()
      modifies this
      ensures Splits(old(Queue()) + chunk, d)
      ensures d.Decoded? ==> Valid() && Queue() == d.remainder && queuedBytes < 4 + MAX_FRAME_BYTES
      ensures d.FrameTooLarge? ==> Queue() == old(Queue()) + chunk
    {
      hide ReadUInt32BE;
      JoinAppend(chunks, chunk);
      chunks := chunks + [chunk];
      queuedBytes := queuedBytes + |chunk|;
      ghost var stream := Queue();
      assert stream == Wire([]) + stream;
      if queuedBytes < 4 {
        return Decoded([], JoinAll());
      }
      var size := NextFrameSize();
      if size > MAX_FRAME_BYTES {
        assert Oversize(stream, size);
        return FrameTooLarge(size);
      }
      if queuedBytes < 4 + size {
        return Decoded([], JoinAll());
      }
      assert |chunks| == 1 ==> Join(chunks) == chunk + Join([]) == chunk;
      var joined := if |chunks| == 1 then chunk else JoinAll();
      d := DecodeFrames(joined);
      if d.FrameTooLarge? {
        return;
      }
      chunks := if |d.remainder| > 0 then [d.remainder] else [];
      queuedBytes := |d.remainder|;
      assert Join([d.remainder]) == d.remainder + Join([]) == d.remainder;
    }

    /** `Buffer.concat` of the queued chunks. */
    function JoinAll(): (b: bytes)
      reads this
      ensures b == Queue()
    {
      Concat(chunks)
    }

    method NextFrameSize() returns (size: nat)
      requires chunks != [] && 4 <= |Queue()|
      ensures size == ReadUInt32BE(Queue())
    {
      var head := chunks[0];
      var header := if |head| >= 4 then head else JoinAll()[..4];
      size := ReadUInt32BE(header);
    }

    method Reset()
      modifies this
      ensures Valid() && Queue() == []
    {
      chunks := [];
      queuedBytes := 0;
    }
  }

  function Concat(chunks: seq<bytes>): (b: bytes)
    ensures b == Join(chunks)
  {
    if chunks == [] then [] else chunks[0] + Concat(chunks[1..])
  }

  /**
    One connection: a fresh accumulator fed chunk by chunk until a push throws.  For every cutting
    of the stream the frames handed out are those of the whole stream, the queue ends as its
    remainder, and some push throws exactly when the whole stream has an oversize header.
   */
  method Receive(chunks: seq<bytes>) returns (d: Decoded, acc: FrameAccumulator)
    ensures Splits(Join(chunks), d)
    ensures d.Decoded? ==> acc.Valid() && acc.Queue() == d.remainder
  {
    acc := new FrameAccumulator();
    var frames: seq<bytes> := [];
    var k := 0;
    assert [] == Wire([]) + [];
    while k < |chunks|
      invariant 0 <= k <= |chunks|
      invariant fresh(acc) && acc.Valid()
      invariant Splits(Join(chunks[..k]), Decoded(frames, acc.Queue()))
    {
      ghost var before := acc.Queue();
      var part := acc.Push(chunks[k]);
      JoinAppend(chunks[..k], chunks[k]);
      assert chunks[..k] + [chunks[k]] == chunks[..k + 1];
      MoreBytes(Join(chunks[..k]), chunks[k], Decoded(frames, before), part);
      if part.FrameTooLarge? {
        Later(chunks, k + 1, part);
        return part, acc;
      }
      frames := frames + part.frames;
      k := k + 1;
    }
    assert chunks[..k] == chunks;
    d := Decoded(frames, Concat(acc.chunks));
  }

  /** An oversize header found in a prefix of the stream is an oversize header of the stream. */
  lemma Later(chunks: seq<bytes>, k: nat, d: Decoded)
    requires k <= |chunks| && d.FrameTooLarge? && Splits(Join(chunks[..k]), d)
    ensures Splits(Join(chunks), d)
  {
    JoinConcat(chunks[..k], chunks[k..]);
    assert chunks[..k] + chunks[k..] == chunks;
    MoreBytes(Join(chunks[..k]), Join(chunks[k..]), d, d);
  }

  /**
    Frames survive the wire: whatever the cutting of the sender's bytes, the only reading of the
    stream is the list of bodies that was sent, with nothing left over.
   */
  lemma RoundTrip(bodies: seq<bytes>, chunks: seq<bytes>, d: Decoded)
    requires Sendable(bodies) && Join(chunks) == Wire(bodies)
    requires Splits(Join(chunks), d)
    ensures d == Decoded(bodies, [])
  {
    assert Wire(bodies) == Wire(bodies) + [];
    ReadingIsUnique(Wire(bodies), d, Decoded(bodies, []));
  }
}
