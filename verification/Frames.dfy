/** The wire format: `Transport::encode_frame`, and how much of a frame its residue test pins down. */
module Frames {
  import opened Crc

  const PREAMBLE: byte := 0xaa
  const HEADER_SIZE: nat := 6
  const FRAME_OVERHEAD: nat := 8
  const MAX_SIZE: nat := 0xffff

  /** The most bytes one `recv` reads. */
  const CHUNK: nat := 2048

  datatype Frame = Frame(id: byte, payload: seq<byte>)

  // ----- sixteen-bit sizes -----

  function Value(b: byte): nat { b as int }

  function ToByte(n: nat): byte
    requires n < 256
  {
    n as byte
  }

  /** `read_u16`: two bytes, little-endian. */
  function ReadU16(lo: byte, hi: byte): nat { Value(lo) + 256 * Value(hi) }

  lemma ValueNext(b: byte)
    requires b != 0xff
    ensures Value(b + 1) == Value(b) + 1
  {
  }

  lemma ValueToByte(b: byte)
    ensures Value(b) < 256 && ToByte(Value(b)) == b
  {
  }

  lemma ValueBounds()
    ensures Value(0) == 0 && Value(0xff) == 0xff
  {
  }

  lemma {:induction false} ByteRoundTrip(n: nat)
    requires n < 256
    ensures Value(ToByte(n)) == n
  {
    hide Value, ToByte;
    ValueBounds();
    if n == 0 {
      ValueToByte(0);
    } else {
      ByteRoundTrip(n - 1);
      var b := ToByte(n - 1);
      ValueNext(b);
      ValueToByte(b + 1);
    }
  }

  lemma SizeRoundTrip(n: nat)
    requires n <= MAX_SIZE
    ensures ReadU16(ToByte(n % 256), ToByte(n / 256)) == n
  {
    hide Value, ToByte;
    ByteRoundTrip(n % 256);
    ByteRoundTrip(n / 256);
  }

  lemma ReadU16Bound(lo: byte, hi: byte)
    ensures ReadU16(lo, hi) <= MAX_SIZE
  {
    hide Value;
    ValueToByte(lo);
    ValueToByte(hi);
  }

  lemma SizeBytes(lo: byte, hi: byte)
    ensures var n := ReadU16(lo, hi); n <= MAX_SIZE && ToByte(n % 256) == lo && ToByte(n / 256) == hi
  {
    hide Value, ToByte;
    ValueToByte(lo);
    ValueToByte(hi);
    assert ReadU16(lo, hi) % 256 == Value(lo) && ReadU16(lo, hi) / 256 == Value(hi);
  }

  // ----- frames -----

  function LowByte(c: word): byte { (c & 0x00ff) as byte }

  function HighByte(c: word): byte { ((c >> 8) & 0x00ff) as byte }

  lemma PairOfBytes(c: word)
    ensures Pair(LowByte(c), HighByte(c)) == c
  {
  }

  /** Everything the checksum of a frame covers. */
  function Body(f: Frame): seq<byte>
    requires |f.payload| <= MAX_SIZE
  {
    [PREAMBLE, PREAMBLE, PREAMBLE, f.id, ToByte(|f.payload| % 256), ToByte(|f.payload| / 256)] + f.payload
  }

  function Encoding(f: Frame): seq<byte>
    requires |f.payload| <= MAX_SIZE
  {
    Body(f) + [LowByte(Of(Body(f))), HighByte(Of(Body(f)))]
  }

  /** The receiver's test of a complete frame. */
  predicate Sound(s: seq<byte>) { Of(s) == 0 }

  method EncodeFrame(id: byte, payload: seq<byte>) returns (frame: seq<byte>)
    ensures frame == if |payload| > MAX_SIZE then [] else Encoding(Frame(id, payload))
    ensures frame == [] <==> |payload| > 0xffff
  {
    hide Of, ToByte, LowByte, HighByte;
    if |payload| > MAX_SIZE {
      return [];
    }
    frame := [];
    frame := frame + [PREAMBLE, PREAMBLE, PREAMBLE];
    frame := frame + [id];
    var size := |payload|;
    frame := frame + [ToByte(size % 256)];
    frame := frame + [ToByte(size / 256)];
    frame := frame + payload;
    assert frame[..|frame|] == frame == Body(Frame(id, payload));
    var crc := Crc16(frame, |frame|);
    frame := frame + [LowByte(crc)];
    frame := frame + [HighByte(crc)];
  }

  lemma HighIsShifted(c: word)
    ensures c >> 8 <= 0xff && HighByte(c) == (c >> 8) as byte
  {
  }

  /** Where everything stands in an encoding: the preamble, the id, the size and the checksum lowest byte first. */
  lemma EncodingLayout(f: Frame)
    requires |f.payload| <= MAX_SIZE
    ensures var (e, n) := (Encoding(f), |f.payload|);
            && |e| == n + 8
            && e[0] == 0xaa && e[1] == 0xaa && e[2] == 0xaa && e[3] == f.id
            && Value(e[4]) + 0x100 * Value(e[5]) == n && e[6..6 + n] == f.payload
            && e[6 + n] == (Of(e[..6 + n]) & 0x00ff) as byte && e[7 + n] == (Of(e[..6 + n]) >> 8) as byte
  {
    SizeRoundTrip(|f.payload|);
    assert Encoding(f)[..6 + |f.payload|] == Body(f);
    HighIsShifted(Of(Body(f)));
    hide Of, Value, ToByte, HighByte;
  }

  /** The query of the system state, as the protocol has it on the wire. */
  lemma KnownFrame()
    ensures Encoding(Frame(0x40, [0, 0, 0])) == [0xaa, 0xaa, 0xaa, 0x40, 3, 0, 0, 0, 0, 0xf5, 0x70]
  {
    KnownVectors();
    hide Of;
    assert ToByte(3) == 3 && ToByte(0) == 0;
    assert Body(Frame(0x40, [0, 0, 0])) == [0xaa, 0xaa, 0xaa, 0x40, 0x03, 0x00, 0x00, 0x00, 0x00];
  }

  /** What the encoder writes passes the test. */
  lemma EncodingSound(f: Frame)
    requires |f.payload| <= MAX_SIZE
    ensures Sound(Encoding(f))
  {
    hide Of, Pair, LowByte, HighByte;
    var c := Of(Body(f));
    PairOfBytes(c);
    AcceptedTrailers(Body(f), LowByte(c), HighByte(c));
  }

  /** The trailers that pass the residue test after a body `m`: its checksum and three translates of it. */
  predicate AcceptedTrailer(m: seq<byte>, a: byte, b: byte) {
    Pair(a, b) in {Of(m), Xor(Of(m), 0xa189), Xor(Of(m), 0xc30a), Xor(Of(m), 0x6283)}
  }

  /** A preamble, an id, a size and as many bytes as the size announces, with two more for the trailer. */
  predicate Whole(s: seq<byte>) {
    && |s| >= FRAME_OVERHEAD
    && s[0] == PREAMBLE && s[1] == PREAMBLE && s[2] == PREAMBLE
    && ReadU16(s[4], s[5]) == |s| - FRAME_OVERHEAD
  }

  lemma TrailersOf(m: seq<byte>, a: byte, b: byte)
    ensures Of(m + [a, b]) == 0 <==> AcceptedTrailer(m, a, b)
  {
    hide Of, Pair, Xor;
    AcceptedTrailers(m, a, b);
  }

  /** Any bytes that make up a complete frame are the body the encoder writes for the frame read from them, and pass
      the test exactly if the two bytes behind it are one of the four trailers. */
  lemma SoundFrames(s: seq<byte>)
    requires Whole(s)
    ensures var f, n := Frame(s[3], s[HEADER_SIZE..|s| - 2]), |s|;
            && |f.payload| <= MAX_SIZE && s[..n - 2] == Body(f)
            && (Sound(s) <==> AcceptedTrailer(Body(f), s[n - 2], s[n - 1]))
  {
    hide Of, Pair, Xor, ReadU16, ToByte, AcceptedTrailer;
    ReadU16Bound(s[4], s[5]);
    SizeBytes(s[4], s[5]);
    var f, n := Frame(s[3], s[HEADER_SIZE..|s| - 2]), |s|;
    assert s[..n - 2] == Body(f);
    assert s == Body(f) + [s[n - 2], s[n - 1]];
    TrailersOf(Body(f), s[n - 2], s[n - 1]);
  }

  /** The most frames one `recv` can complete: a frame has eight bytes at least, and the buffer holds an incomplete
      frame and one chunk at most. */
  function FramesPerRecv(maxPayload: nat): nat { (FRAME_OVERHEAD + maxPayload + CHUNK) / FRAME_OVERHEAD }
}
