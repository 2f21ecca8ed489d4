/** What a byte stream means to the receiver, independently of how it arrives: a scanner that looks at one
    position after another. */
module Stream {
  import opened Crc
  import opened Frames

  /** What the first position of `s` is: a frame to deliver, a position to give up, or undecided. */
  datatype Verdict = Wait | Skip | Deliver

  /** The bytes at hand do not contradict a preamble. */
  predicate Opening(s: seq<byte>) {
    && (|s| > 0 ==> s[0] == PREAMBLE)
    && (|s| > 1 ==> s[1] == PREAMBLE)
    && (|s| > 2 ==> s[2] == PREAMBLE)
  }

  function PayloadSize(s: seq<byte>): nat
    requires |s| >= HEADER_SIZE
  {
    ReadU16(s[4], s[5])
  }

  function Head(s: seq<byte>, max: nat): Verdict {
    if !Opening(s) then Skip
    else if |s| < FRAME_OVERHEAD then Wait
    else if PayloadSize(s) > max then Skip
    else if |s| < FRAME_OVERHEAD + PayloadSize(s) then Wait
    else if Sound(s[..FRAME_OVERHEAD + PayloadSize(s)]) then Deliver
    else Skip
  }

  function FrameOf(s: seq<byte>): Frame
    requires |s| >= FRAME_OVERHEAD && |s| >= FRAME_OVERHEAD + PayloadSize(s)
  {
    Frame(s[3], s[HEADER_SIZE..HEADER_SIZE + PayloadSize(s)])
  }

  /** The frames in a stream, and the undecided bytes at its end. */
  datatype Reading = Reading(frames: seq<Frame>, rest: seq<byte>)

  function Scan(s: seq<byte>, max: nat): (r: Reading)
    ensures |r.rest| <= |s|
    decreases |s|
  {
    match Head(s, max)
    case Wait => Reading([], s)
    case Skip => Scan(s[1..], max)
    case Deliver =>
      var r := Scan(s[FRAME_OVERHEAD + PayloadSize(s)..], max);
      Reading([FrameOf(s)] + r.frames, r.rest)
  }

  // ----- scanning may stop and resume -----

  lemma HeadIsFinal(s: seq<byte>, t: seq<byte>, max: nat)
    requires Head(s, max) != Wait
    ensures Head(s + t, max) == Head(s, max)
    ensures Head(s, max) == Deliver ==>
              PayloadSize(s + t) == PayloadSize(s) && FrameOf(s + t) == FrameOf(s)
  {
    hide Sound, ReadU16;
    if Opening(s) {
      var n := FRAME_OVERHEAD + PayloadSize(s);
      if n <= |s| {
        assert (s + t)[..n] == s[..n];
      }
    }
  }

  lemma ScanWait(s: seq<byte>, max: nat)
    requires Head(s, max) == Wait
    ensures Scan(s, max) == Reading([], s)
  {
    hide Head;
  }

  lemma SkipNeedsBytes(s: seq<byte>, max: nat)
    requires Head(s, max) == Skip
    ensures s != []
  {
    hide Sound, ReadU16;
  }

  lemma ScanSkip(s: seq<byte>, max: nat)
    requires Head(s, max) == Skip
    ensures s != [] && Scan(s, max) == Scan(s[1..], max)
  {
    SkipNeedsBytes(s, max);
    hide Head, FrameOf;
  }

  lemma DeliverNeedsBytes(s: seq<byte>, max: nat)
    requires Head(s, max) == Deliver
    ensures |s| >= FRAME_OVERHEAD && |s| >= FRAME_OVERHEAD + PayloadSize(s)
  {
    hide Sound, ReadU16;
  }

  lemma ScanDeliver(s: seq<byte>, max: nat)
    requires Head(s, max) == Deliver
    ensures |s| >= FRAME_OVERHEAD && |s| >= FRAME_OVERHEAD + PayloadSize(s)
    ensures var r := Scan(s[FRAME_OVERHEAD + PayloadSize(s)..], max);
            Scan(s, max) == Reading([FrameOf(s)] + r.frames, r.rest)
  {
    DeliverNeedsBytes(s, max);
    hide Head, FrameOf, ReadU16;
  }

  lemma {:induction false} ScanResumes(s: seq<byte>, t: seq<byte>, max: nat)
    ensures var r := Scan(s, max);
            var r' := Scan(r.rest + t, max);
            Scan(s + t, max) == Reading(r.frames + r'.frames, r'.rest)
    decreases |s|
  {
    hide Head, FrameOf, ReadU16, Scan;
    match Head(s, max)
    case Wait =>
      ScanWait(s, max);
      var r' := Scan(s + t, max);
      assert [] + r'.frames == r'.frames;
    case Skip =>
      ScanSkip(s, max);
      HeadIsFinal(s, t, max);
      ScanSkip(s + t, max);
      assert (s + t)[1..] == s[1..] + t;
      ScanResumes(s[1..], t, max);
    case Deliver =>
      ScanDeliver(s, max);
      HeadIsFinal(s, t, max);
      ScanDeliver(s + t, max);
      var n := FRAME_OVERHEAD + PayloadSize(s);
      assert (s + t)[n..] == s[n..] + t;
      ScanResumes(s[n..], t, max);
      var r := Scan(s[n..], max);
      var r' := Scan(r.rest + t, max);
      assert [FrameOf(s)] + (r.frames + r'.frames) == ([FrameOf(s)] + r.frames) + r'.frames;
  }

  function Concat(chunks: seq<seq<byte>>): seq<byte>
    decreases |chunks|
  {
    if chunks == [] then [] else chunks[0] + Concat(chunks[1..])
  }

  /** Scanning chunk by chunk, carrying the undecided bytes over. */
  function ScanChunks(carry: seq<byte>, chunks: seq<seq<byte>>, max: nat): Reading
    decreases |chunks|
  {
    if chunks == [] then Scan(carry, max)
    else
      var r := Scan(carry + chunks[0], max);
      var r' := ScanChunks(r.rest, chunks[1..], max);
      Reading(r.frames + r'.frames, r'.rest)
  }

  /** However a stream is cut into chunks, the frames are those of the whole stream. */
  lemma {:induction false} FragmentationIndependence(carry: seq<byte>, chunks: seq<seq<byte>>, max: nat)
    ensures ScanChunks(carry, chunks, max) == Scan(carry + Concat(chunks), max)
    decreases |chunks|
  {
    hide Head, FrameOf;
    if chunks == [] {
      assert carry + Concat(chunks) == carry;
    } else {
      var r := Scan(carry + chunks[0], max);
      FragmentationIndependence(r.rest, chunks[1..], max);
      ScanResumes(carry + chunks[0], Concat(chunks[1..]), max);
      assert carry + Concat(chunks) == (carry + chunks[0]) + Concat(chunks[1..]);
    }
  }

  // ----- which positions deliver -----

  function EndAt(w: seq<byte>, p: nat): nat
    requires p + FRAME_OVERHEAD <= |w|
  {
    p + FRAME_OVERHEAD + ReadU16(w[p + 4], w[p + 5])
  }

  /** The positions at which a scan of `w` that has reached `i` delivers frames. */
  function Starts(w: seq<byte>, i: nat, max: nat): seq<nat>
    requires i <= |w|
    decreases |w| - i
  {
    match Head(w[i..], max)
    case Wait => []
    case Skip => Starts(w, i + 1, max)
    case Deliver => [i] + Starts(w, EndAt(w, i), max)
  }

  /** A complete, sound frame of admissible size stands at position `p`. */
  predicate FrameAt(w: seq<byte>, p: nat, max: nat) {
    p <= |w| && Head(w[p..], max) == Deliver
  }

  /** Where the undecided end of the stream begins. */
  function Stop(w: seq<byte>, i: nat, max: nat): nat
    requires i <= |w|
  {
    |w| - |Scan(w[i..], max).rest|
  }

  lemma StartsStep(w: seq<byte>, i: nat, max: nat)
    requires i <= |w|
    ensures Head(w[i..], max) == Wait ==> Starts(w, i, max) == [] && Stop(w, i, max) == i
    ensures Head(w[i..], max) == Skip ==>
              i < |w| && Starts(w, i, max) == Starts(w, i + 1, max) && Stop(w, i, max) == Stop(w, i + 1, max)
    ensures Head(w[i..], max) == Deliver ==>
              && i + FRAME_OVERHEAD <= |w| && i < EndAt(w, i) <= |w|
              && Starts(w, i, max) == [i] + Starts(w, EndAt(w, i), max)
              && Stop(w, i, max) == Stop(w, EndAt(w, i), max)
  {
    hide Head, FrameOf, ReadU16, Scan;
    var s := w[i..];
    match Head(s, max)
    case Wait =>
      ScanWait(s, max);
    case Skip =>
      ScanSkip(s, max);
      assert s[1..] == w[i + 1..];
    case Deliver =>
      ScanDeliver(s, max);
      assert s[FRAME_OVERHEAD + PayloadSize(s)..] == w[EndAt(w, i)..];
  }

  lemma {:induction false} StartsAhead(w: seq<byte>, i: nat, max: nat)
    requires i <= |w|
    ensures forall p :: p in Starts(w, i, max) ==> i <= p
    ensures i <= Stop(w, i, max) <= |w|
    decreases |w| - i
  {
    hide Head, FrameOf, ReadU16, Scan, Starts;
    StartsStep(w, i, max);
    match Head(w[i..], max)
    case Wait =>
    case Skip => StartsAhead(w, i + 1, max);
    case Deliver => StartsAhead(w, EndAt(w, i), max);
  }

  /** The exact set of delivered positions: a sound frame is delivered unless an earlier delivered frame
      covers its first byte, or the stream is still undecided before it. */
  lemma {:induction false} DeliveredExactly(w: seq<byte>, i: nat, p: nat, max: nat)
    requires i <= p <= |w|
    ensures i <= Stop(w, i, max) <= |w|
    ensures p in Starts(w, i, max) <==>
            && FrameAt(w, p, max)
            && p < Stop(w, i, max)
            && forall q :: q in Starts(w, i, max) && q < p && q + FRAME_OVERHEAD <= |w| ==> EndAt(w, q) <= p
    decreases |w| - i
  {
    hide Head, FrameOf, ReadU16, Scan, Starts;
    StartsStep(w, i, max);
    match Head(w[i..], max)
    case Wait =>
    case Skip =>
      StartsAhead(w, i + 1, max);
      if p > i {
        DeliveredExactly(w, i + 1, p, max);
      }
    case Deliver =>
      StartsAhead(w, EndAt(w, i), max);
      assert i in Starts(w, i, max);
      if p >= EndAt(w, i) {
        DeliveredExactly(w, EndAt(w, i), p, max);
      }
  }

  /** The undecided end of a stream is shorter than the longest admissible frame. */
  lemma {:induction false} UndecidedIsShort(w: seq<byte>, i: nat, max: nat)
    requires i <= |w|
    ensures |w| < Stop(w, i, max) + FRAME_OVERHEAD + max
    decreases |w| - i
  {
    hide FrameOf, ReadU16, Scan, Starts, Sound;
    StartsStep(w, i, max);
    match Head(w[i..], max)
    case Wait =>
    case Skip => UndecidedIsShort(w, i + 1, max);
    case Deliver => UndecidedIsShort(w, EndAt(w, i), max);
  }

  /** Resynchronisation within one frame length: once a stream extends a frame length past the start of a
      sound frame, the frame has been delivered or an accepted frame that began earlier runs over its start. */
  lemma BoundedResynchronisation(w: seq<byte>, p: nat, max: nat)
    requires FrameAt(w, p, max)
    requires |w| >= p + FRAME_OVERHEAD + max
    ensures p in Starts(w, 0, max) ||
            exists q :: q in Starts(w, 0, max) && q < p && q + FRAME_OVERHEAD <= |w| && p < EndAt(w, q)
  {
    hide Head, FrameOf, ReadU16, Scan, Starts;
    UndecidedIsShort(w, 0, max);
    DeliveredExactly(w, 0, p, max);
  }

  predicate StandsAt(w: seq<byte>, p: nat, f: Frame) {
    && p + FRAME_OVERHEAD <= |w| && EndAt(w, p) <= |w|
    && f == Frame(w[p + 3], w[p + HEADER_SIZE..EndAt(w, p) - 2])
  }

  /** `fs` are the frames that stand in `w` at the positions `ps`. */
  predicate Stand(w: seq<byte>, ps: seq<nat>, fs: seq<Frame>) {
    && |ps| == |fs|
    && forall k :: 0 <= k < |ps| ==> StandsAt(w, ps[k], fs[k])
  }

  lemma StandCons(w: seq<byte>, p: nat, f: Frame, ps: seq<nat>, fs: seq<Frame>)
    requires StandsAt(w, p, f) && Stand(w, ps, fs)
    ensures Stand(w, [p] + ps, [f] + fs)
  {
    hide StandsAt;
    forall k | 0 <= k < |ps| + 1
      ensures StandsAt(w, ([p] + ps)[k], ([f] + fs)[k])
    {
      if k > 0 {
        assert ([f] + fs)[k] == fs[k - 1] && ([p] + ps)[k] == ps[k - 1];
      }
    }
  }

  lemma DeliveredStands(w: seq<byte>, i: nat, max: nat)
    requires FrameAt(w, i, max)
    ensures var s := w[i..];
            && |s| >= FRAME_OVERHEAD && |s| >= FRAME_OVERHEAD + PayloadSize(s)
            && StandsAt(w, i, FrameOf(s))
  {
    hide Head, ReadU16;
    DeliverNeedsBytes(w[i..], max);
    assert FrameOf(w[i..]).payload == w[i + HEADER_SIZE..EndAt(w, i) - 2];
  }

  lemma StandNil(w: seq<byte>)
    ensures Stand(w, [], [])
  {
  }

  /** The delivered frames are the ones that stand at the delivered positions, in the same order. */
  lemma {:induction false} FramesAtStarts(w: seq<byte>, i: nat, max: nat)
    requires i <= |w|
    ensures Stand(w, Starts(w, i, max), Scan(w[i..], max).frames)
    decreases |w| - i
  {
    hide Head, ReadU16, Scan, Starts, Stand, StandsAt, FrameOf;
    StartsStep(w, i, max);
    var s := w[i..];
    match Head(s, max)
    case Wait =>
      ScanWait(s, max);
      StandNil(w);
    case Skip =>
      ScanSkip(s, max);
      assert s[1..] == w[i + 1..];
      FramesAtStarts(w, i + 1, max);
    case Deliver =>
      ScanDeliver(s, max);
      var e := EndAt(w, i);
      assert s[FRAME_OVERHEAD + PayloadSize(s)..] == w[e..];
      FramesAtStarts(w, e, max);
      DeliveredStands(w, i, max);
      StandCons(w, i, FrameOf(s), Starts(w, e, max), Scan(w[e..], max).frames);
  }

  // ----- round trip -----

  /** Bytes that the receiver passes over when a frame follows them: no preamble inside, and no preamble byte
      at the end that could run together with the frame's own preamble. */
  predicate Clean(junk: seq<byte>) {
    && (forall k :: 0 <= k && k + 3 <= |junk| ==>
          !(junk[k] == PREAMBLE && junk[k + 1] == PREAMBLE && junk[k + 2] == PREAMBLE))
    && (|junk| > 0 ==> junk[|junk| - 1] != PREAMBLE)
  }

  lemma {:induction false} JunkIsSkipped(junk: seq<byte>, t: seq<byte>, max: nat)
    requires Clean(junk)
    ensures Scan(junk + t, max) == Scan(t, max)
    decreases |junk|
  {
    hide Scan, Sound;
    if junk == [] {
      assert junk + t == t;
    } else {
      var s := junk + t;
      assert !Opening(s) by {
        var n := |junk|;
        assert s[n - 1] == junk[n - 1];
        if n >= 3 {
          assert s[0] == junk[0] && s[1] == junk[1] && s[2] == junk[2];
        }
      }
      ScanSkip(s, max);
      assert s[1..] == junk[1..] + t;
      JunkIsSkipped(junk[1..], t, max);
    }
  }

  lemma EncodingIsDelivered(f: Frame, t: seq<byte>, max: nat)
    requires |f.payload| <= MAX_SIZE && |f.payload| <= max
    ensures var s := Encoding(f) + t;
            && Head(s, max) == Deliver
            && PayloadSize(s) == |f.payload|
            && FrameOf(s) == f
            && s[FRAME_OVERHEAD + PayloadSize(s)..] == t
  {
    hide Sound, ReadU16, ToByte, Of, LowByte, HighByte;
    var s, n := Encoding(f) + t, |f.payload|;
    SizeRoundTrip(n);
    assert s[4] == ToByte(n % 256) && s[5] == ToByte(n / 256);
    EncodingSound(f);
    assert s[..FRAME_OVERHEAD + n] == Encoding(f);
    assert s[HEADER_SIZE..HEADER_SIZE + n] == f.payload;
  }

  datatype Item = Item(junk: seq<byte>, frame: Frame)

  predicate Sendable(item: Item, max: nat) {
    && Clean(item.junk)
    && |item.frame.payload| <= MAX_SIZE
    && |item.frame.payload| <= max
  }

  function Wire(items: seq<Item>, max: nat): seq<byte>
    requires forall k :: 0 <= k < |items| ==> Sendable(items[k], max)
    decreases |items|
  {
    if items == [] then [] else assert Sendable(items[0],
                                                max); items[0].junk + Encoding(items[0].frame) + Wire(items[1..], max)
  }

  function FramesIn(items: seq<Item>): seq<Frame>
    decreases |items|
  {
    if items == [] then [] else [items[0].frame] + FramesIn(items[1..])
  }

  lemma EmptyWaits(max: nat)
    ensures Head([], max) == Wait
  {
  }

  /** Encoded frames, each behind any amount of clean junk, are read back in order and completely. */
  lemma {:induction false} RoundTrip(items: seq<Item>, max: nat)
    requires forall k :: 0 <= k < |items| ==> Sendable(items[k], max)
    ensures Scan(Wire(items, max), max) == Reading(FramesIn(items), [])
    decreases |items|
  {
    hide Head, Encoding, Clean, FrameOf, ReadU16, Scan;
    if items == [] {
      EmptyWaits(max);
      ScanWait([], max);
    } else {
      var junk, f, t := items[0].junk, items[0].frame, Wire(items[1..], max);
      RoundTrip(items[1..], max);
      EncodingIsDelivered(f, t, max);
      ScanDeliver(Encoding(f) + t, max);
      JunkIsSkipped(junk, Encoding(f) + t, max);
      assert Wire(items, max) == junk + (Encoding(f) + t);
    }
  }

  /** The same under every way of cutting the wire into chunks. */
  lemma RoundTripInChunks(items: seq<Item>, chunks: seq<seq<byte>>, max: nat)
    requires forall k :: 0 <= k < |items| ==> Sendable(items[k], max)
    requires Concat(chunks) == Wire(items, max)
    ensures ScanChunks([], chunks, max) == Reading(FramesIn(items), [])
  {
    hide Scan, ScanChunks, Wire, Sendable;
    FragmentationIndependence([], chunks, max);
    assert [] + Concat(chunks) == Concat(chunks);
    RoundTrip(items, max);
  }

  lemma Slice(w: seq<byte>, p: nat, e: nat, i: nat, j: nat)
    requires p <= e <= |w| && i <= j <= e - p
    ensures w[p..e][i..j] == w[p + i..p + j]
  {
    var part, whole := w[p..e][i..j], w[p + i..p + j];
    assert |part| == |whole|;
    forall k | 0 <= k < |part|
      ensures part[k] == whole[k]
    {
      assert part[k] == w[p..e][i + k] == w[p + i + k];
    }
  }

  lemma Slices(w: seq<byte>, p: nat, e: nat)
    requires p + FRAME_OVERHEAD <= e <= |w|
    ensures var s := w[p..e];
            && s[HEADER_SIZE..|s| - 2] == w[p + HEADER_SIZE..e - 2] && s[..|s| - 2] == w[p..e - 2]
            && s[|s| - 2] == w[e - 2] && s[|s| - 1] == w[e - 1] && s[3] == w[p + 3]
  {
    Slice(w, p, e, HEADER_SIZE, e - p - 2);
    Slice(w, p, e, 0, e - p - 2);
    assert w[p..e][..e - p - 2] == w[p..e][0..e - p - 2];
  }

  /** A delivered frame is, byte for byte, what the encoder writes for it, except that the trailer may be any
      of the four that pass the residue test. */
  lemma DeliveredBytes(w: seq<byte>, p: nat, f: Frame, max: nat)
    requires FrameAt(w, p, max) && StandsAt(w, p, f)
    ensures |f.payload| <= MAX_SIZE && |f.payload| <= max
    ensures w[p..EndAt(w, p) - 2] == Body(f)
    ensures AcceptedTrailer(Body(f), w[EndAt(w, p) - 2], w[EndAt(w, p) - 1])
  {
    hide Sound, ReadU16, Body, AcceptedTrailer;
    DeliverNeedsBytes(w[p..], max);
    var e := EndAt(w, p);
    var s := w[p..e];
    assert s == w[p..][..FRAME_OVERHEAD + PayloadSize(w[p..])];
    SoundFrames(s);
    Slices(w, p, e);
  }

  // ----- frames that are not delivered -----

  /** A sound frame that no sound frame overlaps from before is delivered exactly if the stream is decided past its
      start, which it is once it extends by the longest frame. */
  lemma UncoveredIsDelivered(w: seq<byte>, p: nat, max: nat)
    requires FrameAt(w, p, max)
    requires forall q :: 0 <= q < p && q + FRAME_OVERHEAD <= |w| && FrameAt(w, q, max) ==> EndAt(w, q) <= p
    ensures p in Starts(w, 0, max) <==> p < Stop(w, 0, max)
    ensures |w| >= p + FRAME_OVERHEAD + max ==> p in Starts(w, 0, max)
  {
    assert p <= |w|;
    hide Head, FrameOf, ReadU16, Scan, Starts, FrameAt;
    DeliveredExactly(w, 0, p, max);
    UndecidedIsShort(w, 0, max);
    forall q | q in Starts(w, 0, max) && q < p && q + FRAME_OVERHEAD <= |w|
      ensures EndAt(w, q) <= p
    {
      DeliveredExactly(w, 0, q, max);
    }
  }

  lemma EncodingLength(f: Frame)
    requires |f.payload| <= MAX_SIZE
    ensures |Encoding(f)| == FRAME_OVERHEAD + |f.payload|
  {
    hide Of, LowByte, HighByte, ToByte;
  }

  lemma PayloadOf(f: Frame)
    requires |f.payload| <= MAX_SIZE
    ensures |Encoding(f)| == FRAME_OVERHEAD + |f.payload| &&
            Encoding(f)[HEADER_SIZE..HEADER_SIZE + |f.payload|] == f.payload
  {
    hide Of, LowByte, HighByte, ToByte;
    EncodingLength(f);
  }

  lemma OuterDelivered(f: Frame, max: nat)
    requires |f.payload| <= max && |f.payload| <= MAX_SIZE
    ensures Scan(Encoding(f), max).frames == [f]
    ensures forall p :: p in Starts(Encoding(f), 0, max) ==> p == 0
  {
    hide Encoding, Scan, Head, ReadU16, FrameOf;
    var w := Encoding(f);
    assert w + [] == w;
    EncodingIsDelivered(f, [], max);
    EmptyWaits(max);
    ScanWait([], max);
    ScanDeliver(w, max);
    assert w[0..] == w;
    StartsStep(w, 0, max);
    assert w[|w|..] == [];
    StartsStep(w, |w|, max);
    EncodingLength(f);
  }

  /** A sound frame may be lost: in the encoding of a frame whose payload is itself an encoding, the inner frame is
      sound and stands behind six bytes of header, but only the outer one is delivered. */
  lemma CoveredFrame(id: byte, f: Frame, max: nat)
    requires |f.payload| + FRAME_OVERHEAD <= max && |f.payload| + FRAME_OVERHEAD <= MAX_SIZE
    ensures |Encoding(f)| <= MAX_SIZE
    ensures var w := Encoding(Frame(id, Encoding(f)));
            && FrameAt(w, HEADER_SIZE, max) && StandsAt(w, HEADER_SIZE, f)
            && Scan(w, max).frames == [Frame(id, Encoding(f))] && HEADER_SIZE !in Starts(w, 0, max)
  {
    hide Encoding, Scan, Head, ReadU16, Starts;
    EncodingLength(f);
    var outer := Frame(id, Encoding(f));
    var w := Encoding(outer);
    OuterDelivered(outer, max);
    PayloadOf(outer);
    var t := w[HEADER_SIZE + |Encoding(f)|..];
    assert w[HEADER_SIZE..] == Encoding(f) + t;
    EncodingIsDelivered(f, t, max);
    DeliveredStands(w, HEADER_SIZE, max);
  }
}
