/** The receive path of the transport: `receive_available` and `parse_frames`, in place on the receive
    buffer, proved against the scanner of module `Stream`. */
module Receivers {
  import opened Crc
  import opened Frames
  import opened Stream

  predicate PreambleAt(s: seq<byte>, p: nat) {
    p + 3 <= |s| && s[p] == PREAMBLE && s[p + 1] == PREAMBLE && s[p + 2] == PREAMBLE
  }

  /** `p` is where `std::search` finds the first preamble in `s`, or the end of `s`. */
  predicate FirstPreamble(s: seq<byte>, p: nat) {
    && p <= |s|
    && (p < |s| ==> PreambleAt(s, p))
    && forall k :: 0 <= k < p ==> !PreambleAt(s, k)
  }

  method Search(s: seq<byte>) returns (p: nat)
    ensures FirstPreamble(s, p)
  {
    p := 0;
    while p < |s|
      invariant p <= |s|
      invariant forall k :: 0 <= k < p ==> !PreambleAt(s, k)
    {
      if p + 3 <= |s| && s[p] == PREAMBLE && s[p + 1] == PREAMBLE && s[p + 2] == PREAMBLE {
        return;
      }
      p := p + 1;
    }
  }

  /** How many preamble bytes, up to two, `s` ends with. */
  function Trailing(s: seq<byte>): nat {
    if |s| == 0 || s[|s| - 1] != PREAMBLE then 0
    else if |s| == 1 || s[|s| - 2] != PREAMBLE then 1
    else 2
  }

  method CountTrailing(s: seq<byte>) returns (keep: nat)
    ensures keep == Trailing(s) && keep <= |s| && keep <= 2
  {
    keep := 0;
    while keep < |s| && keep < 2 && s[|s| - 1 - keep] == PREAMBLE
      invariant keep <= |s| && keep <= 2
      invariant forall k :: |s| - keep <= k < |s| ==> s[k] == PREAMBLE
    {
      keep := keep + 1;
    }
  }

  // ----- what erasing bytes does to the reading of the buffer -----

  lemma {:induction false} SkipToPreamble(s: seq<byte>, p: nat, max: nat)
    requires PreambleAt(s, p)
    requires forall k :: 0 <= k < p ==> !PreambleAt(s, k)
    ensures Scan(s, max) == Scan(s[p..], max)
    decreases p
  {
    hide Scan, Sound;
    if p == 0 {
      assert s[0..] == s;
    } else {
      assert !PreambleAt(s, 0);
      assert !Opening(s);
      ScanSkip(s, max);
      var t := s[1..];
      forall k | 0 <= k < p - 1
        ensures !PreambleAt(t, k)
      {
        assert !PreambleAt(s, k + 1);
      }
      SkipToPreamble(t, p - 1, max);
      assert t[p - 1..] == s[p..];
    }
  }

  lemma {:induction false} NoPreamble(s: seq<byte>, max: nat)
    requires forall k :: 0 <= k < |s| ==> !PreambleAt(s, k)
    ensures Trailing(s) <= |s| && Scan(s, max) == Reading([], s[|s| - Trailing(s)..])
    decreases |s|
  {
    hide Scan, Sound;
    if |s| == Trailing(s) {
      assert s[|s| - Trailing(s)..] == s;
      ScanWait(s, max);
    } else {
      assert !PreambleAt(s, 0);
      assert !Opening(s);
      ScanSkip(s, max);
      var t := s[1..];
      forall k | 0 <= k < |t|
        ensures !PreambleAt(t, k)
      {
        assert !PreambleAt(s, k + 1);
      }
      NoPreamble(t, max);
      assert t[|t| - Trailing(t)..] == s[|s| - Trailing(s)..];
    }
  }

  lemma {:induction false} ShortHoldsNoFrame(s: seq<byte>, max: nat)
    requires |s| < FRAME_OVERHEAD
    ensures Scan(s, max).frames == []
    decreases |s|
  {
    hide Scan, Sound;
    match Head(s, max)
    case Wait => ScanWait(s, max);
    case Skip =>
      ScanSkip(s, max);
      ShortHoldsNoFrame(s[1..], max);
    case Deliver =>
      assert false;
  }

  /** The undecided bytes, scanned again, are still undecided. */
  lemma {:induction false} RestWaits(s: seq<byte>, max: nat)
    ensures Scan(Scan(s, max).rest, max) == Reading([], Scan(s, max).rest)
    decreases |s|
  {
    hide Scan, Head, FrameOf, ReadU16;
    match Head(s, max)
    case Wait => ScanWait(s, max);
    case Skip =>
      ScanSkip(s, max);
      RestWaits(s[1..], max);
    case Deliver =>
      ScanDeliver(s, max);
      RestWaits(s[FRAME_OVERHEAD + PayloadSize(s)..], max);
  }

  /** A frame takes eight bytes at least. */
  lemma {:induction false} ScanIsThrifty(s: seq<byte>, max: nat)
    ensures FRAME_OVERHEAD * |Scan(s, max).frames| <= |s|
    decreases |s|
  {
    hide Scan, Head, FrameOf, ReadU16;
    match Head(s, max)
    case Wait => ScanWait(s, max);
    case Skip =>
      ScanSkip(s, max);
      ScanIsThrifty(s[1..], max);
    case Deliver =>
      ScanDeliver(s, max);
      ScanIsThrifty(s[FRAME_OVERHEAD + PayloadSize(s)..], max);
  }

  lemma HeadOnPreamble(s: seq<byte>, max: nat)
    requires PreambleAt(s, 0)
    ensures Head(s, max) ==
            if |s| < FRAME_OVERHEAD then Wait
            else if PayloadSize(s) > max then Skip
            else if |s| < FRAME_OVERHEAD + PayloadSize(s) then Wait
            else if Sound(s[..FRAME_OVERHEAD + PayloadSize(s)]) then Deliver
            else Skip
  {
    hide Sound, ReadU16;
  }

  lemma ResidueTest(s: seq<byte>, n: nat, crc: word)
    requires n <= |s| && crc == Of(s[..n])
    ensures Sound(s[..n]) <==> crc == 0
  {
    hide Of;
  }

  class Receiver {
    const maxPayload: nat
    var buffer: seq<byte>
    /** What has been handed to `handle_frame`. */
    var frames: seq<Frame>
    /** Every byte received on this connection. */
    ghost var stream: seq<byte>
    /** The most bytes the buffer has held. */
    ghost var peak: nat

    /** What has been handed on is what the whole stream says, and the buffer stands for its undecided end. */
    ghost predicate Valid()
      reads this
    {
      && frames == Scan(stream, maxPayload).frames
      && Scan(buffer, maxPayload) == Reading([], Scan(stream, maxPayload).rest)
      && |buffer| < FRAME_OVERHEAD + maxPayload
      && peak < FRAME_OVERHEAD + maxPayload + CHUNK
    }

    constructor (maxPayload: nat)
      ensures this.maxPayload == maxPayload
      ensures Valid() && stream == []
    {
      this.maxPayload := maxPayload;
      buffer, frames, stream, peak := [], [], [], 0;
      new;
      ScanWait([], maxPayload);
    }

    /** `connect_socket` starts every connection with an empty buffer. */
    method Reset()
      requires peak < FRAME_OVERHEAD + maxPayload + CHUNK
      modifies this`buffer, this`frames, this`stream
      ensures Valid() && stream == []
    {
      buffer, frames, stream := [], [], [];
      ScanWait([], maxPayload);
    }

    /** `parse_frames`: hands on every frame the buffer decides, and keeps what it does not decide. */
    method ParseFrames()
      modifies this`buffer, this`frames
      ensures frames == old(frames) + Scan(old(buffer), maxPayload).frames
      ensures Scan(buffer, maxPayload) == Reading([], Scan(old(buffer), maxPayload).rest)
      ensures |buffer| < FRAME_OVERHEAD || Head(buffer, maxPayload) == Wait
      ensures |buffer| < FRAME_OVERHEAD + maxPayload
    {
      hide Scan, Sound, ReadU16, Of, Head, Trailing;
      while |buffer| >= FRAME_OVERHEAD
        invariant frames + Scan(buffer, maxPayload).frames == old(frames) + Scan(old(buffer), maxPayload).frames
        invariant Scan(buffer, maxPayload).rest == Scan(old(buffer), maxPayload).rest
        decreases |buffer|
      {
        var preamble := Search(buffer);
        if preamble == |buffer| {
          var keep := CountTrailing(buffer);
          NoPreamble(buffer, maxPayload);
          RestWaits(buffer, maxPayload);
          buffer := buffer[|buffer| - keep..];
          return;
        }
        if preamble != 0 {
          SkipToPreamble(buffer, preamble, maxPayload);
          buffer := buffer[preamble..];
        }
        assert PreambleAt(buffer, 0);
        HeadOnPreamble(buffer, maxPayload);
        if |buffer| < FRAME_OVERHEAD {
          ScanWait(buffer, maxPayload);
          return;
        }
        var payloadSize := ReadU16(buffer[4], buffer[5]);
        if payloadSize > maxPayload {
          ScanSkip(buffer, maxPayload);
          buffer := buffer[1..];
          continue;
        }
        var frameSize := FRAME_OVERHEAD + payloadSize;
        if |buffer| < frameSize {
          ScanWait(buffer, maxPayload);
          return;
        }
        var crc := Crc16(buffer, frameSize);
        ResidueTest(buffer, frameSize, crc);
        if crc != 0 {
          ScanSkip(buffer, maxPayload);
          buffer := buffer[1..];
          continue;
        }
        ScanDeliver(buffer, maxPayload);
        var id := buffer[3];
        var payload := buffer[HEADER_SIZE..HEADER_SIZE + payloadSize];
        buffer := buffer[frameSize..];
        frames := frames + [Frame(id, payload)];
      }
      ShortHoldsNoFrame(buffer, maxPayload);
    }

    /** One `recv` of the loop in `receive_available`: append, then parse. */
    method Receive(chunk: seq<byte>)
      requires Valid() && |chunk| <= CHUNK
      modifies this
      ensures Valid() && stream == old(stream) + chunk
      ensures frames == old(frames) + Scan(old(buffer) + chunk, maxPayload).frames
      ensures peak >= old(peak) && peak >= |old(buffer)| + |chunk|
      ensures |frames| <= |old(frames)| + FramesPerRecv(maxPayload)
    {
      hide Scan;
      ScanResumes(stream, chunk, maxPayload);
      ScanResumes(buffer, chunk, maxPayload);
      var empty: seq<Frame> := [];
      assert forall fs: seq<Frame> :: empty + fs == fs;
      buffer := buffer + chunk;
      ScanIsThrifty(buffer, maxPayload);
      peak := if |buffer| > peak then |buffer| else peak;
      ParseFrames();
      stream := stream + chunk;
    }

    /** `receive_available` while data keeps arriving: one pass per `recv`. */
    method ReceiveAvailable(chunks: seq<seq<byte>>)
      requires Valid()
      requires forall k :: 0 <= k < |chunks| ==> |chunks[k]| <= CHUNK
      modifies this
      ensures Valid() && stream == old(stream) + Concat(chunks)
      ensures frames == Scan(old(stream) + Concat(chunks), maxPayload).frames
    {
      hide Scan;
      var i := 0;
      while i < |chunks|
        invariant 0 <= i <= |chunks|
        invariant Valid() && stream + Concat(chunks[i..]) == old(stream) + Concat(chunks)
      {
        assert chunks[i..][1..] == chunks[i + 1..];
        Receive(chunks[i]);
        i := i + 1;
      }
      assert stream + [] == stream;
    }
  }
}
