/** The local microphone's framing: captured PCM bytes are buffered and cut
    into frames of 20 ms of 48 kHz 16-bit stereo audio, each handed on (to
    the Opus encoder and the RTP packetiser) as soon as it is complete. */
module Mic {

  const SAMPLING_RATE: nat := 48000
  const CHANNELS: nat := 2
  const BIT_DEPTH: nat := 16
  /** The frame duration in milliseconds. */
  const FRAME_DURATION: nat := 20
  const BYTES_PER_SAMPLE: nat := (BIT_DEPTH / 8) * CHANNELS
  const SAMPLES_PER_FRAME: nat := SAMPLING_RATE * FRAME_DURATION / 1000
  /** The bytes in a frame; `FrameSizeValue` shows it is
      `SAMPLES_PER_FRAME * BYTES_PER_SAMPLE`. */
  const FRAME_SIZE: nat := 3840

  /** The complete frames at the front of `s`, in byte order. */
  function Frames(s: seq<bv8>): seq<seq<bv8>>
    decreases |s|
  {
    if |s| < FRAME_SIZE then [] else [s[..FRAME_SIZE]] + Frames(s[FRAME_SIZE..])
  }

  /** What is left of `s` once its complete frames are cut off. */
  function Rest(s: seq<bv8>): seq<bv8>
    decreases |s|
  {
    if |s| < FRAME_SIZE then s else Rest(s[FRAME_SIZE..])
  }

  /** The frames laid end to end. */
  function Concat(frames: seq<seq<bv8>>): seq<bv8> {
    if frames == [] then [] else frames[0] + Concat(frames[1..])
  }

  class MicChunker {
    /** The bytes not yet framed. */
    var buffer: seq<bv8>
    /** The frames handed on so far, in order. */
    var frames: seq<seq<bv8>>
    /** Every byte captured so far. */
    ghost var captured: seq<bv8>

    ghost predicate Valid()
      reads this
    {
      && |buffer| < FRAME_SIZE
      && Concat(frames) + buffer == captured
      && forall i :: 0 <= i < |frames| ==> |frames[i]| == FRAME_SIZE
    }

    constructor()
      ensures Valid() && buffer == [] && frames == [] && captured == []
    {
      buffer := [];
      frames := [];
      captured := [];
    }

    /** One captured chunk: appended to the buffer, after which complete
        frames are cut from the front of the buffer for as long as there are any. */
    method OnData(chunk: seq<bv8>)
      requires Valid()
      modifies this
      ensures Valid()
      ensures captured == old(captured) + chunk
      ensures buffer == Rest(old(buffer) + chunk)
      ensures frames == old(frames) + Frames(old(buffer) + chunk)
    {
      buffer := buffer + chunk;
      captured := captured + chunk;
      ghost var start := buffer;
      ghost var done: seq<seq<bv8>> := [];
      while |buffer| >= FRAME_SIZE
        invariant frames == old(frames) + done
        invariant Frames(start) == done + Frames(buffer)
        invariant Rest(start) == Rest(buffer)
        invariant captured == old(captured) + chunk
        decreases |buffer|
      {
        var frame := buffer[..FRAME_SIZE];
        assert Frames(buffer) == [frame] + Frames(buffer[FRAME_SIZE..]);
        buffer := buffer[FRAME_SIZE..];
        frames := frames + [frame];
        done := done + [frame];
      }
      assert done == Frames(start);
      assert captured == Concat(old(frames)) + start;
      FramingAppends(old(frames), start);
    }
  }

  // ---------------------------------------------------------------------
  // Properties

  /** A frame is 960 samples of 4 bytes. */
  lemma FrameSizeValue()
    ensures SAMPLES_PER_FRAME == 960 && BYTES_PER_SAMPLE == 4 && FRAME_SIZE == SAMPLES_PER_FRAME * BYTES_PER_SAMPLE
  {
  }

  /** The frames, laid end to end, followed by the rest give back the input;
      the rest is shorter than a frame. */
  lemma {:induction false} FramesSplit(s: seq<bv8>)
    ensures Concat(Frames(s)) + Rest(s) == s
    ensures |Rest(s)| < FRAME_SIZE
    decreases |s|
  {
    if |s| >= FRAME_SIZE {
      var f, t := s[..FRAME_SIZE], s[FRAME_SIZE..];
      FramesSplit(t);
      assert Frames(s) == [f] + Frames(t);
      assert ([f] + Frames(t))[1..] == Frames(t);
      assert Concat(Frames(s)) == f + Concat(Frames(t));
      assert Rest(s) == Rest(t);
      assert f + t == s;
    }
  }

  /** Every frame is exactly FRAME_SIZE bytes, and there are as many as
      whole frames fit in the input. */
  lemma {:induction false} FramesAreWhole(s: seq<bv8>)
    ensures |Frames(s)| == |s| / FRAME_SIZE
    ensures forall i :: 0 <= i < |Frames(s)| ==> |Frames(s)[i]| == FRAME_SIZE
    decreases |s|
  {
    if |s| >= FRAME_SIZE {
      FramesAreWhole(s[FRAME_SIZE..]);
      assert |s[FRAME_SIZE..]| / FRAME_SIZE == |s| / FRAME_SIZE - 1;
    }
  }

  /** Framing `s` after earlier frames `prior` keeps every byte, in order. */
  lemma FramingAppends(prior: seq<seq<bv8>>, s: seq<bv8>)
    ensures Concat(prior + Frames(s)) + Rest(s) == Concat(prior) + s
    ensures |Rest(s)| < FRAME_SIZE
    ensures forall i :: 0 <= i < |Frames(s)| ==> |Frames(s)[i]| == FRAME_SIZE
  {
    FramesSplit(s);
    FramesAreWhole(s);
    ConcatAppend(prior, Frames(s));
  }

  lemma {:induction false} ConcatAppend(a: seq<seq<bv8>>, b: seq<seq<bv8>>)
    ensures Concat(a + b) == Concat(a) + Concat(b)
  {
    if a == [] {
      assert a + b == b;
    } else {
      ConcatAppend(a[1..], b);
      assert (a + b)[1..] == a[1..] + b;
    }
  }

  /** Feeding two chunks one after the other frames the bytes as feeding
      them at once would: the split between chunks leaves no trace. */
  lemma {:induction false} ChunkingIsSeamless(buffer: seq<bv8>, c1: seq<bv8>, c2: seq<bv8>)
    ensures Frames(buffer + c1) + Frames(Rest(buffer + c1) + c2) == Frames(buffer + c1 + c2)
    ensures Rest(Rest(buffer + c1) + c2) == Rest(buffer + c1 + c2)
    decreases |buffer + c1|
  {
    var s := buffer + c1;
    if |s| >= FRAME_SIZE {
      ChunkingIsSeamless(s[FRAME_SIZE..], [], c2);
      assert s[FRAME_SIZE..] + [] == s[FRAME_SIZE..];
      assert (s + c2)[..FRAME_SIZE] == s[..FRAME_SIZE];
      assert (s + c2)[FRAME_SIZE..] == s[FRAME_SIZE..] + c2;
      assert buffer + c1 + c2 == s + c2;
    } else {
      assert Frames(s) == [] && Rest(s) == s;
    }
  }
}
