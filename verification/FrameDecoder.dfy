/** The gateway's incremental frame decoder. */
module FrameDecoding {
  import opened WireProtocol

  class FrameDecoder {
    const maxPayloadSize: nat
    var buffer: Bytes
    /** Every byte ever pushed and every frame ever returned. */
    ghost var received: Bytes
    ghost var emitted: seq<Bytes>

    /** The frames handed out so far and the kept bytes are the parse of the whole stream. */
    ghost predicate Valid()
      reads this
    {
      var p := Parse(received, maxPayloadSize);
      p.frames == emitted && p.rest == buffer
    }

    constructor (maxPayloadSize: nat)
      ensures Valid() && this.maxPayloadSize == maxPayloadSize
      ensures received == [] && emitted == []
    {
      this.maxPayloadSize := maxPayloadSize;
      buffer := [];
      received, emitted := [], [];
    }

    method Push(chunk: Bytes) returns (frames: seq<Bytes>, tooLarge: bool)
      requires Valid()
      modifies this
      ensures Valid()
      ensures received == old(received) + chunk
      ensures emitted == old(emitted) + frames
      ensures tooLarge <==> Parse(received, maxPayloadSize).tooLarge
      ensures !tooLarge ==> |buffer| < FRAME_HEADER_SIZE + maxPayloadSize
    {
      buffer := if |buffer| == 0 then chunk else buffer + chunk;
      assert buffer == old(buffer) + chunk;
      ParseContinues(received, chunk, maxPayloadSize);
      frames, tooLarge := Drain();
      received, emitted := received + chunk, emitted + frames;
      ParseSound(received, maxPayloadSize);
    }

    /** The reassembly loop of push: moves every complete frame out of the buffer. */
    method Drain() returns (frames: seq<Bytes>, tooLarge: bool)
      modifies this`buffer
      ensures Parse(old(buffer), maxPayloadSize) == Parsed(frames, buffer, tooLarge)
    {
      ghost var found := Parse(buffer, maxPayloadSize);
      frames, tooLarge := [], false;
      while true
        invariant Prepend(frames, Parse(buffer, maxPayloadSize)) == found
        invariant !tooLarge
        decreases |buffer|
      {
        if |buffer| < FRAME_HEADER_SIZE { break; }
        var length := DeclaredLength(buffer);
        if length > maxPayloadSize { tooLarge := true; break; }
        if |buffer| < FRAME_HEADER_SIZE + length { break; }
        TakeFrame(frames, buffer, maxPayloadSize);
        frames := frames + [buffer[FRAME_HEADER_SIZE..FRAME_HEADER_SIZE + length]];
        buffer := buffer[FRAME_HEADER_SIZE + length..];
      }
      StuckParse(frames, buffer, maxPayloadSize);
    }
  }

  /** A whole stream pushed chunk by chunk: the frames are those of the functional parse,
      however it was cut up. */
  method DecodeStream(chunks: seq<Bytes>, max: nat) returns (frames: seq<Bytes>, tooLarge: bool)
    ensures frames == Parse(Concat(chunks), max).frames
    ensures tooLarge == Parse(Concat(chunks), max).tooLarge
  {
    var decoder := new FrameDecoder(max);
    frames, tooLarge := [], false;
    for i := 0 to |chunks|
      invariant decoder.Valid() && decoder.maxPayloadSize == max && fresh(decoder)
      invariant decoder.emitted == frames
      invariant decoder.received == Concat(chunks[..i])
      invariant tooLarge == Parse(decoder.received, max).tooLarge
    {
      ConcatSnoc(chunks, i);
      var more;
      more, tooLarge := decoder.Push(chunks[i]);
      frames := frames + more;
    }
    assert chunks[..|chunks|] == chunks;
  }

  lemma {:induction false} ConcatSnoc(chunks: seq<Bytes>, i: nat)
    requires i < |chunks|
    ensures Concat(chunks[..i + 1]) == Concat(chunks[..i]) + chunks[i]
  {
    if i == 0 {
      assert chunks[..1] == [chunks[0]] + [];
    } else {
      assert chunks[..i + 1][1..] == chunks[1..][..i];
      assert chunks[..i][1..] == chunks[1..][..i - 1];
      ConcatSnoc(chunks[1..], i - 1);
    }
  }
}
