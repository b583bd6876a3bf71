/** Length-prefixed framing: [4-byte big-endian length][payload].
    The functional stream parser here is the common specification of the gateway's
    FrameDecoder and of the C++ server's recv_frame loop. */
module WireProtocol {
  newtype byte = x: int | 0 <= x < 0x100
  type Bytes = seq<byte>

  const FRAME_HEADER_SIZE: nat := 4
  const MAX_LENGTH: nat := 0xFFFF_FFFF

  /** The `width` low base-256 digits of n, most significant first. */
  function BigEndian(n: nat, width: nat): (h: Bytes)
    ensures |h| == width
  {
    if width == 0 then [] else BigEndian(n / 0x100, width - 1) + [(n % 0x100) as byte]
  }

  function BigEndianValue(h: Bytes): nat {
    if h == [] then 0 else BigEndianValue(h[..|h| - 1]) * 0x100 + h[|h| - 1] as nat
  }

  function Capacity(width: nat): nat {
    if width == 0 then 1 else Capacity(width - 1) * 0x100
  }

  lemma {:induction false} BigEndianRoundTrip(n: nat, width: nat)
    requires n < Capacity(width)
    ensures BigEndianValue(BigEndian(n, width)) == n
  {
    if width > 0 {
      BigEndianRoundTrip(n / 0x100, width - 1);
      var h := BigEndian(n, width);
      assert h[..|h| - 1] == BigEndian(n / 0x100, width - 1);
    }
  }

  lemma {:induction false} BigEndianUnique(h: Bytes)
    ensures BigEndianValue(h) < Capacity(|h|)
    ensures BigEndian(BigEndianValue(h), |h|) == h
  {
    if h != [] {
      BigEndianUnique(h[..|h| - 1]);
      assert h == h[..|h| - 1] + [h[|h| - 1]];
    }
  }

  /** The header htonl and writeUInt32BE produce. */
  function Header(n: nat): (h: Bytes)
    requires n <= MAX_LENGTH
    ensures |h| == FRAME_HEADER_SIZE
  {
    BigEndian(n, FRAME_HEADER_SIZE)
  }

  /** The length a stream's first header declares, as ntohl and readUInt32BE read it. */
  function DeclaredLength(b: Bytes): (n: nat)
    requires |b| >= FRAME_HEADER_SIZE
    ensures n <= MAX_LENGTH && Header(n) == b[..FRAME_HEADER_SIZE]
  {
    BigEndianUnique(b[..FRAME_HEADER_SIZE]);
    CapacityOfHeader();
    BigEndianValue(b[..FRAME_HEADER_SIZE])
  }

  lemma CapacityOfHeader()
    ensures Capacity(FRAME_HEADER_SIZE) == MAX_LENGTH + 1
  {
    assert Capacity(1) == 0x100;
    assert Capacity(2) == 0x1_0000;
    assert Capacity(3) == 0x100_0000;
  }

  lemma HeaderRoundTrip(n: nat, more: Bytes)
    requires n <= MAX_LENGTH
    ensures DeclaredLength(Header(n) + more) == n
  {
    CapacityOfHeader();
    BigEndianRoundTrip(n, FRAME_HEADER_SIZE);
    assert (Header(n) + more)[..FRAME_HEADER_SIZE] == Header(n);
  }

  predicate Fits(p: Bytes, max: nat) {
    |p| <= max && |p| <= MAX_LENGTH
  }

  predicate AllFit(ps: seq<Bytes>, max: nat) {
    forall i :: 0 <= i < |ps| ==> Fits(ps[i], max)
  }

  function EncodeFrame(p: Bytes): (f: Bytes)
    requires |p| <= MAX_LENGTH
    ensures |f| == FRAME_HEADER_SIZE + |p|
  {
    Header(|p|) + p
  }

  function EncodeAll(ps: seq<Bytes>): Bytes
    requires AllFit(ps, MAX_LENGTH)
  {
    if ps == [] then [] else EncodeFrame(ps[0]) + EncodeAll(ps[1..])
  }

  lemma {:induction false} EncodeAllAppend(ps: seq<Bytes>, qs: seq<Bytes>)
    requires AllFit(ps, MAX_LENGTH) && AllFit(qs, MAX_LENGTH)
    ensures AllFit(ps + qs, MAX_LENGTH)
    ensures EncodeAll(ps + qs) == EncodeAll(ps) + EncodeAll(qs)
  {
    if ps == [] {
      assert ps + qs == qs;
    } else {
      assert (ps + qs)[1..] == ps[1..] + qs;
      EncodeAllAppend(ps[1..], qs);
    }
  }

  lemma EncodeAllSnoc(ps: seq<Bytes>, q: Bytes)
    requires AllFit(ps, MAX_LENGTH) && |q| <= MAX_LENGTH
    ensures AllFit(ps + [q], MAX_LENGTH)
    ensures EncodeAll(ps + [q]) == EncodeAll(ps) + EncodeFrame(q)
  {
    EncodeAllAppend(ps, [q]);
    assert EncodeAll([q]) == EncodeFrame(q);
  }

  /** What a reader of `b` knows: the complete frames, the bytes left over, and whether
      the left-over bytes start with a header that declares too much. */
  datatype Parsed = Parsed(frames: seq<Bytes>, rest: Bytes, tooLarge: bool)

  function Parse(b: Bytes, max: nat): Parsed
    decreases |b|
  {
    if |b| < FRAME_HEADER_SIZE then Parsed([], b, false)
    else
      var n := DeclaredLength(b);
      if n > max then Parsed([], b, true)
      else if |b| < FRAME_HEADER_SIZE + n then Parsed([], b, false)
      else
        var tail := Parse(b[FRAME_HEADER_SIZE + n..], max);
        Parsed([b[FRAME_HEADER_SIZE..FRAME_HEADER_SIZE + n]] + tail.frames, tail.rest, tail.tooLarge)
  }

  /** Bytes from which no frame can be taken: a short header, an oversized header,
      or a header whose payload has not all arrived. */
  predicate Stuck(rest: Bytes, max: nat) {
    |rest| < FRAME_HEADER_SIZE || DeclaredLength(rest) > max || |rest| < FRAME_HEADER_SIZE + DeclaredLength(rest)
  }

  predicate Oversized(rest: Bytes, max: nat) {
    |rest| >= FRAME_HEADER_SIZE && DeclaredLength(rest) > max
  }

  lemma EncodedFrameShape(p: Bytes, rest: Bytes)
    requires |p| <= MAX_LENGTH
    ensures var b := EncodeFrame(p) + rest;
            && DeclaredLength(b) == |p|
            && b[FRAME_HEADER_SIZE..FRAME_HEADER_SIZE + |p|] == p
            && b[FRAME_HEADER_SIZE + |p|..] == rest
  {
    HeaderRoundTrip(|p|, p + rest);
    assert EncodeFrame(p) + rest == Header(|p|) + (p + rest);
  }

  /** Cutting the first frame off and encoding it again gives the bytes back. */
  lemma FirstFrame(b: Bytes)
    requires |b| >= FRAME_HEADER_SIZE && |b| >= FRAME_HEADER_SIZE + DeclaredLength(b)
    ensures var n := FRAME_HEADER_SIZE + DeclaredLength(b);
            EncodeFrame(b[FRAME_HEADER_SIZE..n]) + b[n..] == b
  {
    var n := FRAME_HEADER_SIZE + DeclaredLength(b);
    assert EncodeFrame(b[FRAME_HEADER_SIZE..n]) == b[..FRAME_HEADER_SIZE] + b[FRAME_HEADER_SIZE..n];
    assert b[..FRAME_HEADER_SIZE] + b[FRAME_HEADER_SIZE..n] == b[..n];
  }

  /** Parsing is the only way to cut a stream into fitting frames and a stuck remainder. */
  lemma {:induction false} ParseUnique(ps: seq<Bytes>, rest: Bytes, max: nat)
    requires AllFit(ps, MAX_LENGTH) && AllFit(ps, max)
    requires Stuck(rest, max)
    ensures Parse(EncodeAll(ps) + rest, max) == Parsed(ps, rest, Oversized(rest, max))
  {
    if ps == [] {
      assert EncodeAll(ps) + rest == rest;
    } else {
      var more := EncodeAll(ps[1..]) + rest;
      assert EncodeAll(ps) + rest == EncodeFrame(ps[0]) + more;
      EncodedFrameShape(ps[0], more);
      assert Fits(ps[0], max);
      ParseUnique(ps[1..], rest, max);
    }
  }

  lemma {:induction false} ParseSound(b: Bytes, max: nat)
    ensures var r := Parse(b, max);
            && AllFit(r.frames, max) && AllFit(r.frames, MAX_LENGTH)
            && EncodeAll(r.frames) + r.rest == b
            && Stuck(r.rest, max)
            && (r.tooLarge <==> Oversized(r.rest, max))
    decreases |b|
  {
    if !Stuck(b, max) {
      var n := FRAME_HEADER_SIZE + DeclaredLength(b);
      var first, tail := b[FRAME_HEADER_SIZE..n], b[n..];
      FirstFrame(b);
      ParseSound(tail, max);
      var r := Parse(tail, max);
      EncodeAllCons(first, r.frames, r.rest);
      assert Parse(b, max) == Parsed([first] + r.frames, r.rest, r.tooLarge);
    }
  }

  lemma EncodeAllCons(p: Bytes, ps: seq<Bytes>, rest: Bytes)
    requires |p| <= MAX_LENGTH && AllFit(ps, MAX_LENGTH)
    ensures AllFit([p] + ps, MAX_LENGTH)
    ensures EncodeAll([p] + ps) + rest == EncodeFrame(p) + (EncodeAll(ps) + rest)
  {
    assert ([p] + ps)[1..] == ps;
    assert EncodeAll([p] + ps) == EncodeFrame(p) + EncodeAll(ps);
  }

  /** Feeding the left-over bytes together with new ones continues the same parse. */
  lemma ParseContinues(a: Bytes, b: Bytes, max: nat)
    ensures var p := Parse(a, max); var q := Parse(p.rest + b, max);
            Parse(a + b, max) == Prepend(p.frames, q)
  {
    var p := Parse(a, max);
    var q := Parse(p.rest + b, max);
    ParseSound(a, max);
    ParseSound(p.rest + b, max);
    EncodeAllAppend(p.frames, q.frames);
    Regroup(EncodeAll(p.frames), p.rest, b, EncodeAll(q.frames), q.rest);
    assert AllFit(p.frames + q.frames, max);
    ParseUnique(p.frames + q.frames, q.rest, max);
  }

  lemma Regroup(x: Bytes, y: Bytes, b: Bytes, z: Bytes, w: Bytes)
    requires y + b == z + w
    ensures (x + y) + b == (x + z) + w
  {
    assert (x + y) + b == x + (y + b);
    assert (x + z) + w == x + (z + w);
  }

  /** `done` followed by whatever a parse still finds in `b`. */
  function Prepend(done: seq<Bytes>, p: Parsed): Parsed {
    Parsed(done + p.frames, p.rest, p.tooLarge)
  }

  /** One turn of a reassembly loop: moving the first frame over leaves the total unchanged. */
  lemma TakeFrame(done: seq<Bytes>, b: Bytes, max: nat)
    requires !Stuck(b, max)
    ensures var n := FRAME_HEADER_SIZE + DeclaredLength(b);
            Prepend(done, Parse(b, max)) == Prepend(done + [b[FRAME_HEADER_SIZE..n]], Parse(b[n..], max))
  {
    var n := FRAME_HEADER_SIZE + DeclaredLength(b);
    var tail := Parse(b[n..], max);
    assert done + ([b[FRAME_HEADER_SIZE..n]] + tail.frames) == (done + [b[FRAME_HEADER_SIZE..n]]) + tail.frames;
  }

  lemma StuckParse(done: seq<Bytes>, b: Bytes, max: nat)
    requires Stuck(b, max)
    ensures Prepend(done, Parse(b, max)) == Parsed(done, b, Oversized(b, max))
  {
    assert Parse(b, max) == Parsed([], b, Oversized(b, max));
  }

  /** An oversized header stays at the front for ever, so the error is sticky. */
  lemma TooLargeIsSticky(a: Bytes, b: Bytes, max: nat)
    requires Parse(a, max).tooLarge
    ensures Parse(a + b, max).tooLarge
    ensures Parse(a + b, max).frames == Parse(a, max).frames
  {
    ParseSound(a, max);
    ParseContinues(a, b, max);
    var p := Parse(a, max);
    assert (p.rest + b)[..FRAME_HEADER_SIZE] == p.rest[..FRAME_HEADER_SIZE];
  }

  /** Without an error, fewer bytes than one whole maximal frame are ever left over. */
  lemma ResidueBound(b: Bytes, max: nat)
    requires !Parse(b, max).tooLarge
    ensures |Parse(b, max).rest| < FRAME_HEADER_SIZE + max
  {
    ParseSound(b, max);
  }

  function Concat(chunks: seq<Bytes>): Bytes {
    if chunks == [] then [] else chunks[0] + Concat(chunks[1..])
  }

  /** One decoder pushed through a list of chunks: the frames of every push in order. */
  function PushAll(buffer: Bytes, chunks: seq<Bytes>, max: nat): Parsed
    decreases |chunks|
  {
    if chunks == [] then Parsed([], buffer, Oversized(buffer, max))
    else
      var first := Parse(buffer + chunks[0], max);
      var later := PushAll(first.rest, chunks[1..], max);
      Prepend(first.frames, later)
  }

  lemma {:induction false} PushAllIsParse(buffer: Bytes, chunks: seq<Bytes>, max: nat)
    requires Stuck(buffer, max)
    ensures PushAll(buffer, chunks, max) == Parse(buffer + Concat(chunks), max)
    decreases |chunks|
  {
    if chunks == [] {
      assert buffer + Concat(chunks) == buffer;
    } else {
      var front, later := buffer + chunks[0], Concat(chunks[1..]);
      ParseSound(front, max);
      PushAllIsParse(Parse(front, max).rest, chunks[1..], max);
      assert buffer + (chunks[0] + later) == front + later;
      ParseContinues(front, later, max);
    }
  }

  /** Chunk invariance and round trip: however the encoding of a list of fitting payloads
      is split, the decoder's outputs concatenate to exactly that list, with nothing left. */
  lemma ChunkedRoundTrip(ps: seq<Bytes>, chunks: seq<Bytes>, max: nat)
    requires AllFit(ps, MAX_LENGTH) && AllFit(ps, max)
    requires Concat(chunks) == EncodeAll(ps)
    ensures PushAll([], chunks, max) == Parsed(ps, [], false)
  {
    PushAllIsParse([], chunks, max);
    assert [] + Concat(chunks) == EncodeAll(ps) + [];
    ParseUnique(ps, [], max);
  }

  /** A proper prefix of one encoded frame never yields a frame or an error. */
  lemma PartialFrameIsStuck(p: Bytes, k: nat, max: nat)
    requires Fits(p, max) && k < FRAME_HEADER_SIZE + |p|
    ensures Stuck(EncodeFrame(p)[..k], max) && !Oversized(EncodeFrame(p)[..k], max)
  {
    var part := EncodeFrame(p)[..k];
    if k >= FRAME_HEADER_SIZE {
      EncodedFrameShape(p, []);
      assert EncodeFrame(p) + [] == EncodeFrame(p);
      assert part[..FRAME_HEADER_SIZE] == EncodeFrame(p)[..FRAME_HEADER_SIZE];
    }
  }

  /** A stream cut off inside its last frame, in any chunks, yields the whole frames only. */
  lemma TornStreamDecodes(ps: seq<Bytes>, p: Bytes, k: nat, chunks: seq<Bytes>, max: nat)
    requires AllFit(ps, MAX_LENGTH) && AllFit(ps, max)
    requires Fits(p, max) && k < FRAME_HEADER_SIZE + |p|
    requires Concat(chunks) == EncodeAll(ps) + EncodeFrame(p)[..k]
    ensures PushAll([], chunks, max) == Parsed(ps, EncodeFrame(p)[..k], false)
  {
    PushAllIsParse([], chunks, max);
    PartialFrameIsStuck(p, k, max);
    assert [] + Concat(chunks) == Concat(chunks);
    ParseUnique(ps, EncodeFrame(p)[..k], max);
  }
}
