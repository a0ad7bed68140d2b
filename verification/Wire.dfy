/**
 The frame protocol's wire format: a ten-byte big-endian header followed by the payload, and the
 fragment chains a streamed message travels in.

 Everything here is a function of byte sequences. The buffers, arrays and recycled frames that
 compute these functions are in `Pool.dfy`, `Decoder.dfy` and `Encoder.dfy`, whose one body, with a pool
 or without, is proved equal to
 `DecodeStream` and `EncodeMessage` below.
 */
module Wire {
  type byte = x: int | 0 <= x < 0x100
  type uint32 = x: int | 0 <= x < 0x1_0000_0000

  const HEADER_SIZE := 10
  const MAX_FRAME_SIZE := 0x10_0000
  const MAX_STREAM_SIZE := 0x80_0000
  const WORD := 4
  const FLAG_MORE: byte := 1
  const PUBLISH: byte := 2

  /** A frame header; `length` is the 32-bit signed length field. */
  datatype Header = Header(frameType: byte, flags: byte, streamId: uint32, length: int)

  datatype Frame = Frame(header: Header, payload: seq<byte>)

  /** How a reader ends once its bytes are used up: the peer closed, nothing came in time, or the read failed. */
  datatype Fault = EndOfStream | DeadlineExceeded | ReadFailed

  datatype Error =
    | Eof
    | ReadError(fault: Fault)
    | FrameTooLarge
    | Truncated(got: nat, want: nat, fault: Fault)
    | StreamIdViolation
    | FrameTypeViolation
    | StreamTooLarge
    | EmptyFrame

  datatype Decoded = Ok(frame: Frame, rest: seq<byte>) | Err(error: Error)

  /** `Flags & FlagMore != 0`: the flag is the lowest bit. */
  predicate HasMore(h: Header) {
    h.flags % 2 == 1
  }

  // ---------------------------------------------------------------- header

  /** The `n` low-order base-256 digits of `v`, most significant first. */
  function BigEndian(v: nat, n: nat): (s: seq<byte>)
    ensures |s| == n
  {
    if n == 0 then [] else BigEndian(v / 0x100, n - 1) + [v % 0x100]
  }

  /** The number a big-endian byte string denotes. */
  function Value(s: seq<byte>): nat {
    if s == [] then 0 else
      var last: nat := s[|s| - 1];
      Value(s[..|s| - 1]) * 0x100 + last
  }

  function Power256(n: nat): nat {
    if n == 0 then 1 else 0x100 * Power256(n - 1)
  }

  lemma {:induction false} ValueOfBigEndian(v: nat, n: nat)
    requires v < Power256(n)
    ensures Value(BigEndian(v, n)) == v
  {
    if n > 0 {
      ValueOfBigEndian(v / 0x100, n - 1);
      var s := BigEndian(v, n);
      assert s[..|s| - 1] == BigEndian(v / 0x100, n - 1);
    }
  }

  lemma {:induction false} BigEndianOfValue(s: seq<byte>)
    ensures Value(s) < Power256(|s|) && BigEndian(Value(s), |s|) == s
  {
    if s != [] {
      var front, last := s[..|s| - 1], s[|s| - 1];
      BigEndianOfValue(front);
      assert Value(s) / 0x100 == Value(front) && Value(s) % 0x100 == last;
      assert s == front + [last];
    }
  }

  lemma Power256Of4()
    ensures Power256(4) == 0x1_0000_0000
  {
    assert Power256(1) == 0x100 && Power256(2) == 0x1_0000 && Power256(3) == 0x100_0000;
  }

  /** The 32-bit two's-complement reading of an unsigned word. */
  function AsInt32(v: uint32): (i: int)
    ensures -0x8000_0000 <= i < 0x8000_0000
    ensures (i - v) % 0x1_0000_0000 == 0
  {
    if v < 0x8000_0000 then v else v - 0x1_0000_0000
  }

  function HeaderBytes(h: Header): (s: seq<byte>)
    ensures |s| == HEADER_SIZE
  {
    [h.frameType, h.flags] + BigEndian(h.streamId, WORD) + BigEndian(h.length % 0x1_0000_0000, WORD)
  }

  datatype ParsedHeader = Parsed(header: Header) | Rejected

  /** Reads a four-byte word. */
  function Word(s: seq<byte>): (v: uint32)
    requires |s| == WORD
    ensures BigEndian(v, WORD) == s
  {
    BigEndianOfValue(s);
    Power256Of4();
    Value(s)
  }

  /** Parses ten header bytes; a length that is negative as int32, or above the limit, is refused. */
  function ParseHeader(s: seq<byte>): (r: ParsedHeader)
    requires |s| == HEADER_SIZE
    ensures r.Parsed? ==> 0 <= r.header.length <= MAX_FRAME_SIZE
  {
    var length := AsInt32(Word(s[6..10]));
    if length < 0 || length > MAX_FRAME_SIZE then Rejected
    else Parsed(Header(s[0], s[1], Word(s[2..6]), length))
  }

  /** A header survives the wire exactly when its length is one the decoder accepts. */
  lemma HeaderRoundTrip(h: Header)
    requires -0x8000_0000 <= h.length < 0x8000_0000
    ensures ParseHeader(HeaderBytes(h)) == if 0 <= h.length <= MAX_FRAME_SIZE then Parsed(h) else Rejected
  {
    var s := HeaderBytes(h);
    assert s[2..6] == BigEndian(h.streamId, WORD);
    assert s[6..10] == BigEndian(h.length % 0x1_0000_0000, WORD);
    Power256Of4();
    ValueOfBigEndian(h.streamId, WORD);
    ValueOfBigEndian(h.length % 0x1_0000_0000, WORD);
  }

  /** The layout: type, flags, stream id and length, the two numbers with their highest byte first. */
  lemma HeaderLayout(h: Header)
    requires 0 <= h.length < 0x8000_0000
    ensures HeaderBytes(h) ==
            [h.frameType, h.flags,
             h.streamId / 0x100_0000, h.streamId / 0x1_0000 % 0x100, h.streamId / 0x100 % 0x100, h.streamId % 0x100,
             h.length / 0x100_0000, h.length / 0x1_0000 % 0x100, h.length / 0x100 % 0x100, h.length % 0x100]
  {
    FourDigits(h.streamId);
    FourDigits(h.length);
  }

  lemma FourDigits(v: uint32)
    ensures BigEndian(v, 4) == [v / 0x100_0000, v / 0x1_0000 % 0x100, v / 0x100 % 0x100, v % 0x100]
  {
    var a, b, c := v / 0x100, v / 0x1_0000, v / 0x100_0000;
    assert a / 0x100 == b && b / 0x100 == c && c / 0x100 == 0;
    assert BigEndian(c, 1) == [c % 0x100];
    assert BigEndian(b, 2) == [c % 0x100, b % 0x100];
    assert BigEndian(a, 3) == [c % 0x100, b % 0x100, a % 0x100];
  }

  lemma ParseHeaderInverse(s: seq<byte>)
    requires |s| == HEADER_SIZE && ParseHeader(s).Parsed?
    ensures HeaderBytes(ParseHeader(s).header) == s
  {
    assert s == [s[0], s[1]] + s[2..6] + s[6..10];
  }

  // ---------------------------------------------------------------- one frame

  /** A frame the decoder can return: its length field is its payload's length, within the limit. */
  predicate WellFormed(f: Frame) {
    f.header.length == |f.payload| <= MAX_FRAME_SIZE
  }

  function FrameBytes(f: Frame): (s: seq<byte>)
    ensures |s| == HEADER_SIZE + |f.payload|
  {
    HeaderBytes(f.header) + f.payload
  }

  /** Reads one frame. A header cut short reads as a plain end of stream, a payload cut short does not. */
  function DecodeFrame(input: seq<byte>, fault: Fault): (r: Decoded)
    ensures r.Ok? ==> |r.rest| < |input|
  {
    if |input| < HEADER_SIZE then
      Err(if fault == EndOfStream then Eof else ReadError(fault))
    else
      match ParseHeader(input[..HEADER_SIZE])
      case Rejected => Err(FrameTooLarge)
      case Parsed(h) =>
        var body := input[HEADER_SIZE..];
        if |body| < h.length then Err(Truncated(|body|, h.length, fault))
        else Ok(Frame(h, body[..h.length]), body[h.length..])
  }

  lemma DecodeFrameOfBytes(f: Frame, rest: seq<byte>, fault: Fault)
    requires WellFormed(f)
    ensures DecodeFrame(FrameBytes(f) + rest, fault) == Ok(f, rest)
  {
    var input := FrameBytes(f) + rest;
    HeaderRoundTrip(f.header);
    assert input[..HEADER_SIZE] == HeaderBytes(f.header);
    assert input[HEADER_SIZE..] == f.payload + rest;
  }

  lemma DecodeFrameInverse(input: seq<byte>, fault: Fault)
    requires DecodeFrame(input, fault).Ok?
    ensures var Ok(f, rest) := DecodeFrame(input, fault); WellFormed(f) && input == FrameBytes(f) + rest
  {
    ParseHeaderInverse(input[..HEADER_SIZE]);
    var Ok(f, rest) := DecodeFrame(input, fault);
    assert input == input[..HEADER_SIZE] + (f.payload + rest);
  }

  // ---------------------------------------------------------------- streamed messages

  /** Reads one logical message, assembling fragments. A lone frame keeps its own flags. */
  function DecodeStream(input: seq<byte>, fault: Fault): (r: Decoded)
    ensures r.Ok? ==> |r.rest| < |input|
  {
    match DecodeFrame(input, fault)
    case Err(e) => Err(e)
    case Ok(f, rest) =>
      if !HasMore(f.header) then Ok(f, rest)
      else Assemble(f.header.frameType, f.header.streamId, f.payload, rest, fault)
  }

  /** The assembly loop: `acc` is what the fragments read so far carried. */
  function Assemble(frameType: byte, streamId: uint32, acc: seq<byte>, input: seq<byte>, fault: Fault): (r: Decoded)
    ensures r.Ok? ==> |r.rest| < |input|
    decreases |input|
  {
    match DecodeFrame(input, fault)
    case Err(e) => Err(e)
    case Ok(f, rest) =>
      if f.header.streamId != streamId then Err(StreamIdViolation)
      else if f.header.frameType != frameType then Err(FrameTypeViolation)
      else
        var acc' := acc + f.payload;
        if |acc'| > MAX_STREAM_SIZE then Err(StreamTooLarge)
        else if !HasMore(f.header) then Ok(Whole(frameType, streamId, acc'), rest)
        else Assemble(frameType, streamId, acc', rest, fault)
  }

  /** The unfragmented, unflagged frame for a message. */
  function Whole(frameType: byte, streamId: uint32, payload: seq<byte>): Frame {
    Frame(Header(frameType, 0, streamId, |payload|), payload)
  }

  function Payloads(fs: seq<Frame>): seq<byte> {
    if fs == [] then [] else fs[0].payload + Payloads(fs[1..])
  }

  function ChainBytes(fs: seq<Frame>): seq<byte> {
    if fs == [] then [] else FrameBytes(fs[0]) + ChainBytes(fs[1..])
  }

  /** Fragments that continue a message of the given type and id up to and including its last one. */
  predicate Continues(fs: seq<Frame>, frameType: byte, streamId: uint32) {
    && fs != []
    && (forall i :: 0 <= i < |fs| ==>
          && WellFormed(fs[i])
          && fs[i].header.frameType == frameType
          && fs[i].header.streamId == streamId
          && (HasMore(fs[i].header) <==> i < |fs| - 1))
  }

  /** One logical message on the wire. */
  predicate Chain(fs: seq<Frame>) {
    && fs != []
    && Continues(fs, fs[0].header.frameType, fs[0].header.streamId)
    && |Payloads(fs)| <= MAX_STREAM_SIZE
  }

  /** What a chain means: its lone frame as it stands, or the unflagged concatenation. */
  function Joined(fs: seq<Frame>): Frame
    requires fs != []
  {
    if |fs| == 1 then fs[0] else Whole(fs[0].header.frameType, fs[0].header.streamId, Payloads(fs))
  }

  /** Putting one more fragment in front of a chain's tail. */
  lemma Prepend(f: Frame, gs: seq<Frame>, rest: seq<byte>)
    ensures Payloads([f] + gs) == f.payload + Payloads(gs)
    ensures ChainBytes([f] + gs) + rest == FrameBytes(f) + (ChainBytes(gs) + rest)
    ensures WellFormed(f) && HasMore(f.header) && Continues(gs, f.header.frameType, f.header.streamId) ==>
              Continues([f] + gs, f.header.frameType, f.header.streamId)
    ensures WellFormed(f) && !HasMore(f.header) ==> Continues([f], f.header.frameType, f.header.streamId)
  {
    assert ([f] + gs)[1..] == gs;
  }

  /** A chain's tail taken apart at its first fragment. */
  lemma Uncons(fs: seq<Frame>, frameType: byte, streamId: uint32)
    requires Continues(fs, frameType, streamId)
    ensures fs == [fs[0]] + fs[1..]
    ensures |fs| > 1 ==> HasMore(fs[0].header) && Continues(fs[1..], frameType, streamId)
    ensures |fs| == 1 ==> !HasMore(fs[0].header) && Payloads(fs[1..]) == ChainBytes(fs[1..]) == []
  {
  }

  /** One fragment of a chain's tail, taken off the input. */
  lemma AssembleStep(frameType: byte, streamId: uint32, acc: seq<byte>, f: Frame, tail: seq<byte>, fault: Fault)
    requires WellFormed(f) && f.header.frameType == frameType && f.header.streamId == streamId
    ensures Assemble(frameType, streamId, acc, FrameBytes(f) + tail, fault) ==
            if |acc + f.payload| > MAX_STREAM_SIZE then Err(StreamTooLarge)
            else if HasMore(f.header) then Assemble(frameType, streamId, acc + f.payload, tail, fault)
            else Ok(Whole(frameType, streamId, acc + f.payload), tail)
  {
    DecodeFrameOfBytes(f, tail, fault);
  }

  lemma {:induction false} AssembleAccepts(
      frameType: byte, streamId: uint32, acc: seq<byte>, fs: seq<Frame>, rest: seq<byte>, fault: Fault)
    requires Continues(fs, frameType, streamId)
    ensures Assemble(frameType, streamId, acc, ChainBytes(fs) + rest, fault) ==
            if |acc + Payloads(fs)| <= MAX_STREAM_SIZE then Ok(Whole(frameType, streamId, acc + Payloads(fs)), rest)
            else Err(StreamTooLarge)
    decreases |fs|
  {
    var f, gs := fs[0], fs[1..];
    var tail, more := ChainBytes(gs) + rest, acc + f.payload;
    assert ChainBytes(fs) + rest == FrameBytes(f) + tail && acc + Payloads(fs) == more + Payloads(gs) by {
      Uncons(fs, frameType, streamId);
      Prepend(f, gs, rest);
    }
    AssembleStep(frameType, streamId, acc, f, tail, fault);
    if |fs| == 1 {
      assert tail == rest && acc + Payloads(fs) == more;
    } else if |more| <= MAX_STREAM_SIZE {
      assert Continues(gs, frameType, streamId) by { Uncons(fs, frameType, streamId); }
      AssembleAccepts(frameType, streamId, more, gs, rest, fault);
    }
  }

  lemma {:induction false} AssembleWitness(frameType: byte, streamId: uint32, acc: seq<byte>, input: seq<byte>, fault: Fault)
    returns (fs: seq<Frame>)
    requires Assemble(frameType, streamId, acc, input, fault).Ok?
    ensures Continues(fs, frameType, streamId)
    ensures |acc + Payloads(fs)| <= MAX_STREAM_SIZE
    ensures input == ChainBytes(fs) + Assemble(frameType, streamId, acc, input, fault).rest
    decreases |input|
  {
    var Ok(f, rest) := DecodeFrame(input, fault);
    DecodeFrameInverse(input, fault);
    if HasMore(f.header) {
      var gs := AssembleWitness(frameType, streamId, acc + f.payload, rest, fault);
      fs := [f] + gs;
      Prepend(f, gs, Assemble(frameType, streamId, acc + f.payload, rest, fault).rest);
    } else {
      fs := [f];
      Prepend(f, [], rest);
      assert [f] + [] == fs;
    }
  }

  /** Every chain followed by anything decodes to what the chain means, and to nothing else. */
  lemma ChainDecodes(fs: seq<Frame>, rest: seq<byte>, fault: Fault)
    requires Chain(fs)
    ensures DecodeStream(ChainBytes(fs) + rest, fault) == Ok(Joined(fs), rest)
  {
    var f, tail := fs[0], ChainBytes(fs[1..]) + rest;
    Uncons(fs, f.header.frameType, f.header.streamId);
    Prepend(f, fs[1..], rest);
    DecodeFrameOfBytes(f, tail, fault);
    if |fs| == 1 {
      assert tail == rest;
    } else {
      AssembleAccepts(f.header.frameType, f.header.streamId, f.payload, fs[1..], rest, fault);
    }
  }

  /** The chain a successful decode has read. */
  lemma DecodedChain(input: seq<byte>, fault: Fault) returns (fs: seq<Frame>)
    requires DecodeStream(input, fault).Ok?
    ensures Chain(fs) && input == ChainBytes(fs) + DecodeStream(input, fault).rest
  {
    var Ok(f, rest) := DecodeFrame(input, fault);
    DecodeFrameInverse(input, fault);
    var gs := [];
    if HasMore(f.header) {
      gs := AssembleWitness(f.header.frameType, f.header.streamId, f.payload, rest, fault);
    }
    fs := [f] + gs;
    Prepend(f, gs, DecodeStream(input, fault).rest);
    assert rest == ChainBytes(gs) + DecodeStream(input, fault).rest;
  }

  /**
   The streaming decoder succeeds on exactly the inputs that start with a chain of well-formed
   frames, returns what that chain means, and leaves exactly the bytes behind it.
   */
  lemma DecodeStreamExact(input: seq<byte>, fault: Fault)
    ensures DecodeStream(input, fault).Ok? <==>
            exists fs, rest :: Chain(fs) && input == ChainBytes(fs) + rest
    ensures forall fs, rest :: Chain(fs) && input == ChainBytes(fs) + rest ==>
                                 DecodeStream(input, fault) == Ok(Joined(fs), rest)
  {
    if DecodeStream(input, fault).Ok? {
      var fs := DecodedChain(input, fault);
    }
    forall fs, rest | Chain(fs) && input == ChainBytes(fs) + rest
      ensures DecodeStream(input, fault) == Ok(Joined(fs), rest)
    {
      ChainDecodes(fs, rest, fault);
    }
  }

  // ---------------------------------------------------------------- violations

  /** A header that announces a negative length, or one above the limit, is refused before anything behind it is read. */
  lemma OverlongIsRefused(h: Header, rest: seq<byte>, fault: Fault)
    requires -0x8000_0000 <= h.length < 0x8000_0000
    ensures DecodeFrame(HeaderBytes(h) + rest, fault) == Err(FrameTooLarge) <==> h.length < 0 || h.length > 0x10_0000
    ensures h.length < 0 || h.length > 0x10_0000 ==> DecodeStream(HeaderBytes(h) + rest, fault) == Err(FrameTooLarge)
  {
    HeaderRoundTrip(h);
    assert (HeaderBytes(h) + rest)[..HEADER_SIZE] == HeaderBytes(h);
  }

  /** What a frame behind the beginning of a message makes of it. */
  lemma {:induction false} NextFrameDecides(
      frameType: byte, streamId: uint32, acc: seq<byte>, fs: seq<Frame>, g: Frame, rest: seq<byte>, fault: Fault)
    requires Unfinished(fs, frameType, streamId) && |acc + Payloads(fs)| <= MAX_STREAM_SIZE && WellFormed(g)
    ensures var total := acc + Payloads(fs) + g.payload;
            Assemble(frameType, streamId, acc, ChainBytes(fs) + (FrameBytes(g) + rest), fault) ==
            if g.header.streamId != streamId then Err(StreamIdViolation)
            else if g.header.frameType != frameType then Err(FrameTypeViolation)
            else if |total| > MAX_STREAM_SIZE then Err(StreamTooLarge)
            else if g.header.flags % 2 == 1 then Assemble(frameType, streamId, total, rest, fault)
            else Ok(Frame(Header(frameType, 0, streamId, |total|), total), rest)
    decreases |fs|
  {
    var tail := FrameBytes(g) + rest;
    if fs == [] {
      assert ChainBytes(fs) + tail == tail && acc + Payloads(fs) == acc;
      DecodeFrameOfBytes(g, rest, fault);
    } else {
      var f, gs := fs[0], fs[1..];
      assert fs == [f] + gs;
      UnfinishedPrepend(f, gs, acc, tail, frameType, streamId);
      Prepend(f, gs, tail);
      assert ChainBytes(fs) + tail == FrameBytes(f) + (ChainBytes(gs) + tail);
      assert acc + Payloads(fs) + g.payload == acc + f.payload + Payloads(gs) + g.payload;
      AssembleStep(frameType, streamId, acc, f, ChainBytes(gs) + tail, fault);
      NextFrameDecides(frameType, streamId, acc + f.payload, gs, g, rest, fault);
    }
  }

  /**
   Behind the beginning of a message, a frame of another stream or of another type ends the connection
   with the error that says so, and one that takes the message over the stream limit with that.
   */
  lemma ViolationsAreNamed(fs: seq<Frame>, frameType: byte, streamId: uint32, g: Frame, rest: seq<byte>, fault: Fault)
    requires fs != [] && Unfinished(fs, frameType, streamId) && WellFormed(g)
    ensures var got := DecodeStream(ChainBytes(fs) + (FrameBytes(g) + rest), fault);
            && (g.header.streamId != streamId ==> got == Err(StreamIdViolation))
            && (g.header.streamId == streamId && g.header.frameType != frameType ==> got == Err(FrameTypeViolation))
            && (g.header.streamId == streamId && g.header.frameType == frameType && |Payloads(fs)| + |g.payload| > 0x80_0000 ==>
                  got == Err(StreamTooLarge))
  {
    var f, gs := fs[0], fs[1..];
    var tail := FrameBytes(g) + rest;
    assert fs == [f] + gs;
    Prepend(f, gs, tail);
    UnfinishedPrepend(f, gs, [], tail, frameType, streamId);
    DecodeFrameOfBytes(f, ChainBytes(gs) + tail, fault);
    assert [] + f.payload == f.payload && [] + Payloads(fs) == Payloads(fs) && Payloads(fs) == f.payload + Payloads(gs);
    NextFrameDecides(frameType, streamId, f.payload, gs, g, rest, fault);
  }

  // ---------------------------------------------------------------- streams that end too early

  /** A frame cut short: inside its header the end looks clean, inside its payload it does not. */
  lemma CutFrame(f: Frame, k: nat)
    requires WellFormed(f) && k < |FrameBytes(f)|
    ensures DecodeFrame(FrameBytes(f)[..k], EndOfStream) ==
            Err(if k < HEADER_SIZE then Eof else Truncated(k - HEADER_SIZE, |f.payload|, EndOfStream))
  {
    if k >= HEADER_SIZE {
      assert FrameBytes(f)[..k][..HEADER_SIZE] == HeaderBytes(f.header);
      HeaderRoundTrip(f.header);
    }
  }

  /** One byte of a header reads like no byte at all. */
  lemma CutHeaderLooksClean()
    ensures DecodeFrame([0], EndOfStream) == DecodeFrame([], EndOfStream) == Err(Eof)
  {
  }

  /** The beginning of a streamed message: fragments of one type and id, all of them flagged, within the limit. */
  predicate Unfinished(fs: seq<Frame>, frameType: byte, streamId: uint32) {
    && (forall i :: 0 <= i < |fs| ==>
          WellFormed(fs[i]) && fs[i].header.frameType == frameType && fs[i].header.streamId == streamId && HasMore(fs[i].header))
    && |Payloads(fs)| <= MAX_STREAM_SIZE
  }

  /** A message cut cleanly behind a flagged fragment reads like the end of a connection. */
  lemma CutMessageLooksClean()
    ensures var f := Frame(Header(PUBLISH, FLAG_MORE, 1, 0), []);
            Unfinished([f], PUBLISH, 1) && DecodeStream(FrameBytes(f), EndOfStream) == Err(Eof)
  {
    var f := Frame(Header(PUBLISH, FLAG_MORE, 1, 0), []);
    DecodeFrameOfBytes(f, [], EndOfStream);
    assert FrameBytes(f) + [] == FrameBytes(f);
    assert Payloads([f]) == f.payload + Payloads([f][1..]) == [];
  }

  /** One more flagged fragment in front. */
  lemma UnfinishedPrepend(f: Frame, gs: seq<Frame>, acc: seq<byte>, tail: seq<byte>, frameType: byte, streamId: uint32)
    ensures ChainBytes([f] + gs) + tail == FrameBytes(f) + (ChainBytes(gs) + tail)
    ensures |acc + Payloads([f] + gs)| == |acc + f.payload + Payloads(gs)|
    ensures |acc + f.payload + Payloads(gs)| <= MAX_STREAM_SIZE ==>
              (Unfinished([f] + gs, frameType, streamId) <==>
               && Unfinished(gs, frameType, streamId) && WellFormed(f) && HasMore(f.header)
               && f.header.frameType == frameType && f.header.streamId == streamId)
  {
    var fs := [f] + gs;
    Prepend(f, gs, tail);
    assert forall i :: 0 <= i < |gs| ==> fs[i + 1] == gs[i];
    if Unfinished(fs, frameType, streamId) {
      assert fs[0] == f;
    }
  }

  /** Not all of a frame: less than a header, or an acceptable header and less than it announces. */
  predicate CutShort(tail: seq<byte>) {
    |tail| < HEADER_SIZE
    || (ParseHeader(tail[..HEADER_SIZE]).Parsed? && |tail| - HEADER_SIZE < ParseHeader(tail[..HEADER_SIZE]).header.length)
  }

  /** The reader ended in the middle of it all. */
  predicate Starved(r: Decoded) {
    r.Err? && (r.error.Eof? || r.error.ReadError? || r.error.Truncated?)
  }

  lemma {:induction false} AssembleRunsDry(frameType: byte, streamId: uint32, acc: seq<byte>, fs: seq<Frame>, tail: seq<byte>, fault: Fault)
    requires Unfinished(fs, frameType, streamId) && |acc + Payloads(fs)| <= MAX_STREAM_SIZE && CutShort(tail)
    ensures Assemble(frameType, streamId, acc, ChainBytes(fs) + tail, fault) == DecodeFrame(tail, fault)
    decreases |fs|
  {
    if fs == [] {
      assert ChainBytes(fs) + tail == tail;
    } else {
      var f, gs := fs[0], fs[1..];
      var rest := ChainBytes(gs) + tail;
      assert fs == [f] + gs;
      UnfinishedPrepend(f, gs, acc, tail, frameType, streamId);
      assert ChainBytes(fs) + tail == FrameBytes(f) + rest;
      AssembleStep(frameType, streamId, acc, f, rest, fault);
      AssembleRunsDry(frameType, streamId, acc + f.payload, gs, tail, fault);
    }
  }

  lemma {:induction false} RanDry(frameType: byte, streamId: uint32, acc: seq<byte>, input: seq<byte>, fault: Fault)
    returns (fs: seq<Frame>, tail: seq<byte>)
    requires Starved(Assemble(frameType, streamId, acc, input, fault)) && |acc| <= MAX_STREAM_SIZE
    ensures Unfinished(fs, frameType, streamId) && |acc + Payloads(fs)| <= MAX_STREAM_SIZE && CutShort(tail)
    ensures input == ChainBytes(fs) + tail && Assemble(frameType, streamId, acc, input, fault) == DecodeFrame(tail, fault)
    decreases |input|
  {
    var got := DecodeFrame(input, fault);
    if got.Err? {
      return [], input;
    }
    DecodeFrameInverse(input, fault);
    var f, rest := got.frame, got.rest;
    var gs;
    gs, tail := RanDry(frameType, streamId, acc + f.payload, rest, fault);
    UnfinishedPrepend(f, gs, acc, tail, frameType, streamId);
    fs := [f] + gs;
  }

  /** Complete fragments of one message, possibly none, and the cut frame behind them. */
  ghost predicate Splits(input: seq<byte>, fs: seq<Frame>, tail: seq<byte>) {
    CutShort(tail) && input == ChainBytes(fs) + tail && exists frameType, streamId :: Unfinished(fs, frameType, streamId)
  }

  /**
   The streaming decoder runs out of input exactly on a possibly empty run of flagged fragments of one type
   and id within the stream limit, followed by a frame cut short; its error is that of the cut frame.
   */
  lemma RunsDryExactly(input: seq<byte>, fault: Fault)
    ensures Starved(DecodeStream(input, fault)) <==> exists fs, tail :: Splits(input, fs, tail)
    ensures forall fs, tail :: Splits(input, fs, tail) ==> DecodeStream(input, fault) == DecodeFrame(tail, fault)
  {
    if Starved(DecodeStream(input, fault)) {
      var fs, tail := RunsDryWitness(input, fault);
      assert Splits(input, fs, tail);
    }
    forall fs, tail | Splits(input, fs, tail)
      ensures DecodeStream(input, fault) == DecodeFrame(tail, fault)
    {
      var frameType, streamId :| Unfinished(fs, frameType, streamId);
      StreamRunsDry(fs, tail, frameType, streamId, fault);
    }
  }

  lemma RunsDryWitness(input: seq<byte>, fault: Fault) returns (fs: seq<Frame>, tail: seq<byte>)
    requires Starved(DecodeStream(input, fault))
    ensures Splits(input, fs, tail)
  {
    var got := DecodeFrame(input, fault);
    if got.Err? {
      assert Unfinished([], 0, 0) && input == ChainBytes([]) + input;
      return [], input;
    }
    var f, rest := got.frame, got.rest;
    DecodeFrameInverse(input, fault);
    fs, tail := RanDry(f.header.frameType, f.header.streamId, f.payload, rest, fault);
    Prepend(f, fs, tail);
    fs := [f] + fs;
    assert Unfinished(fs, f.header.frameType, f.header.streamId);
  }

  lemma StreamRunsDry(fs: seq<Frame>, tail: seq<byte>, frameType: byte, streamId: uint32, fault: Fault)
    requires Unfinished(fs, frameType, streamId) && CutShort(tail)
    ensures DecodeStream(ChainBytes(fs) + tail, fault) == DecodeFrame(tail, fault)
  {
    if fs == [] {
      assert ChainBytes(fs) + tail == tail;
    } else {
      var f, gs := fs[0], fs[1..];
      assert fs == [f] + gs;
      Prepend(f, gs, tail);
      DecodeFrameOfBytes(f, ChainBytes(gs) + tail, fault);
      AssembleRunsDry(frameType, streamId, f.payload, gs, tail, fault);
    }
  }

  /** A beginning of a message, possibly empty, and less than a header behind it. */
  ghost predicate EndsCleanly(input: seq<byte>) {
    exists fs, tail :: Splits(input, fs, tail) && |tail| < HEADER_SIZE
  }

  /**
   The streaming decoder takes the end of its input for the end of the connection exactly when the input
   is a possibly empty run of flagged fragments of one type and id within the stream limit, followed by
   less than a header.
   */
  lemma CleanEndExactly(input: seq<byte>)
    ensures DecodeStream(input, EndOfStream) == Err(Eof) <==> EndsCleanly(input)
  {
    RunsDryExactly(input, EndOfStream);
    if fs, tail :| Splits(input, fs, tail) {
      assert DecodeStream(input, EndOfStream) == DecodeFrame(tail, EndOfStream);
    }
  }

  // ---------------------------------------------------------------- encoding

  datatype Encoded = Buffers(buffers: seq<seq<byte>>) | Refused(error: Error)

  /** The fragment size in force: anything outside 1..MAX_FRAME_SIZE means the frame ceiling. */
  function ClampThreshold(threshold: int): (t: nat)
    ensures 1 <= t <= MAX_FRAME_SIZE
  {
    if threshold <= 0 || threshold > MAX_FRAME_SIZE then MAX_FRAME_SIZE else threshold
  }

  /** Splits a payload into frames of at most `size` bytes, all but the last flagged. */
  function Fragments(frameType: byte, streamId: uint32, payload: seq<byte>, size: nat): (fs: seq<Frame>)
    requires 1 <= size
    ensures fs != []
    decreases |payload|
  {
    if |payload| <= size then [Whole(frameType, streamId, payload)]
    else [Frame(Header(frameType, FLAG_MORE, streamId, size), payload[..size])]
         + Fragments(frameType, streamId, payload[size..], size)
  }

  function EncodeMessage(frameType: byte, streamId: uint32, payload: seq<byte>, threshold: int): (r: Encoded) {
    if |payload| == 0 then Refused(EmptyFrame)
    else
      var fs := Fragments(frameType, streamId, payload, ClampThreshold(threshold));
      Buffers(seq(|fs|, i requires 0 <= i < |fs| => FrameBytes(fs[i])))
  }

  function Concat(buffers: seq<seq<byte>>): seq<byte> {
    if buffers == [] then [] else buffers[0] + Concat(buffers[1..])
  }

  lemma {:induction false} FragmentsContinue(frameType: byte, streamId: uint32, payload: seq<byte>, size: nat)
    requires 1 <= size <= MAX_FRAME_SIZE
    ensures var fs := Fragments(frameType, streamId, payload, size);
            Continues(fs, frameType, streamId) && Payloads(fs) == payload
    decreases |payload|
  {
    if |payload| <= size {
      Prepend(Whole(frameType, streamId, payload), [], []);
    } else {
      FragmentsContinue(frameType, streamId, payload[size..], size);
      var f := Frame(Header(frameType, FLAG_MORE, streamId, size), payload[..size]);
      Prepend(f, Fragments(frameType, streamId, payload[size..], size), []);
      assert payload == payload[..size] + payload[size..];
    }
  }

  function Min(a: int, b: int): int {
    if a < b then a else b
  }

  /** The frame of the bytes of a payload from one offset to another, flagged unless it reaches the end. */
  function Piece(frameType: byte, streamId: uint32, payload: seq<byte>, offset: nat, end: nat): Frame
    requires offset <= end <= |payload|
  {
    Frame(Header(frameType, if end < |payload| then FLAG_MORE else 0, streamId, end - offset), payload[offset..end])
  }

  function Times(i: nat, m: nat): nat {
    if i == 0 then 0 else Times(i - 1, m) + m
  }

  lemma {:induction false} TimesIs(i: nat, m: nat)
    ensures Times(i, m) == i * m
    decreases i
  {
    if i > 0 {
      TimesIs(i - 1, m);
    }
  }

  lemma {:induction false} TimesGrows(i: nat, j: nat, m: nat)
    requires i <= j
    ensures Times(i, m) <= Times(j, m) && (i < j ==> Times(i, m) + m <= Times(j, m))
    decreases j
  {
    if i < j {
      TimesGrows(i, j - 1, m);
    }
  }

  /** The i-th of the frames that a payload is cut into by m bytes. */
  predicate CutAt(fs: seq<Frame>, frameType: byte, streamId: uint32, payload: seq<byte>, m: nat, i: nat)
    requires i < |fs|
  {
    var offset, end := Times(i, m), Min(Times(i + 1, m), |payload|);
    offset < end && fs[i] == Piece(frameType, streamId, payload, offset, end)
  }

  /** A payload is cut every `size` bytes, each frame but the last flagged. */
  lemma {:induction false} FragmentsAre(frameType: byte, streamId: uint32, payload: seq<byte>, size: nat)
    requires 1 <= size && payload != []
    ensures var fs := Fragments(frameType, streamId, payload, size);
            && Times(|fs| - 1, size) < |payload| <= Times(|fs|, size)
            && forall i :: 0 <= i < |fs| ==> CutAt(fs, frameType, streamId, payload, size, i)
    decreases |payload|
  {
    var fs := Fragments(frameType, streamId, payload, size);
    if |payload| <= size {
      assert payload[0..|payload|] == payload && Times(1, size) == size;
    } else {
      FragmentsAre(frameType, streamId, payload[size..], size);
      forall i | 0 <= i < |fs|
        ensures CutAt(fs, frameType, streamId, payload, size, i)
      {
        if i == 0 {
          assert Times(1, size) == size;
        } else {
          CutShift(frameType, streamId, payload, size, i - 1);
        }
      }
    }
  }

  /** A cut of what the first leaves is the next cut of the whole. */
  lemma CutShift(frameType: byte, streamId: uint32, payload: seq<byte>, size: nat, i: nat)
    requires 1 <= size < |payload| && i < |Fragments(frameType, streamId, payload[size..], size)|
    requires CutAt(Fragments(frameType, streamId, payload[size..], size), frameType, streamId, payload[size..], size, i)
    ensures CutAt(Fragments(frameType, streamId, payload, size), frameType, streamId, payload, size, i + 1)
  {
    var rest := payload[size..];
    var offset, end := Times(i, size), Min(Times(i + 1, size), |rest|);
    assert Times(i + 1, size) == offset + size && Times(i + 2, size) == Times(i + 1, size) + size;
    assert rest[offset..end] == payload[offset + size..end + size];
  }

  /** The fragment size a threshold stands for. */
  predicate Cuts(threshold: int, m: nat) {
    if 1 <= threshold <= 0x10_0000 then m == threshold else m == 0x10_0000
  }

  /** The bytes of the piece at an offset: a header flagged unless the piece is the last, and up to m bytes of payload. */
  predicate PieceOf(b: seq<byte>, frameType: byte, streamId: uint32, payload: seq<byte>, m: nat, offset: nat) {
    var end := Min(offset + m, |payload|);
    && offset < end
    && b == HeaderBytes(Header(frameType, if end < |payload| then 1 else 0, streamId, end - offset)) + payload[offset..end]
  }

  /**
   The threshold decides where a payload is cut: into pieces of that many bytes, or of the frame ceiling
   if it is not between one and that. Buffer i is piece i, and all but the last are full.
   */
  lemma BuffersAre(frameType: byte, streamId: uint32, payload: seq<byte>, threshold: int, m: nat)
    requires payload != [] && Cuts(threshold, m)
    ensures EncodeMessage(frameType, streamId, payload, threshold).Buffers?
    ensures var bs := EncodeMessage(frameType, streamId, payload, threshold).buffers;
            && |bs| == (|payload| + m - 1) / m
            && (forall i :: 0 <= i < |bs| ==> PieceOf(bs[i], frameType, streamId, payload, m, i * m))
            && (forall i :: 0 <= i < |bs| - 1 ==> |bs[i]| == 10 + m)
  {
    BuffersAt(frameType, streamId, payload, threshold, m);
    PiecesAre(EncodeMessage(frameType, streamId, payload, threshold).buffers, frameType, streamId, payload, m);
  }

  lemma PiecesAre(bs: seq<seq<byte>>, frameType: byte, streamId: uint32, payload: seq<byte>, m: nat)
    requires 1 <= m && Pieces(bs, frameType, streamId, payload, m)
    ensures |bs| == (|payload| + m - 1) / m
    ensures forall i :: 0 <= i < |bs| ==> PieceOf(bs[i], frameType, streamId, payload, m, i * m)
  {
    Ceiling(|payload|, m, |bs|);
    forall i | 0 <= i < |bs|
      ensures PieceOf(bs[i], frameType, streamId, payload, m, i * m)
    {
      assert PieceAt(bs, frameType, streamId, payload, m, i);
      TimesIs(i, m);
    }
  }

  lemma BuffersAt(frameType: byte, streamId: uint32, payload: seq<byte>, threshold: int, m: nat)
    requires payload != [] && Cuts(threshold, m)
    ensures EncodeMessage(frameType, streamId, payload, threshold).Buffers?
    ensures Pieces(EncodeMessage(frameType, streamId, payload, threshold).buffers, frameType, streamId, payload, m)
  {
    var fs := Fragments(frameType, streamId, payload, m);
    var bs := EncodeMessage(frameType, streamId, payload, threshold).buffers;
    FragmentsAre(frameType, streamId, payload, m);
    forall i | 0 <= i < |bs|
      ensures PieceAt(bs, frameType, streamId, payload, m, i)
      ensures i < |bs| - 1 ==> |bs[i]| == 10 + m
    {
      assert CutAt(fs, frameType, streamId, payload, m, i) && bs[i] == FrameBytes(fs[i]);
      CutIsPiece(fs, frameType, streamId, payload, m, i);
    }
  }

  lemma CutIsPiece(fs: seq<Frame>, frameType: byte, streamId: uint32, payload: seq<byte>, m: nat, i: nat)
    requires i < |fs| && CutAt(fs, frameType, streamId, payload, m, i) && Times(|fs| - 1, m) < |payload|
    ensures PieceOf(FrameBytes(fs[i]), frameType, streamId, payload, m, Times(i, m))
    ensures i < |fs| - 1 ==> |FrameBytes(fs[i])| == 10 + m
  {
    assert Times(i + 1, m) == Times(i, m) + m;
    if i < |fs| - 1 {
      TimesGrows(i + 1, |fs| - 1, m);
    }
  }

  /** All buffers but the last have this length. */
  predicate Even(bs: seq<seq<byte>>, size: nat) {
    forall i :: 0 <= i < |bs| - 1 ==> |bs[i]| == size
  }

  /** Where a buffer lies in the concatenation. */
  lemma {:induction false} ConcatAt(bs: seq<seq<byte>>, size: nat, i: nat)
    requires i < |bs| && Even(bs, size)
    ensures Times(i, size) + |bs[i]| <= |Concat(bs)| && Concat(bs)[Times(i, size)..Times(i, size) + |bs[i]|] == bs[i]
    ensures i == |bs| - 1 ==> Times(i, size) + |bs[i]| == |Concat(bs)|
    decreases i
  {
    if i > 0 {
      ConcatAt(bs[1..], size, i - 1);
      var from := Times(i - 1, size);
      assert |bs[0]| == size && bs[1..][i - 1] == bs[i];
      assert Concat(bs)[size + from..size + from + |bs[i]|] == Concat(bs[1..])[from..from + |bs[i]|];
    } else if |bs| == 1 {
      assert bs[1..] == [];
    }
  }

  /** Bytes that hold the piece at an offset from a position on, and end behind it if it is the last. */
  predicate PieceFrom(written: seq<byte>, at: nat, frameType: byte, streamId: uint32, payload: seq<byte>, m: nat, offset: nat) {
    var end := at + 10 + Min(m, |payload| - offset);
    && at <= end <= |written| && PieceOf(written[at..end], frameType, streamId, payload, m, offset)
    && (offset + m >= |payload| ==> end == |written|)
  }

  /** The bytes of a message in pieces of m bytes: piece i lies at i times (10 + m), and nothing is behind the last. */
  ghost predicate InPieces(written: seq<byte>, frameType: byte, streamId: uint32, payload: seq<byte>, m: nat) {
    forall i: nat :: Times(i, m) < |payload| ==> PieceFrom(written, Times(i, 10 + m), frameType, streamId, payload, m, Times(i, m))
  }

  lemma WrittenInPieces(frameType: byte, streamId: uint32, payload: seq<byte>, threshold: int, m: nat)
    requires payload != [] && Cuts(threshold, m)
    ensures EncodeMessage(frameType, streamId, payload, threshold).Buffers?
    ensures InPieces(Concat(EncodeMessage(frameType, streamId, payload, threshold).buffers), frameType, streamId, payload, m)
  {
    BuffersAt(frameType, streamId, payload, threshold, m);
    var bs := EncodeMessage(frameType, streamId, payload, threshold).buffers;
    forall i: nat | Times(i, m) < |payload|
      ensures PieceFrom(Concat(bs), Times(i, 10 + m), frameType, streamId, payload, m, Times(i, m))
    {
      PieceLies(bs, frameType, streamId, payload, m, i);
    }
  }

  /** Buffers that are the pieces of a payload, in order. */
  predicate Pieces(bs: seq<seq<byte>>, frameType: byte, streamId: uint32, payload: seq<byte>, m: nat) {
    && bs != [] && Times(|bs| - 1, m) < |payload| <= Times(|bs|, m)
    && (forall i :: 0 <= i < |bs| ==> PieceAt(bs, frameType, streamId, payload, m, i)) && Even(bs, 10 + m)
  }

  predicate PieceAt(bs: seq<seq<byte>>, frameType: byte, streamId: uint32, payload: seq<byte>, m: nat, i: nat)
    requires i < |bs|
  {
    PieceOf(bs[i], frameType, streamId, payload, m, Times(i, m))
  }

  lemma PieceLies(bs: seq<seq<byte>>, frameType: byte, streamId: uint32, payload: seq<byte>, m: nat, i: nat)
    requires Pieces(bs, frameType, streamId, payload, m) && Times(i, m) < |payload|
    ensures PieceFrom(Concat(bs), Times(i, 10 + m), frameType, streamId, payload, m, Times(i, m))
  {
    if i >= |bs| {
      TimesGrows(|bs|, i, m);
    }
    if i < |bs| - 1 {
      TimesGrows(i + 1, |bs| - 1, m);
    }
    assert Times(i + 1, m) == Times(i, m) + m;
    assert PieceAt(bs, frameType, streamId, payload, m, i);
    ConcatAt(bs, 10 + m, i);
    PieceThere(Concat(bs), Times(i, 10 + m), bs[i], frameType, streamId, payload, m, Times(i, m));
  }

  lemma PieceThere(written: seq<byte>, at: nat, b: seq<byte>, frameType: byte, streamId: uint32, payload: seq<byte>, m: nat, offset: nat)
    requires PieceOf(b, frameType, streamId, payload, m, offset) && at + |b| <= |written| && written[at..at + |b|] == b
    requires offset + m >= |payload| ==> at + |b| == |written|
    ensures PieceFrom(written, at, frameType, streamId, payload, m, offset)
  {
  }

  /** The number of pieces of m bytes that n bytes take, rounded up. */
  lemma Ceiling(n: nat, m: nat, c: nat)
    requires 1 <= m && 1 <= c && Times(c - 1, m) < n <= Times(c, m)
    ensures (n + m - 1) / m == c
  {
    var q, r := (n + m - 1) / m, (n + m - 1) % m;
    TimesIs(q, m);
    assert n + m - 1 == Times(q, m) + r;
    if q > c {
      TimesGrows(c, q, m);
    } else if q < c {
      TimesGrows(q, c - 1, m);
    }
  }

  lemma {:induction false} ConcatIsChainBytes(fs: seq<Frame>)
    ensures Concat(seq(|fs|, i requires 0 <= i < |fs| => FrameBytes(fs[i]))) == ChainBytes(fs)
  {
    var bs := seq(|fs|, i requires 0 <= i < |fs| => FrameBytes(fs[i]));
    if fs != [] {
      var gs := fs[1..];
      assert bs[1..] == seq(|gs|, i requires 0 <= i < |gs| => FrameBytes(gs[i]));
      ConcatIsChainBytes(gs);
    }
  }

  /**
   Splitting then assembling: for every type, id, threshold and non-empty payload the encoder's bytes,
   with anything behind them, decode to that very message and leave the rest untouched if and only if
   the payload is within MAX_STREAM_SIZE. The encoder itself does not check that bound.
   */
  lemma SplitThenAssemble(frameType: byte, streamId: uint32, payload: seq<byte>, threshold: int, rest: seq<byte>, fault: Fault)
    requires payload != []
    ensures EncodeMessage(frameType, streamId, payload, threshold).Buffers?
    ensures DecodeStream(Concat(EncodeMessage(frameType, streamId, payload, threshold).buffers) + rest, fault) ==
            if |payload| <= MAX_STREAM_SIZE then Ok(Whole(frameType, streamId, payload), rest)
            else Err(StreamTooLarge)
  {
    var size := ClampThreshold(threshold);
    var fs := Fragments(frameType, streamId, payload, size);
    FragmentsContinue(frameType, streamId, payload, size);
    ConcatIsChainBytes(fs);
    var f, tail := fs[0], ChainBytes(fs[1..]) + rest;
    Uncons(fs, frameType, streamId);
    Prepend(f, fs[1..], rest);
    DecodeFrameOfBytes(f, tail, fault);
    if |fs| == 1 {
      assert tail == rest;
    } else {
      AssembleAccepts(frameType, streamId, f.payload, fs[1..], rest, fault);
    }
  }

  datatype Message = Message(frameType: byte, streamId: uint32, payload: seq<byte>, threshold: int)

  predicate Sendable(m: Message) {
    1 <= |m.payload| <= MAX_STREAM_SIZE
  }

  /** The bytes a connection carries when the messages are written one after another. */
  function Transcript(ms: seq<Message>): seq<byte> {
    if ms == [] then []
    else
      var e := EncodeMessage(ms[0].frameType, ms[0].streamId, ms[0].payload, ms[0].threshold);
      (if e.Buffers? then Concat(e.buffers) else []) + Transcript(ms[1..])
  }

  datatype Received = Received(frames: seq<Frame>, error: Error)

  /** Reads messages until the stream fails. */
  function DecodeAll(input: seq<byte>, fault: Fault): Received
    decreases |input|
  {
    match DecodeStream(input, fault)
    case Err(e) => Received([], e)
    case Ok(f, rest) =>
      var tail := DecodeAll(rest, fault);
      Received([f] + tail.frames, tail.error)
  }

  /** The frames a receiver should see for these messages. */
  function Wholes(ms: seq<Message>): seq<Frame> {
    if ms == [] then [] else [Whole(ms[0].frameType, ms[0].streamId, ms[0].payload)] + Wholes(ms[1..])
  }

  /** Any run of messages arrives as the same list, in order, and then the clean end of the stream. */
  lemma {:induction false} TranscriptRoundTrip(ms: seq<Message>)
    requires forall m :: m in ms ==> Sendable(m)
    ensures DecodeAll(Transcript(ms), EndOfStream) == Received(Wholes(ms), Eof)
  {
    if ms != [] {
      var m := ms[0];
      assert Sendable(m);
      SplitThenAssemble(m.frameType, m.streamId, m.payload, m.threshold, Transcript(ms[1..]), EndOfStream);
      TranscriptRoundTrip(ms[1..]);
    }
  }
}
