/** The pipeline boundary: one logical message in, dispatched and released; one logical message out, in one write. */
module Codec {
  import opened Wire
  import opened Pool
  import opened Decoder
  import opened Encoder

  /** A message as the handlers behind the codec see it, or why the connection was closed instead, and whether without a report. */
  datatype Seen = Arrived(frame: Frame) | Closed(error: Error, quietly: bool)

  /** The error of a peer that has gone, or has been silent for too long. */
  predicate Quiet(e: Error) {
    match e
    case Eof => true
    case ReadError(fault) => fault == DeadlineExceeded
    case Truncated(_, _, fault) => fault == DeadlineExceeded
    case _ => false
  }

  /**
   A connection is closed without a report exactly when the peer closed it on what looks like a clean end,
   or when the deadline expires in the middle of a message or between two.
   */
  lemma QuietExactly(input: seq<byte>, fault: Fault)
    requires DecodeStream(input, fault).Err?
    ensures Quiet(DecodeStream(input, fault).error) <==>
            || (fault == EndOfStream && EndsCleanly(input))
            || (fault == DeadlineExceeded && exists fs, tail :: Splits(input, fs, tail))
  {
    RunsDryExactly(input, fault);
    CleanEndExactly(input);
    if fs, tail :| Splits(input, fs, tail) {
      assert DecodeStream(input, fault) == DecodeFrame(tail, fault);
    }
    if Starved(DecodeStream(input, fault)) {
      FaultIsTheReaders(input, fault);
    }
  }

  /** An input that runs out is reported with the reader's own fault. */
  lemma FaultIsTheReaders(input: seq<byte>, fault: Fault)
    requires Starved(DecodeStream(input, fault))
    ensures match DecodeStream(input, fault).error
            case Eof => fault == EndOfStream
            case ReadError(why) => why == fault && fault != EndOfStream
            case Truncated(_, _, why) => why == fault
            case _ => false
  {
    var fs, tail := RunsDryWitness(input, fault);
    RunsDryExactly(input, fault);
    assert DecodeStream(input, fault) == DecodeFrame(tail, fault);
  }

  /**
   Reads one message, shows it to the handlers and gives everything back: what they see is `DecodeStream`
   of the connection's bytes, and afterwards the pool has lent out exactly what it had before. Whatever
   goes wrong closes the connection, with a report unless the peer is gone or silent.
   */
  method HandleRead(r: Reader, b: Backend) returns (seen: Seen)
    requires r.Ok() && b.Valid() && r !in b.Footprint()
    modifies r, b.Footprint()
    ensures r.Ok() && b.Valid() && b.live == old(b.live)
    ensures forall x :: x in b.Footprint() ==> x in old(b.Footprint()) || fresh(x)
    ensures match DecodeStream(old(r.Rest()), r.fault)
            case Err(err) => seen == Closed(err, Quiet(err))
            case Ok(frame, rest) => seen == Arrived(frame) && r.Rest() == rest
  {
    var f, e := DecodeStreamed(r, b);
    if f == null {
      return Closed(e, Quiet(e));
    }
    seen := Arrived(Frame(f.header, Bytes(f.payload)));
    Recycle(f, b);
  }

  /**
   Reads a connection to its end through one shared pool: the handlers see every message of `DecodeAll`
   in its order, and the connection closes with its error.
   */
  method ReadAll(r: Reader, b: Backend) returns (frames: seq<Frame>, e: Error)
    requires r.Ok() && b.Valid() && r !in b.Footprint()
    modifies r, b.Footprint()
    ensures r.Ok() && b.Valid() && b.live == old(b.live)
    ensures Received(frames, e) == DecodeAll(old(r.Rest()), r.fault)
  {
    frames := [];
    ghost var all, left := DecodeAll(r.Rest(), r.fault), DecodeAll(r.Rest(), r.fault);
    while true
      invariant r.Ok() && b.Valid() && b.live == old(b.live)
      invariant forall x :: x in b.Footprint() ==> x in old(b.Footprint()) || fresh(x)
      invariant left == DecodeAll(r.Rest(), r.fault) && all == Received(frames + left.frames, left.error)
      decreases |r.Rest()|
    {
      AllOneMore(frames, r.Rest(), r.fault);
      var seen := HandleRead(r, b);
      if seen.Closed? {
        return frames, seen.error;
      }
      frames := frames + [seen.frame];
      left := DecodeAll(r.Rest(), r.fault);
    }
  }

  /** What is left to read is the next message and what is left behind it. */
  lemma AllOneMore(frames: seq<Frame>, input: seq<byte>, fault: Fault)
    ensures var got, left := DecodeStream(input, fault), DecodeAll(input, fault);
            if got.Err? then frames + left.frames == frames && left.error == got.error
            else
              var next := DecodeAll(got.rest, fault);
              |got.rest| < |input| && frames + left.frames == frames + [got.frame] + next.frames && left.error == next.error
  {
    var got, left := DecodeStream(input, fault), DecodeAll(input, fault);
    if got.Ok? {
      var next := DecodeAll(got.rest, fault);
      assert left == Received([got.frame] + next.frames, next.error);
      Regrouped(frames, [got.frame], next.frames);
    } else {
      assert frames + [] == frames;
    }
  }

  lemma Regrouped(a: seq<Frame>, b: seq<Frame>, c: seq<Frame>)
    ensures a + (b + c) == a + b + c
  {
  }

  lemma {:induction false} ConcatOneMore(bs: seq<seq<byte>>, i: nat)
    requires i < |bs|
    ensures Concat(bs[..i + 1]) == Concat(bs[..i]) + bs[i]
    decreases i
  {
    if i > 0 {
      ConcatOneMore(bs[1..], i - 1);
      assert bs[..i + 1][1..] == bs[1..][..i] && bs[..i][1..] == bs[1..][..i - 1];
    } else {
      assert bs[..1] == [bs[0]] && bs[..1][1..] == [] && bs[..0] == [];
    }
  }

  /** Joins a message's buffers for one write. */
  method JoinBuffers(bufs: seq<Slice>, ghost contents: seq<seq<byte>>) returns (joined: seq<byte>)
    requires |bufs| == |contents| && forall i :: 0 <= i < |bufs| ==> SliceOk(bufs[i]) && Bytes(bufs[i]) == contents[i]
    ensures joined == Concat(contents)
  {
    joined := [];
    for i := 0 to |bufs|
      invariant joined == Concat(contents[..i])
    {
      ConcatOneMore(contents, i);
      joined := joined + Bytes(bufs[i]);
    }
    assert contents[..|contents|] == contents;
  }

  /** Releases a message whose bytes are on the wire; other messages keep theirs. */
  method GiveBackMessage(m: EncodedMessage, b: Backend)
    requires m.Ok(b) && b.Valid()
    modifies m, b.pledges, b`parked
    ensures b.Valid() && b.live == old(b.live)
    ensures forall a :: a in old(b.pledges.holder) && old(b.pledges.holder)[a] != m ==>
                          a in b.pledges.holder && b.pledges.holder[a] == old(b.pledges.holder)[a]
  {
    ReleaseMessage(m, b);
  }

  /**
   Writes one message. An empty one is refused. Otherwise the bytes go out as one write, cut into frames
   of as many bytes as the threshold says; they decode to the same message exactly when it is within the
   stream limit, and the message's buffers are given back.
   */
  method HandleWrite(frameType: byte, streamId: uint32, payload: seq<byte>, threshold: int, b: Backend)
    returns (refused: bool, written: seq<byte>)
    requires b.Valid()
    modifies b.pledges, b.Footprint()
    ensures b.Valid() && b.live == old(b.live)
    ensures refused <==> payload == []
    ensures !refused ==> InPieces(written, frameType, streamId, payload, if 1 <= threshold <= 0x10_0000 then threshold else 0x10_0000)
    ensures !refused ==>
              forall rest, fault ::
                DecodeStream(written + rest, fault) ==
                if |payload| <= MAX_STREAM_SIZE then Ok(Whole(frameType, streamId, payload), rest) else Err(StreamTooLarge)
    ensures forall a :: a in old(b.pledges.holder) ==> a in b.pledges.holder && b.pledges.holder[a] == old(b.pledges.holder[a])
  {
    var m;
    m, refused := Encoder.EncodeMessage(frameType, streamId, payload, threshold, b);
    if refused {
      return true, [];
    }
    written := JoinBuffers(m.Buffers(), Wire.EncodeMessage(frameType, streamId, payload, threshold).buffers);
    WrittenInPieces(frameType, streamId, payload, threshold, if 1 <= threshold <= 0x10_0000 then threshold else 0x10_0000);
    GiveBackMessage(m, b);
    forall rest, fault
      ensures DecodeStream(written + rest, fault) ==
              if |payload| <= MAX_STREAM_SIZE then Ok(Whole(frameType, streamId, payload), rest) else Err(StreamTooLarge)
    {
      SplitThenAssemble(frameType, streamId, payload, threshold, rest, fault);
    }
  }
}
