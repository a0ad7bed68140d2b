/**
 The frame reader and the streaming assembler, in the one body that serves both the pooled server path
 and the plain client path (`b == null`). Their outcome is `Wire.DecodeFrame` and `Wire.DecodeStream`
 of the bytes left to read, whatever the pool held before.
 */
module Decoder {
  import opened Wire
  import opened Pool

  /** A byte stream that ends with end-of-file or a read error. */
  class Reader {
    const data: seq<byte>
    const fault: Fault
    var pos: nat

    predicate Ok()
      reads this
    {
      pos <= |data|
    }

    function Rest(): seq<byte>
      requires Ok()
      reads this
    {
      data[pos..]
    }

    constructor (data: seq<byte>, fault: Fault)
      ensures Ok() && this.data == data && this.fault == fault && Rest() == data
    {
      this.data, this.fault, pos := data, fault, 0;
    }

    /** Reads the ten header bytes, or fails having used up what there was. */
    method ReadHeader() returns (head: seq<byte>, complete: bool)
      requires Ok()
      modifies this
      ensures Ok() && (complete <==> |old(Rest())| >= HEADER_SIZE)
      ensures complete ==> head == old(Rest())[..HEADER_SIZE] && Rest() == old(Rest())[HEADER_SIZE..]
    {
      if |data| - pos < HEADER_SIZE {
        pos := |data|;
        return [], false;
      }
      head, complete := data[pos..pos + HEADER_SIZE], true;
      pos := pos + HEADER_SIZE;
    }

    /** Fills a slice from the stream; `got` bytes arrived. */
    method ReadFull(dst: Slice) returns (got: nat)
      requires Ok() && SliceOk(dst) && (dst.arr as object? != this)
      modifies this, dst.arr
      ensures Ok() && got == if dst.len <= |old(Rest())| then dst.len else |old(Rest())|
      ensures got == dst.len ==> Bytes(dst) == old(Rest())[..dst.len] && Rest() == old(Rest())[dst.len..]
    {
      got := if dst.len <= |data| - pos then dst.len else |data| - pos;
      ghost var rest := Rest();
      if dst.arr != null {
        CopyInto(dst.arr, 0, data[pos..pos + got]);
        assert dst.arr[..got] == data[pos..pos + got];
      }
      pos := pos + got;
      assert rest[got..] == data[pos..];
    }
  }

  /** Takes a frame object from the pool, or makes one. */
  method StartFrame(b: Backend?) returns (f: PooledFrame)
    requires b != null ==> b.Valid()
    modifies if b == null then {} else b.Footprint()
    ensures f.Clean() && (fresh(f) || (b != null && f in old(b.frames)))
    ensures Pool.Held(f) <==> b != null
    ensures b != null ==>
              && b.Valid() && b.live == old(b.live) + {f} && f !in old(b.live)
              && b.parked == old(b.parked) && b.owner == old(b.owner)
              && (forall g :: g in b.frames ==> g in old(b.frames))
  {
    if b != null {
      assert forall g :: g in b.frames ==> g in b.Footprint();
      f := b.AcquireFrame();
    } else {
      f := new PooledFrame();
    }
  }

  /** Gives a frame the buffer its announced length needs. */
  method StartPayload(f: PooledFrame, b: Backend?)
    requires f.payload == NIL && f.cell == null && 0 <= f.header.length <= MAX_FRAME_SIZE
    requires b != null ==> b.Valid() && f in b.live
    modifies f`payload, f`cell
    modifies if b == null then {} else {b}
    ensures SliceOk(f.payload) && f.payload.len == f.header.length
    ensures f.payload.arr != null ==> fresh(f.payload.arr) || (b != null && f.payload.arr in old(b.Footprint()))
    ensures f.cell != null ==> b != null && f.cell.buf == f.payload.arr
    ensures b == null ==> f.payload.arr != null && f.payload.arr.Length == f.header.length
    ensures b != null ==>
              && b.Valid() && b.live == old(b.live) && b.frames == old(b.frames)
              && (forall p :: p in b.parked ==> p in old(b.parked))
              && (forall a :: a in old(b.owner) ==> a in b.owner && b.owner[a] == old(b.owner)[a] && a !in f.Arrays())
              && (forall a :: a in b.owner ==> a in old(b.owner) || a in f.Arrays())
  {
    if b != null && f.header.length > 0 {
      b.AcquirePayload(f, f.header.length);
    } else if b == null {
      var buf := new byte[f.header.length];
      f.payload := Slice(buf, f.header.length);
    }
  }

  /** Releases a frame that never had a payload. */
  method GiveBack(f: PooledFrame, b: Backend?)
    requires f.payload == NIL && f.cell == null && (Pool.Held(f) <==> b != null)
    requires b != null ==> b.Valid() && f in b.live
    modifies f, b
    ensures b != null ==>
              && b.Valid() && b.live == old(b.live) - {f} && b.owner == old(b.owner) && b.frames == old(b.frames) + [f]
              && (forall p :: p in b.parked ==> p in old(b.parked))
  {
    assert f.Arrays() == {};
    Release(f, b);
  }

  method SetHeader(f: PooledFrame, h: Header, b: Backend?)
    requires b != null ==> b.Valid() && f in b.live
    modifies f`header
    ensures f.header == h && (b != null ==> b.Valid())
  {
    f.header := h;
  }

  /** Takes a frame and reads its header into it; on failure the frame is back in the pool. */
  method BeginFrame(r: Reader, b: Backend?) returns (f: PooledFrame?, e: Error)
    requires r.Ok() && (b != null ==> b.Valid() && r !in b.Footprint())
    modifies r, if b == null then {} else b.Footprint()
    ensures r.Ok()
    ensures f == null ==> DecodeFrame(old(r.Rest()), r.fault) == Err(e)
    ensures f != null ==>
              && |old(r.Rest())| >= HEADER_SIZE && r.Rest() == old(r.Rest())[HEADER_SIZE..]
              && ParseHeader(old(r.Rest())[..HEADER_SIZE]) == Parsed(f.header)
              && f.payload == NIL && f.cell == null
              && (fresh(f) || (b != null && f in old(b.frames))) && (Pool.Held(f) <==> b != null)
    ensures b != null ==>
              && b.Valid() && b.live == old(b.live) + (if f != null then {f} else {}) && (f != null ==> f !in old(b.live))
              && (forall p :: p in b.parked ==> p in old(b.parked))
              && (forall g :: g in b.frames ==> g in old(b.frames) || fresh(g))
              && (forall a :: a in old(b.owner) ==> a in b.owner && b.owner[a] == old(b.owner)[a])
  {
    var g := StartFrame(b);
    var head, complete := r.ReadHeader();
    var parsed := if complete then ParseHeader(head) else Rejected;
    if parsed.Rejected? {
      GiveBack(g, b);
      return null, if complete then FrameTooLarge else if r.fault == EndOfStream then Eof else ReadError(r.fault);
    }
    SetHeader(g, parsed.header, b);
    return g, Eof;
  }

  /** Takes a buffer for the announced payload and fills it with what is there. */
  method ReadPayload(r: Reader, f: PooledFrame, b: Backend?) returns (got: nat)
    requires r.Ok() && f.payload == NIL && f.cell == null && 0 <= f.header.length <= MAX_FRAME_SIZE
    requires b != null ==> b.Valid() && f in b.live && r !in b.Footprint()
    modifies r, f`payload, f`cell, if b == null then {} else b.Footprint()
    ensures r.Ok() && got == if f.header.length <= |old(r.Rest())| then f.header.length else |old(r.Rest())|
    ensures SliceOk(f.payload) && f.payload.len == f.header.length == old(f.header.length)
    ensures got == f.header.length ==> Bytes(f.payload) == old(r.Rest())[..got] && r.Rest() == old(r.Rest())[got..]
    ensures forall a :: a in f.Arrays() ==> fresh(a) || (b != null && a in old(b.Footprint()))
    ensures b != null ==>
              && b.Valid() && b.live == old(b.live) && b.frames == old(b.frames)
              && (forall p :: p in b.parked ==> p in old(b.parked))
              && (forall a :: a in old(b.owner) ==> a in b.owner && b.owner[a] == old(b.owner)[a] && a !in f.Arrays())
  {
    StartPayload(f, b);
    got := r.ReadFull(f.payload);
  }

  /** Reads the announced payload; a frame cut short goes back to the pool with its buffer. */
  method FinishFrame(r: Reader, f: PooledFrame, b: Backend?) returns (ok: bool, e: Error)
    requires r.Ok() && f.payload == NIL && f.cell == null && 0 <= f.header.length <= MAX_FRAME_SIZE
    requires Pool.Held(f) <==> b != null
    requires b != null ==> b.Valid() && f in b.live && r !in b.Footprint()
    modifies r, f, if b == null then {} else b.Footprint()
    ensures r.Ok() && (ok <==> |old(r.Rest())| >= old(f.header.length))
    ensures ok ==>
              && f.header == old(f.header) && SliceOk(f.payload) && Bytes(f.payload) == old(r.Rest())[..f.header.length]
              && r.Rest() == old(r.Rest())[f.header.length..] && (Pool.Held(f) <==> b != null)
              && (forall a :: a in f.Arrays() ==> fresh(a) || (b != null && a in old(b.Footprint())))
    ensures !ok ==> e == Truncated(|old(r.Rest())|, old(f.header.length), r.fault)
    ensures b != null ==>
              && b.Valid() && b.live == old(b.live) - (if ok then {} else {f})
              && (forall x :: x in b.Footprint() ==> x in old(b.Footprint()) || x == f || fresh(x))
              && (forall a :: a in old(b.owner) ==> a in b.owner && b.owner[a] == old(b.owner)[a])
  {
    var got := ReadPayload(r, f, b);
    if got < f.header.length {
      ghost var mine := f.Arrays();
      e := Truncated(got, f.header.length, r.fault);
      Release(f, b);
      assert b != null ==> forall p :: p in b.parked ==> p in old(b.parked) || p.cell.buf in mine;
      return false, e;
    }
    return true, Eof;
  }

  /** Reads exactly one frame. On failure the frame object and its buffer are back in the pool. */
  method DecodeFrameFrom(r: Reader, b: Backend?) returns (f: PooledFrame?, e: Error)
    requires r.Ok() && (b != null ==> b.Valid() && r !in b.Footprint())
    modifies r, if b == null then {} else b.Footprint()
    ensures r.Ok()
    ensures match DecodeFrame(old(r.Rest()), r.fault)
            case Err(err) => f == null && e == err
            case Ok(frame, rest) =>
              && f != null && f.header == frame.header && SliceOk(f.payload) && Bytes(f.payload) == frame.payload
              && r.Rest() == rest
    ensures f != null ==>
              && (fresh(f) || (b != null && f in old(b.frames))) && (Pool.Held(f) <==> b != null)
              && (forall a :: a in f.Arrays() ==> fresh(a) || (b != null && a in old(b.Footprint())))
    ensures b != null ==>
              && b.Valid() && b.live == old(b.live) + (if f != null then {f} else {}) && (f != null ==> f !in old(b.live))
              && (forall x :: x in b.Footprint() ==> x in old(b.Footprint()) || fresh(x))
              && (forall a :: a in old(b.owner) ==> a in b.owner && b.owner[a] == old(b.owner)[a])
  {
    var g: PooledFrame?;
    g, e := BeginFrame(r, b);
    if g == null {
      return null, e;
    }
    var ok: bool;
    ok, e := FinishFrame(r, g, b);
    return if ok then g else null, e;
  }

  /** The aggregate's array belongs to the frame being assembled. */
  ghost predicate Aggregate(f: PooledFrame, buf: Slice, b: Backend?)
    reads f, b
  {
    && SliceOk(buf) && (Pool.Held(f) <==> b != null)
    && (b != null ==> f in b.live && (f.cell != null ==> buf.len > 0) && (buf.arr != null ==> buf.arr in b.owner && b.owner[buf.arr] == f))
  }

  /** Appends a fragment to the aggregate; a grown array is entered in the ledger under the same frame. */
  method Extend(f: PooledFrame, buf: Slice, next: PooledFrame, b: Backend?) returns (buf': Slice)
    requires Aggregate(f, buf, b) && next != f && SliceOk(next.payload)
    requires b != null ==> b.Valid() && next in b.live
    requires buf.arr != null ==> buf.arr != next.payload.arr
    modifies if buf.arr == null then {} else {buf.arr}
    modifies if b == null then {} else {b}
    ensures Aggregate(f, buf', b) && Bytes(buf') == old(Bytes(buf)) + old(Bytes(next.payload))
    ensures buf'.arr == buf.arr || (buf'.arr != null && fresh(buf'.arr))
    ensures b != null ==>
              && b.Valid() && b.live == old(b.live) && b.frames == old(b.frames) && b.parked == old(b.parked)
              && (forall a :: a in old(b.owner) ==> a in b.owner && b.owner[a] == old(b.owner)[a])
  {
    buf' := Append(buf, next.payload);
    if b != null && buf'.arr != buf.arr {
      b.owner := b.owner[buf'.arr := f];
    }
  }

  datatype Progress = Failed(error: Error) | More | Last

  /** Releases a fragment that is done with; nothing else in the pool or the ledger changes hands. */
  method Recycle(next: PooledFrame, b: Backend?)
    requires Pool.Held(next) <==> b != null
    requires b != null ==> b.Valid() && next in b.live
    modifies next, b
    ensures b != null ==>
              && b.Valid() && b.live == old(b.live) - {next}
              && (forall x :: x in b.Footprint() ==> x in old(b.Footprint()) || x == next || x in old(next.Arrays()))
              && (forall a :: a in old(b.owner) && old(b.owner)[a] != next ==> a in b.owner && b.owner[a] == old(b.owner)[a])
  {
    Release(next, b);
  }

  /** What one more frame means for a message being assembled. */
  function Progressed(f: Header, acc: seq<byte>, next: Frame): Progress {
    if next.header.streamId != f.streamId then Failed(StreamIdViolation)
    else if next.header.frameType != f.frameType then Failed(FrameTypeViolation)
    else if |acc + next.payload| > MAX_STREAM_SIZE then Failed(StreamTooLarge)
    else if HasMore(next.header) then More else Last
  }

  /** A violation: the fragment and the message so far both go back to the pool. */
  method RecycleBoth(f: PooledFrame, next: PooledFrame, b: Backend?)
    requires (Pool.Held(f) <==> b != null) && (Pool.Held(next) <==> b != null) && next != f
    requires b != null ==> b.Valid() && f in b.live && next in b.live
    modifies f, next, b
    ensures b != null ==>
              && b.Valid() && b.live == old(b.live) - {next, f}
              && (forall x :: x in b.Footprint() ==> x in old(b.Footprint()) || x == f || x == next || x in old(f.Arrays()) || x in old(next.Arrays()))
  {
    Recycle(next, b);
    Recycle(f, b);
  }

  /** Appends a fragment and recycles it. */
  method AppendOnto(f: PooledFrame, buf: Slice, next: PooledFrame, b: Backend?) returns (buf': Slice)
    requires Aggregate(f, buf, b) && next != f && SliceOk(next.payload) && (Pool.Held(next) <==> b != null)
    requires b != null ==> b.Valid() && next in b.live
    requires buf.arr != null ==> buf.arr != next.payload.arr
    modifies next, b, buf.arr
    ensures Aggregate(f, buf', b) && Bytes(buf') == old(Bytes(buf)) + old(Bytes(next.payload))
    ensures buf'.arr == buf.arr || (buf'.arr != null && fresh(buf'.arr))
    ensures b != null ==>
              && b.Valid() && b.live == old(b.live) - {next}
              && (forall x :: x in b.Footprint() ==> x in old(b.Footprint()) || x == next || x in old(next.Arrays()))
  {
    buf' := Extend(f, buf, next, b);
    assert b != null ==> b.Footprint() == old(b.Footprint());
    Recycle(next, b);
  }

  /** Appends a fragment, recycles it, and gives the message up if it has grown too large. */
  method Absorb(f: PooledFrame, buf: Slice, next: PooledFrame, b: Backend?) returns (fits: bool, buf': Slice)
    requires Aggregate(f, buf, b) && next != f && SliceOk(next.payload) && (Pool.Held(next) <==> b != null)
    requires b != null ==> b.Valid() && next in b.live
    requires buf.arr != null ==> buf.arr != next.payload.arr
    modifies f, next, b, buf.arr
    ensures fits <==> |old(Bytes(buf)) + old(Bytes(next.payload))| <= MAX_STREAM_SIZE
    ensures fits ==>
              && Aggregate(f, buf', b) && Bytes(buf') == old(Bytes(buf)) + old(Bytes(next.payload))
              && f.header == old(f.header) && f.payload == old(f.payload) && f.cell == old(f.cell)
              && (buf'.arr == buf.arr || (buf'.arr != null && fresh(buf'.arr)))
    ensures b != null ==>
              && b.Valid() && b.live == old(b.live) - (if fits then {next} else {next, f})
              && (forall x :: x in b.Footprint() ==> x in old(b.Footprint()) || x == f || x == next || x in old(f.Arrays()) || x in old(next.Arrays()))
  {
    buf' := AppendOnto(f, buf, next, b);
    fits := buf'.len <= MAX_STREAM_SIZE;
    if !fits {
      Recycle(f, b);
    }
  }

  /** Checks a fragment that was read, appends it and recycles it; a violation recycles both frames. */
  method TakeFragment(f: PooledFrame, buf: Slice, next: PooledFrame, b: Backend?) returns (p: Progress, buf': Slice)
    requires Aggregate(f, buf, b) && next != f && SliceOk(next.payload) && (Pool.Held(next) <==> b != null)
    requires b != null ==> b.Valid() && next in b.live
    requires buf.arr != null ==> buf.arr != next.payload.arr
    modifies f, next, b, buf.arr
    ensures p == Progressed(old(f.header), old(Bytes(buf)), Frame(old(next.header), old(Bytes(next.payload))))
    ensures !p.Failed? ==>
              && Aggregate(f, buf', b) && Bytes(buf') == old(Bytes(buf)) + old(Bytes(next.payload))
              && f.header == old(f.header) && f.payload == old(f.payload) && f.cell == old(f.cell)
              && (buf'.arr == buf.arr || (buf'.arr != null && fresh(buf'.arr)))
    ensures b != null ==>
              && b.Valid() && b.live == old(b.live) - (if p.Failed? then {next, f} else {next})
              && (forall x :: x in b.Footprint() ==> x in old(b.Footprint()) || x == f || x == next || x in old(f.Arrays()) || x in old(next.Arrays()))
  {
    if next.header.streamId != f.header.streamId {
      RecycleBoth(f, next, b);
      return Failed(StreamIdViolation), buf;
    }
    if next.header.frameType != f.header.frameType {
      RecycleBoth(f, next, b);
      return Failed(FrameTypeViolation), buf;
    }
    var last := !HasMore(next.header);
    var fits: bool;
    fits, buf' := Absorb(f, buf, next, b);
    p := if !fits then Failed(StreamTooLarge) else if last then Last else More;
  }

  /** A live frame and its arrays are out of the pool's reach. */
  lemma LiveIsApart(f: PooledFrame, b: Backend)
    requires b.Valid() && f in b.live
    ensures f !in b.Footprint() && forall a :: a in f.Arrays() ==> a !in b.Footprint()
  {
    assert f.OwnedIn(b.owner);
  }

  /** So is the array a message is being assembled in. */
  lemma AggregateIsApart(f: PooledFrame, buf: Slice, b: Backend?)
    requires Aggregate(f, buf, b) && (b != null ==> b.Valid())
    ensures b != null ==> f !in b.Footprint() && f in b.live && (buf.arr != null ==> buf.arr !in b.Footprint())
  {
  }

  /** Reads the next frame while a message is being assembled; if that fails the message is given up. */
  method FetchFragment(r: Reader, f: PooledFrame, buf: Slice, b: Backend?) returns (next: PooledFrame?, e: Error)
    requires r.Ok() && Aggregate(f, buf, b) && (b != null ==> b.Valid() && r !in b.Footprint())
    modifies r, f, if b == null then {} else b.Footprint()
    ensures r.Ok()
    ensures match DecodeFrame(old(r.Rest()), r.fault)
            case Err(err) => next == null && e == err
            case Ok(frame, rest) =>
              && next != null && SliceOk(next.payload) && Frame(next.header, Bytes(next.payload)) == frame
              && r.Rest() == rest
    ensures Bytes(buf) == old(Bytes(buf))
    ensures next != null ==>
              && f.header == old(f.header) && f.payload == old(f.payload) && f.cell == old(f.cell) && Aggregate(f, buf, b)
              && next != f && (Pool.Held(next) <==> b != null)
              && (fresh(next) || (b != null && next in old(b.Footprint())))
              && (buf.arr != null ==> buf.arr != next.payload.arr)
              && (forall a :: a in next.Arrays() ==> fresh(a) || (b != null && a in old(b.Footprint())))
    ensures b != null && next != null ==> next !in old(b.live) && b.live == old(b.live) + {next}
    ensures b != null && next == null ==> b.live == old(b.live) - {f}
    ensures b != null ==>
              && b.Valid()
              && (forall x :: x in b.Footprint() ==> x in old(b.Footprint()) || fresh(x) || (next == null && (x == f || x in old(f.Arrays()))))
  {
    AggregateIsApart(f, buf, b);
    next, e := DecodeFrameFrom(r, b);
    assert Bytes(buf) == old(Bytes(buf)) && f.header == old(f.header) && f.payload == old(f.payload) && f.cell == old(f.cell);
    if next == null {
      Recycle(f, b);
      return;
    }
    assert next.payload.arr != null ==> next.payload.arr in next.Arrays();
    assert b != null ==> next.OwnedIn(b.owner);
  }

  /** Where a message stands that `goal` says how to finish. */
  ghost predicate Leads(p: Progress, h: Header, acc: seq<byte>, rest: seq<byte>, fault: Fault, goal: Decoded) {
    match p
    case Failed(e) => goal == Err(e)
    case More => goal == Assemble(h.frameType, h.streamId, acc, rest, fault)
    case Last => goal == Ok(Whole(h.frameType, h.streamId, acc), rest)
  }

  /** One fragment further, `Assemble` of what is left is `Assemble` of what there was. */
  lemma OneFragment(h: Header, acc: seq<byte>, input: seq<byte>, fault: Fault, got: Decoded)
    requires got == DecodeFrame(input, fault)
    ensures got.Err? ==> Assemble(h.frameType, h.streamId, acc, input, fault) == got
    ensures got.Ok? ==>
              && |got.rest| < |input|
              && Leads(Progressed(h, acc, got.frame), h, acc + got.frame.payload, got.rest, fault,
                       Assemble(h.frameType, h.streamId, acc, input, fault))
  {
  }

  /** Reads one more fragment and takes it. */
  method ReadFragment(r: Reader, f: PooledFrame, buf: Slice, b: Backend?) returns (p: Progress, buf': Slice)
    requires r.Ok() && Aggregate(f, buf, b) && (b != null ==> b.Valid() && r !in b.Footprint())
    modifies r, f, buf.arr, if b == null then {} else b.Footprint()
    ensures r.Ok()
    ensures match DecodeFrame(old(r.Rest()), r.fault)
            case Err(err) => p == Failed(err)
            case Ok(frame, rest) =>
              && p == Progressed(old(f.header), old(Bytes(buf)), frame)
              && (!p.Failed? ==> SliceOk(buf') && Bytes(buf') == old(Bytes(buf)) + frame.payload && r.Rest() == rest)
    ensures !p.Failed? ==>
              && Aggregate(f, buf', b) && f.header == old(f.header) && f.payload == old(f.payload) && f.cell == old(f.cell)
              && (buf'.arr == buf.arr || (buf'.arr != null && fresh(buf'.arr)))
    ensures b != null ==>
              && b.Valid() && b.live == old(b.live) - (if p.Failed? then {f} else {})
              && (forall x :: x in b.Footprint() ==> x in old(b.Footprint()) || fresh(x) || x == f || x in old(f.Arrays()))
  {
    var next, e := FetchFragment(r, f, buf, b);
    if next == null {
      return Failed(e), buf;
    }
    p, buf' := TakeFragment(f, buf, next, b);
  }

  /** Reads one more fragment and takes it, which brings the message one frame nearer its goal. */
  method NextFragment(r: Reader, f: PooledFrame, buf: Slice, b: Backend?) returns (p: Progress, buf': Slice)
    requires r.Ok() && Aggregate(f, buf, b) && (b != null ==> b.Valid() && r !in b.Footprint())
    modifies r, f, buf.arr, if b == null then {} else b.Footprint()
    ensures r.Ok() && SliceOk(buf')
    ensures Leads(p, old(f.header), Bytes(buf'), r.Rest(), r.fault,
                  Assemble(old(f.header).frameType, old(f.header).streamId, old(Bytes(buf)), old(r.Rest()), r.fault))
    ensures !p.Failed? ==>
              && Aggregate(f, buf', b) && f.header == old(f.header) && f.payload == old(f.payload) && f.cell == old(f.cell)
              && (buf'.arr == buf.arr || (buf'.arr != null && fresh(buf'.arr))) && |r.Rest()| < |old(r.Rest())|
    ensures b != null ==>
              && b.Valid() && b.live == old(b.live) - (if p.Failed? then {f} else {})
              && (forall x :: x in b.Footprint() ==> x in old(b.Footprint()) || fresh(x) || (p.Failed? && (x == f || x in old(f.Arrays()))))
  {
    OneFragment(f.header, Bytes(buf), r.Rest(), r.fault, DecodeFrame(r.Rest(), r.fault));
    p, buf' := ReadFragment(r, f, buf, b);
    if p.Failed? {
      buf' := NIL;
    } else if b != null {
      LiveIsApart(f, b);
    }
  }

  /** Appends fragments until the message is whole or has failed. */
  method AppendFragments(r: Reader, f: PooledFrame, b: Backend?) returns (p: Progress, buf: Slice)
    requires r.Ok() && Aggregate(f, f.payload, b) && (b != null ==> b.Valid() && r !in b.Footprint())
    modifies r, f, f.payload.arr, if b == null then {} else b.Footprint()
    ensures r.Ok() && SliceOk(buf) && p != More
    ensures Leads(p, old(f.header), Bytes(buf), r.Rest(), r.fault,
                  Assemble(old(f.header).frameType, old(f.header).streamId, old(Bytes(f.payload)), old(r.Rest()), r.fault))
    ensures p == Last ==>
              && Aggregate(f, buf, b) && (buf.arr == old(f.payload.arr) || (buf.arr != null && fresh(buf.arr)))
              && f.cell == old(f.cell) && f.header == old(f.header)
    ensures b != null ==>
              && b.Valid() && b.live == old(b.live) - (if p.Failed? then {f} else {})
              && (forall x :: x in b.Footprint() ==> x in old(b.Footprint()) || fresh(x) || (p.Failed? && (x == f || x in old(f.Arrays()))))
  {
    buf, p := f.payload, More;
    ghost var h := f.header;
    ghost var goal := Assemble(h.frameType, h.streamId, Bytes(buf), r.Rest(), r.fault);
    while p.More?
      invariant r.Ok() && SliceOk(buf) && Leads(p, h, Bytes(buf), r.Rest(), r.fault, goal)
      invariant !p.Failed? ==>
                  && Aggregate(f, buf, b) && f.header == h && f.payload == old(f.payload) && f.cell == old(f.cell)
                  && (buf.arr == old(f.payload.arr) || (buf.arr != null && fresh(buf.arr)))
      invariant b != null ==>
                  && b.Valid() && b.live == old(b.live) - (if p.Failed? then {f} else {})
                  && (forall x :: x in b.Footprint() ==> x in old(b.Footprint()) || fresh(x) || (p.Failed? && (x == f || x in old(f.Arrays()))))
      decreases p.More?, |r.Rest()|
    {
      p, buf := NextFragment(r, f, buf, b);
    }
  }

  /** The frame of the first fragment becomes the whole message. */
  method Conclude(f: PooledFrame, buf: Slice, b: Backend?)
    requires Aggregate(f, buf, b) && (b != null ==> b.Valid())
    modifies f`payload, f`header
    ensures SliceOk(f.payload) && f.payload == buf && f.cell == old(f.cell) && Frame(f.header, Bytes(f.payload)) == Whole(old(f.header).frameType, old(f.header).streamId, Bytes(buf))
    ensures Pool.Held(f) <==> b != null
    ensures b != null ==> b.Valid()
  {
    f.payload := buf;
    f.header := Header(f.header.frameType, 0, f.header.streamId, buf.len);
    if b != null {
      assert f.OwnedIn(b.owner) && f.Ok();
    }
  }

  /** Assembles a whole message in the frame of its first fragment, or gives the frame up. */
  method AssembleInto(r: Reader, f: PooledFrame, b: Backend?) returns (ok: bool, e: Error)
    requires r.Ok() && Aggregate(f, f.payload, b) && (b != null ==> b.Valid() && r !in b.Footprint())
    modifies r, f, f.payload.arr, if b == null then {} else b.Footprint()
    ensures r.Ok()
    ensures match Assemble(old(f.header).frameType, old(f.header).streamId, old(Bytes(f.payload)), old(r.Rest()), r.fault)
            case Err(err) => !ok && e == err
            case Ok(frame, rest) => ok && SliceOk(f.payload) && Frame(f.header, Bytes(f.payload)) == frame && r.Rest() == rest
    ensures ok ==> (Pool.Held(f) <==> b != null) && forall a :: a in f.Arrays() ==> a in old(f.Arrays()) || fresh(a)
    ensures b != null ==>
              && b.Valid() && b.live == old(b.live) - (if ok then {} else {f})
              && (forall x :: x in b.Footprint() ==> x in old(b.Footprint()) || fresh(x) || (!ok && (x == f || x in old(f.Arrays()))))
  {
    var p, buf := AppendFragments(r, f, b);
    if p.Failed? {
      return false, p.error;
    }
    Conclude(f, buf, b);
    return true, Eof;
  }

  /** What a first frame that was read comes to. */
  function Completed(f: Frame, rest: seq<byte>, fault: Fault): Decoded {
    if HasMore(f.header) then Assemble(f.header.frameType, f.header.streamId, f.payload, rest, fault) else Ok(f, rest)
  }

  /** A first frame is the message, or the message is assembled in it. */
  method Complete(r: Reader, f: PooledFrame, b: Backend?) returns (ok: bool, e: Error)
    requires r.Ok() && Aggregate(f, f.payload, b) && (b != null ==> b.Valid() && r !in b.Footprint())
    modifies r, f, f.payload.arr, if b == null then {} else b.Footprint()
    ensures r.Ok()
    ensures match Completed(Frame(old(f.header), old(Bytes(f.payload))), old(r.Rest()), r.fault)
            case Err(err) => !ok && e == err
            case Ok(frame, rest) => ok && SliceOk(f.payload) && Frame(f.header, Bytes(f.payload)) == frame && r.Rest() == rest
    ensures ok ==> (Pool.Held(f) <==> b != null) && forall a :: a in f.Arrays() ==> a in old(f.Arrays()) || fresh(a)
    ensures b != null ==>
              && b.Valid() && b.live == old(b.live) - (if ok then {} else {f})
              && (forall x :: x in b.Footprint() ==> x in old(b.Footprint()) || fresh(x) || (!ok && (x == f || x in old(f.Arrays()))))
  {
    if !HasMore(f.header) {
      return true, Eof;
    }
    ok, e := AssembleInto(r, f, b);
  }

  /** Reads a first frame, ready to have a message assembled in it. */
  method ReadFirst(r: Reader, b: Backend?) returns (f: PooledFrame?, e: Error)
    requires r.Ok() && (b != null ==> b.Valid() && r !in b.Footprint())
    modifies r, if b == null then {} else b.Footprint()
    ensures r.Ok()
    ensures match DecodeFrame(old(r.Rest()), r.fault)
            case Err(err) => f == null && e == err
            case Ok(frame, rest) => f != null && SliceOk(f.payload) && Frame(f.header, Bytes(f.payload)) == frame && r.Rest() == rest
    ensures f != null ==>
              && Aggregate(f, f.payload, b) && (fresh(f) || (b != null && f in old(b.frames) && f in old(b.Footprint())))
              && (f.payload.arr != null ==> fresh(f.payload.arr) || (b != null && f.payload.arr in old(b.Footprint())))
              && (forall a :: a in f.Arrays() ==> fresh(a) || (b != null && a in old(b.Footprint())))
    ensures b != null ==>
              && b.Valid() && b.live == old(b.live) + (if f != null then {f} else {})
              && (f != null ==> f !in old(b.live) && b.live - {f} == old(b.live))
              && (forall x :: x in b.Footprint() ==> x in old(b.Footprint()) || fresh(x))
  {
    f, e := DecodeFrameFrom(r, b);
    if f != null {
      assert f.payload.arr != null ==> f.payload.arr in f.Arrays();
      if b != null {
        TakenBack(old(b.live), f);
      }
    }
  }

  lemma TakenBack(live: set<PooledFrame>, f: PooledFrame)
    requires f !in live
    ensures live + {f} - {f} == live
  {
  }

  /**
   Reads one logical message. With a pool or without, and whatever was parked in it, the outcome is
   `DecodeStream` of the bytes to read; every frame taken on the way is back in the pool except the one
   returned, and no array outside the pool was written.
   */
  method DecodeStreamed(r: Reader, b: Backend?) returns (f: PooledFrame?, e: Error)
    requires r.Ok() && (b != null ==> b.Valid() && r !in b.Footprint())
    modifies r, if b == null then {} else b.Footprint()
    ensures r.Ok()
    ensures match DecodeStream(old(r.Rest()), r.fault)
            case Err(err) => f == null && e == err
            case Ok(frame, rest) => f != null && SliceOk(f.payload) && Frame(f.header, Bytes(f.payload)) == frame && r.Rest() == rest
    ensures f != null ==>
              && (fresh(f) || (b != null && f in old(b.frames))) && (Pool.Held(f) <==> b != null)
              && (forall a :: a in f.Arrays() ==> fresh(a) || (b != null && a in old(b.Footprint())))
    ensures b != null ==>
              && b.Valid() && b.live == old(b.live) + (if f != null then {f} else {}) && (f != null ==> f !in old(b.live))
              && (forall x :: x in b.Footprint() ==> x in old(b.Footprint()) || fresh(x))
  {
    var first: PooledFrame?;
    first, e := ReadFirst(r, b);
    if first == null {
      return null, e;
    }
    var ok: bool;
    ok, e := Complete(r, first, b);
    f := if ok then first else null;
  }
}
