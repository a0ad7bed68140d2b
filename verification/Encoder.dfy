/**
 The outbound side of the framing path: one logical message becomes one buffer, or one buffer per
 fragment, each taken from the pool or allocated. With any pool contents or none the bytes are
 `Wire.EncodeMessage`; until its release a message's buffers are in no pool and in no frame.
 */
module Encoder {
  import opened Wire
  import opened Pool

  /** The buffers hold these frames, in order. */
  ghost predicate Carries(bufs: seq<Slice>, fs: seq<Frame>)
    requires forall i :: 0 <= i < |bufs| ==> SliceOk(bufs[i])
    reads set i | 0 <= i < |bufs| :: bufs[i].arr
  {
    |bufs| == |fs| && forall i :: 0 <= i < |bufs| ==> Bytes(bufs[i]) == FrameBytes(fs[i])
  }

  /** Buffers that lie in arrays of their own, each from the cell beside it if there is one. */
  ghost predicate Boxed(bufs: seq<Slice>, cells: seq<Cell?>) {
    && |bufs| == |cells|
    && (forall i :: 0 <= i < |bufs| ==> SliceOk(bufs[i]) && bufs[i].arr != null && (cells[i] != null ==> cells[i].buf == bufs[i].arr))
    && (forall i, j :: 0 <= i < j < |bufs| ==> bufs[i].arr != bufs[j].arr)
  }

  /** One message's wire form: a lone buffer, or the fragments' buffers beside the cells they came from. */
  class EncodedMessage {
    var buf: Slice
    var cell: Cell?
    var bufs: seq<Slice>
    var cells: seq<Cell?>

    constructor ()
      ensures buf == NIL && cell == null && bufs == [] && cells == []
    {
      buf, cell, bufs, cells := NIL, null, [], [];
    }

    function Buffers(): seq<Slice>
      reads this
    {
      if buf.arr != null then [buf] else bufs
    }

    function Cells(): seq<Cell?>
      reads this
    {
      if buf.arr != null then [cell] else cells
    }

    /** The pool's ledger lists this message as the holder of every buffer it carries. */
    ghost predicate Ok(b: Backend?)
      reads this, b, if b == null then {} else {b.pledges}
    {
      && Boxed(Buffers(), Cells()) && (buf.arr != null ==> bufs == [] && cells == [])
      && (b != null ==> forall i :: 0 <= i < |Buffers()| ==> Buffers()[i].arr in b.pledges.holder && b.pledges.holder[Buffers()[i].arr] == this)
    }
  }

  /** Takes a buffer for `total` bytes: a parked or new one of a class, or an exact one. */
  method TakeBuffer(total: nat, b: Backend?) returns (buf: Slice, cell: Cell?)
    requires b != null ==> b.Valid()
    requires total > 0
    modifies if b == null then {} else {b}
    ensures buf.arr != null && SliceOk(buf) && buf.len == total && (cell != null ==> b != null && cell.buf == buf.arr)
    ensures fresh(buf.arr) || (b != null && buf.arr in old(b.Footprint()))
    ensures cell == null <==> b == null || total > MAX_FRAME_SIZE
    ensures cell == null ==> fresh(buf.arr) && buf.arr.Length == total && (b != null ==> b.parked == old(b.parked))
    ensures cell != null ==>
              exists idx: nat :: Serves(idx, total) &&
                                 (TakenOut(old(b.parked), b.parked, idx, cell) ||
                                  (b.parked == old(b.parked) && fresh(buf.arr) && buf.arr.Length == CLASSES[idx]))
    ensures b != null ==>
              && b.Valid() && b.live == old(b.live) && b.frames == old(b.frames) && b.owner == old(b.owner) && b.Unowned(buf.arr)
              && (forall p :: p in b.parked ==> p in old(b.parked) && p.cell.buf != buf.arr)
  {
    if b != null {
      var idx := ClassIndexForSize(total);
      if idx >= 0 {
        assert Serves(idx, total);
        cell := b.GetPayload(idx);
        return Slice(cell.buf, total), cell;
      }
    }
    var arr := new byte[total];
    return Slice(arr, total), null;
  }

  /** Writes one frame into a buffer of exactly its size. */
  method FillFrame(buf: Slice, h: Header, payload: seq<byte>)
    requires buf.arr != null && SliceOk(buf) && buf.len == HEADER_SIZE + |payload|
    modifies buf.arr
    ensures Bytes(buf) == HeaderBytes(h) + payload
  {
    EncodeHeaderTo(buf.arr, h);
    assert buf.arr[..HEADER_SIZE] == HeaderBytes(h);
    CopyInto(buf.arr, HEADER_SIZE, payload);
  }

  method EncodeFrameInto(b: Backend?, frameType: byte, streamId: uint32, payload: seq<byte>, flags: byte)
    returns (buf: Slice, cell: Cell?)
    requires |payload| <= MAX_FRAME_SIZE && (b != null ==> b.Valid())
    modifies if b == null then {} else b.Footprint()
    ensures buf.arr != null && SliceOk(buf) && (cell != null ==> b != null && cell.buf == buf.arr)
    ensures Bytes(buf) == FrameBytes(Frame(Header(frameType, flags, streamId, |payload|), payload))
    ensures fresh(buf.arr) || (b != null && buf.arr in old(b.Footprint()))
    ensures b != null ==>
              && b.Valid() && b.live == old(b.live) && b.frames == old(b.frames) && b.owner == old(b.owner) && b.Unowned(buf.arr)
              && (forall p :: p in b.parked ==> p in old(b.parked) && p.cell.buf != buf.arr)
  {
    buf, cell := TakeBuffer(HEADER_SIZE + |payload|, b);
    FillFrame(buf, Header(frameType, flags, streamId, |payload|), payload);
  }

  /** A message's buffers are out of the pool's reach. */
  lemma MessageIsApart(m: EncodedMessage, b: Backend)
    requires m.Ok(b) && b.Valid()
    ensures forall i :: 0 <= i < |m.Buffers()| ==> m.Buffers()[i].arr !in b.Footprint()
  {
    forall i | 0 <= i < |m.Buffers()|
      ensures m.Buffers()[i].arr !in b.Footprint()
    {
      assert m.Buffers()[i].arr in b.pledges.holder;
    }
  }

  /** What every encoding step leaves alone. */
  twostate predicate Undisturbed(b: Backend, new m: EncodedMessage)
    reads b, b.pledges
  {
    && b.live == old(b.live) && b.frames == old(b.frames) && b.owner == old(b.owner)
    && (forall a :: a in old(b.pledges.holder) ==> a in b.pledges.holder && b.pledges.holder[a] == old(b.pledges.holder[a]))
    && (forall a :: a in b.pledges.holder ==> a in old(b.pledges.holder) || b.pledges.holder[a] == m)
    && b.Footprint() <= old(b.Footprint())
  }

  /** Gives a message one more buffer and enters it in the ledger. */
  method Attach(m: EncodedMessage, b: Backend?, buf: Slice, cell: Cell?)
    requires m.Ok(b) && m.buf == NIL
    requires SliceOk(buf) && buf.arr != null && (cell != null ==> cell.buf == buf.arr)
    requires forall i :: 0 <= i < |m.bufs| ==> m.bufs[i].arr != buf.arr
    requires b != null ==> b.Valid() && b.Unowned(buf.arr) && forall p :: p in b.parked ==> p.cell.buf != buf.arr
    modifies m, if b == null then {} else {b.pledges}
    ensures m.Ok(b) && m.buf == NIL && m.bufs == old(m.bufs) + [buf]
    ensures b != null ==> b.Valid() && b.pledges.holder == old(b.pledges.holder)[buf.arr := m]
  {
    if b != null {
      b.pledges.holder := b.pledges.holder[buf.arr := m];
    }
    m.bufs, m.cells := m.bufs + [buf], m.cells + [cell];
  }

  lemma CarriesOneMore(bufs: seq<Slice>, fs: seq<Frame>, buf: Slice, f: Frame)
    requires (forall i :: 0 <= i < |bufs| ==> SliceOk(bufs[i])) && SliceOk(buf)
    requires Carries(bufs, fs) && Bytes(buf) == FrameBytes(f)
    ensures Carries(bufs + [buf], fs + [f])
  {
  }

  /** Encodes a fragment into a buffer beside those the message has already. */
  method EncodeBeside(m: EncodedMessage, b: Backend?, f: Frame, ghost done: seq<Frame>) returns (buf: Slice, cell: Cell?)
    requires f.header.length == |f.payload| <= MAX_FRAME_SIZE && (b != null ==> b.Valid())
    requires m.Ok(b) && m.buf == NIL && Carries(m.bufs, done)
    modifies if b == null then {} else b.Footprint()
    ensures m.Ok(b) && unchanged(m) && Carries(m.bufs, done)
    ensures SliceOk(buf) && buf.arr != null && Bytes(buf) == FrameBytes(f) && (cell != null ==> cell.buf == buf.arr)
    ensures forall i :: 0 <= i < |m.bufs| ==> m.bufs[i].arr != buf.arr
    ensures b != null ==> b.Valid() && b.Unowned(buf.arr) && forall p :: p in b.parked ==> p.cell.buf != buf.arr
    ensures b != null ==>
              && b.live == old(b.live) && b.frames == old(b.frames) && b.owner == old(b.owner) && unchanged(b.pledges)
              && b.Footprint() <= old(b.Footprint())
  {
    if b != null {
      MessageIsApart(m, b);
    }
    buf, cell := EncodeFrameInto(b, f.header.frameType, f.header.streamId, f.payload, f.header.flags);
  }

  /** Encodes one more fragment of a message. */
  method AddFragment(m: EncodedMessage, b: Backend?, f: Frame, ghost done: seq<Frame>)
    requires f.header.length == |f.payload| <= MAX_FRAME_SIZE && (b != null ==> b.Valid())
    requires m.Ok(b) && m.buf == NIL && Carries(m.bufs, done)
    modifies m, if b == null then {} else {b.pledges}, if b == null then {} else b.Footprint()
    ensures m.Ok(b) && m.buf == NIL
    ensures Carries(m.bufs, done + [f])
    ensures b != null ==> b.Valid() && Undisturbed(b, m)
  {
    var buf, cell := EncodeBeside(m, b, f, done);
    ghost var bufs := m.bufs;
    Attach(m, b, buf, cell);
    assert b != null ==> Undisturbed(b, m);
    assert Carries(m.bufs, done + [f]) by {
      CarriesOneMore(bufs, done, buf, f);
    }
  }

  /** What the fragment loop has done and what is left of it: nothing once the payload is used up. */
  ghost predicate Splitting(frameType: byte, streamId: uint32, payload: seq<byte>, size: nat, offset: nat, done: seq<Frame>)
    requires 1 <= size && offset <= |payload|
  {
    Fragments(frameType, streamId, payload, size) ==
    done + (if offset == |payload| then [] else Fragments(frameType, streamId, payload[offset..], size))
  }

  lemma SplitOneMore(frameType: byte, streamId: uint32, payload: seq<byte>, size: nat, offset: nat, end: nat, done: seq<Frame>)
    requires 1 <= size && offset < |payload| && end == (if offset + size > |payload| then |payload| else offset + size)
    requires Splitting(frameType, streamId, payload, size, offset, done)
    ensures Splitting(frameType, streamId, payload, size, end, done + [Piece(frameType, streamId, payload, offset, end)])
  {
    var left := payload[offset..];
    if end == |payload| {
      assert payload[offset..end] == left;
    } else {
      assert left[..size] == payload[offset..end] && left[size..] == payload[end..];
      assert Fragments(frameType, streamId, left, size) ==
             [Piece(frameType, streamId, payload, offset, end)] + Fragments(frameType, streamId, payload[end..], size);
    }
  }

  /** Cuts a payload into fragments, in order, each in a buffer of its own. */
  method EncodeFragments(m: EncodedMessage, b: Backend?, frameType: byte, streamId: uint32, payload: seq<byte>, size: nat)
    requires 1 <= size <= MAX_FRAME_SIZE && |payload| > 0 && (b != null ==> b.Valid())
    requires m.Ok(b) && m.buf == NIL && m.bufs == []
    modifies m, if b == null then {} else {b.pledges}, if b == null then {} else b.Footprint()
    ensures m.Ok(b) && m.buf == NIL && Carries(m.bufs, Fragments(frameType, streamId, payload, size))
    ensures b != null ==> b.Valid() && Undisturbed(b, m)
  {
    var offset := 0;
    ghost var done: seq<Frame> := [];
    assert payload[0..] == payload;
    while offset < |payload|
      invariant offset <= |payload| && Splitting(frameType, streamId, payload, size, offset, done)
      invariant m.Ok(b) && m.buf == NIL && Carries(m.bufs, done)
      invariant b != null ==> b.Valid() && Undisturbed(b, m)
    {
      var end := offset + size;
      if end > |payload| {
        end := |payload|;
      }
      var piece := Piece(frameType, streamId, payload, offset, end);
      AddFragment(m, b, piece, done);
      SplitOneMore(frameType, streamId, payload, size, offset, end, done);
      done := done + [piece];
      offset := end;
    }
  }

  /** Gives a message its lone buffer and enters it in the ledger. */
  method Settle(m: EncodedMessage, b: Backend?, buf: Slice, cell: Cell?)
    requires m.Ok(b) && m.buf == NIL && m.bufs == []
    requires SliceOk(buf) && buf.arr != null && (cell != null ==> cell.buf == buf.arr)
    requires b != null ==> b.Valid() && b.Unowned(buf.arr) && forall p :: p in b.parked ==> p.cell.buf != buf.arr
    modifies m, if b == null then {} else {b.pledges}
    ensures m.Ok(b) && m.Buffers() == [buf]
    ensures b != null ==> b.Valid() && b.pledges.holder == old(b.pledges.holder)[buf.arr := m]
  {
    if b != null {
      b.pledges.holder := b.pledges.holder[buf.arr := m];
    }
    m.buf, m.cell := buf, cell;
  }

  /** Encodes a payload of at most one frame into the lone buffer. */
  method EncodeSingle(m: EncodedMessage, b: Backend?, frameType: byte, streamId: uint32, payload: seq<byte>)
    requires 0 < |payload| <= MAX_FRAME_SIZE && (b != null ==> b.Valid())
    requires m.Ok(b) && m.buf == NIL && m.bufs == []
    modifies m, if b == null then {} else {b.pledges}, if b == null then {} else b.Footprint()
    ensures m.Ok(b) && Carries(m.Buffers(), [Whole(frameType, streamId, payload)])
    ensures b != null ==> b.Valid() && Undisturbed(b, m)
  {
    var buf, cell := EncodeFrameInto(b, frameType, streamId, payload, 0);
    Settle(m, b, buf, cell);
  }

  /**
   Encodes one logical message. With a pool or without, and whatever was parked in it, the buffers are
   those of `Wire.EncodeMessage`; the ledger lists them under the message and nothing else changes hands.
   */
  method EncodeMessage(frameType: byte, streamId: uint32, payload: seq<byte>, threshold: int, b: Backend?)
    returns (m: EncodedMessage, refused: bool)
    requires b != null ==> b.Valid()
    modifies if b == null then {} else {b.pledges}, if b == null then {} else b.Footprint()
    ensures fresh(m) && m.Ok(b) && (refused <==> Wire.EncodeMessage(frameType, streamId, payload, threshold) == Refused(EmptyFrame))
    ensures refused ==> m.Buffers() == []
    ensures !refused ==>
              && Wire.EncodeMessage(frameType, streamId, payload, threshold).Buffers?
              && |m.Buffers()| == |Wire.EncodeMessage(frameType, streamId, payload, threshold).buffers|
              && (forall i :: 0 <= i < |m.Buffers()| ==> Bytes(m.Buffers()[i]) == Wire.EncodeMessage(frameType, streamId, payload, threshold).buffers[i])
    ensures b != null ==> b.Valid() && Undisturbed(b, m)
  {
    m := new EncodedMessage();
    var size := if threshold <= 0 || threshold > MAX_FRAME_SIZE then MAX_FRAME_SIZE else threshold;
    if |payload| == 0 {
      return m, true;
    }
    refused := false;
    if |payload| <= size {
      EncodeSingle(m, b, frameType, streamId, payload);
    } else {
      EncodeFragments(m, b, frameType, streamId, payload, size);
    }
  }

  /** The arrays of some buffers. */
  ghost function ArraysOf(bufs: seq<Slice>): set<array<byte>> {
    set i | 0 <= i < |bufs| && bufs[i].arr != null :: bufs[i].arr
  }

  /** Clears a message and takes its buffers out of the ledger. */
  method Withdraw(m: EncodedMessage, b: Backend) returns (bufs: seq<Slice>, cells: seq<Cell?>)
    requires m.Ok(b) && b.Valid()
    modifies m, b.pledges
    ensures b.Valid() && bufs == old(m.Buffers()) && cells == old(m.Cells()) && Boxed(bufs, cells)
    ensures m.Buffers() == [] && m.Ok(b) && b.pledges.holder == old(b.pledges.holder) - ArraysOf(bufs)
    ensures Loose(b, bufs, 0)
  {
    bufs, cells := m.Buffers(), m.Cells();
    forall i | 0 <= i < |bufs|
      ensures bufs[i].arr in b.pledges.holder && bufs[i].arr !in b.owner && bufs[i].arr in ArraysOf(bufs)
    {
    }
    b.pledges.holder := b.pledges.holder - ArraysOf(bufs);
    m.buf, m.cell, m.bufs, m.cells := NIL, null, [], [];
  }

  /** The arrays that are given back, in order: each fragment's that came from a cell, and a lone one in any case. */
  function Given(bufs: seq<Slice>, cells: seq<Cell?>, lone: bool): (given: seq<(array<byte>, Cell?)>)
    requires |bufs| == |cells| && forall i :: 0 <= i < |bufs| ==> bufs[i].arr != null
  {
    if bufs == [] then []
    else
      var k := |bufs| - 1;
      Given(bufs[..k], cells[..k], lone) + if lone || cells[k] != null then [(bufs[k].arr, cells[k])] else []
  }

  /** Each of the arrays parked in the class its capacity serves, one after the other. */
  predicate AllPutBack(was: seq<Parked>, now: seq<Parked>, given: seq<(array<byte>, Cell?)>)
    decreases |given|
  {
    if given == [] then now == was
    else
      var (arr, cell) := given[|given| - 1];
      AllPutBack(was, Before(now, arr), given[..|given| - 1]) && PutBack(Before(now, arr), now, arr, cell)
  }

  /** Parks one more array. */
  method ParkOne(b: Backend, buf: Slice, cell: Cell?, ghost was: seq<Parked>, ghost given: seq<(array<byte>, Cell?)>)
    requires b.Valid() && buf.arr != null && b.Unowned(buf.arr) && (cell != null ==> cell.buf == buf.arr)
    requires buf.arr !in ParkedArrays(b.parked) && AllPutBack(was, b.parked, given)
    modifies b`parked
    ensures b.Valid() && AllPutBack(was, b.parked, given + [(buf.arr, cell)])
    ensures ParkedArrays(b.parked) <= old(ParkedArrays(b.parked)) + {buf.arr}
  {
    ghost var parked := b.parked;
    b.PutPayloadArray(buf.arr, cell);
    OneMorePutBack(was, parked, b.parked, given, buf.arr, cell);
    forall a | a in ParkedArrays(b.parked)
      ensures a in ParkedArrays(parked) + {buf.arr}
    {
      var p :| p in b.parked && p.cell.buf == a;
      PutBackAdds(parked, b.parked, buf.arr, cell, p);
    }
  }

  lemma PutBackAdds(was: seq<Parked>, now: seq<Parked>, arr: array<byte>, cell: Cell?, p: Parked)
    requires PutBack(was, now, arr, cell) && p in now
    ensures p in was || p.cell.buf == arr
  {
  }

  /** Buffers that no frame and no message owns and that are not parked, from one of them on. */
  ghost predicate Loose(b: Backend, bufs: seq<Slice>, from: nat)
    reads b, b.pledges
  {
    forall k :: from <= k < |bufs| ==> bufs[k].arr != null && b.Unowned(bufs[k].arr) && bufs[k].arr !in ParkedArrays(b.parked)
  }

  /** The arrays that are parked. */
  ghost function ParkedArrays(parked: seq<Parked>): set<array<byte>> {
    set p | p in parked :: p.cell.buf
  }

  /** Parks a lone buffer, or the buffers that came from cells. */
  method ParkAll(b: Backend, bufs: seq<Slice>, cells: seq<Cell?>, lone: bool)
    requires b.Valid() && Boxed(bufs, cells) && Loose(b, bufs, 0)
    modifies b`parked
    ensures b.Valid() && AllPutBack(old(b.parked), b.parked, Given(bufs, cells, lone))
    ensures forall p :: p in b.parked ==> p in old(b.parked) || p.cell.buf in ArraysOf(bufs)
  {
    for i := 0 to |bufs|
      invariant b.Valid() && Loose(b, bufs, i)
      invariant AllPutBack(old(b.parked), b.parked, Given(bufs[..i], cells[..i], lone))
    {
      OneMoreGiven(bufs, cells, lone, i);
      if lone || cells[i] != null {
        ParkOne(b, bufs[i], cells[i], old(b.parked), Given(bufs[..i], cells[..i], lone));
      }
    }
    assert bufs[..|bufs|] == bufs && cells[..|bufs|] == cells;
    PutBackAreGiven(old(b.parked), b.parked, Given(bufs, cells, lone));
    GivenAreTheirs(bufs, cells, lone);
  }

  lemma {:induction false} PutBackAreGiven(was: seq<Parked>, now: seq<Parked>, given: seq<(array<byte>, Cell?)>)
    requires AllPutBack(was, now, given)
    ensures forall p :: p in now ==> p in was || exists k :: 0 <= k < |given| && given[k].0 == p.cell.buf
    decreases |given|
  {
    if given != [] {
      var front, arr := given[..|given| - 1], given[|given| - 1].0;
      PutBackAreGiven(was, Before(now, arr), front);
      forall p | p in now && p !in was
        ensures exists k :: 0 <= k < |given| && given[k].0 == p.cell.buf
      {
        if p in Before(now, arr) {
          var k :| 0 <= k < |front| && front[k].0 == p.cell.buf;
          assert given[k] == front[k];
        } else {
          assert given[|given| - 1].0 == p.cell.buf;
        }
      }
    }
  }

  lemma {:induction false} GivenAreTheirs(bufs: seq<Slice>, cells: seq<Cell?>, lone: bool)
    requires |bufs| == |cells| && forall i :: 0 <= i < |bufs| ==> bufs[i].arr != null
    ensures forall k :: 0 <= k < |Given(bufs, cells, lone)| ==> Given(bufs, cells, lone)[k].0 in ArraysOf(bufs)
    decreases |bufs|
  {
    if bufs != [] {
      var n := |bufs| - 1;
      GivenAreTheirs(bufs[..n], cells[..n], lone);
      assert bufs[n].arr in ArraysOf(bufs);
      assert ArraysOf(bufs[..n]) <= ArraysOf(bufs);
    }
  }

  lemma OneMoreGiven(bufs: seq<Slice>, cells: seq<Cell?>, lone: bool, i: nat)
    requires i < |bufs| == |cells| && forall k :: 0 <= k < |bufs| ==> bufs[k].arr != null
    ensures Given(bufs[..i + 1], cells[..i + 1], lone) ==
            if lone || cells[i] != null then Given(bufs[..i], cells[..i], lone) + [(bufs[i].arr, cells[i])]
            else Given(bufs[..i], cells[..i], lone)
  {
    assert bufs[..i + 1][..i] == bufs[..i] && cells[..i + 1][..i] == cells[..i];
  }

  lemma OneMorePutBack(was: seq<Parked>, mid: seq<Parked>, now: seq<Parked>, given: seq<(array<byte>, Cell?)>, arr: array<byte>, cell: Cell?)
    requires AllPutBack(was, mid, given) && PutBack(mid, now, arr, cell)
    ensures AllPutBack(was, now, given + [(arr, cell)])
  {
    assert (given + [(arr, cell)])[..|given|] == given && Before(now, arr) == mid;
  }

  /**
   Returns a message's buffers to the pool, a lone buffer in any case and a fragment's only if it came
   from a cell. The message is cleared, so a second call parks nothing.
   */
  method ReleaseMessage(m: EncodedMessage, b: Backend)
    requires m.Ok(b) && b.Valid()
    modifies m, b.pledges, b`parked
    ensures b.Valid() && m.Ok(b) && m.Buffers() == []
    ensures b.pledges.holder == old(b.pledges.holder) - ArraysOf(old(m.Buffers()))
    ensures forall p :: p in b.parked ==> p in old(b.parked) || p.cell.buf in ArraysOf(old(m.Buffers()))
    ensures AllPutBack(old(b.parked), b.parked, Given(old(m.Buffers()), old(m.Cells()), old(m.buf.arr) != null))
    ensures old(m.Buffers()) == [] ==> b.parked == old(b.parked)
  {
    var lone := m.buf.arr != null;
    var bufs, cells := Withdraw(m, b);
    ParkAll(b, bufs, cells, lone);
  }

  /**
   Between any two operations: a parked array is in no live frame and no unreleased message, two owners
   share no array, no array is parked twice, and each is large enough for the class it is parked in.
   */
  lemma NothingShared(b: Backend, f: PooledFrame, g: PooledFrame, m: EncodedMessage, n: EncodedMessage)
    requires b.Valid() && f in b.live && g in b.live && f != g && m.Ok(b) && n.Ok(b) && m != n
    ensures f.Arrays() !! g.Arrays() && f.Arrays() !! ArraysOf(m.Buffers()) && ArraysOf(m.Buffers()) !! ArraysOf(n.Buffers())
    ensures forall i :: 0 <= i < |b.parked| ==>
                          && b.parked[i].cell.buf !in f.Arrays() + ArraysOf(m.Buffers())
                          && CLASSES[b.parked[i].idx] <= b.parked[i].cell.buf.Length
                          && (forall j :: 0 <= j < i ==> b.parked[j].cell.buf != b.parked[i].cell.buf)
  {
    assert f.OwnedIn(b.owner) && g.OwnedIn(b.owner);
    forall a | a in ArraysOf(m.Buffers())
      ensures a in b.pledges.holder && b.pledges.holder[a] == m
    {
    }
    forall a | a in ArraysOf(n.Buffers())
      ensures a in b.pledges.holder && b.pledges.holder[a] == n
    {
    }
  }
}
