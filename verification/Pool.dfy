/**
 The recycle side of the framing path: size-classed buffers and pooled frames, over real arrays.

 A pool is shared by every connection. Its ledger says which array belongs to which live frame or
 message, and the pool's invariant is that no array is both parked and owned, none is parked twice, and
 each parked buffer is large enough for its class.
 */
module Pool {
  import opened Wire

  const CLASSES: seq<nat> := [0x100, 0x400, 0x1000, 0x4000, 0x1_0000, 0x4_0000, 0x10_0000]

  /** The smallest class that holds `size` bytes. */
  method ClassIndexForSize(size: int) returns (idx: int)
    ensures idx == -1 <==> size <= 0 || size > MAX_FRAME_SIZE
    ensures idx != -1 ==> 0 <= idx < |CLASSES| && size <= CLASSES[idx] && forall j :: 0 <= j < idx ==> CLASSES[j] < size
  {
    if size <= 0 {
      return -1;
    }
    for i := 0 to |CLASSES|
      invariant forall j :: 0 <= j < i ==> CLASSES[j] < size
    {
      if size <= CLASSES[i] {
        return i;
      }
    }
    assert CLASSES[6] < size;
    return -1;
  }

  /** The largest class a buffer of this capacity can serve; none if it is too small or outgrew them all. */
  method ClassIndexForCap(cap: nat) returns (idx: int)
    ensures idx == -1 <==> cap < 0x100 || cap > MAX_FRAME_SIZE
    ensures idx != -1 ==> 0 <= idx < |CLASSES| && CLASSES[idx] <= cap && forall j :: idx < j < |CLASSES| ==> cap < CLASSES[j]
  {
    if cap < CLASSES[0] || cap > CLASSES[|CLASSES| - 1] {
      return -1;
    }
    idx := -1;
    for i := 0 to |CLASSES|
      invariant -1 <= idx < i && (i > 0 ==> idx == i - 1)
      invariant idx >= 0 ==> CLASSES[idx] <= cap
    {
      if CLASSES[i] > cap {
        assert forall j :: i <= j < |CLASSES| ==> CLASSES[i] <= CLASSES[j];
        break;
      }
      idx := i;
    }
  }

  /** The smallest class that holds a size. */
  predicate Serves(idx: nat, size: nat) {
    idx < |CLASSES| && 1 <= size <= CLASSES[idx] && (idx > 0 ==> CLASSES[idx - 1] < size)
  }

  /** The largest class a capacity serves, unless it is too large for any. */
  predicate Parks(cap: nat, idx: nat) {
    idx < |CLASSES| && CLASSES[idx] <= cap <= CLASSES[|CLASSES| - 1] && (idx + 1 < |CLASSES| ==> cap < CLASSES[idx + 1])
  }

  // ---------------------------------------------------------------- slices

  /** A slice that starts at its array's first byte; its capacity is the array's length. */
  datatype Slice = Slice(arr: array?<byte>, len: nat)

  const NIL := Slice(null, 0)

  predicate SliceOk(s: Slice) {
    if s.arr == null then s.len == 0 else s.len <= s.arr.Length
  }

  function Bytes(s: Slice): seq<byte>
    requires SliceOk(s)
    reads s.arr
  {
    if s.arr == null then [] else s.arr[..s.len]
  }

  /** Same array, as far as two slices can tell: an empty one has no first element to compare. */
  predicate SameBacking(a: Slice, b: array<byte>) {
    a.len > 0 && b.Length > 0 && a.arr == b
  }

  /** Writes bytes into an array from a position on. */
  method CopyInto(dst: array<byte>, at: nat, src: seq<byte>)
    requires at + |src| <= dst.Length
    modifies dst
    ensures dst[..] == old(dst[..at]) + src + old(dst[at + |src|..])
  {
    ghost var was := dst[..];
    for i := 0 to |src|
      invariant dst[..] == was[..at] + src[..i] + was[at + i..]
    {
      dst[at + i] := src[i];
    }
  }

  /** Go's `append`: in place while the capacity lasts, otherwise into a larger fresh array. */
  method Append(dst: Slice, src: Slice) returns (r: Slice)
    requires SliceOk(dst) && SliceOk(src)
    requires dst.arr != src.arr || dst.arr == null
    modifies if dst.arr == null then {} else {dst.arr}
    ensures SliceOk(r) && Bytes(r) == old(Bytes(dst)) + old(Bytes(src))
    ensures r.arr == dst.arr || (r.arr != null && fresh(r.arr))
    ensures r.len == dst.len + src.len
  {
    if src.arr == null || src.len == 0 {
      return dst;
    }
    var need := dst.len + src.len;
    if dst.arr != null && need <= dst.arr.Length {
      CopyInto(dst.arr, dst.len, src.arr[..src.len]);
      return Slice(dst.arr, need);
    }
    var cap: nat :| cap >= need;
    var grown := new byte[cap];
    if dst.arr != null {
      CopyInto(grown, 0, dst.arr[..dst.len]);
    }
    CopyInto(grown, dst.len, src.arr[..src.len]);
    return Slice(grown, need);
  }

  // ---------------------------------------------------------------- headers in buffers

  method PutUint32(dst: array<byte>, at: nat, v: uint32)
    requires at + WORD <= dst.Length
    modifies dst
    ensures dst[..] == old(dst[..at]) + BigEndian(v, WORD) + old(dst[at + WORD..])
  {
    var b3 := v % 0x100;
    var b2 := v / 0x100 % 0x100;
    var b1 := v / 0x100 / 0x100 % 0x100;
    var b0 := v / 0x100 / 0x100 / 0x100 % 0x100;
    assert BigEndian(v / 0x100 / 0x100 / 0x100, 1) == [b0];
    assert BigEndian(v / 0x100 / 0x100, 2) == [b0, b1];
    assert BigEndian(v / 0x100, 3) == [b0, b1, b2];
    assert BigEndian(v, WORD) == [b0, b1, b2, b3];
    CopyInto(dst, at, [b0, b1, b2, b3]);
  }

  method EncodeHeaderTo(dst: array<byte>, h: Header)
    requires dst.Length >= HEADER_SIZE
    modifies dst
    ensures dst[..] == HeaderBytes(h) + old(dst[HEADER_SIZE..])
  {
    ghost var was := dst[..];
    dst[0] := h.frameType;
    dst[1] := h.flags;
    assert dst[..2] == [h.frameType, h.flags] && dst[2..] == was[2..];
    PutUint32(dst, 2, h.streamId);
    assert dst[..6] == [h.frameType, h.flags] + BigEndian(h.streamId, WORD) && dst[6..] == was[6..];
    PutUint32(dst, 6, h.length % 0x1_0000_0000);
  }

  // ---------------------------------------------------------------- frames, cells and the pool

  /** A parked buffer's box; the buffer it holds never changes. */
  class Cell {
    const buf: array<byte>

    constructor (buf: array<byte>)
      ensures this.buf == buf
    {
      this.buf := buf;
    }
  }

  const NO_HEADER := Header(0, 0, 0, 0)

  class PooledFrame {
    var header: Header
    var payload: Slice
    var fromPool: bool
    var released: bool
    var cell: Cell?

    constructor ()
      ensures Clean() && !fromPool && !released
    {
      header, payload, fromPool, released, cell := NO_HEADER, NIL, false, false, null;
    }

    /** Zeroes the frame and marks it released. */
    method Clear()
      modifies this
      ensures Clean() && !fromPool && released
    {
      released, fromPool := true, false;
      header, payload, cell := NO_HEADER, NIL, null;
    }

    method Attach(c: Cell, size: nat)
      modifies `payload, `cell
      ensures cell == c && payload == Slice(c.buf, size)
    {
      cell, payload := c, Slice(c.buf, size);
    }

    /** Nothing of a former tenant is left. */
    predicate Clean()
      reads this
    {
      header == NO_HEADER && payload == NIL && cell == null
    }

    /** The arrays reachable from the frame. */
    ghost function Arrays(): set<array<byte>>
      reads this
    {
      (if payload.arr != null then {payload.arr} else {}) + (if cell != null then {cell.buf} else {})
    }

    /** The ledger lists the frame as the owner of every array it reaches. */
    ghost predicate OwnedIn(owner: map<array<byte>, object>)
      reads this
    {
      && (payload.arr != null ==> payload.arr in owner && owner[payload.arr] == this)
      && (cell != null ==> cell.buf in owner && owner[cell.buf] == this)
    }

    /** A frame with a pooled buffer has payload in it, so that its backing array can be recognised. */
    ghost predicate Ok()
      reads this
    {
      SliceOk(payload) && (cell != null ==> payload.arr != null && payload.len > 0 && cell.buf.Length > 0)
    }
  }

  datatype Parked = Parked(idx: nat, cell: Cell)

  /** Parked buffers fit their class, belong to no frame and no message, and are parked once. */
  ghost predicate Stocked(parked: seq<Parked>, taken: set<array<byte>>) {
    && (forall i :: 0 <= i < |parked| ==>
          && parked[i].idx < |CLASSES| && CLASSES[parked[i].idx] <= parked[i].cell.buf.Length
          && parked[i].cell.buf !in taken)
    && (forall i, j :: 0 <= i < j < |parked| ==> parked[i].cell.buf != parked[j].cell.buf)
  }

  /** What parking an array does: one entry in the class its capacity serves, in its own cell if it has one, or none. */
  predicate PutBack(was: seq<Parked>, now: seq<Parked>, arr: array<byte>, cell: Cell?) {
    if arr.Length < 0x100 || arr.Length > 0x10_0000 then now == was
    else
      && |now| == |was| + 1 && now[..|was|] == was
      && now[|was|].cell.buf == arr && (cell != null ==> now[|was|].cell == cell) && Parks(arr.Length, now[|was|].idx)
  }

  /** What was parked before this array was. */
  function Before(now: seq<Parked>, arr: array<byte>): seq<Parked> {
    if now == [] || arr.Length < 0x100 || arr.Length > 0x10_0000 then now else now[..|now| - 1]
  }

  /** What giving back a frame's arrays does: the one, or the pooled one and the one it outgrew it with. */
  ghost predicate GivenBack(was: seq<Parked>, now: seq<Parked>, payload: Slice, cell: Cell?) {
    if cell == null then
      if payload.arr == null then now == was else PutBack(was, now, payload.arr, null)
    else if payload.arr == cell.buf then PutBack(was, now, payload.arr, cell)
    else payload.arr != null && PutBack(was, Before(now, payload.arr), cell.buf, cell) && PutBack(Before(now, payload.arr), now, payload.arr, null)
  }

  /** A parked buffer of a class taken out. */
  ghost predicate TakenOut(was: seq<Parked>, now: seq<Parked>, idx: nat, cell: Cell) {
    exists k :: 0 <= k < |was| && was[k] == Parked(idx, cell) && now == was[..k] + was[k + 1..]
  }

  lemma StockedRemove(parked: seq<Parked>, taken: set<array<byte>>, k: nat)
    requires Stocked(parked, taken) && k < |parked|
    ensures Stocked(parked[..k] + parked[k + 1..], taken)
    ensures forall p :: p in parked[..k] + parked[k + 1..] ==> p in parked && p.cell.buf != parked[k].cell.buf
  {
  }

  lemma StockedAdd(parked: seq<Parked>, taken: set<array<byte>>, p: Parked)
    requires Stocked(parked, taken) && p.idx < |CLASSES| && CLASSES[p.idx] <= p.cell.buf.Length && p.cell.buf !in taken
    requires forall q :: q in parked ==> q.cell.buf != p.cell.buf
    ensures Stocked(parked + [p], taken)
  {
  }

  /** The encoded messages' side of the ledger: which array carries part of which message. */
  class Pledges {
    ghost var holder: map<array<byte>, object>

    ghost constructor ()
      ensures holder == map[]
    {
      holder := map[];
    }
  }

  /** The pools shared by all connections, with a ledger of who owns which array. */
  class Backend {
    var frames: seq<PooledFrame>
    var parked: seq<Parked>
    ghost var live: set<PooledFrame>
    ghost var owner: map<array<byte>, object>
    ghost const pledges: Pledges

    ghost predicate FramesOk()
      reads `frames, `live, `owner, frames, live
    {
      && (forall i :: 0 <= i < |frames| ==> frames[i] !in live && frames[i].Clean())
      && (forall i, j :: 0 <= i < j < |frames| ==> frames[i] != frames[j])
      && (forall f :: f in live ==> f.fromPool && !f.released && f.Ok() && f.OwnedIn(owner))
    }

    /**
     No parked array is owned, and so none is reachable from a live frame or message, nor is any array
     shared between those; no array is parked twice;
     every parked buffer is large enough for its class; parked frames are clean and parked once.
     */
    ghost predicate Valid()
      reads this, pledges, frames, live
    {
      Stocked(parked, owner.Keys + pledges.holder.Keys) && owner.Keys !! pledges.holder.Keys && FramesOk()
    }

    /** An array no live frame and no message owns. */
    ghost predicate Unowned(a: array<byte>)
      reads this, pledges
    {
      a !in owner && a !in pledges.holder
    }

    /** What pool operations may write to: the pool itself and whatever is parked in it. */
    ghost function Footprint(): set<object>
      reads this
    {
      {this as object} + (set f: PooledFrame | f in frames :: f as object) + (set p | p in parked :: p.cell.buf as object)
    }

    constructor ()
      ensures Valid() && live == {} && fresh(Footprint()) && fresh(pledges) && pledges.holder == map[]
    {
      frames, parked, live, owner := [], [], {}, map[];
      pledges := new Pledges();
    }

    /** Takes any parked frame, or makes one. */
    method GetFrame() returns (f: PooledFrame)
      requires Valid()
      modifies this`frames
      ensures Valid() && f !in frames && f !in live && f.Clean()
      ensures fresh(f) || f in old(frames)
      ensures forall g :: g in frames ==> g in old(frames)
    {
      if * {
        if |frames| > 0 {
          var k :| 0 <= k < |frames|;
          f := frames[k];
          frames := frames[..k] + frames[k + 1..];
          return;
        }
      }
      f := new PooledFrame();
    }

    /** Takes any parked buffer of the class, or makes one. */
    method GetPayload(idx: nat) returns (cell: Cell)
      requires Valid() && idx < |CLASSES|
      modifies this`parked
      ensures Valid() && cell.buf.Length >= CLASSES[idx] && Unowned(cell.buf)
      ensures forall p :: p in parked ==> p.cell.buf != cell.buf && p in old(parked)
      ensures fresh(cell.buf) || cell.buf in old(Footprint())
      ensures TakenOut(old(parked), parked, idx, cell) ||
              (parked == old(parked) && fresh(cell.buf) && cell.buf.Length == CLASSES[idx])
    {
      if * {
        if k :| 0 <= k < |parked| && parked[k].idx == idx {
          cell := parked[k].cell;
          StockedRemove(parked, owner.Keys + pledges.holder.Keys, k);
          parked := parked[..k] + parked[k + 1..];
          if cell.buf.Length >= CLASSES[idx] {
            return;
          }
        }
      }
      var buf := new byte[CLASSES[idx]];
      cell := new Cell(buf);
    }

    /** Parks an array in the class its capacity serves; one of no class is left to the collector. */
    method PutPayloadArray(arr: array<byte>, cell: Cell?)
      requires Valid() && Unowned(arr)
      requires cell != null ==> cell.buf == arr
      requires forall p :: p in parked ==> p.cell.buf != arr
      modifies this`parked
      ensures Valid() && PutBack(old(parked), parked, arr, cell)
      ensures forall p :: p in parked ==> p in old(parked) || p.cell.buf == arr
    {
      var idx := ClassIndexForCap(arr.Length);
      if idx < 0 {
        return;
      }
      var box := cell;
      if box == null {
        box := new Cell(arr);
      }
      StockedAdd(parked, owner.Keys + pledges.holder.Keys, Parked(idx, box));
      parked := parked + [Parked(idx, box)];
    }

    /** A clean frame for one acquisition; its owner releases it once. */
    method AcquireFrame() returns (f: PooledFrame)
      requires Valid()
      modifies this`frames, this`live, frames
      ensures Valid() && live == old(live) + {f} && f !in old(live) && f.Clean()
      ensures fresh(f) || f in old(frames)
      ensures forall g :: g in frames ==> g in old(frames)
    {
      f := GetFrame();
      f.fromPool := true;
      f.released := false;
      live := live + {f};
    }

    /** Attaches a pooled buffer, cut to exactly the requested length, to a live frame without one. */
    method AcquirePayload(f: PooledFrame, size: nat)
      requires Valid() && f in live && f.payload == NIL && f.cell == null
      requires 0 < size <= MAX_FRAME_SIZE
      modifies this`parked, this`owner, f`payload, f`cell
      ensures Valid() && f.cell != null && f.payload == Slice(f.cell.buf, size) && size <= f.cell.buf.Length
      ensures fresh(f.cell.buf) || f.cell.buf in old(Footprint())
      ensures forall p :: p in parked ==> p in old(parked)
      ensures f.cell.buf !in old(owner) && owner == old(owner)[f.cell.buf := f]
      ensures exists idx: nat :: Serves(idx, size) &&
                                 (TakenOut(old(parked), parked, idx, f.cell) ||
                                  (parked == old(parked) && fresh(f.cell.buf) && f.cell.buf.Length == CLASSES[idx]))
    {
      var idx := ClassIndexForSize(size);
      assert Serves(idx, size);
      var cell := GetPayload(idx);
      Grant(f, cell, size);
    }

    /** Enters a buffer into the ledger under the frame it is attached to. */
    method Grant(f: PooledFrame, cell: Cell, size: nat)
      requires Valid() && f in live && f.payload == NIL && f.cell == null
      requires 0 < size <= cell.buf.Length && Unowned(cell.buf) && forall p :: p in parked ==> p.cell.buf != cell.buf
      modifies this`owner, f`payload, f`cell
      ensures Valid() && f.cell == cell && f.payload == Slice(cell.buf, size)
      ensures owner == old(owner)[cell.buf := f]
    {
      owner := owner[cell.buf := f];
      f.Attach(cell, size);
      assert Stocked(parked, owner.Keys + pledges.holder.Keys);
      forall g | g in live
        ensures g.fromPool && !g.released && g.Ok() && g.OwnedIn(owner)
      {
        if g != f { assert g.OwnedIn(old(owner)); }
      }
    }

    /** Zeroes a live frame and takes it and its arrays out of the ledger. */
    method Detach(f: PooledFrame) returns (payload: Slice, cell: Cell?)
      requires Valid() && f in live
      modifies this`live, this`owner, f
      ensures Valid() && live == old(live) - {f} && owner == old(owner) - old(f.Arrays())
      ensures f.Clean() && !f.fromPool && f.released && f !in frames
      ensures payload == old(f.payload) && cell == old(f.cell)
      ensures payload.arr != null ==> Unowned(payload.arr) && forall p :: p in parked ==> p.cell.buf != payload.arr
      ensures cell != null ==> Unowned(cell.buf) && forall p :: p in parked ==> p.cell.buf != cell.buf
    {
      payload, cell := f.payload, f.cell;
      live, owner := live - {f}, owner - f.Arrays();
      f.Clear();
    }

    /** Parks the array a frame last used, and the pooled one it outgrew if those differ. */
    method ReleasePayload(payload: Slice, cell: Cell?)
      requires Valid() && SliceOk(payload)
      requires payload.arr != null ==> Unowned(payload.arr) && forall p :: p in parked ==> p.cell.buf != payload.arr
      requires cell != null ==> Unowned(cell.buf) && forall p :: p in parked ==> p.cell.buf != cell.buf
      requires cell != null ==> payload.arr != null && payload.len > 0 && cell.buf.Length > 0
      modifies this`parked
      ensures Valid() && GivenBack(old(parked), parked, payload, cell)
      ensures forall p :: p in parked ==> p in old(parked) || p.cell.buf == payload.arr || (cell != null && p.cell.buf == cell.buf)
    {
      if cell == null {
        if payload.arr != null {
          PutPayloadArray(payload.arr, null);
        }
        return;
      }
      if SameBacking(payload, cell.buf) {
        PutPayloadArray(payload.arr, cell);
        return;
      }
      PutPayloadArray(cell.buf, cell);
      PutPayloadArray(payload.arr, null);
    }

    method PutFrame(f: PooledFrame)
      requires Valid() && f !in live && f !in frames && f.Clean()
      modifies this`frames
      ensures Valid() && frames == old(frames) + [f]
    {
      frames := frames + [f];
    }
  }

  /** The frame is one a release acts on: acquired from a pool and not released since. */
  predicate Held(f: PooledFrame?)
    reads f
  {
    f != null && f.fromPool && !f.released
  }

  /**
   Returns a frame and its arrays to the pool. A frame that never came from a pool, or was released
   already, is left alone, so a second call does nothing.
   */
  method Release(f: PooledFrame?, b: Backend?)
    requires Held(f) ==> b != null && b.Valid() && f in b.live
    modifies f, b
    ensures !Held(f)
    ensures old(Held(f)) ==>
              && b.Valid() && b.live == old(b.live) - {f} && f.Clean()
              && b.frames == old(b.frames) + [f]
              && b.owner == old(b.owner) - old(f.Arrays())
              && GivenBack(old(b.parked), b.parked, old(f.payload), old(f.cell))
              && (forall p :: p in b.parked ==> p in old(b.parked) || p.cell.buf in old(f.Arrays()))
    ensures !old(Held(f)) && f != null ==> f.header == old(f.header) && f.payload == old(f.payload)
    ensures !old(Held(f)) && b != null ==>
              b.live == old(b.live) && b.frames == old(b.frames) && b.parked == old(b.parked) && b.owner == old(b.owner)
  {
    if f == null || !f.fromPool || f.released {
      return;
    }
    var payload, cell := b.Detach(f);
    b.ReleasePayload(payload, cell);
    b.PutFrame(f);
  }
}
