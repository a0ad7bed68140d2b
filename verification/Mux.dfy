/**
 Request multiplexing: many callers share one connection, and responses find their way back by stream
 id. Every interleaving of callers, timeouts, the read loop and disconnects is a run of the steps below;
 a step is one critical section of the client's mutex, one write, or one channel operation.
 */
module Mux {
  import opened Wire

  const WORD_SPAN: nat := 0x1_0000_0000

  /** What a caller does next. `Sending` writes without the mutex, `Streaming` holds it. */
  datatype Pc = Sending | Streaming | Waiting | Dropping | Got(streamId: nat) | Cut | Failed

  /**
   One `roundTrip` with its response channel: the ids of the responses sent on it and how often it was
   closed. `patient` calls have no timeout; `late` ones registered after the read loop had failed the rest.
   */
  datatype Call = Call(
    id: nat, pieces: nat, written: nat, pc: Pc, patient: bool, late: bool, sent: seq<nat>, closes: nat)

  datatype Reader = Reading | Taken(k: nat, streamId: nat) | Failing | Closing | Ended

  /** A frame on the wire: whose it is, which of its message's frames, and whether more follow. */
  datatype Piece = Piece(k: nat, index: nat, more: bool)

  datatype State = State(
    calls: seq<Call>, pending: map<nat, nat>, nextId: nat, entered: nat, holder: int, reader: Reader,
    closed: bool, wire: seq<Piece>)

  const START := State([], map[], 0, 0, -1, Reading, false, [])

  datatype Event =
    | Enter                                   // past the closed check
    | Register(pieces: nat, encoded: bool, patient: bool)
    | WriteSingle(k: nat, ok: bool) | WriteFragment(k: nat, ok: bool)
    | TimeOut(k: nat) | Drop(k: nat) | Receive(k: nat)
    | Resolve(streamId: nat) | Deliver | ReadFails | FailPending | Close | CloseByReader

  predicate At(s: State, k: nat, pc: Pc) {
    k < |s.calls| && s.calls[k].pc == pc
  }

  predicate Free(s: State) {
    s.holder == -1
  }

  predicate Enabled(s: State, e: Event) {
    match e
    case Enter => !s.closed
    case Register(pieces, _, _) => s.entered > 0 && Free(s) && pieces >= 1
    case WriteSingle(k, _) => At(s, k, Sending)
    case WriteFragment(k, _) => At(s, k, Streaming)
    case TimeOut(k) => At(s, k, Waiting) && !s.calls[k].patient
    case Drop(k) => At(s, k, Dropping) && Free(s)
    case Receive(k) => At(s, k, Waiting) && (s.calls[k].sent != [] || s.calls[k].closes > 0)
    case Resolve(_) => s.reader.Reading? && Free(s)
    case Deliver => s.reader.Taken? && s.reader.k < |s.calls|
    case ReadFails => s.reader.Reading?
    case FailPending => s.reader.Failing? && Free(s)
    case Close => true
    case CloseByReader => s.reader.Closing?
  }

  function Put(s: State, k: nat, call: Call): State
    requires k < |s.calls|
  {
    s.(calls := s.calls[k := call])
  }

  /** The read loop has given up and failed whatever was pending. */
  predicate GivenUp(r: Reader) {
    r.Closing? || r.Ended?
  }

  function CloseChannels(calls: seq<Call>, pending: map<nat, nat>): seq<Call> {
    seq(|calls|, k requires 0 <= k < |calls| =>
      if k in pending.Values then calls[k].(closes := calls[k].closes + 1) else calls[k])
  }

  function Apply(s: State, e: Event): State
    requires Enabled(s, e)
  {
    match e
    case Enter => s.(entered := s.entered + 1)
    case Register(pieces, encoded, patient) =>
      var id := (s.nextId + 1) % WORD_SPAN;
      var pc := if !encoded then Dropping else if pieces == 1 then Sending else Streaming;
      s.(calls := s.calls + [Call(id, pieces, 0, pc, patient, GivenUp(s.reader), [], 0)],
         pending := s.pending[id := |s.calls|], nextId := id, entered := s.entered - 1,
         holder := if pc.Streaming? then |s.calls| else -1)
    case WriteSingle(k, ok) =>
      if !ok then Put(s, k, s.calls[k].(pc := Dropping))
      else Put(s, k, s.calls[k].(pc := Waiting, written := 1)).(wire := s.wire + [Piece(k, 0, false)])
    case WriteFragment(k, ok) =>
      var call := s.calls[k];
      if !ok then Put(s, k, call.(pc := Dropping)).(holder := -1)
      else
        var last := call.written + 1 >= call.pieces;
        Put(s, k, call.(pc := if last then Waiting else Streaming, written := call.written + 1)).(
        wire := s.wire + [Piece(k, call.written, !last)], holder := if last then -1 else s.holder)
    case TimeOut(k) => Put(s, k, s.calls[k].(pc := Dropping))
    case Drop(k) => Put(s, k, s.calls[k].(pc := Failed)).(pending := s.pending - {s.calls[k].id})
    case Receive(k) => Put(s, k, s.calls[k].(pc := if s.calls[k].sent != [] then Got(s.calls[k].sent[0]) else Cut))
    case Resolve(id) =>
      if id in s.pending then s.(reader := Taken(s.pending[id], id), pending := s.pending - {id}) else s
    case Deliver =>
      var k := s.reader.k;
      Put(s, k, s.calls[k].(sent := s.calls[k].sent + [s.reader.streamId])).(reader := Reading)
    case ReadFails => s.(reader := Failing)
    case FailPending => s.(calls := CloseChannels(s.calls, s.pending), pending := map[], reader := Closing)
    case Close => s.(closed := true)
    case CloseByReader => s.(closed := true, reader := Ended)
  }

  // ---------------------------------------------------------------- one answer, and the right one

  predicate Untouched(call: Call) {
    call.sent == [] && call.closes == 0
  }

  /** A channel's whole history is at most one event: a response to its own id, or a close. */
  predicate CallOk(call: Call) {
    && |call.sent| + call.closes <= 1
    && (forall i :: 0 <= i < |call.sent| ==> call.sent[i] == call.id)
    && (call.pc.Got? ==> call.sent == [call.pc.streamId])
    && (call.pc.Cut? ==> call.closes == 1)
    && 1 <= call.pieces && (call.pc.Streaming? ==> call.written < call.pieces)
  }

  predicate PendingOk(s: State, id: nat)
    requires id in s.pending
  {
    s.pending[id] < |s.calls| && s.calls[s.pending[id]].id == id && Untouched(s.calls[s.pending[id]])
  }

  predicate ReaderOk(s: State) {
    s.reader.Taken? ==>
      && s.reader.k < |s.calls| && s.calls[s.reader.k].id == s.reader.streamId && Untouched(s.calls[s.reader.k])
      && s.reader.k !in s.pending.Values
  }

  predicate Inv(s: State) {
    && (forall k :: 0 <= k < |s.calls| ==> CallOk(s.calls[k]))
    && (forall id :: id in s.pending ==> PendingOk(s, id))
    && ReaderOk(s)
    && -1 <= s.holder < |s.calls|
    && (forall k :: 0 <= k < |s.calls| ==> (s.calls[k].pc.Streaming? <==> s.holder == k))
  }

  predicate ByReader(e: Event) {
    e.Resolve? || e.Deliver? || e.ReadFails? || e.FailPending? || e.CloseByReader?
  }

  lemma CallerKeepsInv(s: State, e: Event)
    requires Inv(s) && Enabled(s, e) && (e.Enter? || e.Register? || e.TimeOut? || e.Drop? || e.Close?)
    ensures Inv(Apply(s, e))
  {
  }

  lemma SingleKeepsInv(s: State, e: Event)
    requires Inv(s) && Enabled(s, e) && e.WriteSingle?
    ensures Inv(Apply(s, e))
  {
    assert CallOk(s.calls[e.k]);
  }

  lemma FragmentKeepsInv(s: State, e: Event)
    requires Inv(s) && Enabled(s, e) && e.WriteFragment?
    ensures Inv(Apply(s, e))
  {
    assert CallOk(s.calls[e.k]) && s.holder == e.k;
  }

  lemma ReceiveKeepsInv(s: State, k: nat)
    requires Inv(s) && Enabled(s, Receive(k))
    ensures Inv(Apply(s, Receive(k)))
  {
    assert CallOk(s.calls[k]);
  }

  lemma ReaderKeepsInv(s: State, e: Event)
    requires Inv(s) && Enabled(s, e) && ByReader(e)
    ensures Inv(Apply(s, e))
  {
  }

  /** Every step keeps it that a channel sees at most one send or one close, and only its own response. */
  lemma StepKeepsInv(s: State, e: Event)
    requires Inv(s) && Enabled(s, e)
    ensures Inv(Apply(s, e))
  {
    if ByReader(e) {
      ReaderKeepsInv(s, e);
    } else if e.WriteSingle? {
      SingleKeepsInv(s, e);
    } else if e.WriteFragment? {
      FragmentKeepsInv(s, e);
    } else if e.Receive? {
      ReceiveKeepsInv(s, e.k);
    } else {
      CallerKeepsInv(s, e);
    }
  }

  ghost predicate Possible(s: State, es: seq<Event>)
    decreases |es|
  {
    es == [] || (Enabled(s, es[0]) && Possible(Apply(s, es[0]), es[1..]))
  }

  ghost function Run(s: State, es: seq<Event>): State
    requires Possible(s, es)
    decreases |es|
  {
    if es == [] then s else Run(Apply(s, es[0]), es[1..])
  }

  lemma {:induction false} RunKeepsInv(s: State, es: seq<Event>)
    requires Inv(s) && Possible(s, es)
    ensures Inv(Run(s, es))
    decreases |es|
  {
    if es != [] {
      StepKeepsInv(s, es[0]);
      RunKeepsInv(Apply(s, es[0]), es[1..]);
    }
  }

  /**
   Over all interleavings: no channel is ever sent to and closed, or either twice, and a caller that gets
   a response gets one with its own stream id. Stream ids may wrap around.
   */
  lemma AtMostOneAnswer(es: seq<Event>, k: nat)
    requires Possible(START, es) && k < |Run(START, es).calls|
    ensures var call := Run(START, es).calls[k];
            && |call.sent| + call.closes <= 1
            && (call.pc.Got? ==> call.pc.streamId == call.id)
  {
    RunKeepsInv(START, es);
    var call := Run(START, es).calls[k];
    assert CallOk(call);
    assert call.pc.Got? ==> call.sent[0] == call.id;
  }

  /**
   Over all interleavings the read loop never sends on a channel that is full or closed and never closes
   one twice: what it is about to answer or to fail is untouched, and no channel is pending twice.
   */
  lemma ReaderNeverStuck(es: seq<Event>)
    requires Possible(START, es)
    ensures var s := Run(START, es);
            && (Enabled(s, Deliver) ==> Untouched(s.calls[s.reader.k]) && s.reader.k !in s.pending.Values)
            && (forall id :: id in s.pending ==> s.pending[id] < |s.calls| && Untouched(s.calls[s.pending[id]]))
            && (forall id, jd :: id in s.pending && jd in s.pending && s.pending[id] == s.pending[jd] ==> id == jd)
  {
    RunKeepsInv(START, es);
    var s := Run(START, es);
    assert forall id :: id in s.pending ==> PendingOk(s, id);
  }

  // ---------------------------------------------------------------- who gets an answer

  predicate Live(call: Call) {
    call.pc.Sending? || call.pc.Streaming? || call.pc.Waiting?
  }

  /** While ids have not wrapped, a live call is pending, being answered, or answered. */
  predicate Attended(s: State, k: nat)
    requires k < |s.calls|
  {
    && s.calls[k].id == k + 1
    && (Live(s.calls[k]) && Untouched(s.calls[k]) ==>
          (k + 1 in s.pending && s.pending[k + 1] == k) || (s.reader.Taken? && s.reader.k == k))
    && (s.calls[k].late ==> GivenUp(s.reader) && Untouched(s.calls[k]))
  }

  /** After giving up the read loop answers nobody, so only calls registered later are still pending. */
  predicate Numbered(s: State) {
    && s.nextId == |s.calls| < WORD_SPAN
    && (forall k :: 0 <= k < |s.calls| ==> Attended(s, k))
    && (GivenUp(s.reader) ==> forall id :: id in s.pending ==> s.pending[id] < |s.calls| && s.calls[s.pending[id]].late)
  }

  lemma ReaderKeepsNumbered(s: State, e: Event)
    requires Inv(s) && Numbered(s) && Enabled(s, e) && ByReader(e)
    ensures Numbered(Apply(s, e))
  {
    var s' := Apply(s, e);
    forall k | 0 <= k < |s'.calls|
      ensures Attended(s', k)
    {
      assert Attended(s, k);
      assert k + 1 in s.pending && s.pending[k + 1] == k ==> k in s.pending.Values;
      if e.Resolve? && e.streamId in s.pending {
        assert PendingOk(s, e.streamId);
      }
    }
  }

  lemma RegisterKeepsNumbered(s: State, e: Event)
    requires Inv(s) && Numbered(s) && Enabled(s, e) && e.Register? && |s.calls| + 1 < WORD_SPAN
    ensures Numbered(Apply(s, e))
  {
    var s' := Apply(s, e);
    forall k | 0 <= k < |s'.calls|
      ensures Attended(s', k)
    {
      assert k < |s.calls| ==> Attended(s, k) && s'.calls[k] == s.calls[k];
    }
  }

  lemma DropKeepsNumbered(s: State, k: nat)
    requires Inv(s) && Numbered(s) && Enabled(s, Drop(k))
    ensures Numbered(Apply(s, Drop(k)))
  {
    var s' := Apply(s, Drop(k));
    assert Attended(s, k);
    forall j | 0 <= j < |s'.calls|
      ensures Attended(s', j)
    {
      assert Attended(s, j);
    }
  }

  lemma CallerKeepsNumbered(s: State, e: Event)
    requires Inv(s) && Numbered(s) && Enabled(s, e) && !ByReader(e) && !e.Register? && !e.Drop?
    ensures Numbered(Apply(s, e))
  {
    var s' := Apply(s, e);
    assert s'.pending == s.pending && s'.reader == s.reader && |s'.calls| == |s.calls|;
    forall k | 0 <= k < |s'.calls|
      ensures Attended(s', k) && s'.calls[k].late == s.calls[k].late
    {
      assert Attended(s, k);
      assert s'.calls[k] == s.calls[k].(pc := s'.calls[k].pc, written := s'.calls[k].written);
    }
  }

  lemma StepKeepsNumbered(s: State, e: Event)
    requires Inv(s) && Numbered(s) && Enabled(s, e) && |Apply(s, e).calls| < WORD_SPAN
    ensures Numbered(Apply(s, e))
  {
    if ByReader(e) {
      ReaderKeepsNumbered(s, e);
    } else if e.Register? {
      RegisterKeepsNumbered(s, e);
    } else if e.Drop? {
      DropKeepsNumbered(s, e.k);
    } else {
      CallerKeepsNumbered(s, e);
    }
  }

  lemma {:induction false} CallsOnlyGrow(s: State, es: seq<Event>)
    requires Possible(s, es)
    ensures |s.calls| <= |Run(s, es).calls|
    decreases |es|
  {
    if es != [] {
      CallsOnlyGrow(Apply(s, es[0]), es[1..]);
    }
  }

  lemma {:induction false} RunKeepsNumbered(s: State, es: seq<Event>)
    requires Inv(s) && Numbered(s) && Possible(s, es) && |Run(s, es).calls| < WORD_SPAN
    ensures Numbered(Run(s, es))
    decreases |es|
  {
    if es != [] {
      CallsOnlyGrow(Apply(s, es[0]), es[1..]);
      StepKeepsNumbered(s, es[0]);
      StepKeepsInv(s, es[0]);
      RunKeepsNumbered(Apply(s, es[0]), es[1..]);
    }
  }

  /**
   Once the read loop has given up, a waiting caller has an answer to collect exactly when it had
   registered before; fewer than 2^32 calls have been made.
   */
  lemma AnsweredUnlessLate(es: seq<Event>, k: nat)
    requires Possible(START, es) && |Run(START, es).calls| < WORD_SPAN && GivenUp(Run(START, es).reader)
    requires k < |Run(START, es).calls| && Run(START, es).calls[k].pc.Waiting?
    ensures !Run(START, es).calls[k].late <==> Enabled(Run(START, es), Receive(k))
  {
    var s := Run(START, es);
    RunKeepsInv(START, es);
    RunKeepsNumbered(START, es);
    assert Attended(s, k) && CallOk(s.calls[k]);
    if k + 1 in s.pending {
      assert PendingOk(s, k + 1);
    }
  }

  /** A late call without a timeout, its request written: nobody is left to answer it. */
  predicate Stranded(s: State, k: nat) {
    GivenUp(s.reader) && At(s, k, Waiting) && s.calls[k].patient && Untouched(s.calls[k])
  }

  lemma {:induction false} StrandedForGood(s: State, es: seq<Event>, k: nat)
    requires Stranded(s, k) && Possible(s, es)
    ensures Stranded(Run(s, es), k)
    decreases |es|
  {
    if es != [] {
      StrandedForGood(Apply(s, es[0]), es[1..], k);
    }
  }

  lemma RunFirst(s: State, e: Event, es: seq<Event>)
    requires Enabled(s, e) && Possible(Apply(s, e), es)
    ensures Possible(s, [e] + es) && Run(s, [e] + es) == Run(Apply(s, e), es)
  {
    assert ([e] + es)[1..] == es;
  }

  /** A caller past the closed check that registers between the failing of the pending calls and the close. */
  lemma StrandedReachable() returns (es: seq<Event>)
    ensures Possible(START, es) && Stranded(Run(START, es), 0)
  {
    var s1 := START.(entered := 1);
    var s2 := s1.(reader := Failing);
    var s3 := s1.(reader := Closing);
    var call := Call(1, 1, 0, Sending, true, true, [], 0);
    var s4 := s3.(calls := [call], pending := map[1 := 0], nextId := 1, entered := 0);
    es := [];
    RunFirst(s4, WriteSingle(0, true), es);
    es := [WriteSingle(0, true)] + es;
    assert Apply(s3, Register(1, true, true)) == s4;
    RunFirst(s3, Register(1, true, true), es);
    es := [Register(1, true, true)] + es;
    assert CloseChannels([], map[]) == [];
    RunFirst(s2, FailPending, es);
    es := [FailPending] + es;
    RunFirst(s1, ReadFails, es);
    es := [ReadFails] + es;
    RunFirst(START, Enter, es);
    es := [Enter] + es;
  }

  // ---------------------------------------------------------------- fragments on the wire

  predicate Continues(p: Piece, q: Piece) {
    q.k == p.k && q.index == p.index + 1
  }

  /** Every frame that announces more is followed by its own message's next frame. */
  predicate Orderly(wire: seq<Piece>) {
    forall i :: 0 <= i < |wire| - 1 && wire[i].more ==> Continues(wire[i], wire[i + 1])
  }

  /** The wire ends inside a message. */
  predicate Open(wire: seq<Piece>) {
    wire != [] && wire[|wire| - 1].more
  }

  /** The mutex holder's frames are the last on the wire. */
  predicate HolderAtEnd(s: State) {
    0 <= s.holder < |s.calls| && s.calls[s.holder].written > 0 ==>
      s.wire != [] && s.wire[|s.wire| - 1] == Piece(s.holder, s.calls[s.holder].written - 1, true)
  }

  /** The step writes the first frame of a message. */
  predicate Begins(s: State, e: Event) {
    (e.WriteSingle? && e.ok) || (e.WriteFragment? && e.ok && e.k < |s.calls| && s.calls[e.k].written == 0)
  }

  lemma Appended(wire: seq<Piece>, p: Piece)
    ensures Orderly(wire + [p]) <==> Orderly(wire) && (Open(wire) ==> Continues(wire[|wire| - 1], p))
  {
    if Orderly(wire + [p]) {
      forall i | 0 <= i < |wire| - 1 && wire[i].more
        ensures Continues(wire[i], wire[i + 1])
      {
        assert (wire + [p])[i] == wire[i] && (wire + [p])[i + 1] == wire[i + 1];
      }
      if Open(wire) {
        assert (wire + [p])[|wire| - 1] == wire[|wire| - 1] && (wire + [p])[|wire|] == p;
      }
    }
  }

  /** A message is torn apart by exactly one kind of step: beginning another while the wire is inside one. */
  lemma TornExactlyBy(s: State, e: Event)
    requires Inv(s) && Enabled(s, e) && HolderAtEnd(s) && Orderly(s.wire)
    ensures Orderly(Apply(s, e).wire) <==> !(Open(s.wire) && Begins(s, e))
    ensures Orderly(Apply(s, e).wire) ==> HolderAtEnd(Apply(s, e))
  {
    if e.WriteSingle? && e.ok {
      Appended(s.wire, Piece(e.k, 0, false));
    } else if e.WriteFragment? && e.ok {
      assert s.holder == e.k && CallOk(s.calls[e.k]);
      Appended(s.wire, Piece(e.k, s.calls[e.k].written, s.calls[e.k].written + 1 < s.calls[e.k].pieces));
    }
  }

  /** No call starts writing while the wire is inside another's message. */
  ghost predicate Considerate(s: State, es: seq<Event>)
    requires Possible(s, es)
    decreases |es|
  {
    es == [] || (!(Open(s.wire) && Begins(s, es[0])) && Considerate(Apply(s, es[0]), es[1..]))
  }

  lemma {:induction false} TornForGood(s: State, es: seq<Event>)
    requires Inv(s) && !Orderly(s.wire) && Possible(s, es)
    ensures !Orderly(Run(s, es).wire)
    decreases |es|
  {
    if es != [] {
      var e := es[0];
      if e.WriteSingle? && e.ok {
        Appended(s.wire, Piece(e.k, 0, false));
      } else if e.WriteFragment? && e.ok {
        Appended(s.wire, Piece(e.k, s.calls[e.k].written, s.calls[e.k].written + 1 < s.calls[e.k].pieces));
      }
      StepKeepsInv(s, e);
      TornForGood(Apply(s, e), es[1..]);
    }
  }

  /**
   The mutex keeps two fragmented messages apart but not a single frame out of one: the frames of every
   message reach the wire back to back in exactly the runs in which no call starts writing inside another's.
   */
  lemma {:induction false} OrderlyIffConsiderate(s: State, es: seq<Event>)
    requires Inv(s) && HolderAtEnd(s) && Orderly(s.wire) && Possible(s, es)
    ensures Considerate(s, es) <==> Orderly(Run(s, es).wire)
    decreases |es|
  {
    if es != [] {
      TornExactlyBy(s, es[0]);
      StepKeepsInv(s, es[0]);
      if Orderly(Apply(s, es[0]).wire) {
        OrderlyIffConsiderate(Apply(s, es[0]), es[1..]);
      } else {
        TornForGood(Apply(s, es[0]), es[1..]);
      }
    }
  }

  /** A small call, registered first, that writes between the two frames of a large one. */
  lemma TornReachable() returns (es: seq<Event>)
    ensures Possible(START, es) && !Orderly(Run(START, es).wire)
  {
    var small, large := Call(1, 1, 0, Sending, true, false, [], 0), Call(2, 2, 0, Streaming, true, false, [], 0);
    var s2 := START.(entered := 2);
    var s3 := START.(entered := 1, calls := [small], pending := map[1 := 0], nextId := 1);
    var s4 := START.(calls := [small, large], pending := map[1 := 0, 2 := 1], nextId := 2, holder := 1);
    var s5 := s4.(calls := [small, large.(written := 1)], wire := [Piece(1, 0, true)]);
    var s6 := s5.(calls := [small.(pc := Waiting, written := 1), large.(written := 1)], wire := [Piece(1, 0, true), Piece(0, 0, false)]);
    assert !Continues(s6.wire[0], s6.wire[1]);
    assert Apply(s5, WriteSingle(0, true)) == s6;
    RunFirst(s5, WriteSingle(0, true), []);
    es := [WriteSingle(0, true)] + [];
    assert Apply(s4, WriteFragment(1, true)) == s5;
    RunFirst(s4, WriteFragment(1, true), es);
    es := [WriteFragment(1, true)] + es;
    assert Apply(s3, Register(2, true, true)) == s4;
    RunFirst(s3, Register(2, true, true), es);
    es := [Register(2, true, true)] + es;
    assert Apply(s2, Register(1, true, true)) == s3;
    RunFirst(s2, Register(1, true, true), es);
    es := [Register(1, true, true)] + es;
    RunFirst(START.(entered := 1), Enter, es);
    es := [Enter] + es;
    RunFirst(START, Enter, es);
    es := [Enter] + es;
  }

  /** What the peer makes of it: a frame of another stream inside a message ends the connection. */
  lemma TornIsRejected(f: Frame, g: Frame, rest: seq<byte>, fault: Fault)
    requires WellFormed(f) && WellFormed(g) && HasMore(f.header) && f.header.streamId != g.header.streamId
    ensures DecodeStream(FrameBytes(f) + (FrameBytes(g) + rest), fault) == Err(StreamIdViolation)
  {
    DecodeFrameOfBytes(f, FrameBytes(g) + rest, fault);
    DecodeFrameOfBytes(g, rest, fault);
  }

  // ---------------------------------------------------------------- the critical sections

  datatype Chan = Chan(id: nat, sent: seq<nat>, closes: nat)

  /** What the mutex guards: every channel ever made, which are pending under which id, and the last id. */
  datatype Table = Table(channels: seq<Chan>, pending: map<nat, nat>, nextId: nat)

  function TableOf(s: State): Table {
    Table(seq(|s.calls|, k requires 0 <= k < |s.calls| => Chan(s.calls[k].id, s.calls[k].sent, s.calls[k].closes)), s.pending, s.nextId)
  }

  function Registered(t: Table): Table {
    var id := (t.nextId + 1) % WORD_SPAN;
    Table(t.channels + [Chan(id, [], 0)], t.pending[id := |t.channels|], id)
  }

  function Removed(t: Table, id: nat): Table {
    t.(pending := t.pending - {id})
  }

  function Resolved(t: Table, id: nat): Table {
    if id in t.pending && t.pending[id] < |t.channels| then
      var k := t.pending[id];
      Table(t.channels[k := t.channels[k].(sent := t.channels[k].sent + [id])], t.pending - {id}, t.nextId)
    else Removed(t, id)
  }

  function FailedAll(t: Table): Table {
    Table(seq(|t.channels|, k requires 0 <= k < |t.channels| =>
      if k in t.pending.Values then t.channels[k].(closes := t.channels[k].closes + 1) else t.channels[k]), map[], t.nextId)
  }

  /** Each step's effect on what the mutex guards is one of these. */
  lemma StepsOnTable(s: State, e: Event)
    requires Enabled(s, e)
    ensures e.Register? ==> TableOf(Apply(s, e)) == Registered(TableOf(s))
    ensures e.Drop? ==> TableOf(Apply(s, e)) == Removed(TableOf(s), s.calls[e.k].id)
    ensures e.FailPending? ==> TableOf(Apply(s, e)) == FailedAll(TableOf(s))
  {
    if e.Register? {
      assert TableOf(Apply(s, e)).channels == Registered(TableOf(s)).channels;
    } else if e.Drop? {
      assert TableOf(Apply(s, e)).channels == TableOf(s).channels;
    } else if e.FailPending? {
      assert TableOf(Apply(s, e)).channels == FailedAll(TableOf(s)).channels;
    }
  }

  /** No other step touches it, nor does a response to an unknown id. */
  lemma OtherStepsOffTable(s: State, e: Event)
    requires Enabled(s, e) && !e.Register? && !e.Drop? && !e.FailPending? && !e.Deliver? && (e.Resolve? ==> e.streamId !in s.pending)
    ensures TableOf(Apply(s, e)) == TableOf(s) && (e.Resolve? ==> TableOf(s) == Resolved(TableOf(s), e.streamId))
  {
    assert TableOf(Apply(s, e)).channels == TableOf(s).channels;
    if e.Resolve? {
      assert s.pending - {e.streamId} == s.pending;
    }
  }

  /** A response is taken out in one critical section and sent in the next step of the read loop. */
  lemma ResolveOnTable(s: State, id: nat)
    requires Inv(s) && Enabled(s, Resolve(id)) && id in s.pending
    ensures Enabled(Apply(s, Resolve(id)), Deliver)
    ensures TableOf(Apply(Apply(s, Resolve(id)), Deliver)) == Resolved(TableOf(s), id)
  {
    assert PendingOk(s, id);
  }

  /** A response channel, by what has happened to it. */
  class Channel {
    ghost const index: nat
    ghost const id: nat
    var sent: seq<nat>
    var closes: nat

    constructor (ghost index: nat, ghost id: nat)
      ensures this.index == index && this.id == id && sent == [] && closes == 0
    {
      this.index, this.id := index, id;
      sent, closes := [], 0;
    }

    ghost function View(): Chan
      reads this
    {
      Chan(id, sent, closes)
    }
  }

  class Client {
    var nextId: nat
    var pending: map<nat, Channel>
    ghost var log: seq<Channel>

    ghost function View(): Table
      reads this, log
    {
      Table(seq(|log|, k requires 0 <= k < |log| reads this, log => log[k].View()), map id | id in pending :: pending[id].index, nextId)
    }

    /** A pending channel is its own id's, was made by this client, and nothing has happened to it. */
    ghost predicate Valid()
      reads this, log
    {
      && nextId < WORD_SPAN
      && (forall k :: 0 <= k < |log| ==> log[k].index == k)
      && (forall id :: id in pending ==>
            && pending[id].index < |log| && log[pending[id].index] == pending[id]
            && pending[id].id == id && pending[id].sent == [] && pending[id].closes == 0)
    }

    constructor ()
      ensures Valid() && View() == TableOf(START)
    {
      nextId, pending, log := 0, map[], [];
    }

    /** A new id and its channel, in one critical section. */
    method Register() returns (id: nat, ch: Channel)
      requires Valid()
      modifies this
      ensures Valid() && View() == Registered(old(View())) && fresh(ch) && id == nextId && pending == old(pending)[id := ch]
    {
      ghost var was := View();
      nextId := if nextId == WORD_SPAN - 1 then 0 else nextId + 1;
      id := nextId;
      ch := new Channel(|log|, id);
      pending := pending[id := ch];
      log := log + [ch];
      assert View().channels == was.channels + [Chan(id, [], 0)];
      assert View().pending == was.pending[id := |was.channels|];
    }

    method RemovePending(id: nat)
      requires Valid()
      modifies this
      ensures Valid() && View() == Removed(old(View()), id)
    {
      pending := pending - {id};
    }

    /** Takes the channel out before anything is sent on it, so nobody else can. */
    method ResolvePending(id: nat) returns (found: bool)
      requires Valid()
      modifies this, if id in pending then {pending[id]} else {}
      ensures Valid() && found == (id in old(pending)) && View() == Resolved(old(View()), id)
    {
      if id !in pending {
        assert View().pending - {id} == View().pending;
        return false;
      }
      var ch := pending[id];
      pending := pending - {id};
      ch.sent := ch.sent + [id];
      return true;
    }

    /** Closes every pending channel once and forgets them all. */
    method FailPending()
      requires Valid()
      modifies this, pending.Values
      ensures Valid() && View() == FailedAll(old(View()))
    {
      FailNobody(View());
      while pending != map[]
        invariant Valid() && log == old(log) && pending.Values <= old(pending.Values)
        invariant FailedAll(View()) == FailedAll(old(View()))
        decreases |pending|
      {
        ghost var was := View();
        ghost var id := FailOne();
        FailOneFirst(was, id);
      }
      FailNobody(View());
      assert View().pending == map[];
    }

    /** Closes some pending channel and forgets it. */
    method FailOne() returns (ghost id: nat)
      requires Valid() && pending != map[]
      modifies this, pending.Values
      ensures Valid() && log == old(log) && pending.Values <= old(pending.Values) && |pending| < |old(pending)|
      ensures id in old(pending) && FirstFails(old(View()), id) && View() == FailedOne(old(View()), id)
    {
      var key :| key in pending;
      id := key;
      CloseChannel(key);
      assert pending.Keys == old(pending.Keys) - {key};
    }

    method CloseChannel(id: nat)
      requires Valid() && id in pending
      modifies `pending, pending[id]
      ensures Valid() && pending == old(pending) - {id}
      ensures FirstFails(old(View()), id) && View() == FailedOne(old(View()), id)
    {
      ghost var was := View();
      var ch := pending[id];
      assert was.channels[ch.index] == ch.View();
      ch.closes := ch.closes + 1;
      pending := pending - {id};
      assert View().channels == FailedOne(was, id).channels;
    }
  }

  /** One pending channel closed and forgotten. */
  function FailedOne(t: Table, id: nat): Table
    requires id in t.pending && t.pending[id] < |t.channels|
  {
    var k := t.pending[id];
    Table(t.channels[k := t.channels[k].(closes := t.channels[k].closes + 1)], t.pending - {id}, t.nextId)
  }

  predicate FirstFails(t: Table, id: nat) {
    id in t.pending && t.pending[id] < |t.channels| && forall jd :: jd in t.pending && jd != id ==> t.pending[jd] != t.pending[id]
  }

  /** Whichever channel is failed first, failing the rest comes to the same. */
  lemma FailOneFirst(t: Table, id: nat)
    requires FirstFails(t, id)
    ensures FailedAll(FailedOne(t, id)) == FailedAll(t)
  {
    var u := FailedOne(t, id);
    forall k | 0 <= k < |t.channels|
      ensures FailedAll(u).channels[k] == FailedAll(t).channels[k]
    {
      if k in t.pending.Values && k != t.pending[id] {
        var jd :| jd in t.pending && t.pending[jd] == k;
        assert jd in u.pending && u.pending[jd] == k;
      }
      if k in u.pending.Values {
        var jd :| jd in u.pending && u.pending[jd] == k;
        assert jd in t.pending && t.pending[jd] == k;
      }
    }
    assert FailedAll(u).channels == FailedAll(t).channels;
  }

  lemma FailNobody(t: Table)
    ensures t.pending == map[] ==> FailedAll(t) == t
  {
    if t.pending == map[] {
      assert FailedAll(t).channels == t.channels;
    }
  }
}
