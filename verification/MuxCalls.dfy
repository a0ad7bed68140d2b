/** What a caller of the multiplexing client can rely on: its whole request goes out, its answer comes in, and what is given up is forgotten. */
module MuxCalls {
  import opened Wire
  import opened Mux

  // ---------------------------------------------------------------- nobody enters after a close

  lemma ClosedStays(s: State, e: Event)
    requires Enabled(s, e)
    ensures s.closed || e.Close? || e.CloseByReader? ==> Apply(s, e).closed
  {
  }

  lemma {:induction false} NobodyEnters(s: State, es: seq<Event>)
    requires Possible(s, es) && s.closed
    ensures forall i :: 0 <= i < |es| ==> es[i] != Enter
    decreases |es|
  {
    if es != [] {
      ClosedStays(s, es[0]);
      NobodyEnters(Apply(s, es[0]), es[1..]);
      assert es == [es[0]] + es[1..];
    }
  }

  /** In every run: once the client was closed, by its user or by the read loop, no call passes the closed check. */
  lemma {:induction false} NoEntryAfterClose(s: State, es: seq<Event>, i: nat, j: nat)
    requires Possible(s, es) && i < j < |es| && (es[i].Close? || es[i].CloseByReader?)
    ensures es[j] != Enter
    decreases i
  {
    var rest := es[1..];
    if i > 0 {
      NoEntryAfterClose(Apply(s, es[0]), rest, i - 1, j - 1);
    } else {
      ClosedStays(s, es[0]);
      NobodyEnters(Apply(s, es[0]), rest);
      assert es[j] == rest[j - 1];
    }
  }

  // ---------------------------------------------------------------- what is given up is forgotten

  /** A call that failed waits for nothing: no id leads to its channel. */
  predicate Forgotten(s: State) {
    forall k, id :: 0 <= k < |s.calls| && s.calls[k].pc.Failed? && id in s.pending ==> s.pending[id] != k
  }

  lemma StepForgets(s: State, e: Event)
    requires Inv(s) && Forgotten(s) && Enabled(s, e)
    ensures Forgotten(Apply(s, e))
  {
    var s' := Apply(s, e);
    forall k, id | 0 <= k < |s'.calls| && s'.calls[k].pc.Failed? && id in s'.pending
      ensures s'.pending[id] != k
    {
      if e == Drop(k) {
        assert id in s.pending && PendingOk(s, id);
      } else if k < |s.calls| {
        assert s.calls[k].pc.Failed?;
      }
    }
  }

  lemma {:induction false} RunForgets(s: State, es: seq<Event>)
    requires Inv(s) && Forgotten(s) && Possible(s, es)
    ensures Forgotten(Run(s, es))
    decreases |es|
  {
    if es != [] {
      StepForgets(s, es[0]);
      StepKeepsInv(s, es[0]);
      RunForgets(Apply(s, es[0]), es[1..]);
    }
  }

  /** In every run, with ids wrapping around: a call that timed out, could not be encoded or could not be written has left the table. */
  lemma GivenUpIsForgotten(es: seq<Event>, k: nat)
    requires Possible(START, es) && k < |Run(START, es).calls| && Run(START, es).calls[k].pc.Failed?
    ensures forall id :: id in Run(START, es).pending ==> Run(START, es).pending[id] != k
  {
    RunForgets(START, es);
  }

  /** A call that times out is dropped next, and its id is then free. */
  lemma TimedOutLeaves(s: State, k: nat)
    requires Inv(s) && At(s, k, Waiting) && !s.calls[k].patient && Free(s)
    ensures Possible(s, [TimeOut(k), Drop(k)])
    ensures var s' := Run(s, [TimeOut(k), Drop(k)]); At(s', k, Pc.Failed) && s.calls[k].id !in s'.pending && s'.pending == s.pending - {s.calls[k].id}
  {
    var t := Apply(s, TimeOut(k));
    assert Possible(Apply(t, Drop(k)), []);
    RunFirst(t, Drop(k), []);
    assert [Drop(k)] + [] == [Drop(k)] && [TimeOut(k)] + [Drop(k)] == [TimeOut(k), Drop(k)];
    RunFirst(s, TimeOut(k), [Drop(k)]);
  }

  /** A call that cannot be encoded is dropped next, having written nothing, and its id is then free. */
  lemma UnencodedLeaves(s: State, pieces: nat, patient: bool)
    requires Inv(s) && Enabled(s, Register(pieces, false, patient))
    ensures Possible(s, [Register(pieces, false, patient), Drop(|s.calls|)])
    ensures var s' := Run(s, [Register(pieces, false, patient), Drop(|s.calls|)]);
            At(s', |s.calls|, Pc.Failed) && s'.wire == s.wire && s'.calls[|s.calls|].id !in s'.pending
  {
    var e, k := Register(pieces, false, patient), |s.calls|;
    var t := Apply(s, e);
    assert Possible(Apply(t, Drop(k)), []);
    RunFirst(t, Drop(k), []);
    assert [Drop(k)] + [] == [Drop(k)] && [e] + [Drop(k)] == [e, Drop(k)];
    RunFirst(s, e, [Drop(k)]);
  }

  // ---------------------------------------------------------------- an answer reaches its caller

  /** From any state in which a call waits under its id, a response to that id is what it gets. */
  lemma AnswerReachesItsCaller(s: State, k: nat)
    requires Inv(s) && s.reader.Reading? && Free(s) && At(s, k, Waiting)
    requires s.calls[k].id in s.pending && s.pending[s.calls[k].id] == k
    ensures var id := s.calls[k].id;
            && Possible(s, [Resolve(id), Deliver, Receive(k)])
            && At(Run(s, [Resolve(id), Deliver, Receive(k)]), k, Got(id))
            && Run(s, [Resolve(id), Deliver, Receive(k)]).pending == s.pending - {id}
  {
    var id := s.calls[k].id;
    assert PendingOk(s, id);
    var t := Apply(s, Resolve(id));
    var u := Apply(t, Deliver);
    var v := Apply(u, Receive(k));
    RunFirst(u, Receive(k), []);
    RunFirst(t, Deliver, [Receive(k)]);
    RunFirst(s, Resolve(id), [Deliver, Receive(k)]);
    assert [Receive(k)] + [] == [Receive(k)] && [Deliver] + [Receive(k)] == [Deliver, Receive(k)];
    assert [Resolve(id)] + [Deliver, Receive(k)] == [Resolve(id), Deliver, Receive(k)];
  }

  // ---------------------------------------------------------------- the whole request goes out

  /** The frames of one call on the wire, in order. */
  function FramesOf(wire: seq<Piece>, k: nat): seq<Piece> {
    if wire == [] then []
    else FramesOf(wire[..|wire| - 1], k) + if wire[|wire| - 1].k == k then [wire[|wire| - 1]] else []
  }

  lemma FramesAppend(wire: seq<Piece>, p: Piece, k: nat)
    ensures FramesOf(wire + [p], k) == FramesOf(wire, k) + if p.k == k then [p] else []
  {
    assert (wire + [p])[..|wire|] == wire;
  }

  /** The first n of a message's frames, all flagged but the very last. */
  function FirstOf(k: nat, pieces: nat, n: nat): seq<Piece> {
    if n == 0 then [] else FirstOf(k, pieces, n - 1) + [Piece(k, n - 1, n < pieces)]
  }

  /** What a call has written is the beginning of its message, and all of it once the call waits. */
  predicate Spoken(s: State, k: nat)
    requires k < |s.calls|
  {
    var call := s.calls[k];
    && FramesOf(s.wire, k) == FirstOf(k, call.pieces, call.written) && call.written <= call.pieces
    && (call.pc.Sending? ==> call.written == 0 && call.pieces == 1)
    && (call.pc.Streaming? ==> call.written < call.pieces)
    && (call.pc.Waiting? || call.pc.Got? || call.pc.Cut? ==> call.written == call.pieces)
  }

  predicate Owners(s: State) {
    forall i :: 0 <= i < |s.wire| ==> s.wire[i].k < |s.calls|
  }

  lemma {:induction false} NothingOf(wire: seq<Piece>, k: nat)
    requires forall i :: 0 <= i < |wire| ==> wire[i].k != k
    ensures FramesOf(wire, k) == []
    decreases |wire|
  {
    if wire != [] {
      NothingOf(wire[..|wire| - 1], k);
    }
  }

  lemma SingleSpeaks(s: State, e: Event, k: nat)
    requires Enabled(s, e) && e.WriteSingle? && k < |s.calls| && Spoken(s, k) && Spoken(s, e.k)
    ensures k < |Apply(s, e).calls| && Spoken(Apply(s, e), k)
  {
    if e.ok {
      FramesAppend(s.wire, Piece(e.k, 0, false), k);
    }
  }

  lemma FragmentSpeaks(s: State, e: Event, k: nat)
    requires Enabled(s, e) && e.WriteFragment? && k < |s.calls| && Spoken(s, k) && Spoken(s, e.k)
    ensures k < |Apply(s, e).calls| && Spoken(Apply(s, e), k)
  {
    var call := s.calls[e.k];
    if e.ok {
      FramesAppend(s.wire, Piece(e.k, call.written, call.written + 1 < call.pieces), k);
    }
  }

  lemma RegisterSpeaks(s: State, e: Event, k: nat)
    requires Enabled(s, e) && e.Register? && Owners(s) && k <= |s.calls| && (k < |s.calls| ==> Spoken(s, k))
    ensures k < |Apply(s, e).calls| && Spoken(Apply(s, e), k)
  {
    if k == |s.calls| {
      NothingOf(s.wire, k);
    }
  }

  lemma OtherSpeaks(s: State, e: Event, k: nat)
    requires Enabled(s, e) && !e.Register? && !e.WriteSingle? && !e.WriteFragment? && k < |s.calls| && Spoken(s, k)
    ensures k < |Apply(s, e).calls| && Spoken(Apply(s, e), k)
  {
  }

  lemma StepSpeaks(s: State, e: Event, k: nat)
    requires Enabled(s, e) && Owners(s) && (forall j :: 0 <= j < |s.calls| ==> Spoken(s, j)) && k < |Apply(s, e).calls|
    ensures Spoken(Apply(s, e), k)
  {
    if e.Register? {
      RegisterSpeaks(s, e, k);
    } else if e.WriteSingle? {
      SingleSpeaks(s, e, k);
    } else if e.WriteFragment? {
      FragmentSpeaks(s, e, k);
    } else {
      OtherSpeaks(s, e, k);
    }
  }

  lemma {:induction false} RunSpeaks(s: State, es: seq<Event>)
    requires Possible(s, es) && Owners(s) && forall j :: 0 <= j < |s.calls| ==> Spoken(s, j)
    ensures Owners(Run(s, es)) && forall j :: 0 <= j < |Run(s, es).calls| ==> Spoken(Run(s, es), j)
    decreases |es|
  {
    if es != [] {
      var s' := Apply(s, es[0]);
      forall j | 0 <= j < |s'.calls|
        ensures Spoken(s', j)
      {
        StepSpeaks(s, es[0], j);
      }
      RunSpeaks(s', es[1..]);
    }
  }

  /**
   In every run the frames of a call that are on the wire are the first of its message, in order, and a
   call that waits or has been answered has written every one of them, the last and only the last unflagged.
   */
  lemma WholeRequestIsWritten(es: seq<Event>, k: nat)
    requires Possible(START, es) && k < |Run(START, es).calls|
    ensures var s := Run(START, es);
            && FramesOf(s.wire, k) == FirstOf(k, s.calls[k].pieces, s.calls[k].written)
            && (s.calls[k].pc.Waiting? || s.calls[k].pc.Got? ==> FramesOf(s.wire, k) == FirstOf(k, s.calls[k].pieces, s.calls[k].pieces))
  {
    RunSpeaks(START, es);
    assert Spoken(Run(START, es), k);
  }

  // ---------------------------------------------------------------- a call and its answer

  const CALL := Call(1, 1, 0, Sending, true, false, [], 0)

  /** A call of one frame that waits for its answer. */
  const ASKED := START.(calls := [CALL.(pc := Waiting, written := 1)], pending := map[1 := 0], nextId := 1, wire := [Piece(0, 0, false)])

  /** A caller past the closed check, and one that has registered. */
  const ENTERED := START.(entered := 1)
  const REGISTERED := START.(calls := [CALL], pending := map[1 := 0], nextId := 1)

  lemma Asks()
    ensures Enabled(START, Enter) && Apply(START, Enter) == ENTERED
    ensures Enabled(ENTERED, Register(1, true, true)) && Apply(ENTERED, Register(1, true, true)) == REGISTERED
    ensures Enabled(REGISTERED, WriteSingle(0, true)) && Apply(REGISTERED, WriteSingle(0, true)) == ASKED
  {
  }

  lemma AskedReached(es: seq<Event>)
    requires Possible(ASKED, es)
    ensures var run := [Enter] + ([Register(1, true, true)] + ([WriteSingle(0, true)] + es));
            Possible(START, run) && Run(START, run) == Run(ASKED, es)
  {
    Asks();
    var written := [WriteSingle(0, true)] + es;
    RunFirst(REGISTERED, WriteSingle(0, true), es);
    RunFirst(ENTERED, Register(1, true, true), written);
    RunFirst(START, Enter, [Register(1, true, true)] + written);
  }

  /** A run in which a call is written, answered and gets its answer. */
  lemma AnsweredReachable() returns (es: seq<Event>)
    ensures Possible(START, es) && |Run(START, es).calls| == 1 && Run(START, es).calls[0].pc == Got(1)
  {
    assert Inv(ASKED) by {
      assert CallOk(ASKED.calls[0]) && PendingOk(ASKED, 1);
    }
    AnswerReachesItsCaller(ASKED, 0);
    AskedReached([Resolve(1), Deliver, Receive(0)]);
    CallsStay(ASKED, [Resolve(1), Deliver, Receive(0)]);
    es := [Enter] + ([Register(1, true, true)] + ([WriteSingle(0, true)] + [Resolve(1), Deliver, Receive(0)]));
  }

  lemma {:induction false} CallsStay(s: State, es: seq<Event>)
    requires Possible(s, es) && forall i :: 0 <= i < |es| ==> !es[i].Register?
    ensures |Run(s, es).calls| == |s.calls|
    decreases |es|
  {
    if es != [] {
      CallsStay(Apply(s, es[0]), es[1..]);
    }
  }
}
