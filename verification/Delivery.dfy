/**
 What reaches the client, in which order, and from where on a replay starts: laws over whole stories that
 speak of the actions taken and not of the functions that compute the next state.
 */
module Delivery {
  import opened Wire
  import opened PubSub
  import opened PubSubSteps
  import opened PubSubRuns
  import opened PubSubRaces
  import opened Resilient
  import opened EndToEnd

  // ---------------------------------------------------------------- the cursor a dial sends

  /** The connection exists, and if its handshake is still on the way it carries this cursor. */
  predicate Asks(x: System, c: Conn, cursor: nat) {
    c in x.pipes && (c in x.asked ==> x.asked[c] == cursor)
  }

  lemma StillAsks(f: Focus, x: System, a: Action, x': System, c: Conn, cursor: nat)
    requires Act(f, x, a, x') && Asks(x, c, cursor)
    ensures Asks(x', c, cursor)
  {
  }

  lemma {:induction false} AsksUntil(f: Focus, xs: seq<System>, acts: seq<Action>, i: nat, j: nat, c: Conn, cursor: nat)
    requires Goes(f, xs, acts) && i <= j < |xs| && Asks(xs[i], c, cursor)
    ensures Asks(xs[j], c, cursor)
    decreases j
  {
    if i < j {
      AsksUntil(f, xs, acts, i, j - 1, c, cursor);
      assert ActAt(f, xs, acts, j - 1);
      StillAsks(f, xs[j - 1], acts[j - 1], xs[j], c, cursor);
    }
  }

  /**
   A connection that was dialled in one state and attached in another, whatever happened in between, is
   replayed exactly what the server caches at the end above what the client had contiguously accepted at
   the beginning.
   */
  lemma ReplayStartsAtTheDial(f: Focus, xs: seq<System>, acts: seq<Action>, i: nat, j: nat, c: Conn, n: nat)
    requires Goes(f, xs, acts) && i < j < |acts| && acts[i] == Dial(c) && acts[j].Attach? && acts[j].conn == c
    ensures c in xs[j + 1].pipes
    ensures n in xs[j + 1].pipes[c].replay <==> n > xs[i].tracker.cursor && exists p :: p in Stock(f, xs[j]) && p.seqNo == n
    ensures 1 <= n <= xs[i].tracker.cursor ==> n !in xs[j + 1].pipes[c].replay
  {
    assert ActAt(f, xs, acts, i) && ActAt(f, xs, acts, j);
    AsksUntil(f, xs, acts, i + 1, j, c, xs[i].tracker.cursor);
    NewerNumbers(Stock(f, xs[j]), xs[i].tracker.cursor, n);
  }

  // ---------------------------------------------------------------- first in, first out

  /** The number an action puts on a connection's wire: a frame of a publish, or one of a replay. */
  function Puts(f: Focus, x: System, a: Action, c: Conn): seq<nat> {
    match a
    case Serve(e) => if Reaches(f, x, e) && e.conn == c then [x.world.calls[e.id].entry.seqNo as nat] else []
    case ReplayNext(d) => if d == c && c in x.pipes && x.pipes[c].replay != [] then [x.pipes[c].replay[0]] else []
    case _ => []
  }

  /** The number an action takes off it. */
  function Gets(x: System, a: Action, c: Conn): seq<nat> {
    if a == Take(c) && c in x.pipes && x.pipes[c].wire != [] then [x.pipes[c].wire[0]] else []
  }

  function Written(f: Focus, xs: seq<System>, acts: seq<Action>, c: Conn, i: nat): seq<nat>
    requires i <= |acts| < |xs|
  {
    if i == 0 then [] else Written(f, xs, acts, c, i - 1) + Puts(f, xs[i - 1], acts[i - 1], c)
  }

  function Read(xs: seq<System>, acts: seq<Action>, c: Conn, i: nat): seq<nat>
    requires i <= |acts| < |xs|
  {
    if i == 0 then [] else Read(xs, acts, c, i - 1) + Gets(xs[i - 1], acts[i - 1], c)
  }

  function OnWire(x: System, c: Conn): seq<nat> {
    if c in x.pipes then x.pipes[c].wire else []
  }

  lemma WireStep(f: Focus, x: System, a: Action, x': System, c: Conn)
    requires Act(f, x, a, x') && a != Sever(c)
    ensures OnWire(x, c) + Puts(f, x, a, c) == Gets(x, a, c) + OnWire(x', c)
  {
    if a == Take(c) {
      assert x.pipes[c].wire == [x.pipes[c].wire[0]] + x.pipes[c].wire[1..];
    }
  }

  ghost predicate FifoAt(f: Focus, xs: seq<System>, acts: seq<Action>, c: Conn, i: nat)
    requires i < |acts| < |xs|
  {
    OnWire(xs[i], c) + Puts(f, xs[i], acts[i], c) == Gets(xs[i], acts[i], c) + OnWire(xs[i + 1], c)
  }

  /** Until it is lost, a connection carries what was written to it in that order: what was read comes first, and the rest is on the wire. */
  lemma WireIsFifo(f: Focus, xs: seq<System>, acts: seq<Action>, c: Conn, i: nat)
    requires Goes(f, xs, acts) && i <= |acts| && OnWire(xs[0], c) == [] && forall k :: 0 <= k < i ==> acts[k] != Sever(c)
    ensures Written(f, xs, acts, c, i) == Read(xs, acts, c, i) + OnWire(xs[i], c)
  {
    forall k | 0 <= k < i
      ensures FifoAt(f, xs, acts, c, k)
    {
      assert ActAt(f, xs, acts, k);
      WireStep(f, xs[k], acts[k], xs[k + 1], c);
    }
    FifoUpTo(f, xs, acts, c, i);
  }

  lemma {:induction false} FifoUpTo(f: Focus, xs: seq<System>, acts: seq<Action>, c: Conn, i: nat)
    requires i <= |acts| < |xs| && OnWire(xs[0], c) == [] && forall k :: 0 <= k < i ==> FifoAt(f, xs, acts, c, k)
    ensures Written(f, xs, acts, c, i) == Read(xs, acts, c, i) + OnWire(xs[i], c)
    decreases i
  {
    if i > 0 {
      FifoUpTo(f, xs, acts, c, i - 1);
      assert FifoAt(f, xs, acts, c, i - 1);
      Regroup(Read(xs, acts, c, i - 1), OnWire(xs[i - 1], c), Puts(f, xs[i - 1], acts[i - 1], c),
              Gets(xs[i - 1], acts[i - 1], c), OnWire(xs[i], c));
    }
  }

  lemma Regroup(r: seq<nat>, was: seq<nat>, puts: seq<nat>, gets: seq<nat>, now: seq<nat>)
    requires was + puts == gets + now
    ensures r + was + puts == r + gets + now
  {
    assert r + was + puts == r + (was + puts) && r + gets + now == r + (gets + now);
  }

  /** What an action writes of a connection's replay. */
  function Replays(x: System, a: Action, c: Conn): seq<nat> {
    if a == ReplayNext(c) then Puts(Focus(Config(0, 0), 0, 0), x, a, c) else []
  }

  function ReplayedSince(xs: seq<System>, acts: seq<Action>, c: Conn, j: nat, i: nat): seq<nat>
    requires j <= i <= |acts| < |xs|
  {
    if i == j then [] else ReplayedSince(xs, acts, c, j, i - 1) + Replays(xs[i - 1], acts[i - 1], c)
  }

  /** Attached, with some of its replay written in this step. */
  ghost predicate ReplaysAt(xs: seq<System>, acts: seq<Action>, c: Conn, i: nat)
    requires i < |acts| < |xs|
  {
    && c in xs[i].pipes && c in xs[i + 1].pipes
    && xs[i].pipes[c].replay == Replays(xs[i], acts[i], c) + xs[i + 1].pipes[c].replay
  }

  lemma {:induction false} StaysAttached(f: Focus, xs: seq<System>, acts: seq<Action>, c: Conn, j: nat, i: nat)
    requires Goes(f, xs, acts) && j < i <= |acts| && acts[j].Attach? && acts[j].conn == c
    ensures c in xs[i].pipes && c !in xs[i].asked
    decreases i
  {
    assert ActAt(f, xs, acts, i - 1);
    if i > j + 1 {
      StaysAttached(f, xs, acts, c, j, i - 1);
    }
  }

  /** Until one of its writes fails, a replay is written as it was collected, front to back. */
  lemma ReplayInOrder(f: Focus, xs: seq<System>, acts: seq<Action>, c: Conn, j: nat, i: nat)
    requires Goes(f, xs, acts) && j < i <= |acts| && acts[j].Attach? && acts[j].conn == c
    requires forall k :: j < k < i ==> acts[k] != ReplayFails(c)
    ensures c in xs[j + 1].pipes && c in xs[i].pipes
    ensures ReplayedSince(xs, acts, c, j + 1, i) + xs[i].pipes[c].replay == xs[j + 1].pipes[c].replay
  {
    forall k | j < k < i
      ensures ReplaysAt(xs, acts, c, k)
    {
      StaysAttached(f, xs, acts, c, j, k);
      assert ActAt(f, xs, acts, k);
      ReplayStep(f, xs[k], acts[k], xs[k + 1], c);
    }
    StaysAttached(f, xs, acts, c, j, j + 1);
    ReplayedUpTo(xs, acts, c, j + 1, i);
  }

  lemma {:induction false} ReplayedUpTo(xs: seq<System>, acts: seq<Action>, c: Conn, j: nat, i: nat)
    requires j <= i <= |acts| < |xs| && c in xs[j].pipes && forall k :: j <= k < i ==> ReplaysAt(xs, acts, c, k)
    ensures c in xs[i].pipes && ReplayedSince(xs, acts, c, j, i) + xs[i].pipes[c].replay == xs[j].pipes[c].replay
    decreases i
  {
    if i > j {
      ReplayedUpTo(xs, acts, c, j, i - 1);
      assert ReplaysAt(xs, acts, c, i - 1);
      var done, more, left := ReplayedSince(xs, acts, c, j, i - 1), Replays(xs[i - 1], acts[i - 1], c), xs[i].pipes[c].replay;
      assert done + (more + left) == done + more + left;
    }
  }

  lemma ReplayStep(f: Focus, x: System, a: Action, x': System, c: Conn)
    requires Act(f, x, a, x') && a != ReplayFails(c) && c in x.pipes && c !in x.asked
    ensures c in x'.pipes && c !in x'.asked
    ensures x.pipes[c].replay == Replays(x, a, c) + x'.pipes[c].replay
  {
    if a == ReplayNext(c) {
      assert x.pipes[c].replay == [x.pipes[c].replay[0]] + x.pipes[c].replay[1..];
    }
  }

  // ---------------------------------------------------------------- what the application took and refused

  /** The number the application answers for with this action. */
  function Answered(x: System, a: Action, accept: bool): seq<nat> {
    if a.Return? && a.accept == accept && a.conn in x.pipes && x.pipes[a.conn].hand.Some? then [x.pipes[a.conn].hand.value] else []
  }

  function Taken(xs: seq<System>, acts: seq<Action>, i: nat): seq<nat>
    requires i <= |acts| < |xs|
  {
    if i == 0 then [] else Taken(xs, acts, i - 1) + Answered(xs[i - 1], acts[i - 1], true)
  }

  /** The log of acceptances is what the application took, in that order. */
  lemma {:induction false} AcceptedIsWhatWasTaken(f: Focus, xs: seq<System>, acts: seq<Action>, i: nat)
    requires Goes(f, xs, acts) && i <= |acts|
    ensures xs[i].accepted == xs[0].accepted + Taken(xs, acts, i)
    decreases i
  {
    if i > 0 {
      AcceptedIsWhatWasTaken(f, xs, acts, i - 1);
      assert ActAt(f, xs, acts, i - 1);
      LogStep(f, xs[i - 1], acts[i - 1], xs[i]);
    }
  }

  lemma LogStep(f: Focus, x: System, a: Action, x': System)
    requires Act(f, x, a, x')
    ensures x'.accepted == x.accepted + Answered(x, a, true)
  {
  }

  /** The connection resumes, and with it all that was pardoned is asked for again. */
  predicate Resumes(x: System, a: Action) {
    a.Attach? && x.link == Some(a.conn)
  }

  /** Refused in step k and not asked for again until step i. */
  ghost predicate RefusedIn(xs: seq<System>, acts: seq<Action>, k: nat, i: nat, n: nat)
    requires k < i <= |acts| < |xs|
  {
    Answered(xs[k], acts[k], false) == [n] && forall m :: k < m < i ==> !Resumes(xs[m], acts[m])
  }

  /** A number counts as refused exactly if the application has refused it since the connection last resumed. */
  lemma {:induction false} RefusedSinceResume(f: Focus, xs: seq<System>, acts: seq<Action>, i: nat, n: nat)
    requires Goes(f, xs, acts) && xs[0].rejected == {} && i <= |acts|
    ensures n in xs[i].rejected <==> exists k :: 0 <= k < i && RefusedIn(xs, acts, k, i, n)
    decreases i
  {
    if i > 0 {
      RefusedSinceResume(f, xs, acts, i - 1, n);
      assert ActAt(f, xs, acts, i - 1);
      var x, a := xs[i - 1], acts[i - 1];
      assert n in xs[i].rejected <==> (n in x.rejected && !Resumes(x, a)) || Answered(x, a, false) == [n];
      if !Resumes(x, a) && n in x.rejected {
        var k :| 0 <= k < i - 1 && RefusedIn(xs, acts, k, i - 1, n);
        assert RefusedIn(xs, acts, k, i, n);
      }
      if Answered(x, a, false) == [n] {
        assert RefusedIn(xs, acts, i - 1, i, n);
      }
      if k :| 0 <= k < i && RefusedIn(xs, acts, k, i, n) {
        assert k < i - 1 ==> RefusedIn(xs, acts, k, i - 1, n);
      }
    }
  }

  /** The server makes the client a member in this step, with this number in the cache. */
  ghost predicate PardonedIn(f: Focus, xs: seq<System>, acts: seq<Action>, k: nat, i: nat, n: nat)
    requires k < i <= |acts| < |xs|
  {
    && acts[k].Serve? && !Member(f, xs[k]) && Member(f, xs[k + 1]) && (exists p :: p in Stock(f, xs[k + 1]) && p.seqNo == n)
    && forall m :: k < m < i ==> !Resumes(xs[m], acts[m])
  }

  /** A number that is not promised was so before this step, or has become so in it. */
  ghost predicate PardonsAt(f: Focus, xs: seq<System>, acts: seq<Action>, k: nat, n: nat)
    requires k < |acts| < |xs|
  {
    n in xs[k + 1].before ==> (n in xs[k].before && !Resumes(xs[k], acts[k])) || PardonedIn(f, xs, acts, k, k + 1, n)
  }

  /**
   A number is not promised only because it was cached when the story began, or when the client last
   became a member by subscribing, and it has not resumed since.
   */
  lemma PardonedSinceJoin(f: Focus, xs: seq<System>, acts: seq<Action>, i: nat, n: nat)
    requires Goes(f, xs, acts) && i <= |acts| && n in xs[i].before
    ensures (n in xs[0].before && forall m :: 0 <= m < i ==> !Resumes(xs[m], acts[m])) ||
            exists k :: 0 <= k < i && PardonedIn(f, xs, acts, k, i, n)
  {
    forall k | 0 <= k < i
      ensures PardonsAt(f, xs, acts, k, n)
    {
      assert ActAt(f, xs, acts, k);
      if n in xs[k + 1].before {
        BeforeStep(f, xs[k], acts[k], xs[k + 1], n);
      }
    }
    PardonedUpTo(f, xs, acts, i, n);
  }

  lemma {:induction false} PardonedUpTo(f: Focus, xs: seq<System>, acts: seq<Action>, i: nat, n: nat)
    requires i <= |acts| < |xs| && n in xs[i].before && forall k :: 0 <= k < i ==> PardonsAt(f, xs, acts, k, n)
    ensures (n in xs[0].before && forall m :: 0 <= m < i ==> !Resumes(xs[m], acts[m])) ||
            exists k :: 0 <= k < i && PardonedIn(f, xs, acts, k, i, n)
    decreases i
  {
    if i > 0 {
      assert PardonsAt(f, xs, acts, i - 1, n);
      if PardonedIn(f, xs, acts, i - 1, i, n) {
        return;
      }
      var j: nat := i - 1;
      PardonedUpTo(f, xs, acts, j, n);
      if k :| 0 <= k < j && PardonedIn(f, xs, acts, k, j, n) {
        assert PardonedIn(f, xs, acts, k, i, n);
      }
    }
  }

  lemma BeforeStep(f: Focus, x: System, a: Action, x': System, n: nat)
    requires Act(f, x, a, x') && n in x'.before
    ensures (n in x.before && !Resumes(x, a)) ||
            (a.Serve? && !Member(f, x) && Member(f, x') && exists p :: p in Stock(f, x') && p.seqNo == n)
  {
  }

  /** The server answers a subscription of one of the client's connections with this number. */
  predicate ReportsIn(f: Focus, xs: seq<System>, acts: seq<Action>, k: nat, n: nat)
    requires k < |acts| < |xs|
  {
    && acts[k].Serve? && acts[k].section.Other? && acts[k].section.event.Join? && acts[k].section.event.topic == f.topic
    && acts[k].section.event.conn in xs[k].pipes && LastSeq(xs[k + 1].world.state, f.topic) == n
  }

  /** The numbers a caller of `Subscribe` can come to adopt are those the server has answered subscriptions with. */
  lemma {:induction false} ReportedIs(f: Focus, xs: seq<System>, acts: seq<Action>, i: nat, n: nat)
    requires Goes(f, xs, acts) && i <= |acts|
    ensures n in xs[i].reported <==> n in xs[0].reported || exists k :: 0 <= k < i && ReportsIn(f, xs, acts, k, n)
    decreases i
  {
    if i > 0 {
      ReportedIs(f, xs, acts, i - 1, n);
      assert ActAt(f, xs, acts, i - 1);
      ReportStep(f, xs, acts, i - 1, n);
    }
  }

  lemma ReportStep(f: Focus, xs: seq<System>, acts: seq<Action>, k: nat, n: nat)
    requires k < |acts| < |xs| && ActAt(f, xs, acts, k)
    ensures n in xs[k + 1].reported <==> n in xs[k].reported || ReportsIn(f, xs, acts, k, n)
  {
  }

  // ---------------------------------------------------------------- the order of a catch-up

  /** What a tracker lets through of some numbers if each is accepted as it comes. */
  function Through(r: Tracker, ns: seq<nat>): seq<nat>
    decreases |ns|
  {
    if ns == [] then []
    else if ShouldDeliver(r, ns[0]) then [ns[0]] + Through(Acknowledge(r, ns[0]), ns[1..])
    else Through(r, ns[1..])
  }

  /** Those of some numbers that were not accepted before. */
  function Missing(r: Tracker, ns: seq<nat>): seq<nat> {
    if ns == [] then [] else (if Has(r, ns[0]) then [] else [ns[0]]) + Missing(r, ns[1..])
  }

  /** Of different numbers, those that were missing come through, in their order. */
  lemma {:induction false} ThroughIsMissing(r: Tracker, ns: seq<nat>)
    requires Normal(r) && (forall n :: n in ns ==> n >= 1) && forall i, j :: 0 <= i < j < |ns| ==> ns[i] != ns[j]
    ensures Through(r, ns) == Missing(r, ns)
    decreases |ns|
  {
    if ns != [] {
      var n, rest := ns[0], ns[1..];
      assert ns == [n] + rest && n in ns && forall m :: m in rest ==> m in ns && m != n;
      FilterIsNonMembership(r, n);
      if ShouldDeliver(r, n) {
        AcknowledgeAdds(r, n);
        ThroughIsMissing(Acknowledge(r, n), rest);
        SameMissing(r, Acknowledge(r, n), rest);
      } else {
        ThroughIsMissing(r, rest);
      }
    }
  }

  lemma {:induction false} SameMissing(r: Tracker, r': Tracker, ns: seq<nat>)
    requires forall n :: n in ns ==> (Has(r, n) <==> Has(r', n))
    ensures Missing(r, ns) == Missing(r', ns)
    decreases |ns|
  {
    if ns != [] {
      assert ns[0] in ns && forall n :: n in ns[1..] ==> n in ns;
      SameMissing(r, r', ns[1..]);
    }
  }

  lemma {:induction false} DrainInOrder(x: System, c: Conn)
    requires Idle(x, c)
    ensures Drained(x, c).accepted == x.accepted + Through(x.tracker, x.pipes[c].wire + x.pipes[c].replay)
    decreases |x.pipes[c].replay|, |x.pipes[c].wire|
  {
    var p := x.pipes[c];
    if p.replay != [] {
      DrainInOrder(Replayed(x, c), c);
      assert p.wire + [p.replay[0]] + p.replay[1..] == p.wire + p.replay;
    } else if p.wire != [] {
      assert p.wire + p.replay == p.wire;
      DrainInOrder(Handled(x, c), c);
      var rest := p.wire[1..];
      assert rest + p.replay == rest;
      if ShouldDeliver(x.tracker, p.wire[0]) {
        assert x.accepted + [p.wire[0]] + Through(Acknowledge(x.tracker, p.wire[0]), rest) ==
               x.accepted + ([p.wire[0]] + Through(Acknowledge(x.tracker, p.wire[0]), rest));
      }
    }
  }

  /**
   Dialling, resuming and taking the catch-up from any reachable state: what the application had missed
   of the cache is added to what it had accepted, in the order of the cache.
   */
  lemma CatchUpInOrder(f: Focus, xs: seq<System>, acts: seq<Action>, i: nat, c: Conn, minted: Token, now: int, y: System)
    requires Story(f, xs, acts) && i < |xs|
    requires Act(f, xs[i], Dial(c), Dialled(xs[i], c)) && Act(f, Dialled(xs[i], c), Attach(c, minted, now), y)
    requires forall k, m :: 0 <= k < m < |Stock(f, xs[i])| ==> Stock(f, xs[i])[k].seqNo != Stock(f, xs[i])[m].seqNo
    ensures Idle(y, c)
    ensures Drained(y, c).accepted == xs[i].accepted + Missing(xs[i].tracker, Numbers(Newer(Stock(f, xs[i]), xs[i].tracker.cursor)))
  {
    StoryIsGood(f, xs, acts, i);
    CatchesUp(f, xs[i], c, minted, now, y);
  }

  lemma CatchesUp(f: Focus, x: System, c: Conn, minted: Token, now: int, y: System)
    requires Good(f, x) && Act(f, x, Dial(c), Dialled(x, c)) && Act(f, Dialled(x, c), Attach(c, minted, now), y)
    requires forall k, m :: 0 <= k < m < |Stock(f, x)| ==> Stock(f, x)[k].seqNo != Stock(f, x)[m].seqNo
    ensures Idle(y, c)
    ensures Drained(y, c).accepted == x.accepted + Missing(x.tracker, Numbers(Newer(Stock(f, x), x.tracker.cursor)))
  {
    AttachedPipe(f, x, c, minted, now, y);
    DrainsMissing(Stock(f, x), x.tracker, x.accepted, y, c);
  }

  /** The new connection has the catch-up to write, and nothing else. */
  lemma AttachedPipe(f: Focus, x: System, c: Conn, minted: Token, now: int, y: System)
    requires Act(f, x, Dial(c), Dialled(x, c)) && Act(f, Dialled(x, c), Attach(c, minted, now), y)
    ensures Idle(y, c) && y.pipes[c].wire == [] && y.pipes[c].replay == Numbers(Newer(Stock(f, x), x.tracker.cursor))
    ensures y.tracker == x.tracker && y.accepted == x.accepted
  {
  }

  lemma DrainsMissing(es: seq<Cached>, r: Tracker, accepted: seq<nat>, y: System, c: Conn)
    requires Normal(r) && forall k, m :: 0 <= k < m < |es| ==> es[k].seqNo != es[m].seqNo
    requires Idle(y, c) && y.pipes[c].wire == [] && y.pipes[c].replay == Numbers(Newer(es, r.cursor))
    requires y.tracker == r && y.accepted == accepted
    ensures Drained(y, c).accepted == accepted + Missing(r, Numbers(Newer(es, r.cursor)))
  {
    var ns := Numbers(Newer(es, r.cursor));
    DrainInOrder(y, c);
    assert [] + ns == ns;
    NewerDistinct(es, r.cursor);
    forall n | n in ns
      ensures n >= 1
    {
      NewerNumbers(es, r.cursor, n);
    }
    ThroughIsMissing(r, ns);
  }

  lemma {:induction false} NewerDistinct(es: seq<Cached>, cursor: nat)
    requires forall k, m :: 0 <= k < m < |es| ==> es[k].seqNo != es[m].seqNo
    ensures var ns := Numbers(Newer(es, cursor)); forall k, m :: 0 <= k < m < |ns| ==> ns[k] != ns[m]
    decreases |es|
  {
    if es != [] {
      var front, last := es[..|es| - 1], es[|es| - 1];
      NewerDistinct(front, cursor);
      var init, ns := Newer(front, cursor), Numbers(Newer(es, cursor));
      forall k | 0 <= k < |init|
        ensures init[k].seqNo != last.seqNo && ns[k] == Numbers(init)[k]
      {
        NewerAreAbove(front, cursor, init[k]);
      }
      forall k, m | 0 <= k < m < |ns|
        ensures ns[k] != ns[m]
      {
        if m < |init| {
          assert Numbers(init)[k] != Numbers(init)[m];
        }
      }
    }
  }
}
