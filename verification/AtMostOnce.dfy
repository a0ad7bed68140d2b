/**
 When a publish is accepted only once. The filter, the application and the acknowledgement are three steps
 of a read loop, and a read loop outlives its connection; the replay state is aligned by another goroutine.
 Two actions can make the client accept a number again: letting a frame through while another loop still
 has the same number in hand, and adopting a reported number below the cursor. Nothing else can.
 */
module AtMostOnce {
  import opened Wire
  import opened PubSub
  import opened PubSubSteps
  import opened PubSubRuns
  import opened PubSubRaces
  import opened PubSubOverlap
  import opened PubSubTraces
  import opened Resilient
  import opened EndToEnd
  import opened EndToEndTraces

  predicate Holds(x: System, c: Conn, n: nat) {
    c in x.pipes && x.pipes[c].hand == Some(n)
  }

  predicate Distinct(ns: seq<nat>) {
    forall i, j :: 0 <= i < j < |ns| ==> ns[i] != ns[j]
  }

  /** No number was accepted twice, every accepted one is remembered, and no loop is about to accept one again. */
  ghost predicate Once(x: System) {
    && Distinct(x.accepted)
    && (forall n :: n in x.accepted ==> Has(x.tracker, n))
    && (forall c, n :: Holds(x, c, n) ==> n !in x.accepted)
    && (forall c, d, n :: Holds(x, c, n) && Holds(x, d, n) ==> c == d)
  }

  /** A frame passes the filter while another read loop has the same number in hand. */
  ghost predicate Doubles(x: System, a: Action) {
    && a.Take? && a.conn in x.pipes && x.pipes[a.conn].wire != [] && ShouldDeliver(x.tracker, x.pipes[a.conn].wire[0])
    && exists d :: d != a.conn && Holds(x, d, x.pipes[a.conn].wire[0])
  }

  /** A number reported to a subscription is adopted although the client has accepted later ones. */
  predicate Lowers(x: System, a: Action) {
    a.Realign? && a.lastSeq < x.tracker.cursor
  }

  ghost predicate Careful(x: System, a: Action) {
    !Doubles(x, a) && !Lowers(x, a)
  }

  lemma TakeOnceIff(f: Focus, x: System, c: Conn, x': System)
    requires Good(f, x) && Once(x) && Act(f, x, Take(c), x')
    ensures Once(x') <==> !Doubles(x, Take(c))
  {
    var n := x.pipes[c].wire[0];
    assert PipeOk(x.pipes[c]) && n in x.pipes[c].wire;
    FilterIsNonMembership(x.tracker, n);
    forall d, m
      ensures Holds(x', d, m) <==> Holds(x, d, m) || (d == c && m == n && ShouldDeliver(x.tracker, n))
    {
    }
    if Doubles(x, Take(c)) {
      var d :| d != c && Holds(x, d, n);
      assert Holds(x', c, n) && Holds(x', d, n);
    }
  }

  lemma ReturnOnce(f: Focus, x: System, c: Conn, accept: bool, x': System)
    requires Good(f, x) && Once(x) && Act(f, x, Return(c, accept), x')
    ensures Once(x')
  {
    var n := x.pipes[c].hand.value;
    assert PipeOk(x.pipes[c]) && Holds(x, c, n);
    AcknowledgeAdds(x.tracker, n);
    forall d, m
      ensures Holds(x', d, m) ==> Holds(x, d, m) && d != c
    {
    }
  }

  lemma RealignOnceIff(f: Focus, x: System, lastSeq: nat, x': System)
    requires Good(f, x) && Once(x) && Act(f, x, Realign(lastSeq), x')
    ensures Once(x') <==> !Lowers(x, Realign(lastSeq))
  {
    forall d, m
      ensures Holds(x', d, m) <==> Holds(x, d, m)
    {
    }
    if lastSeq < x.tracker.cursor {
      assert Has(x.tracker, x.tracker.cursor) && !Has(x'.tracker, x.tracker.cursor);
    }
  }

  lemma OthersOnce(f: Focus, x: System, a: Action, x': System)
    requires Once(x) && Act(f, x, a, x') && !a.Take? && !a.Return? && !a.Realign?
    ensures Once(x')
  {
    forall d, m
      ensures Holds(x', d, m) ==> Holds(x, d, m)
    {
    }
  }

  /** One action breaks it exactly if it is one of the two. */
  lemma ActOnceIff(f: Focus, x: System, a: Action, x': System)
    requires Good(f, x) && Once(x) && Act(f, x, a, x')
    ensures Once(x') <==> Careful(x, a)
  {
    match a
    case Take(c) => TakeOnceIff(f, x, c, x');
    case Return(c, accept) => ReturnOnce(f, x, c, accept, x');
    case Realign(lastSeq) => RealignOnceIff(f, x, lastSeq, x');
    case _ => OthersOnce(f, x, a, x');
  }

  // ---------------------------------------------------------------- whole stories

  ghost predicate OnceIn(xs: seq<System>, i: nat)
    requires i < |xs|
  {
    Once(xs[i])
  }

  ghost predicate CarefulAt(xs: seq<System>, acts: seq<Action>, i: nat)
    requires i < |acts| < |xs|
  {
    Careful(xs[i], acts[i])
  }

  lemma StartOnce(f: Focus, x: System)
    requires Start(f, x)
    ensures Once(x)
  {
    forall d, m
      ensures !Holds(x, d, m)
    {
    }
  }

  lemma OnceAt(f: Focus, xs: seq<System>, acts: seq<Action>, i: nat)
    requires Story(f, xs, acts) && i < |acts| && OnceIn(xs, i)
    ensures OnceIn(xs, i + 1) <==> CarefulAt(xs, acts, i)
  {
    StoryIsGood(f, xs, acts, i);
    assert ActAt(f, xs, acts, i);
    ActOnceIff(f, xs[i], acts[i], xs[i + 1]);
  }

  lemma {:induction false} OnceSoFar(f: Focus, xs: seq<System>, acts: seq<Action>, i: nat)
    requires Story(f, xs, acts) && i < |xs| && forall k :: 0 <= k < i ==> CarefulAt(xs, acts, k)
    ensures OnceIn(xs, i)
    decreases i
  {
    if i == 0 {
      StartOnce(f, xs[0]);
    } else {
      OnceSoFar(f, xs, acts, i - 1);
      OnceAt(f, xs, acts, i - 1);
    }
  }

  /**
   In every run each number is accepted at most once, as long as no frame passes the filter while another
   read loop has its number in hand and no reported number is adopted below the cursor.
   */
  lemma AcceptedAtMostOnce(f: Focus, xs: seq<System>, acts: seq<Action>, i: nat)
    requires Story(f, xs, acts) && i < |xs| && forall k :: 0 <= k < i ==> CarefulAt(xs, acts, k)
    ensures Distinct(xs[i].accepted)
  {
    OnceSoFar(f, xs, acts, i);
  }

  /** What keeps it so is kept by every state of a run if and only if no action does either. */
  lemma OnceIff(f: Focus, xs: seq<System>, acts: seq<Action>)
    requires Story(f, xs, acts)
    ensures (forall i :: 0 <= i < |xs| ==> OnceIn(xs, i)) <==> (forall i :: 0 <= i < |acts| ==> CarefulAt(xs, acts, i))
  {
    if i :| 0 <= i < |acts| && !CarefulAt(xs, acts, i) {
      if OnceIn(xs, i) {
        OnceAt(f, xs, acts, i);
      }
    } else {
      forall i | 0 <= i < |xs|
        ensures OnceIn(xs, i)
      {
        OnceSoFar(f, xs, acts, i);
      }
    }
  }

  /** Whenever a frame passes the filter while another loop holds its number, both can go on to be accepted. */
  lemma DoubleCanBeAcceptedTwice(f: Focus, x: System, c: Conn, d: Conn, x1: System)
    requires Act(f, x, Take(c), x1) && ShouldDeliver(x.tracker, x.pipes[c].wire[0]) && d != c && Holds(x, d, x.pipes[c].wire[0])
    ensures var n := x.pipes[c].wire[0];
            var x2 := Returned(x1, d, true);
            var x3 := Returned(x2, c, true);
            && Act(f, x1, Return(d, true), x2) && Act(f, x2, Return(c, true), x3)
            && x3.accepted == x.accepted + [n] + [n] && !Distinct(x3.accepted)
  {
    var n := x.pipes[c].wire[0];
    var x3 := Returned(Returned(x1, d, true), c, true);
    assert x3.accepted[|x.accepted|] == x3.accepted[|x.accepted| + 1] == n;
  }

  /** Adopting a number below the cursor makes the filter let every accepted number above it through again. */
  lemma LoweredLetsThroughAgain(f: Focus, x: System, lastSeq: nat, x': System, n: nat)
    requires Act(f, x, Realign(lastSeq), x') && Lowers(x, Realign(lastSeq))
    ensures ShouldDeliver(x'.tracker, n) <==> n > lastSeq
  {
  }

  // ---------------------------------------------------------------- a catch-up accepts each frame once

  /** No application handler is running. */
  ghost predicate AllIdle(x: System) {
    forall c, n :: !Holds(x, c, n)
  }

  /** Nobody has taken a frame in hand. */
  lemma StillIdle(x: System, x': System)
    requires AllIdle(x) && forall c :: c in x'.pipes ==> x'.pipes[c].hand == None || (c in x.pipes && x'.pipes[c].hand == x.pipes[c].hand)
    ensures AllIdle(x')
  {
    forall c, n
      ensures !Holds(x', c, n)
    {
      assert !Holds(x, c, n);
    }
  }

  lemma HandleOnce(f: Focus, x: System, c: Conn)
    requires Good(f, x) && Once(x) && AllIdle(x) && Idle(x, c) && x.pipes[c].wire != []
    ensures Once(Handled(x, c)) && AllIdle(Handled(x, c))
  {
    var x' := Taken(x, c);
    LoopGood(f, x, Take(c), x');
    TakeOnceIff(f, x, c, x');
    if x'.pipes[c].hand.Some? {
      ReturnOnce(f, x', c, true, Returned(x', c, true));
    }
    StillIdle(x, Handled(x, c));
  }

  lemma {:induction false} DrainOnce(f: Focus, x: System, c: Conn)
    requires Good(f, x) && Once(x) && AllIdle(x) && Idle(x, c)
    ensures Once(Drained(x, c))
    decreases |x.pipes[c].replay|, |x.pipes[c].wire|
  {
    if x.pipes[c].replay != [] {
      var next := Replayed(x, c);
      ReplayGood(f, x, ReplayNext(c), next);
      OthersOnce(f, x, ReplayNext(c), next);
      StillIdle(x, next);
      DrainOnce(f, next, c);
    } else if x.pipes[c].wire != [] {
      HandleAccepts(f, x, c);
      HandleOnce(f, x, c);
      DrainOnce(f, Handled(x, c), c);
    }
  }

  /** From a state of a careful run in which no handler is running, a resume's catch-up accepts every frame once. */
  lemma CatchUpAcceptsOnce(f: Focus, xs: seq<System>, acts: seq<Action>, i: nat, c: Conn, minted: Token, now: int, y: System)
    requires Story(f, xs, acts) && i < |xs| && AllIdle(xs[i]) && forall k :: 0 <= k < i ==> CarefulAt(xs, acts, k)
    requires Act(f, xs[i], Dial(c), Dialled(xs[i], c)) && Act(f, Dialled(xs[i], c), Attach(c, minted, now), y)
    ensures Idle(y, c) && Distinct(Drained(y, c).accepted)
  {
    OnceSoFar(f, xs, acts, i);
    StoryIsGood(f, xs, acts, i);
    ResumeOnce(f, xs[i], c, minted, now, y);
  }

  lemma ResumeOnce(f: Focus, x: System, c: Conn, minted: Token, now: int, y: System)
    requires Good(f, x) && Once(x) && AllIdle(x)
    requires Act(f, x, Dial(c), Dialled(x, c)) && Act(f, Dialled(x, c), Attach(c, minted, now), y)
    ensures Idle(y, c) && Once(Drained(y, c))
  {
    var d := Dialled(x, c);
    ActGood(f, x, Dial(c), d);
    OthersOnce(f, x, Dial(c), d);
    StillIdle(x, d);
    AttachGood(f, d, c, minted, now, y);
    OthersOnce(f, d, Attach(c, minted, now), y);
    StillIdle(d, y);
    DrainOnce(f, y, c);
  }

  // ---------------------------------------------------------------- runs that accept a publish twice

  /** Two read loops have the same frame in hand, the second of them because the filter let it through. */
  lemma TwoInHand(cfg: Config) returns (f: Focus, xs: seq<System>, acts: seq<Action>, x: System)
    requires cfg.budget >= 11 && cfg.ttl >= 0
    ensures f == Focus(cfg, 9, 5) && Goes(f, xs, acts) && xs[0] == BEGINNING && Act(f, x, Take(3), Final(xs)) && Doubles(x, Take(3))
    ensures Final(xs).pipes == map[2 := Pipe(false, [], [], Some(1)), 3 := Pipe(true, [], [], Some(1))]
    ensures Final(xs).accepted == [] && Final(xs).world.state == RESUMED
  {
    f, xs, acts := OneInHand(cfg);
    xs, acts := ResumesWithOne(f, xs, acts);
    xs, acts, x := ReplayedInHand(f, xs, acts);
    assert Holds(x, 2, 1);
  }

  lemma Accepts(f: Focus, xs: seq<System>, acts: seq<Action>, c: Conn) returns (ys: seq<System>, bcts: seq<Action>)
    requires Goes(f, xs, acts) && c in Final(xs).pipes && Final(xs).pipes[c].hand.Some?
    ensures Goes(f, ys, bcts) && ys[0] == xs[0] && Final(ys) == Returned(Final(xs), c, true)
  {
    assert Tracked(f, xs[|xs| - 1]);
    ys, bcts := OneMoreAct(f, xs, acts, Return(c, true), Returned(Final(xs), c, true));
  }

  /**
   The application is still busy with a frame when its connection is lost; the next connection replays the
   frame, the filter lets it through, and both handlers accept it.
   */
  lemma DoubleReachable(cfg: Config) returns (f: Focus, xs: seq<System>, acts: seq<Action>)
    requires cfg.budget >= 11 && cfg.ttl >= 0
    ensures Story(f, xs, acts) && Final(xs).accepted == [1, 1]
  {
    var x: System;
    f, xs, acts, x := TwoInHand(cfg);
    xs, acts := Accepts(f, xs, acts, 2);
    xs, acts := Accepts(f, xs, acts, 3);
    BeginningIsStart(cfg);
  }

  /** The first publish is accepted before the caller of `Subscribe` gets to adopt the zero it was told. */
  lemma AcceptedThenLowered(cfg: Config) returns (f: Focus, xs: seq<System>, acts: seq<Action>)
    requires cfg.budget >= 11
    ensures f == Focus(cfg, 9, 5) && Goes(f, xs, acts) && xs[0] == BEGINNING
    ensures Final(xs) == System(World(CACHED, map[0 := Writing(5, Entry(1, [0]), {}, {})]), NEW, Some(2), map[2 := NEW_PIPE], map[], {0}, [1], {}, {})
  {
    f, xs, acts := OneInHand(cfg);
    xs, acts := Accepts(f, xs, acts, 2);
    var x := Final(xs);
    assert x.tracker == Acknowledge(NEW, 1) == Absorb(Tracker(1, {})) == Tracker(1, {});
    xs, acts := OneMoreAct(f, xs, acts, Realign(0), x.(tracker := NEW));
  }

  /** The cursor falls back, and the next connection's replay of the frame is accepted again. */
  lemma LoweredReachable(cfg: Config) returns (f: Focus, xs: seq<System>, acts: seq<Action>)
    requires cfg.budget >= 11 && cfg.ttl >= 0
    ensures Story(f, xs, acts) && Final(xs).accepted == [1, 1]
  {
    var x: System;
    f, xs, acts := AcceptedThenLowered(cfg);
    xs, acts := ResumesWithOne(f, xs, acts);
    xs, acts, x := ReplayedInHand(f, xs, acts);
    xs, acts := Accepts(f, xs, acts, 3);
    BeginningIsStart(cfg);
  }
}
