/**
 The server and one acknowledging client together: publishes, live delivery, acceptance and rejection
 by the application, lost connections and session resumes. Every other client, the janitor and any
 number of overlapping publishes act in between, one lock section or one write at a time. So do the
 client's own goroutines: a read loop that outlives its connection, the caller of `Subscribe` that aligns
 the replay state, the next dial, a late handshake, and the replay of a resumed session, frame by frame.
 One topic and one session are followed; the session keeps recording the topic.
 */
module EndToEnd {
  import opened Wire
  import opened PubSub
  import opened PubSubSteps
  import opened PubSubRuns
  import opened PubSubRaces
  import opened PubSubOverlap
  import opened Resilient

  /** What the claims below are about: one session's view of one topic. */
  datatype Focus = Focus(cfg: Config, token: Token, topic: Topic)

  /**
   One of the client's connections, by the numbers of the topic's frames: what the server has collected
   for replay and not yet written, what is written and not yet read, and the frame its read loop has let
   through the filter and the application has not yet answered for.
   */
  datatype Pipe = Pipe(open: bool, replay: seq<nat>, wire: seq<nat>, hand: Option<nat>)

  const NEW_PIPE := Pipe(true, [], [], None)

  /**
   `link` is the client's current connection and `pipes` are all it ever had; `asked` holds the cursors
   sent in handshakes the server has not processed, `reported` the numbers sent in its answers to
   subscriptions. `accepted` is the log of what the application took, `rejected` what it refused since
   the connection last resumed. `before` are the numbers that were cached when the connection became a
   member by subscribing: those it is not promised.
   */
  datatype System = System(
    world: World,
    tracker: Tracker,
    link: Option<Conn>,
    pipes: map<Conn, Pipe>,
    asked: map<Conn, nat>,
    reported: set<nat>,
    accepted: seq<nat>,
    rejected: set<nat>,
    before: set<nat>)

  datatype Action =
    | Serve(section: Section)
    | Take(conn: Conn)                            // a read loop reads a frame and asks the filter
    | Return(conn: Conn, accept: bool)            // the application answers; an accepted frame is acknowledged
    | Realign(lastSeq: nat)                       // the caller of Subscribe adopts the reported number
    | ReplayNext(conn: Conn)
    | ReplayFails(conn: Conn)                     // a replay write fails and the rest is given up
    | Retire                                      // the client gives its connection up; the read loop runs on
    | Sever(conn: Conn)                           // a connection is closed or lost
    | Dial(conn: Conn)
    | Attach(conn: Conn, minted: Token, now: int) // the server processes a handshake that resumes the session

  /** What the server caches for the topic. */
  function Stock(f: Focus, x: System): seq<Cached> {
    Entries(x.world.state.cache, f.topic)
  }

  function StockNumbers(f: Focus, x: System): set<nat> {
    set p | p in Stock(f, x) :: p.seqNo as nat
  }

  /** The session is alive and records the topic. */
  predicate Tracked(f: Focus, x: System) {
    f.token in x.world.state.sessions && f.topic in x.world.state.sessions[f.token].topics
  }

  /** A publish has failed to write to the client and is about to take it out of the topic. */
  ghost predicate Expelling(f: Focus, x: System) {
    x.link.Some? &&
    exists i :: i in x.world.calls && x.world.calls[i].Writing? && x.world.calls[i].topic == f.topic && x.link.value in x.world.calls[i].failed
  }

  /** The client's current connection is a member of the topic and not about to be taken out. */
  ghost predicate Member(f: Focus, x: System) {
    x.link.Some? && x.link.value in At(x.world.state.subs, f.topic) && !Expelling(f, x)
  }

  function Numbers(es: seq<Cached>): seq<nat> {
    seq(|es|, i requires 0 <= i < |es| => es[i].seqNo)
  }

  /** The section writes a frame of the topic to an open connection of the client. */
  predicate Reaches(f: Focus, x: System, e: Section) {
    && e.Write? && e.ok && e.conn in x.pipes && x.pipes[e.conn].open
    && e.id in x.world.calls && Bears(x.world.calls[e.id], f.topic)
  }

  function Flowed(f: Focus, x: System, e: Section): map<Conn, Pipe> {
    if Reaches(f, x, e) then
      x.pipes[e.conn := x.pipes[e.conn].(wire := x.pipes[e.conn].wire + [x.world.calls[e.id].entry.seqNo as nat])]
    else x.pipes
  }

  /** The client has subscribed: the server's answer carries the topic's last number. */
  predicate Answers(f: Focus, x: System, e: Section) {
    e.Other? && e.event.Join? && e.event.topic == f.topic && e.event.conn in x.pipes
  }

  /** The system after a section that left the tables and calls as `w`. */
  ghost function Served(f: Focus, x: System, e: Section, w: World): System {
    var x' := x.(world := w, pipes := Flowed(f, x, e),
                 reported := if Answers(f, x, e) then x.reported + {LastSeq(w.state, f.topic) as nat} else x.reported);
    if !Member(f, x) && Member(f, x') then x'.(before := StockNumbers(f, x')) else x'
  }

  function Put(x: System, c: Conn, pipe: Pipe): System {
    x.(pipes := x.pipes[c := pipe])
  }

  /** The read loop reads a frame; the filter keeps it or lets it through to the application. */
  function Taken(x: System, c: Conn): System
    requires c in x.pipes && x.pipes[c].wire != []
  {
    var p := x.pipes[c];
    Put(x, c, p.(wire := p.wire[1..], hand := if ShouldDeliver(x.tracker, p.wire[0]) then Some(p.wire[0]) else p.hand))
  }

  function Returned(x: System, c: Conn, accept: bool): System
    requires c in x.pipes && x.pipes[c].hand.Some?
  {
    var n, x' := x.pipes[c].hand.value, Put(x, c, x.pipes[c].(hand := None));
    if accept then x'.(tracker := Acknowledge(x.tracker, n), accepted := x.accepted + [n])
    else x'.(rejected := x.rejected + {n})
  }

  function Replayed(x: System, c: Conn): System
    requires c in x.pipes && x.pipes[c].replay != []
  {
    var p := x.pipes[c];
    Put(x, c, p.(replay := p.replay[1..], wire := p.wire + [p.replay[0]]))
  }

  /** A connection nobody has a note of. */
  predicate NewConn(x: System, c: Conn) {
    && c !in x.pipes && c !in x.world.state.connTokens
    && (forall t :: t in x.world.state.subs ==> c !in x.world.state.subs[t])
  }

  function Dialled(x: System, c: Conn): System {
    x.(link := Some(c), pipes := x.pipes[c := NEW_PIPE], asked := x.asked[c := x.tracker.cursor])
  }

  /** The lock section of a handshake that resumes the session and collects the catch-up above the cursor it was sent. */
  function Attached(f: Focus, x: System, c: Conn, minted: Token, now: int): System
    requires c in x.asked && c in x.pipes
  {
    var x' := x.(world := x.world.(state := Hello(x.world.state, c, [1], f.token, minted, f.cfg.ttl, now)),
                 pipes := x.pipes[c := x.pipes[c].(replay := Numbers(Newer(Stock(f, x), x.asked[c])))],
                 asked := x.asked - {c});
    if x.link == Some(c) then x'.(rejected := {}, before := {}) else x'
  }

  ghost predicate Act(f: Focus, x: System, a: Action, x': System) {
    match a
    case Serve(e) =>
      && Step(f.cfg, x.world, e, x'.world) && x' == Served(f, x, e, x'.world)
      && (e.Other? && e.event.Greet? ==> e.event.conn !in x.pipes)
    case Take(c) => c in x.pipes && x.pipes[c].wire != [] && x.pipes[c].hand == None && x' == Taken(x, c)
    case Return(c, accept) => c in x.pipes && x.pipes[c].hand.Some? && x' == Returned(x, c, accept)
    case Realign(lastSeq) => lastSeq in x.reported && x' == x.(tracker := Align(x.tracker, lastSeq))
    case ReplayNext(c) => c in x.pipes && x.pipes[c].open && x.pipes[c].replay != [] && x' == Replayed(x, c)
    case ReplayFails(c) => c in x.pipes && x.pipes[c].replay != [] && x' == Put(x, c, x.pipes[c].(replay := []))
    case Retire => x' == x.(link := None)
    case Sever(c) =>
      && c in x.pipes
      && x' == Put(x, c, x.pipes[c].(open := false, wire := [])).(link := if x.link == Some(c) then None else x.link)
    case Dial(c) => x.link == None && NewConn(x, c) && x' == Dialled(x, c)
    case Attach(c, minted, now) =>
      && c in x.asked && c in x.pipes && c !in x.world.state.connTokens
      && minted !in x.world.state.sessions && minted != NO_TOKEN && Resumable(x.world.state, f.token, f.cfg.ttl, now)
      && x' == Attached(f, x, c, minted, now)
  }

  // ---------------------------------------------------------------- what every run keeps

  /** A number somewhere on the way through a connection. */
  predicate InPipe(p: Pipe, n: nat) {
    n in p.replay || n in p.wire || p.hand == Some(n)
  }

  predicate PipeOk(p: Pipe) {
    && (forall n :: n in p.replay ==> n >= 1) && (forall n :: n in p.wire ==> n >= 1)
    && (p.hand.Some? ==> p.hand.value >= 1)
  }

  /** What the tracker stands for has been accepted. */
  ghost predicate Honest(x: System) {
    && Normal(x.tracker) && (forall n :: n in x.accepted ==> n >= 1)
    && (forall n :: Has(x.tracker, n) ==> n in x.accepted)
    && (forall c, n :: c in x.asked && 1 <= n <= x.asked[c] ==> n in x.accepted)
  }

  ghost predicate Good(f: Focus, x: System) {
    && RaceInv(f.cfg, x.world) && Honest(x)
    && (forall c :: c in x.pipes ==> PipeOk(x.pipes[c]))
    && (x.link.Some? ==> x.link.value in x.pipes && x.pipes[x.link.value].open)
  }

  lemma CachedGenuine(f: Focus, x: System, p: Cached)
    requires RaceInv(f.cfg, x.world) && p in Stock(f, x)
    ensures p.seqNo >= 1
  {
    assert Kept(x.world.state.cache[f.topic]);
  }

  /** A topic's share of a replay: the numbers of its cached entries above the cursor. */
  lemma {:induction false} NewerNumbers(es: seq<Cached>, cursor: nat, n: nat)
    ensures n in Numbers(Newer(es, cursor)) <==> n > cursor && exists p :: p in es && p.seqNo == n
    decreases |es|
  {
    if es != [] {
      var front, last := es[..|es| - 1], es[|es| - 1];
      NewerNumbers(front, cursor, n);
      assert es == front + [last];
      if last.seqNo > cursor {
        assert Numbers(Newer(front, cursor) + [last]) == Numbers(Newer(front, cursor)) + [last.seqNo];
      }
    }
  }

  /** The handshake's lock section is one of the server's own, and makes the connection a member. */
  lemma AttachStep(f: Focus, x: System, c: Conn, minted: Token, now: int, x': System)
    requires Act(f, x, Attach(c, minted, now), x')
    ensures Step(f.cfg, x.world, Other(Greet(c, [1], f.token, minted, now)), x'.world)
    ensures Stock(f, x') == Stock(f, x) && LastSeq(x'.world.state, f.topic) == LastSeq(x.world.state, f.topic)
    ensures Tracked(f, x) ==> Tracked(f, x') && c in At(x'.world.state.subs, f.topic)
  {
  }

  lemma ServeGood(f: Focus, x: System, e: Section, x': System)
    requires Good(f, x) && Act(f, x, Serve(e), x')
    ensures Good(f, x')
  {
    RaceKeeps(f.cfg, x.world, e, x'.world);
    FlowOk(f, x, e);
    assert Honest(x');
  }

  lemma FlowOk(f: Focus, x: System, e: Section)
    requires Good(f, x)
    ensures forall c :: c in Flowed(f, x, e) ==> c in x.pipes && PipeOk(Flowed(f, x, e)[c]) && Flowed(f, x, e)[c].open == x.pipes[c].open
    ensures Flowed(f, x, e).Keys == x.pipes.Keys
  {
    if Reaches(f, x, e) {
      assert CallOk(x.world.state, x.world.calls[e.id]);
      assert PipeOk(x.pipes[e.conn]);
    }
  }

  lemma LoopGood(f: Focus, x: System, a: Action, x': System)
    requires Good(f, x) && Act(f, x, a, x') && (a.Take? || a.Return?)
    ensures Good(f, x')
  {
    var p := x.pipes[a.conn];
    assert PipeOk(p);
    if a.Take? {
      assert p.wire[0] in p.wire && forall n :: n in p.wire[1..] ==> n in p.wire;
    } else {
      assert p.hand.value >= 1;
      AcknowledgeAdds(x.tracker, p.hand.value);
    }
  }

  lemma ReplayGood(f: Focus, x: System, a: Action, x': System)
    requires Good(f, x) && Act(f, x, a, x') && (a.ReplayNext? || a.ReplayFails?)
    ensures Good(f, x')
  {
    var p, p' := x.pipes[a.conn], x'.pipes[a.conn];
    assert PipeOk(p);
    assert p.replay[0] in p.replay && forall n :: n in p.replay[1..] ==> n in p.replay;
    assert PipeOk(p');
  }

  lemma AttachGood(f: Focus, x: System, c: Conn, minted: Token, now: int, x': System)
    requires Good(f, x) && Act(f, x, Attach(c, minted, now), x')
    ensures Good(f, x')
  {
    AttachStep(f, x, c, minted, now, x');
    RaceKeeps(f.cfg, x.world, Other(Greet(c, [1], f.token, minted, now)), x'.world);
    assert PipeOk(x.pipes[c]);
    forall n | n in x'.pipes[c].replay
      ensures n >= 1
    {
      NewerNumbers(Stock(f, x), x.asked[c], n);
    }
  }

  lemma ActGood(f: Focus, x: System, a: Action, x': System)
    requires Good(f, x) && Act(f, x, a, x')
    ensures Good(f, x')
  {
    match a
    case Serve(e) => ServeGood(f, x, e, x');
    case Take(_) => LoopGood(f, x, a, x');
    case Return(_, _) => LoopGood(f, x, a, x');
    case ReplayNext(_) => ReplayGood(f, x, a, x');
    case ReplayFails(_) => ReplayGood(f, x, a, x');
    case Attach(c, minted, now) => AttachGood(f, x, c, minted, now, x');
    case Sever(c) => assert PipeOk(x.pipes[c]);
    case _ =>
  }

  // ---------------------------------------------------------------- whole stories

  /**
   A client without replay state whose subscription the server has just recorded, with its answer still
   on the way, in a server whose publishes to the topic that are under way use the topic's present counter.
   */
  ghost predicate Start(f: Focus, x: System) {
    && RaceInv(f.cfg, x.world) && Current(x.world, f.topic) && Member(f, x)
    && x.tracker == NEW && x.pipes == map[x.link.value := NEW_PIPE] && x.asked == map[]
    && x.reported == {LastSeq(x.world.state, f.topic) as nat}
    && x.accepted == [] && x.rejected == {} && x.before == StockNumbers(f, x)
  }

  ghost predicate ActAt(f: Focus, xs: seq<System>, acts: seq<Action>, i: nat)
    requires i < |acts| < |xs|
  {
    Act(f, xs[i], acts[i], xs[i + 1])
  }

  /** A run in which the session never stops recording the topic. */
  ghost predicate Goes(f: Focus, xs: seq<System>, acts: seq<Action>) {
    && |xs| == |acts| + 1
    && (forall i :: 0 <= i < |xs| ==> Tracked(f, xs[i]))
    && (forall i :: 0 <= i < |acts| ==> ActAt(f, xs, acts, i))
  }

  ghost predicate Story(f: Focus, xs: seq<System>, acts: seq<Action>) {
    Goes(f, xs, acts) && Start(f, xs[0])
  }

  lemma {:induction false} GoesGood(f: Focus, xs: seq<System>, acts: seq<Action>, i: nat)
    requires Goes(f, xs, acts) && Good(f, xs[0]) && i < |xs|
    ensures Good(f, xs[i])
    decreases i
  {
    if i > 0 {
      GoesGood(f, xs, acts, i - 1);
      assert ActAt(f, xs, acts, i - 1);
      ActGood(f, xs[i - 1], acts[i - 1], xs[i]);
    }
  }

  lemma StartIsGood(f: Focus, x: System)
    requires Start(f, x)
    ensures Good(f, x)
  {
  }

  lemma StoryIsGood(f: Focus, xs: seq<System>, acts: seq<Action>, i: nat)
    requires Story(f, xs, acts) && i < |xs|
    ensures Good(f, xs[i])
  {
    StartIsGood(f, xs[0]);
    GoesGood(f, xs, acts, i);
  }

  /** The state a story ends in. */
  function Final(xs: seq<System>): System
    requires xs != []
  {
    xs[|xs| - 1]
  }

  lemma OneMoreAct(f: Focus, xs: seq<System>, acts: seq<Action>, a: Action, x': System) returns (ys: seq<System>, bcts: seq<Action>)
    requires Goes(f, xs, acts) && Act(f, Final(xs), a, x') && Tracked(f, x')
    ensures Goes(f, ys, bcts) && ys[0] == xs[0] && Final(ys) == x'
  {
    ys, bcts := xs + [x'], acts + [a];
    forall i | 0 <= i < |bcts|
      ensures ActAt(f, ys, bcts, i)
    {
      if i < |acts| {
        assert ActAt(f, xs, acts, i);
        assert ys[i] == xs[i] && bcts[i] == acts[i] && ys[i + 1] == xs[i + 1];
      }
    }
  }

  /** A cached publish that was not accepted lies above the cursor, is in the catch-up from there, and passes the filter. */
  lemma Recovers(f: Focus, x: System, p: Cached)
    requires Good(f, x) && p in Stock(f, x) && p.seqNo !in x.accepted
    ensures p.seqNo > x.tracker.cursor && ShouldDeliver(x.tracker, p.seqNo)
    ensures p.seqNo in Numbers(Newer(Stock(f, x), x.tracker.cursor))
    ensures forall c :: c in x.asked ==> p.seqNo in Numbers(Newer(Stock(f, x), x.asked[c]))
  {
    CachedGenuine(f, x, p);
    assert !Has(x.tracker, p.seqNo);
    FilterIsNonMembership(x.tracker, p.seqNo);
    NewerNumbers(Stock(f, x), x.tracker.cursor, p.seqNo);
    forall c | c in x.asked
      ensures p.seqNo in Numbers(Newer(Stock(f, x), x.asked[c]))
    {
      NewerNumbers(Stock(f, x), x.asked[c], p.seqNo);
    }
  }

  /**
   However publishes, resumes, replays and the client's own goroutines overlap: a cached publish that has
   not been accepted lies above the cursor, so every handshake from now on, and every one the server has
   yet to process, makes the server replay it, and it passes the filter.
   */
  lemma UnacceptedIsRecoverable(f: Focus, xs: seq<System>, acts: seq<Action>, i: nat, p: Cached)
    requires Story(f, xs, acts) && i < |xs| && p in Stock(f, xs[i]) && p.seqNo !in xs[i].accepted
    ensures var x := xs[i];
            && p.seqNo > x.tracker.cursor && ShouldDeliver(x.tracker, p.seqNo)
            && p.seqNo in Numbers(Newer(Stock(f, x), x.tracker.cursor))
            && (forall c :: c in x.asked ==> p.seqNo in Numbers(Newer(Stock(f, x), x.asked[c])))
  {
    StoryIsGood(f, xs, acts, i);
    Recovers(f, xs[i], p);
  }

  // ---------------------------------------------------------------- catching up

  /** A read loop at rest on an open connection. */
  predicate Idle(x: System, c: Conn) {
    c in x.pipes && x.pipes[c].open && x.pipes[c].hand == None
  }

  /** The read loop takes one frame and the application accepts it if it gets to see it. */
  function Handled(x: System, c: Conn): System
    requires Idle(x, c) && x.pipes[c].wire != []
  {
    var x' := Taken(x, c);
    if x'.pipes[c].hand.Some? then Returned(x', c, true) else x'
  }

  /** Writes what is left of a connection's replay, then reads and accepts everything on its wire. */
  function Drained(x: System, c: Conn): System
    requires Idle(x, c)
    decreases |x.pipes[c].replay|, |x.pipes[c].wire|
  {
    if x.pipes[c].replay != [] then Drained(Replayed(x, c), c)
    else if x.pipes[c].wire != [] then Drained(Handled(x, c), c)
    else x
  }

  lemma HandleAccepts(f: Focus, x: System, c: Conn)
    requires Good(f, x) && Idle(x, c) && x.pipes[c].wire != []
    ensures Good(f, Handled(x, c)) && Handled(x, c).world == x.world
    ensures forall n :: n in Handled(x, c).accepted <==> n in x.accepted || n == x.pipes[c].wire[0]
  {
    var n, x' := x.pipes[c].wire[0], Taken(x, c);
    assert PipeOk(x.pipes[c]) && n in x.pipes[c].wire;
    FilterIsNonMembership(x.tracker, n);
    LoopGood(f, x, Take(c), x');
    if x'.pipes[c].hand.Some? {
      LoopGood(f, x', Return(c, true), Returned(x', c, true));
    }
  }

  lemma {:induction false} DrainAccepts(f: Focus, x: System, c: Conn)
    requires Good(f, x) && Idle(x, c)
    ensures Good(f, Drained(x, c)) && Drained(x, c).world == x.world
    ensures forall n :: n in Drained(x, c).accepted <==> n in x.accepted || n in x.pipes[c].wire || n in x.pipes[c].replay
    decreases |x.pipes[c].replay|, |x.pipes[c].wire|
  {
    var p := x.pipes[c];
    if p.replay != [] {
      var next := Replayed(x, c);
      assert p.replay == [p.replay[0]] + p.replay[1..];
      ReplayGood(f, x, ReplayNext(c), next);
      DrainAccepts(f, next, c);
      assert forall m :: m in p.wire || m in p.replay <==> m in next.pipes[c].wire || m in next.pipes[c].replay;
    } else if p.wire != [] {
      assert p.wire == [p.wire[0]] + p.wire[1..];
      HandleAccepts(f, x, c);
      DrainAccepts(f, Handled(x, c), c);
    }
  }

  lemma ResumeDrains(f: Focus, x: System, c: Conn, minted: Token, now: int, y: System, n: nat)
    requires Good(f, x) && Act(f, x, Dial(c), Dialled(x, c)) && Act(f, Dialled(x, c), Attach(c, minted, now), y)
    ensures Good(f, y) && Idle(y, c) && Good(f, Drained(y, c))
    ensures n in Drained(y, c).accepted <==> n in x.accepted || exists p :: p in Stock(f, x) && p.seqNo == n
  {
    var d := Dialled(x, c);
    ActGood(f, x, Dial(c), d);
    AttachGood(f, d, c, minted, now, y);
    DrainAccepts(f, y, c);
    NewerNumbers(Stock(f, d), d.asked[c], n);
    if p :| p in Stock(f, x) && p.seqNo == n && n !in x.accepted {
      Recovers(f, d, p);
    }
  }

  /**
   From any reachable state, with publishes under way or not, dialling, resuming and taking the catch-up
   leaves exactly what had been accepted before plus everything the server cached for the topic.
   */
  lemma ResumeCatchesUp(f: Focus, xs: seq<System>, acts: seq<Action>, i: nat, c: Conn, minted: Token, now: int, y: System)
    requires Story(f, xs, acts) && i < |xs|
    requires Act(f, xs[i], Dial(c), Dialled(xs[i], c)) && Act(f, Dialled(xs[i], c), Attach(c, minted, now), y)
    ensures Idle(y, c)
    ensures forall n :: n in Drained(y, c).accepted <==> n in xs[i].accepted || exists p :: p in Stock(f, xs[i]) && p.seqNo == n
  {
    StoryIsGood(f, xs, acts, i);
    ResumeDrains(f, xs[i], c, minted, now, y, 0);
    forall n
      ensures n in Drained(y, c).accepted <==> n in xs[i].accepted || exists p :: p in Stock(f, xs[i]) && p.seqNo == n
    {
      ResumeDrains(f, xs[i], c, minted, now, y, n);
    }
  }

  // ---------------------------------------------------------------- one topic's share of a replay

  /** The entries of one topic in a replay of several. */
  function Only(replay: seq<(Topic, Cached)>, t: Topic): seq<Cached> {
    if replay == [] then []
    else Only(replay[..|replay| - 1], t) + if replay[|replay| - 1].0 == t then [replay[|replay| - 1].1] else []
  }

  lemma {:induction false} OnlyConcat(a: seq<(Topic, Cached)>, b: seq<(Topic, Cached)>, t: Topic)
    ensures Only(a + b, t) == Only(a, t) + Only(b, t)
    decreases |b|
  {
    if b == [] {
      assert a + b == a;
    } else {
      assert (a + b)[..|a + b| - 1] == a + b[..|b| - 1];
      OnlyConcat(a, b[..|b| - 1], t);
    }
  }

  lemma {:induction false} OnlyTagged(es: seq<Cached>, u: Topic, t: Topic)
    ensures Only(Tagged(u, es), t) == if u == t then es else []
    decreases |es|
  {
    if es != [] {
      var front := es[..|es| - 1];
      assert Tagged(u, es)[..|es| - 1] == Tagged(u, front);
      OnlyTagged(front, u, t);
    }
  }

  /** However the server walks the topics, each one's share of the replay is its own newer entries in order. */
  lemma {:induction false} ReplayOfTopic(c: Cache, cursors: map<Topic, nat>, order: seq<Topic>, t: Topic)
    requires forall i, j :: 0 <= i < j < |order| ==> order[i] != order[j]
    ensures Only(Replay(c, cursors, order), t) == if t in order then Newer(Entries(c, t), Cursor(cursors, t)) else []
    decreases |order|
  {
    if order != [] {
      var front, u := order[..|order| - 1], order[|order| - 1];
      var es := Newer(Entries(c, u), Cursor(cursors, u));
      ReplayOfTopic(c, cursors, front, t);
      OnlyTagged(es, u, t);
      OnlyConcat(Replay(c, cursors, front), Tagged(u, es), t);
      assert t in order <==> t in front || t == u;
    }
  }
}
