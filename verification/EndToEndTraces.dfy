/** Stories of one client, told step by step from the empty server, that the failing runs share. */
module EndToEndTraces {
  import opened Wire
  import opened PubSub
  import opened PubSubSteps
  import opened PubSubRuns
  import opened PubSubRaces
  import opened PubSubOverlap
  import opened PubSubTraces
  import opened Resilient
  import opened EndToEnd

  /** Connection 2 of session 9 is the only member of topic 5. */
  const SUBSCRIBED := State(map[5 := {2}], map[9 := Session(2, {5}, 0)], map[2 := 9], map[], map[], [])

  lemma Subscribes(cfg: Config) returns (ws: seq<World>, es: seq<Section>)
    ensures RaceRun(cfg, ws, es) && ws[|ws| - 1] == World(SUBSCRIBED, map[])
  {
    var s1 := State(map[], map[9 := Session(2, {}, 0)], map[2 := 9], map[], map[], []);
    assert {} + {2} == {2} && {} + {5} == {5};
    assert Note(s1, 2, 5, true, 0) == SUBSCRIBED.sessions;
    assert Subscribe(s1, 2, 5, 0) == SUBSCRIBED;
    ws, es := Extend(cfg, [World(EMPTY, map[])], [], Other(Greet(2, [1], NO_TOKEN, 9, 0)), World(s1, map[]));
    ws, es := Extend(cfg, ws, es, Other(Join(2, 5, 0)), World(SUBSCRIBED, map[]));
  }

  /** The client just after the server has recorded its subscription. */
  const BEGINNING := System(World(SUBSCRIBED, map[]), NEW, Some(2), map[2 := NEW_PIPE], map[], {0}, [], {}, {})

  lemma BeginningIsStart(cfg: Config)
    ensures Start(Focus(cfg, 9, 5), BEGINNING) && Tracked(Focus(cfg, 9, 5), BEGINNING)
  {
    var ws, es := Subscribes(cfg);
    EveryInterleaving(cfg, ws, es, |ws| - 1);
    var f := Focus(cfg, 9, 5);
    assert Stock(f, BEGINNING) == [] && StockNumbers(f, BEGINNING) == {};
  }

  /** One publish to the topic, up to its numbered frame. */
  lemma NumbersOne(cfg: Config) returns (w1: World, w2: World, w3: World)
    ensures Step(cfg, World(SUBSCRIBED, map[]), Enter(0, 5, [0]), w1) && Step(cfg, w1, FindCounter(0), w2) && Step(cfg, w2, TakeNumber(0), w3)
    ensures w1.state == SUBSCRIBED && w2.state == SUBSCRIBED.(topicSeqs := map[5 := 0], counters := [0])
    ensures w3.state == w2.state.(counters := [1]) && w3.calls == map[0 := Encoded(5, Entry(1, [0]), {2})]
    ensures NoneWriting(w2.calls)
  {
    w1 := World(SUBSCRIBED, map[0 := Admitted(5, [0], {2})]);
    w2 := World(SUBSCRIBED.(topicSeqs := map[5 := 0], counters := [0]), map[0 := Counting(5, [0], {2}, 0)]);
    w3 := World(w2.state.(counters := [1]), map[0 := Encoded(5, Entry(1, [0]), {2})]);
    assert Held(SUBSCRIBED, 5);
    assert Numbered(SUBSCRIBED, 5) == w2.state && Increment(w2.state, 0) == w3.state;
  }

  /** And its cached one. */
  lemma PublishesOne(cfg: Config) returns (w1: World, w2: World, w3: World, w4: World)
    requires cfg.budget >= 11
    ensures Step(cfg, World(SUBSCRIBED, map[]), Enter(0, 5, [0]), w1) && Step(cfg, w1, FindCounter(0), w2)
    ensures Step(cfg, w2, TakeNumber(0), w3) && Step(cfg, w3, Remember(0), w4)
    ensures w1.state == SUBSCRIBED && w2.state == SUBSCRIBED.(topicSeqs := map[5 := 0], counters := [0])
    ensures w3.state == w2.state.(counters := [1]) && w4.state == w3.state.(cache := map[5 := [Entry(1, [0])]])
    ensures w4.calls == map[0 := Writing(5, Entry(1, [0]), {2}, {})] && NoneWriting(w2.calls) && NoneWriting(w3.calls)
  {
    w1, w2, w3 := NumbersOne(cfg);
    w4 := CachesOne(cfg, w3);
  }

  lemma CachesOne(cfg: Config, w: World) returns (w': World)
    requires cfg.budget >= 11 && w.calls == map[0 := Encoded(5, Entry(1, [0]), {2})] && w.state.cache == map[]
    ensures Step(cfg, w, Remember(0), w') && w'.state == w.state.(cache := map[5 := [Entry(1, [0])]])
    ensures w'.calls == map[0 := Writing(5, Entry(1, [0]), {2}, {})]
  {
    w' := CachesFirst(cfg, w, Entry(1, [0]));
  }

  /** A frame that fits the budget, cached into an empty cache. */
  lemma CachesFirst(cfg: Config, w: World, p: Cached) returns (w': World)
    requires |p.buf| <= cfg.budget && w.calls == map[0 := Encoded(5, p, {2})] && w.state.cache == map[]
    ensures Step(cfg, w, Remember(0), w')
    ensures w' == World(w.state.(cache := map[5 := [p]]), map[0 := Writing(5, p, {2}, {})])
  {
    assert Total(w.state.cache) == 0;
    w' := Caches(cfg, w, 0);
    assert [] + [p] == [p] && w.state.cache[5 := [p]] == map[5 := [p]];
  }

  /** A section that concerns neither the client's connections nor its membership is the server's alone. */
  lemma ServesQuietly(f: Focus, x: System, e: Section, w: World)
    requires Step(f.cfg, x.world, e, w) && !e.Write? && !e.Other? && Member(f, x)
    ensures Act(f, x, Serve(e), x.(world := w))
  {
  }

  const CACHED := SUBSCRIBED.(topicSeqs := map[5 := 0], counters := [1], cache := map[5 := [Entry(1, [0])]])

  lemma StillMember(f: Focus, x: System)
    requires f.topic == 5 && x.link == Some(2) && x.world.state.subs == map[5 := {2}]
    requires forall i :: i in x.world.calls && x.world.calls[i].Writing? ==> x.world.calls[i].failed == {}
    ensures Member(f, x)
  {
  }

  predicate NoneWriting(calls: map<nat, Call>) {
    forall i :: i in calls ==> !calls[i].Writing?
  }

  /** One section that is the server's alone, added to a story. */
  lemma ServedOn(f: Focus, xs: seq<System>, acts: seq<Action>, e: Section, w: World) returns (ys: seq<System>, bcts: seq<Action>)
    requires f.topic == 5 && f.token == 9 && Goes(f, xs, acts) && Step(f.cfg, Final(xs).world, e, w) && !e.Write? && !e.Other?
    requires Final(xs).link == Some(2) && Final(xs).world.state.subs == map[5 := {2}] && w.state.sessions == SUBSCRIBED.sessions
    requires NoneWriting(Final(xs).world.calls)
    ensures Goes(f, ys, bcts) && ys[0] == xs[0] && Final(ys) == Final(xs).(world := w)
  {
    var x := Final(xs);
    StillMember(f, x);
    ServesQuietly(f, x, e, w);
    ys, bcts := OneMoreAct(f, xs, acts, Serve(e), x.(world := w));
  }

  lemma OneCounting(f: Focus, xs: seq<System>, acts: seq<Action>, w1: World, w2: World) returns (ys: seq<System>, bcts: seq<Action>)
    requires f == Focus(f.cfg, 9, 5) && Goes(f, xs, acts) && Final(xs).world == World(SUBSCRIBED, map[]) && Final(xs).link == Some(2)
    requires Step(f.cfg, World(SUBSCRIBED, map[]), Enter(0, 5, [0]), w1) && Step(f.cfg, w1, FindCounter(0), w2)
    requires w1.state == SUBSCRIBED && w2.state.sessions == SUBSCRIBED.sessions
    ensures Goes(f, ys, bcts) && ys[0] == xs[0] && Final(ys) == Final(xs).(world := w2)
  {
    ys, bcts := ServedOn(f, xs, acts, Enter(0, 5, [0]), w1);
    ys, bcts := ServedOn(f, ys, bcts, FindCounter(0), w2);
  }

  lemma OneRemembered(f: Focus, xs: seq<System>, acts: seq<Action>, w3: World, w4: World) returns (ys: seq<System>, bcts: seq<Action>)
    requires f == Focus(f.cfg, 9, 5) && Goes(f, xs, acts) && Final(xs).link == Some(2) && Final(xs).world.state.subs == map[5 := {2}]
    requires NoneWriting(Final(xs).world.calls) && NoneWriting(w3.calls) && w3.state.subs == map[5 := {2}]
    requires Step(f.cfg, Final(xs).world, TakeNumber(0), w3) && Step(f.cfg, w3, Remember(0), w4)
    requires w3.state.sessions == w4.state.sessions == SUBSCRIBED.sessions
    ensures Goes(f, ys, bcts) && ys[0] == xs[0] && Final(ys) == Final(xs).(world := w4)
  {
    ys, bcts := ServedOn(f, xs, acts, TakeNumber(0), w3);
    ys, bcts := ServedOn(f, ys, bcts, Remember(0), w4);
  }

  /** The client's session has one publish cached that it was not yet sent. */
  lemma OneCached(cfg: Config) returns (f: Focus, xs: seq<System>, acts: seq<Action>)
    requires cfg.budget >= 11
    ensures f == Focus(cfg, 9, 5) && Goes(f, xs, acts) && xs[0] == BEGINNING
    ensures Final(xs) == System(World(CACHED, map[0 := Writing(5, Entry(1, [0]), {2}, {})]), NEW, Some(2), map[2 := NEW_PIPE], map[], {0}, [], {}, {})
  {
    f, xs, acts := Focus(cfg, 9, 5), [BEGINNING], [];
    var w1, w2, w3, w4 := PublishesOne(cfg);
    xs, acts := OneCounting(f, xs, acts, w1, w2);
    xs, acts := OneRemembered(f, xs, acts, w3, w4);
  }

  /** The frame is written to the client. */
  lemma WritesOne(f: Focus, x: System) returns (x': System)
    requires f.topic == 5 && x.world == World(CACHED, map[0 := Writing(5, Entry(1, [0]), {2}, {})]) && x.link == Some(2) && x.pipes == map[2 := NEW_PIPE]
    ensures Act(f, x, Serve(Write(0, 2, true)), x')
    ensures x' == x.(world := World(CACHED, map[0 := Writing(5, Entry(1, [0]), {}, {})]), pipes := map[2 := Pipe(true, [], [1], None)])
  {
    var w := World(CACHED, map[0 := Writing(5, Entry(1, [0]), {}, {})]);
    StillMember(f, x);
    assert {2} - {2} == {} && [] + [1] == [1];
    assert Step(f.cfg, x.world, Write(0, 2, true), w);
    x' := x.(world := w, pipes := map[2 := Pipe(true, [], [1], None)]);
  }

  /** Its read loop hands it to the application. */
  lemma OneInHand(cfg: Config) returns (f: Focus, xs: seq<System>, acts: seq<Action>)
    requires cfg.budget >= 11
    ensures f == Focus(cfg, 9, 5) && Goes(f, xs, acts) && xs[0] == BEGINNING
    ensures Final(xs) == System(World(CACHED, map[0 := Writing(5, Entry(1, [0]), {}, {})]), NEW, Some(2), map[2 := Pipe(true, [], [], Some(1))], map[], {0}, [], {}, {})
  {
    f, xs, acts := OneCached(cfg);
    var x := WritesOne(f, Final(xs));
    xs, acts := OneMoreAct(f, xs, acts, Serve(Write(0, 2, true)), x);
    assert [1][1..] == [];
    xs, acts := OneMoreAct(f, xs, acts, Take(2), Taken(x, 2));
  }

  const RESUMED := State(map[5 := {3}], map[9 := Session(3, {5}, 0)], map[3 := 9], CACHED.cache, CACHED.topicSeqs, CACHED.counters)

  /** What resuming session 9 on connection 3 does to the tables. */
  lemma ResumesOnThree(cfg: Config)
    requires cfg.ttl >= 0
    ensures Resumable(CACHED, 9, cfg.ttl, 0) && Hello(CACHED, 3, [1], 9, 10, cfg.ttl, 0) == RESUMED
  {
    var was := CACHED.sessions[9];
    assert {2} - {2} + {3} == {3};
    assert CACHED.subs + (map t | t in was.topics :: At(CACHED.subs, t) - {was.conn} + {3}) == RESUMED.subs;
    assert (CACHED.connTokens - {2})[3 := 9] == RESUMED.connTokens;
  }

  lemma NewerThanNothing(p: Cached)
    requires p.seqNo == 1
    ensures Numbers(Newer([p], 0)) == [1]
  {
    assert [p][..0] == [];
    assert Newer([p], 0) == [] + [p] == [p];
  }

  /** The connection is lost and the client dials again. */
  lemma DialsAgain(f: Focus, xs: seq<System>, acts: seq<Action>) returns (ys: seq<System>, bcts: seq<Action>)
    requires f.token == 9 && f.topic == 5 && Goes(f, xs, acts)
    requires Final(xs).world.state == CACHED && Final(xs).link == Some(2) && Final(xs).pipes.Keys == {2}
    ensures Goes(f, ys, bcts) && ys[0] == xs[0]
    ensures Final(ys) == Dialled(Final(xs).(link := None, pipes := map[2 := Final(xs).pipes[2].(open := false, wire := [])]), 3)
  {
    var x := Final(xs);
    var x1 := x.(link := None, pipes := map[2 := x.pipes[2].(open := false, wire := [])]);
    assert Act(f, x, Sever(2), x1) && Act(f, x1, Dial(3), Dialled(x1, 3)) by {
      assert x1.pipes == x.pipes[2 := x.pipes[2].(open := false, wire := [])];
    }
    ys, bcts := OneMoreAct(f, xs, acts, Sever(2), x1);
    ys, bcts := OneMoreAct(f, ys, bcts, Dial(3), Dialled(x1, 3));
  }

  /** The server resumes the session and collects the frame. */
  lemma ResumesWithOne(f: Focus, xs: seq<System>, acts: seq<Action>) returns (ys: seq<System>, bcts: seq<Action>)
    requires f.cfg.ttl >= 0 && f.token == 9 && f.topic == 5 && Goes(f, xs, acts)
    requires var x := Final(xs);
             x.world.state == CACHED && x.link == Some(2) && x.pipes.Keys == {2} && x.asked == map[] && x.tracker.cursor == 0
    ensures Goes(f, ys, bcts) && ys[0] == xs[0]
    ensures var x, y := Final(xs), Final(ys);
            && y == x.(world := World(RESUMED, x.world.calls), link := Some(3), rejected := {}, before := {},
                       pipes := map[2 := x.pipes[2].(open := false, wire := []), 3 := Pipe(true, [1], [], None)])
  {
    ys, bcts := DialsAgain(f, xs, acts);
    var x := Final(ys);
    var y := AttachesThree(f, x);
    ys, bcts := OneMoreAct(f, ys, bcts, Attach(3, 10, 0), y);
  }

  lemma AttachesThree(f: Focus, x: System) returns (y: System)
    requires f.cfg.ttl >= 0 && f.token == 9 && f.topic == 5 && x.world.state == CACHED && x.link == Some(3)
    requires x.pipes.Keys == {2, 3} && x.pipes[3] == NEW_PIPE && x.asked == map[3 := 0]
    ensures Act(f, x, Attach(3, 10, 0), y) && Tracked(f, y)
    ensures y == x.(world := World(RESUMED, x.world.calls), asked := map[], rejected := {}, before := {},
                    pipes := map[2 := x.pipes[2], 3 := Pipe(true, [1], [], None)])
  {
    ResumesOnThree(f.cfg);
    NewerThanNothing(Entry(1, [0]));
    y := Attached(f, x, 3, 10, 0);
    assert Stock(f, x) == [Entry(1, [0])];
    assert y.asked == map[] && y.pipes == map[2 := x.pipes[2], 3 := Pipe(true, [1], [], None)];
  }

  /** The frame is replayed to the new connection, whose read loop hands it to the application. */
  lemma ReplayedInHand(f: Focus, xs: seq<System>, acts: seq<Action>) returns (ys: seq<System>, bcts: seq<Action>, x1: System)
    requires f.cfg.ttl >= 0 && f.token == 9 && f.topic == 5 && Goes(f, xs, acts)
    requires var x := Final(xs);
             3 in x.pipes && x.pipes[3] == Pipe(true, [1], [], None) && x.tracker == NEW && x.world.state == RESUMED
    ensures Goes(f, ys, bcts) && ys[0] == xs[0]
    ensures var x, y := Final(xs), Final(ys);
            && x1 == Put(x, 3, Pipe(true, [], [1], None)) && Act(f, x1, Take(3), y) && y == Put(x, 3, Pipe(true, [], [], Some(1)))
  {
    var x := Final(xs);
    assert [1][1..] == [] && [] + [1] == [1];
    x1 := Put(x, 3, Pipe(true, [], [1], None));
    var x2 := Put(x, 3, Pipe(true, [], [], Some(1)));
    assert Replayed(x, 3) == x1 && Taken(x1, 3) == x2;
    ys, bcts := OneMoreAct(f, xs, acts, ReplayNext(3), x1);
    ys, bcts := OneMoreAct(f, ys, bcts, Take(3), x2);
  }
}
