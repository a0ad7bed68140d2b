/**
 Runs of overlapping calls that break what holds when publishes do not overlap. Each is a concrete
 sequence of lock sections from the empty server.
 */
module PubSubTraces {
  import opened Wire
  import opened PubSub
  import opened PubSubSteps
  import opened PubSubRuns
  import opened PubSubRaces
  import opened PubSubOverlap

  lemma Extend(cfg: Config, ws: seq<World>, es: seq<Section>, e: Section, w': World) returns (vs: seq<World>, fs: seq<Section>)
    requires RaceRun(cfg, ws, es) && Step(cfg, ws[|ws| - 1], e, w')
    ensures RaceRun(cfg, vs, fs) && vs == ws + [w'] && vs[|vs| - 1] == w'
  {
    vs, fs := ws + [w'], es + [e];
    forall i | 0 <= i < |fs|
      ensures StepAt(cfg, vs, fs, i)
    {
      if i < |es| {
        assert StepAt(cfg, ws, es, i);
        assert vs[i] == ws[i] && fs[i] == es[i] && vs[i + 1] == ws[i + 1];
      }
    }
  }

  /** One more small frame fits beside what is cached. */
  lemma FrameFits(c: Cache, t: Topic, p: Cached, budget: nat)
    requires |Entries(c, t)| < TOPIC_CACHE_SIZE && Total(c) + |p.buf| <= budget
    ensures var c' := c[t := Entries(c, t) + [p]];
            Trim(Entries(c, t) + [p]) == Entries(c, t) + [p] && Evicted(c', budget, c') && Total(c') == Total(c) + |p.buf|
  {
    var c' := c[t := Entries(c, t) + [p]];
    AppendBytes(c, t, p);
    assert Evictions(c', budget, []) && c' == Without(c', []);
  }

  /** A call that caches its frame. */
  lemma Caches(cfg: Config, w: World, id: nat) returns (w': World)
    requires id in w.calls && w.calls[id].Encoded? && |Entries(w.state.cache, w.calls[id].topic)| < TOPIC_CACHE_SIZE
    requires Total(w.state.cache) + |w.calls[id].entry.buf| <= cfg.budget
    ensures Step(cfg, w, Remember(id), w')
    ensures var c := w.calls[id];
            && w' == World(w.state.(cache := w.state.cache[c.topic := Entries(w.state.cache, c.topic) + [c.entry]]),
                           w.calls[id := Writing(c.topic, c.entry, c.members, {})])
            && Total(w'.state.cache) == Total(w.state.cache) + |c.entry.buf|
  {
    var c := w.calls[id];
    FrameFits(w.state.cache, c.topic, c.entry, cfg.budget);
    w' := World(w.state.(cache := w.state.cache[c.topic := Entries(w.state.cache, c.topic) + [c.entry]]),
                w.calls[id := Writing(c.topic, c.entry, c.members, {})]);
  }

  lemma LastMemberLeaves(s1: State, s2: State)
    requires s1 == Subscribe(EMPTY, 1, 5, 0) && s2 == Unsubscribe(s1, 1, 5, 0)
    ensures Held(s1, 5) && !Held(s2, 5) && s2 == EMPTY
  {
    StripAt(s1.subs, map[5 := {1}], 5);
    ForgetOne(s1.(subs := Strip(s1.subs, map[5 := {1}]), sessions := Note(s1, 1, 5, false, 0)), 5);
    assert s2.subs == map[] && s2.cache == map[] && s2.topicSeqs == map[];
  }

  /** A publish is admitted for the only subscriber, who then leaves. */
  lemma SubscriberComesAndGoes(cfg: Config) returns (ws: seq<World>, es: seq<Section>)
    ensures RaceRun(cfg, ws, es) && ws[|ws| - 1] == World(EMPTY, map[0 := Admitted(5, [0], {1})])
  {
    var s1 := Subscribe(EMPTY, 1, 5, 0);
    LastMemberLeaves(s1, Unsubscribe(s1, 1, 5, 0));
    assert At(s1.subs, 5) == {1};
    ws, es := Extend(cfg, [World(EMPTY, map[])], [], Other(Join(1, 5, 0)), World(s1, map[]));
    ws, es := Extend(cfg, ws, es, Enter(0, 5, [0]), World(s1, map[0 := Admitted(5, [0], {1})]));
    ws, es := Extend(cfg, ws, es, Other(Part(1, 5, 0)), World(EMPTY, map[0 := Admitted(5, [0], {1})]));
  }

  /**
   The overlap that leaves a cache and a counter behind for a topic nobody holds: the only subscriber
   leaves after the publish was admitted and before its frame is cached.
   */
  lemma AbandonedCacheReachable(cfg: Config) returns (ws: seq<World>, es: seq<Section>)
    requires cfg.budget >= 11
    ensures RaceRun(cfg, ws, es)
    ensures var s := ws[|ws| - 1].state; 5 in s.cache && 5 in s.topicSeqs && !Held(s, 5)
  {
    ws, es := SubscriberComesAndGoes(cfg);
    var n := Numbered(EMPTY, 5);
    var w1 := World(n, map[0 := Counting(5, [0], {1}, 0)]);
    ws, es := Extend(cfg, ws, es, FindCounter(0), w1);
    assert n.counters == [0] && Increment(n, 0).counters == [1];
    var w2 := World(Increment(n, 0), map[0 := Encoded(5, Entry(1, [0]), {1})]);
    ws, es := Extend(cfg, ws, es, TakeNumber(0), w2);
    var w3 := Caches(cfg, w2, 0);
    ws, es := Extend(cfg, ws, es, Remember(0), w3);
  }

  /** Two publishes to one topic have both found its counter. */
  lemma TwoPublishing(cfg: Config) returns (ws: seq<World>, es: seq<Section>)
    ensures RaceRun(cfg, ws, es)
    ensures ws[|ws| - 1] == World(Numbered(Subscribe(EMPTY, 1, 5, 0), 5), map[0 := Counting(5, [0], {1}, 0), 1 := Counting(5, [0], {1}, 0)])
  {
    var s1 := Subscribe(EMPTY, 1, 5, 0);
    var n := Numbered(s1, 5);
    var a, b := Admitted(5, [0], {1}), Counting(5, [0], {1}, 0);
    assert At(s1.subs, 5) == {1};
    ws, es := Extend(cfg, [World(EMPTY, map[])], [], Other(Join(1, 5, 0)), World(s1, map[]));
    ws, es := Extend(cfg, ws, es, Enter(0, 5, [0]), World(s1, map[0 := a]));
    ws, es := Extend(cfg, ws, es, Enter(1, 5, [0]), World(s1, map[0 := a, 1 := a]));
    ws, es := Extend(cfg, ws, es, FindCounter(0), World(n, map[0 := b, 1 := a]));
    ws, es := Extend(cfg, ws, es, FindCounter(1), World(n, map[0 := b, 1 := b]));
  }

  /** They are numbered 1 and 2. */
  lemma TwoNumbered(cfg: Config, w: World) returns (w1: World, w2: World)
    requires w == World(Numbered(Subscribe(EMPTY, 1, 5, 0), 5), map[0 := Counting(5, [0], {1}, 0), 1 := Counting(5, [0], {1}, 0)])
    ensures Step(cfg, w, TakeNumber(0), w1) && Step(cfg, w1, TakeNumber(1), w2) && w2.state.cache == map[]
    ensures w2.calls == map[0 := Encoded(5, Entry(1, [0]), {1}), 1 := Encoded(5, Entry(2, [0]), {1})]
  {
    assert w.state.counters == [0];
    w1 := OneNumbered(cfg, w, 0, 0);
    w2 := OneNumbered(cfg, w1, 1, 1);
  }

  lemma OneNumbered(cfg: Config, w: World, id: nat, last: nat) returns (w': World)
    requires id in w.calls && w.calls[id] == Counting(5, [0], {1}, 0) && w.state.counters == [last] && last < MAX_SEQUENCE
    ensures w' == World(w.state.(counters := [last + 1]), w.calls[id := Encoded(5, Entry(last + 1, [0]), {1})])
    ensures Step(cfg, w, TakeNumber(id), w')
  {
    w' := World(w.state.(counters := [last + 1]), w.calls[id := Encoded(5, Entry(last + 1, [0]), {1})]);
    assert Increment(w.state, 0) == w'.state;
  }

  /** They are cached in the other order. */
  lemma TwoCached(cfg: Config, w: World) returns (w1: World, w2: World)
    requires cfg.budget >= 22 && w.state.cache == map[]
    requires w.calls == map[0 := Encoded(5, Entry(1, [0]), {1}), 1 := Encoded(5, Entry(2, [0]), {1})]
    ensures Step(cfg, w, Remember(1), w1) && Step(cfg, w1, Remember(0), w2) && !Ordered(w2.state.cache)
  {
    w1 := Caches(cfg, w, 1);
    assert Entries(w1.state.cache, 5) == [Entry(2, [0])];
    w2 := Caches(cfg, w1, 0);
    assert w2.state.cache[5] == [Entry(2, [0]), Entry(1, [0])];
    assert !Increasing(w2.state.cache[5]);
  }

  /** Two publishes take the numbers 1 and 2, and the second is cached first. */
  lemma OvertakenReachable(cfg: Config) returns (ws: seq<World>, es: seq<Section>)
    requires cfg.budget >= 22
    ensures RaceRun(cfg, ws, es) && !Ordered(ws[|ws| - 1].state.cache)
  {
    ws, es := TwoPublishing(cfg);
    var w1, w2 := TwoNumbered(cfg, ws[|ws| - 1]);
    ws, es := Extend(cfg, ws, es, TakeNumber(0), w1);
    ws, es := Extend(cfg, ws, es, TakeNumber(1), w2);
    var w3, w4 := TwoCached(cfg, w2);
    ws, es := Extend(cfg, ws, es, Remember(1), w3);
    ws, es := Extend(cfg, ws, es, Remember(0), w4);
  }

  /** A client with a session subscribes while a publish to its topic is under way. */
  lemma JoinsMidPublish(cfg: Config) returns (ws: seq<World>, es: seq<Section>)
    ensures RaceRun(cfg, ws, es)
    ensures ws[|ws| - 1] == World(State(map[5 := {1, 2}], map[9 := Session(2, {5}, 0)], map[2 := 9], map[], map[], []),
                                  map[0 := Admitted(5, [0], {1})])
  {
    var s1 := State(map[], map[9 := Session(2, {}, 0)], map[2 := 9], map[], map[], []);
    var s2 := s1.(subs := map[5 := {1}]);
    var s3 := State(map[5 := {1, 2}], map[9 := Session(2, {5}, 0)], map[2 := 9], map[], map[], []);
    var call := Admitted(5, [0], {1});
    assert {} + {1} == {1} && {1} + {2} == {1, 2} && {} + {5} == {5};
    assert Subscribe(s1, 1, 5, 0) == s2;
    assert Note(s2, 2, 5, true, 0) == s3.sessions;
    assert Subscribe(s2, 2, 5, 0) == s3;
    assert At(s2.subs, 5) == {1};
    ws, es := Extend(cfg, [World(EMPTY, map[])], [], Other(Greet(2, [1], NO_TOKEN, 9, 0)), World(s1, map[]));
    ws, es := Extend(cfg, ws, es, Other(Join(1, 5, 0)), World(s2, map[]));
    ws, es := Extend(cfg, ws, es, Enter(0, 5, [0]), World(s2, map[0 := call]));
    ws, es := Extend(cfg, ws, es, Other(Join(2, 5, 0)), World(s3, map[0 := call]));
  }
}
