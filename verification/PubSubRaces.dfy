/**
 The publish/subscribe server with overlapping calls. A publish takes the lock several times and
 numbers its frame outside it, so other sections run in between. The byte budget, the session index
 and the frames themselves survive every interleaving; a topic's lifetime and its cache order do not,
 and `PubSubOverlap.dfy` says exactly when they do.
 */
module PubSubRaces {
  import opened Wire
  import opened PubSub
  import opened PubSubSteps
  import opened PubSubRuns

  /** How far one call to Publish has come. */
  datatype Call =
    | Admitted(topic: Topic, payload: seq<byte>, members: set<Conn>)
    | Counting(topic: Topic, payload: seq<byte>, members: set<Conn>, id: nat)
    | Encoded(topic: Topic, entry: Cached, members: set<Conn>)
    | Writing(topic: Topic, entry: Cached, members: set<Conn>, failed: set<Conn>)

  datatype World = World(state: State, calls: map<nat, Call>)

  datatype Section =
    | Other(event: Event)
    | Enter(id: nat, topic: Topic, payload: seq<byte>)
    | FindCounter(id: nat)
    | TakeNumber(id: nat)
    | Remember(id: nat)
    | Write(id: nat, conn: Conn, ok: bool)
    | Remove(id: nat, conn: Conn)

  /** One lock section, one atomic increment or one socket write. */
  ghost predicate Step(cfg: Config, w: World, e: Section, w': World) {
    match e
    case Other(event) =>
      !event.Send? && Assumed(w.state, event) && Next(cfg, w.state, event, w'.state) && w'.calls == w.calls
    case Enter(id, t, payload) =>
      id !in w.calls && Held(w.state, t)
      && w' == World(w.state, w.calls[id := Admitted(t, payload, At(w.state.subs, t))])
    case FindCounter(id) =>
      id in w.calls && w.calls[id].Admitted? &&
      var c := w.calls[id];
      var s := Numbered(w.state, c.topic);
      w' == World(s, w.calls[id := Counting(c.topic, c.payload, c.members, s.topicSeqs[c.topic])])
    case TakeNumber(id) =>
      id in w.calls && w.calls[id].Counting? &&
      var c := w.calls[id];
      var s := Increment(w.state, c.id);
      c.id < |s.counters| && 1 <= s.counters[c.id] &&
      w' == World(s, if Encodable(c.payload) then w.calls[id := Encoded(c.topic, Entry(s.counters[c.id], c.payload), c.members)]
                     else w.calls - {id})
    case Remember(id) =>
      id in w.calls && w.calls[id].Encoded? &&
      var c := w.calls[id];
      Remembered(w.state, c.topic, c.entry, cfg.budget, w'.state)
      && w'.calls == w.calls[id := Writing(c.topic, c.entry, c.members, {})]
    case Write(id, conn, ok) =>
      id in w.calls && w.calls[id].Writing? && conn in w.calls[id].members &&
      var c := w.calls[id];
      w' == World(w.state, w.calls[id := Writing(c.topic, c.entry, c.members - {conn}, if ok then c.failed else c.failed + {conn})])
    case Remove(id, conn) =>
      id in w.calls && w.calls[id].Writing? && conn in w.calls[id].failed &&
      var c := w.calls[id];
      w' == World(Expel(w.state, c.topic, {conn}), w.calls[id := Writing(c.topic, c.entry, c.members, c.failed - {conn})])
  }

  /** A topic's cache is within its limit and made of genuine frames; the order is not promised. */
  ghost predicate Kept(es: seq<Cached>) {
    1 <= |es| <= TOPIC_CACHE_SIZE && forall i :: 0 <= i < |es| ==> Genuine(es[i])
  }

  ghost predicate CachesKept(cfg: Config, c: Cache) {
    Total(c) <= cfg.budget && NO_TOPIC !in c && forall t :: t in c ==> Kept(c[t])
  }

  ghost predicate CallOk(s: State, c: Call) {
    && c.topic != NO_TOPIC
    && (c.Encoded? || c.Writing? ==> Genuine(c.entry))
    && (c.Counting? ==> c.id < |s.counters|)
  }

  ghost predicate RaceInv(cfg: Config, w: World) {
    && Tidy(w.state) && Wired(w.state) && CachesKept(cfg, w.state.cache)
    && (forall i :: i in w.calls ==> CallOk(w.state, w.calls[i]))
  }

  lemma FewerKept(cfg: Config, c: Cache, c': Cache)
    requires CachesKept(cfg, c) && Total(c') <= cfg.budget
    requires forall t :: t in c' ==> t in c && c'[t] == c[t]
    ensures CachesKept(cfg, c')
  {
  }

  lemma ForgetKept(cfg: Config, s: State, ts: set<Topic>)
    requires CachesKept(cfg, s.cache)
    ensures CachesKept(cfg, Forget(s, ts).cache)
  {
    TotalMinus(s.cache, set t | t in ts && !Held(s, t));
    FewerKept(cfg, s.cache, Forget(s, ts).cache);
  }

  lemma RememberKept(cfg: Config, s: State, t: Topic, p: Cached, s': State)
    requires CachesKept(cfg, s.cache) && t != NO_TOPIC && Genuine(p)
    requires Remembered(s, t, p, cfg.budget, s')
    ensures CachesKept(cfg, s'.cache)
  {
    var es := Entries(s.cache, t) + [p];
    assert Kept(Trim(es)) by {
      forall i | 0 <= i < |es|
        ensures Genuine(es[i])
      {
      }
    }
    EvictedLargestFirst(s.cache[t := Trim(es)], cfg.budget, s'.cache);
  }

  /** Tidiness and the session index under everything but a publish. */
  lemma OtherTidy(cfg: Config, s: State, e: Event, s': State)
    requires Tidy(s) && Wired(s) && !e.Send? && Assumed(s, e) && Next(cfg, s, e, s')
    ensures Tidy(s') && Wired(s')
  {
    match e
    case Greet(c, versions, resume, minted, now) =>
      if c !in s.connTokens && Negotiate(versions) != 0 {
        if Resumable(s, resume, cfg.ttl, now) {
          ResumeHolders(s, c, resume, now);
          ResumeWired(s, c, resume, now);
        } else {
          OpenHolders(s, c, minted, now);
        }
      }
    case Join(c, t, now) =>
      if t != NO_TOPIC { JoinTidy(s, c, t, now); }
    case Part(c, t, now) =>
      if t != NO_TOPIC { PartTidy(s, c, t, now); }
    case Hear(c, now) =>
      TouchHolders(s, c, now, NO_TOPIC);
    case Sweep(now) =>
      TidyEnd(s, Expired(s, cfg.ttl, now));
  }

  lemma JoinTidy(s: State, c: Conn, t: Topic, now: int)
    requires Tidy(s) && Wired(s) && t != NO_TOPIC
    ensures Tidy(Subscribe(s, c, t, now)) && Wired(Subscribe(s, c, t, now))
  {
    NoteHolders(s, c, t, true, now, NO_TOPIC);
    assert Records(Subscribe(s, c, t, now), NO_TOPIC) <==> Records(s.(sessions := Note(s, c, t, true, now)), NO_TOPIC);
  }

  lemma PartTidy(s: State, c: Conn, t: Topic, now: int)
    requires Tidy(s) && Wired(s)
    ensures Tidy(Unsubscribe(s, c, t, now)) && Wired(Unsubscribe(s, c, t, now))
  {
    NoteHolders(s, c, t, false, now, NO_TOPIC);
    var s1 := s.(sessions := Note(s, c, t, false, now));
    TidyStrip(s1, map[t := {c}]);
    TidyForget(s1.(subs := Strip(s1.subs, map[t := {c}])), {t});
  }

  lemma OtherKeeps(cfg: Config, w: World, e: Event, w': World)
    requires RaceInv(cfg, w) && Step(cfg, w, Other(e), w')
    ensures RaceInv(cfg, w')
  {
    OtherTidy(cfg, w.state, e, w'.state);
    QuietStep(cfg, w.state, e, w'.state);
    QuietTotal(cfg, w.state, e, w'.state);
    FewerKept(cfg, w.state.cache, w'.state.cache);
  }

  lemma QuietTotal(cfg: Config, s: State, e: Event, s': State)
    requires !e.Send? && Next(cfg, s, e, s')
    ensures Total(s'.cache) <= Total(s.cache)
  {
    QuietStep(cfg, s, e, s');
    TotalMinus(s.cache, s.cache.Keys - s'.cache.Keys);
    assert s'.cache == s.cache - (s.cache.Keys - s'.cache.Keys);
  }

  /** Every lock section of every interleaving keeps the budget, the index and the frames. */
  lemma RaceKeeps(cfg: Config, w: World, e: Section, w': World)
    requires RaceInv(cfg, w) && Step(cfg, w, e, w')
    ensures RaceInv(cfg, w')
  {
    match e
    case Other(event) => OtherKeeps(cfg, w, event, w');
    case Enter(id, t, payload) =>
    case FindCounter(id) => NumberedTidy(w.state, w.calls[id].topic);
    case TakeNumber(id) => TakeNumberKeeps(cfg, w, id, w');
    case Remember(id) => CachingKeeps(cfg, w, id, w');
    case Write(id, conn, ok) =>
    case Remove(id, conn) => RemoveKeeps(cfg, w, id, conn, w');
  }

  lemma CachingKeeps(cfg: Config, w: World, id: nat, w': World)
    requires RaceInv(cfg, w) && Step(cfg, w, Remember(id), w')
    ensures RaceInv(cfg, w')
  {
    RememberKept(cfg, w.state, w.calls[id].topic, w.calls[id].entry, w'.state);
    RememberKeepsTidy(w.state, w.calls[id].topic, w.calls[id].entry, cfg.budget, w'.state);
  }

  lemma RemoveKeeps(cfg: Config, w: World, id: nat, conn: Conn, w': World)
    requires RaceInv(cfg, w) && Step(cfg, w, Remove(id, conn), w')
    ensures RaceInv(cfg, w')
  {
    TidyExpel(w.state, w.calls[id].topic, {conn});
    ForgetKept(cfg, w.state.(subs := Strip(w.state.subs, map[w.calls[id].topic := {conn}])), {w.calls[id].topic});
  }

  lemma NumberedTidy(s: State, t: Topic)
    requires Tidy(s)
    ensures Tidy(Numbered(s, t)) && Numbered(s, t).cache == s.cache
  {
    assert Records(Numbered(s, t), NO_TOPIC) <==> Records(s, NO_TOPIC);
  }

  lemma TakeNumberKeeps(cfg: Config, w: World, id: nat, w': World)
    requires RaceInv(cfg, w) && Step(cfg, w, TakeNumber(id), w')
    ensures RaceInv(cfg, w')
  {
    assert Records(w'.state, NO_TOPIC) <==> Records(w.state, NO_TOPIC);
    forall i | i in w'.calls
      ensures CallOk(w'.state, w'.calls[i])
    {
      if i != id { assert CallOk(w.state, w.calls[i]); }
    }
  }

  ghost predicate StepAt(cfg: Config, ws: seq<World>, es: seq<Section>, i: nat)
    requires i < |es| < |ws|
  {
    Step(cfg, ws[i], es[i], ws[i + 1])
  }

  ghost predicate RaceRun(cfg: Config, ws: seq<World>, es: seq<Section>) {
    && |ws| == |es| + 1 && ws[0] == World(EMPTY, map[])
    && forall i :: 0 <= i < |es| ==> StepAt(cfg, ws, es, i)
  }

  /** However calls interleave, the cache stays within its budget and made of genuine frames. */
  lemma {:induction false} EveryInterleaving(cfg: Config, ws: seq<World>, es: seq<Section>, i: nat)
    requires RaceRun(cfg, ws, es) && i < |ws|
    ensures RaceInv(cfg, ws[i])
    decreases i
  {
    if i > 0 {
      EveryInterleaving(cfg, ws, es, i - 1);
      assert StepAt(cfg, ws, es, i - 1);
      RaceKeeps(cfg, ws[i - 1], es[i - 1], ws[i]);
    }
  }
}
