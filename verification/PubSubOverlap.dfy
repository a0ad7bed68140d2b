/**
 What overlapping publishes can break, and exactly when they do: the lifetime of a topic's cache and
 counter, the order of its cache, and which numbers its publishes carry.
 */
module PubSubOverlap {
  import opened Wire
  import opened PubSub
  import opened PubSubSteps
  import opened PubSubRuns
  import opened PubSubRaces

  // ---------------------------------------------------------------- what an eviction can spare

  /** The topics that weigh less than this one. */
  function Lighter(c: Cache, t: Topic): Cache
    requires t in c
  {
    map u | u in c && BytesOf(c[u]) < BytesOf(c[t]) :: c[u]
  }

  /** The topic fits the budget together with everything lighter. */
  ghost predicate CanStay(c: Cache, t: Topic, budget: nat)
    requires t in c
  {
    BytesOf(c[t]) + Total(Lighter(c, t)) <= budget
  }

  lemma TotalPart(m: Cache, c: Cache)
    requires m.Keys <= c.Keys && forall t :: t in m ==> m[t] == c[t]
    ensures Total(m) <= Total(c)
  {
    TotalMinus(c, c.Keys - m.Keys);
    assert m == c - (c.Keys - m.Keys);
  }

  lemma TotalWithLighter(c: Cache, t: Topic)
    requires t in c
    ensures Total(Lighter(c, t)[t := c[t]]) == BytesOf(c[t]) + Total(Lighter(c, t))
  {
    TotalUpdate(Lighter(c, t), t, c[t]);
  }

  lemma SparedFits(c: Cache, budget: nat, c': Cache, t: Topic)
    requires Evicted(c, budget, c') && t in c'
    ensures t in c && CanStay(c, t, budget)
  {
    EvictedLargestFirst(c, budget, c');
    TotalWithLighter(c, t);
    TotalPart(Lighter(c, t)[t := c[t]], c');
  }

  lemma {:induction false} SomeHeaviest(c: Cache) returns (t: Topic)
    requires c != map[]
    ensures IsHeaviest(c, t)
    decreases |c|
  {
    var first :| first in c;
    t := first;
    var rest := c - {first};
    if rest != map[] {
      var u := SomeHeaviest(rest);
      t := if BytesOf(c[u]) > BytesOf(c[first]) then u else first;
    }
    assert forall v :: v in c ==> v == first || (v in rest && rest[v] == c[v]);
  }

  /** An over-full cache has a heaviest topic other than one that can stay. */
  lemma AnotherVictim(c: Cache, cur: Cache, budget: nat, t: Topic) returns (u: Topic)
    requires t in cur && cur.Keys <= c.Keys && (forall v :: v in cur ==> cur[v] == c[v])
    requires CanStay(c, t, budget) && Total(cur) > budget
    ensures IsHeaviest(cur, u) && u != t
  {
    u := SomeHeaviest(cur);
    if u == t {
      if v :| v in cur && v != t && BytesOf(cur[v]) == BytesOf(cur[t]) {
        u := v;
      } else {
        TotalWithLighter(c, t);
        TotalPart(cur, Lighter(c, t)[t := c[t]]);
        assert false;
      }
    }
  }

  lemma OneMoreVictim(c: Cache, budget: nat, victims: seq<Topic>, u: Topic)
    requires Evictions(c, budget, victims) && Total(Without(c, victims)) > budget && IsHeaviest(Without(c, victims), u)
    ensures Evictions(c, budget, victims + [u]) && Without(c, victims + [u]) == Without(c, victims) - {u}
    ensures |Without(c, victims + [u])| < |Without(c, victims)|
  {
    assert (victims + [u])[..|victims|] == victims;
    var cur := Without(c, victims);
    assert (cur - {u}).Keys == cur.Keys - {u};
  }

  lemma {:induction false} EvictAround(c: Cache, budget: nat, t: Topic, victims: seq<Topic>) returns (c': Cache)
    requires t in c && CanStay(c, t, budget) && Evictions(c, budget, victims) && t in Without(c, victims)
    ensures Evicted(c, budget, c') && t in c'
    decreases |Without(c, victims)|
  {
    c' := Without(c, victims);
    if Total(c') > budget {
      EvictionsLargestFirst(c, budget, victims);
      var u := AnotherVictim(c, c', budget, t);
      OneMoreVictim(c, budget, victims, u);
      c' := EvictAround(c, budget, t, victims + [u]);
    }
  }

  /** Some outcome of the eviction spares a topic exactly when it fits together with everything lighter. */
  lemma SparedIff(c: Cache, budget: nat, t: Topic)
    requires t in c
    ensures (exists c' :: Evicted(c, budget, c') && t in c') <==> CanStay(c, t, budget)
  {
    if CanStay(c, t, budget) {
      assert Without(c, []) == c;
      var c' := EvictAround(c, budget, t, []);
    }
    if c' :| Evicted(c, budget, c') && t in c' {
      SparedFits(c, budget, c', t);
    }
  }

  // ---------------------------------------------------------------- topic lifetime

  /** The cache as `rememberPublish` leaves it before it trims the whole. */
  function Appended(s: State, t: Topic, p: Cached): Cache {
    s.cache[t := Trim(Entries(s.cache, t) + [p])]
  }

  /** One outcome: an unheld topic is left cached exactly when it was not held and was not evicted at once. */
  lemma RememberLively(cfg: Config, s: State, t: Topic, p: Cached, s': State)
    requires Lively(s) && Remembered(s, t, p, cfg.budget, s')
    ensures Lively(s') <==> Held(s, t) || t !in s'.cache
  {
    EvictedLargestFirst(Appended(s, t, p), cfg.budget, s'.cache);
    forall u
      ensures Held(s', u) <==> Held(s, u)
    {
      assert Records(s', u) <==> Records(s, u);
    }
  }

  /**
   Caching a frame is sure to keep "only held topics are cached" exactly when the topic is still held at
   that moment, or is too heavy to stay beside everything lighter.
   */
  lemma RememberLivelyIff(cfg: Config, s: State, t: Topic, p: Cached)
    requires Lively(s)
    ensures (forall s' :: Remembered(s, t, p, cfg.budget, s') ==> Lively(s')) <==>
            Held(s, t) || !CanStay(Appended(s, t, p), t, cfg.budget)
  {
    var c := Appended(s, t, p);
    SparedIff(c, cfg.budget, t);
    forall s' | Remembered(s, t, p, cfg.budget, s')
      ensures Lively(s') <==> Held(s, t) || t !in s'.cache
    {
      RememberLively(cfg, s, t, p, s');
    }
    if c' :| Evicted(c, cfg.budget, c') && t in c' {
      assert Remembered(s, t, p, cfg.budget, s.(cache := c'));
    }
  }

  /** Creating a counter keeps "only held topics have a counter" exactly when the topic is still held. */
  lemma CounterLivelyIff(s: State, t: Topic)
    requires Lively(s)
    ensures Lively(Numbered(s, t)) <==> Held(s, t)
  {
    var n := Numbered(s, t);
    forall u
      ensures Held(n, u) <==> Held(s, u)
    {
      assert Records(n, u) <==> Records(s, u);
    }
  }

  /** Everything but a publish keeps it. */
  lemma OtherLively(cfg: Config, s: State, e: Event, s': State)
    requires Tidy(s) && Lively(s) && !e.Send? && Assumed(s, e) && Next(cfg, s, e, s')
    ensures Lively(s')
  {
    match e
    case Greet(c, versions, resume, minted, now) =>
      if c !in s.connTokens && Negotiate(versions) != 0 {
        if Resumable(s, resume, cfg.ttl, now) {
          ResumeHolders(s, c, resume, now);
        } else {
          OpenHolders(s, c, minted, now);
        }
      }
    case Join(c, t, now) =>
      if t != NO_TOPIC { JoinLively(s, c, t, now); }
    case Part(c, t, now) =>
      if t != NO_TOPIC { PartLively(s, c, t, now); }
    case Hear(c, now) =>
      forall t
        ensures Held(s', t) <==> Held(s, t)
      {
        TouchHolders(s, c, now, t);
      }
    case Sweep(now) => SweepLively(cfg, s, now);
  }

  lemma JoinLively(s: State, c: Conn, t: Topic, now: int)
    requires Lively(s)
    ensures Lively(Subscribe(s, c, t, now))
  {
    var s' := Subscribe(s, c, t, now);
    forall u
      ensures Held(s, u) ==> Held(s', u)
    {
      NoteHolders(s, c, t, true, now, u);
      assert Records(s', u) <==> Records(s.(sessions := Note(s, c, t, true, now)), u);
    }
  }

  lemma PartLively(s: State, c: Conn, t: Topic, now: int)
    requires Lively(s)
    ensures Lively(Unsubscribe(s, c, t, now))
  {
    var s1 := s.(subs := Strip(s.subs, map[t := {c}]), sessions := Note(s, c, t, false, now));
    forall u
      ensures u !in {t} && Held(s, u) ==> Held(s1, u)
    {
      NoteHolders(s, c, t, false, now, u);
      StripAt(s.subs, map[t := {c}], u);
      assert Records(s1, u) <==> Records(s.(sessions := Note(s, c, t, false, now)), u);
    }
    LivelyForget(s, s1, {t});
  }

  lemma SweepLively(cfg: Config, s: State, now: int)
    requires Lively(s)
    ensures Lively(Reap(s, cfg.ttl, now))
  {
    var ks := Expired(s, cfg.ttl, now);
    var s1 := s.(subs := Strip(s.subs, Leavers(s, ks)), sessions := s.sessions - ks, connTokens := s.connTokens - ConnsOf(s, ks));
    forall t
      ensures t !in TopicsOf(s, ks) && Held(s, t) ==> Held(s1, t)
    {
      EndHolders(s, ks, t);
      StripAt(s.subs, Leavers(s, ks), t);
      LeaversAt(s, ks, t);
    }
    LivelyForget(s, s1, TopicsOf(s, ks));
  }

  lemma ExpelLively(s: State, t: Topic, conns: set<Conn>)
    requires Lively(s)
    ensures Lively(Expel(s, t, conns))
  {
    var s1 := s.(subs := Strip(s.subs, map[t := conns]));
    forall u
      ensures u !in {t} && Held(s, u) ==> Held(s1, u)
    {
      StripAt(s.subs, map[t := conns], u);
      assert Records(s1, u) <==> Records(s, u);
    }
    LivelyForget(s, s1, {t});
  }

  lemma IncrementLively(s: State, id: nat)
    requires Lively(s)
    ensures Lively(Increment(s, id))
  {
    forall u
      ensures Held(Increment(s, id), u) <==> Held(s, u)
    {
      assert Records(Increment(s, id), u) <==> Records(s, u);
    }
  }

  /** A publish goes on for a topic that has lost its last holder: it makes a counter, or leaves its frame cached. */
  ghost predicate Careless(w: World, e: Section, w': World) {
    match e
    case FindCounter(id) => id in w.calls && !Held(w.state, w.calls[id].topic)
    case Remember(id) => id in w.calls && !Held(w.state, w.calls[id].topic) && w.calls[id].topic in w'.state.cache
    case _ => false
  }

  lemma StepLivelyIff(cfg: Config, w: World, e: Section, w': World)
    requires RaceInv(cfg, w) && Lively(w.state) && Step(cfg, w, e, w')
    ensures Lively(w'.state) <==> !Careless(w, e, w')
  {
    match e
    case Other(event) => OtherLively(cfg, w.state, event, w'.state);
    case Enter(id, t, payload) =>
    case FindCounter(id) => CounterLivelyIff(w.state, w.calls[id].topic);
    case TakeNumber(id) => IncrementLively(w.state, w.calls[id].id);
    case Remember(id) => RememberLively(cfg, w.state, w.calls[id].topic, w.calls[id].entry, w'.state);
    case Write(id, conn, ok) =>
    case Remove(id, conn) => ExpelLively(w.state, w.calls[id].topic, {conn});
  }

  ghost predicate LivelyIn(ws: seq<World>, i: nat)
    requires i < |ws|
  {
    Lively(ws[i].state)
  }

  ghost predicate CarelessAt(ws: seq<World>, es: seq<Section>, i: nat)
    requires i < |es| < |ws|
  {
    Careless(ws[i], es[i], ws[i + 1])
  }

  lemma LivelyAt(cfg: Config, ws: seq<World>, es: seq<Section>, i: nat)
    requires RaceRun(cfg, ws, es) && i < |es| && LivelyIn(ws, i)
    ensures LivelyIn(ws, i + 1) <==> !CarelessAt(ws, es, i)
  {
    EveryInterleaving(cfg, ws, es, i);
    assert StepAt(cfg, ws, es, i);
    StepLivelyIff(cfg, ws[i], es[i], ws[i + 1]);
  }

  lemma {:induction false} LivelySoFar(cfg: Config, ws: seq<World>, es: seq<Section>, i: nat)
    requires RaceRun(cfg, ws, es) && i < |ws| && forall k :: 0 <= k < |es| ==> !CarelessAt(ws, es, k)
    ensures LivelyIn(ws, i)
    decreases i
  {
    if i > 0 {
      LivelySoFar(cfg, ws, es, i - 1);
      LivelyAt(cfg, ws, es, i - 1);
    }
  }

  /**
   In a run of overlapping calls every state keeps cache and counter to held topics if and only if no
   publish makes a counter or leaves a frame cached for a topic that nobody holds by then.
   */
  lemma RunLivelyIff(cfg: Config, ws: seq<World>, es: seq<Section>)
    requires RaceRun(cfg, ws, es)
    ensures (forall i :: 0 <= i < |ws| ==> LivelyIn(ws, i)) <==> (forall i :: 0 <= i < |es| ==> !CarelessAt(ws, es, i))
  {
    if i :| 0 <= i < |es| && CarelessAt(ws, es, i) {
      if LivelyIn(ws, i) {
        LivelyAt(cfg, ws, es, i);
      }
    } else {
      forall i | 0 <= i < |ws|
        ensures LivelyIn(ws, i)
      {
        LivelySoFar(cfg, ws, es, i);
      }
    }
  }

  // ---------------------------------------------------------------- the order of a cache

  predicate Increasing(es: seq<Cached>) {
    forall i, j :: 0 <= i < j < |es| ==> es[i].seqNo < es[j].seqNo
  }

  predicate Ordered(c: Cache) {
    forall t :: t in c ==> Increasing(c[t])
  }

  /** Appending keeps a topic's cache in order exactly when its newest number is below the new one. */
  lemma AppendOrderIff(es: seq<Cached>, p: Cached)
    requires Increasing(es)
    ensures Increasing(Trim(es + [p])) <==> es == [] || es[|es| - 1].seqNo < p.seqNo
  {
    var tr := Trim(es + [p]);
    if es != [] {
      assert tr[|tr| - 2] == es[|es| - 1] && tr[|tr| - 1] == p;
    }
  }

  /** A frame is cached behind one that was numbered later, and stays. */
  predicate Overtaken(w: World, e: Section, w': World) {
    e.Remember? && e.id in w.calls && w.calls[e.id].Encoded? && w.calls[e.id].topic in w'.state.cache &&
    var es := Entries(w.state.cache, w.calls[e.id].topic);
    es != [] && es[|es| - 1].seqNo >= w.calls[e.id].entry.seqNo
  }

  /** No section but `rememberPublish` puts anything into a cache. */
  lemma OnlyRememberCaches(cfg: Config, w: World, e: Section, w': World)
    requires Step(cfg, w, e, w') && !e.Remember?
    ensures forall t :: t in w'.state.cache ==> t in w.state.cache && w'.state.cache[t] == w.state.cache[t]
  {
    match e
    case Other(event) => QuietStep(cfg, w.state, event, w'.state);
    case Remove(id, conn) => ForgetQuietly(w.state.(subs := Strip(w.state.subs, map[w.calls[id].topic := {conn}])), {w.calls[id].topic});
    case _ =>
  }

  lemma StepOrderedIff(cfg: Config, w: World, e: Section, w': World)
    requires Ordered(w.state.cache) && Step(cfg, w, e, w')
    ensures Ordered(w'.state.cache) <==> !Overtaken(w, e, w')
  {
    if e.Remember? {
      var c := w.calls[e.id];
      AppendOrderIff(Entries(w.state.cache, c.topic), c.entry);
      EvictedLargestFirst(Appended(w.state, c.topic, c.entry), cfg.budget, w'.state.cache);
    } else {
      OnlyRememberCaches(cfg, w, e, w');
    }
  }

  predicate OrderedIn(ws: seq<World>, i: nat)
    requires i < |ws|
  {
    Ordered(ws[i].state.cache)
  }

  predicate OvertakenAt(ws: seq<World>, es: seq<Section>, i: nat)
    requires i < |es| < |ws|
  {
    Overtaken(ws[i], es[i], ws[i + 1])
  }

  lemma OrderedAt(cfg: Config, ws: seq<World>, es: seq<Section>, i: nat)
    requires RaceRun(cfg, ws, es) && i < |es| && OrderedIn(ws, i)
    ensures OrderedIn(ws, i + 1) <==> !OvertakenAt(ws, es, i)
  {
    assert StepAt(cfg, ws, es, i);
    StepOrderedIff(cfg, ws[i], es[i], ws[i + 1]);
  }

  lemma {:induction false} OrderedSoFar(cfg: Config, ws: seq<World>, es: seq<Section>, i: nat)
    requires RaceRun(cfg, ws, es) && i < |ws| && forall k :: 0 <= k < |es| ==> !OvertakenAt(ws, es, k)
    ensures OrderedIn(ws, i)
    decreases i
  {
    if i > 0 {
      OrderedSoFar(cfg, ws, es, i - 1);
      OrderedAt(cfg, ws, es, i - 1);
    }
  }

  /**
   In a run of overlapping calls every cache is always in strictly increasing order if and only if no
   frame is cached behind one that was numbered later.
   */
  lemma RunOrderedIff(cfg: Config, ws: seq<World>, es: seq<Section>)
    requires RaceRun(cfg, ws, es)
    ensures (forall i :: 0 <= i < |ws| ==> OrderedIn(ws, i)) <==> (forall i :: 0 <= i < |es| ==> !OvertakenAt(ws, es, i))
  {
    if i :| 0 <= i < |es| && OvertakenAt(ws, es, i) {
      if OrderedIn(ws, i) {
        OrderedAt(cfg, ws, es, i);
      }
    } else {
      forall i | 0 <= i < |ws|
        ensures OrderedIn(ws, i)
      {
        OrderedSoFar(cfg, ws, es, i);
      }
    }
  }

  // ---------------------------------------------------------------- the numbers of a topic

  /** A call that has numbered a frame for the topic. */
  predicate Bears(c: Call, t: Topic) {
    c.topic == t && (c.Encoded? || c.Writing?)
  }

  /** Publishes to the topic that are still counting use its present counter. */
  ghost predicate CountsHere(w: World, t: Topic) {
    forall i :: i in w.calls && w.calls[i].Counting? && w.calls[i].topic == t ==>
                  t in w.state.topicSeqs && w.state.topicSeqs[t] == w.calls[i].id
  }

  /** The counter has reached every number the topic's frames carry. */
  ghost predicate Reached(w: World, t: Topic) {
    && (forall i :: i in w.calls && Bears(w.calls[i], t) ==> w.calls[i].entry.seqNo <= LastSeq(w.state, t))
    && (forall p :: p in Entries(w.state.cache, t) ==> p.seqNo <= LastSeq(w.state, t))
  }

  /** No two frames carry the same number, whether in a call or cached by another. */
  ghost predicate Unrepeated(w: World, t: Topic) {
    && (forall i, j :: i in w.calls && j in w.calls && i != j && Bears(w.calls[i], t) && Bears(w.calls[j], t) ==>
          w.calls[i].entry.seqNo != w.calls[j].entry.seqNo)
    && (forall i, p :: i in w.calls && w.calls[i].Encoded? && w.calls[i].topic == t && p in Entries(w.state.cache, t) ==>
          p.seqNo != w.calls[i].entry.seqNo)
  }

  ghost predicate Current(w: World, t: Topic) {
    CountsHere(w, t) && Reached(w, t) && Unrepeated(w, t)
  }

  /** A section that neither numbers nor caches leaves the numbers of a held topic alone. */
  lemma SameNumbers(cfg: Config, w: World, e: Section, w': World, t: Topic)
    requires Tidy(w.state) && Step(cfg, w, e, w') && Held(w'.state, t) && (e.Other? || e.Enter? || e.Write? || e.Remove?)
    ensures LastSeq(w'.state, t) == LastSeq(w.state, t)
    ensures t in w.state.topicSeqs ==> t in w'.state.topicSeqs && w'.state.topicSeqs[t] == w.state.topicSeqs[t]
    ensures forall p :: p in Entries(w'.state.cache, t) ==> p in Entries(w.state.cache, t)
  {
    OnlyRememberCaches(cfg, w, e, w');
    match e
    case Other(event) => QuietStep(cfg, w.state, event, w'.state);
    case Remove(id, conn) => ExpelStep(w.state, w.calls[id].topic, {conn}, t);
    case _ =>
  }

  lemma QuietCurrent(cfg: Config, w: World, e: Section, w': World, t: Topic)
    requires Tidy(w.state) && Current(w, t) && Step(cfg, w, e, w') && Held(w'.state, t) && (e.Other? || e.Enter? || e.Write? || e.Remove?)
    ensures Current(w', t)
  {
    SameNumbers(cfg, w, e, w', t);
    forall i | i in w'.calls
      ensures Bears(w'.calls[i], t) ==> i in w.calls && Bears(w.calls[i], t) && w'.calls[i].entry == w.calls[i].entry
      ensures w'.calls[i].Encoded? || w'.calls[i].Counting? ==> i in w.calls && w'.calls[i] == w.calls[i]
    {
    }
  }

  /** Finding or making a counter changes no topic's number. */
  lemma FindNumbers(s: State, u: Topic, t: Topic)
    requires Tidy(s)
    ensures LastSeq(Numbered(s, u), t) == LastSeq(s, t) && Numbered(s, u).cache == s.cache
    ensures t in s.topicSeqs ==> t in Numbered(s, u).topicSeqs && Numbered(s, u).topicSeqs[t] == s.topicSeqs[t]
    ensures u in Numbered(s, u).topicSeqs
  {
  }

  lemma FindCurrent(cfg: Config, w: World, id: nat, w': World, t: Topic)
    requires Tidy(w.state) && Current(w, t) && Step(cfg, w, FindCounter(id), w')
    ensures Current(w', t)
  {
    FindNumbers(w.state, w.calls[id].topic, t);
    assert CountsHere(w', t);
    MovedNumbers(w, w', t, id);
  }

  /** Only one call has moved, and it bears no frame; the topic's number has not fallen. */
  lemma MovedNumbers(w: World, w': World, t: Topic, id: nat)
    requires Reached(w, t) && Unrepeated(w, t) && LastSeq(w.state, t) <= LastSeq(w'.state, t)
    requires Entries(w'.state.cache, t) == Entries(w.state.cache, t)
    requires forall i :: i in w'.calls && i != id ==> i in w.calls && w'.calls[i] == w.calls[i]
    requires id in w'.calls ==> !Bears(w'.calls[id], t)
    ensures Reached(w', t) && Unrepeated(w', t)
  {
  }

  /** One more call bears a frame, numbered above all others. */
  lemma NewNumber(w: World, w': World, t: Topic, id: nat)
    requires Reached(w, t) && Unrepeated(w, t) && LastSeq(w.state, t) < LastSeq(w'.state, t)
    requires Entries(w'.state.cache, t) == Entries(w.state.cache, t)
    requires id in w'.calls && Bears(w'.calls[id], t) && w'.calls[id].entry.seqNo == LastSeq(w'.state, t)
    requires forall i :: i in w'.calls && i != id ==> i in w.calls && w'.calls[i] == w.calls[i]
    ensures Reached(w', t) && Unrepeated(w', t)
  {
  }

  /** Taking a number raises the topic's own count by one, and no topic's count falls. */
  lemma TakeNumbers(cfg: Config, w: World, id: nat, w': World, t: Topic)
    requires CountsHere(w, t) && Step(cfg, w, TakeNumber(id), w')
    ensures w'.state.topicSeqs == w.state.topicSeqs && w'.state.cache == w.state.cache
    ensures LastSeq(w.state, t) <= LastSeq(w'.state, t)
    ensures w.calls[id].topic == t ==>
              && LastSeq(w'.state, t) == LastSeq(w.state, t) + 1
              && (id in w'.calls ==> w'.calls[id].topic == t && w'.calls[id].Encoded? && w'.calls[id].entry.seqNo == LastSeq(w'.state, t))
    ensures w.calls[id].topic != t && id in w'.calls ==> w'.calls[id].topic != t
  {
    var c := w.calls[id];
    if c.topic == t {
      assert w.state.topicSeqs[t] == c.id;
    }
  }

  lemma TakeCurrent(cfg: Config, w: World, id: nat, w': World, t: Topic)
    requires Current(w, t) && Step(cfg, w, TakeNumber(id), w')
    ensures Current(w', t)
  {
    TakeNumbers(cfg, w, id, w', t);
    assert CountsHere(w', t);
    if w.calls[id].topic == t && id in w'.calls {
      NewNumber(w, w', t, id);
    } else {
      MovedNumbers(w, w', t, id);
    }
  }

  lemma RememberNumbers(cfg: Config, w: World, id: nat, w': World, t: Topic)
    requires Step(cfg, w, Remember(id), w')
    ensures w'.state.topicSeqs == w.state.topicSeqs && LastSeq(w'.state, t) == LastSeq(w.state, t)
    ensures forall p :: p in Entries(w'.state.cache, t) ==> p in Entries(w.state.cache, t) || (w.calls[id].topic == t && p == w.calls[id].entry)
  {
    var c := w.calls[id];
    EvictedLargestFirst(Appended(w.state, c.topic, c.entry), cfg.budget, w'.state.cache);
    forall p | p in Entries(w'.state.cache, t)
      ensures p in Entries(w.state.cache, t) || (c.topic == t && p == c.entry)
    {
      assert p in Entries(w.state.cache, t) + [c.entry];
    }
  }

  lemma RememberCurrent(cfg: Config, w: World, id: nat, w': World, t: Topic)
    requires Current(w, t) && Step(cfg, w, Remember(id), w')
    ensures Current(w', t)
  {
    RememberNumbers(cfg, w, id, w', t);
    assert CountsHere(w', t);
    CachedNumbers(w, w', t, id);
  }

  /** One call's frame has become a cached one. */
  lemma CachedNumbers(w: World, w': World, t: Topic, id: nat)
    requires Reached(w, t) && Unrepeated(w, t) && LastSeq(w.state, t) == LastSeq(w'.state, t)
    requires id in w.calls && w.calls[id].Encoded? && w'.calls == w.calls[id := Writing(w.calls[id].topic, w.calls[id].entry, w.calls[id].members, {})]
    requires forall p :: p in Entries(w'.state.cache, t) ==> p in Entries(w.state.cache, t) || (w.calls[id].topic == t && p == w.calls[id].entry)
    ensures Reached(w', t) && Unrepeated(w', t)
  {
    forall i | i in w'.calls && Bears(w'.calls[i], t)
      ensures Bears(w.calls[i], t) && w'.calls[i].entry == w.calls[i].entry
    {
    }
  }

  /** While somebody holds a topic, overlapping publishes to it never repeat a number. */
  lemma StepCurrent(cfg: Config, w: World, e: Section, w': World, t: Topic)
    requires RaceInv(cfg, w) && Current(w, t) && Step(cfg, w, e, w') && Held(w'.state, t)
    ensures Current(w', t)
  {
    match e
    case FindCounter(id) => FindCurrent(cfg, w, id, w', t);
    case TakeNumber(id) => TakeCurrent(cfg, w, id, w', t);
    case Remember(id) => RememberCurrent(cfg, w, id, w', t);
    case _ => QuietCurrent(cfg, w, e, w', t);
  }

  /** Nothing was ever published to the topic. */
  predicate Fresh(w: World, t: Topic) {
    t !in w.state.cache && t !in w.state.topicSeqs && forall i :: i in w.calls ==> w.calls[i].topic != t
  }

  /** In a run in which a topic stays held from its first publish on, its frames carry distinct numbers. */
  lemma {:induction false} RunCurrent(cfg: Config, ws: seq<World>, es: seq<Section>, n: nat, t: Topic)
    requires RaceRun(cfg, ws, es) && n < |ws|
    requires forall i :: 0 <= i <= n ==> Held(ws[i].state, t) || Fresh(ws[i], t)
    ensures Current(ws[n], t)
    decreases n
  {
    if n > 0 && !Fresh(ws[n], t) {
      RunCurrent(cfg, ws, es, n - 1, t);
      EveryInterleaving(cfg, ws, es, n - 1);
      assert StepAt(cfg, ws, es, n - 1);
      StepCurrent(cfg, ws[n - 1], es[n - 1], ws[n], t);
    }
  }
}
