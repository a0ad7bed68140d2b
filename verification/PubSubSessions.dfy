/**
 How long things last, over runs: a subscription until it is given up, a session as long as it is heard
 from in time; and what one publish leaves behind, frame by frame.
 */
module PubSubSessions {
  import opened Wire
  import opened PubSub
  import opened PubSubSteps
  import opened PubSubRuns
  import opened PubSubTables

  // ---------------------------------------------------------------- a subscription that was given up

  predicate Unrecorded(s: State, k: Token, t: Topic) {
    k in s.sessions ==> t !in s.sessions[k].topics
  }

  /** The session subscribes to the topic. */
  predicate Subscribes(s: State, e: Event, k: Token, t: Topic) {
    e.Join? && e.topic == t && Owns(s, e.conn, k)
  }

  lemma StaysUnrecorded(cfg: Config, s: State, e: Event, s': State, k: Token, t: Topic)
    requires Assumed(s, e) && Next(cfg, s, e, s') && Unrecorded(s, k, t) && !Subscribes(s, e, k, t)
    ensures Unrecorded(s', k, t)
  {
    match e
    case Greet(c, versions, resume, minted, now) => HelloMeans(s, c, versions, resume, minted, cfg.ttl, now);
    case Join(c, u, now) => SubscribeMeans(s, c, u, now);
    case Part(c, u, now) => UnsubscribeMeans(s, c, u, now);
    case Hear(c, now) => TouchMeans(s, c, now);
    case Sweep(now) => ReapMeans(s, cfg.ttl, now);
    case Send(u, payload, failing) => SendKeepsSessions(cfg, s, e, s');
  }

  lemma SendKeepsSessions(cfg: Config, s: State, e: Event, s': State)
    requires e.Send? && Next(cfg, s, e, s')
    ensures s'.sessions == s.sessions && s'.connTokens == s.connTokens
  {
    if Held(s, e.topic) && Encodable(e.payload) {
      var r := AfterCaching(cfg, s, e.topic, e.payload, e.failing, s');
      ExpelMeans(r, e.topic, At(s.subs, e.topic) * e.failing);
    }
  }

  lemma AfterCaching(cfg: Config, s: State, t: Topic, payload: seq<byte>, failing: set<Conn>, s': State) returns (r: State)
    requires Held(s, t) && Encodable(payload) && Published(s, t, payload, failing, cfg.budget, s')
    ensures r.sessions == s.sessions && r.connTokens == s.connTokens && s' == Expel(r, t, At(s.subs, t) * failing)
  {
    var m := Mint(s, t);
    r := CachedState(cfg, m, t, Entry(LastSeq(m, t), payload), At(s.subs, t) * failing, s');
  }

  lemma CachedState(cfg: Config, m: State, t: Topic, p: Cached, conns: set<Conn>, s': State) returns (r: State)
    requires exists r :: Remembered(m, t, p, cfg.budget, r) && s' == Expel(r, t, conns)
    ensures r.sessions == m.sessions && r.connTokens == m.connTokens && s' == Expel(r, t, conns)
  {
    r :| Remembered(m, t, p, cfg.budget, r) && s' == Expel(r, t, conns);
  }

  ghost predicate UnrecordedAt(states: seq<State>, m: nat, k: Token, t: Topic)
    requires m < |states|
  {
    Unrecorded(states[m], k, t)
  }

  predicate SubscribesAt(states: seq<State>, events: seq<Event>, m: nat, k: Token, t: Topic)
    requires m < |events| < |states|
  {
    Subscribes(states[m], events[m], k, t)
  }

  lemma UnrecordedNext(cfg: Config, states: seq<State>, events: seq<Event>, m: nat, k: Token, t: Topic)
    requires Run(cfg, states, events) && m < |events| && UnrecordedAt(states, m, k, t) && !SubscribesAt(states, events, m, k, t)
    ensures UnrecordedAt(states, m + 1, k, t)
  {
    StaysUnrecorded(cfg, states[m], events[m], states[m + 1], k, t);
  }

  lemma {:induction false} UnrecordedUntil(cfg: Config, states: seq<State>, events: seq<Event>, i: nat, j: nat, k: Token, t: Topic)
    requires Run(cfg, states, events) && i <= j < |states| && UnrecordedAt(states, i, k, t)
    requires forall m :: i <= m < j ==> !SubscribesAt(states, events, m, k, t)
    ensures UnrecordedAt(states, j, k, t)
    decreases j
  {
    if i < j {
      UnrecordedUntil(cfg, states, events, i, j - 1, k, t);
      UnrecordedNext(cfg, states, events, j - 1, k, t);
    }
  }

  /**
   A session that gave a topic up and has not subscribed to it again: whoever resumes it, and however
   often it has been resumed in between, does not become a member of the topic by it.
   */
  lemma GivenUpForGood(cfg: Config, states: seq<State>, events: seq<Event>, i: nat, j: nat, k: Token, t: Topic, d: Conn)
    requires Run(cfg, states, events) && states[0] == EMPTY && i < j < |events|
    requires events[i].Part? && events[i].topic == t && t != NO_TOPIC && Owns(states[i], events[i].conn, k)
    requires forall m :: i < m < j ==> !SubscribesAt(states, events, m, k, t)
    requires events[j].Greet? && events[j].conn == d && d !in states[j].connTokens && Owns(states[j + 1], d, k)
    ensures In(states[j + 1], d, t) ==> In(states[j], d, t)
    ensures Unrecorded(states[j + 1], k, t)
  {
    UnsubscribeMeans(states[i], events[i].conn, t, events[i].now);
    RunKeeps(cfg, states, events, i);
    assert UnrecordedAt(states, i + 1, k, t);
    UnrecordedUntil(cfg, states, events, i + 1, j, k, t);
    var e := events[j];
    HelloMeans(states[j], d, e.versions, e.resume, e.minted, cfg.ttl, e.now);
    StaysUnrecorded(cfg, states[j], e, states[j + 1], k, t);
  }

  // ---------------------------------------------------------------- how long a session lives

  /** A sign of life of a session, or its beginning: a frame of its connection, or the handshake that makes it so. */
  predicate Heard(s: State, e: Event, s': State, k: Token) {
    || ((e.Join? || e.Part?) && e.topic != NO_TOPIC && Owns(s, e.conn, k))
    || (e.Hear? && Owns(s, e.conn, k))
    || (e.Greet? && e.conn !in s.connTokens && Owns(s', e.conn, k))
  }

  /** The sweep finds the session silent since before its time. */
  predicate Outlived(cfg: Config, e: Event, since: int) {
    e.Sweep? && e.now - since > cfg.ttl
  }

  lemma HeardStep(cfg: Config, s: State, e: Event, s': State, k: Token)
    requires Inv(cfg, s) && Assumed(s, e) && Next(cfg, s, e, s')
    ensures Heard(s, e, s', k) ==> k in s'.sessions && s'.sessions[k].lastSeen == e.now
    ensures !Heard(s, e, s', k) ==> (k in s'.sessions <==> k in s.sessions && !Outlived(cfg, e, s.sessions[k].lastSeen))
    ensures !Heard(s, e, s', k) && k in s'.sessions ==> s'.sessions[k].lastSeen == s.sessions[k].lastSeen
  {
    match e
    case Greet(c, versions, resume, minted, now) => HelloMeans(s, c, versions, resume, minted, cfg.ttl, now);
    case Join(c, u, now) => SubscribeMeans(s, c, u, now);
    case Part(c, u, now) => UnsubscribeMeans(s, c, u, now);
    case Hear(c, now) => TouchMeans(s, c, now);
    case Sweep(now) => ReapMeans(s, cfg.ttl, now);
    case Send(u, payload, failing) => SendKeepsSessions(cfg, s, e, s');
  }

  /** Step m of a run is a sign of life. */
  ghost predicate HeardAt(states: seq<State>, events: seq<Event>, m: nat, k: Token)
    requires m < |events| < |states|
  {
    Heard(states[m], events[m], states[m + 1], k)
  }

  predicate OutlivedAt(cfg: Config, events: seq<Event>, m: nat, since: int)
    requires m < |events|
  {
    Outlived(cfg, events[m], since)
  }

  /** Last heard from in step i. */
  ghost predicate SilentSince(states: seq<State>, events: seq<Event>, i: nat, j: nat, k: Token)
    requires |states| == |events| + 1 && i < j < |states|
  {
    HeardAt(states, events, i, k) && forall m :: i < m < j ==> !HeardAt(states, events, m, k)
  }

  /** A sign of life is noted; without one a session stays as it is, or goes with a sweep that finds it silent for too long. */
  ghost predicate LivesOn(cfg: Config, states: seq<State>, events: seq<Event>, m: nat, k: Token)
    requires m < |events| < |states|
  {
    var s, s' := states[m].sessions, states[m + 1].sessions;
    if HeardAt(states, events, m, k) then k in s' && s'[k].lastSeen == events[m].now
    else
      && (k in s' <==> k in s && !OutlivedAt(cfg, events, m, s[k].lastSeen))
      && (k in s' ==> s'[k].lastSeen == s[k].lastSeen)
  }

  lemma LifeStep(cfg: Config, states: seq<State>, events: seq<Event>, m: nat, k: Token)
    requires Run(cfg, states, events) && states[0] == EMPTY && m < |events|
    ensures LivesOn(cfg, states, events, m, k)
  {
    RunKeeps(cfg, states, events, m);
    HeardStep(cfg, states[m], events[m], states[m + 1], k);
  }

  lemma {:induction false} LivesUntilSwept(cfg: Config, states: seq<State>, events: seq<Event>, i: nat, j: nat, k: Token)
    requires |states| == |events| + 1 && i < j < |states| && SilentSince(states, events, i, j, k)
    requires forall m :: i <= m < j ==> LivesOn(cfg, states, events, m, k)
    ensures k in states[j].sessions <==> forall m :: i < m < j ==> !OutlivedAt(cfg, events, m, events[i].now)
    ensures k in states[j].sessions ==> states[j].sessions[k].lastSeen == events[i].now
    decreases j
  {
    assert LivesOn(cfg, states, events, j - 1, k);
    if i < j - 1 {
      LivesUntilSwept(cfg, states, events, i, j - 1, k);
      assert !HeardAt(states, events, j - 1, k);
    }
  }

  /**
   A session is there exactly until a sweep finds it silent for longer than it may be, however often the
   sweep comes; and a handshake that names it while it is there resumes it exactly if it comes in time.
   */
  lemma SessionLife(cfg: Config, states: seq<State>, events: seq<Event>, i: nat, j: nat, k: Token)
    requires Run(cfg, states, events) && states[0] == EMPTY && i < j < |states| && SilentSince(states, events, i, j, k) && k != NO_TOKEN
    ensures k in states[j].sessions <==> forall m :: i < m < j ==> !OutlivedAt(cfg, events, m, events[i].now)
    ensures j < |events| && events[j].Greet? && events[j].resume == k && events[j].conn !in states[j].connTokens && 1 in events[j].versions ==>
              (Owns(states[j + 1], events[j].conn, k) <==>
               || events[j].minted == k
               || ((forall m :: i < m < j ==> !OutlivedAt(cfg, events, m, events[i].now)) && events[j].now - events[i].now <= cfg.ttl))
  {
    forall m | i <= m < j
      ensures LivesOn(cfg, states, events, m, k)
    {
      LifeStep(cfg, states, events, m, k);
    }
    LivesUntilSwept(cfg, states, events, i, j, k);
    if j < |events| && events[j].Greet? {
      var e := events[j];
      HelloMeans(states[j], e.conn, e.versions, e.resume, e.minted, cfg.ttl, e.now);
    }
  }

  // ---------------------------------------------------------------- one publish

  /** The frame of a publish: type 2, unflagged, its number as the stream id. */
  function PublishBytes(n: uint32, payload: seq<byte>): seq<byte> {
    HeaderBytes(Header(2, 0, n, |payload|)) + payload
  }

  /** The newest 64. */
  function Newest(es: seq<Cached>): seq<Cached> {
    if |es| <= 64 then es else es[|es| - 64..]
  }

  /** A cache with one more frame of a topic. */
  function With(c: Cache, t: Topic, p: Cached): Cache {
    c[t := Newest((if t in c then c[t] else []) + [p])]
  }

  /** What is left of a cache after whole topics went, heaviest first, only to meet the budget. */
  ghost predicate Reduced(c: Cache, budget: nat, r: Cache) {
    && r.Keys <= c.Keys && (forall t :: t in r ==> r[t] == c[t]) && Total(r) <= budget && (Total(c) <= budget ==> r == c)
    && (forall t, u :: t in c && t !in r && u in r ==> BytesOf(c[u]) <= BytesOf(c[t]))
  }

  /**
   What one publish does. A topic nobody wants: nothing. Otherwise the topic's next number is used up;
   a payload that is empty or above the frame limit goes no further; any other is cached under that
   number, and the members whose write fails leave, the topic with them if nobody wants it any more.
   */
  ghost predicate Broadcasts(budget: nat, s: State, t: Topic, payload: seq<byte>, failing: set<Conn>, s': State) {
    if !Wanted(s, t) then s' == s
    else
      var fits := 1 <= |payload| <= 0x10_0000;
      && s'.sessions == s.sessions && s'.connTokens == s.connTokens
      && Drops(s, s', t, if fits then failing else {})
      && Counts(s, s', t)
      && (!fits ==> s'.cache == s.cache)
      && (fits && LastSeq(s, t) < MAX_SEQUENCE ==>
            Caches(budget, s, s', t, Cached(LastSeq(s, t) + 1, PublishBytes(LastSeq(s, t) + 1, payload))))
  }

  ghost predicate Drops(s: State, s': State, t: Topic, failing: set<Conn>) {
    forall d, u :: In(s', d, u) <==> In(s, d, u) && !(u == t && d in failing)
  }

  ghost predicate Counts(s: State, s': State, t: Topic) {
    && (forall u :: u != t ==> (u in s'.topicSeqs <==> u in s.topicSeqs) && LastSeq(s', u) == LastSeq(s, u))
    && (if Wanted(s', t) then t in s'.topicSeqs && LastSeq(s', t) == LastSeq(s, t) + 1 else t !in s'.topicSeqs && t !in s'.cache)
  }

  ghost predicate Caches(budget: nat, s: State, s': State, t: Topic, p: Cached) {
    exists r :: LeavesOf(budget, With(s.cache, t, p), r, s', t)
  }

  ghost predicate LeavesOf(budget: nat, c: Cache, r: Cache, s': State, t: Topic) {
    Reduced(c, budget, r) && s'.cache == if Wanted(s', t) then r else r - {t}
  }

  lemma SameHolders(s: State, s': State, t: Topic)
    requires s'.subs == s.subs && s'.sessions == s.sessions
    ensures Wanted(s', t) <==> Wanted(s, t)
  {
    WantedIsHeld(s, t);
    WantedIsHeld(s', t);
    assert Records(s', t) <==> Records(s, t);
  }

  lemma MintMeans(s: State, t: Topic)
    requires CountersSound(s) && LastSeq(s, t) < MAX_SEQUENCE && Held(s, t)
    ensures var m := Mint(s, t);
            && m.subs == s.subs && m.sessions == s.sessions && m.connTokens == s.connTokens && m.cache == s.cache
            && m.topicSeqs.Keys == s.topicSeqs.Keys + {t} && Wanted(m, t) && Drops(s, m, t, {}) && Counts(s, m, t)
            && forall u :: LastSeq(m, u) == LastSeq(s, u) + if u == t then 1 else 0
  {
    WantedIsHeld(s, t);
    MintCounts(s, t);
    NumberedCounts(s, t);
    SameHolders(s, Mint(s, t), t);
  }

  lemma PublishMeans(cfg: Config, s: State, t: Topic, payload: seq<byte>, failing: set<Conn>, s': State)
    requires CountersSound(s) && LastSeq(s, t) < MAX_SEQUENCE && Published(s, t, payload, failing, cfg.budget, s')
    ensures Broadcasts(cfg.budget, s, t, payload, failing, s')
  {
    WantedIsHeld(s, t);
    if Held(s, t) {
      var m := Mint(s, t);
      MintMeans(s, t);
      if Encodable(payload) {
        var p := Entry(LastSeq(m, t), payload);
        var r :| Remembered(m, t, p, cfg.budget, r) && s' == Expel(r, t, At(s.subs, t) * failing);
        ExpelMeans(r, t, At(s.subs, t) * failing);
        ReducedMeans(cfg.budget, s, m, r, s', t, p);
        CachedMeans(cfg, s, m, t, payload, failing, r, s');
      }
    }
  }

  lemma CachedMeans(cfg: Config, s: State, m: State, t: Topic, payload: seq<byte>, failing: set<Conn>, r: State, s': State)
    requires Wanted(s, t) && Encodable(payload) && LastSeq(s, t) < MAX_SEQUENCE
    requires m.topicSeqs.Keys == s.topicSeqs.Keys + {t}
    requires forall u :: LastSeq(m, u) == LastSeq(s, u) + if u == t then 1 else 0
    requires r.subs == s.subs && r.topicSeqs == m.topicSeqs && r.counters == m.counters && Spares(r, s', {t})
    requires s'.sessions == s.sessions && s'.connTokens == s.connTokens
    requires forall d, u :: In(s', d, u) <==> In(r, d, u) && !(u == t && d in At(s.subs, t) * failing)
    requires Caches(cfg.budget, s, s', t, Cached(LastSeq(s, t) + 1, PublishBytes(LastSeq(s, t) + 1, payload)))
    ensures Broadcasts(cfg.budget, s, t, payload, failing, s')
  {
    FailingDrop(s, r, s', t, failing);
    CountedOn(s, m, r, s', t);
  }

  lemma CountedOn(s: State, m: State, r: State, s': State, t: Topic)
    requires m.topicSeqs.Keys == s.topicSeqs.Keys + {t} && forall u :: LastSeq(m, u) == LastSeq(s, u) + if u == t then 1 else 0
    requires r.topicSeqs == m.topicSeqs && r.counters == m.counters && Spares(r, s', {t})
    ensures Counts(s, s', t)
  {
    SparedTopic(r, s', t);
    assert forall u :: LastSeq(r, u) == LastSeq(m, u);
  }

  lemma ReducedMeans(budget: nat, s: State, m: State, r: State, s': State, t: Topic, p: Cached)
    requires m.cache == s.cache && Remembered(m, t, p, budget, r) && Spares(r, s', {t})
    ensures Caches(budget, s, s', t, p)
  {
    var c := With(s.cache, t, p);
    assert c == m.cache[t := Trim(Entries(m.cache, t) + [p])];
    EvictedLargestFirst(c, budget, r.cache);
    SparedTopic(r, s', t);
    assert LeavesOf(budget, c, r.cache, s', t);
  }

  lemma FailingDrop(s: State, r: State, s': State, t: Topic, failing: set<Conn>)
    requires r.subs == s.subs && forall d, u :: In(s', d, u) <==> In(r, d, u) && !(u == t && d in At(s.subs, t) * failing)
    ensures Drops(s, s', t, failing)
  {
    forall d, u
      ensures In(s', d, u) <==> In(s, d, u) && !(u == t && d in failing)
    {
      assert In(r, d, u) <==> In(s, d, u);
    }
  }

  lemma SparedTopic(r: State, s': State, t: Topic)
    requires Spares(r, s', {t})
    ensures s'.cache == if Wanted(s', t) then r.cache else r.cache - {t}
    ensures forall u :: u != t || Wanted(s', t) ==> (u in s'.topicSeqs <==> u in r.topicSeqs) && LastSeq(s', u) == LastSeq(r, u)
    ensures !Wanted(s', t) ==> t !in s'.topicSeqs
  {
  }

  /** A cached publish reads back, at the client, as a frame of type 2 with its number and its payload. */
  lemma PublishReadsBack(n: uint32, payload: seq<byte>, rest: seq<byte>, fault: Fault)
    requires 1 <= |payload| <= 0x10_0000
    ensures DecodeStream(Entry(n, payload).buf + rest, fault) == Ok(Frame(Header(2, 0, n, |payload|), payload), rest)
  {
    DecodeFrameOfBytes(PublishFrame(n, payload), rest, fault);
  }

  /** What a publish refuses is what is empty, or would not read back. */
  lemma EncodableIff(n: uint32, payload: seq<byte>)
    ensures Encodable(payload) <==>
            payload != [] && DecodeStream(Entry(n, payload).buf, EndOfStream) == Ok(Frame(Header(2, 0, n, |payload|), payload), [])
  {
    var buf := Entry(n, payload).buf;
    assert buf + [] == buf;
    if Encodable(payload) {
      PublishReadsBack(n, payload, [], EndOfStream);
    } else if payload != [] && DecodeStream(buf, EndOfStream).Ok? {
      var fs := DecodedChain(buf, EndOfStream);
      ChainDecodes(fs, DecodeStream(buf, EndOfStream).rest, EndOfStream);
    }
  }
}
