/**
 What the publish/subscribe server does to its tables, one lock section at a time: subscriptions,
 resumable sessions, per-topic sequence counters and the byte-budgeted replay cache.

 `PubSubServer.dfy` holds the class that updates these tables in place and is proved to compute the
 functions below; `PubSubRuns.dfy` proves what every run keeps.
 */
module PubSub {
  import opened Wire

  // Names are opaque: only whether two are equal, and whether one is empty, matters here.
  type Topic = nat
  type Conn = nat
  type Token = nat

  /** The empty topic name and the empty session token. */
  const NO_TOPIC: Topic := 0
  const NO_TOKEN: Token := 0

  const TOPIC_CACHE_SIZE := 64

  /** One replayable publish: its sequence number and its encoded wire frame. */
  datatype Cached = Cached(seqNo: uint32, buf: seq<byte>)

  datatype Session = Session(conn: Conn, topics: set<Topic>, lastSeen: int)

  type Subscriptions = map<Topic, set<Conn>>
  type Cache = map<Topic, seq<Cached>>

  /**
   The handler's tables. `topicSeqs` names the counter a topic uses now; `counters` holds every counter
   ever made, because a publisher may still hold one that its topic has given up.
   */
  datatype State = State(
    subs: Subscriptions,
    sessions: map<Token, Session>,
    connTokens: map<Conn, Token>,
    cache: Cache,
    topicSeqs: map<Topic, nat>,
    counters: seq<uint32>)

  const EMPTY := State(map[], map[], map[], map[], map[], [])

  // ---------------------------------------------------------------- who holds a topic

  function At(m: Subscriptions, t: Topic): set<Conn> {
    if t in m then m[t] else {}
  }

  ghost predicate Records(s: State, t: Topic) {
    exists k :: k in s.sessions && t in s.sessions[k].topics
  }

  /** A live subscriber, or a session that records the topic and may come back for it. */
  ghost predicate Held(s: State, t: Topic) {
    At(s.subs, t) != {} || Records(s, t)
  }

  function LastSeq(s: State, t: Topic): uint32 {
    if t in s.topicSeqs && s.topicSeqs[t] < |s.counters| then s.counters[s.topicSeqs[t]] else 0
  }

  /** No topic has an empty member set, counters exist, and nobody holds the empty topic. */
  ghost predicate Tidy(s: State) {
    && (forall t :: t in s.subs ==> s.subs[t] != {})
    && (forall t :: t in s.topicSeqs ==> s.topicSeqs[t] < |s.counters|)
    && !Held(s, NO_TOPIC)
  }

  // ---------------------------------------------------------------- bytes

  function BytesOf(c: seq<Cached>): nat {
    if c == [] then 0 else BytesOf(c[..|c| - 1]) + |c[|c| - 1].buf|
  }

  ghost function Total(c: Cache): nat
    decreases |c|
  {
    if c == map[] then 0
    else
      var t :| t in c;
      BytesOf(c[t]) + Total(c - {t})
  }

  lemma {:induction false} TotalRemove(c: Cache, t: Topic)
    requires t in c
    ensures Total(c) == BytesOf(c[t]) + Total(c - {t})
    decreases |c|
  {
    var u :| u in c && Total(c) == BytesOf(c[u]) + Total(c - {u});
    if u != t {
      TotalRemove(c - {u}, t);
      TotalRemove(c - {t}, u);
      assert c - {u} - {t} == c - {t} - {u};
    }
  }

  lemma TotalUpdate(c: Cache, t: Topic, entries: seq<Cached>)
    ensures Total(c[t := entries]) == Total(c) + BytesOf(entries) - (if t in c then BytesOf(c[t]) else 0)
  {
    var c' := c[t := entries];
    TotalRemove(c', t);
    assert c' - {t} == c - {t};
    if t in c {
      TotalRemove(c, t);
    } else {
      assert c - {t} == c;
    }
  }

  lemma BytesOfConcat(a: seq<Cached>, b: seq<Cached>)
    ensures BytesOf(a + b) == BytesOf(a) + BytesOf(b)
  {
    if b == [] {
      assert a + b == a;
    } else {
      assert (a + b)[..|a + b| - 1] == a + b[..|b| - 1];
    }
  }

  /** A cache that weighs something has a topic that does. */
  lemma {:induction false} HeavyTopic(c: Cache) returns (t: Topic)
    requires Total(c) > 0
    ensures t in c && BytesOf(c[t]) > 0
    decreases |c|
  {
    t :| t in c && Total(c) == BytesOf(c[t]) + Total(c - {t});
    if BytesOf(c[t]) == 0 {
      t := HeavyTopic(c - {t});
    }
  }

  // ---------------------------------------------------------------- eviction

  ghost predicate IsHeaviest(c: Cache, victim: Topic) {
    victim in c && forall t :: t in c ==> BytesOf(c[t]) <= BytesOf(c[victim])
  }

  /** The cache after losing these topics. */
  function Without(c: Cache, victims: seq<Topic>): Cache {
    if victims == [] then c else Without(c, victims[..|victims| - 1]) - {victims[|victims| - 1]}
  }

  /** While over budget, a heaviest topic goes. */
  ghost predicate Evictions(c: Cache, budget: nat, victims: seq<Topic>) {
    victims == [] ||
    var before := victims[..|victims| - 1];
    && Evictions(c, budget, before)
    && Total(Without(c, before)) > budget
    && IsHeaviest(Without(c, before), victims[|victims| - 1])
  }

  /** The outcome of trimming to the budget. Equal sizes leave a choice, so this is a relation. */
  ghost predicate Evicted(c: Cache, budget: nat, c': Cache) {
    exists victims :: Evictions(c, budget, victims) && c' == Without(c, victims) && Total(c') <= budget
  }

  lemma {:induction false} EvictionsLargestFirst(c: Cache, budget: nat, victims: seq<Topic>)
    requires Evictions(c, budget, victims)
    ensures var c' := Without(c, victims);
            && c'.Keys <= c.Keys
            && (forall t :: t in c' ==> c'[t] == c[t])
            && (forall t, u :: t in c && t !in c' && u in c' ==> BytesOf(c[u]) <= BytesOf(c[t]))
            && (forall t :: t in c && t !in c' ==> Total(c') + BytesOf(c[t]) > budget)
    decreases |victims|
  {
    if victims != [] {
      var before, victim := victims[..|victims| - 1], victims[|victims| - 1];
      EvictionsLargestFirst(c, budget, before);
      TotalRemove(Without(c, before), victim);
    }
  }

  /**
   Only whole topics go, the rest is untouched and fits the budget; every topic that went is at least
   as large as every topic that stayed, and had to go: with it the cache would be over budget.
   */
  lemma EvictedLargestFirst(c: Cache, budget: nat, c': Cache)
    requires Evicted(c, budget, c')
    ensures c'.Keys <= c.Keys && Total(c') <= budget
    ensures forall t :: t in c' ==> c'[t] == c[t]
    ensures forall t, u :: t in c && t !in c' && u in c' ==> BytesOf(c[u]) <= BytesOf(c[t])
    ensures forall t :: t in c && t !in c' ==> Total(c') + BytesOf(c[t]) > budget
    ensures Total(c) <= budget ==> c' == c
  {
    var victims :| Evictions(c, budget, victims) && c' == Without(c, victims) && Total(c') <= budget;
    EvictionsLargestFirst(c, budget, victims);
    if victims != [] {
      FirstVictimNeeded(c, budget, victims);
    }
  }

  lemma {:induction false} FirstVictimNeeded(c: Cache, budget: nat, victims: seq<Topic>)
    requires Evictions(c, budget, victims) && victims != []
    ensures Total(c) > budget
    decreases |victims|
  {
    if |victims| > 1 {
      FirstVictimNeeded(c, budget, victims[..|victims| - 1]);
    }
  }

  /** Keeps the newest entries up to the per-topic limit. */
  function Trim(entries: seq<Cached>): (r: seq<Cached>)
    ensures |r| <= TOPIC_CACHE_SIZE
  {
    if |entries| > TOPIC_CACHE_SIZE then entries[|entries| - TOPIC_CACHE_SIZE..] else entries
  }

  function Entries(c: Cache, t: Topic): seq<Cached> {
    if t in c then c[t] else []
  }

  /** What appending does to the byte count: the new frame comes in, an oldest one may go out. */
  lemma AppendBytes(c: Cache, t: Topic, p: Cached)
    requires |Entries(c, t)| <= TOPIC_CACHE_SIZE
    ensures var es := Entries(c, t) + [p];
            Total(c[t := Trim(es)]) == Total(c) + |p.buf| - (if |es| > TOPIC_CACHE_SIZE then |es[0].buf| else 0)
  {
    var es := Entries(c, t) + [p];
    BytesOfConcat(Entries(c, t), [p]);
    if |es| > TOPIC_CACHE_SIZE {
      assert es == [es[0]] + Trim(es);
      BytesOfConcat([es[0]], Trim(es));
    }
    TotalUpdate(c, t, Trim(es));
  }

  /** `rememberPublish`: append, trim the topic, trim the whole. */
  ghost predicate Remembered(s: State, t: Topic, p: Cached, budget: nat, s': State) {
    && Evicted(s.cache[t := Trim(Entries(s.cache, t) + [p])], budget, s'.cache)
    && s' == State(s.subs, s.sessions, s.connTokens, s'.cache, s.topicSeqs, s.counters)
  }

  // ---------------------------------------------------------------- leaving a topic

  /** Takes `gone[t]` out of every topic's members; a topic left without members leaves the table. */
  function Strip(subs: Subscriptions, gone: Subscriptions): Subscriptions {
    map t | t in subs && subs[t] - At(gone, t) != {} :: subs[t] - At(gone, t)
  }

  /** `dropTopicCacheLocked` for each of the topics: those nobody holds lose cache and counter. */
  ghost function Forget(s: State, ts: set<Topic>): State {
    var dead := set t | t in ts && !Held(s, t);
    s.(cache := s.cache - dead, topicSeqs := s.topicSeqs - dead)
  }

  lemma ForgetOne(s: State, t: Topic)
    ensures Forget(s, {t}) == if Held(s, t) then s else s.(cache := s.cache - {t}, topicSeqs := s.topicSeqs - {t})
  {
    var dead := set u | u in {t} && !Held(s, u);
    if Held(s, t) {
      assert dead == {};
      assert s.cache - dead == s.cache;
      assert s.topicSeqs - dead == s.topicSeqs;
    } else {
      assert dead == {t};
    }
  }

  /** `removeSubscriber` for each of the connections. */
  ghost function Expel(s: State, t: Topic, conns: set<Conn>): State {
    Forget(s.(subs := Strip(s.subs, map[t := conns])), {t})
  }

  // ---------------------------------------------------------------- subscribe and unsubscribe

  /** The connection's session remembers or forgets a topic. */
  function Note(s: State, c: Conn, t: Topic, subscribe: bool, now: int): map<Token, Session> {
    if c in s.connTokens && s.connTokens[c] in s.sessions then
      var k := s.connTokens[c];
      var was := s.sessions[k];
      s.sessions[k := Session(was.conn, if subscribe then was.topics + {t} else was.topics - {t}, now)]
    else s.sessions
  }

  function Subscribe(s: State, c: Conn, t: Topic, now: int): State {
    s.(subs := s.subs[t := At(s.subs, t) + {c}], sessions := Note(s, c, t, true, now))
  }

  ghost function Unsubscribe(s: State, c: Conn, t: Topic, now: int): State {
    Forget(s.(subs := Strip(s.subs, map[t := {c}]), sessions := Note(s, c, t, false, now)), {t})
  }

  function Touch(s: State, c: Conn, now: int): State {
    if c in s.connTokens && s.connTokens[c] in s.sessions then
      s.(sessions := s.sessions[s.connTokens[c] := s.sessions[s.connTokens[c]].(lastSeen := now)])
    else s
  }

  // ---------------------------------------------------------------- handshake

  /** The highest version both sides speak; the server speaks version 1 only. */
  function Negotiate(versions: seq<int>): int {
    if 1 in versions then 1 else 0
  }

  predicate Resumable(s: State, k: Token, ttl: int, now: int) {
    k != NO_TOKEN && k in s.sessions && now - s.sessions[k].lastSeen <= ttl
  }

  /** Moves the session's topics from its old connection onto `c`. */
  function Resume(s: State, c: Conn, k: Token, now: int): State
    requires k in s.sessions
  {
    var was := s.sessions[k];
    s.(subs := s.subs + (map t | t in was.topics :: At(s.subs, t) - {was.conn} + {c}),
    sessions := s.sessions[k := Session(c, was.topics, now)],
    connTokens := (s.connTokens - {was.conn})[c := k])
  }

  function Open(s: State, c: Conn, k: Token, now: int): State {
    s.(sessions := s.sessions[k := Session(c, {}, now)], connTokens := s.connTokens[c := k])
  }

  /** The tables after a HELLO; a duplicate one, or one without a common version, changes nothing. */
  function Hello(s: State, c: Conn, versions: seq<int>, resume: Token, minted: Token, ttl: int, now: int): State {
    if c in s.connTokens || Negotiate(versions) == 0 then s
    else if Resumable(s, resume, ttl, now) then Resume(s, c, resume, now)
    else Open(s, c, minted, now)
  }

  function Cursor(cursors: map<Topic, nat>, t: Topic): nat {
    if t in cursors then cursors[t] else 0
  }

  /** A topic's cached publishes above a cursor, oldest first. */
  function Newer(entries: seq<Cached>, cursor: nat): seq<Cached> {
    if entries == [] then []
    else
      var init := Newer(entries[..|entries| - 1], cursor);
      var last := entries[|entries| - 1];
      if last.seqNo > cursor then init + [last] else init
  }

  /** Exactly the entries above the cursor. */
  lemma {:induction false} NewerAreAbove(es: seq<Cached>, cursor: nat, p: Cached)
    ensures p in Newer(es, cursor) <==> p in es && p.seqNo > cursor
    decreases |es|
  {
    if es != [] {
      NewerAreAbove(es[..|es| - 1], cursor, p);
      assert es == es[..|es| - 1] + [es[|es| - 1]];
    }
  }

  function Tagged(t: Topic, es: seq<Cached>): seq<(Topic, Cached)> {
    seq(|es|, i requires 0 <= i < |es| => (t, es[i]))
  }

  /** What a resume replays when it walks the topics in the given order. */
  function Replay(c: Cache, cursors: map<Topic, nat>, order: seq<Topic>): seq<(Topic, Cached)> {
    if order == [] then []
    else
      var t := order[|order| - 1];
      var es := Newer(Entries(c, t), Cursor(cursors, t));
      Replay(c, cursors, order[..|order| - 1]) + Tagged(t, es)
  }

  function ReplayBuffers(replay: seq<(Topic, Cached)>): seq<seq<byte>> {
    seq(|replay|, i requires 0 <= i < |replay| => replay[i].1.buf)
  }

  /** A walk over a set that visits every element once. */
  ghost predicate Walk<T(!new)>(order: seq<T>, s: set<T>) {
    && (forall i, j :: 0 <= i < j < |order| ==> order[i] != order[j])
    && (forall x :: x in order <==> x in s)
  }

  /** The catch-up of some topics, walked in some order. */
  ghost predicate IsReplay(c: Cache, cursors: map<Topic, nat>, topics: set<Topic>, replay: seq<seq<byte>>) {
    exists order :: Walk(order, topics) && replay == ReplayBuffers(Replay(c, cursors, order))
  }

  // ---------------------------------------------------------------- expiry

  function TopicsOf(s: State, ks: set<Token>): set<Topic> {
    set k, t | k in ks && k in s.sessions && t in s.sessions[k].topics :: t
  }

  function ConnsOf(s: State, ks: set<Token>): set<Conn> {
    set k | k in ks && k in s.sessions :: s.sessions[k].conn
  }

  /** For each topic the transports that leave it when these sessions end. */
  function Leavers(s: State, ks: set<Token>): Subscriptions {
    map t | t in TopicsOf(s, ks) :: set k | k in ks && k in s.sessions && t in s.sessions[k].topics :: s.sessions[k].conn
  }

  /** Ends the given sessions. */
  ghost function End(s: State, ks: set<Token>): State {
    Forget(s.(subs := Strip(s.subs, Leavers(s, ks)),
           sessions := s.sessions - ks,
           connTokens := s.connTokens - ConnsOf(s, ks)), TopicsOf(s, ks))
  }

  function Expired(s: State, ttl: int, now: int): set<Token> {
    set k | k in s.sessions && now - s.sessions[k].lastSeen > ttl
  }

  ghost function Reap(s: State, ttl: int, now: int): State {
    End(s, Expired(s, ttl, now))
  }

  // ---------------------------------------------------------------- publish

  /** The topic's counter exists afterwards; a new one starts at zero. */
  function Numbered(s: State, t: Topic): State {
    if t in s.topicSeqs then s
    else s.(topicSeqs := s.topicSeqs[t := |s.counters|], counters := s.counters + [0])
  }

  /** An atomic 32-bit increment of one counter. */
  function Increment(s: State, id: nat): State {
    if id < |s.counters| then s.(counters := s.counters[id := (s.counters[id] as int + 1) % 0x1_0000_0000]) else s
  }

  function Mint(s: State, t: Topic): State {
    var n := Numbered(s, t);
    Increment(n, n.topicSeqs[t])
  }

  predicate Encodable(payload: seq<byte>) {
    1 <= |payload| <= MAX_FRAME_SIZE
  }

  function PublishFrame(seqNo: uint32, payload: seq<byte>): Frame {
    Whole(PUBLISH, seqNo, payload)
  }

  function Entry(seqNo: uint32, payload: seq<byte>): Cached {
    Cached(seqNo, FrameBytes(PublishFrame(seqNo, payload)))
  }

  /**
   One whole publish. Nothing happens for a topic nobody holds; otherwise a sequence number is used
   up even if the payload cannot be encoded, the frame is remembered, and subscribers whose write
   fails leave the topic.
   */
  ghost predicate Published(s: State, t: Topic, payload: seq<byte>, failing: set<Conn>, budget: nat, s': State) {
    if !Held(s, t) then s' == s
    else
      var m := Mint(s, t);
      if !Encodable(payload) then s' == m
      else exists r :: Remembered(m, t, Entry(LastSeq(m, t), payload), budget, r)
                       && s' == Expel(r, t, At(s.subs, t) * failing)
  }
}
