/**
 The server's tables as the handler keeps them: mutable fields updated under one lock. Each method is
 one lock section, or the sequence of sections one call runs through, and is proved to compute the
 functions of `PubSub.dfy`.
 */
module PubSubServer {
  import opened Wire
  import opened PubSub
  import opened PubSubSteps
  import opened PubSubTables
  import Sessions = PubSubSessions
  import Runs = PubSubRuns
  import Races = PubSubRaces

  function BuffersOf(es: seq<Cached>): seq<seq<byte>> {
    seq(|es|, j requires 0 <= j < |es| => es[j].buf)
  }

  lemma ReplayOneMore(c: Cache, cursors: map<Topic, nat>, order: seq<Topic>, t: Topic)
    ensures var es := Newer(Entries(c, t), Cursor(cursors, t));
            ReplayBuffers(Replay(c, cursors, order + [t])) ==
            ReplayBuffers(Replay(c, cursors, order)) + BuffersOf(es)
  {
    assert (order + [t])[..|order|] == order;
  }

  class ProtocolHandler {
    var subs: Subscriptions
    var sessions: map<Token, Session>
    var connTokens: map<Conn, Token>
    var topicCache: Cache
    var cacheBytes: int
    var topicSeqs: map<Topic, nat>
    var counters: seq<uint32>
    const cacheBudget: nat
    const sessionTTL: int

    function View(): State
      reads this
    {
      State(subs, sessions, connTokens, topicCache, topicSeqs, counters)
    }

    /**
     What holds of the byte accounting between any two lock sections, however calls interleave. The
     tables themselves obey `Tidy`, which every function of `PubSub` that models a lock section keeps.
     */
    ghost predicate Valid()
      reads this
    {
      Accounted() && cacheBytes <= cacheBudget && NO_TOPIC !in topicCache
    }

    /** The byte counter is the size of everything cached, and no topic is over its entry limit. */
    ghost predicate Accounted()
      reads this
    {
      && cacheBytes == Total(topicCache)
      && (forall t :: t in topicCache ==> |topicCache[t]| <= TOPIC_CACHE_SIZE)
    }

    constructor (budget: nat, ttl: int)
      ensures Valid() && View() == EMPTY && cacheBudget == budget && sessionTTL == ttl
    {
      subs, sessions, connTokens := map[], map[], map[];
      topicCache, cacheBytes, topicSeqs, counters := map[], 0, map[], [];
      cacheBudget, sessionTTL := budget, ttl;
    }

    method FrameBytesOf(entries: seq<Cached>) returns (total: nat)
      ensures total == BytesOf(entries)
    {
      total := 0;
      for i := 0 to |entries|
        invariant total == BytesOf(entries[..i])
      {
        total := total + |entries[i].buf|;
        assert entries[..i + 1][..i] == entries[..i];
      }
      assert entries[..|entries|] == entries;
    }

    /** The heaviest cached topic; the empty name if none weighs anything. */
    method Heaviest() returns (victim: Topic, size: nat)
      ensures size > 0 ==> victim in topicCache && size == BytesOf(topicCache[victim])
      ensures size == 0 ==> victim == NO_TOPIC
      ensures forall t :: t in topicCache ==> BytesOf(topicCache[t]) <= size
    {
      victim, size := NO_TOPIC, 0;
      var todo := topicCache.Keys;
      while todo != {}
        invariant todo <= topicCache.Keys
        invariant size > 0 ==> victim in topicCache && size == BytesOf(topicCache[victim])
        invariant size == 0 ==> victim == NO_TOPIC
        invariant forall t :: t in topicCache && t !in todo ==> BytesOf(topicCache[t]) <= size
      {
        var t :| t in todo;
        todo := todo - {t};
        var n := FrameBytesOf(topicCache[t]);
        if n > size {
          victim, size := t, n;
        }
      }
    }

    /** One turn of the eviction loop; the empty name as victim means the bookkeeping has drifted. */
    method EvictOne() returns (victim: Topic)
      requires Accounted() && cacheBytes > cacheBudget
      modifies this`topicCache, this`cacheBytes
      ensures victim == NO_TOPIC ==> NO_TOPIC in topicCache && cacheBytes == 0 && topicCache == old(topicCache)
      ensures victim != NO_TOPIC ==>
                && IsHeaviest(old(topicCache), victim)
                && topicCache == old(topicCache) - {victim}
                && |topicCache.Keys| < |old(topicCache).Keys|
                && Accounted()
    {
      var size: nat;
      victim, size := Heaviest();
      assert size > 0 by { var t := HeavyTopic(topicCache); }
      if victim == NO_TOPIC {
        cacheBytes := 0;
        return;
      }
      TotalRemove(topicCache, victim);
      cacheBytes := cacheBytes - size;
      topicCache := topicCache - {victim};
      assert topicCache.Keys == old(topicCache).Keys - {victim};
    }

    /**
     Evicts whole topics until the budget is met. The reset for drifted bookkeeping is reached only
     when the empty topic is cached, and then it leaves the cache over budget with a zero count.
     */
    method EnforceCacheBudget() returns (drifted: bool)
      requires Accounted()
      modifies this`topicCache, this`cacheBytes
      ensures !drifted ==> Accounted() && cacheBytes <= cacheBudget && Evicted(old(topicCache), cacheBudget, topicCache)
      ensures drifted ==> NO_TOPIC in topicCache && cacheBytes == 0 && Total(topicCache) > cacheBudget
      ensures topicCache.Keys <= old(topicCache).Keys
    {
      ghost var full := topicCache;
      ghost var victims: seq<Topic> := [];
      while cacheBytes > cacheBudget
        invariant Accounted()
        invariant Evictions(full, cacheBudget, victims)
        invariant topicCache == Without(full, victims)
        invariant topicCache.Keys <= full.Keys
        decreases |topicCache.Keys|
      {
        var victim := EvictOne();
        if victim == NO_TOPIC {
          return true;
        }
        assert (victims + [victim])[..|victims|] == victims;
        victims := victims + [victim];
      }
      return false;
    }

    /** Appends a frame to its topic's cache, drops the oldest beyond the limit and meets the budget. */
    method RememberPublish(topic: Topic, p: Cached) returns (drifted: bool)
      requires Valid() && topic != NO_TOPIC
      modifies this`topicCache, this`cacheBytes
      ensures Valid() && !drifted
      ensures Remembered(old(View()), topic, p, cacheBudget, View())
    {
      AppendBytes(topicCache, topic, p);
      var entries := Entries(topicCache, topic) + [p];
      if |entries| > TOPIC_CACHE_SIZE {
        cacheBytes := cacheBytes - |entries[0].buf|;
        entries := entries[|entries| - TOPIC_CACHE_SIZE..];
      }
      topicCache := topicCache[topic := entries];
      cacheBytes := cacheBytes + |p.buf|;
      assert topicCache == old(topicCache)[topic := Trim(Entries(old(topicCache), topic) + [p])];
      drifted := EnforceCacheBudget();
      assert View() == State(old(subs), old(sessions), old(connTokens), topicCache, old(topicSeqs), old(counters));
    }

    method SessionRecordsTopic(topic: Topic) returns (yes: bool)
      ensures yes <==> Records(View(), topic)
    {
      var todo := sessions.Keys;
      while todo != {}
        invariant todo <= sessions.Keys
        invariant forall k :: k in sessions && k !in todo ==> topic !in sessions[k].topics
      {
        var k :| k in todo;
        if topic in sessions[k].topics {
          return true;
        }
        todo := todo - {k};
      }
      return false;
    }

    /** Deletes one topic's cache and takes its bytes off the count. */
    method Uncache(topic: Topic)
      requires Valid()
      modifies this`topicCache, this`cacheBytes
      ensures Valid() && topicCache == old(topicCache) - {topic}
    {
      if topic in topicCache {
        var n := FrameBytesOf(topicCache[topic]);
        TotalRemove(topicCache, topic);
        cacheBytes := cacheBytes - n;
      } else {
        assert topicCache - {topic} == topicCache;
      }
      topicCache := topicCache - {topic};
    }

    /** Gives up a topic's cache and counter once nobody holds it. */
    method DropTopicCache(topic: Topic)
      requires Valid()
      modifies this`topicCache, this`cacheBytes, this`topicSeqs
      ensures Valid() && View() == Forget(old(View()), {topic})
    {
      ForgetOne(View(), topic);
      if topic in subs && subs[topic] != {} {
        return;
      }
      var recorded := SessionRecordsTopic(topic);
      if recorded {
        return;
      }
      Uncache(topic);
      topicSeqs := topicSeqs - {topic};
      assert View() == State(old(subs), old(sessions), old(connTokens), topicCache, topicSeqs, old(counters));
    }

    /** Takes a connection out of one topic's members. */
    method RemoveMember(topic: Topic, conn: Conn)
      requires forall t :: t in subs ==> subs[t] != {}
      modifies this`subs
      ensures subs == Strip(old(subs), map[topic := {conn}])
    {
      ghost var was := subs;
      if topic in subs {
        var members := subs[topic] - {conn};
        subs := if members == {} then subs - {topic} else subs[topic := members];
      }
      forall t
        ensures At(subs, t) == At(Strip(was, map[topic := {conn}]), t)
      {
        StripAt(was, map[topic := {conn}], t);
      }
      SameMembers(subs, Strip(was, map[topic := {conn}]));
    }

    /** A failed write: the transport leaves the topic, the session keeps its recording. */
    method RemoveSubscriber(topic: Topic, conn: Conn)
      requires Valid() && Tidy(View())
      modifies this
      ensures Valid() && Tidy(View()) && View() == Expel(old(View()), topic, {conn})
      ensures sessions == old(sessions) && connTokens == old(connTokens) && Spares(old(View()), View(), {topic})
      ensures forall d, u :: In(View(), d, u) <==> In(old(View()), d, u) && !(u == topic && d == conn)
    {
      TidyExpel(View(), topic, {conn});
      ExpelMeans(View(), topic, {conn});
      RemoveMember(topic, conn);
      assert View() == State(subs, old(sessions), old(connTokens), old(topicCache), old(topicSeqs), old(counters));
      DropTopicCache(topic);
    }

    method TouchSession(conn: Conn, now: int)
      modifies this`sessions
      ensures View() == Touch(old(View()), conn, now) && sessions.Keys == old(sessions.Keys)
      ensures forall k :: k in sessions ==>
                            sessions[k] == old(sessions)[k].(lastSeen := if Owns(old(View()), conn, k) then now else old(sessions)[k].lastSeen)
    {
      TouchMeans(View(), conn, now);
      if conn in connTokens && connTokens[conn] in sessions {
        var k := connTokens[conn];
        sessions := sessions[k := sessions[k].(lastSeen := now)];
      }
    }

    /** Records a subscription or its end in the connection's session. */
    method NoteInSession(conn: Conn, topic: Topic, subscribe: bool, now: int)
      modifies this`sessions
      ensures sessions == Note(old(View()), conn, topic, subscribe, now)
    {
      if conn in connTokens && connTokens[conn] in sessions {
        var k := connTokens[conn];
        var s := sessions[k];
        var topics := if subscribe then s.topics + {topic} else s.topics - {topic};
        sessions := sessions[k := Session(s.conn, topics, now)];
      }
    }

    method AddSubscriber(conn: Conn, topic: Topic, now: int)
      modifies this
      ensures View() == Subscribe(old(View()), conn, topic, now) && cacheBytes == old(cacheBytes)
    {
      ghost var s := View();
      var members := if topic in subs then subs[topic] else {};
      subs := subs[topic := members + {conn}];
      NoteInSession(conn, topic, true, now);
      assert View() == State(subs, sessions, s.connTokens, s.cache, s.topicSeqs, s.counters);
    }

    /** Takes a member out of a topic that has any; the last one takes the cache along. */
    method LeaveMembers(conn: Conn, topic: Topic)
      requires Valid() && Tidy(View())
      modifies this
      ensures Valid() && subs == Strip(old(subs), map[topic := {conn}])
      ensures View() == if topic in old(subs) then Expel(old(View()), topic, {conn}) else old(View())
    {
      NobodyLeaves(subs - {topic}, topic, conn);
      if topic in subs {
        RemoveMember(topic, conn);
        ForgetOne(View(), topic);
        if topic !in subs {
          DropTopicCache(topic);
        }
      } else {
        assert subs - {topic} == subs;
      }
    }

    method EndSubscription(conn: Conn, topic: Topic, now: int)
      requires Valid() && Tidy(View())
      modifies this
      ensures Valid() && View() == Unsubscribe(old(View()), conn, topic, now)
    {
      ghost var s := View();
      UnsubscribeInTwo(s, conn, topic, now);
      LeaveMembers(conn, topic);
      NoteInSession(conn, topic, false, now);
      DropTopicCache(topic);
    }

    /** A SUBSCRIBE or UNSUBSCRIBE frame; one without a topic is refused and changes nothing. */
    method HandleSubscribe(conn: Conn, topic: Topic, subscribe: bool, now: int) returns (ok: bool, lastSeq: uint32)
      requires Valid() && Tidy(View())
      modifies this
      ensures Valid() && (ok <==> topic != NO_TOPIC)
      ensures !ok ==> View() == old(View())
      ensures ok && subscribe ==> View() == Subscribe(old(View()), conn, topic, now)
      ensures ok && !subscribe ==> View() == Unsubscribe(old(View()), conn, topic, now)
      ensures ok ==> Moves(old(View()), View(), conn, topic, subscribe, now)
      ensures ok ==> if subscribe then Spares(old(View()), View(), {}) else Spares(old(View()), View(), {topic})
      ensures ok ==> lastSeq == LastSeq(View(), topic)
    {
      if topic == NO_TOPIC {
        return false, 0;
      }
      ok := true;
      if subscribe {
        SubscribeMeans(View(), conn, topic, now);
        AddSubscriber(conn, topic, now);
      } else {
        UnsubscribeMeans(View(), conn, topic, now);
        EndSubscription(conn, topic, now);
      }
      lastSeq := TopicSequence(topic);
    }

    method TopicSequence(topic: Topic) returns (lastSeq: uint32)
      ensures lastSeq == LastSeq(View(), topic)
    {
      return if topic in topicSeqs && topicSeqs[topic] < |counters| then counters[topicSeqs[topic]] else 0;
    }

    /** Adds the entries above a cursor, oldest first. */
    method CollectNewer(before: seq<seq<byte>>, entries: seq<Cached>, cursor: nat) returns (replay: seq<seq<byte>>)
      ensures replay == before + BuffersOf(Newer(entries, cursor))
    {
      replay := before;
      for i := 0 to |entries|
        invariant replay == before + BuffersOf(Newer(entries[..i], cursor))
      {
        assert entries[..i + 1][..i] == entries[..i];
        if entries[i].seqNo > cursor {
          replay := replay + [entries[i].buf];
        }
      }
      assert entries[..|entries|] == entries;
    }

    /** Whichever topics the session records, oldest first within each, topics in some order. */
    method CollectReplay(topics: set<Topic>, cursors: map<Topic, nat>)
      returns (replay: seq<seq<byte>>)
      ensures IsReplay(topicCache, cursors, topics, replay)
      ensures forall b :: b in replay <==> SentFrom(topicCache, cursors, topics, b)
    {
      replay := [];
      ghost var order: seq<Topic> := [];
      var todo := topics;
      while todo != {}
        invariant todo <= topics && Walk(order, topics - todo)
        invariant replay == ReplayBuffers(Replay(topicCache, cursors, order))
      {
        var t :| t in todo;
        var entries := if t in topicCache then topicCache[t] else [];
        var cursor := if t in cursors then cursors[t] else 0;
        replay := CollectNewer(replay, entries, cursor);
        ReplayOneMore(topicCache, cursors, order, t);
        order := order + [t];
        todo := todo - {t};
      }
      assert topics - todo == topics;
      forall b
        ensures b in replay <==> SentFrom(topicCache, cursors, topics, b)
      {
        ReplaySends(topicCache, cursors, topics, replay, b);
      }
    }

    /**
     Binds a connection to its session: the one its token names, if that is still alive, with the
     frames it missed; otherwise a fresh one under the minted token.
     */
    method AttachSession(conn: Conn, token: Token, cursors: map<Topic, nat>, minted: Token, now: int)
      returns (given: Token, resumed: bool, replay: seq<seq<byte>>)
      requires conn !in connTokens
      modifies this`subs, this`sessions, this`connTokens
      ensures resumed <==> Resumable(old(View()), token, sessionTTL, now)
      ensures resumed ==>
                && given == token && View() == Resume(old(View()), conn, token, now)
                && IsReplay(topicCache, cursors, old(sessions)[token].topics, replay)
      ensures !resumed ==> given == minted && View() == Open(old(View()), conn, minted, now) && replay == []
    {
      if token != NO_TOKEN && token in sessions && now - sessions[token].lastSeen <= sessionTTL {
        MoveTopics(sessions[token].topics, sessions[token].conn, conn);
        var was := sessions[token];
        connTokens := (connTokens - {was.conn})[conn := token];
        sessions := sessions[token := Session(conn, was.topics, now)];
        replay := CollectReplay(was.topics, cursors);
        return token, true, replay;
      }
      sessions := sessions[minted := Session(conn, {}, now)];
      connTokens := connTokens[conn := minted];
      return minted, false, [];
    }

    /** In each of the topics the new transport takes the old one's place. */
    method MoveTopics(topics: set<Topic>, from: Conn, to: Conn)
      modifies this`subs
      ensures subs == old(subs) + (map t | t in topics :: At(old(subs), t) - {from} + {to})
    {
      ghost var was := subs;
      var todo := topics;
      while todo != {}
        invariant todo <= topics
        invariant subs == was + (map t | t in topics - todo :: At(was, t) - {from} + {to})
      {
        var t :| t in todo;
        var members := if t in subs then subs[t] else {};
        assert members == At(was, t);
        subs := subs[t := members - {from} + {to}];
        todo := todo - {t};
      }
      assert topics - todo == topics;
    }

    /** A HELLO frame. The token is the caller's fresh supply; a connection shakes hands once. */
    method HandleHello(conn: Conn, versions: seq<int>, resume: Token, cursors: map<Topic, nat>, minted: Token, now: int)
      returns (accepted: bool, token: Token, resumed: bool, replay: seq<seq<byte>>)
      modifies this`subs, this`sessions, this`connTokens
      ensures View() == Hello(old(View()), conn, versions, resume, minted, sessionTTL, now)
      ensures accepted <==> conn !in old(connTokens) && 1 in versions
      ensures resumed <==> accepted && Resumable(old(View()), resume, sessionTTL, now)
      ensures accepted ==> token == if resumed then resume else minted
      ensures !accepted ==> View() == old(View())
      ensures resumed ==> resume in old(sessions) && Resumed(old(View()), View(), conn, resume, now)
      ensures resumed <==> accepted && resume != NO_TOKEN && resume in old(sessions) && now - old(sessions)[resume].lastSeen <= sessionTTL
      ensures accepted && !resumed ==> Opened(old(View()), View(), conn, minted, now)
      ensures resumed ==> IsReplay(topicCache, cursors, old(sessions)[resume].topics, replay)
      ensures !resumed ==> replay == []
    {
      HelloMeans(View(), conn, versions, resume, minted, sessionTTL, now);
      if conn in connTokens || Negotiate(versions) == 0 {
        return false, NO_TOKEN, false, [];
      }
      accepted := true;
      token, resumed, replay := AttachSession(conn, resume, cursors, minted, now);
    }

    /** Takes one transport out of several topics. */
    method LeaveTopics(conn: Conn, topics: set<Topic>)
      requires Valid() && Tidy(View())
      modifies this
      ensures Valid() && Tidy(View()) && View() == Leave(old(View()), conn, topics)
    {
      ghost var start := View();
      LeaveNothing(start, conn);
      var todo := topics;
      ghost var left := {};
      while todo != {}
        invariant todo <= topics && left == topics - todo
        invariant Valid() && Tidy(View())
        invariant View() == Leave(start, conn, left)
      {
        var t :| t in todo;
        LeaveOneMore(start, conn, left, t);
        RemoveSubscriber(t, conn);
        todo, left := todo - {t}, left + {t};
      }
      assert left == topics;
    }

    /** Drops one expired session and takes its transport out of every topic it still occupies. */
    method EndSession(token: Token)
      requires Valid() && Tidy(View()) && token in sessions
      modifies this
      ensures Valid() && Tidy(View()) && View() == End(old(View()), {token})
    {
      ghost var start := View();
      EndIsLeave(start, token);
      FewerSessionsTidy(start, token);
      var was := sessions[token];
      sessions := sessions - {token};
      connTokens := connTokens - {was.conn};
      assert View() == start.(sessions := sessions, connTokens := connTokens);
      LeaveTopics(was.conn, was.topics);
    }

    /** The janitor's sweep. */
    method ReapExpiredSessions(now: int)
      requires Valid() && Tidy(View())
      modifies this
      ensures Valid() && Tidy(View()) && View() == Reap(old(View()), sessionTTL, now)
      ensures Swept(old(View()), View(), sessionTTL, now)
    {
      ghost var start := View();
      var all := sessions.Keys;
      var todo := all;
      ghost var ended := {};
      EndNothing(start);
      while todo != {}
        invariant todo <= all && all == start.sessions.Keys
        invariant Valid() && Tidy(View())
        invariant ended == (set k | k in Expired(start, sessionTTL, now) && k !in todo)
        invariant View() == End(start, ended)
      {
        var k :| k in todo;
        todo := todo - {k};
        assert sessions == start.sessions - ended;
        if now - sessions[k].lastSeen > sessionTTL {
          EndOneMore(start, ended, k);
          EndSession(k);
          ended := ended + {k};
        }
      }
      assert ended == Expired(start, sessionTTL, now);
      assert Swept(start, View(), sessionTTL, now) by {
        ReapMeans(start, sessionTTL, now);
      }
    }

    function Settings(): Runs.Config
      reads this
    {
      Runs.Config(cacheBudget, sessionTTL)
    }

    /** The handler among publishes that have come as far as `calls` says. */
    function Amid(calls: map<nat, Races.Call>): Races.World
      reads this
    {
      Races.World(View(), calls)
    }

    /** The first section of a publish: whom to write to, and whether anybody holds the topic. */
    method Snapshot(topic: Topic, payload: seq<byte>, ghost id: nat, ghost calls: map<nat, Races.Call>)
      returns (members: set<Conn>, held: bool)
      requires id !in calls
      ensures members == At(subs, topic) && (held <==> Held(View(), topic))
      ensures held ==> Races.Step(Settings(), Amid(calls), Races.Enter(id, topic, payload),
                                  Amid(calls[id := Races.Admitted(topic, payload, members)]))
    {
      members := if topic in subs then subs[topic] else {};
      var offline := SessionRecordsTopic(topic);
      held := members != {} || offline;
    }

    /** The second: the topic's counter, created on first use. */
    method FindCounter(topic: Topic, ghost id: nat, ghost calls: map<nat, Races.Call>) returns (k: nat)
      requires id in calls && calls[id].Admitted? && calls[id].topic == topic
      modifies this`topicSeqs, this`counters
      ensures View() == Numbered(old(View()), topic) && topic in topicSeqs && k == topicSeqs[topic]
      ensures Races.Step(Settings(), old(Amid(calls)), Races.FindCounter(id),
                         Amid(calls[id := Races.Counting(topic, calls[id].payload, calls[id].members, k)]))
    {
      if topic !in topicSeqs {
        topicSeqs := topicSeqs[topic := |counters|];
        counters := counters + [0];
      }
      k := topicSeqs[topic];
    }

    /** The third, outside the lock: an atomic increment of that counter, whatever the tables say by now. */
    method TakeNumber(k: nat, ghost id: nat, ghost calls: map<nat, Races.Call>) returns (seqNo: uint32)
      requires id in calls && calls[id].Counting? && calls[id].id == k && k < |counters|
      modifies this`counters
      ensures View() == Increment(old(View()), k) && |counters| == old(|counters|) && seqNo == counters[k]
      ensures seqNo >= 1 ==>
                var c := calls[id];
                Races.Step(Settings(), old(Amid(calls)), Races.TakeNumber(id),
                           Amid(if Encodable(c.payload) then calls[id := Races.Encoded(c.topic, Entry(seqNo, c.payload), c.members)]
                                else calls - {id}))
    {
      counters := counters[k := (counters[k] as int + 1) % 0x1_0000_0000];
      seqNo := counters[k];
    }

    /** Takes the next sequence number of a topic, nothing else running in between. */
    method MintSequence(topic: Topic) returns (seqNo: uint32)
      requires forall t :: t in topicSeqs ==> topicSeqs[t] < |counters|
      modifies this`topicSeqs, this`counters
      ensures View() == Mint(old(View()), topic) && seqNo == LastSeq(View(), topic)
    {
      var k := FindCounter(topic, 0, map[0 := Races.Admitted(topic, [], {})]);
      seqNo := TakeNumber(k, 0, map[0 := Races.Counting(topic, [], {}, k)]);
    }

    /**
     Broadcasts to a topic. `failing` are the connections whose write fails. No other call runs in
     between; `PubSubRaces.dfy` is about those that do, and this is the run of its sections in a row.
     */
    method Publish(topic: Topic, payload: seq<byte>, failing: set<Conn>) returns (delivered: nat, refused: bool)
      requires Valid() && Tidy(View())
      modifies this
      ensures Valid()
      ensures Published(old(View()), topic, payload, failing, cacheBudget, View())
      ensures refused <==> Wanted(old(View()), topic) && !(1 <= |payload| <= 0x10_0000)
      ensures delivered == if topic in old(subs) && 1 <= |payload| <= 0x10_0000 then |old(subs)[topic] - failing| else 0
      ensures Runs.CountersSound(old(View())) && LastSeq(old(View()), topic) < Runs.MAX_SEQUENCE ==>
                Sessions.Broadcasts(cacheBudget, old(View()), topic, payload, failing, View())
    {
      ghost var start := View();
      WantedIsHeld(start, topic);
      delivered, refused := PublishSections(topic, payload, failing);
      if Runs.CountersSound(start) && LastSeq(start, topic) < Runs.MAX_SEQUENCE {
        Sessions.PublishMeans(Settings(), start, topic, payload, failing, View());
      }
    }

    /** The sections of a publish, one after the other. */
    method PublishSections(topic: Topic, payload: seq<byte>, failing: set<Conn>) returns (delivered: nat, refused: bool)
      requires Valid() && Tidy(View())
      modifies this
      ensures Valid()
      ensures Published(old(View()), topic, payload, failing, cacheBudget, View())
      ensures refused <==> Held(old(View()), topic) && !Encodable(payload)
      ensures delivered == if Held(old(View()), topic) && Encodable(payload) then |At(old(subs), topic) - failing| else 0
    {
      delivered, refused := 0, false;
      var members, held := Snapshot(topic, payload, 0, map[]);
      if !held {
        return;
      }
      MintKeepsTidy(View(), topic);
      var seqNo := MintSequence(topic);
      if |payload| == 0 || |payload| > MAX_FRAME_SIZE {
        return 0, true;
      }
      delivered := Broadcast(topic, Entry(seqNo, payload), members, failing);
    }

    /** Caches an encoded publish for later replay and writes it to the members. */
    method Broadcast(topic: Topic, p: Cached, members: set<Conn>, failing: set<Conn>) returns (delivered: nat)
      requires Valid() && Tidy(View()) && Held(View(), topic)
      modifies this
      ensures Valid() && Tidy(View())
      ensures exists r :: Remembered(old(View()), topic, p, cacheBudget, r) && View() == Expel(r, topic, members * failing)
      ensures delivered == |members - failing|
    {
      ghost var start := View();
      var drifted := RememberPublish(topic, p);
      ghost var kept := View();
      RememberKeepsTidy(start, topic, p, cacheBudget, kept);
      delivered := WriteAll(topic, members, failing);
    }

    /** Writes to one member; if that fails it leaves the topic. */
    method WriteOne(topic: Topic, c: Conn, failing: set<Conn>) returns (ok: bool)
      requires Valid() && Tidy(View())
      modifies this
      ensures Valid() && Tidy(View()) && (ok <==> c !in failing)
      ensures View() == if ok then old(View()) else Expel(old(View()), topic, {c})
    {
      ok := c !in failing;
      if !ok {
        RemoveSubscriber(topic, c);
      }
    }

    /** Writes to each member in turn; one whose write fails leaves the topic. */
    method WriteAll(topic: Topic, members: set<Conn>, failing: set<Conn>) returns (delivered: nat)
      requires Valid() && Tidy(View()) && Held(View(), topic)
      modifies this
      ensures Valid() && Tidy(View()) && View() == Expel(old(View()), topic, members * failing)
      ensures delivered == |members - failing|
    {
      ghost var start := View();
      ExpelNobody(start, topic);
      delivered := 0;
      var todo := members;
      ghost var gone: set<Conn> := {};
      while todo != {}
        invariant todo <= members && gone == members * failing - todo
        invariant delivered == |members - failing - todo|
        invariant Valid() && Tidy(View()) && View() == Expel(start, topic, gone)
      {
        var c :| c in todo;
        OneMoreWritten(members, failing, todo, c);
        ExpelTwice(start, topic, gone, {c});
        var ok := WriteOne(topic, c, failing);
        todo, delivered := todo - {c}, delivered + if ok then 1 else 0;
        gone := if ok then gone else gone + {c};
      }
      assert gone == members * failing && members - failing - todo == members - failing;
    }
  }

  lemma OneMoreWritten(members: set<Conn>, failing: set<Conn>, todo: set<Conn>, c: Conn)
    requires c in todo && todo <= members
    ensures var rest := todo - {c};
            && members * failing - rest == members * failing - todo + (if c in failing then {c} else {})
            && |members - failing - rest| == |members - failing - todo| + if c in failing then 0 else 1
  {
    assert members - failing - (todo - {c}) == members - failing - todo + if c in failing then {} else {c};
  }
}
