/**
 What the server's calls do to its tables, said of single members, sessions and cached frames and not by
 the functions of `PubSub.dfy` that compute the tables.
 */
module PubSubTables {
  import opened Wire
  import opened PubSub
  import opened PubSubSteps

  predicate In(s: State, c: Conn, t: Topic) {
    t in s.subs && c in s.subs[t]
  }

  /** Somebody is a member, or some session records the topic. */
  ghost predicate Wanted(s: State, t: Topic) {
    (exists c :: In(s, c, t)) || exists k :: k in s.sessions && t in s.sessions[k].topics
  }

  /** The connection's own session. */
  predicate Owns(s: State, c: Conn, k: Token) {
    c in s.connTokens && s.connTokens[c] == k
  }

  lemma WantedIsHeld(s: State, t: Topic)
    ensures Wanted(s, t) <==> Held(s, t)
  {
    if t in s.subs && s.subs[t] != {} {
      var c :| c in s.subs[t];
      assert In(s, c, t);
    }
  }

  lemma StripIn(s: State, gone: Subscriptions, s1: State, c: Conn, t: Topic)
    requires s1.subs == Strip(s.subs, gone)
    ensures In(s1, c, t) <==> In(s, c, t) && c !in At(gone, t)
  {
    StripAt(s.subs, gone, t);
    assert In(s1, c, t) <==> c in At(s1.subs, t);
  }

  /** Cache and counter of some topics go exactly if nobody wants them any more; all others stay as they are. */
  ghost predicate Spares(s: State, s': State, ts: set<Topic>) {
    && s'.counters == s.counters
    && (forall t :: t in s'.cache <==> t in s.cache && (t in ts ==> Wanted(s', t)))
    && (forall t :: t in s'.cache ==> s'.cache[t] == s.cache[t])
    && (forall t :: t in s'.topicSeqs <==> t in s.topicSeqs && (t in ts ==> Wanted(s', t)))
    && (forall t :: t in s'.topicSeqs ==> s'.topicSeqs[t] == s.topicSeqs[t])
  }

  lemma ForgetSpares(s: State, ts: set<Topic>)
    ensures var s' := Forget(s, ts);
            s'.subs == s.subs && s'.sessions == s.sessions && s'.connTokens == s.connTokens && Spares(s, s', ts)
  {
    var s' := Forget(s, ts);
    forall t
      ensures Wanted(s', t) <==> Held(s, t)
    {
      WantedIsHeld(s', t);
      assert Records(s', t) <==> Records(s, t);
    }
  }

  // ---------------------------------------------------------------- subscribe and unsubscribe

  /** One connection joins or leaves one topic, its session takes note, and nobody else is concerned. */
  ghost predicate Moves(s: State, s': State, c: Conn, t: Topic, joins: bool, now: int) {
    && s'.connTokens == s.connTokens && s'.sessions.Keys == s.sessions.Keys
    && (forall d, u :: In(s', d, u) <==> if d == c && u == t then joins else In(s, d, u))
    && (forall k :: k in s.sessions ==>
          if Owns(s, c, k) then
            && s'.sessions[k].conn == s.sessions[k].conn && s'.sessions[k].lastSeen == now
            && (forall u :: u in s'.sessions[k].topics <==> if u == t then joins else u in s.sessions[k].topics)
          else s'.sessions[k] == s.sessions[k])
  }

  lemma SubscribeMeans(s: State, c: Conn, t: Topic, now: int)
    ensures var s' := Subscribe(s, c, t, now);
            Moves(s, s', c, t, true, now) && s'.cache == s.cache && s'.topicSeqs == s.topicSeqs && s'.counters == s.counters
  {
  }

  lemma UnsubscribeMeans(s: State, c: Conn, t: Topic, now: int)
    ensures var s' := Unsubscribe(s, c, t, now); Moves(s, s', c, t, false, now) && Spares(s, s', {t})
  {
    var s1 := s.(subs := Strip(s.subs, map[t := {c}]), sessions := Note(s, c, t, false, now));
    forall d, u
      ensures In(s1, d, u) <==> if d == c && u == t then false else In(s, d, u)
    {
      StripIn(s, map[t := {c}], s1, d, u);
    }
    ForgetSpares(s1, {t});
  }

  // ---------------------------------------------------------------- a handshake

  /** A handshake that resumes: the connection stands where the session's old one did. */
  ghost predicate Resumed(s: State, s': State, c: Conn, k: Token, now: int)
    requires k in s.sessions
  {
    var was := s.sessions[k];
    && (forall d, u :: In(s', d, u) <==> if u in was.topics then d == c || (d != was.conn && In(s, d, u)) else In(s, d, u))
    && s'.sessions.Keys == s.sessions.Keys && (forall j :: j in s.sessions && j != k ==> s'.sessions[j] == s.sessions[j])
    && s'.sessions[k].conn == c && s'.sessions[k].topics == was.topics && s'.sessions[k].lastSeen == now
    && (forall d, j :: Owns(s', d, j) <==> if d == c then j == k else d != was.conn && Owns(s, d, j))
    && s'.cache == s.cache && s'.topicSeqs == s.topicSeqs && s'.counters == s.counters
  }

  /** A handshake that opens a session without topics. */
  ghost predicate Opened(s: State, s': State, c: Conn, k: Token, now: int) {
    && s'.subs == s.subs && s'.sessions.Keys == s.sessions.Keys + {k}
    && (forall j :: j in s.sessions && j != k ==> s'.sessions[j] == s.sessions[j])
    && s'.sessions[k].conn == c && s'.sessions[k].topics == {} && s'.sessions[k].lastSeen == now
    && (forall d, j :: Owns(s', d, j) <==> if d == c then j == k else Owns(s, d, j))
    && s'.cache == s.cache && s'.topicSeqs == s.topicSeqs && s'.counters == s.counters
  }

  /** The first HELLO of a connection that speaks version 1 resumes a live session it names, or opens one; others change nothing. */
  lemma HelloMeans(s: State, c: Conn, versions: seq<int>, resume: Token, minted: Token, ttl: int, now: int)
    ensures var s' := Hello(s, c, versions, resume, minted, ttl, now);
            if c in s.connTokens || 1 !in versions then s' == s
            else if resume != NO_TOKEN && resume in s.sessions && now - s.sessions[resume].lastSeen <= ttl then Resumed(s, s', c, resume, now)
            else Opened(s, s', c, minted, now)
  {
    if Resumable(s, resume, ttl, now) {
      ResumeMeans(s, c, resume, now);
    }
  }

  lemma ResumeMeans(s: State, c: Conn, k: Token, now: int)
    requires k in s.sessions
    ensures Resumed(s, Resume(s, c, k, now), c, k, now)
  {
    var was, s' := s.sessions[k], Resume(s, c, k, now);
    forall d, u
      ensures In(s', d, u) <==> if u in was.topics then d == c || (d != was.conn && In(s, d, u)) else In(s, d, u)
    {
    }
  }

  // ---------------------------------------------------------------- signs of life and the janitor

  lemma TouchMeans(s: State, c: Conn, now: int)
    ensures var s' := Touch(s, c, now);
            && s' == s.(sessions := s'.sessions) && s'.sessions.Keys == s.sessions.Keys
            && (forall k :: k in s.sessions ==> s'.sessions[k] == s.sessions[k].(lastSeen := s'.sessions[k].lastSeen))
            && (forall k :: k in s.sessions ==> s'.sessions[k].lastSeen == if Owns(s, c, k) then now else s.sessions[k].lastSeen)
  {
  }

  /** A session that has been silent for longer than it may be. */
  predicate Silent(s: State, k: Token, ttl: int, now: int) {
    k in s.sessions && now - s.sessions[k].lastSeen > ttl
  }

  /** The sweep ends the silent sessions, takes their connections out of all they record, and does nothing else. */
  ghost predicate Swept(s: State, s': State, ttl: int, now: int) {
    && (forall k :: k in s'.sessions <==> k in s.sessions && !Silent(s, k, ttl, now))
    && (forall k :: k in s'.sessions ==> s'.sessions[k] == s.sessions[k])
    && (forall d, u :: In(s', d, u) <==>
          In(s, d, u) && !exists k :: Silent(s, k, ttl, now) && s.sessions[k].conn == d && u in s.sessions[k].topics)
    && (forall d, j :: Owns(s', d, j) <==> Owns(s, d, j) && !exists k :: Silent(s, k, ttl, now) && s.sessions[k].conn == d)
    && exists ts: set<Topic> ::
         (forall t :: t in ts <==> exists k :: Silent(s, k, ttl, now) && t in s.sessions[k].topics) && Spares(s, s', ts)
  }

  lemma ReapMeans(s: State, ttl: int, now: int)
    ensures Swept(s, Reap(s, ttl, now), ttl, now)
  {
    var ks := Expired(s, ttl, now);
    var s1 := s.(subs := Strip(s.subs, Leavers(s, ks)), sessions := s.sessions - ks, connTokens := s.connTokens - ConnsOf(s, ks));
    assert forall k :: k in ks <==> Silent(s, k, ttl, now);
    forall d, u
      ensures In(s1, d, u) <==> In(s, d, u) && !exists k :: Silent(s, k, ttl, now) && s.sessions[k].conn == d && u in s.sessions[k].topics
    {
      SilentLeave(s, ttl, now, s1, d, u);
    }
    forall t
      ensures t in TopicsOf(s, ks) <==> exists k :: Silent(s, k, ttl, now) && t in s.sessions[k].topics
    {
    }
    ForgetSpares(s1, TopicsOf(s, ks));
    SweptSpares(s, s1, Reap(s, ttl, now), ttl, now, TopicsOf(s, ks));
  }

  lemma SilentLeave(s: State, ttl: int, now: int, s1: State, c: Conn, t: Topic)
    requires s1.subs == Strip(s.subs, Leavers(s, Expired(s, ttl, now)))
    ensures In(s1, c, t) <==>
            In(s, c, t) && !exists k :: Silent(s, k, ttl, now) && s.sessions[k].conn == c && t in s.sessions[k].topics
  {
    var ks := Expired(s, ttl, now);
    assert forall k :: k in ks <==> Silent(s, k, ttl, now);
    StripIn(s, Leavers(s, ks), s1, c, t);
    LeaversAt(s, ks, t);
  }

  lemma SweptSpares(s: State, s1: State, s': State, ttl: int, now: int, ts: set<Topic>)
    requires Spares(s1, s', ts) && s1.cache == s.cache && s1.topicSeqs == s.topicSeqs && s1.counters == s.counters
    ensures Spares(s, s', ts)
  {
  }

  // ---------------------------------------------------------------- a failed write

  lemma ExpelMeans(s: State, t: Topic, conns: set<Conn>)
    ensures var s' := Expel(s, t, conns);
            && s'.sessions == s.sessions && s'.connTokens == s.connTokens && Spares(s, s', {t})
            && (forall d, u :: In(s', d, u) <==> In(s, d, u) && !(u == t && d in conns))
  {
    var s1 := s.(subs := Strip(s.subs, map[t := conns]));
    forall d, u
      ensures In(s1, d, u) <==> In(s, d, u) && !(u == t && d in conns)
    {
      StripIn(s, map[t := conns], s1, d, u);
    }
    ForgetSpares(s1, {t});
  }

  // ---------------------------------------------------------------- a catch-up

  /** Above the cursor sent for the topic, or any number if none was sent. */
  predicate Missed(cursors: map<Topic, nat>, t: Topic, p: Cached) {
    p.seqNo > if t in cursors then cursors[t] else 0
  }

  /** A catch-up holds exactly the cached frames above the cursors, and sends each one's own bytes. */
  lemma {:induction false} ReplayMeans(c: Cache, cursors: map<Topic, nat>, order: seq<Topic>, t: Topic, p: Cached)
    ensures (t, p) in Replay(c, cursors, order) <==> t in order && t in c && p in c[t] && Missed(cursors, t, p)
    ensures |ReplayBuffers(Replay(c, cursors, order))| == |Replay(c, cursors, order)|
    ensures forall i :: 0 <= i < |Replay(c, cursors, order)| ==> ReplayBuffers(Replay(c, cursors, order))[i] == Replay(c, cursors, order)[i].1.buf
    decreases |order|
  {
    if order != [] {
      var front, u := order[..|order| - 1], order[|order| - 1];
      var es := Newer(Entries(c, u), Cursor(cursors, u));
      ReplayMeans(c, cursors, front, t, p);
      NewerAreAbove(Entries(c, u), Cursor(cursors, u), p);
      assert order == front + [u];
      TaggedMeans(u, es, t, p);
    }
  }

  /** A buffer that some cached frame of these topics above its cursor is sent from. */
  ghost predicate SentFrom(c: Cache, cursors: map<Topic, nat>, topics: set<Topic>, b: seq<byte>) {
    exists t, p :: t in topics && t in c && p in c[t] && Missed(cursors, t, p) && p.buf == b
  }

  /** The buffers sent are exactly those of the missed frames. */
  lemma ReplaySends(c: Cache, cursors: map<Topic, nat>, topics: set<Topic>, replay: seq<seq<byte>>, b: seq<byte>)
    requires IsReplay(c, cursors, topics, replay)
    ensures b in replay <==> SentFrom(c, cursors, topics, b)
  {
    var order :| Walk(order, topics) && replay == ReplayBuffers(Replay(c, cursors, order));
    var entries := Replay(c, cursors, order);
    ReplayMeans(c, cursors, order, NO_TOPIC, Cached(0, []));
    if b in replay {
      var i :| 0 <= i < |replay| && replay[i] == b;
      ReplayMeans(c, cursors, order, entries[i].0, entries[i].1);
      assert (entries[i].0, entries[i].1) == entries[i] && entries[i] in entries;
    }
    if t, p :| t in topics && t in c && p in c[t] && Missed(cursors, t, p) && p.buf == b {
      ReplayMeans(c, cursors, order, t, p);
      var i :| 0 <= i < |entries| && entries[i] == (t, p);
      assert replay[i] == b;
    }
  }

  lemma TaggedMeans(u: Topic, es: seq<Cached>, t: Topic, p: Cached)
    ensures (t, p) in Tagged(u, es) <==> t == u && p in es
  {
    if t == u && p in es {
      var i :| 0 <= i < |es| && es[i] == p;
      assert Tagged(u, es)[i] == (t, p);
    }
  }
}
