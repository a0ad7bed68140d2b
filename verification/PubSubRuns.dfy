/**
 What every run of the publish/subscribe server keeps when calls do not overlap: sessions and
 transports mirror each other, a topic's counter and cache live exactly as long as someone holds the
 topic, sequence numbers rise, and a cache is the newest part of what was published.
 */
module PubSubRuns {
  import opened Wire
  import opened PubSub
  import opened PubSubSteps

  const MAX_SEQUENCE := 0xFFFF_FFFF

  datatype Config = Config(budget: nat, ttl: int)

  datatype Event =
    | Greet(conn: Conn, versions: seq<int>, resume: Token, minted: Token, now: int)
    | Join(conn: Conn, topic: Topic, now: int)
    | Part(conn: Conn, topic: Topic, now: int)
    | Hear(conn: Conn, now: int)
    | Sweep(now: int)
    | Send(topic: Topic, payload: seq<byte>, failing: set<Conn>)

  /** Minted tokens are new, and no counter is at the end of its range. */
  ghost predicate Assumed(s: State, e: Event) {
    match e
    case Greet(_, _, _, minted, _) => minted !in s.sessions && minted != NO_TOKEN
    case Send(t, _, _) => LastSeq(s, t) < MAX_SEQUENCE
    case _ => true
  }

  ghost predicate Next(cfg: Config, s: State, e: Event, s': State) {
    match e
    case Greet(c, versions, resume, minted, now) => s' == Hello(s, c, versions, resume, minted, cfg.ttl, now)
    case Join(c, t, now) => s' == if t == NO_TOPIC then s else Subscribe(s, c, t, now)
    case Part(c, t, now) => s' == if t == NO_TOPIC then s else Unsubscribe(s, c, t, now)
    case Hear(c, now) => s' == Touch(s, c, now)
    case Sweep(now) => s' == Reap(s, cfg.ttl, now)
    case Send(t, payload, failing) => Published(s, t, payload, failing, cfg.budget, s')
  }

  // ---------------------------------------------------------------- the invariant

  /** Sessions' transports and the reverse index are inverse to each other. */
  ghost predicate Wired(s: State) {
    && (forall k :: k in s.sessions ==> s.sessions[k].conn in s.connTokens && s.connTokens[s.sessions[k].conn] == k)
    && (forall c :: c in s.connTokens ==> s.connTokens[c] in s.sessions && s.sessions[s.connTokens[c]].conn == c)
  }

  /** A cached buffer is the encoding of a publish frame that carries its sequence number. */
  ghost predicate Genuine(p: Cached) {
    1 <= p.seqNo && exists payload :: Encodable(payload) && p == Entry(p.seqNo, payload)
  }

  /** Strictly rising sequence numbers up to `last`, each on the frame it was given to. */
  ghost predicate Rising(es: seq<Cached>, last: int) {
    es == [] ||
    var p := es[|es| - 1];
    Genuine(p) && p.seqNo <= last && Rising(es[..|es| - 1], p.seqNo - 1)
  }

  /** A topic's cache is within its limit, in order, and numbered by the topic's own counter. */
  ghost predicate Stored(es: seq<Cached>, last: int) {
    1 <= |es| <= TOPIC_CACHE_SIZE && Rising(es, last)
  }

  lemma {:induction false} RisingMeans(es: seq<Cached>, last: int)
    requires Rising(es, last)
    ensures forall i :: 0 <= i < |es| ==> Genuine(es[i]) && es[i].seqNo <= last
    ensures forall i, j :: 0 <= i < j < |es| ==> es[i].seqNo < es[j].seqNo
    decreases |es|
  {
    if es != [] {
      var front := es[..|es| - 1];
      RisingMeans(front, es[|es| - 1].seqNo - 1);
      forall i | 0 <= i < |front|
        ensures es[i] == front[i]
      {
      }
    }
  }

  lemma {:induction false} RisingSuffix(es: seq<Cached>, last: int, k: nat)
    requires Rising(es, last) && k <= |es|
    ensures Rising(es[k..], last)
    decreases |es|
  {
    if k < |es| {
      var front := es[..|es| - 1];
      RisingSuffix(front, es[|es| - 1].seqNo - 1, k);
      assert es[k..][..|es| - k - 1] == front[k..];
    }
  }

  ghost predicate CacheSound(s: State) {
    forall t :: t in s.cache ==> t in s.topicSeqs && Stored(s.cache[t], LastSeq(s, t))
  }

  /** Counters in use have counted, and no two topics share one. */
  ghost predicate CountersSound(s: State) {
    && (forall t :: t in s.topicSeqs ==> s.topicSeqs[t] < |s.counters| && 1 <= LastSeq(s, t))
    && (forall t, u :: t in s.topicSeqs && u in s.topicSeqs && t != u ==> s.topicSeqs[t] != s.topicSeqs[u])
  }

  ghost predicate Sound(s: State) {
    CacheSound(s) && CountersSound(s)
  }

  /** Only a topic somebody holds keeps a cache or a counter. */
  ghost predicate Lively(s: State) {
    forall t :: t in s.cache || t in s.topicSeqs ==> Held(s, t)
  }

  ghost predicate Inv(cfg: Config, s: State) {
    Tidy(s) && Wired(s) && Sound(s) && Lively(s) && Total(s.cache) <= cfg.budget
  }

  // ---------------------------------------------------------------- giving topics up

  lemma {:induction false} TotalMinus(c: Cache, gone: set<Topic>)
    ensures Total(c - gone) <= Total(c)
    decreases gone
  {
    if gone == {} {
      assert c - gone == c;
    } else {
      var t :| t in gone;
      TotalMinus(c, gone - {t});
      var c' := c - (gone - {t});
      assert c - gone == c' - {t};
      if t in c' { TotalRemove(c', t); } else { assert c' - {t} == c'; }
    }
  }

  lemma SoundForget(cfg: Config, s: State, ts: set<Topic>)
    requires Sound(s) && Total(s.cache) <= cfg.budget
    ensures Sound(Forget(s, ts)) && Total(Forget(s, ts).cache) <= cfg.budget
  {
    var dead := set t | t in ts && !Held(s, t);
    TotalMinus(s.cache, dead);
    var s' := Forget(s, ts);
    forall t | t in s'.topicSeqs
      ensures LastSeq(s', t) == LastSeq(s, t)
    {
    }
  }

  /** Forgetting the topics that may have lost a holder restores liveness. */
  lemma LivelyForget(s: State, s1: State, ts: set<Topic>)
    requires Lively(s) && s1.cache == s.cache && s1.topicSeqs == s.topicSeqs
    requires forall t :: t !in ts && Held(s, t) ==> Held(s1, t)
    ensures Lively(Forget(s1, ts))
  {
    var s' := Forget(s1, ts);
    forall t
      ensures Held(s', t) <==> Held(s1, t)
    {
      assert Records(s', t) <==> Records(s1, t);
    }
  }

  // ---------------------------------------------------------------- one event at a time

  lemma GreetKeeps(cfg: Config, s: State, c: Conn, versions: seq<int>, resume: Token, minted: Token, now: int)
    requires Inv(cfg, s) && minted !in s.sessions
    ensures Inv(cfg, Hello(s, c, versions, resume, minted, cfg.ttl, now))
  {
    if c !in s.connTokens && Negotiate(versions) != 0 {
      if Resumable(s, resume, cfg.ttl, now) {
        ResumeKeeps(cfg, s, c, resume, now);
      } else {
        OpenKeeps(cfg, s, c, minted, now);
      }
    }
  }

  lemma ResumeKeeps(cfg: Config, s: State, c: Conn, k: Token, now: int)
    requires Inv(cfg, s) && c !in s.connTokens && k in s.sessions
    ensures Inv(cfg, Resume(s, c, k, now))
  {
    ResumeHolders(s, c, k, now);
    ResumeWired(s, c, k, now);
    SameStore(s, Resume(s, c, k, now));
  }

  lemma OpenKeeps(cfg: Config, s: State, c: Conn, minted: Token, now: int)
    requires Inv(cfg, s) && c !in s.connTokens && minted !in s.sessions
    ensures Inv(cfg, Open(s, c, minted, now))
  {
    OpenHolders(s, c, minted, now);
    SameStore(s, Open(s, c, minted, now));
  }

  lemma ResumeWired(s: State, c: Conn, k: Token, now: int)
    requires Wired(s) && c !in s.connTokens && k in s.sessions
    ensures Wired(Resume(s, c, k, now))
  {
  }

  lemma ResumeHolders(s: State, c: Conn, k: Token, now: int)
    requires Tidy(s) && k in s.sessions
    ensures Tidy(Resume(s, c, k, now))
    ensures forall t :: Held(s, t) ==> Held(Resume(s, c, k, now), t)
  {
    var s' := Resume(s, c, k, now);
    forall t
      ensures Records(s', t) <==> Records(s, t)
      ensures t !in s.sessions[k].topics ==> At(s'.subs, t) == At(s.subs, t)
    {
      if Records(s, t) { var j :| j in s.sessions && t in s.sessions[j].topics; assert t in s'.sessions[j].topics; }
      if Records(s', t) { var j :| j in s'.sessions && t in s'.sessions[j].topics; assert t in s.sessions[j].topics; }
    }
    assert NO_TOPIC !in s.sessions[k].topics by { assert !Records(s, NO_TOPIC); }
  }

  lemma OpenHolders(s: State, c: Conn, k: Token, now: int)
    requires Tidy(s) && k !in s.sessions
    ensures Tidy(Open(s, c, k, now))
    ensures forall t :: Held(Open(s, c, k, now), t) <==> Held(s, t)
  {
    var s' := Open(s, c, k, now);
    forall t
      ensures Records(s', t) <==> Records(s, t)
    {
      if Records(s, t) { var j :| j in s.sessions && t in s.sessions[j].topics; assert t in s'.sessions[j].topics; }
    }
  }

  lemma NoteHolders(s: State, c: Conn, t: Topic, subscribe: bool, now: int, u: Topic)
    ensures var s' := s.(sessions := Note(s, c, t, subscribe, now));
            && (u != t ==> (Records(s', u) <==> Records(s, u)))
            && (subscribe && Records(s, u) ==> Records(s', u))
            && (!subscribe && Records(s', u) ==> Records(s, u))
            && (Wired(s) ==> Wired(s'))
  {
    var s' := s.(sessions := Note(s, c, t, subscribe, now));
    if Records(s, u) && (u != t || subscribe) {
      var j :| j in s.sessions && u in s.sessions[j].topics;
      assert u in s'.sessions[j].topics;
    }
  }

  lemma JoinKeeps(cfg: Config, s: State, c: Conn, t: Topic, now: int)
    requires Inv(cfg, s) && t != NO_TOPIC
    ensures Inv(cfg, Subscribe(s, c, t, now))
  {
    var s' := Subscribe(s, c, t, now);
    forall u
      ensures u != t ==> (Held(s', u) <==> Held(s, u))
      ensures Held(s, u) ==> Held(s', u)
    {
      NoteHolders(s, c, t, true, now, u);
      assert Records(s', u) <==> Records(s.(sessions := Note(s, c, t, true, now)), u);
    }
    NoteHolders(s, c, t, true, now, t);
    SameStore(s, s');
  }

  lemma PartKeeps(cfg: Config, s: State, c: Conn, t: Topic, now: int)
    requires Inv(cfg, s)
    ensures Inv(cfg, Unsubscribe(s, c, t, now))
  {
    var s1 := s.(subs := Strip(s.subs, map[t := {c}]), sessions := Note(s, c, t, false, now));
    forall u
      ensures u != t && Held(s, u) ==> Held(s1, u)
      ensures Held(s1, u) ==> Held(s, u)
    {
      NoteHolders(s, c, t, false, now, u);
      StripAt(s.subs, map[t := {c}], u);
      assert Records(s1, u) <==> Records(s.(sessions := Note(s, c, t, false, now)), u);
    }
    NoteHolders(s, c, t, false, now, t);
    ForgetKeeps(cfg, s, s1, {t});
  }

  /** A lock section that only takes holders away and then forgets what nobody holds any more. */
  lemma ForgetKeeps(cfg: Config, s: State, s1: State, ts: set<Topic>)
    requires Inv(cfg, s) && s1 == s.(subs := s1.subs, sessions := s1.sessions, connTokens := s1.connTokens)
    requires Wired(s1) && forall t :: t in s1.subs ==> s1.subs[t] != {}
    requires forall t :: t !in ts && Held(s, t) ==> Held(s1, t)
    requires forall t :: Held(s1, t) ==> Held(s, t)
    ensures Inv(cfg, Forget(s1, ts))
  {
    SameStore(s, s1);
    SoundForget(cfg, s1, ts);
    LivelyForget(s, s1, ts);
    TidyForget(s1, ts);
  }

  lemma EndHolders(s: State, ks: set<Token>, t: Topic)
    ensures var s1 := s.(subs := Strip(s.subs, Leavers(s, ks)), sessions := s.sessions - ks, connTokens := s.connTokens - ConnsOf(s, ks));
            && (Held(s1, t) ==> Held(s, t))
            && (t !in TopicsOf(s, ks) && Held(s, t) ==> Held(s1, t))
  {
    var s1 := s.(subs := Strip(s.subs, Leavers(s, ks)), sessions := s.sessions - ks, connTokens := s.connTokens - ConnsOf(s, ks));
    StripAt(s.subs, Leavers(s, ks), t);
    if Records(s1, t) {
      var j :| j in s1.sessions && t in s1.sessions[j].topics;
      assert j in s.sessions;
    }
    if t !in TopicsOf(s, ks) && Records(s, t) {
      var j :| j in s.sessions && t in s.sessions[j].topics;
      assert j !in ks;
      assert j in s1.sessions;
    }
  }

  lemma SweepKeeps(cfg: Config, s: State, now: int)
    requires Inv(cfg, s)
    ensures Inv(cfg, Reap(s, cfg.ttl, now))
  {
    var ks := Expired(s, cfg.ttl, now);
    var s1 := s.(subs := Strip(s.subs, Leavers(s, ks)), sessions := s.sessions - ks, connTokens := s.connTokens - ConnsOf(s, ks));
    forall t
      ensures Held(s1, t) ==> Held(s, t)
      ensures t !in TopicsOf(s, ks) && Held(s, t) ==> Held(s1, t)
    {
      EndHolders(s, ks, t);
    }
    ForgetKeeps(cfg, s, s1, TopicsOf(s, ks));
  }

  lemma HearKeeps(cfg: Config, s: State, c: Conn, now: int)
    requires Inv(cfg, s)
    ensures Inv(cfg, Touch(s, c, now))
  {
    var s' := Touch(s, c, now);
    forall t
      ensures Held(s', t) <==> Held(s, t)
    {
      TouchHolders(s, c, now, t);
    }
    SameStore(s, s');
  }

  lemma TouchHolders(s: State, c: Conn, now: int, t: Topic)
    ensures Held(Touch(s, c, now), t) <==> Held(s, t)
  {
    var s' := Touch(s, c, now);
    if Records(s, t) { var j :| j in s.sessions && t in s.sessions[j].topics; assert t in s'.sessions[j].topics; }
    if Records(s', t) { var j :| j in s'.sessions && t in s'.sessions[j].topics; assert t in s.sessions[j].topics; }
  }

  lemma SameStore(s: State, s': State)
    requires Sound(s) && s'.cache == s.cache && s'.topicSeqs == s.topicSeqs && s'.counters == s.counters
    ensures Sound(s')
  {
    forall t
      ensures LastSeq(s', t) == LastSeq(s, t)
    {
    }
  }

  /** Minting raises the topic's own number by one and no other topic's. */
  lemma MintCounts(s: State, t: Topic)
    requires CountersSound(s) && LastSeq(s, t) < MAX_SEQUENCE
    ensures CountersSound(Mint(s, t)) && t in Mint(s, t).topicSeqs
    ensures LastSeq(Mint(s, t), t) == LastSeq(s, t) + 1
    ensures forall u :: u != t ==> LastSeq(Mint(s, t), u) == LastSeq(s, u)
  {
    var n := Numbered(s, t);
    NumberedCounts(s, t);
    var id := n.topicSeqs[t];
    forall u | u in n.topicSeqs && u != t
      ensures n.topicSeqs[u] != id
    {
    }
  }

  /** A topic without a counter gets one of its own, which stands at zero. */
  lemma NumberedCounts(s: State, t: Topic)
    requires CountersSound(s)
    ensures var n := Numbered(s, t);
            && t in n.topicSeqs && n.topicSeqs[t] < |n.counters|
            && n.topicSeqs.Keys == s.topicSeqs.Keys + {t}
            && (forall u :: u in n.topicSeqs && u != t ==>
                  n.topicSeqs[u] != n.topicSeqs[t] && u in s.topicSeqs && n.topicSeqs[u] == s.topicSeqs[u])
            && (forall u :: LastSeq(n, u) == LastSeq(s, u))
  {
    if t !in s.topicSeqs {
      var n := Numbered(s, t);
      assert n.counters[|s.counters|] == 0;
      forall u
        ensures LastSeq(n, u) == LastSeq(s, u)
      {
        if u in s.topicSeqs { assert n.counters[s.topicSeqs[u]] == s.counters[s.topicSeqs[u]]; }
      }
    }
  }

  lemma MintKeepsCache(s: State, t: Topic)
    requires Sound(s) && LastSeq(s, t) < MAX_SEQUENCE
    ensures CacheSound(Mint(s, t))
  {
    var m := Mint(s, t);
    forall u | u in m.cache
      ensures u in m.topicSeqs && Stored(m.cache[u], LastSeq(m, u))
    {
      MintKeepsStored(s, t, u);
    }
  }

  lemma MintKeepsStored(s: State, t: Topic, u: Topic)
    requires Sound(s) && LastSeq(s, t) < MAX_SEQUENCE && u in s.cache
    ensures u in Mint(s, t).topicSeqs && Mint(s, t).cache == s.cache && Stored(s.cache[u], LastSeq(Mint(s, t), u))
  {
    MintCounts(s, t);
    NumberedCounts(s, t);
    StoredLater(s.cache[u], LastSeq(s, u), LastSeq(Mint(s, t), u));
  }

  lemma StoredLater(es: seq<Cached>, last: int, later: int)
    requires Stored(es, last) && last <= later
    ensures Stored(es, later)
  {
  }

  /** Appending the newest number and trimming keeps a topic's cache in order. */
  lemma StoredAppend(es: seq<Cached>, last: int, p: Cached)
    requires es == [] || Stored(es, last)
    requires Genuine(p) && p.seqNo == last + 1
    ensures Stored(Trim(es + [p]), last + 1)
  {
    assert (es + [p])[..|es|] == es;
    assert Rising(es + [p], last + 1);
    if |es| == TOPIC_CACHE_SIZE {
      RisingSuffix(es + [p], last + 1, 1);
    }
  }

  /** `m` is the state the number was minted in, `s` the one before. */
  lemma RememberKeeps(cfg: Config, s: State, t: Topic, p: Cached, r: State)
    requires Sound(s) && LastSeq(s, t) < MAX_SEQUENCE
    requires Genuine(p) && p.seqNo == LastSeq(s, t) + 1
    requires Remembered(Mint(s, t), t, p, cfg.budget, r)
    ensures Sound(r) && Total(r.cache) <= cfg.budget && r.cache.Keys <= s.cache.Keys + {t}
  {
    MintCounts(s, t);
    MintKeepsCache(s, t);
    StoredAppend(Entries(s.cache, t), LastSeq(s, t), p);
    StoreKeeps(cfg, Mint(s, t), t, Trim(Entries(s.cache, t) + [p]), r);
  }

  lemma StoreKeeps(cfg: Config, m: State, t: Topic, es: seq<Cached>, r: State)
    requires Sound(m) && t in m.topicSeqs && Stored(es, LastSeq(m, t)) && Evicted(m.cache[t := es], cfg.budget, r.cache)
    requires r == State(m.subs, m.sessions, m.connTokens, r.cache, m.topicSeqs, m.counters)
    ensures Sound(r) && Total(r.cache) <= cfg.budget && r.cache.Keys <= m.cache.Keys + {t}
  {
    OneMoreCached(m, t, es);
    EvictKeeps(cfg, m.(cache := m.cache[t := es]), r);
  }

  lemma EvictKeeps(cfg: Config, f: State, r: State)
    requires Sound(f) && Evicted(f.cache, cfg.budget, r.cache)
    requires r == State(f.subs, f.sessions, f.connTokens, r.cache, f.topicSeqs, f.counters)
    ensures Sound(r) && Total(r.cache) <= cfg.budget && r.cache.Keys <= f.cache.Keys
  {
    EvictedLargestFirst(f.cache, cfg.budget, r.cache);
    FewerCached(f, r);
  }

  lemma OneMoreCached(s: State, t: Topic, es: seq<Cached>)
    requires Sound(s) && t in s.topicSeqs && Stored(es, LastSeq(s, t))
    ensures Sound(s.(cache := s.cache[t := es]))
  {
    var f := s.(cache := s.cache[t := es]);
    forall u
      ensures LastSeq(f, u) == LastSeq(s, u)
    {
    }
    forall u | u in f.cache
      ensures u in f.topicSeqs && Stored(f.cache[u], LastSeq(f, u))
    {
    }
  }

  lemma FewerCached(s: State, r: State)
    requires Sound(s) && r == s.(cache := r.cache)
    requires r.cache.Keys <= s.cache.Keys && forall t :: t in r.cache ==> r.cache[t] == s.cache[t]
    ensures Sound(r)
  {
    forall t
      ensures LastSeq(r, t) == LastSeq(s, t)
    {
    }
  }

  lemma ExpelKeeps(cfg: Config, s: State, t: Topic, conns: set<Conn>)
    requires Inv(cfg, s)
    ensures Inv(cfg, Expel(s, t, conns))
  {
    var s1 := s.(subs := Strip(s.subs, map[t := conns]));
    forall u
      ensures u != t && Held(s, u) ==> Held(s1, u)
      ensures Held(s1, u) ==> Held(s, u)
    {
      StripAt(s.subs, map[t := conns], u);
      assert Records(s1, u) <==> Records(s, u);
    }
    ForgetKeeps(cfg, s, s1, {t});
  }

  /** A numbered but not yet remembered publish. */
  lemma MintKeeps(cfg: Config, s: State, t: Topic)
    requires Inv(cfg, s) && Held(s, t) && LastSeq(s, t) < MAX_SEQUENCE
    ensures Inv(cfg, Mint(s, t))
  {
    MintCounts(s, t);
    MintKeepsCache(s, t);
    MintKeepsTidy(s, t);
  }

  lemma BroadcastKeeps(cfg: Config, s: State, t: Topic, payload: seq<byte>, r: State)
    requires Inv(cfg, s) && Held(s, t) && LastSeq(s, t) < MAX_SEQUENCE && Encodable(payload)
    requires Remembered(Mint(s, t), t, Entry(LastSeq(s, t) + 1, payload), cfg.budget, r)
    ensures Inv(cfg, r)
  {
    var p := Entry(LastSeq(s, t) + 1, payload);
    MintKeeps(cfg, s, t);
    RememberKeeps(cfg, s, t, p, r);
    RememberKeepsTidy(Mint(s, t), t, p, cfg.budget, r);
    MintKeepsTidy(s, t);
    MintCounts(s, t);
    assert r.topicSeqs == Mint(s, t).topicSeqs;
  }

  lemma SendKeeps(cfg: Config, s: State, t: Topic, payload: seq<byte>, failing: set<Conn>, s': State)
    requires Inv(cfg, s) && LastSeq(s, t) < MAX_SEQUENCE
    requires Published(s, t, payload, failing, cfg.budget, s')
    ensures Inv(cfg, s')
  {
    if Held(s, t) {
      MintCounts(s, t);
      if Encodable(payload) {
        var p := Entry(LastSeq(s, t) + 1, payload);
        var r :| Remembered(Mint(s, t), t, p, cfg.budget, r) && s' == Expel(r, t, At(s.subs, t) * failing);
        BroadcastKeeps(cfg, s, t, payload, r);
        ExpelKeeps(cfg, r, t, At(s.subs, t) * failing);
      } else {
        MintKeeps(cfg, s, t);
      }
    }
  }

  /** Every event keeps the invariant. */
  lemma StepKeeps(cfg: Config, s: State, e: Event, s': State)
    requires Inv(cfg, s) && Assumed(s, e) && Next(cfg, s, e, s')
    ensures Inv(cfg, s')
  {
    match e
    case Greet(c, versions, resume, minted, now) => GreetKeeps(cfg, s, c, versions, resume, minted, now);
    case Join(c, t, now) => if t != NO_TOPIC { JoinKeeps(cfg, s, c, t, now); }
    case Part(c, t, now) => if t != NO_TOPIC { PartKeeps(cfg, s, c, t, now); }
    case Hear(c, now) => HearKeeps(cfg, s, c, now);
    case Sweep(now) => SweepKeeps(cfg, s, now);
    case Send(t, payload, failing) => SendKeeps(cfg, s, t, payload, failing, s');
  }

  // ---------------------------------------------------------------- whole runs

  ghost predicate Run(cfg: Config, states: seq<State>, events: seq<Event>) {
    && |states| == |events| + 1
    && forall i :: 0 <= i < |events| ==> Assumed(states[i], events[i]) && Next(cfg, states[i], events[i], states[i + 1])
  }

  /** From the empty server, every state of every run satisfies the invariant. */
  lemma {:induction false} RunKeeps(cfg: Config, states: seq<State>, events: seq<Event>, i: nat)
    requires Run(cfg, states, events) && states[0] == EMPTY && i < |states|
    ensures Inv(cfg, states[i])
    decreases i
  {
    if i > 0 {
      RunKeeps(cfg, states, events, i - 1);
      StepKeeps(cfg, states[i - 1], events[i - 1], states[i]);
    }
  }

  /** The entry an event adds to a topic's cache, if it adds one. */
  ghost predicate Adds(s: State, e: Event, t: Topic) {
    e.Send? && e.topic == t && Held(s, t) && Encodable(e.payload)
  }

  /** An event that publishes nothing only ever drops caches and counters, and only of unheld topics. */
  lemma QuietStep(cfg: Config, s: State, e: Event, s': State)
    requires !e.Send? && Next(cfg, s, e, s')
    ensures s'.counters == s.counters
    ensures forall t :: t in s'.cache ==> t in s.cache && s'.cache[t] == s.cache[t]
    ensures forall t :: t in s'.topicSeqs ==> t in s.topicSeqs && s'.topicSeqs[t] == s.topicSeqs[t]
    ensures forall t :: t in s.topicSeqs && Held(s', t) ==> t in s'.topicSeqs
  {
    match e
    case Greet(c, versions, resume, minted, now) =>
    case Join(c, u, now) =>
    case Part(c, u, now) =>
      if u != NO_TOPIC {
        ForgetQuietly(s.(subs := Strip(s.subs, map[u := {c}]), sessions := Note(s, c, u, false, now)), {u});
      }
    case Hear(c, now) =>
    case Sweep(now) =>
      var ks := Expired(s, cfg.ttl, now);
      ForgetQuietly(s.(subs := Strip(s.subs, Leavers(s, ks)), sessions := s.sessions - ks,
                    connTokens := s.connTokens - ConnsOf(s, ks)), TopicsOf(s, ks));
  }

  lemma ForgetQuietly(s: State, ts: set<Topic>)
    ensures var s' := Forget(s, ts);
            && s'.counters == s.counters
            && (forall t :: t in s'.cache ==> t in s.cache && s'.cache[t] == s.cache[t])
            && (forall t :: t in s'.topicSeqs ==> t in s.topicSeqs && s'.topicSeqs[t] == s.topicSeqs[t])
            && (forall t :: t in s.topicSeqs && Held(s', t) ==> t in s'.topicSeqs)
  {
    var s' := Forget(s, ts);
    forall t
      ensures Held(s', t) <==> Held(s, t)
    {
      assert Records(s', t) <==> Records(s, t);
    }
  }

  /** A topic's cache only ever grows at its end, is trimmed at its front, or goes as a whole. */
  lemma CacheStep(cfg: Config, s: State, e: Event, s': State, t: Topic)
    requires CountersSound(s) && Assumed(s, e) && Next(cfg, s, e, s') && t in s'.cache
    ensures Adds(s, e, t) ==> s'.cache[t] == Trim(Entries(s.cache, t) + [Entry(LastSeq(s, t) + 1, e.payload)])
    ensures !Adds(s, e, t) ==> t in s.cache && s'.cache[t] == s.cache[t]
  {
    if e.Send? {
      SendStep(cfg, s, e.topic, e.payload, e.failing, s', t);
    } else {
      QuietStep(cfg, s, e, s');
    }
  }

  /** A publish touches one topic's counter, appends to one topic's cache, and may evict any. */
  lemma SendStep(cfg: Config, s: State, u: Topic, payload: seq<byte>, failing: set<Conn>, s': State, t: Topic)
    requires CountersSound(s) && LastSeq(s, u) < MAX_SEQUENCE && Published(s, u, payload, failing, cfg.budget, s')
    ensures t in s'.cache ==>
              if t == u && Held(s, u) && Encodable(payload)
              then s'.cache[t] == Trim(Entries(s.cache, t) + [Entry(LastSeq(s, t) + 1, payload)])
              else t in s.cache && s'.cache[t] == s.cache[t]
    ensures Held(s', t) && t in s.topicSeqs ==> t in s'.topicSeqs
    ensures Held(s', t) ==> LastSeq(s', t) == LastSeq(s, t) + if t == u && Held(s, u) then 1 else 0
  {
    if Held(s, u) {
      MintStep(s, u, t);
      if Encodable(payload) {
        EncodedStep(cfg, s, u, payload, failing, s', t);
      }
    }
  }

  lemma MintStep(s: State, u: Topic, t: Topic)
    requires CountersSound(s) && LastSeq(s, u) < MAX_SEQUENCE
    ensures Mint(s, u).cache == s.cache
    ensures t in s.topicSeqs ==> t in Mint(s, u).topicSeqs
    ensures LastSeq(Mint(s, u), t) == LastSeq(s, t) + if t == u then 1 else 0
  {
    MintCounts(s, u);
    NumberedCounts(s, u);
  }

  lemma EncodedStep(cfg: Config, s: State, u: Topic, payload: seq<byte>, failing: set<Conn>, s': State, t: Topic)
    requires CountersSound(s) && LastSeq(s, u) < MAX_SEQUENCE && Published(s, u, payload, failing, cfg.budget, s')
    requires Held(s, u) && Encodable(payload)
    ensures t in s'.cache ==>
              if t == u then s'.cache[t] == Trim(Entries(s.cache, t) + [Entry(LastSeq(s, t) + 1, payload)])
              else t in s.cache && s'.cache[t] == s.cache[t]
    ensures Held(s', t) ==> LastSeq(s', t) == LastSeq(Mint(s, u), t) && (t in Mint(s, u).topicSeqs ==> t in s'.topicSeqs)
  {
    MintStep(s, u, u);
    BroadcastStep(cfg, Mint(s, u), u, Entry(LastSeq(s, u) + 1, payload), At(s.subs, u) * failing, s', t);
  }

  lemma BroadcastStep(cfg: Config, m: State, u: Topic, p: Cached, conns: set<Conn>, s': State, t: Topic)
    requires exists r :: Remembered(m, u, p, cfg.budget, r) && s' == Expel(r, u, conns)
    ensures t in s'.cache ==> if t == u then s'.cache[t] == Trim(Entries(m.cache, t) + [p]) else t in m.cache && s'.cache[t] == m.cache[t]
    ensures Held(s', t) ==> LastSeq(s', t) == LastSeq(m, t) && (t in m.topicSeqs ==> t in s'.topicSeqs)
  {
    var r :| Remembered(m, u, p, cfg.budget, r) && s' == Expel(r, u, conns);
    RememberStep(cfg, m, u, p, r, t);
    ExpelStep(r, u, conns, t);
  }

  lemma RememberStep(cfg: Config, s: State, u: Topic, p: Cached, r: State, t: Topic)
    requires Remembered(s, u, p, cfg.budget, r)
    ensures r.topicSeqs == s.topicSeqs && LastSeq(r, t) == LastSeq(s, t)
    ensures t in r.cache ==> if t == u then r.cache[t] == Trim(Entries(s.cache, t) + [p]) else t in s.cache && r.cache[t] == s.cache[t]
  {
    EvictedLargestFirst(s.cache[u := Trim(Entries(s.cache, u) + [p])], cfg.budget, r.cache);
  }

  lemma ExpelStep(s: State, u: Topic, conns: set<Conn>, t: Topic)
    ensures var s' := Expel(s, u, conns);
            && (t in s'.cache ==> t in s.cache && s'.cache[t] == s.cache[t])
            && (Held(s', t) ==> LastSeq(s', t) == LastSeq(s, t) && (t in s.topicSeqs ==> t in s'.topicSeqs))
  {
    ForgetQuietly(s.(subs := Strip(s.subs, map[u := conns])), {u});
  }

  /**
   A counter outlives an event exactly when somebody still holds its topic, and then it has not gone
   down; a publish that was numbered has raised it by one.
   */
  lemma CounterStep(cfg: Config, s: State, e: Event, s': State, t: Topic)
    requires Inv(cfg, s) && Assumed(s, e) && Next(cfg, s, e, s')
    ensures t in s.topicSeqs ==> (t in s'.topicSeqs <==> Held(s', t))
    ensures Held(s', t) ==> LastSeq(s', t) == LastSeq(s, t) + if e.Send? && e.topic == t && Held(s, t) then 1 else 0
  {
    StepKeeps(cfg, s, e, s');
    assert t in s'.topicSeqs ==> Held(s', t);
    if e.Send? {
      SendStep(cfg, s, e.topic, e.payload, e.failing, s', t);
    } else {
      QuietStep(cfg, s, e, s');
      assert t !in s.topicSeqs ==> t !in s'.topicSeqs;
    }
  }

  lemma OneRise(cfg: Config, states: seq<State>, events: seq<Event>, m: nat, t: Topic)
    requires Run(cfg, states, events) && states[0] == EMPTY && m < |events|
    requires Held(states[m], t) && Held(states[m + 1], t)
    ensures Rises(states[m], events[m], states[m + 1], t)
  {
    RunKeeps(cfg, states, events, m);
    CounterStep(cfg, states[m], events[m], states[m + 1], t);
  }

  /** How many publishes to a topic there are between two states of a run. */
  function Publishes(events: seq<Event>, i: nat, j: nat, t: Topic): nat
    requires i <= j <= |events|
  {
    if i == j then 0 else Publishes(events, i, j - 1, t) + if events[j - 1].Send? && events[j - 1].topic == t then 1 else 0
  }

  /** Whether an event raises a topic's number. */
  predicate Rises(s: State, e: Event, s': State, t: Topic) {
    LastSeq(s', t) == LastSeq(s, t) + if e.Send? && e.topic == t then 1 else 0
  }

  lemma {:induction false} CountsUp(states: seq<State>, events: seq<Event>, i: nat, j: nat, t: Topic)
    requires |states| == |events| + 1 && i <= j <= |events|
    requires forall m :: i <= m < j ==> Rises(states[m], events[m], states[m + 1], t)
    ensures LastSeq(states[j], t) == LastSeq(states[i], t) + Publishes(events, i, j, t)
    decreases j
  {
    if i < j {
      assert Rises(states[j - 1], events[j - 1], states[j - 1 + 1], t);
      CountsUp(states, events, i, j - 1, t);
    }
  }

  /**
   While somebody holds a topic its sequence number counts the publishes to it: it never falls, and
   later publishes carry strictly larger numbers.
   */
  lemma SequenceRises(cfg: Config, states: seq<State>, events: seq<Event>, i: nat, j: nat, t: Topic)
    requires Run(cfg, states, events) && states[0] == EMPTY && i <= j <= |events|
    requires forall m :: i <= m <= j ==> Held(states[m], t)
    ensures LastSeq(states[j], t) == LastSeq(states[i], t) + Publishes(events, i, j, t)
  {
    forall m | i <= m < j
      ensures Rises(states[m], events[m], states[m + 1], t)
    {
      OneRise(cfg, states, events, m, t);
    }
    CountsUp(states, events, i, j, t);
  }

  // ---------------------------------------------------------------- what a cache holds

  type Log = map<Topic, seq<Cached>>

  /** Everything encoded for a topic since its cache last went as a whole. */
  ghost function Logged(log: Log, s: State, e: Event, s': State): Log {
    map t | t in s'.cache ::
      if Adds(s, e, t) && LastSeq(s, t) < MAX_SEQUENCE then Entries(log, t) + [Entry(LastSeq(s, t) + 1, e.payload)]
      else Entries(log, t)
  }

  ghost function History(states: seq<State>, events: seq<Event>, i: nat): Log
    requires i < |states| == |events| + 1
  {
    if i == 0 then map[] else Logged(History(states, events, i - 1), states[i - 1], events[i - 1], states[i])
  }

  lemma TrimTwice(es: seq<Cached>, p: Cached)
    ensures Trim(Trim(es) + [p]) == Trim(es + [p])
  {
  }

  ghost predicate CacheIsLogTail(s: State, log: Log, t: Topic) {
    && (t in s.cache <==> t in log)
    && (t in s.cache ==> s.cache[t] == Trim(log[t]))
  }

  lemma LogStep(cfg: Config, s: State, e: Event, s': State, log: Log, t: Topic)
    requires CountersSound(s) && Assumed(s, e) && Next(cfg, s, e, s')
    requires CacheIsLogTail(s, log, t)
    ensures CacheIsLogTail(s', Logged(log, s, e, s'), t)
  {
    if t in s'.cache {
      CacheStep(cfg, s, e, s', t);
      if Adds(s, e, t) {
        TailGrows(s.cache, log, t, Entry(LastSeq(s, t) + 1, e.payload));
      }
    }
  }

  lemma TailGrows(cache: map<Topic, seq<Cached>>, log: Log, t: Topic, p: Cached)
    requires (t in cache <==> t in log) && (t in cache ==> cache[t] == Trim(log[t]))
    ensures Trim(Entries(cache, t) + [p]) == Trim(Entries(log, t) + [p])
  {
    assert Trim([]) == [];
    TrimTwice(Entries(log, t), p);
  }

  /**
   In every reachable state a topic's cache is the newest 64 of what was successfully encoded for it
   since the cache was last evicted or dropped, in publish order.
   */
  lemma {:induction false} CacheIsNewest(cfg: Config, states: seq<State>, events: seq<Event>, i: nat, t: Topic)
    requires Run(cfg, states, events) && states[0] == EMPTY && i < |states|
    ensures CacheIsLogTail(states[i], History(states, events, i), t)
    decreases i
  {
    if i > 0 {
      RunKeeps(cfg, states, events, i - 1);
      CacheIsNewest(cfg, states, events, i - 1, t);
      LogStep(cfg, states[i - 1], events[i - 1], states[i], History(states, events, i - 1), t);
    }
  }

  /** Where the entries above a cursor begin. */
  ghost predicate Begins(es: seq<Cached>, cursor: nat, k: nat) {
    k <= |es| && forall i :: 0 <= i < |es| ==> (es[i].seqNo > cursor <==> k <= i)
  }

  lemma {:induction false} TailBegins(es: seq<Cached>, last: int, cursor: nat) returns (k: nat)
    requires Rising(es, last)
    ensures Begins(es, cursor, k)
    decreases |es|
  {
    RisingMeans(es, last);
    if es == [] || es[|es| - 1].seqNo <= cursor {
      return |es|;
    }
    k := TailBegins(es[..|es| - 1], es[|es| - 1].seqNo - 1, cursor);
    forall i | 0 <= i < |es|
      ensures es[i].seqNo > cursor <==> k <= i
    {
      assert i < |es| - 1 ==> es[i] == es[..|es| - 1][i];
    }
  }

  lemma {:induction false} NewerIsTail(es: seq<Cached>, cursor: nat, k: nat)
    requires Begins(es, cursor, k)
    ensures Newer(es, cursor) == es[k..]
    decreases |es|
  {
    if es != [] {
      var front := es[..|es| - 1];
      assert es[|es| - 1].seqNo > cursor <==> k <= |es| - 1;
      NewerIsTail(front, cursor, if k < |es| then k else |es| - 1);
      assert k < |es| ==> es[k..] == front[k..] + [es[|es| - 1]];
    }
  }

  /** What a resume replays of one topic: exactly the entries above the cursor, as the tail they form. */
  lemma ReplayIsTail(es: seq<Cached>, last: int, cursor: nat) returns (k: nat)
    requires Rising(es, last)
    ensures k <= |es| && Newer(es, cursor) == es[k..]
    ensures forall i :: 0 <= i < |es| ==> (es[i].seqNo > cursor <==> k <= i)
  {
    k := TailBegins(es, last, cursor);
    NewerIsTail(es, cursor, k);
  }

  /** A cached frame reads back, at the client, as the publish it was numbered as. */
  lemma CachedFrameDecodes(p: Cached, rest: seq<byte>, fault: Fault)
    requires Genuine(p)
    ensures exists payload :: Encodable(payload) && DecodeStream(p.buf + rest, fault) == Ok(PublishFrame(p.seqNo, payload), rest)
  {
    var payload :| Encodable(payload) && p == Entry(p.seqNo, payload);
    DecodeFrameOfBytes(PublishFrame(p.seqNo, payload), rest, fault);
  }

  // ---------------------------------------------------------------- membership

  /**
   A resume puts the new transport into all the session's topics, takes the old one out of all of
   them, and changes no other membership.
   */
  lemma ResumeMovesMembers(cfg: Config, s: State, c: Conn, k: Token, now: int, t: Topic, d: Conn)
    requires Inv(cfg, s) && k in s.sessions && c !in s.connTokens
    ensures var was, s' := s.sessions[k], Resume(s, c, k, now);
            && was.conn != c
            && (t in was.topics ==> c in At(s'.subs, t) && was.conn !in At(s'.subs, t))
            && ((t !in was.topics || (d != c && d != was.conn)) ==> (d in At(s'.subs, t) <==> d in At(s.subs, t)))
            && s'.connTokens[c] == k && was.conn !in s'.connTokens
  {
    var s' := Resume(s, c, k, now);
    assert t !in s.sessions[k].topics ==> At(s'.subs, t) == At(s.subs, t);
  }

  /** A swept session's transport is in none of the topics the session recorded. */
  lemma SweepLeavesNoPhantom(cfg: Config, s: State, now: int, k: Token, t: Topic)
    requires Inv(cfg, s) && k in Expired(s, cfg.ttl, now) && t in s.sessions[k].topics
    ensures s.sessions[k].conn !in At(Reap(s, cfg.ttl, now).subs, t)
    ensures s.sessions[k].conn !in Reap(s, cfg.ttl, now).connTokens
  {
    var ks := Expired(s, cfg.ttl, now);
    StripAt(s.subs, Leavers(s, ks), t);
    LeaversAt(s, ks, t);
    assert s.sessions[k].conn in At(Leavers(s, ks), t);
    assert s.sessions[k].conn in ConnsOf(s, ks);
  }
}
