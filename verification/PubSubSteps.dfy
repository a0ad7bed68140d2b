/**
 How the lock sections of `PubSub.dfy` compose: departures and clean-ups done one after another come
 to the same as one done all at once, in whatever order a map is walked.
 */
module PubSubSteps {
  import opened PubSub

  lemma StripAt(subs: Subscriptions, gone: Subscriptions, t: Topic)
    ensures At(Strip(subs, gone), t) == At(subs, t) - At(gone, t)
    ensures t in Strip(subs, gone) ==> Strip(subs, gone)[t] != {}
  {
  }

  /** Tables without empty member sets are determined by their members. */
  lemma SameMembers(a: Subscriptions, b: Subscriptions)
    requires forall t :: t in a ==> a[t] != {}
    requires forall t :: t in b ==> b[t] != {}
    requires forall t :: At(a, t) == At(b, t)
    ensures a == b
  {
    forall t
      ensures t in a <==> t in b
      ensures t in a ==> a[t] == b[t]
    {
      assert At(a, t) == At(b, t);
    }
  }

  /** Members left by one departure and then another. */
  lemma StripTwice(subs: Subscriptions, a: Subscriptions, b: Subscriptions, ab: Subscriptions)
    requires forall t :: At(ab, t) == At(a, t) + At(b, t)
    ensures Strip(Strip(subs, a), b) == Strip(subs, ab)
  {
    forall t
      ensures At(Strip(Strip(subs, a), b), t) == At(Strip(subs, ab), t)
    {
      StripAt(subs, a, t);
      StripAt(Strip(subs, a), b, t);
      StripAt(subs, ab, t);
    }
    SameMembers(Strip(Strip(subs, a), b), Strip(subs, ab));
  }

  /**
   Forgetting topics before or after more holders have left comes to the same, as long as the later
   departures only concern the topics forgotten last.
   */
  lemma ForgetTwice(s: State, s1: State, ts: set<Topic>, us: set<Topic>)
    requires s1 == Forget(s, ts).(subs := s1.subs, sessions := s1.sessions, connTokens := s1.connTokens)
    requires forall t :: Held(s1, t) ==> Held(s, t)
    requires forall t :: t !in us && Held(s, t) ==> Held(s1, t)
    ensures Forget(s1, us) ==
            Forget(s.(subs := s1.subs, sessions := s1.sessions, connTokens := s1.connTokens), ts + us)
  {
    var merged := s.(subs := s1.subs, sessions := s1.sessions, connTokens := s1.connTokens);
    forall t
      ensures Held(s1, t) <==> Held(merged, t)
    {
    }
    var l, r := Forget(s1, us), Forget(merged, ts + us);
    assert l.cache == r.cache;
    assert l.topicSeqs == r.topicSeqs;
  }

  lemma NobodyLeaves(subs: Subscriptions, t: Topic, c: Conn)
    requires t !in subs && forall u :: u in subs ==> subs[u] != {}
    ensures Strip(subs, map[t := {c}]) == subs
  {
    forall u
      ensures At(Strip(subs, map[t := {c}]), u) == At(subs, u)
    {
      StripAt(subs, map[t := {c}], u);
    }
    SameMembers(Strip(subs, map[t := {c}]), subs);
  }

  lemma ExpelTwice(s: State, t: Topic, a: set<Conn>, b: set<Conn>)
    ensures Expel(Expel(s, t, a), t, b) == Expel(s, t, a + b)
  {
    StripTwice(s.subs, map[t := a], map[t := b], map[t := a + b]);
    var left := s.(subs := Strip(s.subs, map[t := a]));
    var s1 := Expel(s, t, a).(subs := Strip(left.subs, map[t := b]));
    forall u
      ensures Held(s1, u) ==> Held(left, u)
      ensures u != t && Held(left, u) ==> Held(s1, u)
    {
      assert Records(s1, u) <==> Records(left, u);
    }
    ForgetTwice(left, s1, {t}, {t});
    assert {t} + {t} == {t};
  }

  lemma ExpelNobody(s: State, t: Topic)
    requires forall u :: u in s.subs ==> s.subs[u] != {}
    requires Held(s, t)
    ensures Expel(s, t, {}) == s
  {
    forall u
      ensures At(Strip(s.subs, map[t := {}]), u) == At(s.subs, u)
    {
      StripAt(s.subs, map[t := {}], u);
    }
    SameMembers(Strip(s.subs, map[t := {}]), s.subs);
    assert s.(subs := s.subs) == s;
    var none := set u | u in {t} && !Held(s, u);
    assert none == {};
  }

  lemma LeaversAt(s: State, ks: set<Token>, t: Topic)
    ensures At(Leavers(s, ks), t) == set k | k in ks && k in s.sessions && t in s.sessions[k].topics :: s.sessions[k].conn
  {
    if t !in TopicsOf(s, ks) {
      assert forall k :: k in ks && k in s.sessions ==> t !in s.sessions[k].topics;
    }
  }

  /** Who leaves when one more session ends. */
  lemma LeaversOneMore(s: State, ks: set<Token>, k: Token)
    requires k in s.sessions && k !in ks
    ensures var s0 := End(s, ks);
            && Strip(s0.subs, Leavers(s0, {k})) == Strip(s.subs, Leavers(s, ks + {k}))
            && s0.connTokens - ConnsOf(s0, {k}) == s.connTokens - ConnsOf(s, ks + {k})
            && TopicsOf(s0, {k}) == s.sessions[k].topics
            && TopicsOf(s, ks + {k}) == TopicsOf(s, ks) + TopicsOf(s0, {k})
  {
    var s0 := End(s, ks);
    forall t
      ensures At(Leavers(s, ks + {k}), t) == At(Leavers(s, ks), t) + At(Leavers(s0, {k}), t)
    {
      LeaversAt(s, ks + {k}, t);
      LeaversAt(s, ks, t);
      LeaversAt(s0, {k}, t);
      assert s0.sessions[k] == s.sessions[k];
    }
    StripTwice(s.subs, Leavers(s, ks), Leavers(s0, {k}), Leavers(s, ks + {k}));
    assert ConnsOf(s, ks + {k}) == ConnsOf(s, ks) + ConnsOf(s0, {k});
  }

  /** Only the topics of the session that ends can lose a holder. */
  lemma EndKeepsHolders(s: State, k: Token, t: Topic)
    requires k in s.sessions
    ensures var s1 := s.(subs := Strip(s.subs, Leavers(s, {k})), sessions := s.sessions - {k});
            && (Held(s1, t) ==> Held(s, t))
            && (t !in s.sessions[k].topics && Held(s, t) ==> Held(s1, t))
  {
    var s1 := s.(subs := Strip(s.subs, Leavers(s, {k})), sessions := s.sessions - {k});
    StripAt(s.subs, Leavers(s, {k}), t);
    if Records(s, t) && t !in s.sessions[k].topics {
      var j :| j in s.sessions && t in s.sessions[j].topics;
      assert j in s1.sessions;
    }
  }

  /** Ending one more session. */
  lemma EndOneMore(s: State, ks: set<Token>, k: Token)
    requires k in s.sessions && k !in ks
    ensures k in End(s, ks).sessions && End(s, ks).sessions[k] == s.sessions[k]
    ensures End(End(s, ks), {k}) == End(s, ks + {k})
  {
    var s0, all := End(s, ks), ks + {k};
    var left := s.(subs := Strip(s.subs, Leavers(s, ks)), sessions := s.sessions - ks, connTokens := s.connTokens - ConnsOf(s, ks));
    LeaversOneMore(s, ks, k);
    var s1 := s0.(subs := Strip(s0.subs, Leavers(s0, {k})), sessions := s0.sessions - {k},
    connTokens := s0.connTokens - ConnsOf(s0, {k}));
    forall t
      ensures Held(s1, t) ==> Held(left, t)
      ensures t !in TopicsOf(s0, {k}) && Held(left, t) ==> Held(s1, t)
    {
      EndKeepsHolders(s0, k, t);
      assert Held(left, t) <==> Held(s0, t);
    }
    assert s1.sessions == s.sessions - all;
    ForgetTwice(left, s1, TopicsOf(s, ks), TopicsOf(s0, {k}));
  }

  /** An unsubscribe that first gives the topic up with its last member, then with the session's note. */
  lemma UnsubscribeInTwo(s: State, c: Conn, t: Topic, now: int)
    ensures var a := s.(subs := Strip(s.subs, map[t := {c}]));
            Forget(Forget(a, {t}).(sessions := Note(s, c, t, false, now)), {t}) == Unsubscribe(s, c, t, now)
  {
    var a := s.(subs := Strip(s.subs, map[t := {c}]));
    var s1 := Forget(a, {t}).(sessions := Note(s, c, t, false, now));
    forall u
      ensures Held(s1, u) ==> Held(a, u)
      ensures u != t && Held(a, u) ==> Held(s1, u)
    {
      if Records(a, u) && u != t {
        var k :| k in a.sessions && u in a.sessions[k].topics;
        assert k in s1.sessions && u in s1.sessions[k].topics;
      }
    }
    ForgetTwice(a, s1, {t}, {t});
    assert {t} + {t} == {t};
  }

  /** Taking one connection out of several topics, one topic after another. */
  lemma LeaveOneMore(s: State, c: Conn, ts: set<Topic>, t: Topic)
    ensures Expel(Leave(s, c, ts), t, {c}) == Leave(s, c, ts + {t})
  {
    var gone, gone' := Departure(c, ts), Departure(c, ts + {t});
    StripTwice(s.subs, gone, map[t := {c}], gone');
    var left := s.(subs := Strip(s.subs, gone));
    var s1 := Leave(s, c, ts).(subs := Strip(left.subs, map[t := {c}]));
    forall u
      ensures Held(s1, u) ==> Held(left, u)
      ensures u != t && Held(left, u) ==> Held(s1, u)
    {
      assert Records(s1, u) <==> Records(left, u);
    }
    ForgetTwice(left, s1, ts, {t});
  }

  /** One connection leaving several topics. */
  function Departure(c: Conn, ts: set<Topic>): Subscriptions {
    map u | u in ts :: {c}
  }

  ghost function Leave(s: State, c: Conn, ts: set<Topic>): State {
    Forget(s.(subs := Strip(s.subs, Departure(c, ts))), ts)
  }

  /** Ending one session is taking its transport out of its topics. */
  lemma EndIsLeave(s: State, k: Token)
    requires k in s.sessions
    ensures var was := s.sessions[k];
            End(s, {k}) ==
            Leave(s.(sessions := s.sessions - {k}, connTokens := s.connTokens - {was.conn}), was.conn, was.topics)
  {
    var was := s.sessions[k];
    assert TopicsOf(s, {k}) == was.topics;
    assert ConnsOf(s, {k}) == {was.conn};
    forall t | t in was.topics
      ensures Leavers(s, {k})[t] == Departure(was.conn, was.topics)[t]
    {
      LeaversAt(s, {k}, t);
    }
    assert Leavers(s, {k}) == Departure(was.conn, was.topics);
  }

  lemma LeaveNothing(s: State, c: Conn)
    requires forall t :: t in s.subs ==> s.subs[t] != {}
    ensures Leave(s, c, {}) == s
  {
    var none := Departure(c, {});
    forall t
      ensures At(Strip(s.subs, none), t) == At(s.subs, t)
    {
      StripAt(s.subs, none, t);
    }
    SameMembers(Strip(s.subs, none), s.subs);
    assert s.cache - {} == s.cache && s.topicSeqs - {} == s.topicSeqs;
    var dead := set t | t in {} && !Held(s, t);
    assert dead == {};
  }

  lemma EndNothing(s: State)
    requires forall t :: t in s.subs ==> s.subs[t] != {}
    ensures End(s, {}) == s
  {
    LeaveNothing(s, 0);
    assert TopicsOf(s, {}) == {} && ConnsOf(s, {}) == {};
    assert Leavers(s, {}) == Departure(0, {});
    assert s.sessions - {} == s.sessions && s.connTokens - {} == s.connTokens;
  }

  // ---------------------------------------------------------------- tidiness

  /** Fewer holders and fewer counters leave the tables tidy. */
  lemma TidyForget(s: State, ts: set<Topic>)
    requires Tidy(s)
    ensures Tidy(Forget(s, ts))
  {
  }

  lemma TidyStrip(s: State, gone: Subscriptions)
    requires Tidy(s)
    ensures Tidy(s.(subs := Strip(s.subs, gone)))
  {
    StripAt(s.subs, gone, NO_TOPIC);
  }

  lemma TidyExpel(s: State, t: Topic, conns: set<Conn>)
    requires Tidy(s)
    ensures Tidy(Expel(s, t, conns))
  {
    TidyStrip(s, map[t := conns]);
    TidyForget(s.(subs := Strip(s.subs, map[t := conns])), {t});
  }

  lemma TidyEnd(s: State, ks: set<Token>)
    requires Tidy(s)
    ensures Tidy(End(s, ks))
  {
    TidyStrip(s, Leavers(s, ks));
    TidyForget(s.(subs := Strip(s.subs, Leavers(s, ks)), sessions := s.sessions - ks, connTokens := s.connTokens - ConnsOf(s, ks)),
               TopicsOf(s, ks));
  }

  lemma FewerSessionsTidy(s: State, k: Token)
    requires Tidy(s) && k in s.sessions
    ensures Tidy(s.(sessions := s.sessions - {k}, connTokens := s.connTokens - {s.sessions[k].conn}))
  {
  }

  /** Numbering and remembering a publish change no holder. */
  lemma MintKeepsTidy(s: State, t: Topic)
    requires Tidy(s)
    ensures Tidy(Mint(s, t)) && forall u :: Held(Mint(s, t), u) <==> Held(s, u)
  {
    forall u
      ensures Held(Mint(s, t), u) <==> Held(s, u)
    {
      assert Records(Mint(s, t), u) <==> Records(s, u);
    }
  }

  lemma RememberKeepsTidy(s: State, t: Topic, p: Cached, budget: nat, s': State)
    requires Tidy(s) && Remembered(s, t, p, budget, s')
    ensures Tidy(s') && forall u :: Held(s', u) <==> Held(s, u)
  {
    forall u
      ensures Held(s', u) <==> Held(s, u)
    {
      assert Records(s', u) <==> Records(s, u);
    }
  }
}
