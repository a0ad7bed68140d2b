/**
 What a connected member can count on. A publish goes to the members it found when it began, so a client
 that becomes a member while it is under way gets neither the frame nor, until it resumes again, a replay
 of it; and a replay whose write fails is given up with the connection left as it is. The lemmas below say
 that while the client is a member a frame is lost in these two ways and in no other.
 */
module Silence {
  import opened Wire
  import opened PubSub
  import opened PubSubSteps
  import opened PubSubRuns
  import opened PubSubRaces
  import opened PubSubOverlap
  import opened PubSubTraces
  import opened Resilient
  import opened EndToEnd
  import opened EndToEndTraces

  /** A publish has still to write a frame with this number to the client. */
  ghost predicate Owed(f: Focus, x: System, n: nat) {
    x.link.Some? &&
    exists i :: i in x.world.calls && x.world.calls[i].Writing? && x.world.calls[i].topic == f.topic
                && x.world.calls[i].entry.seqNo == n && x.link.value in x.world.calls[i].members
  }

  /** On its way to the client through its current connection. */
  predicate OnLink(x: System, n: nat) {
    x.link.Some? && x.link.value in x.pipes && InPipe(x.pipes[x.link.value], n)
  }

  /** Where a cached publish can be. */
  ghost predicate Accounted(f: Focus, x: System, n: nat) {
    n in x.accepted || n in x.rejected || OnLink(x, n) || Owed(f, x, n)
  }

  /** While the client is a member, every cached publish is accounted for, or was cached before it subscribed. */
  ghost predicate NothingLost(f: Focus, x: System) {
    Member(f, x) ==> forall p :: p in Stock(f, x) ==> p.seqNo in x.before || Accounted(f, x, p.seqNo)
  }

  /** Numbers that have left the publishing call. */
  ghost predicate Out(x: System, n: nat) {
    n in x.accepted || n in x.rejected || n in x.before || exists c :: c in x.pipes && InPipe(x.pipes[c], n)
  }

  predicate Coming(f: Focus, w: World, i: nat) {
    i in w.calls && w.calls[i].Encoded? && w.calls[i].topic == f.topic
  }

  /** A frame about to be cached carries a number that nothing else does. */
  ghost predicate Fresher(f: Focus, x: System) {
    && (forall n: nat :: Out(x, n) ==> n <= LastSeq(x.world.state, f.topic))
    && (forall i: nat, n: nat :: Coming(f, x.world, i) && Out(x, n) ==> n != x.world.calls[i].entry.seqNo)
  }

  ghost predicate Known(f: Focus, x: System) {
    Good(f, x) && Current(x.world, f.topic) && Fresher(f, x)
  }

  lemma TrackedHeld(f: Focus, x: System)
    requires Tracked(f, x)
    ensures Held(x.world.state, f.topic)
  {
    assert Records(x.world.state, f.topic);
  }

  /** No section lowers a held topic's number. */
  lemma NumberKept(f: Focus, w: World, e: Section, w': World, t: Topic)
    requires RaceInv(f.cfg, w) && Current(w, t) && Step(f.cfg, w, e, w') && Held(w'.state, t)
    ensures LastSeq(w.state, t) <= LastSeq(w'.state, t)
  {
    match e
    case FindCounter(id) => FindNumbers(w.state, w.calls[id].topic, t);
    case TakeNumber(id) => TakeNumbers(f.cfg, w, id, w', t);
    case Remember(id) => RememberNumbers(f.cfg, w, id, w', t);
    case _ => SameNumbers(f.cfg, w, e, w', t);
  }

  /** A frame about to be cached was so before, or has just taken a number above all others. */
  lemma ComingFrom(f: Focus, w: World, e: Section, w': World, i: nat)
    requires RaceInv(f.cfg, w) && Current(w, f.topic) && Step(f.cfg, w, e, w') && Coming(f, w', i)
    ensures (Coming(f, w, i) && w.calls[i] == w'.calls[i]) || w'.calls[i].entry.seqNo > LastSeq(w.state, f.topic)
  {
    if e.TakeNumber? {
      TakeNumbers(f.cfg, w, e.id, w', f.topic);
    }
  }

  /** What a section newly lets out: the frame it writes to the client, or what a new member is not promised. */
  lemma OutFrom(f: Focus, x: System, e: Section, x': System, n: nat)
    requires Act(f, x, Serve(e), x') && Out(x', n)
    ensures Out(x, n) || (Reaches(f, x, e) && n == x.world.calls[e.id].entry.seqNo) || (exists p :: p in Stock(f, x') && p.seqNo == n)
  {
    if c :| c in x'.pipes && InPipe(x'.pipes[c], n) {
      assert c in x.pipes;
      if !(Reaches(f, x, e) && c == e.conn) {
        assert InPipe(x.pipes[c], n);
      } else if n != x.world.calls[e.id].entry.seqNo {
        assert InPipe(x.pipes[c], n);
      }
    }
  }

  /** A number that is cached, or borne by a publish that has cached it, is known. */
  lemma ServedIsKnown(f: Focus, x: System, e: Section, x': System, n: nat)
    requires Known(f, x) && Act(f, x, Serve(e), x') && Tracked(f, x') && Out(x', n)
    requires Current(x'.world, f.topic) && LastSeq(x.world.state, f.topic) <= LastSeq(x'.world.state, f.topic)
    ensures n <= LastSeq(x'.world.state, f.topic)
    ensures forall i: nat :: Coming(f, x'.world, i) ==> n != x'.world.calls[i].entry.seqNo
  {
    OutFrom(f, x, e, x', n);
    forall i: nat | Coming(f, x'.world, i)
      ensures n != x'.world.calls[i].entry.seqNo
    {
      ComingFrom(f, x.world, e, x'.world, i);
    }
  }

  lemma ServeFresher(f: Focus, x: System, e: Section, x': System)
    requires Known(f, x) && Act(f, x, Serve(e), x') && Tracked(f, x')
    ensures Current(x'.world, f.topic) && Fresher(f, x')
  {
    TrackedHeld(f, x');
    NumberKept(f, x.world, e, x'.world, f.topic);
    StepCurrent(f.cfg, x.world, e, x'.world, f.topic);
    forall n: nat | Out(x', n)
      ensures n <= LastSeq(x'.world.state, f.topic)
      ensures forall i: nat :: Coming(f, x'.world, i) ==> n != x'.world.calls[i].entry.seqNo
    {
      ServedIsKnown(f, x, e, x', n);
    }
  }

  /** What is out or cached is numbered up to the counter, and not like a frame about to be cached. */
  lemma CachedIsKnown(f: Focus, x: System, n: nat)
    requires Known(f, x) && (Out(x, n) || exists p :: p in Stock(f, x) && p.seqNo == n)
    ensures n <= LastSeq(x.world.state, f.topic)
    ensures forall i: nat :: Coming(f, x.world, i) ==> n != x.world.calls[i].entry.seqNo
  {
  }

  lemma AttachOut(f: Focus, x: System, c: Conn, minted: Token, now: int, x': System, n: nat)
    requires Act(f, x, Attach(c, minted, now), x') && Out(x', n)
    ensures Out(x, n) || exists p :: p in Stock(f, x) && p.seqNo == n
  {
    if d :| d in x'.pipes && InPipe(x'.pipes[d], n) {
      if d != c {
        assert d in x.pipes && InPipe(x.pipes[d], n);
      } else if n in x'.pipes[c].replay {
        NewerNumbers(Stock(f, x), x.asked[c], n);
      } else {
        assert InPipe(x.pipes[c], n);
      }
    }
  }

  lemma AttachFresher(f: Focus, x: System, c: Conn, minted: Token, now: int, x': System)
    requires Known(f, x) && Act(f, x, Attach(c, minted, now), x') && Tracked(f, x')
    ensures Current(x'.world, f.topic) && Fresher(f, x')
  {
    TrackedHeld(f, x');
    AttachStep(f, x, c, minted, now, x');
    StepCurrent(f.cfg, x.world, Other(Greet(c, [1], f.token, minted, now)), x'.world, f.topic);
    forall n: nat | Out(x', n)
      ensures n <= LastSeq(x'.world.state, f.topic)
      ensures forall i: nat :: Coming(f, x'.world, i) ==> n != x'.world.calls[i].entry.seqNo
    {
      AttachOut(f, x, c, minted, now, x', n);
      CachedIsKnown(f, x, n);
      assert x'.world.calls == x.world.calls;
    }
  }

  /** Nothing the client does on its own lets anything out that was not out before. */
  lemma ClientOut(f: Focus, x: System, a: Action, x': System, n: nat)
    requires Act(f, x, a, x') && !a.Serve? && !a.Attach? && Out(x', n)
    ensures Out(x, n)
  {
    if c :| c in x'.pipes && InPipe(x'.pipes[c], n) {
      if c in x.pipes {
        var p := x.pipes[c];
        if a.Take? && c == a.conn { assert p.wire == [p.wire[0]] + p.wire[1..]; }
        if a.ReplayNext? && c == a.conn { assert p.replay == [p.replay[0]] + p.replay[1..]; }
        assert InPipe(p, n);
      }
    } else if a.Return? {
      assert n in x.accepted || n in x.rejected || n in x.before || InPipe(x.pipes[a.conn], n);
    }
  }

  lemma ClientFresher(f: Focus, x: System, a: Action, x': System)
    requires Known(f, x) && Act(f, x, a, x') && !a.Serve? && !a.Attach?
    ensures Current(x'.world, f.topic) && Fresher(f, x')
  {
    forall n: nat | Out(x', n)
      ensures Out(x, n)
    {
      ClientOut(f, x, a, x', n);
    }
  }

  lemma ActKnown(f: Focus, x: System, a: Action, x': System)
    requires Known(f, x) && Act(f, x, a, x') && Tracked(f, x')
    ensures Known(f, x')
  {
    ActGood(f, x, a, x');
    match a
    case Serve(e) => ServeFresher(f, x, e, x');
    case Attach(c, minted, now) => AttachFresher(f, x, c, minted, now, x');
    case _ => ClientFresher(f, x, a, x');
  }

  // ---------------------------------------------------------------- the two ways to lose a frame

  /** A publish caches its frame for a member that it did not find when it began. */
  ghost predicate Overlooks(f: Focus, x: System, a: Action, x': System) {
    && a.Serve? && a.section.Remember? && Coming(f, x.world, a.section.id) && Member(f, x)
    && x.link.value !in x.world.calls[a.section.id].members
    && x.world.calls[a.section.id].entry in Stock(f, x')
  }

  /** A cached publish that the client can get only from what is left of its replay. */
  ghost predicate OnlyInReplay(f: Focus, x: System, p: Cached) {
    && p in Stock(f, x) && x.link.Some? && x.link.value in x.pipes
    && var pipe := x.pipes[x.link.value];
       && p.seqNo in pipe.replay && p.seqNo !in pipe.wire && pipe.hand != Some(p.seqNo as nat)
       && p.seqNo !in x.before && p.seqNo !in x.accepted && p.seqNo !in x.rejected && !Owed(f, x, p.seqNo)
  }

  /** The server gives up the replay to a member with such a publish still in it. */
  ghost predicate Abandons(f: Focus, x: System, a: Action) {
    a.ReplayFails? && x.link == Some(a.conn) && Member(f, x) && exists p :: OnlyInReplay(f, x, p)
  }

  ghost predicate Loses(f: Focus, x: System, a: Action, x': System) {
    Overlooks(f, x, a, x') || Abandons(f, x, a)
  }

  /** What is accounted for stays so if the client still has it and the calls still owe it. */
  lemma KeepsAll(f: Focus, x: System, x': System)
    requires NothingLost(f, x) && (Member(f, x') ==> Member(f, x))
    requires forall p :: p in Stock(f, x') ==> p in Stock(f, x)
    requires x.before <= x'.before
    requires forall n: nat :: Accounted(f, x, n) ==> Accounted(f, x', n)
    ensures NothingLost(f, x')
  {
  }

  lemma SameOwed(f: Focus, x: System, x': System, n: nat)
    requires x'.link == x.link && Owed(f, x, n)
    requires forall i :: i in x.world.calls && x.world.calls[i].Writing? ==> i in x'.world.calls && x'.world.calls[i] == x.world.calls[i]
    ensures Owed(f, x', n)
  {
    var i :| i in x.world.calls && x.world.calls[i].Writing? && x.world.calls[i].topic == f.topic
             && x.world.calls[i].entry.seqNo == n && x.link.value in x.world.calls[i].members;
    assert i in x'.world.calls;
  }

  /** A section other than a publish's caching and writing. */
  lemma QuietKeepsAll(f: Focus, x: System, e: Section, x': System)
    requires NothingLost(f, x) && Act(f, x, Serve(e), x') && !e.Remember? && !e.Write? && !e.Remove?
    ensures NothingLost(f, x')
  {
    OnlyRememberCaches(f.cfg, x.world, e, x'.world);
    if Member(f, x) {
      forall n: nat | Accounted(f, x, n)
        ensures Accounted(f, x', n)
      {
        if Owed(f, x, n) { SameOwed(f, x, x', n); }
      }
      KeepsAll(f, x, x');
    }
  }

  /** A write to the client turns what it is owed into what is on its wire, or dooms its membership. */
  lemma WriteDelivers(f: Focus, x: System, e: Section, x': System, n: nat)
    requires Act(f, x, Serve(e), x') && e.Write? && Owed(f, x, n) && x.link.value in x.pipes && x.pipes[x.link.value].open
    ensures Owed(f, x', n) || OnLink(x', n) || Expelling(f, x')
  {
    var i :| i in x.world.calls && x.world.calls[i].Writing? && x.world.calls[i].topic == f.topic
             && x.world.calls[i].entry.seqNo == n && x.link.value in x.world.calls[i].members;
    assert i in x'.world.calls;
    if i == e.id && e.conn == x.link.value {
      if e.ok {
        assert Reaches(f, x, e);
      } else {
        assert x.link.value in x'.world.calls[i].failed;
      }
    } else {
      assert x.link.value in x'.world.calls[i].members;
    }
  }

  lemma WriteAccounts(f: Focus, x: System, e: Section, x': System, n: nat)
    requires Good(f, x) && Act(f, x, Serve(e), x') && e.Write? && Member(f, x') && Accounted(f, x, n)
    ensures Accounted(f, x', n)
  {
    if Owed(f, x, n) {
      WriteDelivers(f, x, e, x', n);
    } else if OnLink(x, n) {
      assert InPipe(x'.pipes[x.link.value], n);
    }
  }

  /** A client about to be taken out stays so until it is. */
  lemma DoomedStays(f: Focus, x: System, e: Section, x': System)
    requires Act(f, x, Serve(e), x') && (e.Write? || (e.Remove? && (x.link != Some(e.conn) || x.world.calls[e.id].topic != f.topic)))
    ensures Expelling(f, x) ==> Expelling(f, x')
  {
    if Expelling(f, x) {
      var i :| i in x.world.calls && x.world.calls[i].Writing? && x.world.calls[i].topic == f.topic && x.link.value in x.world.calls[i].failed;
      assert i in x'.world.calls && x.link.value in x'.world.calls[i].failed;
    }
  }

  lemma WriteKeepsAll(f: Focus, x: System, e: Section, x': System)
    requires Good(f, x) && NothingLost(f, x) && Act(f, x, Serve(e), x') && e.Write?
    ensures NothingLost(f, x')
  {
    OnlyRememberCaches(f.cfg, x.world, e, x'.world);
    if Member(f, x') {
      DoomedStays(f, x, e, x');
      forall n: nat | Accounted(f, x, n)
        ensures Accounted(f, x', n)
      {
        WriteAccounts(f, x, e, x', n);
      }
      KeepsAll(f, x, x');
    }
  }

  /** Taking a connection out of a topic ends its membership and nobody else's. */
  lemma RemoveKeepsAll(f: Focus, x: System, e: Section, x': System)
    requires NothingLost(f, x) && Act(f, x, Serve(e), x') && e.Remove?
    ensures NothingLost(f, x')
  {
    OnlyRememberCaches(f.cfg, x.world, e, x'.world);
    var c := x.world.calls[e.id];
    StripAt(x.world.state.subs, map[c.topic := {e.conn}], f.topic);
    if Member(f, x') {
      assert e.conn != x.link.value || c.topic != f.topic;
      DoomedStays(f, x, e, x');
      forall n: nat | Accounted(f, x, n)
        ensures Accounted(f, x', n)
      {
        if Owed(f, x, n) {
          var i :| i in x.world.calls && x.world.calls[i].Writing? && x.world.calls[i].topic == f.topic
                   && x.world.calls[i].entry.seqNo == n && x.link.value in x.world.calls[i].members;
          assert i in x'.world.calls && x.link.value in x'.world.calls[i].members;
        }
      }
      KeepsAll(f, x, x');
    }
  }

  lemma RememberKeepsOwed(f: Focus, x: System, id: nat, x': System, n: nat)
    requires Act(f, x, Serve(Remember(id)), x')
    ensures Owed(f, x', n) <==>
            Owed(f, x, n) || (x.link.Some? && Coming(f, x.world, id) && x.world.calls[id].entry.seqNo == n && x.link.value in x.world.calls[id].members)
  {
    var c := x.world.calls[id];
    if Owed(f, x, n) {
      SameOwed(f, x, x', n);
    }
    if x.link.Some? && Coming(f, x.world, id) && c.entry.seqNo == n && x.link.value in c.members {
      assert id in x'.world.calls && x'.world.calls[id] == Writing(c.topic, c.entry, c.members, {});
    }
  }

  lemma RememberKeepsMember(f: Focus, x: System, id: nat, x': System)
    requires Act(f, x, Serve(Remember(id)), x')
    ensures Member(f, x') <==> Member(f, x)
  {
    if Expelling(f, x) {
      var i :| i in x.world.calls && x.world.calls[i].Writing? && x.world.calls[i].topic == f.topic && x.link.value in x.world.calls[i].failed;
      assert i in x'.world.calls && x.link.value in x'.world.calls[i].failed;
    }
    if Expelling(f, x') {
      var i :| i in x'.world.calls && x'.world.calls[i].Writing? && x'.world.calls[i].topic == f.topic && x.link.value in x'.world.calls[i].failed;
      assert i in x.world.calls && x.world.calls[i] == x'.world.calls[i];
    }
  }

  /** What caching a frame accounts for: what was, and the frame if the publish had found the client. */
  lemma RememberAccounts(f: Focus, x: System, id: nat, x': System, n: nat)
    requires Act(f, x, Serve(Remember(id)), x') && Member(f, x)
    ensures Accounted(f, x', n) <==>
            Accounted(f, x, n) || (Coming(f, x.world, id) && x.world.calls[id].entry.seqNo == n && x.link.value in x.world.calls[id].members)
  {
    RememberKeepsOwed(f, x, id, x', n);
  }

  /** A frame about to be cached is accounted for nowhere yet. */
  lemma ComingIsNew(f: Focus, x: System, id: nat)
    requires Known(f, x) && Coming(f, x.world, id)
    ensures x.world.calls[id].entry.seqNo !in x.before && !Accounted(f, x, x.world.calls[id].entry.seqNo)
  {
    NotOwedYet(f, x, id);
    OnLinkIsOut(x, x.world.calls[id].entry.seqNo);
    NotOutYet(f, x, id);
  }

  lemma NotOwedYet(f: Focus, x: System, id: nat)
    requires Unrepeated(x.world, f.topic) && Coming(f, x.world, id)
    ensures !Owed(f, x, x.world.calls[id].entry.seqNo)
  {
  }

  lemma NotOutYet(f: Focus, x: System, id: nat)
    requires Fresher(f, x) && Coming(f, x.world, id)
    ensures !Out(x, x.world.calls[id].entry.seqNo)
  {
  }

  lemma OnLinkIsOut(x: System, n: nat)
    ensures OnLink(x, n) ==> Out(x, n)
  {
  }

  lemma RememberLosesIff(f: Focus, x: System, id: nat, x': System)
    requires Known(f, x) && NothingLost(f, x) && Act(f, x, Serve(Remember(id)), x')
    ensures NothingLost(f, x') <==> !Overlooks(f, x, Serve(Remember(id)), x')
  {
    RememberKeepsMember(f, x, id, x');
    RememberNumbers(f.cfg, x.world, id, x'.world, f.topic);
    if Overlooks(f, x, Serve(Remember(id)), x') {
      ComingIsNew(f, x, id);
      RememberAccounts(f, x, id, x', x.world.calls[id].entry.seqNo);
    } else if Member(f, x) {
      forall p | p in Stock(f, x')
        ensures p.seqNo in x'.before || Accounted(f, x', p.seqNo)
      {
        RememberAccounts(f, x, id, x', p.seqNo);
      }
    }
  }

  /** A resume accounts for everything cached. */
  lemma ResumeKeepsAll(f: Focus, x: System, c: Conn, minted: Token, now: int, x': System)
    requires Good(f, x) && Act(f, x, Attach(c, minted, now), x') && x.link == Some(c)
    ensures NothingLost(f, x')
  {
    AttachStep(f, x, c, minted, now, x');
    forall p | p in Stock(f, x')
      ensures Accounted(f, x', p.seqNo)
    {
      if p.seqNo !in x.accepted {
        Recovers(f, x, p);
        assert p.seqNo in x'.pipes[c].replay;
      }
    }
  }

  /** A late handshake of an older connection gives the current one nothing and takes nothing it still has. */
  lemma LateAttachKeepsAll(f: Focus, x: System, c: Conn, minted: Token, now: int, x': System)
    requires NothingLost(f, x) && Act(f, x, Attach(c, minted, now), x') && x.link != Some(c)
    ensures NothingLost(f, x')
  {
    AttachStep(f, x, c, minted, now, x');
    assert x'.world.calls == x.world.calls && x'.link == x.link;
    assert Expelling(f, x') <==> Expelling(f, x);
    assert Member(f, x') ==> Member(f, x);
    forall n: nat | Accounted(f, x, n)
      ensures Accounted(f, x', n)
    {
      assert Owed(f, x', n) <==> Owed(f, x, n);
      assert OnLink(x', n) <==> OnLink(x, n);
    }
    KeepsAll(f, x, x');
  }

  lemma AttachKeepsAll(f: Focus, x: System, c: Conn, minted: Token, now: int, x': System)
    requires Good(f, x) && NothingLost(f, x) && Act(f, x, Attach(c, minted, now), x')
    ensures NothingLost(f, x')
  {
    if x.link == Some(c) {
      ResumeKeepsAll(f, x, c, minted, now, x');
    } else {
      LateAttachKeepsAll(f, x, c, minted, now, x');
    }
  }

  /** What the client's own goroutines and the replay do to one number. */
  lemma ClientAccounts(f: Focus, x: System, a: Action, x': System, n: nat)
    requires Good(f, x) && Act(f, x, a, x') && (a.Take? || a.Return? || a.Realign? || a.ReplayNext? || a.Sever?)
    requires x'.link == x.link && Accounted(f, x, n)
    ensures Accounted(f, x', n)
  {
    if Owed(f, x, n) {
      SameOwed(f, x, x', n);
    } else if OnLink(x, n) {
      var p := x.pipes[x.link.value];
      if a.Take? && a.conn == x.link.value {
        assert PipeOk(p) && p.wire[0] in p.wire && p.wire == [p.wire[0]] + p.wire[1..];
        FilterIsNonMembership(x.tracker, p.wire[0]);
      }
      if a.ReplayNext? && a.conn == x.link.value { assert p.replay == [p.replay[0]] + p.replay[1..]; }
    }
  }

  lemma ClientKeepsAll(f: Focus, x: System, a: Action, x': System)
    requires Good(f, x) && NothingLost(f, x) && Act(f, x, a, x') && !a.Serve? && !a.Attach? && !a.ReplayFails?
    ensures NothingLost(f, x')
  {
    if Member(f, x') {
      assert x'.link == x.link;
      assert Expelling(f, x') <==> Expelling(f, x);
      forall n: nat | Accounted(f, x, n)
        ensures Accounted(f, x', n)
      {
        if a.Retire? || a.Dial? { assert false; } else { ClientAccounts(f, x, a, x', n); }
      }
      KeepsAll(f, x, x');
    }
  }

  /** Giving up the replay loses something exactly if a cached publish was nowhere else. */
  lemma GiveUpLosesIff(f: Focus, x: System, c: Conn, x': System)
    requires Good(f, x) && NothingLost(f, x) && Act(f, x, ReplayFails(c), x')
    ensures NothingLost(f, x') <==> !Abandons(f, x, ReplayFails(c))
  {
    assert Member(f, x') <==> Member(f, x) by {
      assert Expelling(f, x') <==> Expelling(f, x);
    }
    forall n: nat
      ensures Owed(f, x', n) <==> Owed(f, x, n)
    {
    }
    if p :| OnlyInReplay(f, x, p) && x.link == Some(c) && Member(f, x) {
      assert !Accounted(f, x', p.seqNo);
    } else if Member(f, x) {
      forall p | p in Stock(f, x')
        ensures p.seqNo in x'.before || Accounted(f, x', p.seqNo)
      {
        assert !(OnlyInReplay(f, x, p) && x.link == Some(c));
      }
    }
  }

  lemma ServeLosesIff(f: Focus, x: System, e: Section, x': System)
    requires Known(f, x) && NothingLost(f, x) && Act(f, x, Serve(e), x')
    ensures NothingLost(f, x') <==> !Overlooks(f, x, Serve(e), x')
  {
    if e.Remember? {
      RememberLosesIff(f, x, e.id, x');
    } else if e.Write? {
      WriteKeepsAll(f, x, e, x');
    } else if e.Remove? {
      RemoveKeepsAll(f, x, e, x');
    } else {
      QuietKeepsAll(f, x, e, x');
    }
  }

  /** One action loses a member a frame exactly if it is one of the two. */
  lemma LosesExactly(f: Focus, x: System, a: Action, x': System)
    requires Known(f, x) && NothingLost(f, x) && Act(f, x, a, x')
    ensures NothingLost(f, x') <==> !Loses(f, x, a, x')
  {
    match a
    case Serve(e) => ServeLosesIff(f, x, e, x');
    case Attach(c, minted, now) => AttachKeepsAll(f, x, c, minted, now, x');
    case ReplayFails(c) => GiveUpLosesIff(f, x, c, x');
    case _ => ClientKeepsAll(f, x, a, x');
  }

  // ---------------------------------------------------------------- whole stories

  lemma StartKnown(f: Focus, x: System)
    requires Start(f, x)
    ensures Known(f, x) && NothingLost(f, x)
  {
    forall n: nat | Out(x, n)
      ensures exists p :: p in Stock(f, x) && p.seqNo == n
    {
    }
  }

  lemma {:induction false} GoesKnown(f: Focus, xs: seq<System>, acts: seq<Action>, i: nat)
    requires Goes(f, xs, acts) && Known(f, xs[0]) && i < |xs|
    ensures Known(f, xs[i])
    decreases i
  {
    if i > 0 {
      GoesKnown(f, xs, acts, i - 1);
      assert ActAt(f, xs, acts, i - 1);
      ActKnown(f, xs[i - 1], acts[i - 1], xs[i]);
    }
  }

  lemma StoryKnown(f: Focus, xs: seq<System>, acts: seq<Action>, i: nat)
    requires Story(f, xs, acts) && i < |xs|
    ensures Known(f, xs[i])
  {
    StartKnown(f, xs[0]);
    GoesKnown(f, xs, acts, i);
  }

  ghost predicate NothingLostIn(f: Focus, xs: seq<System>, i: nat)
    requires i < |xs|
  {
    NothingLost(f, xs[i])
  }

  ghost predicate LosesAt(f: Focus, xs: seq<System>, acts: seq<Action>, i: nat)
    requires i < |acts| < |xs|
  {
    Loses(f, xs[i], acts[i], xs[i + 1])
  }

  lemma LossAt(f: Focus, xs: seq<System>, acts: seq<Action>, i: nat)
    requires Story(f, xs, acts) && i < |acts| && NothingLostIn(f, xs, i)
    ensures NothingLostIn(f, xs, i + 1) <==> !LosesAt(f, xs, acts, i)
  {
    StoryKnown(f, xs, acts, i);
    assert ActAt(f, xs, acts, i);
    LosesExactly(f, xs[i], acts[i], xs[i + 1]);
  }

  lemma {:induction false} NothingLostSoFar(f: Focus, xs: seq<System>, acts: seq<Action>, i: nat)
    requires Story(f, xs, acts) && i < |xs| && forall k :: 0 <= k < i ==> !LosesAt(f, xs, acts, k)
    ensures NothingLostIn(f, xs, i)
    decreases i
  {
    if i == 0 {
      StartKnown(f, xs[0]);
    } else {
      NothingLostSoFar(f, xs, acts, i - 1);
      LossAt(f, xs, acts, i - 1);
    }
  }

  /**
   In every run, with publishes, resumes, replays and the client's goroutines overlapping: no frame is lost
   to a member if and only if no publish caches its frame while the client is a member the publish had not
   found, and no replay is given up with a cached publish left in it that is nowhere else.
   */
  lemma NothingLostIff(f: Focus, xs: seq<System>, acts: seq<Action>)
    requires Story(f, xs, acts)
    ensures (forall i :: 0 <= i < |xs| ==> NothingLostIn(f, xs, i)) <==> (forall i :: 0 <= i < |acts| ==> !LosesAt(f, xs, acts, i))
  {
    if i :| 0 <= i < |acts| && LosesAt(f, xs, acts, i) {
      if NothingLostIn(f, xs, i) {
        LossAt(f, xs, acts, i);
      }
    } else {
      forall i | 0 <= i < |xs|
        ensures NothingLostIn(f, xs, i)
      {
        NothingLostSoFar(f, xs, acts, i);
      }
    }
  }

  /**
   What that means for one publish, as long as nothing was lost: cached since the client subscribed, it is
   accepted, on its way, refused by the application since the last resume, or the client is no member.
   */
  lemma NothingLostInSilence(f: Focus, xs: seq<System>, acts: seq<Action>, i: nat, p: Cached)
    requires Story(f, xs, acts) && i < |xs| && forall k :: 0 <= k < i ==> !LosesAt(f, xs, acts, k)
    requires p in Stock(f, xs[i]) && p.seqNo !in xs[i].before
    ensures var x, n := xs[i], p.seqNo;
            n in x.accepted || OnLink(x, n) || Owed(f, x, n) || n in x.rejected || !Member(f, x)
  {
    NothingLostSoFar(f, xs, acts, i);
  }

  // ---------------------------------------------------------------- as a guard, and runs that fail it

  /** A section that is able to lose the client its frame: decided by the tables and the call before it runs. */
  ghost predicate Risky(f: Focus, x: System, id: nat) {
    && Coming(f, x.world, id) && Member(f, x) && x.link.value !in x.world.calls[id].members
    && CanStay(Appended(x.world.state, f.topic, x.world.calls[id].entry), f.topic, f.cfg.budget)
  }

  lemma CachedOrEvicted(f: Focus, x: System, id: nat, x': System)
    requires Coming(f, x.world, id) && Act(f, x, Serve(Remember(id)), x')
    ensures x.world.calls[id].entry in Stock(f, x') <== f.topic in x'.world.state.cache
    ensures f.topic in x'.world.state.cache ==> CanStay(Appended(x.world.state, f.topic, x.world.calls[id].entry), f.topic, f.cfg.budget)
  {
    var c := Appended(x.world.state, f.topic, x.world.calls[id].entry);
    EvictedLargestFirst(c, f.cfg.budget, x'.world.state.cache);
    assert c[f.topic][|c[f.topic]| - 1] == x.world.calls[id].entry;
    if f.topic in x'.world.state.cache {
      SparedFits(c, f.cfg.budget, x'.world.state.cache, f.topic);
    }
  }

  lemma ServesAs(f: Focus, x: System, e: Section, w: World)
    requires Step(f.cfg, x.world, e, w) && !e.Other?
    ensures Act(f, x, Serve(e), Served(f, x, e, w)) && Served(f, x, e, w).world == w
  {
  }

  /** The outcome of a caching section that keeps the topic. */
  lemma KeptOutcome(f: Focus, x: System, id: nat) returns (x': System)
    requires Coming(f, x.world, id)
    requires CanStay(Appended(x.world.state, f.topic, x.world.calls[id].entry), f.topic, f.cfg.budget)
    ensures Act(f, x, Serve(Remember(id)), x') && f.topic in x'.world.state.cache
  {
    var w := KeptWorld(f, x.world, id);
    ServesAs(f, x, Remember(id), w);
    x' := Served(f, x, Remember(id), w);
  }

  lemma KeptWorld(f: Focus, w: World, id: nat) returns (w': World)
    requires Coming(f, w, id) && CanStay(Appended(w.state, f.topic, w.calls[id].entry), f.topic, f.cfg.budget)
    ensures Step(f.cfg, w, Remember(id), w') && f.topic in w'.state.cache
  {
    var c := w.calls[id];
    var cache := Appended(w.state, f.topic, c.entry);
    SparedIff(cache, f.cfg.budget, f.topic);
    var kept :| Evicted(cache, f.cfg.budget, kept) && f.topic in kept;
    w' := World(w.state.(cache := kept), w.calls[id := Writing(c.topic, c.entry, c.members, {})]);
    assert Remembered(w.state, c.topic, c.entry, f.cfg.budget, w'.state);
  }

  /** Caching is sure to lose nothing exactly when the client is no member, or was found, or the topic is too heavy to stay. */
  lemma RiskyIff(f: Focus, x: System, id: nat)
    requires Known(f, x) && NothingLost(f, x) && Coming(f, x.world, id)
    ensures (forall x' :: Act(f, x, Serve(Remember(id)), x') ==> NothingLost(f, x')) <==> !Risky(f, x, id)
  {
    if Risky(f, x, id) {
      var x' := KeptOutcome(f, x, id);
      CachedOrEvicted(f, x, id, x');
      RememberLosesIff(f, x, id, x');
    } else {
      forall x' | Act(f, x, Serve(Remember(id)), x')
        ensures NothingLost(f, x')
      {
        CachedOrEvicted(f, x, id, x');
        RememberLosesIff(f, x, id, x');
      }
    }
  }

  /** A client subscribes while a publish to its topic is under way. */
  const LATE := System(
    World(State(map[5 := {1, 2}], map[9 := Session(2, {5}, 0)], map[2 := 9], map[], map[], []), map[0 := Admitted(5, [0], {1})]),
    NEW, Some(2), map[2 := NEW_PIPE], map[], {0}, [], {}, {})

  lemma LateIsReached(cfg: Config)
    ensures RaceInv(cfg, LATE.world) && Current(LATE.world, 5)
  {
    var ws, es := JoinsMidPublish(cfg);
    EveryInterleaving(cfg, ws, es, |ws| - 1);
  }

  lemma LateIsStart(cfg: Config)
    ensures Start(Focus(cfg, 9, 5), LATE)
  {
    LateIsReached(cfg);
    var f := Focus(cfg, 9, 5);
    StaysIn(f, LATE);
    assert Stock(f, LATE) == [] && StockNumbers(f, LATE) == {};
  }

  /** The publish that began before the client subscribed numbers its frame. */
  lemma NumberingGoesOn(cfg: Config, w0: World) returns (w1: World, w2: World)
    requires w0 == LATE.world
    ensures Step(cfg, w0, FindCounter(0), w1) && Step(cfg, w1, TakeNumber(0), w2)
    ensures w1.state == w0.state.(topicSeqs := map[5 := 0], counters := [0]) && w2.state == w1.state.(counters := [1])
    ensures NoneWriting(w1.calls) && w2.calls == map[0 := Encoded(5, Entry(1, [0]), {1})]
  {
    w1 := World(w0.state.(topicSeqs := map[5 := 0], counters := [0]), map[0 := Counting(5, [0], {1}, 0)]);
    w2 := World(w1.state.(counters := [1]), map[0 := Encoded(5, Entry(1, [0]), {1})]);
    assert Numbered(w0.state, 5) == w1.state && Increment(w1.state, 0) == w2.state;
  }

  /** And caches it. */
  lemma PublishGoesOn(cfg: Config, w0: World) returns (w1: World, w2: World, w3: World)
    requires cfg.budget >= 11 && w0 == LATE.world
    ensures Step(cfg, w0, FindCounter(0), w1) && Step(cfg, w1, TakeNumber(0), w2) && Step(cfg, w2, Remember(0), w3)
    ensures w1.state.subs == w2.state.subs == w3.state.subs == w0.state.subs
    ensures w1.state.sessions == w2.state.sessions == w3.state.sessions == w0.state.sessions
    ensures NoneWriting(w1.calls) && NoneWriting(w2.calls)
    ensures w3.state.cache == map[5 := [Entry(1, [0])]] && w3.calls == map[0 := Writing(5, Entry(1, [0]), {1}, {})]
  {
    w1, w2 := NumberingGoesOn(cfg, w0);
    assert |w2.calls[0].entry.buf| == 11 && Total(w2.state.cache) == 0;
    w3 := Caches(cfg, w2, 0);
    assert w3.state.cache == map[5 := [Entry(1, [0])]];
  }

  lemma StaysIn(f: Focus, x: System)
    requires f.topic == 5 && x.link == Some(2) && x.world.state.subs == map[5 := {1, 2}] && NoneWriting(x.world.calls)
    ensures Member(f, x)
  {
  }

  lemma NobodySendsIt(f: Focus, x: System)
    requires f.topic == 5 && x.world.calls == map[0 := Writing(5, Entry(1, [0]), {1}, {})] && x.pipes == map[2 := NEW_PIPE]
    requires x.world.state.cache == map[5 := [Entry(1, [0])]] && x.world.state.subs == map[5 := {1, 2}]
    requires x.link == Some(2) && x.accepted == [] && x.rejected == {} && x.before == {}
    ensures !NothingLost(f, x)
  {
    assert Stock(f, x)[0] == Entry(1, [0]) && Member(f, x);
    assert !Accounted(f, x, 1);
  }

  /** One section of the publish, added to the story. */
  lemma GoesOn(f: Focus, xs: seq<System>, acts: seq<Action>, e: Section, w: World) returns (ys: seq<System>, bcts: seq<Action>)
    requires f.topic == 5 && f.token == 9 && Goes(f, xs, acts) && Step(f.cfg, Final(xs).world, e, w) && !e.Write? && !e.Other?
    requires Final(xs).link == Some(2) && Final(xs).world.state.subs == map[5 := {1, 2}] && NoneWriting(Final(xs).world.calls)
    requires w.state.sessions == LATE.world.state.sessions
    ensures Goes(f, ys, bcts) && ys[0] == xs[0] && Final(ys) == Final(xs).(world := w)
  {
    StaysIn(f, Final(xs));
    ServesQuietly(f, Final(xs), e, w);
    ys, bcts := OneMoreAct(f, xs, acts, Serve(e), Final(xs).(world := w));
  }

  lemma LateStory(cfg: Config) returns (f: Focus, xs: seq<System>, acts: seq<Action>, w: World)
    requires cfg.budget >= 11
    ensures f == Focus(cfg, 9, 5) && Goes(f, xs, acts) && xs[0] == LATE && Final(xs) == LATE.(world := w)
    ensures w.calls == map[0 := Writing(5, Entry(1, [0]), {1}, {})]
    ensures w.state.cache == map[5 := [Entry(1, [0])]] && w.state.subs == map[5 := {1, 2}]
  {
    f, xs, acts := Focus(cfg, 9, 5), [LATE], [];
    var w1, w2, w3 := PublishGoesOn(cfg, LATE.world);
    xs, acts := GoesOn(f, xs, acts, FindCounter(0), w1);
    xs, acts := GoesOn(f, xs, acts, TakeNumber(0), w2);
    xs, acts := GoesOn(f, xs, acts, Remember(0), w3);
    w := w3;
  }

  /** The frame is numbered after the client became a member, is cached, and is neither written nor owed to it. */
  lemma LostFrameReachable(cfg: Config) returns (f: Focus, xs: seq<System>, acts: seq<Action>)
    requires cfg.budget >= 11
    ensures Story(f, xs, acts) && !NothingLost(f, Final(xs))
  {
    var w: World;
    f, xs, acts, w := LateStory(cfg);
    NobodySendsIt(f, LATE.(world := w));
    LateIsStart(cfg);
  }

  lemma NobodyReplaysIt(f: Focus, x: System)
    requires f.topic == 5 && x.link == Some(3) && 3 in x.pipes && x.pipes[3] == NEW_PIPE && x.world.state == RESUMED
    requires x.world.calls == map[0 := Writing(5, Entry(1, [0]), {2}, {})] && x.accepted == [] && x.rejected == {} && x.before == {}
    ensures !NothingLost(f, x)
  {
    assert Stock(f, x)[0] == Entry(1, [0]) && Member(f, x);
    assert !Accounted(f, x, 1);
  }

  /**
   The connection is lost before the frame is written, the client resumes, and the write of the replayed
   frame fails: the client is a member again, and nobody will send it the frame.
   */
  lemma AbandonedReplayReachable(cfg: Config) returns (f: Focus, xs: seq<System>, acts: seq<Action>)
    requires cfg.budget >= 11 && cfg.ttl >= 0
    ensures Story(f, xs, acts) && !NothingLost(f, Final(xs))
  {
    f, xs, acts := OneCached(cfg);
    xs, acts := ResumesWithOne(f, xs, acts);
    var x := Final(xs);
    var x' := Put(x, 3, NEW_PIPE);
    xs, acts := OneMoreAct(f, xs, acts, ReplayFails(3), x');
    NobodyReplaysIt(f, x');
    BeginningIsStart(cfg);
  }
}
