/**
 A publish that nothing overlaps is its sections in a row: the one step of `PubSubRuns` is a run of the
 step relation of `PubSubRaces`, so what is proved of every interleaving holds of the calls one by one.
 */
module PubSubSections {
  import opened Wire
  import opened PubSub
  import opened PubSubSteps
  import opened PubSubRuns
  import opened PubSubRaces

  /** Sections that lead from one world to another. */
  ghost predicate Leads(cfg: Config, w: World, es: seq<Section>, w': World)
    decreases |es|, 1
  {
    if es == [] then w == w' else exists m :: LeadsBy(cfg, w, es, m, w')
  }

  /** The last of them leads there from `m`. */
  ghost predicate LeadsBy(cfg: Config, w: World, es: seq<Section>, m: World, w': World)
    requires es != []
    decreases |es|, 0
  {
    Leads(cfg, w, es[..|es| - 1], m) && Step(cfg, m, es[|es| - 1], w')
  }

  lemma OneMoreSection(cfg: Config, w: World, es: seq<Section>, m: World, e: Section, w': World)
    requires Leads(cfg, w, es, m) && Step(cfg, m, e, w')
    ensures Leads(cfg, w, es + [e], w')
  {
    assert (es + [e])[..|es|] == es;
    assert LeadsBy(cfg, w, es + [e], m, w');
  }

  lemma LastSection(cfg: Config, w: World, es: seq<Section>, w': World) returns (m: World)
    requires es != [] && Leads(cfg, w, es, w')
    ensures Leads(cfg, w, es[..|es| - 1], m) && Step(cfg, m, es[|es| - 1], w')
  {
    m :| LeadsBy(cfg, w, es, m, w');
  }

  lemma {:induction false} LeadsOn(cfg: Config, w: World, es: seq<Section>, m: World, fs: seq<Section>, w': World)
    requires Leads(cfg, w, es, m) && Leads(cfg, m, fs, w')
    ensures Leads(cfg, w, es + fs, w')
    decreases |fs|
  {
    if fs == [] {
      assert es + fs == es;
    } else {
      var front := fs[..|fs| - 1];
      var v := LastSection(cfg, m, fs, w');
      LeadsOn(cfg, w, es, m, front, v);
      OneMoreSection(cfg, w, es + front, v, fs[|fs| - 1], w');
      assert es + front + [fs[|fs| - 1]] == es + fs;
    }
  }

  /** One member's write, and its removal if that fails. */
  lemma WrittenOnce(cfg: Config, w: World, id: nat, conn: Conn, ok: bool) returns (es: seq<Section>)
    requires id in w.calls && w.calls[id].Writing? && conn in w.calls[id].members && w.calls[id].failed == {}
    ensures var c := w.calls[id];
            Leads(cfg, w, es, World(if ok then w.state else Expel(w.state, c.topic, {conn}),
                                    w.calls[id := Writing(c.topic, c.entry, c.members - {conn}, {})]))
  {
    var c := w.calls[id];
    var m := World(w.state, w.calls[id := Writing(c.topic, c.entry, c.members - {conn}, if ok then {} else {conn})]);
    assert {} + {conn} == {conn} && {conn} - {conn} == {};
    OneMoreSection(cfg, w, [], w, Write(id, conn, ok), m);
    es := [] + [Write(id, conn, ok)];
    if !ok {
      var w' := World(Expel(w.state, c.topic, {conn}), w.calls[id := Writing(c.topic, c.entry, c.members - {conn}, {})]);
      assert m.calls[id := Writing(c.topic, c.entry, c.members - {conn}, {})] == w'.calls;
      OneMoreSection(cfg, w, es, m, Remove(id, conn), w');
      es := es + [Remove(id, conn)];
    }
  }

  /** How a call stands among others whose frame is cached and has yet to be written to `members`. */
  function StillTo(w: World, id: nat, s: State, members: set<Conn>): World
    requires id in w.calls && w.calls[id].Writing?
  {
    World(s, w.calls[id := Writing(w.calls[id].topic, w.calls[id].entry, members, {})])
  }

  /** The writes to the members that are left, in any order; `gone` have been removed from `s` before. */
  lemma {:induction false} WritesLead(cfg: Config, w: World, id: nat, failing: set<Conn>, s: State, members: set<Conn>, gone: set<Conn>)
    returns (es: seq<Section>)
    requires id in w.calls && w.calls[id].Writing?
    ensures var t := w.calls[id].topic;
            Leads(cfg, StillTo(w, id, Expel(s, t, gone), members), es, StillTo(w, id, Expel(s, t, gone + members * failing), {}))
    decreases |members|
  {
    var t := w.calls[id].topic;
    if members == {} {
      assert gone + members * failing == gone;
      return [];
    }
    var conn :| conn in members;
    var left := if conn in failing then gone + {conn} else gone;
    es := FirstWrite(cfg, w, id, failing, s, members, gone, conn);
    var fs := WritesLead(cfg, w, id, failing, s, members - {conn}, left);
    assert left + (members - {conn}) * failing == gone + members * failing;
    LeadsOn(cfg, StillTo(w, id, Expel(s, t, gone), members), es, StillTo(w, id, Expel(s, t, left), members - {conn}), fs,
            StillTo(w, id, Expel(s, t, gone + members * failing), {}));
    es := es + fs;
  }

  lemma FirstWrite(cfg: Config, w: World, id: nat, failing: set<Conn>, s: State, members: set<Conn>, gone: set<Conn>, conn: Conn)
    returns (es: seq<Section>)
    requires id in w.calls && w.calls[id].Writing? && conn in members
    ensures var t := w.calls[id].topic;
            Leads(cfg, StillTo(w, id, Expel(s, t, gone), members), es,
                  StillTo(w, id, Expel(s, t, if conn in failing then gone + {conn} else gone), members - {conn}))
  {
    var t := w.calls[id].topic;
    var m := StillTo(w, id, Expel(s, t, gone), members);
    ExpelTwice(s, t, gone, {conn});
    es := WrittenOnce(cfg, m, id, conn, conn !in failing);
    assert m.calls[id := Writing(t, w.calls[id].entry, members - {conn}, {})] == w.calls[id := Writing(t, w.calls[id].entry, members - {conn}, {})];
  }

  /** A call among others. */
  function Having(s: State, w: World, id: nat, c: Call): World {
    World(s, w.calls[id := c])
  }

  lemma TakesNumber(cfg: Config, w: World, id: nat, t: Topic, payload: seq<byte>, members: set<Conn>)
    requires id !in w.calls && CountersSound(w.state) && LastSeq(w.state, t) < MAX_SEQUENCE
    ensures var n, s := Numbered(w.state, t), Mint(w.state, t);
            Step(cfg, Having(n, w, id, Counting(t, payload, members, n.topicSeqs[t])), TakeNumber(id),
                 if Encodable(payload) then Having(s, w, id, Encoded(t, Entry(LastSeq(s, t), payload), members)) else World(s, w.calls))
  {
    var n, s := Numbered(w.state, t), Mint(w.state, t);
    MintCounts(w.state, t);
    var calls := w.calls[id := Counting(t, payload, members, n.topicSeqs[t])];
    assert calls - {id} == w.calls;
    assert calls[id := Encoded(t, Entry(LastSeq(s, t), payload), members)] == w.calls[id := Encoded(t, Entry(LastSeq(s, t), payload), members)];
  }

  lemma FindsCounter(cfg: Config, w: World, id: nat, t: Topic, payload: seq<byte>, members: set<Conn>)
    ensures var n := Numbered(w.state, t);
            Step(cfg, Having(w.state, w, id, Admitted(t, payload, members)), FindCounter(id),
                 Having(n, w, id, Counting(t, payload, members, n.topicSeqs[t])))
  {
    var n := Numbered(w.state, t);
    assert w.calls[id := Admitted(t, payload, members)][id := Counting(t, payload, members, n.topicSeqs[t])] ==
           w.calls[id := Counting(t, payload, members, n.topicSeqs[t])];
  }

  /** Entering, finding the counter and taking a number. */
  lemma NumberingLeads(cfg: Config, w: World, id: nat, t: Topic, payload: seq<byte>) returns (es: seq<Section>)
    requires id !in w.calls && Held(w.state, t) && CountersSound(w.state) && LastSeq(w.state, t) < MAX_SEQUENCE
    ensures var s, members := Mint(w.state, t), At(w.state.subs, t);
            Leads(cfg, w, es, if Encodable(payload) then Having(s, w, id, Encoded(t, Entry(LastSeq(s, t), payload), members)) else World(s, w.calls))
  {
    var members, n, s := At(w.state.subs, t), Numbered(w.state, t), Mint(w.state, t);
    var w1 := Having(w.state, w, id, Admitted(t, payload, members));
    var w2 := Having(n, w, id, Counting(t, payload, members, n.topicSeqs[t]));
    FindsCounter(cfg, w, id, t, payload, members);
    TakesNumber(cfg, w, id, t, payload, members);
    OneMoreSection(cfg, w, [], w, Enter(id, t, payload), w1);
    OneMoreSection(cfg, w, [] + [Enter(id, t, payload)], w1, FindCounter(id), w2);
    OneMoreSection(cfg, w, [] + [Enter(id, t, payload)] + [FindCounter(id)], w2, TakeNumber(id),
                   if Encodable(payload) then Having(s, w, id, Encoded(t, Entry(LastSeq(s, t), payload), members)) else World(s, w.calls));
    es := [] + [Enter(id, t, payload)] + [FindCounter(id)] + [TakeNumber(id)];
  }

  /**
   Whatever a publish on its own may do to the tables, its sections in a row can do, whoever else is in
   the middle of a publish of his own.
   */
  lemma PublishIsSections(cfg: Config, w: World, id: nat, t: Topic, payload: seq<byte>, failing: set<Conn>, s': State)
    returns (es: seq<Section>, w': World)
    requires id !in w.calls && Tidy(w.state) && CountersSound(w.state) && LastSeq(w.state, t) < MAX_SEQUENCE
    requires Published(w.state, t, payload, failing, cfg.budget, s')
    ensures Leads(cfg, w, es, w') && w'.state == s' && w'.calls - {id} == w.calls
  {
    assert w.calls - {id} == w.calls;
    if !Held(w.state, t) {
      return [], w;
    }
    es := NumberingLeads(cfg, w, id, t, payload);
    if !Encodable(payload) {
      w' := World(s', w.calls);
      return;
    }
    var m, members := Mint(w.state, t), At(w.state.subs, t);
    var p := Entry(LastSeq(m, t), payload);
    var r :| Remembered(m, t, p, cfg.budget, r) && s' == Expel(r, t, members * failing);
    RememberedStaysHeld(cfg, w.state, t, p, r);
    CachesFrame(cfg, w, id, t, p, members, m, r);
    OneMoreSection(cfg, w, es, Having(m, w, id, Encoded(t, p, members)), Remember(id), Having(r, w, id, Writing(t, p, members, {})));
    var fs;
    fs, w' := AllWritesLead(cfg, w, id, t, p, members, failing, r);
    LeadsOn(cfg, w, es + [Remember(id)], Having(r, w, id, Writing(t, p, members, {})), fs, w');
    es := es + [Remember(id)] + fs;
    assert w'.calls - {id} == w.calls;
  }

  lemma RememberedStaysHeld(cfg: Config, s: State, t: Topic, p: Cached, r: State)
    requires Tidy(s) && Held(s, t) && Remembered(Mint(s, t), t, p, cfg.budget, r)
    ensures (forall u :: u in r.subs ==> r.subs[u] != {}) && Held(r, t)
  {
    assert Records(r, t) <==> Records(s, t);
  }

  lemma CachesFrame(cfg: Config, w: World, id: nat, t: Topic, p: Cached, members: set<Conn>, m: State, r: State)
    requires Remembered(m, t, p, cfg.budget, r)
    ensures Step(cfg, Having(m, w, id, Encoded(t, p, members)), Remember(id), Having(r, w, id, Writing(t, p, members, {})))
  {
    assert w.calls[id := Encoded(t, p, members)][id := Writing(t, p, members, {})] == w.calls[id := Writing(t, p, members, {})];
  }

  lemma AllWritesLead(cfg: Config, w: World, id: nat, t: Topic, p: Cached, members: set<Conn>, failing: set<Conn>, r: State)
    returns (es: seq<Section>, w': World)
    requires (forall u :: u in r.subs ==> r.subs[u] != {}) && Held(r, t)
    ensures w' == Having(Expel(r, t, members * failing), w, id, Writing(t, p, {}, {}))
    ensures Leads(cfg, Having(r, w, id, Writing(t, p, members, {})), es, w')
  {
    var v := Having(r, w, id, Writing(t, p, members, {}));
    w' := Having(Expel(r, t, members * failing), w, id, Writing(t, p, {}, {}));
    ExpelNobody(r, t);
    es := WritesLead(cfg, v, id, failing, r, members, {});
    assert {} + members * failing == members * failing;
    assert v.calls[id := Writing(t, p, members, {})] == v.calls && v.calls[id := Writing(t, p, {}, {})] == w'.calls;
  }

  lemma {:induction false} LeadsIsRun(cfg: Config, es: seq<Section>, w: World) returns (ws: seq<World>)
    requires Leads(cfg, World(EMPTY, map[]), es, w)
    ensures RaceRun(cfg, ws, es) && ws[|ws| - 1] == w
    decreases |es|
  {
    if es == [] {
      return [w];
    }
    var front := es[..|es| - 1];
    var m := LastSection(cfg, World(EMPTY, map[]), es, w);
    var vs := LeadsIsRun(cfg, front, m);
    ws := vs + [w];
    forall i | 0 <= i < |es|
      ensures StepAt(cfg, ws, es, i)
    {
      if i < |front| {
        assert StepAt(cfg, vs, front, i);
      }
    }
  }

  /** Every run with each publish as one step is a run of sections, so what holds of all of those holds of it. */
  lemma {:induction false} RunIsRace(cfg: Config, states: seq<State>, events: seq<Event>, i: nat) returns (es: seq<Section>, w: World)
    requires Run(cfg, states, events) && states[0] == EMPTY && i < |states|
    ensures Leads(cfg, World(EMPTY, map[]), es, w) && w.state == states[i] && forall id :: id in w.calls ==> id < i
    ensures exists ws :: RaceRun(cfg, ws, es) && ws[|ws| - 1] == w
    decreases i
  {
    es, w := [], World(EMPTY, map[]);
    if i > 0 {
      RunKeeps(cfg, states, events, i - 1);
      var v, fs;
      es, v := RunIsRace(cfg, states, events, i - 1);
      fs, w := EventIsSections(cfg, v, i - 1, events[i - 1], states[i]);
      LeadsOn(cfg, World(EMPTY, map[]), es, v, fs, w);
      es := es + fs;
    }
    var ws := LeadsIsRun(cfg, es, w);
  }

  lemma EventIsSections(cfg: Config, w: World, id: nat, e: Event, s': State) returns (es: seq<Section>, w': World)
    requires id !in w.calls && Inv(cfg, w.state) && Assumed(w.state, e) && Next(cfg, w.state, e, s')
    ensures Leads(cfg, w, es, w') && w'.state == s' && w'.calls.Keys <= w.calls.Keys + {id}
  {
    if e.Send? {
      es, w' := PublishIsSections(cfg, w, id, e.topic, e.payload, e.failing, s');
      assert w'.calls.Keys <= (w'.calls - {id}).Keys + {id};
    } else {
      w' := World(s', w.calls);
      OneMoreSection(cfg, w, [], w, Other(e), w');
      es := [] + [Other(e)];
    }
  }
}
