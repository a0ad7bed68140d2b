/**
 What the counters and the registry gate are for: the sweep catches every accepted connection, the
 handler counts are exact, and what a clean shutdown verdict does and does not promise.
 */
module ReactorShutdown {
  import opened Reactor

  // ---------------------------------------------------------------- the sweep

  lemma NoneAdded(s: State, e: Event)
    requires Enabled(s, e) && s.swept && (forall w :: 0 <= w < |s.workers| ==> WorkerOk(s, w))
    ensures Apply(s, e).swept && Apply(s, e).jobs.Keys == s.jobs.Keys
  {
    if e.Start? || e.Count? || e.Spawn? {
      assert s.workers[e.w].loop.c in s.jobs;
    }
  }

  /**
   Once the sweep is over every connection the registry ever accepted has been closed, and no step
   adds another, so a handler that still runs does so on a closed connection.
   */
  lemma SweepCatchesAll(s: State, e: Event)
    requires Base(s) && s.swept && Enabled(s, e)
    ensures s.jobs.Keys <= s.closed
    ensures Apply(s, e).swept && Apply(s, e).jobs.Keys == s.jobs.Keys
  {
    forall c | c in s.jobs
      ensures c in s.closed
    {
      assert JobOk(s, c);
    }
    NoneAdded(s, e);
  }

  lemma {:induction false} SweptForGood(s: State, es: seq<Event>)
    requires Base(s) && s.swept && Possible(s, es)
    ensures Base(Run(s, es)) && Run(s, es).swept
    ensures Run(s, es).jobs.Keys == s.jobs.Keys <= Run(s, es).closed
    decreases |es|
  {
    if es == [] {
      assert forall c :: c in s.jobs ==> JobOk(s, c);
    } else {
      SweepCatchesAll(s, es[0]);
      StepKeepsBase(s, es[0]);
      SweptForGood(Apply(s, es[0]), es[1..]);
    }
  }

  // ---------------------------------------------------------------- the counters

  predicate Flying(stage: Stage) {
    !stage.Registered? && !stage.Finished?
  }

  predicate Loaded(stage: Stage) {
    stage.Counted? || stage.Serving? || stage.Shut? || stage.Unlisted?
  }

  function InFlight(jobs: map<Conn, Job>): set<Conn> {
    set c | c in jobs && Flying(jobs[c].stage)
  }

  function LoadOf(jobs: map<Conn, Job>, w: nat): set<Conn> {
    set c | c in jobs && jobs[c].w == w && Loaded(jobs[c].stage)
  }

  /** `active` counts the handlers between start and finish, `count` those of one worker. */
  predicate Tally(s: State) {
    s.active == |InFlight(s.jobs)| && forall w :: 0 <= w < |s.workers| ==> s.workers[w].count == |LoadOf(s.jobs, w)|
  }

  /** A set after one element has been put in or taken out. */
  lemma OneChanged(before: set<Conn>, after: set<Conn>, c: Conn)
    requires before - {c} == after - {c}
    ensures |after| == |before| - (if c in before then 1 else 0) + (if c in after then 1 else 0)
  {
    assert before == before - {c} + (if c in before then {c} else {});
    assert after == after - {c} + (if c in after then {c} else {});
  }

  /** One job's change of stage, as the two counts see it. */
  lemma JobMoves(jobs: map<Conn, Job>, c: Conn, job: Job)
    ensures |InFlight(jobs[c := job])| ==
            |InFlight(jobs)| - (if c in InFlight(jobs) then 1 else 0) + (if Flying(job.stage) then 1 else 0)
  {
    OneChanged(InFlight(jobs), InFlight(jobs[c := job]), c);
  }

  lemma LoadMoves(jobs: map<Conn, Job>, c: Conn, job: Job, w: nat)
    ensures |LoadOf(jobs[c := job], w)| ==
            |LoadOf(jobs, w)| - (if c in LoadOf(jobs, w) then 1 else 0) + (if w == job.w && Loaded(job.stage) then 1 else 0)
  {
    OneChanged(LoadOf(jobs, w), LoadOf(jobs[c := job], w), c);
  }

  lemma JobKeepsTally(s: State, e: Event, c: Conn, job: Job)
    requires Tally(s) && Enabled(s, e) && Apply(s, e).jobs == s.jobs[c := job] && |Apply(s, e).workers| == |s.workers|
    requires Apply(s, e).active == s.active - (if c in InFlight(s.jobs) then 1 else 0) + (if Flying(job.stage) then 1 else 0)
    requires forall w :: 0 <= w < |s.workers| ==>
                           Apply(s, e).workers[w].count ==
                           s.workers[w].count - (if c in LoadOf(s.jobs, w) then 1 else 0) + (if w == job.w && Loaded(job.stage) then 1 else 0)
    ensures Tally(Apply(s, e))
  {
    JobMoves(s.jobs, c, job);
    forall w | 0 <= w < |s.workers|
      ensures Apply(s, e).workers[w].count == |LoadOf(Apply(s, e).jobs, w)|
    {
      LoadMoves(s.jobs, c, job, w);
    }
  }

  lemma StartKeepsTally(s: State, e: Event, c: Conn)
    requires Tally(s) && Enabled(s, e) && (e.Start? || e.Count? || e.Spawn?)
    requires c == s.workers[e.w].loop.c && c in s.jobs && s.jobs[c].w == e.w
    ensures Tally(Apply(s, e))
  {
    JobKeepsTally(s, e, c, Apply(s, e).jobs[c]);
  }

  lemma LoopKeepsTally(s: State, e: Event)
    requires Base(s) && Tally(s) && Enabled(s, e) && ByLoop(e)
    ensures Tally(Apply(s, e))
  {
    var loop := s.workers[e.w].loop;
    assert WorkerOk(s, e.w);
    if e.Start? || e.Count? || e.Spawn? {
      StartKeepsTally(s, e, loop.c);
    } else if e.Admit? && !s.swept {
      JobKeepsTally(s, e, loop.c, Job(e.w, Registered));
    }
  }

  lemma OthersKeepTally(s: State, e: Event)
    requires Base(s) && Tally(s) && Enabled(s, e) && !ByLoop(e)
    ensures Tally(Apply(s, e))
  {
    if ByHandler(e) {
      JobKeepsTally(s, e, e.c, Apply(s, e).jobs[e.c]);
    }
  }

  lemma {:induction false} RunKeepsTally(s: State, es: seq<Event>)
    requires Base(s) && Tally(s) && Possible(s, es)
    ensures Base(Run(s, es)) && Tally(Run(s, es))
    decreases |es|
  {
    if es != [] {
      if ByLoop(es[0]) { LoopKeepsTally(s, es[0]); } else { OthersKeepTally(s, es[0]); }
      StepKeepsBase(s, es[0]);
      RunKeepsTally(Apply(s, es[0]), es[1..]);
    }
  }

  /** In every interleaving the counters are exact. */
  lemma CountersAreExact(n: nat, es: seq<Event>)
    requires Possible(Fresh(n), es)
    ensures Base(Run(Fresh(n), es)) && Tally(Run(Fresh(n), es))
  {
    FreshIsBase(n);
    RunKeepsTally(Fresh(n), es);
  }

  // ---------------------------------------------------------------- the verdict

  /**
   A run without late sends after which every loop has exited, every `Dispatch` has returned and no
   handler is active has closed every connection it was given.
   */
  lemma CleanShutdown(n: nat, es: seq<Event>)
    requires Possible(Fresh(n), es) && Prompt(Fresh(n), es)
    requires var s := Run(Fresh(n), es);
             && s.active == 0 && (forall w :: 0 <= w < |s.workers| ==> s.workers[w].loop.Exited?)
             && (forall c :: c in s.calls ==> s.calls[c].Settled? || s.calls[c].Failed? || s.calls[c].Refused?)
    ensures Run(Fresh(n), es).calls.Keys <= Run(Fresh(n), es).closed
  {
    var s := Run(Fresh(n), es);
    CountersAreExact(n, es);
    EveryConnectionHasAnOwner(n, es);
    assert InFlight(s.jobs) == {};
    forall c | c in s.calls
      ensures c in s.closed
    {
      if c in s.jobs {
        assert JobOk(s, c) && c !in InFlight(s.jobs);
      }
    }
  }

  /** Nothing was accepted whose handler has yet to be counted. */
  predicate NoneStarting(s: State) {
    forall c :: c in s.jobs ==> !s.jobs[c].stage.Registered?
  }

  lemma {:induction false} QuietForGood(s: State, es: seq<Event>)
    requires Base(s) && Tally(s) && s.swept && s.active == 0 && NoneStarting(s) && Possible(s, es)
    ensures Run(s, es).active == 0
    decreases |es|
  {
    if es != [] {
      var e := es[0];
      assert InFlight(s.jobs) == {};
      forall c | c in s.jobs
        ensures s.jobs[c].stage.Finished?
      {
        assert c !in InFlight(s.jobs);
      }
      SweepCatchesAll(s, e);
      StepKeepsBase(s, e);
      if ByLoop(e) { LoopKeepsTally(s, e); } else { OthersKeepTally(s, e); }
      assert Apply(s, e).active == 0 && NoneStarting(Apply(s, e));
      QuietForGood(Apply(s, e), es[1..]);
    }
  }

  /** A loop that has accepted a connection can count its handler next. */
  lemma StartIsNext(s: State, c: Conn) returns (es: seq<Event>)
    requires Base(s) && c in s.jobs && s.jobs[c].stage.Registered?
    ensures Possible(s, es) && Run(s, es).active == s.active + 1
  {
    assert JobOk(s, c);
    var e := Start(s.jobs[c].w);
    es := [e];
    assert es[1..] == [] && Possible(Apply(s, e), []) && Run(Apply(s, e), []) == Apply(s, e);
  }

  /**
   After the sweep, a reading of zero active handlers is final exactly when no loop is between
   accepting a connection and counting its handler.
   */
  lemma VerdictIsFinal(s: State)
    requires Base(s) && Tally(s) && s.swept && s.active == 0
    ensures NoneStarting(s) <==> forall es :: Possible(s, es) ==> Run(s, es).active == 0
  {
    if NoneStarting(s) {
      forall es | Possible(s, es)
        ensures Run(s, es).active == 0
      {
        QuietForGood(s, es);
      }
    } else {
      var c :| c in s.jobs && s.jobs[c].stage.Registered?;
      var es := StartIsNext(s, c);
    }
  }

  /** The handler has been counted and has not given its count back. */
  predicate Underway(stage: Stage) {
    stage.Started? || stage.Counted? || stage.Serving? || stage.Shut? || stage.Unlisted? || stage.Uncounted?
  }

  ghost predicate NoneUnderway(s: State) {
    forall c :: c in s.jobs ==> !Underway(s.jobs[c].stage)
  }

  lemma ActiveIff(s: State)
    requires Tally(s)
    ensures s.active == 0 <==> NoneUnderway(s)
  {
    if s.active == 0 {
      assert InFlight(s.jobs) == {};
      forall c | c in s.jobs
        ensures !Underway(s.jobs[c].stage)
      {
        assert c !in InFlight(s.jobs);
      }
    } else {
      var c :| c in InFlight(s.jobs);
    }
  }

  /** In every run the verdict is a success exactly if no handler is under way when it is read. */
  lemma VerdictIff(n: nat, es: seq<Event>)
    requires Possible(Fresh(n), es) && Enabled(Run(Fresh(n), es), AwaitDone)
    ensures Apply(Run(Fresh(n), es), AwaitDone).driver == Over(NoneUnderway(Run(Fresh(n), es)))
  {
    CountersAreExact(n, es);
    ActiveIff(Run(Fresh(n), es));
  }

  /** A run up to its k-th step is a run, and that step is possible behind it. */
  lemma {:induction false} Prefix(s: State, es: seq<Event>, k: nat)
    requires Possible(s, es) && k < |es|
    ensures Possible(s, es[..k]) && Enabled(Run(s, es[..k]), es[k])
    ensures Possible(s, es[..k + 1]) && Run(s, es[..k + 1]) == Apply(Run(s, es[..k]), es[k])
    decreases |es|
  {
    if k == 0 {
      assert es[..1][1..] == [] && Possible(Apply(s, es[0]), []);
    } else {
      Prefix(Apply(s, es[0]), es[1..], k - 1);
      assert es[..k][1..] == es[1..][..k - 1] && es[..k + 1][1..] == es[1..][..k];
    }
  }

  /** The verdict was read in this state, with the sweep over and every worker cancelled. */
  ghost predicate ReadIn(s: State, clean: bool) {
    s.driver.Awaiting? && s.swept && (forall w :: 0 <= w < |s.workers| ==> s.workers[w].cancelled) && (clean <==> NoneUnderway(s))
  }

  /** A run that ends with a verdict has passed through a swept state with all workers cancelled of which it was true. */
  lemma {:induction false} VerdictWasTrue(n: nat, es: seq<Event>, clean: bool) returns (k: nat)
    requires Possible(Fresh(n), es) && Run(Fresh(n), es).driver == Over(clean)
    ensures k < |es| && es[k] == AwaitDone && Possible(Fresh(n), es[..k]) && ReadIn(Run(Fresh(n), es[..k]), clean)
    decreases |es|
  {
    var last := |es| - 1;
    Prefix(Fresh(n), es, last);
    assert es[..last + 1] == es;
    var s := Run(Fresh(n), es[..last]);
    if es[last] == AwaitDone {
      VerdictIff(n, es[..last]);
      CountersAreExact(n, es[..last]);
      return last;
    }
    assert s.driver == Over(clean);
    k := VerdictWasTrue(n, es[..last], clean);
    assert es[..last][..k] == es[..k];
  }

  /**
   A serving handler can always end, in five steps: its connection is closed at once, and in the end it is
   off the registry and both counts are one lower.
   */
  lemma HandlerCanEnd(s: State, c: Conn) returns (s1: State, s2: State, s3: State, s4: State, s5: State)
    requires Base(s) && AtStage(s, c, Serving) && !s.driver.Sweeping?
    ensures Enabled(s, HandlerCloses(c)) && s1 == Apply(s, HandlerCloses(c)) && c in s1.closed
    ensures Enabled(s1, Return(c)) && s2 == Apply(s1, Return(c)) && Enabled(s2, Unlist(c)) && s3 == Apply(s2, Unlist(c))
    ensures Enabled(s3, Uncount(c)) && s4 == Apply(s3, Uncount(c)) && Enabled(s4, Finish(c)) && s5 == Apply(s4, Finish(c))
    ensures AtStage(s5, c, Finished) && c in s5.closed && s5.listed == s.listed - {c} && s5.active == s.active - 1
    ensures var w := s.jobs[c].w; w < |s.workers| && s5.workers == s.workers[w := s.workers[w].(count := s.workers[w].count - 1)]
  {
    assert JobOk(s, c);
    s1 := Apply(s, HandlerCloses(c));
    s2 := Apply(s1, Return(c));
    s3 := Apply(s2, Unlist(c));
    s4 := Apply(s3, Uncount(c));
    s5 := Apply(s4, Finish(c));
  }

  /** A caller without a worker, or whose worker has been cancelled while it waits to queue, can always give up: connection closed, error returned. */
  lemma CallerCanGiveUp(s: State, c: Conn) returns (s1: State, s2: State)
    requires c in s.calls
    requires s.calls[c].Holding? || (s.calls[c].Picked? && s.calls[c].w < |s.workers| && s.workers[s.calls[c].w].cancelled)
    ensures Enabled(s, TurnAway(c)) && s1 == Apply(s, TurnAway(c)) && Enabled(s1, Discard(c)) && s2 == Apply(s1, Discard(c))
    ensures Stands(s2, c, Refused) && c in s2.closed && s2.workers == s.workers
  {
    s1 := Apply(s, TurnAway(c));
    s2 := Apply(s1, Discard(c));
  }

  /**
   A caller whose worker's queue has room can always queue its connection, at the end, and re-check: all is
   well if the worker has not been cancelled, and otherwise it closes the connection and returns an error.
   */
  lemma CallerCanQueue(s: State, c: Conn, w: nat) returns (s1: State, s2: State, s3: State)
    requires Stands(s, c, Holding) && w < |s.workers| && |s.workers[w].queue| < 100
    ensures Enabled(s, Pick(c, w)) && s1 == Apply(s, Pick(c, w)) && Enabled(s1, Send(c)) && s2 == Apply(s1, Send(c))
    ensures Enabled(s2, Recheck(c)) && s3 == Apply(s2, Recheck(c))
    ensures s3.workers == s.workers[w := s.workers[w].(queue := s.workers[w].queue + [c])] && s3.closed == s.closed
    ensures !s.workers[w].cancelled ==> Stands(s3, c, Settled(w))
    ensures s.workers[w].cancelled ==>
              Stands(s3, c, Late(w)) && Enabled(s3, Discard(c)) && Stands(Apply(s3, Discard(c)), c, Failed(w)) && c in Apply(s3, Discard(c)).closed
  {
    s1 := Apply(s, Pick(c, w));
    s2 := Apply(s1, Send(c));
    s3 := Apply(s2, Recheck(c));
  }

  /** A loop that drains its queue can always close the first connection in it, or leave when there is none. */
  lemma LoopCanDrain(s: State, w: nat) returns (s1: State, s2: State)
    requires w < |s.workers| && s.workers[w].loop.Draining?
    ensures s.workers[w].queue == [] ==> Enabled(s, Exit(w)) && s1 == Apply(s, Exit(w)) && s1.workers[w].loop.Exited? && s2 == s1
    ensures var q := s.workers[w].queue;
            q != [] ==>
              && Enabled(s, DrainOne(w)) && s1 == Apply(s, DrainOne(w)) && Enabled(s1, DropOne(w)) && s2 == Apply(s1, DropOne(w))
              && s2.closed == s.closed + {q[0]} && s2.workers == s.workers[w := s.workers[w].(queue := q[1..])]
  {
    if s.workers[w].queue == [] {
      s1 := Apply(s, Exit(w));
      s2 := s1;
    } else {
      s1 := Apply(s, DrainOne(w));
      s2 := Apply(s1, DropOne(w));
    }
  }

  /** A worker's queue never holds more than a hundred connections. */
  lemma {:induction false} QueueIsBounded(s: State, es: seq<Event>, w: nat)
    requires Possible(s, es) && w < |Run(s, es).workers| == |s.workers| && |s.workers[w].queue| <= 100
    ensures |Run(s, es).workers[w].queue| <= 100
    decreases |es|
  {
    if es != [] {
      WorkersStay(s, es[0]);
      WorkersStayOn(Apply(s, es[0]), es[1..]);
      QueueIsBounded(Apply(s, es[0]), es[1..], w);
    }
  }

  lemma WorkersStay(s: State, e: Event)
    requires Enabled(s, e)
    ensures |Apply(s, e).workers| == |s.workers|
  {
  }

  lemma {:induction false} WorkersStayOn(s: State, es: seq<Event>)
    requires Possible(s, es)
    ensures |Run(s, es).workers| == |s.workers|
    decreases |es|
  {
    if es != [] {
      WorkersStay(s, es[0]);
      WorkersStayOn(Apply(s, es[0]), es[1..]);
    }
  }

  // ---------------------------------------------------------------- what shutdown can miss

  lemma {:induction false} RunThen(s: State, es: seq<Event>, e: Event)
    requires Possible(s, es) && Enabled(Run(s, es), e)
    ensures Possible(s, es + [e]) && Run(s, es + [e]) == Apply(Run(s, es), e)
    decreases |es|
  {
    if es == [] {
      assert [e][1..] == [] && Possible(Apply(s, e), []);
    } else {
      RunThen(Apply(s, es[0]), es[1..], e);
      assert (es + [e])[1..] == es[1..] + [e];
    }
  }

  /** A state that a system of one worker can be in, with the run that leads there. */
  ghost predicate ReachedBy(es: seq<Event>, s: State) {
    Possible(Fresh(1), es) && Run(Fresh(1), es) == s
  }

  lemma Extended(es: seq<Event>, s: State, e: Event, t: State) returns (es': seq<Event>)
    requires ReachedBy(es, s) && Enabled(s, e) && Apply(s, e) == t
    ensures ReachedBy(es', t)
  {
    RunThen(Fresh(1), es, e);
    es' := es + [e];
  }

  /** A system of one worker and one connection whose `Dispatch` call stands at `call`. */
  function One(call: Call, wk: Worker, driver: Driver): State {
    State(map[0 := call], [wk], map[], {}, driver.Swept? || driver.Awaiting? || driver.Over?, {}, 0, driver)
  }

  /** One connection dispatched and queued. */
  lemma OneSent() returns (es: seq<Event>)
    ensures ReachedBy(es, One(Sent(0), Worker([0], Running, false, 0), Idle))
  {
    var s, wk := Fresh(1), Worker([], Running, false, 0);
    assert s.workers == [wk] && ReachedBy([], s);
    es := Extended([], s, Dispatch(0), One(Holding, wk, Idle));
    es := Extended(es, One(Holding, wk, Idle), Pick(0, 0), One(Picked(0), wk, Idle));
    assert [] + [0] == [0];
    es := Extended(es, One(Picked(0), wk, Idle), Send(0), One(Sent(0), Worker([0], Running, false, 0), Idle));
  }

  /** One connection settled and taken off the queue. */
  lemma OneTaken() returns (es: seq<Event>)
    ensures ReachedBy(es, One(Settled(0), Worker([], Took(0), false, 0), Idle))
  {
    es := OneSent();
    es := Extended(es, One(Sent(0), Worker([0], Running, false, 0), Idle), Recheck(0), One(Settled(0), Worker([0], Running, false, 0), Idle));
    assert [0][1..] == [];
    es := Extended(es, One(Settled(0), Worker([0], Running, false, 0), Idle), Take(0), One(Settled(0), Worker([], Took(0), false, 0), Idle));
  }

  /** The sweep runs before the loop offers its connection. */
  lemma SweptFirst() returns (es: seq<Event>)
    ensures ReachedBy(es, One(Settled(0), Worker([], Took(0), false, 0), Driver.Swept))
  {
    es := OneTaken();
    var wk, was := Worker([], Took(0), false, 0), Settled(0);
    es := Extended(es, One(was, wk, Idle), Shutdown, One(was, wk, Waiting));
    es := Extended(es, One(was, wk, Waiting), BeginSweep, One(was, wk, Sweeping({})));
    es := Extended(es, One(was, wk, Sweeping({})), EndSweep, One(was, wk, Driver.Swept));
  }

  /** The loop is rejected and exits, not yet cancelled. */
  lemma RejectedExit() returns (es: seq<Event>)
    ensures ReachedBy(es, One(Settled(0), Worker([], Exited, false, 0), Driver.Swept).(closed := {0}))
  {
    es := SweptFirst();
    var wk, was := Worker([], Took(0), false, 0), Settled(0);
    var rej := One(was, Worker([], Rejected(0), false, 0), Driver.Swept);
    es := Extended(es, One(was, wk, Driver.Swept), Admit(0), rej);
    var dra := One(was, Worker([], Draining, false, 0), Driver.Swept).(closed := {0});
    es := Extended(es, rej, DropRejected(0), dra);
    es := Extended(es, dra, Exit(0), One(was, Worker([], Exited, false, 0), Driver.Swept).(closed := {0}));
  }

  /** A second connection on its way into the queue the loop has left. */
  function Two(call: Call, wk: Worker, driver: Driver): State {
    State(map[0 := Settled(0), 1 := call], [wk], map[], {}, true, {0}, 0, driver)
  }

  /** A connection dispatched in that window. */
  lemma LateSend() returns (es: seq<Event>)
    ensures ReachedBy(es, Two(Sent(0), Worker([1], Exited, false, 0), Driver.Swept))
  {
    es := RejectedExit();
    var wk, had := Worker([], Exited, false, 0), Worker([1], Exited, false, 0);
    es := Extended(es, One(Settled(0), wk, Driver.Swept).(closed := {0}), Dispatch(1), Two(Holding, wk, Driver.Swept));
    es := Extended(es, Two(Holding, wk, Driver.Swept), Pick(1, 0), Two(Picked(0), wk, Driver.Swept));
    assert [] + [1] == [1];
    es := Extended(es, Two(Picked(0), wk, Driver.Swept), Send(1), Two(Sent(0), had, Driver.Swept));
  }

  /** Its caller is told that all is well. */
  lemma OrphanSettled() returns (es: seq<Event>)
    ensures ReachedBy(es, Two(Settled(0), Worker([1], Exited, false, 0), Driver.Swept))
  {
    es := LateSend();
    var had := Worker([1], Exited, false, 0);
    es := Extended(es, Two(Sent(0), had, Driver.Swept), Recheck(1), Two(Settled(0), had, Driver.Swept));
  }

  lemma OrphanAtTheEnd() returns (es: seq<Event>)
    ensures ReachedBy(es, Two(Settled(0), Worker([1], Exited, true, 0), Awaiting))
  {
    es := OrphanSettled();
    var had, end := Worker([1], Exited, false, 0), Worker([1], Exited, true, 0);
    es := Extended(es, Two(Settled(0), had, Driver.Swept), Cancel(0), Two(Settled(0), end, Driver.Swept));
    es := Extended(es, Two(Settled(0), end, Driver.Swept), StopWorkers, Two(Settled(0), end, Awaiting));
  }

  /** Shutdown ends with a clean verdict all the same. */
  lemma CleanVerdictWithOrphan() returns (es: seq<Event>, s: State)
    ensures ReachedBy(es, s) && s.driver == Over(true) && Orphan(s, 1)
  {
    es := OrphanAtTheEnd();
    var end := Worker([1], Exited, true, 0);
    s := Two(Settled(0), end, Over(true));
    es := Extended(es, Two(Settled(0), end, Awaiting), AwaitDone, s);
  }

  /** One connection that the registry has accepted. */
  function Accepted(wk: Worker, stage: Stage, driver: Driver): State {
    var over := driver.Swept? || driver.Awaiting? || driver.Over?;
    State(map[0 := Settled(0)], [wk], map[0 := Job(0, stage)], if over then {} else {0}, over,
          if over || driver == Sweeping({}) then {0} else {}, if stage.Registered? then 0 else 1, driver)
  }

  /** The sweep closes a connection whose handler the loop has yet to count. */
  lemma SweptWhileStarting() returns (es: seq<Event>)
    ensures ReachedBy(es, Accepted(Worker([], Busy(0), false, 0), Registered, Driver.Swept))
  {
    es := OneTaken();
    var wk := Worker([], Busy(0), false, 0);
    es := Extended(es, One(Settled(0), Worker([], Took(0), false, 0), Idle), Admit(0), Accepted(wk, Registered, Idle));
    es := Extended(es, Accepted(wk, Registered, Idle), Shutdown, Accepted(wk, Registered, Waiting));
    es := Extended(es, Accepted(wk, Registered, Waiting), BeginSweep, Accepted(wk, Registered, Sweeping({0})));
    es := Extended(es, Accepted(wk, Registered, Sweeping({0})), SweepOne(0), Accepted(wk, Registered, Sweeping({})));
    es := Extended(es, Accepted(wk, Registered, Sweeping({})), EndSweep, Accepted(wk, Registered, Driver.Swept));
  }

  lemma StoppedWhileStarting() returns (es: seq<Event>)
    ensures ReachedBy(es, Accepted(Worker([], Busy(0), true, 0), Registered, Awaiting))
  {
    es := SweptWhileStarting();
    var wk, end := Worker([], Busy(0), false, 0), Worker([], Busy(0), true, 0);
    es := Extended(es, Accepted(wk, Registered, Driver.Swept), Cancel(0), Accepted(end, Registered, Driver.Swept));
    es := Extended(es, Accepted(end, Registered, Driver.Swept), StopWorkers, Accepted(end, Registered, Awaiting));
  }

  /** The handler starts after the clean verdict. */
  lemma HandlerAfterCleanVerdict() returns (es: seq<Event>, s: State)
    ensures ReachedBy(es, s) && s.driver == Over(true) && s.active == 1
  {
    es := StoppedWhileStarting();
    var end := Worker([], Busy(0), true, 0);
    es := Extended(es, Accepted(end, Registered, Awaiting), AwaitDone, Accepted(end, Registered, Over(true)));
    s := Accepted(end, Started, Over(true));
    es := Extended(es, Accepted(end, Registered, Over(true)), Start(0), s);
  }

  // ---------------------------------------------------------------- a served connection

  /** One connection and how far its handler is. */
  function Served(wk: Worker, stage: Stage, closed: bool, active: int, driver: Driver): State {
    var over := driver.Swept? || driver.Awaiting? || driver.Over?;
    State(map[0 := Settled(0)], [wk], map[0 := Job(0, stage)],
          if over || stage.Unlisted? || stage.Uncounted? || stage.Finished? then {} else {0}, over, if closed then {0} else {}, active, driver)
  }

  /** Accepted, counted and handed to its handler. */
  lemma ServingReached() returns (es: seq<Event>)
    ensures ReachedBy(es, Served(Worker([], Running, false, 1), Serving, false, 1, Idle))
  {
    es := OneTaken();
    var wk := Worker([], Busy(0), false, 0);
    es := Extended(es, One(Settled(0), Worker([], Took(0), false, 0), Idle), Admit(0), Served(wk, Registered, false, 0, Idle));
    es := Extended(es, Served(wk, Registered, false, 0, Idle), Start(0), Served(wk, Started, false, 1, Idle));
    es := Extended(es, Served(wk, Started, false, 1, Idle), Count(0), Served(Worker([], Busy(0), false, 1), Counted, false, 1, Idle));
    es := Extended(es, Served(Worker([], Busy(0), false, 1), Counted, false, 1, Idle), Spawn(0),
                   Served(Worker([], Running, false, 1), Serving, false, 1, Idle));
  }

  lemma SweptWhileServing() returns (es: seq<Event>)
    ensures ReachedBy(es, Served(Worker([], Running, false, 1), Serving, true, 1, Driver.Swept))
  {
    es := ServingReached();
    var wk := Worker([], Running, false, 1);
    es := Extended(es, Served(wk, Serving, false, 1, Idle), Shutdown, Served(wk, Serving, false, 1, Waiting));
    es := Extended(es, Served(wk, Serving, false, 1, Waiting), BeginSweep, Served(wk, Serving, false, 1, Sweeping({0})));
    es := Extended(es, Served(wk, Serving, false, 1, Sweeping({0})), SweepOne(0), Served(wk, Serving, true, 1, Sweeping({})));
    es := Extended(es, Served(wk, Serving, true, 1, Sweeping({})), EndSweep, Served(wk, Serving, true, 1, Driver.Swept));
  }

  /** A handler that does not return in time makes the verdict a failure. */
  lemma FailedVerdictReachable() returns (es: seq<Event>, s: State)
    ensures ReachedBy(es, s) && s.driver == Over(false) && s.active == 1
  {
    es := SweptWhileServing();
    var wk, end := Worker([], Running, false, 1), Worker([], Running, true, 1);
    es := Extended(es, Served(wk, Serving, true, 1, Driver.Swept), Cancel(0), Served(end, Serving, true, 1, Driver.Swept));
    es := Extended(es, Served(end, Serving, true, 1, Driver.Swept), StopWorkers, Served(end, Serving, true, 1, Awaiting));
    s := Served(end, Serving, true, 1, Over(false));
    es := Extended(es, Served(end, Serving, true, 1, Awaiting), AwaitDone, s);
  }

  lemma UnlistedReached() returns (es: seq<Event>)
    ensures ReachedBy(es, Served(Worker([], Running, false, 1), Unlisted, true, 1, Idle))
  {
    es := ServingReached();
    var wk := Worker([], Running, false, 1);
    es := Extended(es, Served(wk, Serving, false, 1, Idle), Return(0), Served(wk, Shut, true, 1, Idle));
    es := Extended(es, Served(wk, Shut, true, 1, Idle), Unlist(0), Served(wk, Unlisted, true, 1, Idle));
  }

  /** The handler returns and gives everything back. */
  lemma FinishedReached() returns (es: seq<Event>)
    ensures ReachedBy(es, Served(Worker([], Running, false, 0), Finished, true, 0, Idle))
  {
    es := UnlistedReached();
    var wk, free := Worker([], Running, false, 1), Worker([], Running, false, 0);
    es := Extended(es, Served(wk, Unlisted, true, 1, Idle), Uncount(0), Served(free, Uncounted, true, 1, Idle));
    es := Extended(es, Served(free, Uncounted, true, 1, Idle), Finish(0), Served(free, Finished, true, 0, Idle));
  }

  /** A connection served to its end, and a shutdown that succeeds with the loop gone and nothing left behind. */
  lemma CleanShutdownReachable() returns (es: seq<Event>, s: State)
    ensures ReachedBy(es, s) && s.driver == Over(true) && s.closed == {0} && s.workers == [Worker([], Exited, true, 0)]
  {
    es := FinishedReached();
    var wk, end := Worker([], Running, false, 0), Worker([], Running, true, 0);
    es := Extended(es, Served(wk, Finished, true, 0, Idle), Shutdown, Served(wk, Finished, true, 0, Waiting));
    es := Extended(es, Served(wk, Finished, true, 0, Waiting), BeginSweep, Served(wk, Finished, true, 0, Sweeping({})));
    es := Extended(es, Served(wk, Finished, true, 0, Sweeping({})), EndSweep, Served(wk, Finished, true, 0, Driver.Swept));
    es := Extended(es, Served(wk, Finished, true, 0, Driver.Swept), Cancel(0), Served(end, Finished, true, 0, Driver.Swept));
    es := LoopGone(es);
    var gone := Worker([], Exited, true, 0);
    s := Served(gone, Finished, true, 0, Over(true));
    es := Extended(es, Served(gone, Finished, true, 0, Awaiting), AwaitDone, s);
  }

  lemma LoopGone(es0: seq<Event>) returns (es: seq<Event>)
    requires ReachedBy(es0, Served(Worker([], Running, true, 0), Finished, true, 0, Driver.Swept))
    ensures ReachedBy(es, Served(Worker([], Exited, true, 0), Finished, true, 0, Awaiting))
  {
    var end, drain, gone := Worker([], Running, true, 0), Worker([], Draining, true, 0), Worker([], Exited, true, 0);
    es := Extended(es0, Served(end, Finished, true, 0, Driver.Swept), NoticeCancel(0), Served(drain, Finished, true, 0, Driver.Swept));
    es := Extended(es, Served(drain, Finished, true, 0, Driver.Swept), Exit(0), Served(gone, Finished, true, 0, Driver.Swept));
    es := Extended(es, Served(gone, Finished, true, 0, Driver.Swept), StopWorkers, Served(gone, Finished, true, 0, Awaiting));
  }
}
