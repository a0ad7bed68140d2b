/**
 Dispatch, worker loops, connection handlers and staged shutdown, as one step relation over every
 interleaving. A step is what one goroutine does between two points where another can act: a channel
 operation, a registry call under its mutex, an atomic add, a `Close`.
 */
module Reactor {
  type Conn = nat

  const QUEUE_SIZE: nat := 100

  /** Where a `Dispatch` call for a connection stands. */
  datatype Call =
    | Holding                    // no worker chosen yet
    | Picked(w: nat)             // in AddConn, waiting to queue
    | Turned                     // refused before it was queued; about to be closed
    | Sent(w: nat)               // queued, not yet re-checked
    | Late(w: nat)               // queued, but the re-check saw the cancellation; about to be closed
    | Settled(w: nat)            // returned without an error
    | Failed(w: nat)             // returned an error after queueing
    | Refused                    // returned an error without queueing

  /** Where a worker loop stands. */
  datatype Loop =
    | Running
    | Took(c: Conn)              // received, not yet offered to the registry
    | Rejected(c: Conn)          // the registry had been swept; about to close it
    | Busy(c: Conn)              // registered, handler not yet running
    | Draining                   // closing what is queued
    | Dropping(c: Conn)          // received while draining; about to close it
    | Exited

  datatype Worker = Worker(queue: seq<Conn>, loop: Loop, cancelled: bool, count: int)

  /** The life of an accepted connection: the loop's three steps, then the handler goroutine's. */
  datatype Stage = Registered | Started | Counted | Serving | Shut | Unlisted | Uncounted | Finished

  datatype Job = Job(w: nat, stage: Stage)

  /** Where `ShutdownWithTimeout` stands; `Sweeping` holds the registry's mutex. */
  datatype Driver = Idle | Waiting | Sweeping(todo: set<Conn>) | Swept | Awaiting | Over(clean: bool)

  datatype State = State(
    calls: map<Conn, Call>, workers: seq<Worker>, jobs: map<Conn, Job>,
    listed: set<Conn>, swept: bool, closed: set<Conn>, active: int, driver: Driver)

  datatype Event =
    | Dispatch(c: Conn) | Pick(c: Conn, w: nat) | TurnAway(c: Conn) | Send(c: Conn) | Recheck(c: Conn) | Discard(c: Conn)
    | Take(w: nat) | Admit(w: nat) | DropRejected(w: nat) | Start(w: nat) | Count(w: nat) | Spawn(w: nat)
    | NoticeCancel(w: nat) | DrainOne(w: nat) | DropOne(w: nat) | Exit(w: nat) | Cancel(w: nat)
    | HandlerCloses(c: Conn) | Return(c: Conn) | Unlist(c: Conn) | Uncount(c: Conn) | Finish(c: Conn)
    | Shutdown | BeginSweep | SweepOne(c: Conn) | EndSweep | StopWorkers | AwaitDone

  predicate Stands(s: State, c: Conn, call: Call) {
    c in s.calls && s.calls[c] == call
  }

  predicate AtStage(s: State, c: Conn, stage: Stage) {
    c in s.jobs && s.jobs[c].stage == stage
  }

  predicate Preparing(s: State, w: nat, stage: Stage)
  {
    w < |s.workers| && s.workers[w].loop.Busy? && AtStage(s, s.workers[w].loop.c, stage)
  }

  predicate Enabled(s: State, e: Event) {
    match e
    case Dispatch(c) => c !in s.calls
    case Pick(c, w) => Stands(s, c, Holding) && w < |s.workers|
    case TurnAway(c) =>
      c in s.calls && (s.calls[c].Holding? || (s.calls[c].Picked? && s.calls[c].w < |s.workers| && s.workers[s.calls[c].w].cancelled))
    case Send(c) => c in s.calls && s.calls[c].Picked? && s.calls[c].w < |s.workers| && |s.workers[s.calls[c].w].queue| < QUEUE_SIZE
    case Recheck(c) => c in s.calls && s.calls[c].Sent? && s.calls[c].w < |s.workers|
    case Discard(c) => c in s.calls && (s.calls[c].Turned? || s.calls[c].Late?)
    case Take(w) => w < |s.workers| && s.workers[w].loop.Running? && s.workers[w].queue != []
    case Admit(w) => w < |s.workers| && s.workers[w].loop.Took? && !s.driver.Sweeping?
    case DropRejected(w) => w < |s.workers| && s.workers[w].loop.Rejected?
    case Start(w) => Preparing(s, w, Registered)
    case Count(w) => Preparing(s, w, Started)
    case Spawn(w) => Preparing(s, w, Counted)
    case NoticeCancel(w) => w < |s.workers| && s.workers[w].loop.Running? && s.workers[w].cancelled
    case DrainOne(w) => w < |s.workers| && s.workers[w].loop.Draining? && s.workers[w].queue != []
    case DropOne(w) => w < |s.workers| && s.workers[w].loop.Dropping?
    case Exit(w) => w < |s.workers| && s.workers[w].loop.Draining? && s.workers[w].queue == []
    case Cancel(w) => w < |s.workers|
    case HandlerCloses(c) => AtStage(s, c, Serving)
    case Return(c) => AtStage(s, c, Serving)
    case Unlist(c) => AtStage(s, c, Shut) && !s.driver.Sweeping?
    case Uncount(c) => AtStage(s, c, Unlisted) && s.jobs[c].w < |s.workers|
    case Finish(c) => AtStage(s, c, Uncounted)
    case Shutdown => s.driver.Idle?
    case BeginSweep => s.driver.Waiting?
    case SweepOne(c) => s.driver.Sweeping? && c in s.driver.todo
    case EndSweep => s.driver.Sweeping? && s.driver.todo == {}
    case StopWorkers => s.driver.Swept? && forall w :: 0 <= w < |s.workers| ==> s.workers[w].cancelled
    case AwaitDone => s.driver.Awaiting?
  }

  function Put(s: State, w: nat, wk: Worker): State
    requires w < |s.workers|
  {
    s.(workers := s.workers[w := wk])
  }

  function Goto(s: State, w: nat, loop: Loop): State
    requires w < |s.workers|
  {
    Put(s, w, s.workers[w].(loop := loop))
  }

  function Advance(s: State, c: Conn, stage: Stage): State
    requires c in s.jobs
  {
    s.(jobs := s.jobs[c := s.jobs[c].(stage := stage)])
  }

  function Say(s: State, c: Conn, call: Call): State {
    s.(calls := s.calls[c := call])
  }

  function Close(s: State, c: Conn): State {
    s.(closed := s.closed + {c})
  }

  function Apply(s: State, e: Event): State
    requires Enabled(s, e)
  {
    match e
    case Dispatch(c) => Say(s, c, Holding)
    case Pick(c, w) => Say(s, c, Picked(w))
    case TurnAway(c) => Say(s, c, Turned)
    case Send(c) =>
      var w := s.calls[c].w;
      Say(Put(s, w, s.workers[w].(queue := s.workers[w].queue + [c])), c, Sent(w))
    case Recheck(c) =>
      var w := s.calls[c].w;
      Say(s, c, if s.workers[w].cancelled then Late(w) else Settled(w))
    case Discard(c) => Say(Close(s, c), c, if s.calls[c].Late? then Failed(s.calls[c].w) else Refused)
    case Take(w) =>
      var q := s.workers[w].queue;
      Put(s, w, s.workers[w].(queue := q[1..], loop := Took(q[0])))
    case Admit(w) =>
      var c := s.workers[w].loop.c;
      if s.swept then Goto(s, w, Rejected(c))
      else Goto(s, w, Busy(c)).(listed := s.listed + {c}, jobs := s.jobs[c := Job(w, Registered)])
    case DropRejected(w) => Goto(Close(s, s.workers[w].loop.c), w, Draining)
    case Start(w) => Advance(s, s.workers[w].loop.c, Started).(active := s.active + 1)
    case Count(w) => Advance(Put(s, w, s.workers[w].(count := s.workers[w].count + 1)), s.workers[w].loop.c, Counted)
    case Spawn(w) => Advance(Goto(s, w, Running), s.workers[w].loop.c, Serving)
    case NoticeCancel(w) => Goto(s, w, Draining)
    case DrainOne(w) =>
      var q := s.workers[w].queue;
      Put(s, w, s.workers[w].(queue := q[1..], loop := Dropping(q[0])))
    case DropOne(w) => Goto(Close(s, s.workers[w].loop.c), w, Draining)
    case Exit(w) => Goto(s, w, Exited)
    case Cancel(w) => Put(s, w, s.workers[w].(cancelled := true))
    case HandlerCloses(c) => Close(s, c)
    case Return(c) => Advance(Close(s, c), c, Shut)
    case Unlist(c) => Advance(s, c, Unlisted).(listed := s.listed - {c})
    case Uncount(c) =>
      var w := s.jobs[c].w;
      Advance(Put(s, w, s.workers[w].(count := s.workers[w].count - 1)), c, Uncounted)
    case Finish(c) => Advance(s, c, Finished).(active := s.active - 1)
    case Shutdown => s.(driver := Waiting)
    case BeginSweep => s.(driver := Sweeping(s.listed))
    case SweepOne(c) => Close(s, c).(driver := Sweeping(s.driver.todo - {c}))
    case EndSweep => s.(listed := {}, swept := true, driver := Swept)
    case StopWorkers => s.(driver := Awaiting)
    case AwaitDone => s.(driver := Over(s.active == 0))
  }

  function Fresh(n: nat): State {
    State(map[], seq(n, _ => Worker([], Running, false, 0)), map[], {}, false, {}, 0, Idle)
  }

  // ---------------------------------------------------------------- where a connection is

  /** The worker whose queue the connection of a call was put into, if any. */
  function Target(call: Call): int {
    if call.Sent? || call.Late? || call.Settled? || call.Failed? then call.w else -1
  }

  predicate SentTo(s: State, c: Conn, w: nat) {
    c in s.calls && w < |s.workers| && Target(s.calls[c]) == w
  }

  predicate InHand(loop: Loop, c: Conn) {
    (loop.Took? || loop.Rejected? || loop.Dropping?) && loop.c == c
  }

  predicate Distinct(q: seq<Conn>) {
    forall i, j :: 0 <= i < j < |q| ==> q[i] != q[j]
  }

  /** What a worker has was sent to it, is there once, and is not yet a job unless the loop is starting it. */
  ghost predicate WorkerOk(s: State, w: nat)
    requires w < |s.workers|
  {
    var wk := s.workers[w];
    && Distinct(wk.queue)
    && (forall c :: c in wk.queue ==> SentTo(s, c, w) && c !in s.jobs)
    && (wk.loop.Took? || wk.loop.Rejected? || wk.loop.Dropping? ==>
          SentTo(s, wk.loop.c, w) && wk.loop.c !in s.jobs && wk.loop.c !in wk.queue)
    && (wk.loop.Busy? ==> wk.loop.c in s.jobs && s.jobs[wk.loop.c].w == w && Early(s.jobs[wk.loop.c].stage))
    && (wk.loop.Rejected? ==> s.swept)
    && (wk.loop.Draining? || wk.loop.Dropping? || wk.loop.Exited? ==> wk.cancelled || s.swept)
  }

  predicate Early(stage: Stage) {
    stage.Registered? || stage.Started? || stage.Counted?
  }

  predicate Past(stage: Stage) {
    stage.Shut? || stage.Unlisted? || stage.Uncounted? || stage.Finished?
  }

  /** An accepted connection is in the loop's care until its handler runs, and is closed before it leaves the registry. */
  predicate JobOk(s: State, c: Conn)
    requires c in s.jobs
  {
    var job := s.jobs[c];
    && SentTo(s, c, job.w)
    && (Early(job.stage) ==> s.workers[job.w].loop == Busy(c))
    && (c in s.closed || c in s.listed)
    && (Past(job.stage) ==> c in s.closed)
  }

  /** A connection that was sent is closed, queued, in the loop's hand, or accepted. */
  predicate CallOk(s: State, c: Conn)
    requires c in s.calls
  {
    && (s.calls[c].Picked? ==> s.calls[c].w < |s.workers|)
    && Target(s.calls[c]) < |s.workers|
    && (Target(s.calls[c]) >= 0 ==>
          c in s.closed || c in s.jobs || c in s.workers[Target(s.calls[c])].queue || InHand(s.workers[Target(s.calls[c])].loop, c))
    && (s.calls[c].Failed? || s.calls[c].Refused? ==> c in s.closed)
  }

  /** The sweep: what it has still to close covers every open registered connection, and once it is over all are closed. */
  predicate SweepOk(s: State) {
    && s.listed <= s.jobs.Keys && (s.driver.Sweeping? ==> s.driver.todo <= s.jobs.Keys)
    && (s.driver.Sweeping? ==> !s.swept && forall c :: c in s.listed ==> c in s.closed || c in s.driver.todo)
    && (s.driver.Idle? || s.driver.Waiting? ==> !s.swept)
    && (s.swept ==> forall c :: c in s.listed ==> c in s.closed)
    && (s.swept <==> s.driver.Swept? || s.driver.Awaiting? || s.driver.Over?)
    && (s.driver.Awaiting? || s.driver.Over? ==> forall w :: 0 <= w < |s.workers| ==> s.workers[w].cancelled)
  }

  ghost predicate Base(s: State) {
    && (forall w :: 0 <= w < |s.workers| ==> WorkerOk(s, w))
    && (forall c :: c in s.jobs ==> JobOk(s, c))
    && (forall c :: c in s.calls ==> CallOk(s, c))
    && SweepOk(s)
  }

  /** The steps of a dispatching goroutine. */
  predicate ByCaller(e: Event) {
    e.Dispatch? || e.Pick? || e.TurnAway? || e.Send? || e.Recheck? || e.Discard?
  }

  /** The steps of a worker loop, and the cancellation it watches for. */
  predicate ByLoop(e: Event) {
    e.Take? || e.Admit? || e.Start? || e.Count? || e.Spawn?
    || e.DropRejected? || e.NoticeCancel? || e.DrainOne? || e.DropOne? || e.Exit? || e.Cancel?
  }

  /** The steps of a connection's handler. */
  predicate ByHandler(e: Event) {
    e.HandlerCloses? || e.Return? || e.Unlist? || e.Uncount? || e.Finish?
  }

  predicate ByShutdown(e: Event) {
    e.Shutdown? || e.BeginSweep? || e.SweepOne? || e.EndSweep? || e.StopWorkers? || e.AwaitDone?
  }

  lemma SendKeepsWorker(s: State, c: Conn, w: nat)
    requires Base(s) && Enabled(s, Send(c)) && w < |s.workers|
    ensures WorkerOk(Apply(s, Send(c)), w)
  {
    var s' := Apply(s, Send(c));
    assert WorkerOk(s, w);
    assert CallOk(s, c) && !SentTo(s, c, w) && c !in s.jobs;
    forall d | d in s'.workers[w].queue
      ensures SentTo(s', d, w) && d !in s'.jobs
    {
      assert d in s.workers[w].queue || d == c;
    }
  }

  lemma TakeKeepsWorker(s: State, e: Event, w: nat)
    requires Base(s) && Enabled(s, e) && (e.Take? || e.DrainOne?) && w < |s.workers|
    ensures WorkerOk(Apply(s, e), w)
  {
    var s' := Apply(s, e);
    assert WorkerOk(s, w);
    var q := s.workers[w].queue;
    if w == e.w {
      assert q == [q[0]] + q[1..] && Distinct(q[1..]);
      assert forall d :: d in q[1..] ==> d in q && d != q[0];
      assert q[0] in q && s'.workers[w].queue == q[1..];
    }
  }

  lemma AdmitKeepsWorker(s: State, v: nat, w: nat)
    requires Base(s) && Enabled(s, Admit(v)) && w < |s.workers|
    ensures WorkerOk(Apply(s, Admit(v)), w)
  {
    var c := s.workers[v].loop.c;
    assert WorkerOk(s, v) && WorkerOk(s, w);
    assert v != w ==> !SentTo(s, c, w);
  }

  lemma SpawnKeepsWorker(s: State, v: nat, w: nat)
    requires Base(s) && Enabled(s, Spawn(v)) && w < |s.workers|
    ensures WorkerOk(Apply(s, Spawn(v)), w)
  {
    assert WorkerOk(s, v) && WorkerOk(s, w);
  }

  lemma CallerKeepsWorker(s: State, e: Event, w: nat)
    requires Base(s) && Enabled(s, e) && ByCaller(e) && !e.Send? && w < |s.workers|
    ensures WorkerOk(Apply(s, e), w)
  {
    assert WorkerOk(s, w);
    assert e.Dispatch? || CallOk(s, e.c);
    assert forall c :: SentTo(s, c, w) ==> SentTo(Apply(s, e), c, w);
  }

  lemma StartKeepsWorker(s: State, e: Event, w: nat)
    requires Base(s) && Enabled(s, e) && (e.Start? || e.Count?) && w < |s.workers|
    ensures WorkerOk(Apply(s, e), w)
  {
    assert WorkerOk(s, e.w) && WorkerOk(s, w);
  }

  lemma StoppingKeepsWorker(s: State, e: Event, w: nat)
    requires Base(s) && Enabled(s, e) && w < |s.workers|
    requires e.DropRejected? || e.NoticeCancel? || e.DropOne? || e.Exit? || e.Cancel?
    ensures WorkerOk(Apply(s, e), w)
  {
    assert WorkerOk(s, w);
  }

  lemma HandlerKeepsWorker(s: State, e: Event, w: nat)
    requires Base(s) && Enabled(s, e) && ByHandler(e) && w < |s.workers|
    ensures WorkerOk(Apply(s, e), w)
  {
    assert WorkerOk(s, w) && JobOk(s, e.c);
    assert s.workers[w].loop != Busy(e.c);
  }

  lemma ShutdownKeepsWorker(s: State, e: Event, w: nat)
    requires Base(s) && Enabled(s, e) && ByShutdown(e) && w < |s.workers|
    ensures WorkerOk(Apply(s, e), w)
  {
    assert WorkerOk(s, w);
  }

  lemma LoopKeepsWorker(s: State, e: Event, w: nat)
    requires Base(s) && Enabled(s, e) && ByLoop(e) && w < |s.workers|
    ensures WorkerOk(Apply(s, e), w)
  {
    if e.Take? || e.DrainOne? {
      TakeKeepsWorker(s, e, w);
    } else if e.Admit? {
      AdmitKeepsWorker(s, e.w, w);
    } else if e.Spawn? {
      SpawnKeepsWorker(s, e.w, w);
    } else if e.Start? || e.Count? {
      StartKeepsWorker(s, e, w);
    } else {
      StoppingKeepsWorker(s, e, w);
    }
  }

  lemma WorkerKept(s: State, e: Event, w: nat)
    requires Base(s) && Enabled(s, e) && w < |s.workers|
    ensures WorkerOk(Apply(s, e), w)
  {
    if e.Send? {
      SendKeepsWorker(s, e.c, w);
    } else if ByCaller(e) {
      CallerKeepsWorker(s, e, w);
    } else if ByLoop(e) {
      LoopKeepsWorker(s, e, w);
    } else if ByHandler(e) {
      HandlerKeepsWorker(s, e, w);
    } else {
      ShutdownKeepsWorker(s, e, w);
    }
  }

  lemma StartKeepsJob(s: State, e: Event, c: Conn)
    requires Base(s) && Enabled(s, e) && (e.Start? || e.Count? || e.Spawn?) && c in Apply(s, e).jobs
    ensures JobOk(Apply(s, e), c)
  {
    assert WorkerOk(s, e.w);
    assert s.workers[e.w].loop.c in s.jobs;
    assert JobOk(s, c);
  }

  lemma LoopKeepsJob(s: State, e: Event, c: Conn)
    requires Base(s) && Enabled(s, e) && ByLoop(e) && c in Apply(s, e).jobs
    ensures JobOk(Apply(s, e), c)
  {
    assert WorkerOk(s, e.w);
    if e.Start? || e.Count? || e.Spawn? {
      StartKeepsJob(s, e, c);
    } else if c in s.jobs {
      assert JobOk(s, c);
    }
  }

  lemma CallerKeepsJob(s: State, e: Event, c: Conn)
    requires Base(s) && Enabled(s, e) && ByCaller(e) && c in s.jobs
    ensures JobOk(Apply(s, e), c)
  {
    assert JobOk(s, c);
  }

  lemma HandlerKeepsJob(s: State, e: Event, c: Conn)
    requires Base(s) && Enabled(s, e) && ByHandler(e) && c in s.jobs
    ensures JobOk(Apply(s, e), c)
  {
    assert JobOk(s, c);
  }

  lemma ShutdownKeepsJob(s: State, e: Event, c: Conn)
    requires Base(s) && Enabled(s, e) && ByShutdown(e) && c in s.jobs
    ensures JobOk(Apply(s, e), c)
  {
    assert JobOk(s, c);
  }

  lemma JobKept(s: State, e: Event, c: Conn)
    requires Base(s) && Enabled(s, e) && c in Apply(s, e).jobs
    ensures JobOk(Apply(s, e), c)
  {
    if ByLoop(e) {
      LoopKeepsJob(s, e, c);
    } else if ByCaller(e) {
      CallerKeepsJob(s, e, c);
    } else if ByHandler(e) {
      HandlerKeepsJob(s, e, c);
    } else {
      ShutdownKeepsJob(s, e, c);
    }
  }

  lemma LoopKeepsCall(s: State, e: Event, c: Conn)
    requires Base(s) && Enabled(s, e) && ByLoop(e) && c in s.calls
    ensures CallOk(Apply(s, e), c)
  {
    LoopClosesItsOwn(s, e);
    assert CallOk(s, c) && s.jobs.Keys <= Apply(s, e).jobs.Keys;
  }

  lemma CallerKeepsCall(s: State, e: Event, c: Conn)
    requires Base(s) && Enabled(s, e) && ByCaller(e) && c in Apply(s, e).calls
    ensures CallOk(Apply(s, e), c)
  {
    assert c in s.calls ==> CallOk(s, c);
  }

  lemma OtherKeepsCall(s: State, e: Event, c: Conn)
    requires Base(s) && Enabled(s, e) && (ByHandler(e) || ByShutdown(e)) && c in s.calls
    ensures c in Apply(s, e).calls && CallOk(Apply(s, e), c)
  {
    OthersKeepPlaces(s, e);
    assert CallOk(s, c) && s.jobs.Keys <= Apply(s, e).jobs.Keys;
  }

  lemma CallKept(s: State, e: Event, c: Conn)
    requires Base(s) && Enabled(s, e) && c in Apply(s, e).calls
    ensures CallOk(Apply(s, e), c)
  {
    if ByLoop(e) {
      LoopKeepsCall(s, e, c);
    } else if ByCaller(e) {
      CallerKeepsCall(s, e, c);
    } else {
      OtherKeepsCall(s, e, c);
    }
  }

  lemma LoopKeepsSweep(s: State, e: Event)
    requires SweepOk(s) && Enabled(s, e) && ByLoop(e)
    ensures SweepOk(Apply(s, e))
  {
  }

  lemma CallerKeepsSweep(s: State, e: Event)
    requires SweepOk(s) && Enabled(s, e) && ByCaller(e)
    ensures SweepOk(Apply(s, e))
  {
  }

  lemma HandlerKeepsSweep(s: State, e: Event)
    requires SweepOk(s) && Enabled(s, e) && ByHandler(e)
    ensures SweepOk(Apply(s, e))
  {
  }

  lemma ShutdownKeepsSweep(s: State, e: Event)
    requires SweepOk(s) && Enabled(s, e) && ByShutdown(e)
    ensures SweepOk(Apply(s, e))
  {
  }

  lemma SweepKept(s: State, e: Event)
    requires SweepOk(s) && Enabled(s, e)
    ensures SweepOk(Apply(s, e))
  {
    if ByLoop(e) {
      LoopKeepsSweep(s, e);
    } else if ByCaller(e) {
      CallerKeepsSweep(s, e);
    } else if ByHandler(e) {
      HandlerKeepsSweep(s, e);
    } else {
      ShutdownKeepsSweep(s, e);
    }
  }

  /** Every step of every goroutine keeps the books in order. */
  lemma StepKeepsBase(s: State, e: Event)
    requires Base(s) && Enabled(s, e)
    ensures Base(Apply(s, e))
  {
    var s' := Apply(s, e);
    forall w | 0 <= w < |s'.workers|
      ensures WorkerOk(s', w)
    {
      WorkerKept(s, e, w);
    }
    forall c | c in s'.jobs
      ensures JobOk(s', c)
    {
      JobKept(s, e, c);
    }
    forall c | c in s'.calls
      ensures CallOk(s', c)
    {
      CallKept(s, e, c);
    }
    SweepKept(s, e);
  }

  // ---------------------------------------------------------------- runs

  ghost predicate Possible(s: State, es: seq<Event>)
    decreases |es|
  {
    es == [] || (Enabled(s, es[0]) && Possible(Apply(s, es[0]), es[1..]))
  }

  ghost function Run(s: State, es: seq<Event>): State
    requires Possible(s, es)
    decreases |es|
  {
    if es == [] then s else Run(Apply(s, es[0]), es[1..])
  }

  lemma FreshIsBase(n: nat)
    ensures Base(Fresh(n))
  {
  }

  lemma {:induction false} RunKeepsBase(s: State, es: seq<Event>)
    requires Base(s) && Possible(s, es)
    ensures Base(Run(s, es))
    decreases |es|
  {
    if es != [] {
      StepKeepsBase(s, es[0]);
      RunKeepsBase(Apply(s, es[0]), es[1..]);
    }
  }

  // ---------------------------------------------------------------- nobody is forgotten

  /** Someone is going to close the connection: a caller, a loop that still runs, or a handler. */
  predicate Owned(s: State, c: Conn)
    requires c in s.calls
  {
    || c in s.closed
    || s.calls[c].Holding? || s.calls[c].Picked? || s.calls[c].Turned? || s.calls[c].Sent? || s.calls[c].Late?
    || (c in s.jobs && !s.jobs[c].stage.Finished?)
    || (0 <= Target(s.calls[c]) < |s.workers| && AtLoop(s.workers[Target(s.calls[c])], c))
  }

  /** In a loop's hand, or queued where the loop will come to it. */
  predicate AtLoop(wk: Worker, c: Conn) {
    InHand(wk.loop, c) || (c in wk.queue && !wk.loop.Exited?)
  }

  /** Open, queued at a loop that is gone, and its caller was told all is well. */
  predicate Orphan(s: State, c: Conn) {
    && c in s.calls && s.calls[c].Settled? && c !in s.closed && s.calls[c].w < |s.workers|
    && c in s.workers[s.calls[c].w].queue && s.workers[s.calls[c].w].loop.Exited?
  }

  lemma OwnedOrOrphan(s: State, c: Conn)
    requires Base(s) && c in s.calls
    ensures Owned(s, c) <==> !Orphan(s, c)
  {
    assert CallOk(s, c);
    assert c in s.jobs ==> JobOk(s, c);
    var w := Target(s.calls[c]);
    assert w >= 0 ==> WorkerOk(s, w);
  }

  /** The re-check is about to report success for a connection nobody will take from the queue. */
  predicate Misses(s: State, c: Conn) {
    && c in s.calls && s.calls[c].Sent? && c !in s.closed && s.calls[c].w < |s.workers|
    && c in s.workers[s.calls[c].w].queue && s.workers[s.calls[c].w].loop.Exited? && !s.workers[s.calls[c].w].cancelled
  }

  lemma LoopOrphansNobody(s: State, e: Event, c: Conn)
    requires Base(s) && Enabled(s, e) && ByLoop(e)
    ensures Orphan(Apply(s, e), c) <==> Orphan(s, c)
    ensures Misses(Apply(s, e), c) ==> Misses(s, c)
  {
    assert WorkerOk(s, e.w);
    LoopClosesItsOwn(s, e);
    if c in s.calls && Target(s.calls[c]) >= 0 {
      assert CallOk(s, c) && WorkerOk(s, Target(s.calls[c]));
      assert Target(s.calls[c]) != e.w ==> Apply(s, e).workers[Target(s.calls[c])] == s.workers[Target(s.calls[c])];
    }
  }

  /** A loop touches no call and no other worker, and closes only what it has in hand. */
  lemma LoopClosesItsOwn(s: State, e: Event)
    requires Enabled(s, e) && ByLoop(e)
    ensures Apply(s, e).calls == s.calls && |Apply(s, e).workers| == |s.workers|
    ensures Apply(s, e).closed == s.closed + if e.DropRejected? || e.DropOne? then {s.workers[e.w].loop.c} else {}
  {
  }

  lemma CallerOrphansBy(s: State, e: Event, c: Conn)
    requires Base(s) && Enabled(s, e) && ByCaller(e)
    ensures Orphan(Apply(s, e), c) <==> Orphan(s, c) || (e == Recheck(c) && Misses(s, c))
    ensures Misses(Apply(s, e), c) ==> Misses(s, c) || (e == Send(c) && TooLate(s, c))
  {
    if c in s.calls {
      assert CallOk(s, c);
    }
  }

  /** Handlers and shutdown touch no call, no queue and no loop, and close only accepted connections. */
  lemma OthersKeepPlaces(s: State, e: Event)
    requires SweepOk(s) && Enabled(s, e) && (ByHandler(e) || ByShutdown(e))
    ensures InPlace(s, Apply(s, e))
  {
    if ByHandler(e) {
      HandlerKeepsPlaces(s, e);
    } else {
      ShutdownKeepsPlaces(s, e);
    }
  }

  ghost predicate InPlace(s: State, s': State) {
    && s'.calls == s.calls && |s'.workers| == |s.workers|
    && (forall w :: 0 <= w < |s.workers| ==> s'.workers[w] == s.workers[w].(count := s'.workers[w].count))
    && s.closed <= s'.closed <= s.closed + s.jobs.Keys
  }

  lemma HandlerKeepsPlaces(s: State, e: Event)
    requires Enabled(s, e) && ByHandler(e)
    ensures InPlace(s, Apply(s, e))
  {
    assert e.c in s.jobs;
  }

  lemma ShutdownKeepsPlaces(s: State, e: Event)
    requires SweepOk(s) && Enabled(s, e) && ByShutdown(e)
    ensures InPlace(s, Apply(s, e))
  {
    assert e.SweepOne? ==> e.c in s.jobs;
  }

  lemma OthersOrphanNobody(s: State, e: Event, c: Conn)
    requires Base(s) && Enabled(s, e) && (ByHandler(e) || ByShutdown(e))
    ensures Orphan(Apply(s, e), c) <==> Orphan(s, c)
    ensures Misses(Apply(s, e), c) ==> Misses(s, c)
  {
    OthersKeepPlaces(s, e);
    if c in s.calls && 0 <= Target(s.calls[c]) < |s.workers| && c in s.workers[Target(s.calls[c])].queue {
      assert WorkerOk(s, Target(s.calls[c]));
      assert c !in s.jobs;
    }
  }

  /** A connection is orphaned by exactly one kind of step, and for good. */
  lemma OrphanedExactlyBy(s: State, e: Event, c: Conn)
    requires Base(s) && Enabled(s, e)
    ensures Orphan(Apply(s, e), c) <==> Orphan(s, c) || (e == Recheck(c) && Misses(s, c))
    ensures Misses(Apply(s, e), c) ==> Misses(s, c) || (e == Send(c) && TooLate(s, c))
  {
    if ByLoop(e) {
      LoopOrphansNobody(s, e, c);
    } else if ByCaller(e) {
      CallerOrphansBy(s, e, c);
    } else {
      OthersOrphanNobody(s, e, c);
    }
  }

  /** The connection is about to be queued at a loop that left on a registry rejection, before its cancellation. */
  predicate TooLate(s: State, c: Conn) {
    && c in s.calls && s.calls[c].Picked? && s.calls[c].w < |s.workers|
    && s.workers[s.calls[c].w].loop.Exited? && !s.workers[s.calls[c].w].cancelled
  }

  /** No connection is queued at a loop between its rejection exit and its cancellation. */
  ghost predicate Prompt(s: State, es: seq<Event>)
    requires Possible(s, es)
    decreases |es|
  {
    es == [] || ((es[0].Send? ==> !TooLate(s, es[0].c)) && Prompt(Apply(s, es[0]), es[1..]))
  }

  lemma {:induction false} PromptRunOrphansNobody(s: State, es: seq<Event>)
    requires Base(s) && Possible(s, es) && Prompt(s, es)
    requires forall c :: !Orphan(s, c) && !Misses(s, c)
    ensures forall c :: !Orphan(Run(s, es), c)
    decreases |es|
  {
    if es != [] {
      var s' := Apply(s, es[0]);
      forall c
        ensures !Orphan(s', c) && !Misses(s', c)
      {
        OrphanedExactlyBy(s, es[0], c);
      }
      StepKeepsBase(s, es[0]);
      PromptRunOrphansNobody(s', es[1..]);
    }
  }

  /**
   In every interleaving in which nothing is queued between a loop's rejection exit and its
   cancellation, every connection given to `Dispatch` is closed, held by its caller, queued at or held
   by a loop that has not exited, or owned by a handler.
   */
  lemma EveryConnectionHasAnOwner(n: nat, es: seq<Event>)
    requires Possible(Fresh(n), es) && Prompt(Fresh(n), es)
    ensures forall c :: c in Run(Fresh(n), es).calls ==> Owned(Run(Fresh(n), es), c)
  {
    var s := Run(Fresh(n), es);
    FreshIsBase(n);
    RunKeepsBase(Fresh(n), es);
    PromptRunOrphansNobody(Fresh(n), es);
    forall c | c in s.calls
      ensures Owned(s, c)
    {
      OwnedOrOrphan(s, c);
    }
  }

  /** Outside that condition the guarantee fails: a connection queued late can be lost two steps on. */
  lemma LateSendCanOrphan(s: State, c: Conn)
    requires Base(s) && Enabled(s, Send(c)) && TooLate(s, c) && c !in s.closed
    ensures Possible(s, [Send(c), Recheck(c)]) && Orphan(Run(s, [Send(c), Recheck(c)]), c)
  {
    var t := Apply(s, Send(c));
    assert [Send(c), Recheck(c)][1..] == [Recheck(c)] && [Recheck(c)][1..] == [];
    assert Possible(t, [Recheck(c)]) && Run(t, [Recheck(c)]) == Apply(t, Recheck(c));
  }

  /** An orphan is never closed, whatever happens afterwards. */
  lemma {:induction false} OrphanForGood(s: State, es: seq<Event>, c: Conn)
    requires Base(s) && Possible(s, es) && Orphan(s, c)
    ensures Orphan(Run(s, es), c)
    decreases |es|
  {
    if es != [] {
      OrphanedExactlyBy(s, es[0], c);
      StepKeepsBase(s, es[0]);
      OrphanForGood(Apply(s, es[0]), es[1..], c);
    }
  }
}
