/**
 The pool between the operations of many connections. Frame objects and arrays pass from user to user
 through it, one pool call, one append or one release at a time and in any order; a release zeroes the
 frame first and then parks what it held, piece by piece. A user keeps its pointer to a frame after it
 has released it, and `release` looks at the frame's flags, not at who calls it.
 */
module PoolRaces {
  import opened Wire
  import opened Pool

  type User = nat
  type Name = nat
  type Array = nat

  /** A frame in use: its user, the pooled array it was given, and the array its payload lies in. */
  datatype Hold = Hold(user: User, cell: set<Array>, payload: set<Array>)

  /**
   `held` are the frames acquired and not released since, `leaving` those being released, with what is
   still to be parked. `mine` lists who has acquired which frame and not released it itself.
   */
  datatype World = World(
    caps: map<Array, nat>, bytes: map<Array, seq<byte>>, parked: map<Array, nat>, known: set<Name>, idle: set<Name>,
    held: map<Name, Hold>, leaving: map<Name, set<Array>>, mine: set<(User, Name)>)

  datatype Event =
    | Acquire(user: User, name: Name)
    | TakeParked(user: User, name: Name, size: nat, arr: Array)
    | TakeNew(user: User, name: Name, size: nat, arr: Array, idx: nat)
    | Grow(user: User, name: Name, arr: Array, cap: nat)
    | Fill(user: User, name: Name, arr: Array, content: seq<byte>)
    | Release(user: User, name: Name)
    | ParkArray(name: Name, arr: Array, idx: nat)
    | DropArray(name: Name, arr: Array)
    | ParkFrame(name: Name)
    | CollectArray(arr: Array)
    | CollectFrame(name: Name)

  predicate Unfilled(w: World, f: Name) {
    f in w.held && w.held[f].cell == {} && w.held[f].payload == {}
  }

  ghost predicate Step(w: World, e: Event, w': World) {
    match e
    case Acquire(u, f) =>
      (f in w.idle || f !in w.known)
      && w' == w.(known := w.known + {f}, idle := w.idle - {f}, held := w.held[f := Hold(u, {}, {})], mine := w.mine + {(u, f)})
    case TakeParked(u, f, size, a) =>
      Unfilled(w, f) && a in w.parked && Serves(w.parked[a], size)
      && w' == w.(parked := w.parked - {a}, held := w.held[f := Hold(w.held[f].user, {a}, {a})])
    case TakeNew(u, f, size, a, idx) =>
      Unfilled(w, f) && a !in w.caps && Serves(idx, size)
      && w' == w.(caps := w.caps[a := CLASSES[idx]], bytes := w.bytes[a := []], held := w.held[f := Hold(w.held[f].user, {a}, {a})])
    case Grow(u, f, a, cap) =>
      f in w.held && a !in w.caps
      && w' == w.(caps := w.caps[a := cap], bytes := w.bytes[a := []], held := w.held[f := w.held[f].(payload := {a})])
    case Fill(u, f, a, content) =>
      f in w.held && w.held[f].payload == {a} && a in w.caps && |content| <= w.caps[a]
      && w' == w.(bytes := w.bytes[a := content])
    case Release(u, f) =>
      f in w.known
      && w' == (if f in w.held then w.(held := w.held - {f}, leaving := w.leaving[f := w.held[f].cell + w.held[f].payload]) else w)
               .(mine := w.mine - {(u, f)})
    case ParkArray(f, a, idx) =>
      f in w.leaving && a in w.leaving[f] && a in w.caps && Parks(w.caps[a], idx)
      && w' == w.(leaving := w.leaving[f := w.leaving[f] - {a}], parked := w.parked[a := idx])
    case DropArray(f, a) =>
      f in w.leaving && a in w.leaving[f] && a in w.caps && (forall idx :: !Parks(w.caps[a], idx))
      && w' == w.(leaving := w.leaving[f := w.leaving[f] - {a}])
    case ParkFrame(f) =>
      f in w.leaving && w.leaving[f] == {}
      && w' == w.(leaving := w.leaving - {f}, idle := w.idle + {f})
    case CollectArray(a) => a in w.parked && w' == w.(parked := w.parked - {a})
    case CollectFrame(f) => f in w.idle && w' == w.(idle := w.idle - {f})
  }

  const EMPTY := World(map[], map[], map[], {}, {}, map[], map[], {})

  // ---------------------------------------------------------------- apart

  /** The arrays reachable from a frame, in use or being released. */
  function Of(w: World, f: Name): set<Array> {
    if f in w.held then w.held[f].cell + w.held[f].payload else if f in w.leaving then w.leaving[f] else {}
  }

  /** Every frame is in one place, and every array is in one frame, parked once, or with nobody. */
  ghost predicate Apart(w: World) {
    && InPlace(w)
    && (forall f :: Of(w, f) <= w.caps.Keys && Of(w, f) !! w.parked.Keys)
    && (forall f, g :: f != g ==> Of(w, f) !! Of(w, g))
  }

  /** A frame is in use, being released, or idle; a parked array is large enough for its class. */
  ghost predicate InPlace(w: World) {
    && w.held.Keys + w.leaving.Keys + w.idle <= w.known
    && w.held.Keys !! w.leaving.Keys && w.held.Keys !! w.idle && w.leaving.Keys !! w.idle
    && w.parked.Keys <= w.caps.Keys && w.bytes.Keys == w.caps.Keys
    && (forall a :: a in w.parked ==> w.parked[a] < |CLASSES| && CLASSES[w.parked[a]] <= w.caps[a])
  }

  lemma StepKeepsApart(w: World, e: Event, w': World)
    requires Apart(w) && Step(w, e, w')
    ensures Apart(w')
  {
    StepKeepsPlaces(w, e, w');
    forall f
      ensures Of(w', f) <= w'.caps.Keys && Of(w', f) !! w'.parked.Keys
    {
      OneFrameKept(w, e, w', f);
    }
    forall f, g | f != g
      ensures Of(w', f) !! Of(w', g)
    {
      TwoFramesKept(w, e, w', f, g);
    }
  }

  lemma StepKeepsPlaces(w: World, e: Event, w': World)
    requires InPlace(w) && Step(w, e, w')
    ensures InPlace(w')
  {
  }

  lemma OneFrameKept(w: World, e: Event, w': World, f: Name)
    requires Apart(w) && Step(w, e, w')
    ensures Of(w', f) <= w'.caps.Keys && Of(w', f) !! w'.parked.Keys
  {
    assert Of(w, f) <= w.caps.Keys && Of(w, f) !! w.parked.Keys;
    if (e.ParkArray? || e.DropArray?) && e.name != f {
      assert Of(w, f) !! Of(w, e.name);
    }
  }

  lemma TwoFramesKept(w: World, e: Event, w': World, f: Name, g: Name)
    requires Apart(w) && Step(w, e, w') && f != g
    ensures Of(w', f) !! Of(w', g)
  {
    assert Of(w, f) !! Of(w, g) && Of(w, f) + Of(w, g) <= w.caps.Keys && (Of(w, f) + Of(w, g)) !! w.parked.Keys;
  }

  ghost predicate StepAt(ws: seq<World>, es: seq<Event>, i: nat)
    requires i < |es| < |ws|
  {
    Step(ws[i], es[i], ws[i + 1])
  }

  ghost predicate Run(ws: seq<World>, es: seq<Event>) {
    |ws| == |es| + 1 && ws[0] == EMPTY && forall i :: 0 <= i < |es| ==> StepAt(ws, es, i)
  }

  /** Whatever the users do, and even if one releases what is no longer its own. */
  lemma {:induction false} RunKeepsApart(ws: seq<World>, es: seq<Event>, i: nat)
    requires Run(ws, es) && i < |ws|
    ensures Apart(ws[i])
    decreases i
  {
    if i > 0 {
      RunKeepsApart(ws, es, i - 1);
      assert StepAt(ws, es, i - 1);
      StepKeepsApart(ws[i - 1], es[i - 1], ws[i]);
    }
  }

  // ---------------------------------------------------------------- nothing lost

  /** Parked, or reachable from a frame that is held or being released. */
  ghost predicate Somewhere(w: World, a: Array) {
    a in w.parked || exists f :: a in Of(w, f)
  }

  /** The step gives an array up: it serves no class, the collector takes it from the pool, or a payload outgrew it without its being the frame's pooled one. */
  predicate GivesUp(w: World, e: Event, a: Array) {
    || (e.DropArray? && e.arr == a)
    || (e.CollectArray? && e.arr == a)
    || (e.Grow? && e.name in w.held && a in w.held[e.name].payload && a !in w.held[e.name].cell)
  }

  /** A frame reaches after a step what it reached before, a new array, or one taken from the pool. */
  lemma ReachesLittle(w: World, e: Event, w': World, f: Name, a: Array)
    requires Apart(w) && Step(w, e, w') && a in Of(w', f)
    ensures a in Of(w, f) || a !in w.caps || (a in w.parked && e.TakeParked? && e.arr == a)
    ensures !(GivesUp(w, e, a) && a in Of(w, f))
  {
    assert Of(w, f) <= w.caps.Keys && Of(w, f) !! w.parked.Keys;
    if e.DropArray? && e.name != f {
      assert Of(w, f) !! Of(w, e.name);
    }
    if e.Grow? && e.name != f {
      assert Of(w, f) !! Of(w, e.name);
    }
  }

  /** An array is lost to the pool by exactly these steps; a release loses none. */
  lemma ArraysAreConserved(w: World, e: Event, w': World, a: Array)
    requires Apart(w) && Step(w, e, w') && Somewhere(w, a)
    ensures Somewhere(w', a) <==> !GivesUp(w, e, a)
  {
    if GivesUp(w, e, a) {
      GivenUpIsGone(w, e, w', a);
    } else if a in w.parked {
      assert e.ParkArray? || e.DropArray? ==> Of(w, e.name) !! w.parked.Keys;
      if e.TakeParked? && e.arr == a {
        assert a in Of(w', e.name);
      }
    } else {
      var f :| a in Of(w, f);
      assert a in w'.parked || a in Of(w', f);
    }
  }

  lemma GivenUpIsGone(w: World, e: Event, w': World, a: Array)
    requires Apart(w) && Step(w, e, w') && Somewhere(w, a) && GivesUp(w, e, a)
    ensures !Somewhere(w', a)
  {
    assert e.DropArray? || e.Grow? ==> a in Of(w, e.name) && Of(w, e.name) !! w.parked.Keys && Of(w, e.name) <= w.caps.Keys;
    forall f
      ensures a !in Of(w', f)
    {
      assert Of(w, f) !! w.parked.Keys;
      if a in Of(w', f) {
        ReachesLittle(w, e, w', f, a);
      }
    }
  }

  /** A frame gets an array that holds what was asked for, from the smallest class that does. */
  lemma LentIsLargeEnough(w: World, e: Event, w': World)
    requires Apart(w) && Step(w, e, w') && (e.TakeParked? || e.TakeNew?)
    ensures e.arr in w'.caps && 1 <= e.size <= w'.caps[e.arr] && w'.held[e.name].payload == {e.arr}
    ensures exists idx: nat :: Serves(idx, e.size) && CLASSES[idx] <= w'.caps[e.arr]
  {
    if e.TakeParked? {
      assert Serves(w.parked[e.arr], e.size);
    } else {
      assert Serves(e.idx, e.size);
    }
  }

  // ---------------------------------------------------------------- to itself

  /** A step somebody takes through a pointer to this frame. */
  predicate ActsOn(e: Event, f: Name) {
    (e.TakeParked? || e.TakeNew? || e.Grow? || e.Fill? || e.Release?) && e.name == f
  }

  /** The frame is in the same hands, with the same arrays and the same bytes in its payload. */
  ghost predicate Same(w: World, w': World, f: Name) {
    && f in w.held && f in w'.held && w'.held[f] == w.held[f]
    && forall a :: a in w.held[f].payload ==> a in w.bytes && a in w'.bytes && w'.bytes[a] == w.bytes[a]
  }

  lemma OthersLeaveItAlone(w: World, e: Event, w': World, f: Name)
    requires Apart(w) && Step(w, e, w') && f in w.held && !ActsOn(e, f)
    ensures Same(w, w', f)
  {
    assert Of(w, f) <= w.caps.Keys;
    if e.Fill? {
      assert Of(w, f) !! Of(w, e.name);
    }
  }

  /** In every run, what a frame holds changes only through a pointer to that frame. */
  lemma {:induction false} HeldToItself(ws: seq<World>, es: seq<Event>, i: nat, j: nat, f: Name)
    requires Run(ws, es) && i <= j < |ws| && f in ws[i].held
    requires forall k :: i <= k < j ==> !ActsOn(es[k], f)
    ensures Same(ws[i], ws[j], f)
    decreases j
  {
    if i < j {
      HeldToItself(ws, es, i, j - 1, f);
      RunKeepsApart(ws, es, j - 1);
      assert StepAt(ws, es, j - 1);
      OthersLeaveItAlone(ws[j - 1], es[j - 1], ws[j], f);
    } else {
      RunKeepsApart(ws, es, i);
      assert Of(ws[i], f) <= ws[i].caps.Keys;
    }
  }

  // ---------------------------------------------------------------- released twice

  /** A user has the frames it acquired and has not released, and nobody else has them. */
  ghost predicate Exact(w: World) {
    forall u, f :: (u, f) in w.mine <==> f in w.held && w.held[f].user == u
  }

  /** A release of a frame that has been released before and is by now in another user's hands. */
  predicate Steals(w: World, e: Event) {
    e.Release? && e.name in w.held && w.held[e.name].user != e.user
  }

  lemma ExactStepIff(w: World, e: Event, w': World)
    requires Apart(w) && Exact(w) && Step(w, e, w')
    ensures Exact(w') <==> !Steals(w, e)
  {
    if Steals(w, e) {
      assert (w.held[e.name].user, e.name) in w'.mine;
    } else {
      forall u, f
        ensures (u, f) in w'.mine <==> f in w'.held && w'.held[f].user == u
      {
        assert (u, f) in w.mine <==> f in w.held && w.held[f].user == u;
      }
    }
  }

  /** In a run, every user keeps what it acquired until it releases it exactly if nobody releases what another has acquired since. */
  lemma {:induction false} RunExactIff(ws: seq<World>, es: seq<Event>)
    requires Run(ws, es)
    ensures (forall i :: 0 <= i < |ws| ==> Exact(ws[i])) <==> (forall i :: 0 <= i < |es| ==> !Steals(ws[i], es[i]))
  {
    if forall i :: 0 <= i < |es| ==> !Steals(ws[i], es[i]) {
      forall i | 0 <= i < |ws|
        ensures Exact(ws[i])
      {
        ExactUpTo(ws, es, i);
      }
    }
    if forall i :: 0 <= i < |ws| ==> Exact(ws[i]) {
      forall i | 0 <= i < |es|
        ensures !Steals(ws[i], es[i])
      {
        RunKeepsApart(ws, es, i);
        assert StepAt(ws, es, i) && Exact(ws[i + 1]);
        ExactStepIff(ws[i], es[i], ws[i + 1]);
      }
    }
  }

  lemma {:induction false} ExactUpTo(ws: seq<World>, es: seq<Event>, i: nat)
    requires Run(ws, es) && i < |ws| && forall k :: 0 <= k < i ==> !Steals(ws[k], es[k])
    ensures Exact(ws[i])
    decreases i
  {
    if i > 0 {
      ExactUpTo(ws, es, i - 1);
      RunKeepsApart(ws, es, i - 1);
      assert StepAt(ws, es, i - 1);
      ExactStepIff(ws[i - 1], es[i - 1], ws[i]);
    }
  }

  /** A release by one who has released before does nothing exactly if nobody has acquired the frame since. */
  lemma SecondReleaseIff(w: World, u: User, f: Name, w': World)
    requires Exact(w) && (u, f) !in w.mine && Step(w, Release(u, f), w')
    ensures w' == w <==> forall c :: (c, f) !in w.mine
  {
    if f in w.held {
      assert (w.held[f].user, f) in w.mine;
    }
    assert w.mine - {(u, f)} == w.mine;
  }

  lemma Extend(ws: seq<World>, es: seq<Event>, e: Event, w': World) returns (vs: seq<World>, fs: seq<Event>)
    requires Run(ws, es) && Step(ws[|ws| - 1], e, w')
    ensures Run(vs, fs) && |vs| == |ws| + 1 && vs[|vs| - 1] == w'
  {
    vs, fs := ws + [w'], es + [e];
    forall i | 0 <= i < |fs|
      ensures StepAt(vs, fs, i)
    {
      if i < |es| { assert StepAt(ws, es, i); }
    }
  }

  /** The pool's only frame, empty, in the hands of those listed, the last of whom it was handed to. */
  function Handed(users: set<(User, Name)>, user: User): World {
    EMPTY.(known := {0}, held := map[0 := Hold(user, {}, {})], mine := users)
  }

  /** Acquired, released and parked again. */
  lemma OneRound() returns (ws: seq<World>, es: seq<Event>)
    ensures Run(ws, es) && ws[|ws| - 1] == EMPTY.(known := {0}, idle := {0})
  {
    var one, left := Handed({(0, 0)}, 0), EMPTY.(known := {0}, leaving := map[0 := {}]);
    assert one.held - {0} == map[] && one.mine - {(0, 0)} == {} && one.held[0].cell + one.held[0].payload == {};
    ws, es := Extend([EMPTY], [], Acquire(0, 0), one);
    ws, es := Extend(ws, es, Release(0, 0), left);
    ws, es := Extend(ws, es, ParkFrame(0), EMPTY.(known := {0}, idle := {0}));
  }

  /** A frame released twice, with another user's turn in between: two users have it in the end. */
  lemma TwoUsersReachable() returns (ws: seq<World>, es: seq<Event>)
    ensures Run(ws, es) && {(1, 0), (2, 0)} <= ws[|ws| - 1].mine
  {
    ws, es := OneRound();
    var other, left := Handed({(1, 0)}, 1), EMPTY.(known := {0}, leaving := map[0 := {}], mine := {(1, 0)});
    assert other.held - {0} == map[] && other.mine - {(0, 0)} == {(1, 0)} && other.held[0].cell + other.held[0].payload == {};
    ws, es := Extend(ws, es, Acquire(1, 0), other);
    ws, es := Extend(ws, es, Release(0, 0), left);
    ws, es := Extend(ws, es, ParkFrame(0), EMPTY.(known := {0}, idle := {0}, mine := {(1, 0)}));
    ws, es := Extend(ws, es, Acquire(2, 0), Handed({(1, 0), (2, 0)}, 2));
  }
}
