/**
 The connection registry and the connection wrapper whose second `Close` is a success that does nothing.
 The mutex makes each registry method one step; `Reactor` interleaves those steps, and each method here
 is proved to do to the registry's books what the step does to them.
 */
module Registry {
  import opened Reactor

  // ---------------------------------------------------------------- the books

  /** Who is tracked, whether the sweep is over, and which accepted connections are shut. */
  datatype Books = Books(listed: set<Conn>, swept: bool, shut: set<Conn>)

  function BooksOf(s: State): Books {
    Books(s.listed, s.swept, s.closed * s.jobs.Keys)
  }

  function Added(b: Books, c: Conn, open: bool): Books {
    if b.swept then b else Books(b.listed + {c}, false, if open then b.shut else b.shut + {c})
  }

  function Removed(b: Books, c: Conn): Books {
    b.(listed := b.listed - {c})
  }

  function SweptOut(b: Books): Books {
    Books({}, true, b.shut + b.listed)
  }

  lemma AdmitAdds(s: State, w: nat)
    requires Base(s) && Enabled(s, Admit(w))
    ensures var c := s.workers[w].loop.c; BooksOf(Apply(s, Admit(w))) == Added(BooksOf(s), c, c !in s.closed)
  {
    assert WorkerOk(s, w);
  }

  lemma UnlistRemoves(s: State, c: Conn)
    requires Enabled(s, Unlist(c))
    ensures BooksOf(Apply(s, Unlist(c))) == Removed(BooksOf(s), c)
  {
    assert Apply(s, Unlist(c)).jobs.Keys == s.jobs.Keys;
  }

  /** A sweep in progress, carried to its end without interruption. */
  lemma {:induction false} SweepOn(s: State) returns (es: seq<Event>)
    requires s.driver.Sweeping?
    ensures Possible(s, es) && Run(s, es) == s.(listed := {}, swept := true, driver := Driver.Swept, closed := s.closed + s.driver.todo)
    decreases |s.driver.todo|
  {
    if s.driver.todo == {} {
      es := [EndSweep];
      assert es[1..] == [] && Possible(Apply(s, EndSweep), []);
      assert s.closed + s.driver.todo == s.closed;
    } else {
      var c :| c in s.driver.todo;
      var s' := s.(closed := s.closed + {c}, driver := Sweeping(s.driver.todo - {c}));
      var rest := SweepOn(s');
      es := [SweepOne(c)] + rest;
      assert s'.closed + s'.driver.todo == s.closed + s.driver.todo;
      RunFirst(s, SweepOne(c), rest);
    }
  }

  lemma RunFirst(s: State, e: Event, es: seq<Event>)
    requires Enabled(s, e) && Possible(Apply(s, e), es)
    ensures Possible(s, [e] + es) && Run(s, [e] + es) == Run(Apply(s, e), es)
  {
    assert ([e] + es)[1..] == es;
  }

  /** `CloseAll` is the whole of the sweep's steps. */
  lemma SweepIsCloseAll(s: State) returns (es: seq<Event>)
    requires Base(s) && s.driver.Waiting?
    ensures Possible(s, es) && BooksOf(Run(s, es)) == SweptOut(BooksOf(s))
  {
    var s' := Apply(s, BeginSweep);
    var rest := SweepOn(s');
    es := [BeginSweep] + rest;
    RunFirst(s, BeginSweep, rest);
    assert (s.closed + s.listed) * s.jobs.Keys == s.closed * s.jobs.Keys + s.listed;
  }

  // ---------------------------------------------------------------- the objects

  /** A socket and the note that it was closed through this wrapper; the socket may be shut from outside too. */
  class LifecycleConn {
    ghost const name: Conn
    var open: bool
    var closed: bool

    constructor (ghost name: Conn)
      ensures this.name == name && open && !closed
    {
      this.name := name;
      open, closed := true, false;
    }

    predicate Valid()
      reads this
    {
      closed ==> !open
    }

    /** Shuts the socket itself, which is an error the second time. */
    method CloseSocket() returns (ok: bool)
      modifies this`open
      ensures !open && ok == old(open)
    {
      ok := open;
      open := false;
    }

    method Close() returns (ok: bool)
      requires Valid()
      modifies this
      ensures Valid() && closed && !open && ok == old(closed || open)
    {
      var wasClosed := closed;
      closed := true;
      if wasClosed {
        return true;
      }
      ok := CloseSocket();
    }
  }

  /** The connections whose `Close` would be a success. */
  ghost function Clean(conns: set<LifecycleConn>): set<LifecycleConn>
    reads conns
  {
    set c | c in conns && (c.closed || c.open)
  }

  ghost function Names(conns: set<LifecycleConn>): set<Conn> {
    set c | c in conns :: c.name
  }

  ghost function ShutOf(conns: set<LifecycleConn>): set<LifecycleConn>
    reads conns
  {
    set c | c in conns && !c.open
  }

  /** Different connections have different names. */
  ghost predicate Named(conns: set<LifecycleConn>) {
    forall c, d :: c in conns && d in conns && c.name == d.name ==> c == d
  }

  lemma NamesMinus(conns: set<LifecycleConn>, all: set<LifecycleConn>, conn: LifecycleConn)
    requires Named(all) && conns <= all && conn in all
    ensures Names(conns - {conn}) == Names(conns) - {conn.name}
  {
    forall n | n in Names(conns) - {conn.name}
      ensures n in Names(conns - {conn})
    {
      var c :| c in conns && c.name == n;
      assert c in conns - {conn};
    }
  }

  lemma NamesPlus(a: set<LifecycleConn>, b: set<LifecycleConn>)
    ensures Names(a + b) == Names(a) + Names(b)
  {
    forall n | n in Names(a) + Names(b)
      ensures n in Names(a + b)
    {
      var c :| c in a + b && c.name == n;
    }
  }

  /** How many of some elements have been taken off the rest. */
  ghost function Counted<T>(all: set<T>, todo: set<T>, some: set<T>): nat {
    |(all - todo) * some|
  }

  lemma CountStarts<T>(all: set<T>, some: set<T>)
    requires some <= all
    ensures Counted(all, all, some) == 0 && Counted(all, {}, some) == |some|
  {
    assert (all - all) * some == {} && (all - {}) * some == some;
  }

  lemma OneMoreCounted<T>(all: set<T>, todo: set<T>, c: T, some: set<T>)
    requires c in todo && todo <= all
    ensures Counted(all, todo - {c}, some) == Counted(all, todo, some) + (if c in some then 1 else 0)
  {
    assert (all - (todo - {c})) * some == (all - todo) * some + (if c in some then {c} else {});
  }

  /** A connection still to be closed, which will be a success or not, or one that has been. */
  ghost predicate Due(c: LifecycleConn, ahead: bool, clean: bool)
    reads c
  {
    c.Valid() && if ahead then clean <==> c.closed || c.open else !c.open
  }

  /** Closes each connection once and counts the closes that were a success. */
  method CloseEach(conns: set<LifecycleConn>) returns (n: nat)
    requires forall c :: c in conns ==> c.Valid()
    modifies conns
    ensures forall c :: c in conns ==> c.Valid() && !c.open
    ensures n == |old(Clean(conns))|
  {
    var todo := conns;
    ghost var clean := Clean(conns);
    n := 0;
    CountStarts(conns, clean);
    while todo != {}
      invariant todo <= conns
      invariant forall c :: c in conns ==> Due(c, c in todo, c in clean)
      invariant n == Counted(conns, todo, clean)
      decreases todo
    {
      var conn :| conn in todo;
      assert Due(conn, true, conn in clean);
      var ok := conn.Close();
      OneMoreCounted(conns, todo, conn, clean);
      n := if ok then n + 1 else n;
      todo := todo - {conn};
    }
  }

  class ConnectionRegistry {
    var conns: set<LifecycleConn>
    var closed: bool
    ghost var accepted: set<LifecycleConn>
    ghost var forsaken: set<LifecycleConn>

    ghost function View(): Books
      reads this, accepted
    {
      Books(Names(conns), closed, Names(ShutOf(accepted)))
    }

    /**
     Everything accepted is tracked, shut, or was removed while still open; once the registry is closed
     nothing is tracked.
     */
    ghost predicate Valid()
      reads this, accepted
    {
      && conns <= accepted && Named(accepted) && (closed ==> conns == {})
      && (forall c :: c in accepted ==> c.Valid())
      && (forall c :: c in accepted && c !in conns && c !in forsaken ==> !c.open)
    }

    constructor ()
      ensures Valid() && View() == BooksOf(Fresh(0)) && accepted == {} && forsaken == {}
    {
      conns, closed, accepted, forsaken := {}, false, {}, {};
    }

    method Add(conn: LifecycleConn) returns (ok: bool)
      requires Valid() && conn.Valid() && Named(accepted + {conn})
      modifies this
      ensures Valid() && ok == !old(closed) && View() == Added(old(View()), conn.name, conn.open)
      ensures accepted == old(accepted) + (if ok then {conn} else {})
      ensures conns == old(conns) + (if ok then {conn} else {}) && forsaken == old(forsaken)
    {
      if closed {
        return false;
      }
      NamesPlus(conns, {conn});
      NamesPlus(ShutOf(accepted), if conn.open then {} else {conn});
      assert ShutOf(accepted + {conn}) == ShutOf(accepted) + (if conn.open then {} else {conn});
      conns, accepted := conns + {conn}, accepted + {conn};
      return true;
    }

    /** Forgets a connection. One that is still open is nobody's business from then on. */
    method Remove(conn: LifecycleConn)
      requires Valid() && Named(accepted + {conn})
      modifies this
      ensures Valid() && View() == Removed(old(View()), conn.name)
      ensures conns == old(conns) - {conn} && accepted == old(accepted)
      ensures forsaken == old(forsaken) + (if conn in old(conns) && conn.open then {conn} else {})
    {
      NamesMinus(conns, accepted + {conn}, conn);
      if conn in conns && conn.open {
        forsaken := forsaken + {conn};
      }
      conns := conns - {conn};
    }

    /**
     Closes every tracked connection and the registry itself, for good, and counts the closes that were a
     success; every connection ever accepted is then shut, unless it was removed while open.
     */
    method CloseAll() returns (n: nat)
      requires Valid()
      modifies this, conns
      ensures Valid() && View() == SweptOut(old(View())) && accepted == old(accepted) && forsaken == old(forsaken)
      ensures n == |old(Clean(conns))|
      ensures closed && conns == {} && forall c :: c in accepted - forsaken ==> !c.open
    {
      ghost var shut, tracked := ShutOf(accepted), conns;
      n := CloseEach(conns);
      NamesPlus(shut, tracked);
      assert ShutOf(accepted) == shut + tracked;
      conns, closed := {}, true;
    }
  }
}
