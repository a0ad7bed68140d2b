/**
 The client's replay bookkeeping: per topic a contiguous cursor plus the accepted sequence numbers
 beyond it, which together stand for the set of publishes the application has accepted.
 */
module Resilient {
  import opened PubSub

  /** One topic's state: everything up to `cursor` is accepted, and so is everything parked. */
  datatype Tracker = Tracker(cursor: nat, parked: set<nat>)

  const NEW := Tracker(0, {})

  /** The accepted set a tracker stands for; sequence numbers start at 1. */
  predicate Has(r: Tracker, n: nat) {
    1 <= n <= r.cursor || n in r.parked
  }

  /** Nothing parked could already have been absorbed. */
  predicate Normal(r: Tracker) {
    forall n :: n in r.parked ==> n > r.cursor + 1
  }

  predicate ShouldDeliver(r: Tracker, n: nat) {
    n > r.cursor && n !in r.parked
  }

  /** Moves the cursor over parked neighbours. */
  function Absorb(r: Tracker): Tracker
    decreases r.parked
  {
    if r.cursor + 1 in r.parked then Absorb(Tracker(r.cursor + 1, r.parked - {r.cursor + 1})) else r
  }

  function Acknowledge(r: Tracker, n: nat): Tracker {
    if n <= r.cursor then r
    else if n != r.cursor + 1 then Tracker(r.cursor, r.parked + {n})
    else Absorb(Tracker(n, r.parked))
  }

  /** Adopts the server's number when it lies below the cursor, which means the topic was reset. */
  function Align(r: Tracker, lastSeq: nat): Tracker {
    if lastSeq < r.cursor then Tracker(lastSeq, {}) else r
  }

  // ---------------------------------------------------------------- the tracker is a set

  lemma {:induction false} AbsorbKeeps(r: Tracker)
    requires forall n :: n in r.parked ==> n > r.cursor
    ensures Normal(Absorb(r)) && Absorb(r).cursor >= r.cursor
    ensures forall n :: Has(Absorb(r), n) <==> Has(r, n)
    decreases r.parked
  {
    if r.cursor + 1 in r.parked {
      var next := Tracker(r.cursor + 1, r.parked - {r.cursor + 1});
      AbsorbKeeps(next);
      assert forall n :: Has(next, n) <==> Has(r, n);
    }
  }

  /** Acknowledging adds exactly one element and keeps the parked part beyond the cursor. */
  lemma AcknowledgeAdds(r: Tracker, n: nat)
    requires Normal(r) && n >= 1
    ensures Normal(Acknowledge(r, n)) && Acknowledge(r, n).cursor >= r.cursor
    ensures forall m :: Has(Acknowledge(r, n), m) <==> Has(r, m) || m == n
  {
    if n == r.cursor + 1 {
      AbsorbKeeps(Tracker(n, r.parked));
    }
  }

  /** The delivery filter is exactly non-membership. */
  lemma FilterIsNonMembership(r: Tracker, n: nat)
    requires n >= 1
    ensures ShouldDeliver(r, n) <==> !Has(r, n)
  {
    if n <= r.cursor { assert Has(r, n); }
  }

  /** The cursor is the largest number below which everything is accepted. */
  lemma CursorIsMaximal(r: Tracker, c: nat)
    requires Normal(r)
    ensures (forall n :: 1 <= n <= c ==> Has(r, n)) <==> c <= r.cursor
  {
    if c > r.cursor {
      assert !Has(r, r.cursor + 1);
    }
  }

  function AcknowledgeAll(ns: seq<nat>): Tracker {
    if ns == [] then NEW else Acknowledge(AcknowledgeAll(ns[..|ns| - 1]), ns[|ns| - 1])
  }

  /** After any acknowledgements in any order the tracker is the set of what was acknowledged. */
  lemma {:induction false} TrackerIsTheAcknowledgedSet(ns: seq<nat>)
    requires forall n :: n in ns ==> n >= 1
    ensures Normal(AcknowledgeAll(ns))
    ensures forall n :: Has(AcknowledgeAll(ns), n) <==> n in ns
  {
    if ns != [] {
      var front, last := ns[..|ns| - 1], ns[|ns| - 1];
      assert ns == front + [last] && last in ns;
      assert forall n :: n in front ==> n in ns;
      TrackerIsTheAcknowledgedSet(front);
      AcknowledgeAdds(AcknowledgeAll(front), last);
    }
  }

  /** Trackers that stand for the same set are the same tracker. */
  lemma TrackerIsCanonical(a: Tracker, b: Tracker)
    requires Normal(a) && Normal(b) && forall n :: Has(a, n) <==> Has(b, n)
    ensures a == b
  {
    CursorIsMaximal(a, b.cursor);
    CursorIsMaximal(b, a.cursor);
    forall n
      ensures n in a.parked <==> n in b.parked
    {
      assert Has(a, n) <==> Has(b, n);
    }
  }

  /** The order of acknowledgement does not matter, nor do repetitions. */
  lemma OrderIsIrrelevant(ns: seq<nat>, ms: seq<nat>)
    requires forall n :: n in ns <==> n in ms
    requires forall n :: n in ns ==> n >= 1
    ensures AcknowledgeAll(ns) == AcknowledgeAll(ms)
  {
    TrackerIsTheAcknowledgedSet(ns);
    TrackerIsTheAcknowledgedSet(ms);
    TrackerIsCanonical(AcknowledgeAll(ns), AcknowledgeAll(ms));
  }

  /**
   A number that is never acknowledged, because the client joined the topic later or the server used
   it up without sending a frame, holds the cursor below it forever: all later ones stay parked.
   */
  lemma MissingNumberHoldsTheCursor(ns: seq<nat>, gap: nat)
    requires gap >= 1 && gap !in ns && forall n :: n in ns ==> n >= 1
    ensures AcknowledgeAll(ns).cursor < gap
    ensures forall n :: n in ns && n > gap ==> n in AcknowledgeAll(ns).parked
  {
    TrackerIsTheAcknowledgedSet(ns);
    var r := AcknowledgeAll(ns);
    assert !Has(r, gap);
    forall n | n in ns && n > gap
      ensures n in r.parked
    {
      assert Has(r, n);
    }
  }

  /**
   After a resubscribe that reports `lastSeq`, every later publish passes the filter if and only if
   the topic was seen to be reset, or no parked number lies ahead. Parked numbers of an earlier life of
   the topic, when its new life is already past the cursor, swallow fresh publishes.
   */
  lemma AlignLetsFutureThrough(r: Tracker, lastSeq: nat)
    ensures (forall n :: n > lastSeq ==> ShouldDeliver(Align(r, lastSeq), n)) <==>
            (lastSeq < r.cursor || forall n :: n in r.parked ==> n <= lastSeq)
  {
    if lastSeq >= r.cursor {
      if n :| n in r.parked && n > lastSeq {
        assert !ShouldDeliver(Align(r, lastSeq), n);
      }
    }
  }

  lemma StaleParkedSwallows()
    ensures !ShouldDeliver(Align(AcknowledgeAll([1, 3]), 2), 3)
  {
    var ns := [1, 3];
    assert ns[..1] == [1] && [1][..0] == [];
    assert AcknowledgeAll([1]) == Acknowledge(AcknowledgeAll([]), 1);
    assert Absorb(Tracker(1, {})) == Tracker(1, {});
    assert AcknowledgeAll(ns) == Acknowledge(AcknowledgeAll([1]), 3);
  }

  // ---------------------------------------------------------------- without acknowledgements

  /** The cursor of a client that acknowledges nothing: the highest number seen. */
  function Highest(ns: seq<nat>): nat {
    if ns == [] then 0
    else
      var init := Highest(ns[..|ns| - 1]);
      if ns[|ns| - 1] > init then ns[|ns| - 1] else init
  }

  lemma {:induction false} HighestIsReached(ns: seq<nat>)
    ensures (forall n :: n in ns ==> n <= Highest(ns)) && (Highest(ns) in ns || Highest(ns) == 0)
  {
    if ns != [] {
      HighestIsReached(ns[..|ns| - 1]);
      assert ns == ns[..|ns| - 1] + [ns[|ns| - 1]];
    }
  }

  /**
   What such a client is replayed it has never seen; but every cached frame it has not seen is replayed
   if and only if it has seen every cached frame that is older than one it has seen.
   */
  lemma PlainCatchesUpIff(es: seq<Cached>, ns: seq<nat>)
    requires forall p :: p in es ==> p.seqNo >= 1
    ensures forall p :: p in Newer(es, Highest(ns)) ==> p.seqNo !in ns
    ensures (forall p :: p in es && p.seqNo !in ns ==> p in Newer(es, Highest(ns))) <==>
            (forall p, n :: p in es && n in ns && p.seqNo < n ==> p.seqNo in ns)
  {
    HighestIsReached(ns);
    forall p
      ensures p in Newer(es, Highest(ns)) <==> p in es && p.seqNo > Highest(ns)
    {
      NewerAreAbove(es, Highest(ns), p);
    }
    if p :| p in es && p.seqNo !in ns && p !in Newer(es, Highest(ns)) {
      assert p.seqNo < Highest(ns) && Highest(ns) in ns;
    }
  }

  /** Two publishes that reach it out of order, the connection lost in between: the first is never replayed. */
  lemma PlainSkips(p: Cached, q: Cached)
    requires p.seqNo == 1 && q.seqNo == 2
    ensures p !in Newer([p, q], Highest([2])) && p !in Newer([q, p], Highest([2]))
  {
    assert [2][..0] == [] && Highest([]) == 0;
    NewerAreAbove([p, q], Highest([2]), p);
    NewerAreAbove([q, p], Highest([2]), p);
  }

  // ---------------------------------------------------------------- the client

  datatype Option<T> = None | Some(value: T)

  type Client = nat

  class ResilientClient {
    var cursors: map<Topic, nat>
    var acceptedPublishes: map<Topic, set<nat>>
    var subscribed: set<Topic>
    var token: Token
    var client: Option<Client>
    var closed: bool

    /** The connections handed to `Swap` so far, and those closed so far. */
    ghost var given: set<Client>
    var shut: set<Client>

    function Track(t: Topic): Tracker
      reads this
    {
      Tracker(if t in cursors then cursors[t] else 0, if t in acceptedPublishes then acceptedPublishes[t] else {})
    }

    /** Every connection but the current one is closed, and after Close that one is too. */
    ghost predicate NoLeak()
      reads this
    {
      && (client.Some? ==> client.value in given)
      && forall c :: c in given ==> c in shut || (client == Some(c) && !closed)
    }

    constructor ()
      ensures NoLeak() && !closed && given == {} && forall t :: Track(t) == NEW
    {
      cursors, acceptedPublishes, subscribed, token := map[], map[], {}, NO_TOKEN;
      client, closed, given, shut := None, false, {}, {};
    }

    /** Raises a cursor without a gap check: the client that keeps no acknowledgements. */
    method SetPublishCursor(topic: Topic, n: nat)
      modifies this`cursors
      ensures forall t :: Track(t) == if t == topic && n > old(Track(t)).cursor then old(Track(t)).(cursor := n) else old(Track(t))
    {
      if n > (if topic in cursors then cursors[topic] else 0) {
        cursors := cursors[topic := n];
      }
    }

    method ShouldDeliverPublish(topic: Topic, n: nat) returns (yes: bool)
      ensures yes <==> ShouldDeliver(Track(topic), n)
    {
      if n <= (if topic in cursors then cursors[topic] else 0) {
        return false;
      }
      return !(topic in acceptedPublishes && n in acceptedPublishes[topic]);
    }

    method AcknowledgePublish(topic: Topic, n: nat)
      modifies this`cursors, this`acceptedPublishes
      ensures Track(topic) == Acknowledge(old(Track(topic)), n)
      ensures forall t :: t != topic ==> Track(t) == old(Track(t))
    {
      var cursor := if topic in cursors then cursors[topic] else 0;
      if n <= cursor {
        return;
      }
      var accepted := if topic in acceptedPublishes then acceptedPublishes[topic] else {};
      if n != cursor + 1 {
        acceptedPublishes := acceptedPublishes[topic := accepted + {n}];
        return;
      }
      cursors := cursors[topic := n];
      while accepted != {}
        invariant topic in cursors && Absorb(Tracker(cursors[topic], accepted)) == Absorb(Tracker(n, old(Track(topic)).parked))
        invariant forall t :: t != topic ==> Track(t) == old(Track(t))
        decreases accepted
      {
        var next := cursors[topic] + 1;
        if next !in accepted {
          break;
        }
        accepted := accepted - {next};
        cursors := cursors[topic := next];
      }
      acceptedPublishes := if accepted == {} then acceptedPublishes - {topic} else acceptedPublishes[topic := accepted];
    }

    method AlignReplayState(topic: Topic, lastSeq: nat)
      modifies this`cursors, this`acceptedPublishes
      ensures Track(topic) == Align(old(Track(topic)), lastSeq)
      ensures forall t :: t != topic ==> Track(t) == old(Track(t))
    {
      if lastSeq < (if topic in cursors then cursors[topic] else 0) {
        cursors := cursors[topic := lastSeq];
        acceptedPublishes := acceptedPublishes - {topic};
      }
    }

    /** What a resume handshake reports: the cursor of every topic, and zero for the others. */
    method SnapshotCursors() returns (out: map<Topic, nat>)
      ensures forall t :: Cursor(out, t) == Track(t).cursor
    {
      out := cursors;
    }

    method NoteSubscribed(topic: Topic, lastSeq: nat)
      modifies this`subscribed, this`cursors, this`acceptedPublishes
      ensures subscribed == old(subscribed) + {topic}
      ensures Track(topic) == Align(old(Track(topic)), lastSeq)
      ensures forall t :: t != topic ==> Track(t) == old(Track(t))
    {
      subscribed := subscribed + {topic};
      AlignReplayState(topic, lastSeq);
    }

    method NoteUnsubscribed(topic: Topic)
      modifies this`subscribed, this`cursors, this`acceptedPublishes
      ensures subscribed == old(subscribed) - {topic} && Track(topic) == NEW
      ensures forall t :: t != topic ==> Track(t) == old(Track(t))
    {
      subscribed := subscribed - {topic};
      cursors := cursors - {topic};
      acceptedPublishes := acceptedPublishes - {topic};
    }

    /**
     Installs a freshly dialled connection, unless Close won the race: then it is closed at once. The
     topics returned have to be subscribed again because the session was not resumed.
     */
    method Swap(c: Client, newToken: Token, resumed: bool) returns (resubscribe: set<Topic>)
      requires NoLeak() && c !in given
      modifies this`client, this`token, this`given, this`shut
      ensures NoLeak() && given == old(given) + {c}
      ensures old(closed) ==> client == old(client) && token == old(token) && resubscribe == {} && c in shut
      ensures !old(closed) ==> client == Some(c) && token == newToken && resubscribe == if resumed then {} else subscribed
    {
      given := given + {c};
      if closed {
        shut := shut + {c};
        return {};
      }
      var was := client;
      client, token := Some(c), newToken;
      if was.Some? {
        shut := shut + {was.value};
      }
      return if resumed then {} else subscribed;
    }

    method Close()
      requires NoLeak()
      modifies this`closed, this`shut
      ensures NoLeak() && closed && given <= shut
    {
      closed := true;
      if client.Some? {
        shut := shut + {client.value};
      }
    }
  }
}
