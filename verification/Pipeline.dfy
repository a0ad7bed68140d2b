/**
 The handler pipeline: a doubly linked list of contexts between a fixed head, which can only write, and a
 fixed tail, which can only take exceptions. The list refines the sequence of its handlers.
 */
module Pipeline {
  datatype Kind = Active | Inbound | Outbound | Exception | Inactive | Executor

  /** A handler, by name and by the events it can take. */
  datatype Handler = Handler(name: nat, can: set<Kind>)

  const HEAD := Handler(0, {Outbound})
  const TAIL := Handler(1, {Exception})

  class NodeContext {
    const handler: Handler
    var prev: NodeContext?
    var next: NodeContext?

    constructor (handler: Handler, prev: NodeContext?, next: NodeContext?)
      ensures this.handler == handler && this.prev == prev && this.next == next
    {
      this.handler, this.prev, this.next := handler, prev, next;
    }
  }

  function HandlersOf(nodes: seq<NodeContext>): (hs: seq<Handler>)
    ensures |hs| == |nodes|
  {
    seq(|nodes|, i requires 0 <= i < |nodes| => nodes[i].handler)
  }

  function Nth(nodes: seq<NodeContext>, i: int): NodeContext? {
    if 0 <= i < |nodes| then nodes[i] else null
  }

  predicate LinkedAt(nodes: seq<NodeContext>, i: nat)
    requires i < |nodes|
    reads nodes[i]
  {
    nodes[i].next == Nth(nodes, i + 1) && nodes[i].prev == Nth(nodes, i - 1)
  }

  predicate Distinct(nodes: seq<NodeContext>) {
    forall i, j :: 0 <= i < j < |nodes| ==> nodes[i] != nodes[j]
  }

  /** Forward links follow the order of the nodes and backward links invert them; no node comes twice. */
  ghost predicate Linked(nodes: seq<NodeContext>)
    reads nodes
  {
    Distinct(nodes) && forall i :: 0 <= i < |nodes| ==> LinkedAt(nodes, i)
  }

  /** The nodes with a new one put behind position k. */
  function Spliced(nodes: seq<NodeContext>, k: nat, node: NodeContext): seq<NodeContext>
    requires k < |nodes|
  {
    nodes[..k + 1] + [node] + nodes[k + 1..]
  }

  /** Linked but for a new node that the two nodes at a seam point to. */
  ghost predicate Relinked(nodes: seq<NodeContext>, k: nat, node: NodeContext)
    requires k + 1 < |nodes|
    reads nodes, node
  {
    && Distinct(nodes) && node !in nodes
    && (forall i :: 0 <= i < |nodes| && i != k ==> nodes[i].next == Nth(nodes, i + 1))
    && (forall i :: 0 <= i < |nodes| && i != k + 1 ==> nodes[i].prev == Nth(nodes, i - 1))
    && nodes[k].next == node && nodes[k + 1].prev == node && node.prev == nodes[k] && node.next == nodes[k + 1]
  }

  lemma SplicedAt(nodes: seq<NodeContext>, k: nat, node: NodeContext, i: int)
    requires k < |nodes| && -1 <= i <= |nodes| + 1
    ensures Nth(Spliced(nodes, k, node), i) == if i <= k then Nth(nodes, i) else if i == k + 1 then node else Nth(nodes, i - 1)
  {
  }

  lemma SplicedDistinct(nodes: seq<NodeContext>, k: nat, node: NodeContext)
    requires k < |nodes| && Distinct(nodes) && node !in nodes
    ensures Distinct(Spliced(nodes, k, node))
  {
    var all := Spliced(nodes, k, node);
    forall i, j | 0 <= i < j < |all|
      ensures all[i] != all[j]
    {
      SplicedAt(nodes, k, node, i);
      SplicedAt(nodes, k, node, j);
    }
  }

  lemma SplicedIn(nodes: seq<NodeContext>, k: nat, node: NodeContext, repr: set<NodeContext>)
    requires k < |nodes| && forall i :: 0 <= i < |nodes| ==> nodes[i] in repr
    ensures var all := Spliced(nodes, k, node);
            && |all| == |nodes| + 1 && all[0] == nodes[0] && (k + 1 < |nodes| ==> all[|nodes|] == nodes[|nodes| - 1])
            && (forall i :: 0 <= i < |all| ==> all[i] in repr + {node})
            && HandlersOf(all) == Inserted(HandlersOf(nodes), k + 1, [node.handler])
  {
    var all := Spliced(nodes, k, node);
    forall i | 0 <= i < |all|
      ensures all[i] in repr + {node}
      ensures HandlersOf(all)[i] == Inserted(HandlersOf(nodes), k + 1, [node.handler])[i]
    {
      SplicedAt(nodes, k, node, i);
    }
  }

  lemma RelinkedIsLinked(nodes: seq<NodeContext>, k: nat, node: NodeContext)
    requires k + 1 < |nodes| && Relinked(nodes, k, node)
    ensures Linked(Spliced(nodes, k, node))
  {
    var all := Spliced(nodes, k, node);
    SplicedDistinct(nodes, k, node);
    forall i | 0 <= i < |all|
      ensures LinkedAt(all, i)
    {
      SplicedAt(nodes, k, node, i - 1);
      SplicedAt(nodes, k, node, i);
      SplicedAt(nodes, k, node, i + 1);
    }
  }

  /** Points a new node's two neighbours at it. */
  method LinkIn(before: NodeContext, node: NodeContext, after: NodeContext, ghost nodes: seq<NodeContext>, ghost k: nat)
    requires Linked(nodes) && k + 1 < |nodes| && before == nodes[k] && after == nodes[k + 1]
    requires node !in nodes && node.prev == before && node.next == after
    modifies before`next, after`prev
    ensures Linked(Spliced(nodes, k, node))
  {
    assert forall i :: 0 <= i < |nodes| ==> LinkedAt(nodes, i);
    assert forall i :: 0 <= i < |nodes| ==> (i != k ==> nodes[i] != before) && (i != k + 1 ==> nodes[i] != after);
    before.next := node;
    after.prev := node;
    forall i | 0 <= i < |nodes|
      ensures i != k ==> nodes[i].next == Nth(nodes, i + 1)
      ensures i != k + 1 ==> nodes[i].prev == Nth(nodes, i - 1)
    {
      assert old(LinkedAt(nodes, i));
    }
    RelinkedIsLinked(nodes, k, node);
  }

  function Reversed(hs: seq<Handler>): seq<Handler> {
    if hs == [] then [] else Reversed(hs[1..]) + [hs[0]]
  }

  datatype Outcome = Done | Panicked

  class LinkedPipeline {
    var head: NodeContext
    var tail: NodeContext
    var size: int
    ghost var nodes: seq<NodeContext>
    ghost var repr: set<NodeContext>

    ghost predicate Valid()
      reads this, repr
    {
      && (forall i :: 0 <= i < |nodes| ==> nodes[i] in repr)
      && |nodes| == size >= 2 && head == nodes[0] && tail == nodes[size - 1] && Linked(nodes)
      && head.handler == HEAD && tail.handler == TAIL
    }

    ghost function Handlers(): seq<Handler>
      reads this
    {
      HandlersOf(nodes)
    }

    constructor ()
      ensures Valid() && Handlers() == [HEAD, TAIL] && fresh(repr)
    {
      var h := new NodeContext(HEAD, null, null);
      var t := new NodeContext(TAIL, null, null);
      h.next := t;
      t.prev := h;
      head, tail, size, nodes, repr := h, t, 2, [h, t], {h, t};
    }

    /** Links a new node in behind another that is not the last. */
    method InsertAfter(cur: NodeContext, h: Handler, ghost k: nat) returns (node: NodeContext)
      requires Valid() && k + 1 < |nodes| && nodes[k] == cur
      modifies this, repr
      ensures Valid() && size == old(size) + 1 && nodes[k + 1] == node && fresh(repr - old(repr))
      ensures Handlers() == Inserted(old(Handlers()), k + 1, [h])
    {
      assert LinkedAt(nodes, k) && nodes[k + 1] in repr;
      var after := cur.next;
      node := new NodeContext(h, cur, after);
      Adopt(node, k);
      size := size + 1;
      LinkIn(cur, node, after, old(nodes), k);
    }

    /** Enters a node that is about to be linked in. */
    ghost method Adopt(node: NodeContext, k: nat)
      requires k + 1 < |nodes| && forall i :: 0 <= i < |nodes| ==> nodes[i] in repr
      modifies `nodes, `repr
      ensures nodes == Spliced(old(nodes), k, node) && repr == old(repr) + {node}
      ensures |nodes| == |old(nodes)| + 1 && nodes[0] == old(nodes)[0] && nodes[|nodes| - 1] == old(nodes)[|old(nodes)| - 1]
      ensures (forall i :: 0 <= i < |nodes| ==> nodes[i] in repr) && Handlers() == Inserted(old(Handlers()), k + 1, [node.handler])
    {
      SplicedIn(nodes, k, node, repr);
      nodes, repr := Spliced(nodes, k, node), repr + {node};
    }

    /** Links a new node in before the tail. */
    method AddLastOne(h: Handler)
      requires Valid()
      modifies this, repr
      ensures Valid() && size == old(size) + 1 && fresh(repr - old(repr))
      ensures Handlers() == Inserted(old(Handlers()), old(size) - 1, [h])
    {
      assert LinkedAt(nodes, |nodes| - 1) && nodes[|nodes| - 2] in repr;
      var oldPrev := tail.prev;
      var node := new NodeContext(h, oldPrev, tail);
      Adopt(node, |nodes| - 2);
      size := size + 1;
      LinkIn(oldPrev, node, tail, old(nodes), |old(nodes)| - 2);
    }

    /** Links a new node in behind the head. */
    method AddFirstOne(h: Handler)
      requires Valid()
      modifies this, repr
      ensures Valid() && fresh(repr - old(repr))
      ensures Handlers() == Inserted(old(Handlers()), 1, [h])
    {
      var node := InsertAfter(head, h, 0);
    }

    /** Puts handlers one by one behind the head, which leaves the last of them first. One that can do nothing is refused, with all the others. */
    method AddFirst(hs: seq<Handler>) returns (r: Outcome)
      requires Valid()
      modifies this, repr
      ensures Valid() && (r == Done <==> forall h :: h in hs ==> h.can != {}) && fresh(repr - old(repr))
      ensures Handlers() == if r == Done then Inserted(old(Handlers()), 1, Reversed(hs)) else old(Handlers())
    {
      if exists i :: 0 <= i < |hs| && hs[i].can == {} {
        return Panicked;
      }
      for i := 0 to |hs|
        invariant Valid() && fresh(repr - old(repr))
        invariant Handlers() == Stacked(old(Handlers()), hs, i)
      {
        AddFirstOne(hs[i]);
      }
      StackedIsReversed(old(Handlers()), hs, |hs|);
      return Done;
    }

    /** Puts handlers one by one before the tail, in their order. */
    method AddLast(hs: seq<Handler>) returns (r: Outcome)
      requires Valid()
      modifies this, repr
      ensures Valid() && (r == Done <==> forall h :: h in hs ==> h.can != {}) && fresh(repr - old(repr))
      ensures Handlers() == if r == Done then Inserted(old(Handlers()), old(size) - 1, hs) else old(Handlers())
    {
      if exists i :: 0 <= i < |hs| && hs[i].can == {} {
        return Panicked;
      }
      for i := 0 to |hs|
        invariant Valid() && size == old(size) + i && fresh(repr - old(repr))
        invariant Handlers() == Queued(old(Handlers()), old(size) - 1, hs, i)
      {
        AddLastOne(hs[i]);
      }
      QueuedIsInserted(old(Handlers()), old(size) - 1, hs, |hs|);
      return Done;
    }

    /** Walks forward from the head. */
    method Walk(position: nat) returns (node: NodeContext)
      requires Valid() && position < |nodes|
      ensures node == nodes[position]
    {
      node := head;
      for i := 0 to position
        invariant node == nodes[i]
      {
        assert LinkedAt(nodes, i);
        node := node.next;
      }
    }

    /** Puts handlers behind a node that is not the last, in their order. */
    method AddBehind(start: NodeContext, position: nat, hs: seq<Handler>)
      requires Valid() && position + 1 < |nodes| && nodes[position] == start
      modifies this, repr
      ensures Valid() && Handlers() == Inserted(old(Handlers()), position + 1, hs)
    {
      var cur := start;
      for i := 0 to |hs|
        invariant Valid() && size == old(size) + i && fresh(repr - old(repr))
        invariant cur == nodes[position + i]
        invariant Handlers() == Queued(old(Handlers()), position + 1, hs, i)
      {
        cur := InsertAfter(cur, hs[i], position + i);
      }
      QueuedIsInserted(old(Handlers()), position + 1, hs, |hs|);
    }

    /** The write that happens before the panic. */
    method Damage(cur: NodeContext, h: Handler)
      requires Valid() && cur == tail
      modifies tail
      ensures tail.next != null && !Valid()
    {
      assert LinkedAt(nodes, |nodes| - 1);
      var node := new NodeContext(h, cur, null);
      cur.next := node;
      assert !LinkedAt(nodes, |nodes| - 1);
    }

    /** Puts handlers in at a position: behind the head in reverse, before the tail, or behind the node there. */
    method AddHandler(position: int, hs: seq<Handler>) returns (r: Outcome)
      requires Valid()
      modifies this, repr
      ensures r == Panicked <==>
              (exists h :: h in hs && h.can == {}) || position < 0 || position > old(size) || (position == old(size) - 1 && hs != [])
      ensures r == Panicked && !(0 <= position == old(size) - 1 && (forall h :: h in hs ==> h.can != {})) ==> Valid() && Handlers() == old(Handlers())
      ensures r == Panicked && 0 <= position == old(size) - 1 && (forall h :: h in hs ==> h.can != {}) ==> !Valid()
      ensures r == Done ==> Valid()
      ensures r == Done ==> Handlers() == if position == 0 then Inserted(old(Handlers()), 1, Reversed(hs))
                                          else if position == old(size) then Inserted(old(Handlers()), old(size) - 1, hs)
                                          else Inserted(old(Handlers()), position + 1, hs)
    {
      if exists i :: 0 <= i < |hs| && hs[i].can == {} {
        return Panicked;
      }
      if position < 0 || position > size {
        return Panicked;
      }
      if position == 0 {
        r := AddFirst(hs);
      } else if position == size {
        r := AddLast(hs);
      } else {
        var cur := Walk(position);
        assert LinkedAt(nodes, position);
        if hs == [] {
          InsertedNothing(Handlers(), position + 1);
        } else if cur.next == null {
          Damage(cur, hs[0]);
          return Panicked;
        } else {
          AddBehind(cur, position, hs);
        }
        r := Done;
      }
    }

    /** The first position whose handler satisfies a test. */
    method IndexOf(f: Handler -> bool) returns (k: int)
      requires Valid()
      ensures k == -1 ==> forall i :: 0 <= i < |nodes| ==> !f(nodes[i].handler)
      ensures k != -1 ==> 0 <= k < |nodes| && f(nodes[k].handler) && forall i :: 0 <= i < k ==> !f(nodes[i].handler)
    {
      var cur, i := head, 0;
      while true
        invariant 0 <= i < |nodes| && cur == nodes[i]
        invariant forall j :: 0 <= j < i ==> !f(nodes[j].handler)
        decreases |nodes| - i
      {
        if f(cur.handler) {
          return i;
        }
        assert LinkedAt(nodes, i);
        if cur.next == null {
          return -1;
        }
        cur, i := cur.next, i + 1;
      }
    }

    /** The last position whose handler satisfies a test, found from the tail. */
    method LastIndexOf(f: Handler -> bool) returns (k: int)
      requires Valid()
      ensures k == -1 ==> forall i :: 0 <= i < |nodes| ==> !f(nodes[i].handler)
      ensures k != -1 ==> 0 <= k < |nodes| && f(nodes[k].handler) && forall i :: k < i < |nodes| ==> !f(nodes[i].handler)
    {
      var cur, i := tail, size - 1;
      while true
        invariant 0 <= i < |nodes| && cur == nodes[i]
        invariant forall j :: i < j < |nodes| ==> !f(nodes[j].handler)
        decreases i
      {
        if f(cur.handler) {
          return i;
        }
        assert LinkedAt(nodes, i);
        if cur.prev == null {
          return -1;
        }
        cur, i := cur.prev, i - 1;
      }
    }

    method ContextAt(position: int) returns (node: NodeContext?)
      requires Valid()
      ensures node == Nth(nodes, position)
    {
      if position < 0 || position >= size {
        return null;
      }
      node := Walk(position);
    }

    /** The node an inbound event fired at a context reaches: the nearest capable one behind it. */
    method Forward(from: NodeContext, kind: Kind, ghost at: nat) returns (hit: NodeContext?, ghost k: nat)
      requires Valid() && at < |nodes| && nodes[at] == from
      ensures at < k <= |nodes| && hit == Nth(nodes, k)
      ensures forall j :: at < j < k ==> kind !in nodes[j].handler.can
      ensures hit != null ==> kind in hit.handler.can
    {
      assert LinkedAt(nodes, at);
      hit, k := from.next, at + 1;
      while hit != null
        invariant at < k <= |nodes| && hit == Nth(nodes, k)
        invariant forall j :: at < j < k ==> kind !in nodes[j].handler.can
        decreases |nodes| - k
      {
        if kind in hit.handler.can {
          return;
        }
        assert LinkedAt(nodes, k);
        hit, k := hit.next, k + 1;
      }
    }

    /** The node an outbound event reaches: the nearest capable one in front; the head takes every write. */
    method Backward(from: NodeContext, kind: Kind, ghost at: nat) returns (hit: NodeContext?, ghost k: int)
      requires Valid() && at < |nodes| && nodes[at] == from
      ensures -1 <= k < at && hit == Nth(nodes, k)
      ensures forall j :: k < j < at ==> kind !in nodes[j].handler.can
      ensures hit != null ==> kind in hit.handler.can
    {
      assert LinkedAt(nodes, at);
      hit, k := from.prev, at - 1;
      while hit != null
        invariant -1 <= k < at && hit == Nth(nodes, k)
        invariant forall j :: k < j < at ==> kind !in nodes[j].handler.can
        decreases k
      {
        if kind in hit.handler.can {
          return;
        }
        assert LinkedAt(nodes, k);
        hit, k := hit.prev, k - 1;
      }
    }

    /** A write from any context but the head's finds a handler. */
    method Write(from: NodeContext, ghost at: nat) returns (hit: NodeContext, ghost k: nat)
      requires Valid() && 0 < at < |nodes| && nodes[at] == from
      ensures k < at && hit == nodes[k] && Outbound in hit.handler.can
      ensures forall j :: k < j < at ==> Outbound !in nodes[j].handler.can
    {
      var found: NodeContext?;
      ghost var i: int;
      assert Outbound in nodes[0].handler.can;
      found, i := Backward(from, Outbound, at);
      hit, k := found, i;
    }

    /** An exception fired at any context but the tail's finds a handler. */
    method FireException(from: NodeContext, ghost at: nat) returns (hit: NodeContext, ghost k: nat)
      requires Valid() && at < |nodes| - 1 && nodes[at] == from
      ensures at < k < |nodes| && hit == nodes[k] && Exception in hit.handler.can
      ensures forall j :: at < j < k ==> Exception !in nodes[j].handler.can
    {
      var found: NodeContext?;
      assert Exception in nodes[|nodes| - 1].handler.can;
      found, k := Forward(from, Exception, at);
      hit := found;
    }
  }

  /** A sequence of handlers with others put in at a position. */
  function Inserted(was: seq<Handler>, at: nat, hs: seq<Handler>): seq<Handler>
    requires at <= |was|
  {
    was[..at] + hs + was[at..]
  }

  lemma InsertedNothing(was: seq<Handler>, at: nat)
    requires at <= |was|
    ensures Inserted(was, at, []) == was
  {
  }

  /** The handlers after the first i of others were put in one by one behind the head. */
  function Stacked(was: seq<Handler>, hs: seq<Handler>, i: nat): (now: seq<Handler>)
    requires |was| >= 1 && i <= |hs|
    ensures |now| == |was| + i
  {
    if i == 0 then was else Inserted(Stacked(was, hs, i - 1), 1, [hs[i - 1]])
  }

  /** The handlers after the first i of others were put in one by one, each behind the one before it. */
  function Queued(was: seq<Handler>, at: nat, hs: seq<Handler>, i: nat): (now: seq<Handler>)
    requires at <= |was| && i <= |hs|
    ensures |now| == |was| + i
  {
    if i == 0 then was else Inserted(Queued(was, at, hs, i - 1), at + i - 1, [hs[i - 1]])
  }

  lemma {:induction false} StackedIsReversed(was: seq<Handler>, hs: seq<Handler>, i: nat)
    requires |was| >= 1 && i <= |hs|
    ensures Stacked(was, hs, i) == Inserted(was, 1, Reversed(hs[..i]))
    ensures i == |hs| ==> Stacked(was, hs, i) == Inserted(was, 1, Reversed(hs))
  {
    if i > 0 {
      StackedIsReversed(was, hs, i - 1);
      ReversedAppend(hs[..i - 1], hs[i - 1]);
      assert hs[..i] == hs[..i - 1] + [hs[i - 1]];
    }
    assert hs[..|hs|] == hs;
  }

  lemma {:induction false} QueuedIsInserted(was: seq<Handler>, at: nat, hs: seq<Handler>, i: nat)
    requires at <= |was| && i <= |hs|
    ensures Queued(was, at, hs, i) == Inserted(was, at, hs[..i])
    ensures i == |hs| ==> Queued(was, at, hs, i) == Inserted(was, at, hs)
  {
    if i > 0 {
      QueuedIsInserted(was, at, hs, i - 1);
      assert hs[..i] == hs[..i - 1] + [hs[i - 1]];
    }
    assert hs[..|hs|] == hs;
  }

  lemma {:induction false} ReversedAppend(hs: seq<Handler>, h: Handler)
    ensures Reversed(hs + [h]) == [h] + Reversed(hs)
    decreases |hs|
  {
    if hs != [] {
      ReversedAppend(hs[1..], h);
      assert (hs + [h])[1..] == hs[1..] + [h];
    } else {
      assert [h][1..] == [];
    }
  }
}
