/** The balancer that keeps the ring: a map, a sorted list and a member set changed in place. */
module RingBalancer {
  import opened Ring

  predicate Sorted(s: seq<nat>) {
    forall i, j :: 0 <= i < j < |s| ==> s[i] <= s[j]
  }

  /** The first position whose hash is at least the given one. */
  method Search(s: seq<nat>, hash: nat) returns (index: nat)
    requires Sorted(s)
    ensures index <= |s|
    ensures forall i :: 0 <= i < index ==> s[i] < hash
    ensures forall i :: index <= i < |s| ==> s[i] >= hash
  {
    var lo, hi := 0, |s|;
    while lo < hi
      invariant 0 <= lo <= hi <= |s|
      invariant forall i :: 0 <= i < lo ==> s[i] < hash
      invariant forall i :: hi <= i < |s| ==> s[i] >= hash
    {
      var mid := (lo + hi) / 2;
      if s[mid] < hash {
        lo := mid + 1;
      } else {
        hi := mid;
      }
    }
    return lo;
  }

  function Inserted(x: nat, s: seq<nat>): seq<nat> {
    if s == [] || x <= s[0] then [x] + s else [s[0]] + Inserted(x, s[1..])
  }

  function SortHashes(s: seq<nat>): seq<nat> {
    if s == [] then [] else Inserted(s[0], SortHashes(s[1..]))
  }

  lemma SortedPrepend(x: nat, s: seq<nat>)
    requires Sorted(s) && (s == [] || x <= s[0])
    ensures Sorted([x] + s)
  {
  }

  lemma {:induction false} InsertedIs(x: nat, s: seq<nat>)
    requires Sorted(s)
    ensures Sorted(Inserted(x, s)) && multiset(Inserted(x, s)) == multiset(s) + multiset{x}
    decreases |s|
  {
    if s == [] || x <= s[0] {
      SortedPrepend(x, s);
    } else {
      InsertedIs(x, s[1..]);
      assert s == [s[0]] + s[1..];
      SortedPrepend(s[0], Inserted(x, s[1..]));
    }
  }

  lemma {:induction false} SortHashesIs(s: seq<nat>)
    ensures Sorted(SortHashes(s)) && multiset(SortHashes(s)) == multiset(s)
    decreases |s|
  {
    if s != [] {
      SortHashesIs(s[1..]);
      InsertedIs(s[0], SortHashes(s[1..]));
      assert s == [s[0]] + s[1..];
    }
  }

  lemma BoundedBag(s: seq<nat>, bag: multiset<nat>)
    requires multiset(s) <= bag && forall p :: p in bag ==> p < SPAN
    ensures forall i :: 0 <= i < |s| ==> s[i] < SPAN
  {
    forall i | 0 <= i < |s|
      ensures s[i] < SPAN
    {
      assert s[i] in multiset(s);
    }
  }

  /** The list position a lookup uses holds the next point clockwise. */
  lemma SearchIsNext(s: seq<nat>, h: nat, index: nat)
    requires Sorted(s) && s != [] && h < SPAN && (forall i :: 0 <= i < |s| ==> s[i] < SPAN)
    requires index <= |s| && (forall i :: 0 <= i < index ==> s[i] < h) && (forall i :: index <= i < |s| ==> s[i] >= h)
    ensures IsNext(multiset(s), h, s[if index == |s| then 0 else index])
  {
    var k := if index == |s| then 0 else index;
    ClockwiseIs(h, s[k]);
    forall q | q in multiset(s)
      ensures Clockwise(h, s[k]) <= Clockwise(h, q)
    {
      var i :| 0 <= i < |s| && s[i] == q;
      ClockwiseIs(h, q);
    }
  }

  /** One hash more painted. */
  lemma PaintOneMore(circle: map<nat, Id>, ps: seq<nat>, i: nat, id: Id)
    requires i < |ps|
    ensures Painted(circle, ps[..i + 1], id) == Painted(circle, ps[..i], id)[ps[i] := id]
  {
    assert ps[..i + 1] == ps[..i] + [ps[i]];
  }

  lemma EraseOneMore(circle: map<nat, Id>, ps: seq<nat>, i: nat)
    requires i < |ps|
    ensures Erased(circle, ps[..i + 1]) == Erased(circle, ps[..i]) - {ps[i]}
  {
    assert ps[..i + 1] == ps[..i] + [ps[i]];
  }

  /** Takes out the occurrence a search finds, if there is one. */
  method RemoveOne(s: seq<nat>, hash: nat) returns (r: seq<nat>)
    requires Sorted(s)
    ensures Sorted(r) && multiset(r) == multiset(s) - multiset{hash}
  {
    var index := Search(s, hash);
    if index < |s| && s[index] == hash {
      r := s[..index] + s[index + 1..];
      assert s == s[..index] + [hash] + s[index + 1..];
    } else {
      r := s;
      assert hash !in s;
    }
  }

  datatype Answer = NoReplicas | Chosen(id: Id) | Nobody

  class IPHashingBalancer {
    const replicas: nat
    var circle: map<nat, Id>
    var sortedHashList: seq<nat>
    var members: set<Id>
    var size: int
    ghost var order: seq<Id>

    ghost function View(): Ring
      reads this
    {
      Ring(circle, multiset(sortedHashList), order)
    }

    ghost predicate Valid()
      reads this
    {
      && Sorted(sortedHashList) && (forall i :: 0 <= i < |sortedHashList| ==> sortedHashList[i] < SPAN)
      && Inv(View(), replicas) && members == (set id | id in order) && size == |order|
    }

    constructor (replicas: nat)
      ensures Valid() && View() == EMPTY && this.replicas == if replicas < 3 then 3 else replicas
    {
      this.replicas := if replicas < 3 then 3 else replicas;
      circle, sortedHashList, members, size, order := map[], [], {}, 0, [];
    }

    /** The owner of the next point clockwise; nobody if that point has lost its owner. */
    method Next(key: string) returns (r: Answer)
      requires Valid()
      ensures r.NoReplicas? <==> circle == map[]
      ensures circle != map[] ==>
                exists p :: IsNext(View().points, HashKey(key), p) && r == if p in circle then Chosen(circle[p]) else Nobody
    {
      if |circle| == 0 {
        return NoReplicas;
      }
      assert sortedHashList != [] by {
        var h :| h in circle;
        PointOfMember(order, h, replicas);
      }
      var hash := HashKey(key);
      var index := Search(sortedHashList, hash);
      SearchIsNext(sortedHashList, hash, index);
      if index == |sortedHashList| {
        index := 0;
      }
      var p := sortedHashList[index];
      r := if p in circle then Chosen(circle[p]) else Nobody;
    }

    method Register(id: Id)
      requires Valid()
      modifies this
      ensures Valid() && View() == Join(old(View()), id, replicas)
      ensures members == old(members) + {id} && size == old(size) + if id in old(members) then 0 else 1
    {
      if id in members {
        return;
      }
      var ps := Points(id, replicas);
      AddPoints(id, ps);
      assert multiset(sortedHashList) == multiset(old(sortedHashList)) + multiset(ps);
      SortHashesIs(sortedHashList);
      sortedHashList := SortHashes(sortedHashList);
      members, size, order := members + {id}, size + 1, order + [id];
      StepKeepsInv(old(View()), id, replicas);
      assert View() == Join(old(View()), id, replicas);
      BoundedPoints(order, replicas);
      BoundedBag(sortedHashList, View().points);
    }

    /** Paints a backend's points and appends their hashes. */
    method AddPoints(id: Id, ps: seq<nat>)
      modifies `circle, `sortedHashList
      ensures circle == Painted(old(circle), ps, id) && sortedHashList == old(sortedHashList) + ps
    {
      for i := 0 to |ps|
        invariant circle == Painted(old(circle), ps[..i], id)
        invariant sortedHashList == old(sortedHashList) + ps[..i]
      {
        PaintOneMore(old(circle), ps, i, id);
        circle := circle[ps[i] := id];
        sortedHashList := sortedHashList + [ps[i]];
      }
      assert ps[..|ps|] == ps;
    }

    /** Erases a backend's points and takes one occurrence of each hash out of the list. */
    method RemovePoints(ps: seq<nat>)
      requires Sorted(sortedHashList)
      modifies `circle, `sortedHashList
      ensures circle == Erased(old(circle), ps)
      ensures Sorted(sortedHashList) && multiset(sortedHashList) == multiset(old(sortedHashList)) - multiset(ps)
    {
      for i := 0 to |ps|
        invariant circle == Erased(old(circle), ps[..i])
        invariant Sorted(sortedHashList) && multiset(sortedHashList) == multiset(old(sortedHashList)) - multiset(ps[..i])
      {
        EraseOneMore(old(circle), ps, i);
        assert ps[..i + 1] == ps[..i] + [ps[i]];
        circle := circle - {ps[i]};
        sortedHashList := RemoveOne(sortedHashList, ps[i]);
      }
      assert ps[..|ps|] == ps;
    }

    method Unregister(id: Id)
      requires Valid()
      modifies this
      ensures Valid() && View() == Leave(old(View()), id, replicas)
      ensures members == old(members) - {id} && size == old(size) - if id in old(members) then 1 else 0
    {
      if id !in members {
        return;
      }
      RemovePoints(Points(id, replicas));
      LeaveMembers(order, id);
      members, size, order := members - {id}, size - 1, Without(order, id);
      assert View() == Leave(old(View()), id, replicas);
      assert Inv(View(), replicas) by {
        StepKeepsInv(old(View()), id, replicas);
      }
      BoundedPoints(order, replicas);
      BoundedBag(sortedHashList, View().points);
    }
  }

  lemma LeaveMembers(order: seq<Id>, id: Id)
    requires NoRepeats(order) && id in order
    ensures (set jd | jd in Without(order, id)) == (set jd | jd in order) - {id} && |Without(order, id)| == |order| - 1
  {
    WithoutIs(order, id);
    WithoutShorter(order, id);
  }

  lemma {:induction false} BoundedPoints(order: seq<Id>, replicas: nat)
    ensures forall p :: p in AllPoints(order, replicas) ==> p < SPAN
    decreases |order|
  {
    if order != [] {
      BoundedPoints(order[1..], replicas);
      var ps := Points(order[0], replicas);
      assert forall p :: p in multiset(ps) ==> p in ps;
    }
  }

  lemma {:induction false} WithoutShorter(order: seq<Id>, id: Id)
    requires id in order
    ensures |Without(order, id)| == |order| - 1
    decreases |order|
  {
    if order[0] != id {
      WithoutShorter(order[1..], id);
    }
  }
}
