/**
 The consistent-hash ring: every backend owns `replicas` points on a circle of 2^32 hashes, a key belongs
 to the next point clockwise. The ring's value is a map from points to owners beside the multiset of points
 that the sorted list holds; the two can drift apart, and when they do is proved exactly.
 */
module Ring {
  type Id = string
  const SPAN: nat := 0x1_0000_0000

  // ---------------------------------------------------------------- points

  const PRIME: nat := 16777619

  /** A character stands for a byte. */
  function Byte(c: char): (b: nat)
    ensures b < 0x100
  {
    c as int % 0x100
  }

  /** The exclusive or of the n lowest bits of two numbers. */
  function Xor(a: nat, b: nat, n: nat): nat {
    if n == 0 then 0 else 2 * Xor(a / 2, b / 2, n - 1) + if a % 2 == b % 2 then 0 else 1
  }

  /** A multiplication of 32 bits. */
  function Scaled(a: nat): (r: nat)
    ensures r < SPAN
  {
    a * PRIME % SPAN
  }

  /** FNV-1a takes in one more byte: exclusive or with the lowest one, then the multiplication. */
  function Mixed(h: nat, b: nat): (r: nat)
    requires h < SPAN && b < 0x100
    ensures r < SPAN
  {
    Scaled(h - h % 0x100 + Xor(h % 0x100, b, 8))
  }

  /** FNV-1a over the key's bytes. */
  function HashKey(key: string): (h: nat)
    ensures h < SPAN
    decreases |key|
  {
    if key == "" then 2166136261 else Mixed(HashKey(key[..|key| - 1]), Byte(key[|key| - 1]))
  }

  function Digit(d: nat): char
    requires d < 10
  {
    ('0' as int + d) as char
  }

  function Itoa(n: nat): string {
    if n < 10 then [Digit(n)] else Itoa(n / 10) + [Digit(n % 10)]
  }

  /** The hashes of a backend's virtual nodes. */
  function Points(id: Id, replicas: nat): (ps: seq<nat>)
    ensures |ps| == replicas && forall i :: 0 <= i < |ps| ==> ps[i] < SPAN
  {
    seq(replicas, i requires 0 <= i < replicas => HashKey(id + Itoa(i)))
  }

  function AllPoints(order: seq<Id>, replicas: nat): multiset<nat> {
    if order == [] then multiset{} else multiset(Points(order[0], replicas)) + AllPoints(order[1..], replicas)
  }

  // ---------------------------------------------------------------- the ring as a value

  /** Owners of points, the points with multiplicity, and the members in order of registration. */
  datatype Ring = Ring(circle: map<nat, Id>, points: multiset<nat>, order: seq<Id>)

  const EMPTY := Ring(map[], multiset{}, [])

  function Without(order: seq<Id>, id: Id): seq<Id> {
    if order == [] then [] else if order[0] == id then order[1..] else [order[0]] + Without(order[1..], id)
  }

  function Painted(circle: map<nat, Id>, ps: seq<nat>, id: Id): map<nat, Id> {
    map h | h in circle.Keys + (set p | p in ps) :: if h in ps then id else circle[h]
  }

  function Erased(circle: map<nat, Id>, ps: seq<nat>): map<nat, Id> {
    map h | h in circle && h !in ps :: circle[h]
  }

  function Join(ring: Ring, id: Id, replicas: nat): Ring {
    if id in ring.order then ring
    else
      var ps := Points(id, replicas);
      Ring(Painted(ring.circle, ps, id), ring.points + multiset(ps), ring.order + [id])
  }

  function Leave(ring: Ring, id: Id, replicas: nat): Ring {
    if id !in ring.order then ring
    else
      var ps := Points(id, replicas);
      Ring(Erased(ring.circle, ps), ring.points - multiset(ps), Without(ring.order, id))
  }

  predicate NoRepeats(order: seq<Id>) {
    forall i, j :: 0 <= i < j < |order| ==> order[i] != order[j]
  }

  /** The points are those of the members, and whatever point has an owner belongs to it. */
  predicate Inv(ring: Ring, replicas: nat) {
    && NoRepeats(ring.order)
    && ring.points == AllPoints(ring.order, replicas)
    && (forall h :: h in ring.circle ==> ring.circle[h] in ring.order && h in Points(ring.circle[h], replicas))
  }

  /** Every point has an owner. */
  predicate Complete(ring: Ring) {
    forall h :: h in ring.points ==> h in ring.circle
  }

  predicate Share(id: Id, jd: Id, replicas: nat) {
    exists h :: h in Points(id, replicas) && h in Points(jd, replicas)
  }

  lemma {:induction false} AllPointsAppend(order: seq<Id>, id: Id, replicas: nat)
    ensures AllPoints(order + [id], replicas) == AllPoints(order, replicas) + multiset(Points(id, replicas))
    decreases |order|
  {
    if order == [] {
      assert ([id])[1..] == [];
    } else {
      assert (order + [id])[1..] == order[1..] + [id];
      AllPointsAppend(order[1..], id, replicas);
    }
  }

  lemma {:induction false} AllPointsWithout(order: seq<Id>, id: Id, replicas: nat)
    requires id in order
    ensures AllPoints(order, replicas) == AllPoints(Without(order, id), replicas) + multiset(Points(id, replicas))
    decreases |order|
  {
    if order[0] != id {
      AllPointsWithout(order[1..], id, replicas);
      assert Without(order, id)[1..] == Without(order[1..], id);
    }
  }

  lemma {:induction false} WithoutIs(order: seq<Id>, id: Id)
    requires NoRepeats(order)
    ensures NoRepeats(Without(order, id))
    ensures forall jd :: jd in Without(order, id) <==> jd in order && jd != id
    decreases |order|
  {
    if order != [] {
      WithoutIs(order[1..], id);
      assert order == [order[0]] + order[1..];
      assert order[0] !in order[1..];
    }
  }

  lemma {:induction false} PointOfMember(order: seq<Id>, h: nat, replicas: nat)
    ensures h in AllPoints(order, replicas) <==> exists id :: id in order && h in Points(id, replicas)
    decreases |order|
  {
    if order != [] {
      var first, rest := order[0], order[1..];
      PointOfMember(rest, h, replicas);
      assert h in AllPoints(order, replicas) <==> h in Points(first, replicas) || h in AllPoints(rest, replicas);
      assert forall id :: id in order <==> id == first || id in rest;
    }
  }

  /** Joining and leaving keep the points those of the members, whatever the hashes. */
  lemma StepKeepsInv(ring: Ring, id: Id, replicas: nat)
    requires Inv(ring, replicas)
    ensures Inv(Join(ring, id, replicas), replicas) && Inv(Leave(ring, id, replicas), replicas)
  {
    if id in ring.order {
      AllPointsWithout(ring.order, id, replicas);
      WithoutIs(ring.order, id);
    } else {
      AllPointsAppend(ring.order, id, replicas);
    }
  }

  lemma JoinKeepsComplete(ring: Ring, id: Id, replicas: nat)
    requires Complete(ring)
    ensures Complete(Join(ring, id, replicas))
  {
  }

  /** A complete ring stays complete after a member leaves exactly when no other member has a point in common with it. */
  lemma LeaveCompleteIff(ring: Ring, id: Id, replicas: nat)
    requires Inv(ring, replicas) && Complete(ring) && id in ring.order
    ensures Complete(Leave(ring, id, replicas)) <==> forall jd :: jd in ring.order && jd != id ==> !Share(id, jd, replicas)
  {
    var left := Leave(ring, id, replicas);
    StepKeepsInv(ring, id, replicas);
    WithoutIs(ring.order, id);
    forall h
      ensures h in left.points <==> exists jd :: jd in left.order && h in Points(jd, replicas)
      ensures h in left.points ==> h in ring.points
    {
      PointOfMember(left.order, h, replicas);
      AllPointsWithout(ring.order, id, replicas);
    }
    if jd, h :| jd in ring.order && jd != id && h in Points(id, replicas) && h in Points(jd, replicas) {
      assert Share(id, jd, replicas) && jd in left.order && h in left.points && h !in left.circle;
    } else {
      forall jd | jd in ring.order && jd != id
        ensures !Share(id, jd, replicas)
      {
      }
    }
  }

  // ---------------------------------------------------------------- histories

  datatype Op = Registered(id: Id) | Unregistered(id: Id)

  function Do(ring: Ring, op: Op, replicas: nat): Ring {
    if op.Registered? then Join(ring, op.id, replicas) else Leave(ring, op.id, replicas)
  }

  function After(ring: Ring, ops: seq<Op>, replicas: nat): Ring
    decreases |ops|
  {
    if ops == [] then ring else After(Do(ring, ops[0], replicas), ops[1..], replicas)
  }

  /** No two of the backends that ever come up have a point in common. */
  ghost predicate Apart(ring: Ring, ops: seq<Op>, replicas: nat) {
    forall id, jd :: Involved(ring, ops, id) && Involved(ring, ops, jd) && id != jd ==> !Share(id, jd, replicas)
  }

  predicate Involved(ring: Ring, ops: seq<Op>, id: Id) {
    id in ring.order || exists i :: 0 <= i < |ops| && ops[i].id == id
  }

  lemma {:induction false} HistoryKeepsInv(ring: Ring, ops: seq<Op>, replicas: nat)
    requires Inv(ring, replicas)
    ensures Inv(After(ring, ops, replicas), replicas)
    decreases |ops|
  {
    if ops != [] {
      StepKeepsInv(ring, ops[0].id, replicas);
      HistoryKeepsInv(Do(ring, ops[0], replicas), ops[1..], replicas);
    }
  }

  lemma {:induction false} HistoryKeepsComplete(ring: Ring, ops: seq<Op>, replicas: nat)
    requires Inv(ring, replicas) && Complete(ring) && Apart(ring, ops, replicas)
    ensures Complete(After(ring, ops, replicas))
    decreases |ops|
  {
    if ops != [] {
      var id, next := ops[0].id, Do(ring, ops[0], replicas);
      assert Involved(ring, ops, id);
      if ops[0].Registered? {
        JoinKeepsComplete(ring, id, replicas);
      } else if id in ring.order {
        assert forall jd :: jd in ring.order ==> Involved(ring, ops, jd);
        LeaveCompleteIff(ring, id, replicas);
      }
      StepKeepsInv(ring, id, replicas);
      StillInvolved(ring, ops, replicas);
      HistoryKeepsComplete(next, ops[1..], replicas);
    }
  }

  lemma StillInvolved(ring: Ring, ops: seq<Op>, replicas: nat)
    requires Inv(ring, replicas) && ops != []
    ensures forall id :: Involved(Do(ring, ops[0], replicas), ops[1..], id) ==> Involved(ring, ops, id)
  {
    WithoutIs(ring.order, ops[0].id);
    forall id | Involved(Do(ring, ops[0], replicas), ops[1..], id)
      ensures Involved(ring, ops, id)
    {
      if i :| 0 <= i < |ops[1..]| && ops[1..][i].id == id {
        assert ops[i + 1].id == id;
      } else {
        assert ops[0].id == id || id in ring.order;
      }
    }
  }

  predicate OwnsAll(ring: Ring, id: Id, replicas: nat) {
    forall h :: h in Points(id, replicas) ==> h in ring.circle && ring.circle[h] == id
  }

  lemma {:induction false} MembersAreInvolved(ring: Ring, ops: seq<Op>, replicas: nat)
    requires Inv(ring, replicas)
    ensures forall id :: id in After(ring, ops, replicas).order ==> Involved(ring, ops, id)
    decreases |ops|
  {
    if ops != [] {
      StepKeepsInv(ring, ops[0].id, replicas);
      StillInvolved(ring, ops, replicas);
      MembersAreInvolved(Do(ring, ops[0], replicas), ops[1..], replicas);
    }
  }

  /**
   With distinct hashes, after any history the owned points are exactly the members' points, and each
   member owns all of its own.
   */
  lemma RingIsItsMembers(ops: seq<Op>, replicas: nat)
    requires Apart(EMPTY, ops, replicas)
    ensures var ring := After(EMPTY, ops, replicas);
            && ring.points == AllPoints(ring.order, replicas)
            && (forall h :: h in ring.circle <==> h in ring.points)
            && (forall id :: id in ring.order ==> OwnsAll(ring, id, replicas))
  {
    var ring := After(EMPTY, ops, replicas);
    HistoryKeepsInv(EMPTY, ops, replicas);
    HistoryKeepsComplete(EMPTY, ops, replicas);
    assert forall id, jd :: id in ring.order && jd in ring.order && id != jd ==> !Share(id, jd, replicas) by {
      MembersAreInvolved(EMPTY, ops, replicas);
    }
    OwnersAreRight(ring, replicas);
  }

  lemma OwnersAreRight(ring: Ring, replicas: nat)
    requires Inv(ring, replicas) && Complete(ring)
    requires forall id, jd :: id in ring.order && jd in ring.order && id != jd ==> !Share(id, jd, replicas)
    ensures forall h :: h in ring.circle <==> h in ring.points
    ensures forall id :: id in ring.order ==> OwnsAll(ring, id, replicas)
  {
    forall h
      ensures h in ring.circle <==> h in ring.points
      ensures h in ring.points <==> exists id :: id in ring.order && h in Points(id, replicas)
    {
      PointOfMember(ring.order, h, replicas);
    }
    forall id, h | id in ring.order && h in Points(id, replicas)
      ensures h in ring.circle && ring.circle[h] == id
    {
      assert h in ring.points;
      assert ring.circle[h] != id ==> Share(id, ring.circle[h], replicas);
    }
  }

  // ---------------------------------------------------------------- lookups

  /** How far a point lies ahead of a hash, going round. */
  function Clockwise(h: nat, p: nat): nat {
    (p - h) % SPAN
  }

  /** The first point at or after a hash, going round. */
  predicate IsNext(points: multiset<nat>, h: nat, p: nat) {
    p in points && forall q :: q in points ==> Clockwise(h, p) <= Clockwise(h, q)
  }

  /** In range, ahead means no wrap, behind means one. */
  lemma ClockwiseIs(h: nat, p: nat)
    requires h < SPAN && p < SPAN
    ensures Clockwise(h, p) == if p >= h then p - h else p - h + SPAN
  {
  }

  predicate InRange(points: multiset<nat>) {
    forall p :: p in points ==> p < SPAN
  }

  lemma NextIsUnique(points: multiset<nat>, h: nat, p: nat, q: nat)
    requires InRange(points) && h < SPAN && IsNext(points, h, p) && IsNext(points, h, q)
    ensures p == q
  {
    ClockwiseIs(h, p);
    ClockwiseIs(h, q);
  }

  /**
   When a member leaves a complete ring and shares no point, a key whose owner it was not keeps its owner,
   and a key it did own goes to somebody else.
   */
  lemma LeavingRemapsOnlyOwned(ring: Ring, id: Id, replicas: nat, h: nat, p: nat, q: nat)
    requires Inv(ring, replicas) && Complete(ring) && id in ring.order && InRange(ring.points) && h < SPAN
    requires forall jd :: jd in ring.order && jd != id ==> !Share(id, jd, replicas)
    requires IsNext(ring.points, h, p) && IsNext(Leave(ring, id, replicas).points, h, q)
    ensures p in ring.circle && q in Leave(ring, id, replicas).circle
    ensures ring.circle[p] != id ==> Leave(ring, id, replicas).circle[q] == ring.circle[p]
    ensures Leave(ring, id, replicas).circle[q] != id
  {
    var left := Leave(ring, id, replicas);
    LeaveCompleteIff(ring, id, replicas);
    StepKeepsInv(ring, id, replicas);
    WithoutIs(ring.order, id);
    assert left.points <= ring.points;
    if ring.circle[p] != id {
      assert p in Points(ring.circle[p], replicas) && !Share(id, ring.circle[p], replicas);
      assert p !in Points(id, replicas);
      assert multiset(Points(id, replicas))[p] == 0;
      assert IsNext(left.points, h, p);
      NextIsUnique(left.points, h, p, q);
    }
  }

  /** When a backend joins, a key keeps its owner or goes to the newcomer. */
  lemma JoiningTakesOnlyForItself(ring: Ring, id: Id, replicas: nat, h: nat, p: nat, q: nat)
    requires Complete(ring) && id !in ring.order && InRange(ring.points) && h < SPAN
    requires IsNext(ring.points, h, p) && IsNext(Join(ring, id, replicas).points, h, q)
    ensures p in ring.circle && q in Join(ring, id, replicas).circle
    ensures Join(ring, id, replicas).circle[q] == id || Join(ring, id, replicas).circle[q] == ring.circle[p]
  {
    var ps := Points(id, replicas);
    if q !in ps {
      assert q in ring.points;
      assert IsNext(ring.points, h, q);
      NextIsUnique(ring.points, h, p, q);
    }
  }

  /** Leaving undoes joining when the newcomer shares no point with a member. */
  lemma LeaveUndoesJoin(ring: Ring, id: Id, replicas: nat)
    requires Inv(ring, replicas) && id !in ring.order
    requires forall jd :: jd in ring.order ==> !Share(id, jd, replicas)
    ensures Leave(Join(ring, id, replicas), id, replicas) == ring
  {
    var ps := Points(id, replicas);
    WithoutLast(ring.order, id);
    forall h | h in ring.circle
      ensures h !in ps
    {
      assert !Share(id, ring.circle[h], replicas);
    }
    EraseUndoesPaint(ring.circle, ps, id);
    assert ring.points + multiset(ps) - multiset(ps) == ring.points;
  }

  lemma EraseUndoesPaint(circle: map<nat, Id>, ps: seq<nat>, id: Id)
    requires forall h :: h in circle ==> h !in ps
    ensures Erased(Painted(circle, ps, id), ps) == circle
  {
  }

  lemma {:induction false} WithoutLast(order: seq<Id>, id: Id)
    requires id !in order
    ensures Without(order + [id], id) == order
    decreases |order|
  {
    if order != [] {
      WithoutLast(order[1..], id);
      assert (order + [id])[1..] == order[1..] + [id];
    }
  }

  // ---------------------------------------------------------------- ids that collide by construction

  /** When one of two members with a point in common leaves, that point stays without an owner. */
  lemma SharedPointLosesItsOwner(ring: Ring, id: Id, jd: Id, replicas: nat, h: nat)
    requires Inv(ring, replicas) && id in ring.order && jd in ring.order && id != jd
    requires h in Points(id, replicas) && h in Points(jd, replicas)
    ensures IsNext(Leave(ring, id, replicas).points, h, h) && h !in Leave(ring, id, replicas).circle
  {
    var left := Leave(ring, id, replicas);
    StepKeepsInv(ring, id, replicas);
    WithoutIs(ring.order, id);
    PointOfMember(left.order, h, replicas);
    assert Clockwise(h, h) == 0;
  }

  lemma SpelledTen()
    ensures Itoa(10) == "10" && Itoa(0) == "0"
  {
    assert Itoa(1) == [Digit(1)] && Digit(1) == '1' && Digit(0) == '0';
  }

  /** Ids made like the server's own, "worker:1" and "worker:11", spell the same virtual node. */
  lemma NumberedWorkersShare(replicas: nat)
    requires replicas > 10
    ensures HashKey("worker:110") in Points("worker:1", replicas) && HashKey("worker:110") in Points("worker:11", replicas)
  {
    SpelledTen();
    assert "worker:1" + Itoa(10) == "worker:110" && "worker:11" + Itoa(0) == "worker:110";
    assert Points("worker:1", replicas)[10] == HashKey("worker:110") == Points("worker:11", replicas)[0];
  }

  /** So with more than ten replicas, once one of the two has left, the key "worker:110" finds no owner. */
  lemma OwnerlessPoint(ring: Ring, replicas: nat)
    requires Inv(ring, replicas) && "worker:1" in ring.order && "worker:11" in ring.order && replicas > 10
    ensures var left, h := Leave(ring, "worker:1", replicas), HashKey("worker:110");
            IsNext(left.points, h, h) && h !in left.circle
  {
    NumberedWorkersShare(replicas);
    SharedPointLosesItsOwner(ring, "worker:1", "worker:11", replicas, HashKey("worker:110"));
  }
}
