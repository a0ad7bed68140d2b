/** What the ring's hashes depend on, how its virtual nodes are spelled, and who is a member after a history. */
module RingKeys {
  import opened Ring

  // ---------------------------------------------------------------- the hash

  /** Published values of FNV-1a with 32 bits. */
  lemma KnownHashes()
    ensures HashKey("") == 0x811c9dc5 && HashKey("a") == 0xe40c292c && HashKey("b") == 0xe70c2de5
  {
    assert "a"[..0] == "" && "b"[..0] == "";
    assert Xor(1, 0, 1) == 1 && Xor(3, 1, 2) == 2 && Xor(6, 3, 3) == 5 && Xor(12, 6, 4) == 10;
    assert Xor(24, 12, 5) == 20 && Xor(49, 24, 6) == 41 && Xor(98, 48, 7) == 82 && Xor(197, 97, 8) == 164;
    assert Xor(1, 0, 1) == 1 && Xor(3, 1, 2) == 2 && Xor(6, 3, 3) == 5 && Xor(12, 6, 4) == 10;
    assert Xor(24, 12, 5) == 20 && Xor(49, 24, 6) == 41 && Xor(98, 49, 7) == 83 && Xor(197, 98, 8) == 167;
  }

  /** Taking in a byte loses nothing: the multiplier is odd, and so has an inverse. */
  lemma MixedInjective(h: nat, x: nat, y: nat)
    requires h < SPAN && x < 0x100 && y < 0x100 && Mixed(h, x) == Mixed(h, y)
    ensures x == y
  {
    var low := h % 0x100;
    assert x < Power2(8) && y < Power2(8) by {
      XorIsSmall(0, 0, 8);
    }
    assert Xor(low, x, 8) == Xor(low, y, 8) by {
      SameLowByte(h - low, Xor(low, x, 8), Xor(low, y, 8), h, x, y);
    }
    XorInjective(low, x, y, 8);
  }

  lemma SameLowByte(top: nat, p: nat, q: nat, h: nat, x: nat, y: nat)
    requires h < SPAN && x < 0x100 && y < 0x100 && Mixed(h, x) == Mixed(h, y)
    requires top == h - h % 0x100 && p == Xor(h % 0x100, x, 8) && q == Xor(h % 0x100, y, 8)
    ensures p == q
  {
    XorIsSmall(h % 0x100, x, 8);
    XorIsSmall(h % 0x100, y, 8);
    SameSum(top, p, q);
  }

  lemma SameSum(top: nat, p: nat, q: nat)
    requires top % 0x100 == 0 && top < SPAN && p < 0x100 && q < 0x100 && Scaled(top + p) == Scaled(top + q)
    ensures p == q
  {
    TopFits(top);
    ScaledInjective(top + p, top + q);
  }

  lemma TopFits(top: nat)
    requires top % 0x100 == 0 && top < SPAN
    ensures top <= SPAN - 0x100
  {
  }

  function Power2(n: nat): nat {
    if n == 0 then 1 else 2 * Power2(n - 1)
  }

  lemma {:induction false} XorIsSmall(a: nat, b: nat, n: nat)
    ensures Xor(a, b, n) < Power2(n) && (n == 8 ==> Power2(n) == 0x100)
    decreases n
  {
    if n > 0 {
      XorIsSmall(a / 2, b / 2, n - 1);
    }
    assert Power2(2) == 4 && Power2(4) == 16 && Power2(6) == 64;
  }

  lemma {:induction false} XorInjective(a: nat, x: nat, y: nat, n: nat)
    requires x < Power2(n) && y < Power2(n) && Xor(a, x, n) == Xor(a, y, n)
    ensures x == y
    decreases n
  {
    if n > 0 {
      XorInjective(a / 2, x / 2, y / 2, n - 1);
    }
  }

  /** 899433627 is the inverse of the multiplier modulo 2^32. */
  lemma ScaledInverse(a: nat)
    requires a < SPAN
    ensures Scaled(a) * 899433627 % SPAN == a
  {
    var q, r := a * PRIME / SPAN, a * PRIME % SPAN;
    assert a * PRIME == q * SPAN + r;
    assert PRIME * 899433627 == 3513497 * SPAN + 1;
    assert r * 899433627 == a * 3513497 * SPAN + a - q * 899433627 * SPAN;
  }

  lemma ScaledInjective(a: nat, b: nat)
    requires a < SPAN && b < SPAN && Scaled(a) == Scaled(b)
    ensures a == b
  {
    ScaledInverse(a);
    ScaledInverse(b);
  }

  /** Keys that differ in their last byte only never hash to the same point. */
  lemma LastByteCounts(key: string, c: char, d: char)
    requires Byte(c) != Byte(d)
    ensures HashKey(key + [c]) != HashKey(key + [d])
  {
    assert (key + [c])[..|key|] == key && (key + [d])[..|key|] == key;
    if Mixed(HashKey(key), Byte(c)) == Mixed(HashKey(key), Byte(d)) {
      MixedInjective(HashKey(key), Byte(c), Byte(d));
    }
  }

  // ---------------------------------------------------------------- spelling

  /** The number a string of decimal digits denotes. */
  function Atoi(s: string): int {
    if s == "" then 0 else Atoi(s[..|s| - 1]) * 10 + (s[|s| - 1] as int - '0' as int)
  }

  /** A number is spelled in decimal digits, without a leading zero, and reads back. */
  lemma {:induction false} ItoaReadsBack(n: nat)
    ensures Itoa(n) != "" && Atoi(Itoa(n)) == n && (forall i :: 0 <= i < |Itoa(n)| ==> '0' <= Itoa(n)[i] <= '9')
    ensures Itoa(n)[0] == '0' ==> n == 0
    decreases n
  {
    if n < 10 {
      assert Itoa(n)[..0] == "";
    } else {
      ItoaReadsBack(n / 10);
      var s := Itoa(n);
      assert s[..|s| - 1] == Itoa(n / 10);
    }
  }

  /** The virtual nodes of a backend are spelled differently, so as keys they are as many as its replicas. */
  lemma NodesAreSpelledApart(id: Id, i: nat, j: nat)
    requires id + Itoa(i) == id + Itoa(j)
    ensures i == j
  {
    ItoaReadsBack(i);
    ItoaReadsBack(j);
    assert (id + Itoa(i))[|id|..] == Itoa(i) && (id + Itoa(j))[|id|..] == Itoa(j);
  }

  // ---------------------------------------------------------------- members

  /** The backend came up and has not left since, or was there before and has not left. */
  predicate Present(ops: seq<Op>, id: Id, before: bool)
    decreases |ops|
  {
    if ops == [] then before
    else if ops[|ops| - 1].id == id then ops[|ops| - 1].Registered?
    else Present(ops[..|ops| - 1], id, before)
  }

  lemma {:induction false} AfterAppend(ring: Ring, ops: seq<Op>, op: Op, replicas: nat)
    ensures After(ring, ops + [op], replicas) == Do(After(ring, ops, replicas), op, replicas)
    decreases |ops|
  {
    if ops == [] {
      assert [op][1..] == [] && [] + [op] == [op];
    } else {
      assert (ops + [op])[1..] == ops[1..] + [op];
      AfterAppend(Do(ring, ops[0], replicas), ops[1..], op, replicas);
    }
  }

  /** Who was registered last rather than unregistered is a member, and nobody else. */
  lemma {:induction false} MembersAre(ops: seq<Op>, replicas: nat, id: Id)
    ensures id in After(EMPTY, ops, replicas).order <==> Present(ops, id, false)
    decreases |ops|
  {
    if ops != [] {
      var front, op := ops[..|ops| - 1], ops[|ops| - 1];
      assert ops == front + [op];
      AfterAppend(EMPTY, front, op, replicas);
      MembersAre(front, replicas, id);
      HistoryKeepsInv(EMPTY, front, replicas);
      var ring := After(EMPTY, front, replicas);
      if op.Unregistered? && op.id in ring.order {
        WithoutIs(ring.order, op.id);
      }
    }
  }

  /**
   With distinct hashes, after any history: the key that spells one of a member's virtual nodes, its id
   followed by a number below the replicas, finds that member.
   */
  lemma OwnKeyFindsOwner(ops: seq<Op>, replicas: nat, id: Id, i: nat)
    requires Apart(EMPTY, ops, replicas) && Present(ops, id, false) && i < replicas
    ensures var ring, h := After(EMPTY, ops, replicas), HashKey(id + Itoa(i));
            IsNext(ring.points, h, h) && h in ring.circle && ring.circle[h] == id
  {
    var ring, h := After(EMPTY, ops, replicas), HashKey(id + Itoa(i));
    MembersAre(ops, replicas, id);
    RingIsItsMembers(ops, replicas);
    assert Points(id, replicas)[i] == h;
    assert OwnsAll(ring, id, replicas);
    assert Clockwise(h, h) == 0;
  }
}
