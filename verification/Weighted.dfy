/**
 The two weighted balancers. Both divide the numbers below the total weight among the backends, in
 order and by weight; the round robin walks through those numbers, the random one draws from them.
 */
module Weighted {
  // ---------------------------------------------------------------- shares of a total

  function Sum(ws: seq<int>): int {
    if ws == [] then 0 else ws[0] + Sum(ws[1..])
  }

  predicate Positive(ws: seq<int>) {
    forall i :: 0 <= i < |ws| ==> ws[i] > 0
  }

  /** The backend a number falls to: subtract weights in order until what is left is less than the next. */
  function Pick(ws: seq<int>, t: int): nat {
    if ws == [] || t < ws[0] then 0 else 1 + Pick(ws[1..], t - ws[0])
  }

  /** A backend's share is the interval of its weight's length that follows the shares before it. */
  lemma {:induction false} PickIsShare(ws: seq<int>, t: int, i: nat)
    requires Positive(ws) && 0 <= t < Sum(ws) && i < |ws|
    ensures Pick(ws, t) < |ws|
    ensures Pick(ws, t) == i <==> Sum(ws[..i]) <= t < Sum(ws[..i]) + ws[i]
    decreases |ws|
  {
    SumSplit(ws, i);
    if i > 0 {
      assert ws[..i][1..] == ws[1..][..i - 1];
    }
    if |ws| > 1 {
      SumAtLeast(ws[1..]);
      if t >= ws[0] {
        PickIsShare(ws[1..], t - ws[0], if i > 0 then i - 1 else 0);
      }
      if i > 0 {
        SumAtLeast(ws[1..][..i - 1]);
      }
    }
  }

  lemma {:induction false} SumAtLeast(ws: seq<int>)
    requires Positive(ws)
    ensures Sum(ws) >= |ws|
    decreases |ws|
  {
    if ws != [] {
      SumAtLeast(ws[1..]);
    }
  }

  lemma {:induction false} SumSplit(ws: seq<int>, i: nat)
    requires i <= |ws|
    ensures Sum(ws) == Sum(ws[..i]) + Sum(ws[i..])
    decreases i
  {
    if i > 0 {
      SumSplit(ws[1..], i - 1);
      assert ws[..i][1..] == ws[1..][..i - 1] && ws[i..] == ws[1..][i - 1..];
    } else {
      assert ws[..0] == [] && ws[0..] == ws;
    }
  }

  // ---------------------------------------------------------------- how often each is picked

  /** Among the numbers 0 to n - 1, how many fall to backend i. */
  function Draws(ws: seq<int>, i: nat, n: nat): nat {
    if n == 0 then 0 else Draws(ws, i, n - 1) + (if Pick(ws, n - 1) == i then 1 else 0)
  }

  lemma {:induction false} DrawsUpTo(ws: seq<int>, i: nat, n: nat)
    requires Positive(ws) && n <= Sum(ws) && i < |ws|
    ensures Sum(ws[..i]) >= 0
    ensures Draws(ws, i, n) == if n <= Sum(ws[..i]) then 0 else if n <= Sum(ws[..i]) + ws[i] then n - Sum(ws[..i]) else ws[i]
    decreases n
  {
    SumAtLeast(ws[..i]);
    if n > 0 {
      DrawsUpTo(ws, i, n - 1);
      PickIsShare(ws, n - 1, i);
    }
  }

  lemma SumBefore(ws: seq<int>, i: nat)
    requires Positive(ws) && i < |ws|
    ensures Sum(ws[..i]) + ws[i] <= Sum(ws)
  {
    SumSplit(ws, i);
    SumAtLeast(ws[i..][1..]);
  }

  /** Of the possible draws, exactly as many select a backend as its weight says. */
  lemma DrawsAreWeights(ws: seq<int>, i: nat)
    requires Positive(ws) && i < |ws|
    ensures Sum(ws) >= 0 && Draws(ws, i, Sum(ws)) == ws[i]
  {
    SumAtLeast(ws);
    SumBefore(ws, i);
    DrawsUpTo(ws, i, Sum(ws));
  }

  /** Whether the k-th pick after the counter stood at c is backend i. */
  function Hit(ws: seq<int>, i: nat, c: nat, k: nat): nat
    requires Sum(ws) > 0
  {
    if Pick(ws, (c + k) % Sum(ws)) == i then 1 else 0
  }

  /** How many of the next n picks are backend i. */
  function Hits(ws: seq<int>, i: nat, c: nat, n: nat): nat
    requires Sum(ws) > 0
  {
    if n == 0 then 0 else Hits(ws, i, c, n - 1) + Hit(ws, i, c, n)
  }

  lemma {:induction false} HitsShift(ws: seq<int>, i: nat, c: nat, n: nat)
    requires Sum(ws) > 0
    ensures Hits(ws, i, c, n + 1) == Hit(ws, i, c, 1) + Hits(ws, i, c + 1, n)
    decreases n
  {
    if n == 0 {
      assert Hits(ws, i, c, 0) == 0;
    } else {
      HitsShift(ws, i, c, n - 1);
      assert Hit(ws, i, c, n + 1) == Hit(ws, i, c + 1, n);
    }
  }

  /** A whole round picks the same wherever it starts. */
  lemma RoundShift(ws: seq<int>, i: nat, c: nat)
    requires Sum(ws) > 0
    ensures Hits(ws, i, c, Sum(ws)) == Hits(ws, i, c + 1, Sum(ws))
  {
    var n := Sum(ws);
    HitsShift(ws, i, c, n);
    assert (c + n + 1) % n == (c + 1) % n by { ModOnce(c + 1, n); }
    assert Hit(ws, i, c, n + 1) == Hit(ws, i, c, 1);
  }

  lemma ModOnce(a: nat, n: nat)
    requires n > 0
    ensures (a + n) % n == a % n
  {
    var q, r := a / n, a % n;
    assert a + n == (q + 1) * n + r;
    ModUnique(a + n, n, q + 1, r);
  }

  lemma {:induction false} Scaled(a: nat, b: nat, n: nat)
    requires a < b
    ensures a * n + n <= b * n
    decreases b
  {
    assert b * n == (b - 1) * n + n;
    if a < b - 1 {
      Scaled(a, b - 1, n);
    }
  }

  lemma ModUnique(a: nat, n: nat, q: nat, r: nat)
    requires n > 0 && a == q * n + r && r < n
    ensures a % n == r
  {
    var q' := a / n;
    assert a == q' * n + a % n;
    if q' > q {
      Scaled(q, q', n);
    } else if q' < q {
      Scaled(q', q, n);
    }
  }

  lemma {:induction false} HitsFromLast(ws: seq<int>, i: nat, n: nat)
    requires Sum(ws) > 0 && n <= Sum(ws)
    ensures Hits(ws, i, Sum(ws) - 1, n) == Draws(ws, i, n)
    decreases n
  {
    if n > 0 {
      HitsFromLast(ws, i, n - 1);
      assert (Sum(ws) - 1 + n) % Sum(ws) == n - 1 by { ModUnique(Sum(ws) - 1 + n, Sum(ws), 1, n - 1); }
    }
  }

  lemma {:induction false} RoundAnywhere(ws: seq<int>, i: nat, c: nat, d: nat)
    requires Sum(ws) > 0
    ensures Hits(ws, i, c, Sum(ws)) == Hits(ws, i, c + d, Sum(ws))
    decreases d
  {
    if d > 0 {
      RoundAnywhere(ws, i, c, d - 1);
      RoundShift(ws, i, c + d - 1);
    }
  }

  /** Any window of as many picks as the total weight selects every backend exactly its weight times. */
  lemma WindowIsFair(ws: seq<int>, i: nat, c: nat)
    requires Positive(ws) && i < |ws|
    ensures Sum(ws) > 0 && Hits(ws, i, c, Sum(ws)) == ws[i]
  {
    SumAtLeast(ws);
    RoundAnywhere(ws, i, 0, c);
    RoundAnywhere(ws, i, 0, Sum(ws) - 1);
    HitsFromLast(ws, i, Sum(ws));
    DrawsAreWeights(ws, i);
  }

  /** The round robin's counter after k picks. */
  function Counter(total: nat, c: nat, k: nat): nat
    requires total > 0
  {
    if k == 0 then c else (Counter(total, c, k - 1) + 1) % total
  }

  lemma {:induction false} CounterIs(total: nat, c: nat, k: nat)
    requires total > 0 && k > 0
    ensures Counter(total, c, k) == (c + k) % total
    decreases k
  {
    if k > 1 {
      CounterIs(total, c, k - 1);
      CounterStep(total, Counter(total, c, k - 1), c + k - 1);
    }
  }

  lemma CounterStep(total: nat, m: nat, a: nat)
    requires total > 0 && m == a % total
    ensures (m + 1) % total == (a + 1) % total
  {
    SuccMod(a, total);
  }

  lemma SuccMod(a: nat, n: nat)
    requires n > 0
    ensures (a % n + 1) % n == (a + 1) % n
  {
    var q, r := a / n, a % n;
    if r + 1 < n {
      ModUnique(a + 1, n, q, r + 1);
      ModUnique(r + 1, n, 0, r + 1);
    } else {
      assert (q + 1) * n == q * n + n;
      ModUnique(a + 1, n, q + 1, 0);
      ModUnique(n, n, 1, 0);
    }
  }
}
