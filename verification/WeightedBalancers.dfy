/** The balancers themselves, over backends whose weights can be changed in place. */
module WeightedBalancers {
  import opened Weighted

  class Backend {
    const id: nat
    var weight: int

    constructor (id: nat, weight: int)
      ensures this.id == id && this.weight == weight
    {
      this.id, this.weight := id, weight;
    }

    method SetWeight(weight: int)
      modifies this
      ensures this.weight == weight
    {
      this.weight := weight;
    }
  }

  function Weights(bs: seq<Backend>): (ws: seq<int>)
    reads bs
    ensures |ws| == |bs| && forall i :: 0 <= i < |bs| ==> ws[i] == bs[i].weight
  {
    seq(|bs|, i requires 0 <= i < |bs| reads bs => bs[i].weight)
  }

  predicate DistinctIds(bs: seq<Backend>) {
    forall i, j :: 0 <= i < j < |bs| ==> bs[i].id != bs[j].id
  }

  /** The position of a backend with this id, or -1. */
  method Find(bs: seq<Backend>, id: nat) returns (k: int)
    ensures -1 <= k < |bs|
    ensures k == -1 ==> forall i :: 0 <= i < |bs| ==> bs[i].id != id
    ensures k >= 0 ==> bs[k].id == id && forall i :: 0 <= i < k ==> bs[i].id != id
  {
    for i := 0 to |bs|
      invariant forall j :: 0 <= j < i ==> bs[j].id != id
    {
      if bs[i].id == id {
        return i;
      }
    }
    return -1;
  }

  lemma {:induction false} SumUpdate(ws: seq<int>, k: nat, w: int)
    requires k < |ws|
    ensures Sum(ws[k := w]) == Sum(ws) - ws[k] + w
    decreases k
  {
    if k == 0 {
      assert ws[0 := w][1..] == ws[1..];
    } else {
      SumUpdate(ws[1..], k - 1, w);
      assert ws[k := w][1..] == ws[1..][k - 1 := w];
    }
  }

  lemma SumRemove(ws: seq<int>, k: nat)
    requires k < |ws|
    ensures Sum(ws[..k] + ws[k + 1..]) == Sum(ws) - ws[k]
  {
    var r := ws[..k] + ws[k + 1..];
    SumSplit(ws, k);
    SumSplit(r, k);
    assert r[..k] == ws[..k] && r[k..] == ws[k + 1..] && ws[k..][1..] == ws[k + 1..];
  }

  lemma SumAppend(ws: seq<int>, w: int)
    ensures Sum(ws + [w]) == Sum(ws) + w
  {
    SumSplit(ws + [w], |ws|);
    assert (ws + [w])[..|ws|] == ws && (ws + [w])[|ws|..] == [w] && Sum([w]) == w + Sum([w][1..]);
  }

  class WeightedRoundRobin {
    var backends: seq<Backend>
    var currentWeight: int
    var totalWeight: int

    ghost predicate Valid()
      reads this, backends
    {
      && DistinctIds(backends) && Positive(Weights(backends))
      && totalWeight == Sum(Weights(backends)) && currentWeight >= 0
    }

    constructor ()
      ensures Valid() && backends == [] && currentWeight == 0
    {
      backends, currentWeight, totalWeight := [], 0, 0;
    }

    /** Advances the counter and serves the backend it falls to; a lone backend is served without counting. */
    method Next() returns (r: Backend?)
      requires Valid()
      modifies this`currentWeight
      ensures Valid() && (r == null <==> backends == [])
      ensures |backends| == 1 ==> r == backends[0] && currentWeight == old(currentWeight)
      ensures |backends| > 1 ==>
                && totalWeight > 0 && currentWeight == (old(currentWeight) + 1) % totalWeight
                && Pick(Weights(backends), currentWeight) < |backends|
                && r == backends[Pick(Weights(backends), currentWeight)]
    {
      if |backends| == 0 {
        return null;
      }
      if |backends| == 1 {
        return backends[0];
      }
      SumAtLeast(Weights(backends));
      currentWeight := (currentWeight + 1) % totalWeight;
      r := Walk(currentWeight);
    }

    /**
     Calls `Next` any number of times and counts how often one backend is served. As many calls as the
     total weight serve every backend exactly its weight times, wherever the counter stands.
     */
    method Serve(n: nat, i: nat) returns (picks: nat)
      requires Valid() && i < |backends|
      modifies this`currentWeight
      ensures Valid() && totalWeight > 0 && picks == Hits(Weights(backends), i, old(currentWeight), n)
      ensures n == totalWeight ==> picks == backends[i].weight
    {
      ghost var ws, c := Weights(backends), currentWeight;
      WindowIsFair(ws, i, c);
      picks := 0;
      for k := 0 to n
        invariant Valid() && picks == Hits(ws, i, c, k)
        invariant |backends| > 1 ==> currentWeight == Counter(totalWeight, c, k)
      {
        var hit := ServeOne(i, c, k);
        picks := if hit then picks + 1 else picks;
      }
    }

    /** One call of `Next`, the k-th after the counter stood at c. */
    method ServeOne(i: nat, ghost c: nat, ghost k: nat) returns (hit: bool)
      requires Valid() && i < |backends| && totalWeight > 0
      requires |backends| > 1 ==> currentWeight == Counter(totalWeight, c, k)
      modifies this`currentWeight
      ensures Valid() && (|backends| > 1 ==> currentWeight == Counter(totalWeight, c, k + 1))
      ensures Hit(Weights(backends), i, c, k + 1) == if hit then 1 else 0
    {
      CounterIs(totalWeight, c, k + 1);
      PickIsShare(Weights(backends), (c + (k + 1)) % totalWeight, i);
      var r := Next();
      hit := r == backends[i];
    }

    /** Subtracts weights in order until the rest is less than the next; positive weights leave no fallback. */
    method Walk(start: int) returns (r: Backend)
      requires Valid() && backends != [] && 0 <= start < totalWeight
      ensures Pick(Weights(backends), start) < |backends| && r == backends[Pick(Weights(backends), start)]
    {
      ghost var ws := Weights(backends);
      var current := start;
      assert ws[0..] == ws && ws[|backends|..] == [];
      r := backends[0];
      for i := 0 to |backends|
        invariant 0 <= current < Sum(ws[i..]) && Pick(ws, start) == i + Pick(ws[i..], current)
      {
        assert ws[i..][0] == backends[i].weight && ws[i..][1..] == ws[i + 1..];
        if current < backends[i].weight {
          return backends[i];
        }
        current := current - backends[i].weight;
      }
      assert false;
    }

    /** Refuses a weight that is not positive; updates the weight of a known id, or appends. */
    method Register(b: Backend) returns (ok: bool)
      requires Valid()
      modifies this, backends
      ensures Valid() && currentWeight == old(currentWeight) && ok == (old(b.weight) > 0)
      ensures !ok ==> backends == old(backends) && Weights(backends) == old(Weights(backends))
      ensures ok && (forall i :: 0 <= i < |old(backends)| ==> old(backends)[i].id != b.id) ==>
                backends == old(backends) + [b] && Weights(backends) == old(Weights(backends)) + [old(b.weight)]
      ensures forall k :: ok && 0 <= k < |old(backends)| && old(backends)[k].id == b.id ==>
                            backends == old(backends) && Weights(backends) == old(Weights(backends))[k := old(b.weight)]
    {
      if b.weight <= 0 {
        return false;
      }
      var k := Find(backends, b.id);
      if k == -1 {
        Append(b);
      } else {
        Reweigh(k, b.weight);
      }
      return true;
    }

    method Append(b: Backend)
      requires Valid() && b.weight > 0 && forall i :: 0 <= i < |backends| ==> backends[i].id != b.id
      modifies this
      ensures Valid() && currentWeight == old(currentWeight)
      ensures backends == old(backends) + [b] && Weights(backends) == old(Weights(backends)) + [b.weight]
    {
      SumAppend(Weights(backends), b.weight);
      totalWeight := totalWeight + b.weight;
      backends := backends + [b];
      assert Weights(backends) == old(Weights(backends)) + [b.weight];
    }

    method Reweigh(k: nat, weight: int)
      requires Valid() && k < |backends| && weight > 0
      modifies `totalWeight, backends[k]
      ensures Valid() && Weights(backends) == old(Weights(backends))[k := weight]
    {
      var back := backends[k];
      SumUpdate(Weights(backends), k, weight);
      if back.weight != weight {
        totalWeight := totalWeight - (back.weight - weight);
        back.SetWeight(weight);
      }
      assert Weights(backends) == old(Weights(backends))[k := weight];
    }

    method Unregister(id: nat)
      requires Valid()
      modifies this
      ensures Valid() && currentWeight == old(currentWeight)
      ensures (forall i :: 0 <= i < |old(backends)| ==> old(backends)[i].id != id) ==> backends == old(backends)
      ensures forall k :: 0 <= k < |old(backends)| && old(backends)[k].id == id ==>
                            backends == old(backends)[..k] + old(backends)[k + 1..]
    {
      var k := Find(backends, id);
      if k >= 0 {
        RemoveAt(k);
      }
    }

    method RemoveAt(k: nat)
      requires Valid() && k < |backends|
      modifies `backends, `totalWeight
      ensures Valid() && backends == old(backends)[..k] + old(backends)[k + 1..]
    {
      var ws, rest := Weights(backends), backends[..k] + backends[k + 1..];
      SumRemove(ws, k);
      assert Weights(rest) == ws[..k] + ws[k + 1..];
      totalWeight := totalWeight - backends[k].weight;
      backends := rest;
    }
  }

  // ---------------------------------------------------------------- the random one

  /** The running totals of some weights, from nothing to all. */
  function Prefixes(ws: seq<int>): (ps: seq<int>)
    ensures |ps| == |ws| + 1 && forall i :: 0 <= i <= |ws| ==> ps[i] == Sum(ws[..i])
  {
    seq(|ws| + 1, i requires 0 <= i <= |ws| => Sum(ws[..i]))
  }

  lemma PrefixStep(ws: seq<int>, i: nat)
    requires i < |ws|
    ensures Sum(ws[..i + 1]) == Sum(ws[..i]) + ws[i]
  {
    assert ws[..i + 1] == ws[..i] + [ws[i]];
    SumAppend(ws[..i], ws[i]);
  }

  /** The first running total above r, one past the backend r falls to. */
  method SearchAbove(ps: seq<int>, r: int, ghost ws: seq<int>) returns (index: nat)
    requires Positive(ws) && ps == Prefixes(ws) && 0 <= r < Sum(ws)
    ensures 1 <= index <= |ws| && Pick(ws, r) == index - 1
  {
    var lo, hi := 0, |ps|;
    assert ws[..0] == [] && ws[..|ws|] == ws;
    while lo < hi
      invariant 0 <= lo <= hi <= |ps|
      invariant lo > 0 ==> ps[lo - 1] <= r
      invariant hi < |ps| ==> ps[hi] > r
    {
      var mid := (lo + hi) / 2;
      if ps[mid] > r {
        hi := mid;
      } else {
        lo := mid + 1;
      }
    }
    index := lo;
    PrefixStep(ws, index - 1);
    PickIsShare(ws, r, index - 1);
  }

  datatype Choice = NoBackends | BadTotal | BadWeight | Chosen(backend: Backend)

  class WeightedRandom {
    var backends: seq<Backend>
    var preSum: seq<int>
    ghost var built: seq<int>

    /** The running totals are those of the weights at the last rebuild; weights may have changed since. */
    ghost predicate Valid()
      reads this
    {
      DistinctIds(backends) && |built| == |backends| && (backends != [] ==> preSum == Prefixes(built))
    }

    constructor ()
      ensures Valid() && backends == []
    {
      backends, preSum, built := [], [], [];
    }

    /** Looks for a running total that does not exceed the one before it. */
    method Rising() returns (ok: bool)
      requires Valid() && backends != []
      ensures ok <==> Positive(built)
    {
      for i := 0 to |backends|
        invariant forall j :: 0 <= j < i ==> built[j] > 0
      {
        PrefixStep(built, i);
        if preSum[i + 1] <= preSum[i] {
          return false;
        }
      }
      return true;
    }

    /** A choice is made exactly when there are backends and all weights were positive; the draw then decides as `Pick` does. */
    method Next(entropy: nat) returns (r: Choice)
      requires Valid()
      ensures backends == [] ==> r == NoBackends
      ensures backends != [] && Sum(built) <= 0 ==> r == BadTotal
      ensures backends != [] && Sum(built) > 0 && !Positive(built) ==> r == BadWeight
      ensures backends != [] && Positive(built) ==>
                && Sum(built) > 0 && Pick(built, entropy % Sum(built)) < |backends|
                && r == Chosen(backends[Pick(built, entropy % Sum(built))])
    {
      if |backends| == 0 {
        return NoBackends;
      }
      assert built[..|built|] == built;
      if preSum[|backends|] <= 0 {
        if Positive(built) { SumAtLeast(built); }
        return BadTotal;
      }
      var rising := Rising();
      if !rising {
        return BadWeight;
      }
      var index := SearchAbove(preSum, entropy % preSum[|backends|], built);
      return Chosen(backends[index - 1]);
    }

    method BuildPreSum()
      requires DistinctIds(backends)
      modifies `preSum, `built
      ensures Valid() && built == Weights(backends) && preSum == Prefixes(built)
    {
      built := Weights(backends);
      preSum := [0];
      assert built[..0] == [];
      for i := 0 to |backends|
        invariant built == Weights(backends)
        invariant |preSum| == i + 1 && forall j :: 0 <= j <= i ==> preSum[j] == Sum(built[..j])
      {
        PrefixStep(built, i);
        preSum := preSum + [preSum[i] + backends[i].weight];
      }
    }

    /** Refuses a weight that is not positive and ignores a known id. */
    method Register(b: Backend) returns (ok: bool)
      requires Valid()
      modifies this
      ensures Valid() && ok == (b.weight > 0)
      ensures ok && (forall i :: 0 <= i < |old(backends)| ==> old(backends)[i].id != b.id) ==>
                backends == old(backends) + [b] && built == Weights(backends)
      ensures !ok || (exists i :: 0 <= i < |old(backends)| && old(backends)[i].id == b.id) ==>
                backends == old(backends) && built == old(built)
    {
      if b.weight <= 0 {
        return false;
      }
      var k := Find(backends, b.id);
      if k == -1 {
        backends := backends + [b];
        BuildPreSum();
      }
      return true;
    }

    method Unregister(id: nat)
      requires Valid()
      modifies this
      ensures Valid() && built == Weights(backends)
      ensures (forall i :: 0 <= i < |old(backends)| ==> old(backends)[i].id != id) ==> backends == old(backends)
      ensures forall k :: 0 <= k < |old(backends)| && old(backends)[k].id == id ==>
                            backends == old(backends)[..k] + old(backends)[k + 1..]
    {
      var k := Find(backends, id);
      if k >= 0 {
        backends := backends[..k] + backends[k + 1..];
      }
      BuildPreSum();
    }
  }
}
