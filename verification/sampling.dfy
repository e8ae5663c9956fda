/** Python's `random.sample(population, k)`: `k` elements drawn without
    replacement. The random source is a parameter: `roll(i)` is the raw
    number behind the i-th draw, reduced to the size of the remaining pool. */
module Sampling {
  import opened Wrappers
  import opened Seqs

  /** The message `random.sample` raises with when `k` exceeds the population. */
  const TooLarge: string := "Sample larger than population or is negative"

  /** Draws `k` elements by partial Fisher-Yates: each step takes a
      position of the live pool, reports its element, and refills it with
      the last live element, which leaves the pool. */
  method Sample<T(==)>(population: seq<T>, k: nat, roll: nat -> nat) returns (r: Result<seq<T>, string>)
    ensures r.Failure? <==> k > |population|
    ensures r.Failure? ==> r.error == TooLarge
    ensures r.Success? ==> |r.value| == k && multiset(r.value) <= multiset(population)
  {
    var n := |population|;
    if k > n {
      return Failure(TooLarge);
    }
    // `live` is the prefix of CPython's pool that is still to be drawn from.
    var live := population;
    var result: seq<T> := [];
    var i := 0;
    while i < k
      invariant 0 <= i <= k
      invariant |live| == n - i && |result| == i
      invariant multiset(result) + multiset(live) == multiset(population)
    {
      var j := roll(i) % |live|;
      TakeAndRefill(live, j);
      result := result + [live[j]];
      live := live[j := live[|live| - 1]][..|live| - 1];
      i := i + 1;
    }
    return Success(result);
  }

  /** One draw from a live pool `p`: taking position `j` and moving the last
      element into it leaves exactly the other elements live. */
  lemma TakeAndRefill<T>(p: seq<T>, j: nat)
    requires j < |p|
    ensures multiset(p[j := p[|p| - 1]][..|p| - 1]) + multiset{p[j]} == multiset(p)
  {
    var last := |p| - 1;
    assert p == p[..last] + [p[last]];
    if j < last {
      assert p[j := p[last]][..last] == p[..last][j := p[last]];
    } else {
      assert p[j := p[last]][..last] == p[..last];
    }
  }
}
