/** The pseudo-random source the TPC-C generator draws from (`SmallRng` and
    `SliceRandom::shuffle` of the `rand` crate), as an oracle: callers may
    rely only on the range of each draw and on a shuffle permuting its
    input. The generator's own algorithm is not part of this model; the
    state update below is a stand-in that gives the methods a body and
    promises nothing beyond their contracts. */
module Rand {
  import opened Base

  class SmallRng {
    var state: u64

    /** `SmallRng::seed_from_u64(seed)`: every table seeds a fresh generator
        with the row it is generating, so a batch is a function of its index. */
    constructor SeedFromU64(seed: u64)
    {
      state := seed;
    }

    /** The next raw 64-bit word. */
    method NextWord() returns (w: u64)
      modifies this
    {
      state := ((state as nat * 6364136223846793005 + 1442695040888963407) % TWO_64) as u64;
      w := state;
    }

    /** `gen_range(lo..hi)`: a draw from the half-open range; an empty range
        panics, so callers must pass `lo < hi`. */
    method GenRange(lo: nat, hi: nat) returns (r: nat)
      requires lo < hi
      modifies this
      ensures lo <= r < hi
    {
      var w := NextWord();
      r := lo + w as nat % (hi - lo);
    }

    /** `gen_range(lo..=hi)`: a draw from the closed range. */
    method GenRangeInclusive(lo: nat, hi: nat) returns (r: nat)
      requires lo <= hi
      modifies this
      ensures lo <= r <= hi
    {
      r := GenRange(lo, hi + 1);
    }

    /** `slice.shuffle(rng)`: the result is a permutation of `s`. */
    method Shuffle<T>(s: seq<T>) returns (r: seq<T>)
      modifies this
      ensures |r| == |s|
      ensures multiset(r) == multiset(s)
    {
      r := s;
      var i := |r|;
      while i > 1
        invariant 0 <= i <= |r| == |s|
        invariant multiset(r) == multiset(s)
      {
        var j := GenRange(0, i);
        SwapPreservesMultiset(r, i - 1, j);
        r := Swap(r, i - 1, j);
        i := i - 1;
      }
    }
  }

  /** `s` with the elements at `i` and `j` exchanged. */
  function Swap<T>(s: seq<T>, i: nat, j: nat): (r: seq<T>)
    requires i < |s| && j < |s|
    ensures |r| == |s| && r[i] == s[j] && r[j] == s[i]
    ensures forall k :: 0 <= k < |s| && k != i && k != j ==> r[k] == s[k]
  {
    s[i := s[j]][j := s[i]]
  }

  lemma SwapPreservesMultiset<T>(s: seq<T>, i: nat, j: nat)
    requires i < |s| && j < |s|
    ensures multiset(Swap(s, i, j)) == multiset(s)
  {
    var t := s[i := s[j]];
    assert multiset(t) == multiset(s) - multiset{s[i]} + multiset{s[j]};
    assert multiset(t[j := s[i]]) == multiset(t) - multiset{t[j]} + multiset{s[i]};
  }
}
