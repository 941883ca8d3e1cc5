/**
  `shuffleStable` (script.js:49-57): a backward Fisher-Yates pass over a copy
  of the input, drawing the swap index from a fresh mulberry32 generator.
*/
module Shuffle {
  import opened Mulberry

  /** The array after `[a[i], a[j]] = [a[j], a[i]]`. */
  function Swapped<T>(s: seq<T>, i: nat, j: nat): (r: seq<T>)
    requires i < |s| && j < |s|
    ensures |r| == |s|
  {
    s[i := s[j]][j := s[i]]
  }

  /** A swap permutes. */
  lemma SwappedPermutes<T>(s: seq<T>, i: nat, j: nat)
    requires i < |s| && j < |s|
    ensures multiset(Swapped(s, i, j)) == multiset(s)
  {
  }

  /**
    The rest of the pass from loop counter i, with the generator in state
    `seed`: the loop body runs for i, i-1, ..., 1.
  */
  function ShuffleFrom<T>(a: seq<T>, i: int, seed: bv32): (r: seq<T>)
    requires i < |a|
    ensures |r| == |a|
    decreases i
  {
    if i <= 0 then a
    else
      var s := Advance(seed);
      ShuffleFrom(Swapped(a, i, SwapIndex(Mix(s), i)), i - 1, s)
  }

  /** One turn of the loop body. */
  lemma ShuffleFromStep<T>(a: seq<T>, i: int, seed: bv32)
    requires 0 < i < |a|
    ensures ShuffleFrom(a, i, seed)
         == ShuffleFrom(Swapped(a, i, SwapIndex(Mix(Advance(seed)), i)), i - 1, Advance(seed))
  {
  }

  /** What `shuffleStable(arr, seed)` returns. */
  function Shuffled<T>(arr: seq<T>, seed: bv32): seq<T> {
    ShuffleFrom(arr, |arr| - 1, seed)
  }

  /** Every remaining turn of the pass only swaps, so it permutes. */
  lemma {:induction false} ShuffleFromPermutes<T>(a: seq<T>, i: int, seed: bv32)
    requires i < |a|
    ensures multiset(ShuffleFrom(a, i, seed)) == multiset(a)
    decreases i
  {
    if i > 0 {
      var s := Advance(seed);
      var b := Swapped(a, i, SwapIndex(Mix(s), i));
      SwappedPermutes(a, i, SwapIndex(Mix(s), i));
      ShuffleFromPermutes(b, i - 1, s);
    }
  }

  /** The result is a permutation of the input, for every seed. */
  lemma ShuffledIsPermutation<T>(arr: seq<T>, seed: bv32)
    ensures |Shuffled(arr, seed)| == |arr|
    ensures multiset(Shuffled(arr, seed)) == multiset(arr)
  {
    ShuffleFromPermutes(arr, |arr| - 1, seed);
  }

  /** `[a[i], a[j]] = [a[j], a[i]]`: both reads happen before both writes. */
  method SwapInPlace<T>(a: array<T>, i: nat, j: nat)
    requires i < a.Length && j < a.Length
    modifies a
    ensures a[..] == Swapped(old(a[..]), i, j)
  {
    var ai, aj := a[i], a[j];
    a[i] := aj;
    a[j] := ai;
  }

  /**
    One turn of the loop body of script.js:52-55: draw, pick j, swap a[i]
    with a[j].
  */
  method Turn<T>(a: array<T>, rand: Mulberry32, i: nat)
    requires 0 < i < a.Length
    modifies a, rand
    ensures rand.seed == Advance(old(rand.seed))
    ensures a[..] == Swapped(old(a[..]), i, SwapIndex(Mix(rand.seed), i))
  {
    var n := rand.Next();
    var j := SwapIndex(n, i);
    SwapInPlace(a, i, j);
  }

  /**
    The loop of script.js:52-55 run on the array `a` with a generator in
    state `seed`: it leaves `a` holding the shuffled old contents.
  */
  method ShuffleArray<T>(a: array<T>, seed: bv32)
    modifies a
    ensures a[..] == Shuffled(old(a[..]), seed)
  {
    var rand := new Mulberry32(seed);
    var i := a.Length - 1;
    ghost var cur, s := a[..], seed;
    ghost var target := Shuffled(cur, seed);
    while i > 0
      invariant -1 <= i < a.Length
      invariant a[..] == cur && rand.seed == s
      invariant ShuffleFrom(cur, i, s) == target
      decreases i
    {
      Turn(a, rand, i);
      ShuffleFromStep(cur, i, s);
      cur, s := Swapped(cur, i, SwapIndex(Mix(Advance(s)), i)), Advance(s);
      i := i - 1;
    }
  }

  /**
    `shuffleStable(arr, seed)`: the input is left alone (it is a value); the
    pass works on a fresh array, as the source works on `arr.slice()`.
  */
  method ShuffleStable<T>(arr: seq<T>, seed: bv32) returns (r: seq<T>)
    ensures r == Shuffled(arr, seed)
    ensures |r| == |arr| && multiset(r) == multiset(arr)
  {
    var a := new T[|arr|](k requires 0 <= k < |arr| => arr[k]);
    assert a[..] == arr;
    ShuffleArray(a, seed);
    r := a[..];
    ShuffledIsPermutation(arr, seed);
  }
}
