/**
  The seeded generator `mulberry32` (script.js:41-48).

  The JavaScript closure keeps a numeric `seed`, adds 0x6d2b79f5 to it on
  every call and mixes the new value with 32-bit integer operations
  (`Math.imul` is a wrapping 32-bit product, `>>>` a logical shift), so the
  whole computation is exact arithmetic modulo 2^32 and is modelled on
  `bv32`. A call returns the float n / 2^32; the model returns the uint32
  numerator n and gives its value as an exact real by `ToUnit`.
*/
module Mulberry {

  /** The Weyl increment that each draw adds to the generator's state. */
  const INCREMENT: bv32 := 0x6d2b79f5

  /** 2^32, the denominator of every draw. */
  const TWO_32: int := 0x1_0000_0000

  /** The state after one draw. */
  function Advance(seed: bv32): bv32 {
    seed + INCREMENT
  }

  /**
    The mixing statements of the closure body (script.js:44-46) after k of
    them: stage 1 is `t = Math.imul(t ^ (t >>> 15), t | 1)`, stage 2 is
    `t ^= t + Math.imul(t ^ (t >>> 7), t | 61)` and stage 3 is the final
    `t ^ (t >>> 14)`. Naming `t` in the decreases clause means that the
    verifier evaluates the stages only on a constant state, and leaves a
    draw from an unknown state unexpanded.
  */
  function Mixed(t: bv32, k: nat): bv32
    requires k <= 3
    decreases k, t
  {
    if k == 0 then t else MixStage(Mixed(t, k - 1), k)
  }

  /** Mixing statement k on the value u left by the statements before it. */
  function MixStage(u: bv32, k: nat): bv32 {
    if k == 1 then FirstMix(u)
    else if k == 2 then SecondMix(u)
    else FinalMix(u)
  }

  /** Stage 1, `Math.imul(t ^ (t >>> 15), t | 1)`: `*` on `bv32` is the wrapping 32-bit product. */
  function FirstMix(u: bv32): bv32 {
    (u ^ (u >> 15)) * (u | 1)
  }

  /** Stage 2, `t ^ (t + Math.imul(t ^ (t >>> 7), t | 61))`. */
  function SecondMix(u: bv32): bv32 {
    u ^ (u + (u ^ (u >> 7)) * (u | 61))
  }

  /** Stage 3, `t ^ (t >>> 14)`. */
  function FinalMix(u: bv32): bv32 {
    u ^ (u >> 14)
  }

  /** The numerator that a draw returns, computed from the already advanced state. */
  function Mix(t: bv32): bv32 {
    Mixed(t, 3)
  }

  /** k / 2^32 as an exact real. */
  function Unit(k: int): (r: real)
    ensures r * TWO_32 as real == k as real
  {
    k as real / TWO_32 as real
  }

  /** The value `rand()` returns for numerator n: always in [0, 1). */
  function ToUnit(n: bv32): (r: real)
    ensures 0.0 <= r < 1.0
  {
    Unit(n as int)
  }

  /**
    n * k, spelt out as repeated addition so that every proof that unfolds
    the swap index stays within linear arithmetic; `TimesIsProduct` ties it
    to the product.
  */
  function Times(n: nat, k: nat): nat {
    if k == 0 then 0 else n + Times(n, k - 1)
  }

  lemma {:induction false} TimesIsProduct(n: nat, k: nat)
    ensures Times(n, k) == n * k
  {
    if k > 0 {
      TimesIsProduct(n, k - 1);
    }
  }

  /** A numerator below 2^32 scaled by k stays below 2^32 * k. */
  lemma {:induction false} TimesBelow(n: nat, k: nat)
    requires n < TWO_32 && k > 0
    ensures Times(n, k) < TWO_32 * k
  {
    if k > 1 {
      TimesBelow(n, k - 1);
    }
  }

  /**
    The Fisher-Yates swap index `Math.floor(rand() * (i + 1))` (script.js:53),
    as exact integer arithmetic on the numerator. It never leaves [0, i].
  */
  function SwapIndex(n: bv32, i: nat): (j: nat)
    ensures j <= i
  {
    ScaledBelow(n as int, i + 1);
    (n as int * (i + 1)) / TWO_32
  }

  lemma ScaledBelow(n: nat, k: nat)
    requires n < TWO_32 && k > 0
    ensures n * k / TWO_32 < k
  {
    TimesBelow(n, k);
    TimesIsProduct(n, k);
  }

  /**
    The span rule's thresholds `r < 0.35` and `r < 0.15` (script.js:95-100)
    as comparisons on the numerator k of r = k / 2^32.
  */
  lemma UnitThresholds(k: int)
    ensures Unit(k) < 0.35 <==> k < 1503238554
    ensures Unit(k) < 0.15 <==> k < 644245095
  {
    ScaledComparison(k, Unit(k), 0.35, 1503238554);
    ScaledComparison(k, Unit(k), 0.15, 644245095);
  }

  /** r < c is k < cut when r stands for k / 2^32 and cut is the integer ceiling of c * 2^32. */
  lemma ScaledComparison(k: int, r: real, c: real, cut: int)
    requires r * TWO_32 as real == k as real
    requires (cut - 1) as real < c * TWO_32 as real <= cut as real
    ensures r < c <==> k < cut
  {
  }

  /** A draw's numerator from the values its three mixing statements leave. */
  lemma MixFromStages(t: bv32, t1: bv32, t2: bv32, t3: bv32)
    requires MixStage(t, 1) == t1 && MixStage(t1, 2) == t2 && MixStage(t2, 3) == t3
    ensures Mix(t) == t3
  {
    assert Mixed(t, 1) == t1;
    assert Mixed(t, 2) == t2;
  }

  /**
    Reference values of `mulberry32`: the first two numerators of the
    generator seeded with 2025, which orders the cards, and the first of
    the one seeded with 1000, which belongs to the first card.
  */
  lemma KnownDraws()
    ensures Mix(Advance(2025)) == 1827426074
    ensures Mix(Advance(Advance(2025))) == 2636858733
    ensures Mix(Advance(1000)) == 3415336119
  {
    MixFromStages(1831567838, 2800207191, 1827536045, 1827426074);
    MixFromStages(3663133651, 2436566746, 2636722633, 2636858733);
    MixFromStages(1831566813, 3805774335, 3415395068, 3415336119);
  }

  /** A generator: the mutable state that the closure captures. */
  class Mulberry32 {
    var seed: bv32

    constructor (seed: bv32)
      ensures this.seed == seed
    {
      this.seed := seed;
    }

    /** One call of the closure: advance the state, then mix it. */
    method Next() returns (n: bv32)
      modifies this
      ensures seed == Advance(old(seed))
      ensures n == Mix(seed)
    {
      seed := seed + INCREMENT;
      n := Mix(seed);
    }
  }
}
