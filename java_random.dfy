/** The pseudo-random generator the triangle pass draws its colours from: the 48-bit
    linear congruential generator of java.util.Random, with its seed scrambling,
    its step, next(31) and nextInt(bound). */
module JavaRandom {

  const Multiplier: int := 0x5_DEEC_E66D
  const Addend: int := 0xB
  /** The generator keeps 48 bits of state. */
  const Modulus: int := 0x1_0000_0000_0000
  /** 2^31: next(31) yields values below it, and so does any positive Java int. */
  const IntLimit: int := 0x8000_0000

  /** The state a generator constructed with this 64-bit seed starts in:
      (seed ^ multiplier) & (2^48 - 1), that is, the low 48 bits of seed ^ multiplier. */
  function InitialScramble(seed: bv64): (s: nat)
    ensures s < Modulus
  {
    ((seed ^ 0x5_DEEC_E66D) as int) % Modulus
  }

  /** One step of the generator. */
  function Step(s: nat): (r: nat)
    ensures r < Modulus
  {
    (s * Multiplier + Addend) % Modulus
  }

  /** next(31) read off a state just stepped to: its top 31 bits. */
  function Next31(s: nat): (u: nat)
    requires s < Modulus
    ensures u < IntLimit
  {
    s / 0x2_0000
  }

  /** The state after n steps from s0. */
  function StateAfter(s0: nat, n: nat): (s: nat)
    requires s0 < Modulus
    ensures s < Modulus
  {
    if n == 0 then s0 else Step(StateAfter(s0, n - 1))
  }

  /** The test bound & (bound - 1) == 0, which for a positive int holds exactly when
      bound is a power of two. */
  predicate IsPowerOfTwo(bound: nat)
    decreases bound
  {
    bound == 1 || (bound > 1 && bound % 2 == 0 && IsPowerOfTwo(bound / 2))
  }

  lemma ScaledBelowBound(u: nat, bound: nat)
    requires u < IntLimit && 0 < bound
    ensures 0 <= (bound * u) / IntLimit < bound
  {
    var gap: nat := IntLimit - u;
    var p := bound * u;
    assert p + bound * gap == bound * IntLimit;
    assert 0 <= bound * gap && 0 <= p;
    assert p < bound * IntLimit;
  }

  /** (int)((bound * (long) u) >> 31) */
  function Scaled(u: nat, bound: int): (r: nat)
    requires u < IntLimit && 0 < bound
    ensures r < bound
  {
    ScaledBelowBound(u, bound);
    (bound * u) / IntLimit
  }

  /** The value nextInt(bound) returns for a raw draw u of next(31): for a power of two
      the top bits of bound * u, otherwise u modulo bound. */
  function BoundedValue(u: nat, bound: int): (r: nat)
    requires u < IntLimit && 0 < bound < IntLimit
    ensures r < bound
  {
    if IsPowerOfTwo(bound) then
      Scaled(u, bound)
    else
      u % bound
  }

  /** The k-th (from 0) value nextInt(bound) returns from a generator built with seed. */
  function DrawInt(seed: bv64, k: nat, bound: int): (v: nat)
    requires 0 < bound < IntLimit
    ensures v < bound
  {
    BoundedValue(Next31(StateAfter(InitialScramble(seed), k + 1)), bound)
  }

  class Random {
    /** The 48-bit state. */
    var seed: nat

    predicate Valid()
      reads this
    {
      seed < Modulus
    }

    constructor (s: bv64)
      ensures Valid() && seed == InitialScramble(s)
    {
      seed := InitialScramble(s);
    }

    /** nextInt(bound): one step, then the bounded value of the new state's top 31 bits. */
    method NextInt(bound: int) returns (r: int)
      requires Valid() && 0 < bound < IntLimit
      modifies this
      ensures Valid() && seed == Step(old(seed))
      ensures r == BoundedValue(Next31(seed), bound) && 0 <= r < bound
    {
      seed := Step(seed);
      var u := Next31(seed);
      r := BoundedValue(u, bound);
    }
  }

  /** n successive nextInt(bound) calls on a generator freshly built with seed return the
      first n values of DrawInt, in order: each call continues from the state the previous
      one left. */
  method NextInts(seed: bv64, n: nat, bound: int) returns (vs: seq<int>)
    requires 0 < bound < IntLimit
    ensures |vs| == n
    ensures forall k :: 0 <= k < n ==> vs[k] == DrawInt(seed, k, bound)
  {
    var r := new Random(seed);
    vs := [];
    while |vs| < n
      invariant |vs| <= n && r.Valid()
      invariant r.seed == StateAfter(InitialScramble(seed), |vs|)
      invariant forall k :: 0 <= k < |vs| ==> vs[k] == DrawInt(seed, k, bound)
    {
      var v := r.NextInt(bound);
      vs := vs + [v];
    }
  }
}
