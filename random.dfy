/** java.util.Random, as the stream of values it yields. */
module Randomness {

  /** A random source whose k-th draw is oracle(k) reduced to the requested bound.
      drawn counts the draws taken so far. */
  class Random {
    const oracle: nat -> nat
    var drawn: nat

    constructor (oracle: nat -> nat)
      ensures this.oracle == oracle && drawn == 0
    {
      this.oracle := oracle;
      drawn := 0;
    }

    /** nextInt(bound): the next draw, in [0, bound). */
    method NextInt(bound: int) returns (r: int)
      requires bound > 0
      modifies this
      ensures 0 <= r < bound
      ensures r == oracle(old(drawn)) % bound
      ensures drawn == old(drawn) + 1
    {
      r := oracle(drawn) % bound;
      drawn := drawn + 1;
    }
  }
}
