/** Facts about real division that several computations of shares rely on. */
module Arithmetic {

  /** Shares of one whole add up as their numerators do. */
  lemma DivAdd(a: real, b: real, t: real)
    requires t != 0.0
    ensures a / t + b / t == (a + b) / t
  {
  }
}
