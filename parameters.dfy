/**
 * The coefficient-matrix manager that Swarm.java talks to (the Parameter base
 * class): a whole matrix that is replaced at once, and a counter of
 * replacements that the step loop resets. Parameter.java itself is not part of
 * this model; only the behaviour its callers rely on is kept.
 */
module Parameters {

  /** double[][]: a possibly ragged matrix of coefficients, row by row. */
  type Matrix = seq<seq<real>>

  class ParamManager {
    var params: Matrix
    var changedCount: nat

    constructor (initial: Matrix)
      ensures params == initial && changedCount == 0
    {
      params := initial;
      changedCount := 0;
    }

    /** setParams: swap in a whole new matrix and count the change. */
    method SetParams(m: Matrix)
      modifies this
      ensures params == m
      ensures changedCount == old(changedCount) + 1
    {
      params := m;
      changedCount := changedCount + 1;
    }

    /** setParamChangedCount: overwrite the counter, leaving the matrix alone. */
    method SetParamChangedCount(n: nat)
      modifies this
      ensures changedCount == n && params == old(params)
    {
      changedCount := n;
    }
  }
}
