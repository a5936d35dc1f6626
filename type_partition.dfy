/**
 * getKParam of Swarm.java: particle ids are split into contiguous blocks of
 * pPartition = pNum / pType ids, and the block numbers of the two particles
 * select a row and a column of the coefficient matrix. Nothing clamps the
 * block number, so Java raises an exception when it falls outside the
 * matrix (or divides by zero when pPartition is 0); the model says None.
 */
module TypePartition {
  import opened JavaMath
  import opened Parameters

  /** The block of particle `id`: (id - 1) / pPartition in Java int arithmetic. */
  function TypeIndex(id: int, pPartition: int): (r: int)
    requires pPartition != 0
  {
    JavaDiv(id - 1, pPartition)
  }

  /** Whether (row, col) addresses an entry of the possibly ragged matrix. */
  predicate InMatrix(params: Matrix, row: int, col: int) {
    0 <= row < |params| && 0 <= col < |params[row]|
  }

  /** getKParam: the coefficient between the blocks of ids i and j, or None where Java throws. */
  function GetKParam(params: Matrix, pPartition: int, i: int, j: int): (r: Option<real>)
    ensures r.Some? <==> pPartition != 0 && InMatrix(params, TypeIndex(i, pPartition), TypeIndex(j, pPartition))
    ensures r.Some? ==> r.value == params[TypeIndex(i, pPartition)][TypeIndex(j, pPartition)]
  {
    if pPartition == 0 then None
    else
      var row, col := TypeIndex(i, pPartition), TypeIndex(j, pPartition);
      if InMatrix(params, row, col) then Some(params[row][col]) else None
  }

  lemma MulCancelLess(q: int, x: int, y: int)
    requires 0 < q && q * x < q * y
    ensures x < y
  {
    if x >= y {
      MulMonotone(q, y, x);
    }
  }
  lemma MulMonotone(q: int, x: int, y: int)
    requires 0 <= q && x <= y
    ensures q * x <= q * y
  {
  }
  lemma DivMonotone(a: int, b: int, q: int)
    requires 0 <= a <= b && 0 < q
    ensures a / q <= b / q
  {
    assert q * (a / q) <= a;
    assert b < q * (b / q) + q;
    assert q * (b / q) + q == q * (b / q + 1);
    MulCancelLess(q, a / q, b / q + 1);
  }
  lemma DivBelow(a: int, q: int, n: int)
    requires 0 <= a < q * n && 0 < q
    ensures a / q < n
  {
    assert q * (a / q) <= a;
    MulCancelLess(q, a / q, n);
  }

  /** Block numbers of valid ids are non-negative and do not decrease with the id. */
  lemma TypeIndexMonotone(id1: int, id2: int, pPartition: int)
    requires 1 <= id1 <= id2 && 1 <= pPartition
    ensures 0 <= TypeIndex(id1, pPartition) <= TypeIndex(id2, pPartition)
  {
    DivMonotone(id1 - 1, id2 - 1, pPartition);
  }

  /** The first block holds exactly the ids up to pPartition. */
  lemma TypeIndexZeroIff(id: int, pPartition: int)
    requires 1 <= id && 1 <= pPartition
    ensures TypeIndex(id, pPartition) == 0 <==> id <= pPartition
  {
    if id > pPartition {
      DivMonotone(pPartition, id - 1, pPartition);
      assert pPartition / pPartition == 1;
    }
  }

  /** When pType divides pNum, every id up to pNum falls in one of the pType blocks. */
  lemma TypeIndexBelowTypes(id: int, pNum: int, pType: int)
    requires 0 < pType && pType <= pNum && pNum % pType == 0
    requires 1 <= id <= pNum
    ensures pNum / pType >= 1
    ensures 0 <= TypeIndex(id, pNum / pType) < pType
  {
    var q := pNum / pType;
    assert pNum == q * pType;
    assert 1 <= q;
    DivBelow(id - 1, q, pType);
  }

  /** With two types and at least two particles the block number never exceeds 2. */
  lemma TypeIndexTwoTypes(id: int, pNum: int)
    requires 2 <= pNum && 1 <= id <= pNum
    ensures pNum / 2 >= 1
    ensures 0 <= TypeIndex(id, pNum / 2) <= 2
  {
    var q := pNum / 2;
    assert pNum <= 2 * q + 1;
    DivBelow(id - 1, q, 3);
  }

  /** An uneven split runs past the last block: 5 particles of 2 types put id 5 in block 2. */
  lemma UnevenSplitOverflows()
    ensures 5 / 2 == 2 && TypeIndex(5, 5 / 2) == 2
  {
  }

  /** A quotient is at least n when n divisor-sized blocks fit under the dividend. */
  lemma DivAtLeast(a: int, q: int, n: int)
    requires 0 < q && 0 <= q * n <= a
    ensures n <= a / q
  {
    if a / q < n {
      MulMonotone(q, a / q, n - 1);
    }
  }

  /**
   * Whenever pType does not divide pNum and there are at least as many
   * particles as types, the last id pNum lands in block
   * pType or beyond: the blocks of pNum / pType ids do not cover all ids.
   */
  lemma UnevenSplitReachesType(pNum: int, pType: int)
    requires 0 < pType <= pNum && pNum % pType != 0
    ensures pNum / pType >= 1
    ensures TypeIndex(pNum, pNum / pType) >= pType
  {
    var q := pNum / pType;
    assert pNum == pType * q + pNum % pType;
    assert 1 <= q;
    assert q * pType <= pNum - 1;
    DivAtLeast(pNum - 1, q, pType);
  }

  /**
   * With fewer particles than types the blocks are empty: pPartition is 0
   * and every getKParam divides by zero.
   */
  lemma FewerParticlesThanTypesThrows(params: Matrix, pNum: int, pType: int, i: int, j: int)
    requires 0 <= pNum < pType
    ensures pNum / pType == 0
    ensures GetKParam(params, pNum / pType, i, j).None?
  {
    assert pNum == pType * 0 + pNum;
  }

  /** With 9 particles of 3 types, ids (1, 4) select block (0, 1) and ids (7, 9) block (2, 2). */
  lemma NineParticlesThreeTypes()
    ensures TypeIndex(1, 9 / 3) == 0 && TypeIndex(4, 9 / 3) == 1
    ensures TypeIndex(7, 9 / 3) == 2 && TypeIndex(9, 9 / 3) == 2
  {
  }

  /** Every pair of ids is served when pType divides pNum and the matrix is pType x pType. */
  lemma KParamDefinedOnEvenSplit(params: Matrix, pNum: int, pType: int, i: int, j: int)
    requires 0 < pType <= pNum && pNum % pType == 0
    requires |params| == pType && forall r :: 0 <= r < pType ==> |params[r]| == pType
    requires 1 <= i <= pNum && 1 <= j <= pNum
    ensures GetKParam(params, pNum / pType, i, j).Some?
  {
    TypeIndexBelowTypes(i, pNum, pType);
    TypeIndexBelowTypes(j, pNum, pType);
  }

  /** The 2x2 coefficient matrix cannot serve 5 particles of 2 types: getKParam(5, 5) throws. */
  lemma KParamUnevenSplitThrows(params: Matrix)
    requires |params| == 2 && |params[0]| == 2 && |params[1]| == 2
    ensures GetKParam(params, 5 / 2, 5, 5).None?
  {
    UnevenSplitOverflows();
  }

  /**
   * A matrix with more rows than types does not throw but serves the
   * overflowing ids from a row meant for no type: with 5 particles of 2
   * types and a 3x3 matrix, id 5 reads the third row.
   */
  lemma KParamUnevenSplitReadsExtraRow(params: Matrix)
    requires |params| == 3 && forall r :: 0 <= r < 3 ==> |params[r]| == 3
    ensures GetKParam(params, 5 / 2, 5, 1) == Some(params[2][0])
    ensures GetKParam(params, 5 / 2, 5, 5) == Some(params[2][2])
  {
    UnevenSplitOverflows();
  }
}
