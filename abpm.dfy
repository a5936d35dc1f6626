/**
 * ParameterKabpm.java: the two-type coefficient matrix written with four
 * scalars A, B, P and M as [[A, P + M], [P - M, B]]. P is the reciprocal part
 * of the cross coupling and M the non-reciprocal part.
 */
module Abpm {
  import opened Parameters

  /** The built-in values of kA, kB, kP and kM. */
  const KA: real := 0.8
  const KB: real := 0.4
  const KP: real := 0.6
  const KM: real := -0.8

  predicate IsTwoByTwo(k: Matrix) {
    |k| == 2 && |k[0]| == 2 && |k[1]| == 2
  }

  /** init2x2: the matrix built from the built-in values. */
  function Init2x2(): (k: Matrix)
    ensures k == [[0.8, -0.2], [1.4, 0.4]]
  {
    [[KA, KP + KM], [KP - KM, KB]]
  }

  /** init3x3: this scheme has no three-type matrix, so it yields one with no rows. */
  function Init3x3(): (k: Matrix)
    ensures |k| == 0
  {
    []
  }

  /**
   * The matrix the Update button installs from the four entered values: A and
   * B on the diagonal, the off-diagonal pair averaging to P and differing by 2M.
   */
  function UpdateMatrix(a: real, b: real, p: real, m: real): (k: Matrix)
    ensures IsTwoByTwo(k)
    ensures k[0][0] == a && k[1][1] == b
    ensures k[0][1] + k[1][0] == 2.0 * p && k[0][1] - k[1][0] == 2.0 * m
  {
    [[a, p + m], [p - m, b]]
  }

  /** The four scalars of a two-type matrix: the inverse of the construction. */
  function Decompose(k: Matrix): (abpm: (real, real, real, real))
    requires IsTwoByTwo(k)
  {
    (k[0][0], k[1][1], (k[0][1] + k[1][0]) / 2.0, (k[0][1] - k[1][0]) / 2.0)
  }

  /** Building from four scalars and reading them back gives the same scalars. */
  lemma DecomposeUpdate(a: real, b: real, p: real, m: real)
    ensures Decompose(UpdateMatrix(a, b, p, m)) == (a, b, p, m)
  {
  }

  /** Every two-type matrix is built by the scheme from exactly its own four scalars. */
  lemma UpdateDecompose(k: Matrix)
    requires IsTwoByTwo(k)
    ensures var (a, b, p, m) := Decompose(k); UpdateMatrix(a, b, p, m) == k
  {
    var (a, b, p, m) := Decompose(k);
    var r := UpdateMatrix(a, b, p, m);
    assert r[0] == k[0] && r[1] == k[1];
  }

  /** The interaction is reciprocal (the matrix symmetric) exactly when M is 0. */
  lemma UpdateSymmetricIff(a: real, b: real, p: real, m: real)
    ensures var k := UpdateMatrix(a, b, p, m); k[0][1] == k[1][0] <==> m == 0.0
  {
  }

  /** init2x2 and the Update handler build the same shape: init2x2 is the handler's matrix for the built-in values. */
  lemma Init2x2IsUpdateOfDefaults()
    ensures Init2x2() == UpdateMatrix(KA, KB, KP, KM)
  {
  }

  /** The Update handler: build the matrix from the entered values and hand it to the manager. */
  method OnUpdate(manager: ParamManager, a: real, b: real, p: real, m: real)
    modifies manager
    ensures manager.params == UpdateMatrix(a, b, p, m)
    ensures manager.changedCount == old(manager.changedCount) + 1
  {
    var newParams := [[a, p + m], [p - m, b]];
    manager.SetParams(newParams);
  }
}
