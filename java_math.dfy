/**
 * The parts of Java's arithmetic and of java.lang.Math that the swarm uses,
 * stated over the reals and the unbounded integers.
 */
module JavaMath {

  datatype Option<T> = None | Some(value: T)

  /**
   * The two library calls of the simulation, kept uninterpreted:
   * `sqrt` stands for Math.sqrt and `powNeg08` for d => Math.pow(d, -0.8).
   */
  datatype MathLib = MathLib(sqrt: real -> real, powNeg08: real -> real)

  /** The only facts about Math.sqrt the model relies on. */
  ghost predicate IsSqrt(sqrt: real -> real) {
    && sqrt(0.0) == 0.0
    && (forall x :: 0.0 <= x ==> 0.0 <= sqrt(x))
    && (forall x, y :: 0.0 <= x <= y ==> sqrt(x) <= sqrt(y))
  }

  /** Math.abs on a double. */
  function Abs(x: real): (r: real)
    ensures 0.0 <= r && (r == x || r == -x)
  {
    if x < 0.0 then -x else x
  }

  function IntAbs(n: int): (r: nat)
    ensures r == n || r == -n
  {
    if n < 0 then -n else n
  }

  /**
   * Java's `/` on int, which rounds toward zero (section 15.17.2 of the Java
   * Language Specification): the remainder is smaller than the divisor in
   * magnitude and is zero or has the sign of the dividend.
   */
  function JavaDiv(a: int, b: int): (q: int)
    requires b != 0
    ensures 0 <= a && 0 < b ==> q == a / b
    ensures IntAbs(a - q * b) < IntAbs(b)
    ensures a - q * b == 0 || (a - q * b < 0 <==> a < 0)
  {
    var n, d := IntAbs(a), IntAbs(b);
    var m := n / d;
    var q := if (a < 0) == (b < 0) then m else -m;
    assert n == m * d + n % d;
    assert q * b == if a < 0 then -(m * d) else m * d by {
      if b < 0 { assert q * b == (-q) * d; }
    }
    assert a - q * b == if a < 0 then -(n % d) else n % d;
    q
  }
}
