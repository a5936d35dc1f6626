/**
 * The order-parameter diagnostics of ParameterKabpm.java: the centre of
 * gravity of the swarm, X (the reciprocal of the mean distance to it) and V
 * (the mean distance of supplied per-particle velocities to the velocity of
 * the centre). Each divides by pNum, the configured particle count; where
 * Java divides by zero and yields NaN or Infinity, the model yields None.
 */
module OrderParams {
  import opened JavaMath
  import opened Geometry

  /** The positions of the particles, in list order. */
  function Positions(ps: seq<Particle>): (r: seq<Vec2>)
    ensures |r| == |ps|
    ensures forall i :: 0 <= i < |ps| ==> r[i] == Vec2(ps[i].x, ps[i].y)
  {
    seq(|ps|, i requires 0 <= i < |ps| => Vec2(ps[i].x, ps[i].y))
  }

  /** Coordinate-wise sum, accumulated from the front as the loops do. */
  function Total(vs: seq<Vec2>): (r: Vec2)
    decreases |vs|
  {
    if vs == [] then Vec2(0.0, 0.0)
    else
      var s := Total(vs[..|vs| - 1]);
      Vec2(s.x + vs[|vs| - 1].x, s.y + vs[|vs| - 1].y)
  }

  /** Sum of the distances from each point of vs to c, accumulated from the front. */
  function SumDistances(sqrt: real -> real, vs: seq<Vec2>, c: Vec2): (r: real)
    decreases |vs|
  {
    if vs == [] then 0.0
    else SumDistances(sqrt, vs[..|vs| - 1], c) + Distance(sqrt, vs[|vs| - 1].x, vs[|vs| - 1].y, c.x, c.y)
  }

  /** The centre of gravity: the coordinate sums divided by pNum. */
  function Gravity(ps: seq<Particle>, pNum: nat): (r: Option<Vec2>) {
    if pNum == 0 then None
    else
      var s := Total(Positions(ps));
      Some(Vec2(s.x / pNum as real, s.y / pNum as real))
  }

  /** X: pNum over the summed distance to the centre, None when the sum or pNum is 0. */
  function OrderX(sqrt: real -> real, ps: seq<Particle>, pNum: nat): (r: Option<real>) {
    match Gravity(ps, pNum)
    case None => None
    case Some(rg) =>
      var mean := SumDistances(sqrt, Positions(ps), rg) / pNum as real;
      if mean == 0.0 then None else Some(1.0 / mean)
  }

  /** V: the mean distance of the supplied velocities to the centre's velocity nextG - curG. */
  function OrderV(sqrt: real -> real, timeEvolution: seq<Vec2>, curG: Vec2, nextG: Vec2, pNum: nat): (r: Option<real>) {
    if pNum == 0 then None
    else Some(SumDistances(sqrt, timeEvolution, Vec2(nextG.x - curG.x, nextG.y - curG.y)) / pNum as real)
  }

  /** getGravity: one pass summing both coordinates, then a division by pNum. */
  method GetGravity(particles: seq<Particle>, pNum: nat) returns (g: Option<Vec2>)
    ensures g == Gravity(particles, pNum)
  {
    var sumX, sumY := 0.0, 0.0;
    ghost var pos := Positions(particles);
    for i := 0 to |particles|
      invariant Total(pos[..i]) == Vec2(sumX, sumY)
    {
      assert pos[..i + 1][..i] == pos[..i];
      sumX := sumX + particles[i].x;
      sumY := sumY + particles[i].y;
    }
    assert pos[..|particles|] == pos;
    if pNum == 0 {
      return None;
    }
    g := Some(Vec2(sumX / pNum as real, sumY / pNum as real));
  }

  /** getX: the summed distance to the centre of gravity, inverted after dividing by pNum. */
  method GetX(sqrt: real -> real, particles: seq<Particle>, pNum: nat) returns (x: Option<real>)
    ensures x == OrderX(sqrt, particles, pNum)
  {
    var sum := 0.0;
    var g := GetGravity(particles, pNum);
    if g.None? {
      return None;
    }
    var rg := g.value;
    ghost var pos := Positions(particles);
    for i := 0 to |particles|
      invariant sum == SumDistances(sqrt, pos[..i], rg)
    {
      assert pos[..i + 1][..i] == pos[..i];
      var ri := particles[i];
      sum := sum + Distance(sqrt, ri.x, ri.y, rg.x, rg.y);
    }
    assert pos[..|particles|] == pos;
    var mean := sum / pNum as real;
    if mean == 0.0 {
      return None;
    }
    x := Some(1.0 / mean);
  }

  /** getV: the summed distance of each supplied velocity to nextG - curG, divided by pNum. */
  method GetV(sqrt: real -> real, timeEvolution: seq<Vec2>, curG: Vec2, nextG: Vec2, pNum: nat) returns (v: Option<real>)
    ensures v == OrderV(sqrt, timeEvolution, curG, nextG, pNum)
  {
    var dotrg := Vec2(nextG.x - curG.x, nextG.y - curG.y);
    var sum := 0.0;
    for i := 0 to |timeEvolution|
      invariant sum == SumDistances(sqrt, timeEvolution[..i], dotrg)
    {
      assert timeEvolution[..i + 1][..i] == timeEvolution[..i];
      var dotri := timeEvolution[i];
      sum := sum + Distance(sqrt, dotri.x, dotri.y, dotrg.x, dotrg.y);
    }
    assert timeEvolution[..|timeEvolution|] == timeEvolution;
    if pNum == 0 {
      return None;
    }
    v := Some(sum / pNum as real);
  }

  // ---------------------------------------------------------------------
  // Properties of the diagnostics
  // ---------------------------------------------------------------------

  /** Every particle moved by (tx, ty). */
  function Translate(ps: seq<Particle>, tx: real, ty: real): (r: seq<Particle>)
    ensures |r| == |ps|
    ensures forall i :: 0 <= i < |ps| ==> r[i] == Particle(ps[i].id, ps[i].x + tx, ps[i].y + ty)
  {
    seq(|ps|, i requires 0 <= i < |ps| => Particle(ps[i].id, ps[i].x + tx, ps[i].y + ty))
  }

  /** Moving every point by t moves the sum by |vs| times t. */
  lemma {:induction false} TotalTranslate(vs: seq<Vec2>, ws: seq<Vec2>, tx: real, ty: real)
    requires |ws| == |vs|
    requires forall i :: 0 <= i < |vs| ==> ws[i] == Vec2(vs[i].x + tx, vs[i].y + ty)
    ensures Total(ws) == Vec2(Total(vs).x + |vs| as real * tx, Total(vs).y + |vs| as real * ty)
    decreases |vs|
  {
    if vs != [] {
      var n := |vs| - 1;
      TotalTranslate(vs[..n], ws[..n], tx, ty);
    }
  }

  /** A list of n copies of one point sums to n times that point. */
  lemma {:induction false} TotalConstant(vs: seq<Vec2>, c: Vec2)
    requires forall i :: 0 <= i < |vs| ==> vs[i] == c
    ensures Total(vs) == Vec2(|vs| as real * c.x, |vs| as real * c.y)
    decreases |vs|
  {
    if vs != [] {
      TotalConstant(vs[..|vs| - 1], c);
    }
  }

  /** When the list holds pNum particles, the gravity is the coordinate-wise mean of the positions. */
  lemma GravityIsMean(ps: seq<Particle>, pNum: nat)
    requires |ps| == pNum
    ensures Gravity(ps, pNum).Some? <==> 0 < |ps|
    ensures Gravity(ps, pNum).Some? ==>
      Gravity(ps, pNum).value == Vec2(Total(Positions(ps)).x / |ps| as real, Total(Positions(ps)).y / |ps| as real)
  {
  }

  /** Dividing n * t more by n adds t. */
  lemma DivShift(s: real, n: real, t: real)
    requires 0.0 < n
    ensures (s + n * t) / n == s / n + t
  {
  }

  /** Translating every particle by (tx, ty) translates the centre of gravity by (tx, ty). */
  lemma GravityTranslate(ps: seq<Particle>, pNum: nat, tx: real, ty: real)
    requires |ps| == pNum && 0 < pNum
    ensures Gravity(Translate(ps, tx, ty), pNum).Some? && Gravity(ps, pNum).Some?
    ensures var g, h := Gravity(ps, pNum).value, Gravity(Translate(ps, tx, ty), pNum).value;
      h == Vec2(g.x + tx, g.y + ty)
  {
    var n := pNum as real;
    var s := Total(Positions(ps));
    var t := Total(Positions(Translate(ps, tx, ty)));
    TotalTranslate(Positions(ps), Positions(Translate(ps, tx, ty)), tx, ty);
    assert t == Vec2(s.x + n * tx, s.y + n * ty);
    DivShift(s.x, n, tx);
    DivShift(s.y, n, ty);
  }

  /** When every particle sits at (px, py), so does the centre of gravity. */
  lemma GravityOfCluster(ps: seq<Particle>, pNum: nat, px: real, py: real)
    requires |ps| == pNum && 0 < pNum
    requires forall i :: 0 <= i < |ps| ==> ps[i].x == px && ps[i].y == py
    ensures Gravity(ps, pNum) == Some(Vec2(px, py))
  {
    var n := pNum as real;
    TotalConstant(Positions(ps), Vec2(px, py));
    assert Total(Positions(ps)) == Vec2(n * px, n * py);
    DivShift(0.0, n, px);
    DivShift(0.0, n, py);
  }

  /** Summed distances are non-negative. */
  lemma {:induction false} SumDistancesNonNegative(sqrt: real -> real, vs: seq<Vec2>, c: Vec2)
    requires IsSqrt(sqrt)
    ensures 0.0 <= SumDistances(sqrt, vs, c)
    decreases |vs|
  {
    if vs != [] {
      SumDistancesNonNegative(sqrt, vs[..|vs| - 1], c);
    }
  }

  /** Summed distances vanish when every point is c. */
  lemma {:induction false} SumDistancesAtCentre(sqrt: real -> real, vs: seq<Vec2>, c: Vec2)
    requires IsSqrt(sqrt)
    requires forall i :: 0 <= i < |vs| ==> vs[i] == c
    ensures SumDistances(sqrt, vs, c) == 0.0
    decreases |vs|
  {
    if vs != [] {
      SumDistancesAtCentre(sqrt, vs[..|vs| - 1], c);
    }
  }

  /**
   * X is pNum divided by the summed distance to the centre of gravity, that is
   * the reciprocal of the mean distance, and is defined exactly when pNum and
   * that sum are non-zero; it is then positive.
   */
  lemma OrderXIsReciprocalMean(sqrt: real -> real, ps: seq<Particle>, pNum: nat)
    requires IsSqrt(sqrt)
    ensures OrderX(sqrt, ps, pNum).Some? <==>
      0 < pNum && SumDistances(sqrt, Positions(ps), Gravity(ps, pNum).value) != 0.0
    ensures OrderX(sqrt, ps, pNum).Some? ==>
      var sum := SumDistances(sqrt, Positions(ps), Gravity(ps, pNum).value);
      OrderX(sqrt, ps, pNum).value == pNum as real / sum && 0.0 < OrderX(sqrt, ps, pNum).value
  {
    if 0 < pNum {
      var n := pNum as real;
      var sum := SumDistances(sqrt, Positions(ps), Gravity(ps, pNum).value);
      SumDistancesNonNegative(sqrt, Positions(ps), Gravity(ps, pNum).value);
      if sum != 0.0 {
        assert sum / n != 0.0;
        assert 1.0 / (sum / n) == n / sum;
      }
    }
  }

  /** A swarm collapsed onto one point has no finite X: Java's getX returns Infinity there. */
  lemma OrderXOfCluster(sqrt: real -> real, ps: seq<Particle>, pNum: nat, px: real, py: real)
    requires IsSqrt(sqrt)
    requires |ps| == pNum && 0 < pNum
    requires forall i :: 0 <= i < |ps| ==> ps[i].x == px && ps[i].y == py
    ensures OrderX(sqrt, ps, pNum) == None
  {
    GravityOfCluster(ps, pNum, px, py);
    SumDistancesAtCentre(sqrt, Positions(ps), Vec2(px, py));
  }

  /** V is never negative. */
  lemma OrderVNonNegative(sqrt: real -> real, timeEvolution: seq<Vec2>, curG: Vec2, nextG: Vec2, pNum: nat)
    requires IsSqrt(sqrt)
    ensures OrderV(sqrt, timeEvolution, curG, nextG, pNum).Some? <==> 0 < pNum
    ensures OrderV(sqrt, timeEvolution, curG, nextG, pNum).Some? ==> 0.0 <= OrderV(sqrt, timeEvolution, curG, nextG, pNum).value
  {
    SumDistancesNonNegative(sqrt, timeEvolution, Vec2(nextG.x - curG.x, nextG.y - curG.y));
  }

  /** V is 0 when every supplied velocity equals the velocity of the centre of gravity. */
  lemma OrderVAtRest(sqrt: real -> real, timeEvolution: seq<Vec2>, curG: Vec2, nextG: Vec2, pNum: nat)
    requires IsSqrt(sqrt) && 0 < pNum
    requires forall i :: 0 <= i < |timeEvolution| ==> timeEvolution[i] == Vec2(nextG.x - curG.x, nextG.y - curG.y)
    ensures OrderV(sqrt, timeEvolution, curG, nextG, pNum) == Some(0.0)
  {
    SumDistancesAtCentre(sqrt, timeEvolution, Vec2(nextG.x - curG.x, nextG.y - curG.y));
  }
}
