/**
 * Minimum-image geometry on the square torus of side L used by Swarm.java.
 * Stored coordinates are never wrapped; the torus only shows up when a
 * difference or a distance is measured against the shifted images of the
 * second particle.
 */
module Geometry {
  import opened JavaMath

  /** A particle: a stable id (1 to N) and an unwrapped position. */
  datatype Particle = Particle(id: int, x: real, y: real)

  /** Pair<Double>: a point or a displacement. */
  datatype Vec2 = Vec2(x: real, y: real)

  /** The side of the torus: the field l of Swarm, fixed at 10 and never reassigned. */
  const L: int := 10

  /** The image offsets tried along one axis, in the order Swarm.java scans them. */
  const Shifts: seq<int> := [-1, 0, 1]

  /** The nine offsets of the 3x3 image grid, in the order of the nested loops. */
  const Images: seq<(int, int)> :=
    [(-1, -1), (-1, 0), (-1, 1), (0, -1), (0, 0), (0, 1), (1, -1), (1, 0), (1, 1)]

  lemma ImagesAt(i: int, j: int)
    requires 0 <= i < 3 && 0 <= j < 3
    ensures 3 * i + j < |Images| && Images[3 * i + j] == (Shifts[i], Shifts[j])
  {
  }

  /** Plain difference along x: moving pi by it reaches pj. */
  function DiffX(pi: Particle, pj: Particle): (r: real)
    ensures pi.x + r == pj.x
  {
    pj.x - pi.x
  }

  /** Plain difference along y: moving pi by it reaches pj. */
  function DiffY(pi: Particle, pj: Particle): (r: real)
    ensures pi.y + r == pj.y
  {
    pj.y - pi.y
  }

  /** Length of the displacement (u, v), through the stand-in for Math.sqrt. */
  function Norm(sqrt: real -> real, u: real, v: real): (r: real)
    ensures IsSqrt(sqrt) ==> 0.0 <= r
    ensures IsSqrt(sqrt) && u == 0.0 && v == 0.0 ==> r == 0.0
  {
    SquaresNonNegative(u, v);
    sqrt(u * u + v * v)
  }

  lemma SquaresNonNegative(u: real, v: real)
    ensures 0.0 <= u * u + v * v
  {
  }

  /** Reversing a displacement keeps its length. */
  lemma NormNegate(sqrt: real -> real, u: real, v: real)
    ensures Norm(sqrt, -u, -v) == Norm(sqrt, u, v)
  {
    assert (-u) * (-u) == u * u && (-v) * (-v) == v * v;
  }

  /** distance(x1, y1, x2, y2): the length of the difference of the two points. */
  function Distance(sqrt: real -> real, x1: real, y1: real, x2: real, y2: real): (r: real)
    ensures IsSqrt(sqrt) ==> 0.0 <= r
    ensures IsSqrt(sqrt) && x1 == x2 && y1 == y2 ==> r == 0.0
  {
    Norm(sqrt, x2 - x1, y2 - y1)
  }

  /** Distance of two particles: the point distance of their coordinates. */
  function ParticleDistance(sqrt: real -> real, pi: Particle, pj: Particle): (r: real)
    ensures IsSqrt(sqrt) ==> 0.0 <= r
    ensures IsSqrt(sqrt) && pi.x == pj.x && pi.y == pj.y ==> r == 0.0
  {
    Distance(sqrt, pi.x, pi.y, pj.x, pj.y)
  }

  /** The distance does not depend on the order of its two points. */
  lemma DistanceSymmetric(sqrt: real -> real, x1: real, y1: real, x2: real, y2: real)
    ensures Distance(sqrt, x1, y1, x2, y2) == Distance(sqrt, x2, y2, x1, y1)
  {
    NormNegate(sqrt, x2 - x1, y2 - y1);
  }

  // ---------------------------------------------------------------------
  // Per-axis minimum image: diffXClosest and diffYClosest
  // ---------------------------------------------------------------------

  /** The difference from `from` to the image of `to` shifted by d * L. */
  function ShiftedDiff(from: real, to: real, d: int): (r: real) {
    to + (L * d) as real - from
  }

  /**
   * The scan of Swarm.java: walk the offsets `ds` and replace the best
   * difference so far only by a candidate of strictly smaller magnitude.
   */
  function ScanAxis(from: real, to: real, ds: seq<int>, best: real): (r: real)
    decreases |ds|
  {
    if ds == [] then best
    else
      var c := ShiftedDiff(from, to, ds[0]);
      ScanAxis(from, to, ds[1..], if Abs(c) < Abs(best) then c else best)
  }

  /** The minimum-image difference: the scan over Shifts, starting from the unshifted difference. */
  function ClosestDiff(from: real, to: real): (r: real) {
    ScanAxis(from, to, Shifts, to - from)
  }

  /**
   * The closest difference is the shorter of the three shifted differences;
   * on a tie the unshifted one wins, and between the shift by -L and the
   * shift by +L the first wins.
   */
  lemma ClosestDiffChoice(from: real, to: real)
    ensures var r := ClosestDiff(from, to);
      var below, here, above := ShiftedDiff(from, to, -1), ShiftedDiff(from, to, 0), ShiftedDiff(from, to, 1);
      && Abs(r) <= Abs(below) && Abs(r) <= Abs(here) && Abs(r) <= Abs(above)
      && r == (if Abs(here) <= Abs(below) && Abs(here) <= Abs(above) then here
               else if Abs(below) <= Abs(above) then below
               else above)
  {
    var below, here, above := ShiftedDiff(from, to, -1), ShiftedDiff(from, to, 0), ShiftedDiff(from, to, 1);
    assert here == to - from;
    var b1 := if Abs(below) < Abs(here) then below else here;
    var b2 := if Abs(here) < Abs(b1) then here else b1;
    var b3 := if Abs(above) < Abs(b2) then above else b2;
    assert Shifts[1..] == [0, 1] && Shifts[2..] == [1] && Shifts[3..] == [];
    calc {
      ClosestDiff(from, to);
      ScanAxis(from, to, [0, 1], b1);
      ScanAxis(from, to, [1], b2);
      { assert [1][1..] == []; }
      ScanAxis(from, to, [], b3);
    }
  }

  /** diffXClosest: the scan over the three x-images of pj. */
  method DiffXClosest(pi: Particle, pj: Particle) returns (diffX: real)
    ensures diffX == ClosestDiff(pi.x, pj.x)
  {
    var d := Shifts;
    diffX := DiffX(pi, pj);
    for i := 0 to 3
      invariant ScanAxis(pi.x, pj.x, d[i..], diffX) == ClosestDiff(pi.x, pj.x)
    {
      var tmp := pj.x + (L * d[i]) as real - pi.x;
      if Abs(tmp) < Abs(diffX) {
        diffX := tmp;
      }
    }
  }

  /** diffYClosest: the scan over the three y-images of pj. */
  method DiffYClosest(pi: Particle, pj: Particle) returns (diffY: real)
    ensures diffY == ClosestDiff(pi.y, pj.y)
  {
    var d := Shifts;
    diffY := DiffY(pi, pj);
    for i := 0 to 3
      invariant ScanAxis(pi.y, pj.y, d[i..], diffY) == ClosestDiff(pi.y, pj.y)
    {
      var tmp := pj.y + (L * d[i]) as real - pi.y;
      if Abs(tmp) < Abs(diffY) {
        diffY := tmp;
      }
    }
  }

  // ---------------------------------------------------------------------
  // Minimum-image distance: distanceClosest
  // ---------------------------------------------------------------------

  /** Distance from pi to the image of pj shifted by (d.0 * L, d.1 * L). */
  function ImageDistance(sqrt: real -> real, pi: Particle, pj: Particle, d: (int, int)): (r: real) {
    Distance(sqrt, pi.x, pi.y, (L * d.0) as real + pj.x, (L * d.1) as real + pj.y)
  }

  /**
   * The scan of Swarm.java from position n of Images on: keep an image
   * distance only when it is strictly smaller than the best so far.
   */
  function ScanImages(sqrt: real -> real, pi: Particle, pj: Particle, n: nat, best: real): (r: real)
    requires n <= |Images|
    decreases |Images| - n
  {
    if n == |Images| then best
    else
      var t := ImageDistance(sqrt, pi, pj, Images[n]);
      ScanImages(sqrt, pi, pj, n + 1, if t < best then t else best)
  }

  /** The minimum-image distance: the scan over Images, starting from the plain distance. */
  function ClosestDistance(sqrt: real -> real, pi: Particle, pj: Particle): (r: real) {
    ScanImages(sqrt, pi, pj, 0, ParticleDistance(sqrt, pi, pj))
  }

  /** The image visited at step (i, j) of the nested loops, and the scan step it makes. */
  lemma VisitImage(sqrt: real -> real, pi: Particle, pj: Particle, i: int, j: int, best: real)
    requires 0 <= i < 3 && 0 <= j < 3
    ensures var t := Distance(sqrt, pi.x, pi.y, (L * Shifts[i]) as real + pj.x, (L * Shifts[j]) as real + pj.y);
      ScanImages(sqrt, pi, pj, 3 * i + j, best) == ScanImages(sqrt, pi, pj, 3 * i + j + 1, if t < best then t else best)
  {
    ImagesAt(i, j);
  }

  /** distanceClosest: two nested loops over the 3x3 image grid. */
  method DistanceClosest(sqrt: real -> real, pi: Particle, pj: Particle) returns (closest: real)
    ensures closest == ClosestDistance(sqrt, pi, pj)
  {
    ghost var target := ClosestDistance(sqrt, pi, pj);
    var d := Shifts;
    closest := ParticleDistance(sqrt, pi, pj);
    for i := 0 to 3
      invariant ScanImages(sqrt, pi, pj, 3 * i, closest) == target
    {
      for j := 0 to 3
        invariant ScanImages(sqrt, pi, pj, 3 * i + j, closest) == target
      {
        var tmp := Distance(sqrt, pi.x, pi.y, (L * d[i]) as real + pj.x, (L * d[j]) as real + pj.y);
        VisitImage(sqrt, pi, pj, i, j, closest);
        if tmp < closest {
          closest := tmp;
        }
      }
    }
  }

  /** What the image scan returns: a lower bound of its start and of every later image, attained by one of them. */
  lemma {:induction false} ScanImagesMin(sqrt: real -> real, pi: Particle, pj: Particle, n: nat, best: real)
    requires n <= |Images|
    ensures var r := ScanImages(sqrt, pi, pj, n, best);
      && r <= best
      && (forall k :: n <= k < |Images| ==> r <= ImageDistance(sqrt, pi, pj, Images[k]))
      && (r == best || exists k :: n <= k < |Images| && r == ImageDistance(sqrt, pi, pj, Images[k]))
    decreases |Images| - n
  {
    if n < |Images| {
      var t := ImageDistance(sqrt, pi, pj, Images[n]);
      ScanImagesMin(sqrt, pi, pj, n + 1, if t < best then t else best);
    }
  }

  /** The plain distance is the distance to the unshifted image. */
  lemma PlainIsCentreImage(sqrt: real -> real, pi: Particle, pj: Particle)
    ensures ParticleDistance(sqrt, pi, pj) == ImageDistance(sqrt, pi, pj, Images[4])
  {
  }

  /**
   * distanceClosest is the smallest of the nine image distances: no greater
   * than any of them nor than the plain distance, and equal to the one at
   * position k of Images.
   */
  lemma ClosestDistanceIsMin(sqrt: real -> real, pi: Particle, pj: Particle) returns (k: nat)
    ensures var r := ClosestDistance(sqrt, pi, pj);
      && r <= ParticleDistance(sqrt, pi, pj)
      && (forall n :: 0 <= n < |Images| ==> r <= ImageDistance(sqrt, pi, pj, Images[n]))
      && k < |Images| && r == ImageDistance(sqrt, pi, pj, Images[k])
  {
    var r, best := ClosestDistance(sqrt, pi, pj), ParticleDistance(sqrt, pi, pj);
    ScanImagesMin(sqrt, pi, pj, 0, best);
    if r == best {
      k := 4;
      PlainIsCentreImage(sqrt, pi, pj);
    } else {
      k :| 0 <= k < |Images| && r == ImageDistance(sqrt, pi, pj, Images[k]);
    }
  }

  /** A particle is at minimum-image distance 0 from itself, which is why the step skips self-pairs. */
  lemma ClosestDistanceToSelf(sqrt: real -> real, p: Particle)
    requires IsSqrt(sqrt)
    ensures ClosestDistance(sqrt, p, p) == 0.0
  {
    var _ := ClosestDistanceIsMin(sqrt, p, p);
  }

  /** The minimum-image distance is non-negative. */
  lemma ClosestDistanceNonNegative(sqrt: real -> real, pi: Particle, pj: Particle)
    requires IsSqrt(sqrt)
    ensures 0.0 <= ClosestDistance(sqrt, pi, pj)
  {
    var _ := ClosestDistanceIsMin(sqrt, pi, pj);
  }

  /** Shifting pj by (a, b) images as seen from pi is shifting pi by (-a, -b) as seen from pj. */
  lemma ImageDistanceSwap(sqrt: real -> real, pi: Particle, pj: Particle, k: int)
    requires 0 <= k < |Images|
    ensures ImageDistance(sqrt, pi, pj, Images[k]) == ImageDistance(sqrt, pj, pi, Images[8 - k])
  {
    var (a, b) := Images[k];
    assert Images[8 - k] == (-a, -b);
    var u := (L * a) as real + pj.x - pi.x;
    var v := (L * b) as real + pj.y - pi.y;
    assert (L * -a) as real + pi.x - pj.x == -u;
    assert (L * -b) as real + pi.y - pj.y == -v;
    NormNegate(sqrt, u, v);
  }

  /** The minimum-image distance is symmetric in its two particles. */
  lemma ClosestDistanceSymmetric(sqrt: real -> real, pi: Particle, pj: Particle)
    ensures ClosestDistance(sqrt, pi, pj) == ClosestDistance(sqrt, pj, pi)
  {
    var k1 := ClosestDistanceIsMin(sqrt, pi, pj);
    var k2 := ClosestDistanceIsMin(sqrt, pj, pi);
    ImageDistanceSwap(sqrt, pi, pj, k1);
    ImageDistanceSwap(sqrt, pi, pj, 8 - k2);
  }

  lemma ScaleMonotone(c: real, x: real, y: real)
    requires 0.0 <= c && x <= y
    ensures c * x <= c * y
  {
    assert c * y - c * x == c * (y - x);
  }

  lemma SquareNonNegMonotone(a: real, b: real)
    requires 0.0 <= a <= b
    ensures a * a <= b * b
  {
    ScaleMonotone(a, a, b);
    ScaleMonotone(b, a, b);
  }

  lemma SquareOfAbs(u: real)
    ensures u * u == Abs(u) * Abs(u)
  {
    if u < 0.0 {
      assert Abs(u) * Abs(u) == (-u) * (-u);
    }
  }

  lemma SquareMonotone(u: real, v: real)
    requires Abs(u) <= Abs(v)
    ensures u * u <= v * v
  {
    SquareOfAbs(u);
    SquareOfAbs(v);
    SquareNonNegMonotone(Abs(u), Abs(v));
  }

  /** The distance to image k, written with the two shifted axis differences. */
  lemma ImageDistanceAsNorm(sqrt: real -> real, pi: Particle, pj: Particle, k: nat)
    requires k < |Images|
    ensures ImageDistance(sqrt, pi, pj, Images[k])
         == Norm(sqrt, ShiftedDiff(pi.x, pj.x, Images[k].0), ShiftedDiff(pi.y, pj.y, Images[k].1))
  {
  }

  /** A longer displacement, axis by axis, has the larger length. */
  lemma NormMonotone(sqrt: real -> real, u1: real, v1: real, u2: real, v2: real)
    requires IsSqrt(sqrt)
    requires Abs(u1) <= Abs(u2) && Abs(v1) <= Abs(v2)
    ensures Norm(sqrt, u1, v1) <= Norm(sqrt, u2, v2)
  {
    SquareMonotone(u1, u2);
    SquareMonotone(v1, v2);
    SquaresNonNegative(u1, v1);
  }

  /** The closest axis difference is no longer than any of the three shifted ones. */
  lemma ClosestDiffBelow(from: real, to: real, d: int)
    requires d in Shifts
    ensures Abs(ClosestDiff(from, to)) <= Abs(ShiftedDiff(from, to, d))
  {
    ClosestDiffChoice(from, to);
  }

  /** No image is closer than the point built from the two closest axis differences. */
  lemma AxisNormBelowImage(sqrt: real -> real, pi: Particle, pj: Particle, k: nat)
    requires IsSqrt(sqrt) && k < |Images|
    ensures Norm(sqrt, ClosestDiff(pi.x, pj.x), ClosestDiff(pi.y, pj.y)) <= ImageDistance(sqrt, pi, pj, Images[k])
  {
    var (a, b) := Images[k];
    assert a in Shifts && b in Shifts;
    ClosestDiffBelow(pi.x, pj.x, a);
    ClosestDiffBelow(pi.y, pj.y, b);
    NormMonotone(sqrt, ClosestDiff(pi.x, pj.x), ClosestDiff(pi.y, pj.y),
      ShiftedDiff(pi.x, pj.x, a), ShiftedDiff(pi.y, pj.y, b));
    ImageDistanceAsNorm(sqrt, pi, pj, k);
  }

  /** The point built from the two closest axis differences is itself one of the nine images. */
  lemma AxisNormIsImage(sqrt: real -> real, pi: Particle, pj: Particle) returns (k: nat)
    ensures k < |Images|
    ensures Norm(sqrt, ClosestDiff(pi.x, pj.x), ClosestDiff(pi.y, pj.y)) == ImageDistance(sqrt, pi, pj, Images[k])
  {
    var cx, cy := ClosestDiff(pi.x, pj.x), ClosestDiff(pi.y, pj.y);
    ClosestDiffChoice(pi.x, pj.x);
    ClosestDiffChoice(pi.y, pj.y);
    var ia :| 0 <= ia < 3 && cx == ShiftedDiff(pi.x, pj.x, Shifts[ia]);
    var ib :| 0 <= ib < 3 && cy == ShiftedDiff(pi.y, pj.y, Shifts[ib]);
    ImagesAt(ia, ib);
    k := 3 * ia + ib;
    ImageDistanceAsNorm(sqrt, pi, pj, k);
  }

  /**
   * Over the reals, the jointly minimised distance equals the length of the
   * two independently minimised axis differences.
   */
  lemma ClosestDistanceMatchesAxes(sqrt: real -> real, pi: Particle, pj: Particle)
    requires IsSqrt(sqrt)
    ensures ClosestDistance(sqrt, pi, pj) == Norm(sqrt, ClosestDiff(pi.x, pj.x), ClosestDiff(pi.y, pj.y))
  {
    var k1 := ClosestDistanceIsMin(sqrt, pi, pj);
    var k2 := AxisNormIsImage(sqrt, pi, pj);
    AxisNormBelowImage(sqrt, pi, pj, k1);
  }
}
