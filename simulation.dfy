/**
 * One simulation tick of the swarm (Swarm.run): every particle sums the pair
 * forces of all other particles at their nearest periodic images, the sums go
 * through the Runge-Kutta increment, the new positions are buffered, and only
 * then are all particles moved at once. The tick then refreshes the
 * coefficient matrix from the parameter manager and advances the step counter.
 *
 * A coefficient lookup outside the matrix (or with pPartition == 0) throws in
 * Java before anything is committed; the model reports it as `ok == false`
 * with the state unchanged. Every 5000th step printSwarmParam reads the 3x3
 * corner of the matrix, and throws after the tick has changed the state when
 * the matrix is smaller; the model reports that as `reportThrows`.
 */
module Simulation {
  import opened JavaMath
  import opened Geometry
  import opened Integrator
  import opened TypePartition
  import opened Parameters

  /** Everything a tick reads besides the particles. */
  datatype World = World(math: MathLib, dt: real, params: Matrix, pPartition: int)

  /**
   * No two distinct particles have a coincident nearest image. Java divides by
   * that distance; at zero it produces NaN or Infinity, which the reals lack.
   */
  predicate Separated(sqrt: real -> real, ps: seq<Particle>) {
    forall i, j :: 0 <= i < |ps| && 0 <= j < |ps| && i != j ==> ClosestDistance(sqrt, ps[i], ps[j]) != 0.0
  }

  /** Every pair of distinct particles finds its coefficient: the tick does not throw. */
  predicate Defined(w: World, ps: seq<Particle>) {
    forall i, j :: 0 <= i < |ps| && 0 <= j < |ps| && i != j ==> GetKParam(w.params, w.pPartition, ps[i].id, ps[j].id).Some?
  }

  /** The pair force law: the offset (dx, dy) over dis, scaled by k * dis^-0.8 - 1/dis. */
  function Push(math: MathLib, k: real, dis: real, dx: real, dy: real): (f: Vec2)
    requires dis != 0.0
    ensures dx == 0.0 && dy == 0.0 ==> f == Vec2(0.0, 0.0)
  {
    var kernel := k * math.powNeg08(dis) - 1.0 / dis;
    Vec2(dx / dis * kernel, dy / dis * kernel)
  }

  /** The force of pj on pi at the nearest image; None when the coefficient lookup throws. */
  function PairForce(w: World, pi: Particle, pj: Particle): (r: Option<Vec2>)
    requires ClosestDistance(w.math.sqrt, pi, pj) != 0.0
    ensures r.Some? <==> GetKParam(w.params, w.pPartition, pi.id, pj.id).Some?
  {
    match GetKParam(w.params, w.pPartition, pi.id, pj.id)
    case None => None
    case Some(k) =>
      Some(Push(w.math, k, ClosestDistance(w.math.sqrt, pi, pj), ClosestDiff(pi.x, pj.x), ClosestDiff(pi.y, pj.y)))
  }

  /** The force of every particle on ps[i]; the entry at i itself is None and never read. */
  function Forces(w: World, ps: seq<Particle>, i: nat): (fs: seq<Option<Vec2>>)
    requires i < |ps|
    requires Separated(w.math.sqrt, ps)
    ensures |fs| == |ps|
  {
    seq(|ps|, j requires 0 <= j < |ps| => if j == i then None else PairForce(w, ps[i], ps[j]))
  }

  /**
   * fs lists, entry by entry, the forces on ps[i]. The quantifier fires only
   * where a proof names the pair force, which keeps the force law folded
   * everywhere else.
   */
  predicate IsForceTable(w: World, ps: seq<Particle>, i: nat, fs: seq<Option<Vec2>>)
    requires i < |ps|
    requires Separated(w.math.sqrt, ps)
  {
    && |fs| == |ps|
    && fs[i] == None
    && forall j {:trigger PairForce(w, ps[i], ps[j])} :: 0 <= j < |ps| && j != i ==> fs[j] == PairForce(w, ps[i], ps[j])
  }

  /** Forces is such a table, and the only one. */
  lemma ForcesIsTable(w: World, ps: seq<Particle>, i: nat, fs: seq<Option<Vec2>>)
    requires i < |ps|
    requires Separated(w.math.sqrt, ps)
    ensures IsForceTable(w, ps, i, fs) <==> fs == Forces(w, ps, i)
  {
    var gs := Forces(w, ps, i);
    forall j | 0 <= j < |ps| && j != i
      ensures gs[j] == PairForce(w, ps[i], ps[j])
    {
    }
    if IsForceTable(w, ps, i, fs) {
      forall j | 0 <= j < |ps|
        ensures fs[j] == gs[j]
      {
        if j != i {
          assert fs[j] == PairForce(w, ps[i], ps[j]);
        }
      }
    }
  }

  /** A table of the forces on ps[i], named without unfolding the force law. */
  lemma ForceTable(w: World, ps: seq<Particle>, i: nat) returns (fs: seq<Option<Vec2>>)
    requires i < |ps|
    requires Separated(w.math.sqrt, ps)
    ensures IsForceTable(w, ps, i, fs)
  {
    fs := Forces(w, ps, i);
    ForcesIsTable(w, ps, i, fs);
  }

  /** The sum of fs[0..n) skipping index i, from the front; None as soon as one term is None. */
  function SumSkipping(fs: seq<Option<Vec2>>, i: nat, n: nat): (r: Option<Vec2>)
    requires n <= |fs|
    decreases n
  {
    if n == 0 then Some(Vec2(0.0, 0.0))
    else
      match SumSkipping(fs, i, n - 1)
      case None => None
      case Some(s) =>
        if n - 1 == i then Some(s)
        else
          match fs[n - 1]
          case None => None
          case Some(f) => Some(Vec2(s.x + f.x, s.y + f.y))
  }

  /** The sum is defined exactly when every term before n other than i is. */
  lemma {:induction false} SumSkippingDefinedIff(fs: seq<Option<Vec2>>, i: nat, n: nat)
    requires n <= |fs|
    ensures SumSkipping(fs, i, n).Some? <==> forall j :: 0 <= j < n && j != i ==> fs[j].Some?
    decreases n
  {
    if n > 0 {
      SumSkippingDefinedIff(fs, i, n - 1);
    }
  }

  /** One more term of the sum: skipped at i, added otherwise. */
  lemma SumSkippingStep(fs: seq<Option<Vec2>>, i: nat, j: nat, s: Vec2)
    requires j < |fs| && SumSkipping(fs, i, j) == Some(s)
    ensures j == i ==> SumSkipping(fs, i, j + 1) == Some(s)
    ensures j != i && fs[j].Some? ==> SumSkipping(fs, i, j + 1) == Some(Vec2(s.x + fs[j].value.x, s.y + fs[j].value.y))
    ensures j != i && fs[j].None? ==> SumSkipping(fs, i, j + 1).None?
  {
  }

  /** Once a term is missing the sum stays missing: the first failing lookup decides. */
  lemma {:induction false} SumSkippingStaysNone(fs: seq<Option<Vec2>>, i: nat, m: nat, n: nat)
    requires m <= n <= |fs|
    requires SumSkipping(fs, i, m).None?
    ensures SumSkipping(fs, i, n).None?
    decreases n - m
  {
    if m < n {
      SumSkippingStaysNone(fs, i, m + 1, n);
    }
  }

  /**
   * tmpX and tmpY of run() for the pair (p1, p2): the minimum-image distance
   * and offsets, the coefficient lookup, and the force law.
   */
  method ComputePairForce(w: World, p1: Particle, p2: Particle) returns (r: Option<Vec2>)
    requires ClosestDistance(w.math.sqrt, p1, p2) != 0.0
    ensures r == PairForce(w, p1, p2)
  {
    var dis := DistanceClosest(w.math.sqrt, p1, p2);
    var paramK := GetKParam(w.params, w.pPartition, p1.id, p2.id);
    if paramK.None? {
      return None;
    }
    var dx := DiffXClosest(p1, p2);
    var dy := DiffYClosest(p1, p2);
    r := Some(Push(w.math, paramK.value, dis, dx, dy));
  }

  /** The summed force on ps[i] from every other particle of ps[0..n). */
  function ForceSum(w: World, ps: seq<Particle>, i: nat, n: nat): (r: Option<Vec2>)
    requires i < |ps| && n <= |ps|
    requires Separated(w.math.sqrt, ps)
  {
    SumSkipping(Forces(w, ps, i), i, n)
  }

  /** The force sum is defined exactly when every other particle before n finds its coefficient. */
  lemma ForceSumDefinedIff(w: World, ps: seq<Particle>, i: nat, n: nat)
    requires i < |ps| && n <= |ps|
    requires Separated(w.math.sqrt, ps)
    ensures ForceSum(w, ps, i, n).Some? <==>
      forall j :: 0 <= j < n && j != i ==> GetKParam(w.params, w.pPartition, ps[i].id, ps[j].id).Some?
  {
    var fs := ForceTable(w, ps, i);
    ForcesIsTable(w, ps, i, fs);
    SumSkippingDefinedIff(fs, i, n);
    forall j | 0 <= j < n && j != i
      ensures fs[j].Some? <==> GetKParam(w.params, w.pPartition, ps[i].id, ps[j].id).Some?
    {
      assert fs[j] == PairForce(w, ps[i], ps[j]);
    }
  }

  /** A particle pushed by the Runge-Kutta increment of the force s. */
  function Advance(p: Particle, dt: real, s: Vec2): (q: Particle)
    ensures q.id == p.id
    ensures s == Vec2(0.0, 0.0) ==> q == p
  {
    Particle(p.id, p.x + RungeKutta(dt, s.x), p.y + RungeKutta(dt, s.y))
  }

  /** The tick is defined exactly when every particle's force sum is. */
  lemma DefinedIffForceSums(w: World, ps: seq<Particle>)
    requires Separated(w.math.sqrt, ps)
    ensures Defined(w, ps) <==> forall i :: 0 <= i < |ps| ==> ForceSum(w, ps, i, |ps|).Some?
  {
    forall i | 0 <= i < |ps|
      ensures ForceSum(w, ps, i, |ps|).Some? <==>
        forall j :: 0 <= j < |ps| && j != i ==> GetKParam(w.params, w.pPartition, ps[i].id, ps[j].id).Some?
    {
      ForceSumDefinedIff(w, ps, i, |ps|);
    }
  }

  /** A particle's position after the tick: old position plus the Runge-Kutta increment of its force. */
  function Moved(w: World, ps: seq<Particle>, i: nat): (p: Particle)
    requires i < |ps|
    requires Separated(w.math.sqrt, ps) && Defined(w, ps)
    ensures p.id == ps[i].id
  {
    DefinedIffForceSums(w, ps);
    Advance(ps[i], w.dt, ForceSum(w, ps, i, |ps|).value)
  }

  /** The synchronous tick: every new position is computed from the old positions only. */
  function Step(w: World, ps: seq<Particle>): (r: seq<Particle>)
    requires Separated(w.math.sqrt, ps) && Defined(w, ps)
    ensures |r| == |ps|
    ensures forall i :: 0 <= i < |ps| ==> r[i].id == ps[i].id
  {
    seq(|ps|, i requires 0 <= i < |ps| => Moved(w, ps, i))
  }

  /** The particles with their ids kept and their coordinates taken from the buffers. */
  function Rebuilt(ps: seq<Particle>, newX: seq<real>, newY: seq<real>): (r: seq<Particle>)
    requires |newX| == |newY| == |ps|
    ensures |r| == |ps|
    ensures forall k :: 0 <= k < |ps| ==> r[k] == Particle(ps[k].id, newX[k], newY[k])
  {
    seq(|ps|, k requires 0 <= k < |ps| => Particle(ps[k].id, newX[k], newY[k]))
  }

  /** The slots of ps that `order` names are replaced by the matching entries of next, in that order. */
  function Commit(ps: seq<Particle>, next: seq<Particle>, order: seq<nat>): (r: seq<Particle>)
    requires |next| == |ps|
    requires forall k :: 0 <= k < |order| ==> order[k] < |ps|
    ensures |r| == |ps|
    decreases |order|
  {
    if order == [] then ps
    else
      var i := order[|order| - 1];
      Commit(ps, next, order[..|order| - 1])[i := next[i]]
  }

  /** After committing the indices of order, a slot holds next exactly when order names it. */
  lemma {:induction false} CommitSlots(ps: seq<Particle>, next: seq<Particle>, order: seq<nat>)
    requires |next| == |ps|
    requires forall k :: 0 <= k < |order| ==> order[k] < |ps|
    ensures forall i :: 0 <= i < |ps| ==>
      Commit(ps, next, order)[i] == if i in order then next[i] else ps[i]
    decreases |order|
  {
    if order != [] {
      var front := order[..|order| - 1];
      CommitSlots(ps, next, front);
      forall i | 0 <= i < |ps|
        ensures i in order <==> i in front || i == order[|order| - 1]
      {
        assert order == front + [order[|order| - 1]];
      }
    }
  }

  /** Committing every index, in any order and whatever the new values, yields exactly the new values. */
  lemma CommitCovering(ps: seq<Particle>, next: seq<Particle>, order: seq<nat>)
    requires |next| == |ps|
    requires forall k :: 0 <= k < |order| ==> order[k] < |ps|
    requires forall i :: 0 <= i < |ps| ==> i in order
    ensures Commit(ps, next, order) == next
  {
    CommitSlots(ps, next, order);
  }

  /**
   * Because the candidates are all computed before any particle moves,
   * committing them in any order that covers every index gives the same
   * swarm: the tick is independent of the commit order.
   */
  lemma CommitAnyOrder(w: World, ps: seq<Particle>, order: seq<nat>)
    requires Separated(w.math.sqrt, ps) && Defined(w, ps)
    requires forall k :: 0 <= k < |order| ==> order[k] < |ps|
    requires forall i :: 0 <= i < |ps| ==> i in order
    ensures Commit(ps, Step(w, ps), order) == Step(w, ps)
  {
    CommitCovering(ps, Step(w, ps), order);
  }

  /**
   * The commit loop of run() writes buffers that hold the tick's coordinates
   * (as Swarm.Candidates returns them); what it builds is what committing the
   * tick in any covering order builds.
   */
  lemma RebuiltIsCommit(w: World, ps: seq<Particle>, newX: seq<real>, newY: seq<real>, order: seq<nat>)
    requires Separated(w.math.sqrt, ps) && Defined(w, ps)
    requires |newX| == |newY| == |ps|
    requires forall k :: 0 <= k < |ps| ==> Step(w, ps)[k] == Particle(ps[k].id, newX[k], newY[k])
    requires forall k :: 0 <= k < |order| ==> order[k] < |ps|
    requires forall i :: 0 <= i < |ps| ==> i in order
    ensures Rebuilt(ps, newX, newY) == Commit(ps, Step(w, ps), order)
  {
    CommitAnyOrder(w, ps, order);
  }

  /** A particle never pushes itself: alone in the swarm, it does not move. */
  lemma SingleParticleStays(w: World, p: Particle)
    ensures Separated(w.math.sqrt, [p]) && Defined(w, [p])
    ensures Step(w, [p]) == [p]
  {
    assert SumSkipping(Forces(w, [p], 0), 0, 1) == Some(Vec2(0.0, 0.0));
  }

  /**
   * With n particles numbered 1..n split evenly into t types and a t-by-t
   * coefficient matrix, every lookup succeeds and the tick never throws.
   */
  lemma DefinedOnEvenSplit(w: World, ps: seq<Particle>, t: int)
    requires 0 < t && |ps| % t == 0 && w.pPartition == JavaDiv(|ps|, t)
    requires |w.params| == t && forall r :: 0 <= r < t ==> |w.params[r]| == t
    requires forall i :: 0 <= i < |ps| ==> ps[i].id == i + 1
    ensures Defined(w, ps)
  {
    if |ps| > 0 {
      var q := |ps| / t;
      assert |ps| == t * q && 1 <= q;
      MulMonotone(t, 1, q);
      assert w.pPartition == q;
      forall i, j | 0 <= i < |ps| && 0 <= j < |ps| && i != j
        ensures GetKParam(w.params, w.pPartition, ps[i].id, ps[j].id).Some?
      {
        KParamDefinedOnEvenSplit(w.params, |ps|, t, ps[i].id, ps[j].id);
      }
    }
  }

  /** The matrix has the 3x3 corner that printSwarmParam reads. */
  predicate CoversThreeByThree(k: Matrix) {
    3 <= |k| && forall r :: 0 <= r < 3 ==> 3 <= |k[r]|
  }

  /** The swarm: particle list, step counter and the coefficient matrix it last read. */
  class Swarm {
    const timeStep: real := 0.002
    const pNum: int
    const pType: int
    const pPartition: int
    const math: MathLib
    const paramManager: ParamManager

    var particles: seq<Particle>
    var count: nat
    var params: Matrix

    /** One particle per id 1..pNum, in id order, and pPartition derived from pNum and pType. */
    ghost predicate Valid()
      reads this
    {
      && |particles| == pNum
      && pType != 0
      && pPartition == JavaDiv(pNum, pType)
      && (forall i :: 0 <= i < |particles| ==> particles[i].id == i + 1)
    }

    /** What a tick reads besides the particles. */
    function Config(): World
      reads this
    {
      World(math, timeStep, params, pPartition)
    }

    /**
     * Swarm(num, w, h, type): num particles with ids 1..num at the given
     * starting positions, and the manager's current matrix.
     */
    constructor (num: int, pType: int, positions: seq<(real, real)>, math: MathLib, paramManager: ParamManager)
      requires num >= 0 && pType != 0 && |positions| == num
      ensures Valid()
      ensures this.pNum == num && this.pType == pType && this.math == math && this.paramManager == paramManager
      ensures forall i :: 0 <= i < num ==> particles[i] == Particle(i + 1, positions[i].0, positions[i].1)
      ensures count == 0 && params == paramManager.params
    {
      var ps: seq<Particle> := [];
      for i := 1 to num + 1
        invariant |ps| == i - 1
        invariant forall k :: 0 <= k < i - 1 ==> ps[k] == Particle(k + 1, positions[k].0, positions[k].1)
      {
        ps := ps + [Particle(i, positions[i - 1].0, positions[i - 1].1)];
      }
      this.pNum := num;
      this.pType := pType;
      this.pPartition := JavaDiv(num, pType);
      this.math := math;
      this.paramManager := paramManager;
      this.params := paramManager.params;
      this.count := 0;
      this.particles := ps;
    }

    /**
     * One pass of the inner loop of run() for the pair (i, j): the running sum
     * plus tmpX and tmpY, or None where getKParam throws.
     */
    method AddPairForce(ghost fs: seq<Option<Vec2>>, i: nat, j: nat, sumX: real, sumY: real) returns (next: Option<Vec2>)
      requires i < |particles| && j < |particles| && j != i
      requires Separated(math.sqrt, particles) && IsForceTable(Config(), particles, i, fs)
      requires SumSkipping(fs, i, j) == Some(Vec2(sumX, sumY))
      ensures next == SumSkipping(fs, i, j + 1)
    {
      var p1, p2 := particles[i], particles[j];
      var r := ComputePairForce(Config(), p1, p2);
      assert fs[j] == PairForce(Config(), p1, p2);
      SumSkippingStep(fs, i, j, Vec2(sumX, sumY));
      if r.None? {
        return None;
      }
      next := Some(Vec2(sumX + r.value.x, sumY + r.value.y));
    }

    /** The inner loop of run(): the summed force of all other particles on particle i. */
    method ForceOn(i: nat) returns (sum: Option<Vec2>)
      requires i < |particles|
      requires Separated(math.sqrt, particles)
      ensures sum == ForceSum(Config(), particles, i, |particles|)
    {
      ghost var fs := ForceTable(Config(), particles, i);
      var sumX, sumY := 0.0, 0.0;
      for j := 0 to |particles|
        invariant SumSkipping(fs, i, j) == Some(Vec2(sumX, sumY))
      {
        if j == i {
          SumSkippingStep(fs, i, j, Vec2(sumX, sumY));
          continue;
        }
        var next := AddPairForce(fs, i, j, sumX, sumY);
        if next.None? {
          SumSkippingStaysNone(fs, i, j + 1, |particles|);
          ForcesIsTable(Config(), particles, i, fs);
          return None;
        }
        sumX, sumY := next.value.x, next.value.y;
      }
      ForcesIsTable(Config(), particles, i, fs);
      sum := Some(Vec2(sumX, sumY));
    }

    /**
     * The outer loop of run(): the buffered new coordinates of every particle,
     * in list order; ok is false where a coefficient lookup throws.
     */
    method Candidates() returns (ok: bool, newX: seq<real>, newY: seq<real>)
      requires Separated(math.sqrt, particles)
      ensures ok <==> Defined(Config(), particles)
      ensures ok ==> |newX| == |newY| == |particles|
      ensures ok ==> forall k :: 0 <= k < |particles| ==>
        Step(Config(), particles)[k] == Particle(particles[k].id, newX[k], newY[k])
    {
      ghost var w := Config();
      newX, newY := [], [];
      for i := 0 to |particles|
        invariant |newX| == |newY| == i
        invariant forall k :: 0 <= k < i ==> ForceSum(w, particles, k, |particles|).Some?
        invariant forall k :: 0 <= k < i ==>
          Advance(particles[k], timeStep, ForceSum(w, particles, k, |particles|).value) == Particle(particles[k].id, newX[k], newY[k])
      {
        var sum := ForceOn(i);
        if sum.None? {
          DefinedIffForceSums(w, particles);
          return false, newX, newY;
        }
        var p1 := particles[i];
        newX := newX + [p1.x + RungeKutta(timeStep, sum.value.x)];
        newY := newY + [p1.y + RungeKutta(timeStep, sum.value.y)];
      }
      DefinedIffForceSums(w, particles);
      ok := true;
    }

    /** The commit loop of run(): every particle takes its buffered coordinates, x then y. */
    method CommitPositions(newX: seq<real>, newY: seq<real>)
      requires |newX| == |newY| == pNum == |particles|
      modifies this
      ensures particles == Rebuilt(old(particles), newX, newY)
      ensures count == old(count) && params == old(params)
    {
      for i := 0 to pNum
        invariant |particles| == pNum
        invariant forall k :: 0 <= k < i ==> particles[k] == Particle(old(particles)[k].id, newX[k], newY[k])
        invariant forall k :: i <= k < pNum ==> particles[k] == old(particles)[k]
        invariant count == old(count) && params == old(params)
      {
        particles := particles[i := particles[i].(x := newX[i])];
        particles := particles[i := particles[i].(y := newY[i])];
      }
    }

    /**
     * printSwarmParam(): prints params[i][j] for i, j < 3. The console output
     * is left out; what remains is whether every read is in bounds. It is
     * false where Java throws ArrayIndexOutOfBoundsException.
     */
    method PrintSwarmParam() returns (inBounds: bool)
      ensures inBounds <==> CoversThreeByThree(params)
    {
      for i := 0 to 3
        invariant i <= |params|
        invariant forall r :: 0 <= r < i ==> 3 <= |params[r]|
      {
        for j := 0 to 3
          invariant 0 < j ==> i < |params| && j <= |params[i]|
        {
          if i >= |params| || j >= |params[i]| {
            return false;
          }
        }
      }
      return true;
    }

    /**
     * run(): one tick. All candidates are computed before any particle
     * moves; then every particle is moved, the matrix is re-read from the
     * manager and the step counter advances, with the manager's change
     * counter reset at every 1000th step. Where a lookup throws, nothing
     * changes (ok is false). At every 5000th step the matrix is printed;
     * reportThrows says that this print throws, after the state has changed.
     */
    method Run() returns (ok: bool, reportThrows: bool)
      requires Valid() && Separated(math.sqrt, particles)
      modifies this, paramManager
      ensures Valid()
      ensures ok <==> old(Defined(Config(), particles))
      ensures ok ==> particles == Step(old(Config()), old(particles))
      ensures ok ==> count == old(count) + 1 && params == old(paramManager.params)
      ensures ok ==> paramManager.params == old(paramManager.params)
      ensures ok ==> paramManager.changedCount == if count % 1000 == 0 then 0 else old(paramManager.changedCount)
      ensures reportThrows <==> ok && count % 5000 == 0 && !CoversThreeByThree(params)
      ensures !ok ==> unchanged(this) && unchanged(paramManager)
    {
      var found, newX, newY := Candidates();
      if !found {
        return false, false;
      }
      CommitPositions(newX, newY);
      params := paramManager.params;
      count := count + 1;
      reportThrows := false;
      if count % 100 == 0 {
        if count % 1000 == 0 {
          paramManager.SetParamChangedCount(0);
        }
        if count % 5000 == 0 {
          var inBounds := PrintSwarmParam();
          reportThrows := !inBounds;
        }
      }
      ok := true;
    }
  }
}
