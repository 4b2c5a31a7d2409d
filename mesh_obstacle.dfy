/** The repulsive force of a mesh obstacle on a curve network, evaluated over
    the obstacle's bounding-volume hierarchy (BVH) Barnes-Hut style, and the
    per-vertex accumulation of that force into the caller's gradient. */
module Obstacles {
  import opened Vector3

  /** A BVH node, classified the way `AccumulateForce` classifies it: no
      geometry beneath, one element, or an aggregate over ordered children.
      The builder keeps each aggregate's mass and centre of mass; this model
      only reads them. */
  datatype BVHNode =
    | Empty
    | Leaf(centerOfMass: Vec3, totalMass: real)
    | Internal(centerOfMass: Vec3, totalMass: real, children: seq<BVHNode>)

  /** The maths-library routines the force kernel calls: the Euclidean norm
      and `pow` with a real exponent. Neither is computed here. */
  datatype Maths = Maths(norm: Vec3 -> real, pow: (real, real) -> real)

  /** One point mass of the obstacle: a leaf's aggregate. */
  datatype Body = Body(center: Vec3, mass: real)

  /** The kernel's divisions are defined: the query point is at a non-zero
      distance from the centre and that distance to the power p is non-zero. */
  predicate Separated(center: Vec3, point: Vec3, p: real, maths: Maths) {
    var distance := maths.norm(Minus(center, point));
    distance != 0.0 && maths.pow(distance, p) != 0.0
  }

  /** `bodyForce`: the pull of `mass` at `center` on `point`, the unit vector
      from the point toward the centre divided by distance^p and times the mass. */
  function BodyForce(center: Vec3, mass: real, point: Vec3, p: real, maths: Maths): Vec3
    requires Separated(center, point, p, maths)
  {
    var toPoint := Minus(center, point);
    var distance := maths.norm(toPoint);
    var unit := Scale(1.0 / distance, toPoint);
    var grad := Scale(1.0 / maths.pow(distance, p), unit);
    Scale(mass, grad)
  }

  /** With a positive distance and a positive distance^p, the body force is
      the mass times a positive multiple of `center - point`: it pulls the
      point toward the centre when the mass is positive, pushes it away when
      the mass is negative, and vanishes when the mass is zero. */
  lemma BodyForceTowardCenter(center: Vec3, mass: real, point: Vec3, p: real, maths: Maths)
    requires maths.norm(Minus(center, point)) > 0.0
    requires maths.pow(maths.norm(Minus(center, point)), p) > 0.0
    ensures var toPoint := Minus(center, point);
            var distance := maths.norm(toPoint);
            var strength := 1.0 / (distance * maths.pow(distance, p));
            && strength > 0.0
            && BodyForce(center, mass, point, p, maths) == Scale(mass * strength, toPoint)
  {
    var toPoint := Minus(center, point);
    var distance := maths.norm(toPoint);
    var power := maths.pow(distance, p);
    ReciprocalProduct(distance, power);
    Coefficient(mass, power, distance, toPoint.x);
    Coefficient(mass, power, distance, toPoint.y);
    Coefficient(mass, power, distance, toPoint.z);
  }

  /** Dividing by d and then by q is multiplying by the positive 1 / (d q). */
  lemma ReciprocalProduct(d: real, q: real)
    requires d > 0.0 && q > 0.0
    ensures 1.0 / (d * q) > 0.0
  {
  }

  lemma Coefficient(m: real, q: real, d: real, x: real)
    requires d > 0.0 && q > 0.0
    ensures m * ((1.0 / q) * ((1.0 / d) * x)) == (m * (1.0 / (d * q))) * x
  {
  }

  /** At distance one, with `pow(1, p) == 1`, a body pulls the point with
      exactly its mass along the offset to the centre. */
  lemma UnitDistanceForce(center: Vec3, mass: real, point: Vec3, p: real, maths: Maths)
    requires maths.norm(Minus(center, point)) == 1.0
    requires maths.pow(1.0, p) == 1.0
    ensures Separated(center, point, p, maths)
    ensures BodyForce(center, mass, point, p, maths) == Scale(mass, Minus(center, point))
  {
    var d := maths.norm(Minus(center, point));
    ReciprocalOfOne(d);
    ReciprocalOfOne(maths.pow(d, p));
  }

  lemma ReciprocalOfOne(d: real)
    requires d == 1.0
    ensures 1.0 / d == 1.0
  {
  }


  /** A force kernel: the pull on a query point of a point mass at a centre.
      `AccumulateForce` calls it on every node it stops at; `KernelOf` is the
      obstacle's `bodyForce`. */
  type Kernel = (Vec3, real, Vec3) -> Vec3

  /** `bodyForce` with the obstacle's exponent and maths routines fixed. Where
      the source would divide by zero (see `ForceDefined`) the model answers
      zero. */
  function KernelOf(p: real, maths: Maths): Kernel
  {
    (center: Vec3, mass: real, point: Vec3) =>
      if Separated(center, point, p, maths) then BodyForce(center, mass, point, p, maths) else Zero
  }

  /** Wherever the query point is separated from the centre, the obstacle's
      kernel is `bodyForce`. */
  lemma KernelIsBodyForce(center: Vec3, mass: real, point: Vec3, p: real, maths: Maths)
    requires Separated(center, point, p, maths)
    ensures KernelOf(p, maths)(center, mass, point) == BodyForce(center, mass, point, p, maths)
  {
  }

  /** The kernel gives nothing for a zero mass. */
  ghost predicate VanishesWithoutMass(bodyForce: Kernel) {
    forall center, point :: bodyForce(center, 0.0, point) == Zero
  }

  /** `bodyForce` vanishes without mass, since it is the mass times a vector. */
  lemma BodyForceVanishesWithoutMass(p: real, maths: Maths)
    ensures VanishesWithoutMass(KernelOf(p, maths))
  {
    forall center, point
      ensures KernelOf(p, maths)(center, 0.0, point) == Zero
    {
      if Separated(center, point, p, maths) {
        assert KernelOf(p, maths)(center, 0.0, point) == BodyForce(center, 0.0, point, p, maths);
      }
    }
  }

  /** Every `bodyForce` that `AccumulateForce(node, point)` evaluates divides
      by non-zero values: at a leaf, at an internal node the admissibility
      test accepts, and below an internal node it rejects. */
  ghost predicate ForceDefined(node: BVHNode, point: Vec3, p: real, maths: Maths,
                               shouldUseCell: (BVHNode, Vec3) -> bool)
    decreases node
  {
    match node
    case Empty => true
    case Leaf(center, _) => Separated(center, point, p, maths)
    case Internal(center, _, children) =>
      if shouldUseCell(node, point) then Separated(center, point, p, maths)
      else forall i :: 0 <= i < |children| ==> ForceDefined(children[i], point, p, maths, shouldUseCell)
  }

  /** `AccumulateForce`: an empty node contributes nothing, a leaf its own body
      force, an admissible internal node its aggregate's body force, and any
      other internal node the sum of its children's contributions in order.
      Every recursive call descends to a child, so the recursion terminates. */
  function AccumulateForce(node: BVHNode, point: Vec3, bodyForce: Kernel,
                           shouldUseCell: (BVHNode, Vec3) -> bool): Vec3
    decreases node, 1
  {
    match node
    case Empty => Zero
    case Leaf(center, mass) => bodyForce(center, mass, point)
    case Internal(center, mass, children) =>
      if shouldUseCell(node, point) then bodyForce(center, mass, point)
      else Sum(ChildForces(node, point, bodyForce, shouldUseCell))
  }

  /** The contributions of children in the given order. */
  function Forces(children: seq<BVHNode>, point: Vec3, bodyForce: Kernel,
                  shouldUseCell: (BVHNode, Vec3) -> bool): seq<Vec3>
  {
    seq(|children|, i requires 0 <= i < |children| => AccumulateForce(children[i], point, bodyForce, shouldUseCell))
  }

  /** `Forces` of an internal node's children. It takes the node rather than
      the children so that `AccumulateForce` and it share the termination
      measure `decreases node`; `RefinedNodeSumsChildren` relates the two. */
  function ChildForces(node: BVHNode, point: Vec3, bodyForce: Kernel,
                       shouldUseCell: (BVHNode, Vec3) -> bool): seq<Vec3>
    requires node.Internal?
    decreases node, 0
  {
    seq(|node.children|, i requires 0 <= i < |node.children| =>
      AccumulateForce(node.children[i], point, bodyForce, shouldUseCell))
  }

  // ---------- The dispatch, case by case ----------

  /** An empty node yields exactly the zero vector whatever the query point. */
  lemma AccumulateEmpty(point: Vec3, bodyForce: Kernel, shouldUseCell: (BVHNode, Vec3) -> bool)
    ensures AccumulateForce(Empty, point, bodyForce, shouldUseCell) == Zero
  {
  }

  /** A leaf yields its own body force, whatever the admissibility test says. */
  lemma AccumulateLeaf(center: Vec3, mass: real, point: Vec3, bodyForce: Kernel,
                       shouldUseCell: (BVHNode, Vec3) -> bool)
    ensures AccumulateForce(Leaf(center, mass), point, bodyForce, shouldUseCell) == bodyForce(center, mass, point)
  {
  }

  /** An admissible internal node yields its aggregate's body force without
      looking at its children: two such nodes that share the aggregate give
      the same force whatever their children. */
  lemma AdmissibleIgnoresChildren(center: Vec3, mass: real, children1: seq<BVHNode>,
                                  children2: seq<BVHNode>, point: Vec3, bodyForce: Kernel,
                                  shouldUseCell: (BVHNode, Vec3) -> bool)
    requires shouldUseCell(Internal(center, mass, children1), point)
    requires shouldUseCell(Internal(center, mass, children2), point)
    ensures AccumulateForce(Internal(center, mass, children1), point, bodyForce, shouldUseCell)
            == AccumulateForce(Internal(center, mass, children2), point, bodyForce, shouldUseCell)
            == bodyForce(center, mass, point)
  {
  }

  /** A rejected internal node yields the sum, in stored order and starting
      from zero, of its children's own `AccumulateForce` results. */
  lemma {:induction false} RefinedNodeSumsChildren(center: Vec3, mass: real, children: seq<BVHNode>, point: Vec3,
                                bodyForce: Kernel, shouldUseCell: (BVHNode, Vec3) -> bool)
    requires !shouldUseCell(Internal(center, mass, children), point)
    ensures AccumulateForce(Internal(center, mass, children), point, bodyForce, shouldUseCell)
            == Sum(Forces(children, point, bodyForce, shouldUseCell))
  {
    assert ChildForces(Internal(center, mass, children), point, bodyForce, shouldUseCell)
           == Forces(children, point, bodyForce, shouldUseCell);
  }

  /** No mass anywhere in the subtree. */
  ghost predicate Massless(node: BVHNode)
    decreases node
  {
    match node
    case Empty => true
    case Leaf(_, mass) => mass == 0.0
    case Internal(_, mass, children) =>
      mass == 0.0 && forall i :: 0 <= i < |children| ==> Massless(children[i])
  }

  /** With a kernel that vanishes without mass, a subtree that carries no
      mass contributes exactly zero, however the admissibility test answers. */
  lemma {:induction false} MasslessContributesNothing(node: BVHNode, point: Vec3, bodyForce: Kernel,
                                                      shouldUseCell: (BVHNode, Vec3) -> bool)
    requires VanishesWithoutMass(bodyForce)
    requires Massless(node)
    ensures AccumulateForce(node, point, bodyForce, shouldUseCell) == Zero
    decreases node
  {
    match node
    case Empty =>
    case Leaf(_, _) =>
    case Internal(center, mass, children) =>
      if !shouldUseCell(node, point) {
        forall i | 0 <= i < |children|
          ensures AccumulateForce(children[i], point, bodyForce, shouldUseCell) == Zero
        {
          MasslessContributesNothing(children[i], point, bodyForce, shouldUseCell);
        }
        RefinedNodeSumsChildren(center, mass, children, point, bodyForce, shouldUseCell);
        SumOfZeros(Forces(children, point, bodyForce, shouldUseCell));
      }
  }

  /** The kernel agrees with `bodyForce` at every centre separated from `point`. */
  ghost predicate AgreesWhereSeparated(bodyForce: Kernel, point: Vec3, p: real, maths: Maths) {
    forall center, mass :: Separated(center, point, p, maths) ==>
      bodyForce(center, mass, point) == BodyForce(center, mass, point, p, maths)
  }

  /** Where every evaluated node is separated from the query point, the force
      does not depend on what the kernel does elsewhere: the obstacle's kernel
      gives the same force as any kernel that is `bodyForce` on separated
      points, so its zero fallback is never reached. */
  lemma {:induction false} DefinedForceIgnoresFallback(node: BVHNode, point: Vec3, p: real, maths: Maths,
                                                       shouldUseCell: (BVHNode, Vec3) -> bool, bodyForce: Kernel)
    requires ForceDefined(node, point, p, maths, shouldUseCell)
    requires AgreesWhereSeparated(bodyForce, point, p, maths)
    ensures AccumulateForce(node, point, KernelOf(p, maths), shouldUseCell)
            == AccumulateForce(node, point, bodyForce, shouldUseCell)
    decreases node
  {
    match node
    case Empty =>
    case Leaf(center, mass) =>
      KernelIsBodyForce(center, mass, point, p, maths);
    case Internal(center, mass, children) =>
      if shouldUseCell(node, point) {
        KernelIsBodyForce(center, mass, point, p, maths);
      } else {
        forall i | 0 <= i < |children|
          ensures AccumulateForce(children[i], point, KernelOf(p, maths), shouldUseCell)
                  == AccumulateForce(children[i], point, bodyForce, shouldUseCell)
        {
          DefinedForceIgnoresFallback(children[i], point, p, maths, shouldUseCell, bodyForce);
        }
        assert ChildForces(node, point, KernelOf(p, maths), shouldUseCell)
               == ChildForces(node, point, bodyForce, shouldUseCell);
      }
  }

  // ---------- Visiting order ----------

  /** The order in which a rejected node's children are visited does not
      change the force: children rearranged in any order sum to the same. */
  lemma {:induction false} ChildOrderIrrelevant(children1: seq<BVHNode>, children2: seq<BVHNode>,
                                                point: Vec3, bodyForce: Kernel,
                                                shouldUseCell: (BVHNode, Vec3) -> bool)
    requires multiset(children1) == multiset(children2)
    ensures Sum(Forces(children1, point, bodyForce, shouldUseCell))
            == Sum(Forces(children2, point, bodyForce, shouldUseCell))
    decreases |children1|
  {
    var n := |children1|;
    if n == 0 {
      assert |children2| == 0;
    } else {
      var i := n - 1;
      assert children1[i] in multiset(children2);
      var j :| 0 <= j < |children2| && children2[j] == children1[i];
      PermutationWithout(children1, i, children2, j);
      var rest1, rest2 := children1[..i] + children1[i + 1..], children2[..j] + children2[j + 1..];
      SumForcesWithout(children1, i, point, bodyForce, shouldUseCell);
      SumForcesWithout(children2, j, point, bodyForce, shouldUseCell);
      ChildOrderIrrelevant(rest1, rest2, point, bodyForce, shouldUseCell);
    }
  }

  /** Removing a matching element from each of two permutations of each
      other leaves permutations of each other. */
  lemma {:induction false} PermutationWithout(a: seq<BVHNode>, i: nat, b: seq<BVHNode>, j: nat)
    requires multiset(a) == multiset(b)
    requires i < |a| && j < |b| && a[i] == b[j]
    ensures multiset(a[..i] + a[i + 1..]) == multiset(b[..j] + b[j + 1..])
  {
    assert a == a[..i] + [a[i]] + a[i + 1..];
    assert b == b[..j] + [b[j]] + b[j + 1..];
    assert multiset(a) - multiset{a[i]} == multiset(a[..i] + a[i + 1..]);
    assert multiset(b) - multiset{b[j]} == multiset(b[..j] + b[j + 1..]);
  }

  /** The children's sum is the sum without child j, plus child j's force. */
  lemma {:induction false} SumForcesWithout(children: seq<BVHNode>, j: nat, point: Vec3, bodyForce: Kernel,
                         shouldUseCell: (BVHNode, Vec3) -> bool)
    requires j < |children|
    ensures Sum(Forces(children, point, bodyForce, shouldUseCell))
            == Plus(Sum(Forces(children[..j] + children[j + 1..], point, bodyForce, shouldUseCell)),
                    AccumulateForce(children[j], point, bodyForce, shouldUseCell))
  {
    var fs := Forces(children, point, bodyForce, shouldUseCell);
    assert Forces(children[..j] + children[j + 1..], point, bodyForce, shouldUseCell) == fs[..j] + fs[j + 1..];
    SumExtract(fs, j);
  }

  // ---------- Without any approximation: the brute-force sum ----------

  /** The admissibility test rejects every internal node of the subtree. */
  ghost predicate NeverAdmissible(node: BVHNode, point: Vec3, shouldUseCell: (BVHNode, Vec3) -> bool)
    decreases node
  {
    node.Internal? ==>
      !shouldUseCell(node, point) &&
      forall i :: 0 <= i < |node.children| ==> NeverAdmissible(node.children[i], point, shouldUseCell)
  }

  /** The non-empty leaves of a subtree, left to right. */
  function Leaves(node: BVHNode): seq<Body>
    decreases node
  {
    match node
    case Empty => []
    case Leaf(center, mass) => [Body(center, mass)]
    case Internal(_, _, children) =>
      Concat(seq(|children|, i requires 0 <= i < |children| => Leaves(children[i])))
  }

  function Concat(xss: seq<seq<Body>>): seq<Body> {
    if |xss| == 0 then [] else Concat(xss[..|xss| - 1]) + xss[|xss| - 1]
  }

  /** Each body's own force on the point, in order. */
  function BodyForces(bodies: seq<Body>, point: Vec3, bodyForce: Kernel): seq<Vec3>
  {
    seq(|bodies|, i requires 0 <= i < |bodies| => bodyForce(bodies[i].center, bodies[i].mass, point))
  }

  /** The exact force: every body's contribution added up in order. */
  function BruteForce(bodies: seq<Body>, point: Vec3, bodyForce: Kernel): Vec3 {
    Sum(BodyForces(bodies, point, bodyForce))
  }

  lemma {:induction false} BruteForceAppend(a: seq<Body>, b: seq<Body>, point: Vec3, bodyForce: Kernel)
    ensures BruteForce(a + b, point, bodyForce) == Plus(BruteForce(a, point, bodyForce), BruteForce(b, point, bodyForce))
  {
    var fa, fb := BodyForces(a, point, bodyForce), BodyForces(b, point, bodyForce);
    forall i | 0 <= i < |a + b|
      ensures BodyForces(a + b, point, bodyForce)[i] == (fa + fb)[i]
    {
      if i < |a| {
        assert (a + b)[i] == a[i];
      } else {
        assert (a + b)[i] == b[i - |a|];
      }
    }
    assert BodyForces(a + b, point, bodyForce) == fa + fb;
    SumAppend(BodyForces(a, point, bodyForce), BodyForces(b, point, bodyForce));
  }

  /** The brute-force sum over a concatenation of groups is the sum, over the
      groups in order, of each group's brute-force sum. */
  lemma {:induction false} BruteForceConcat(xss: seq<seq<Body>>, point: Vec3, bodyForce: Kernel)
    ensures BruteForce(Concat(xss), point, bodyForce)
            == Sum(seq(|xss|, i requires 0 <= i < |xss| => BruteForce(xss[i], point, bodyForce)))
    decreases |xss|
  {
    var sums := seq(|xss|, i requires 0 <= i < |xss| => BruteForce(xss[i], point, bodyForce));
    if |xss| == 0 {
      assert Concat(xss) == [];
      assert BodyForces([], point, bodyForce) == [];
    } else {
      var n := |xss|;
      var init, last := xss[..n - 1], xss[n - 1];
      var initSums := seq(n - 1, i requires 0 <= i < n - 1 => BruteForce(init[i], point, bodyForce));
      assert sums[..n - 1] == initSums;
      assert Sum(sums) == Plus(Sum(initSums), BruteForce(last, point, bodyForce));
      BruteForceConcat(init, point, bodyForce);
      assert Concat(xss) == Concat(init) + last;
      BruteForceAppend(Concat(init), last, point, bodyForce);
    }
  }

  /** With the admissibility test rejecting every internal node, the
      hierarchical force is exactly the brute-force sum over all non-empty
      leaves: the approximation is the only thing the hierarchy adds. */
  lemma {:induction false} UnapproximatedIsBruteForce(node: BVHNode, point: Vec3, bodyForce: Kernel,
                                                      shouldUseCell: (BVHNode, Vec3) -> bool)
    requires NeverAdmissible(node, point, shouldUseCell)
    ensures AccumulateForce(node, point, bodyForce, shouldUseCell) == BruteForce(Leaves(node), point, bodyForce)
    decreases node
  {
    match node
    case Empty =>
    case Leaf(center, mass) =>
      var single := BodyForces([Body(center, mass)], point, bodyForce);
      assert single[..0] == [];
      assert Sum(single) == Plus(Zero, single[0]);
    case Internal(_, _, children) =>
      var groups := seq(|children|, i requires 0 <= i < |children| => Leaves(children[i]));
      forall i | 0 <= i < |children|
        ensures AccumulateForce(children[i], point, bodyForce, shouldUseCell) == BruteForce(groups[i], point, bodyForce)
      {
        UnapproximatedIsBruteForce(children[i], point, bodyForce, shouldUseCell);
      }
      BruteForceConcat(groups, point, bodyForce);
      assert ChildForces(node, point, bodyForce, shouldUseCell)
             == seq(|groups|, i requires 0 <= i < |groups| => BruteForce(groups[i], point, bodyForce));
  }

  /** `MeshObstacle`: an obstacle with its BVH (built once by the BVH
      builder, with that hierarchy's admissibility test), its exponent p and
      its weight. Nothing changes after construction. */
  class MeshObstacle {
    const bvh: BVHNode
    const shouldUseCell: (BVHNode, Vec3) -> bool
    const p: real
    const weight: real
    const maths: Maths

    constructor (bvh: BVHNode, shouldUseCell: (BVHNode, Vec3) -> bool, p: real, weight: real, maths: Maths)
      ensures this.bvh == bvh && this.p == p && this.weight == weight
      ensures this.shouldUseCell == shouldUseCell && this.maths == maths
    {
      this.bvh := bvh;
      this.shouldUseCell := shouldUseCell;
      this.p := p;
      this.weight := weight;
      this.maths := maths;
    }

    /** `AddGradient`: for each curve vertex i, adds weight times the force
        at vertex i's position into gradient row i. Rows are only added to,
        each from its own vertex alone, and rows past the last vertex are
        untouched. */
    method AddGradient(positions: seq<Vec3>, gradient: array<Vec3>)
      requires |positions| <= gradient.Length
      requires forall i :: 0 <= i < |positions| ==> ForceDefined(bvh, positions[i], p, maths, shouldUseCell)
      modifies gradient
      ensures forall i :: 0 <= i < |positions| ==>
                gradient[i] == Plus(old(gradient[i]),
                                    Scale(weight, AccumulateForce(bvh, positions[i], KernelOf(p, maths), shouldUseCell)))
      ensures forall i :: |positions| <= i < gradient.Length ==> gradient[i] == old(gradient[i])
    {
      var bodyForce := KernelOf(p, maths);
      ghost var before := gradient[..];
      var nVerts := |positions|;
      var i := 0;
      while i < nVerts
        invariant 0 <= i <= nVerts
        invariant forall k :: 0 <= k < i ==>
                    gradient[k] == Plus(before[k], Scale(weight, AccumulateForce(bvh, positions[k], bodyForce, shouldUseCell)))
        invariant forall k :: i <= k < gradient.Length ==> gradient[k] == before[k]
      {
        var pos := positions[i];
        var force := AccumulateForce(bvh, pos, bodyForce, shouldUseCell);
        gradient[i] := Plus(gradient[i], Scale(weight, force));
        i := i + 1;
      }
    }
  }
}
