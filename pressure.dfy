/** The pressure step of `pressure.c`: a cubic smoothing kernel, a density pass, a pressure
    pass and a pressure-force pass over all particles.

    Each particle looks at its neighbourhood: the particles referenced by the chunk its
    position falls in (except itself) followed by those referenced by the chunks its
    chunk's adjacency table lists, slot by slot. */
module Pressure {
  import opened Vector3
  import opened Containers
  import opened Adjacency
  import opened Chunks

  const SmoothingLength: real := 10.0
  /** The reference density and stiffness of the pressure pass. */
  const ReferenceDensity: real := 1.0
  const Stiffness: real := 1000.0

  // ---------------------------------------------------------------------------
  // The smoothing kernel.

  /** The kernel on q in [0, 1). */
  function InnerPiece(q: real): real
  {
    1.0 - 1.5 * q * q + 0.75 * q * q * q
  }

  /** The kernel on q in [1, 2). */
  function OuterPiece(q: real): real
  {
    0.25 * (2.0 - q) * (2.0 - q) * (2.0 - q)
  }

  /** `smoothingKernel` with q = dist / h. */
  function SmoothingKernel(dist: real, h: real): real
    requires h != 0.0
  {
    var q := dist / h;
    if q >= 0.0 && q < 1.0 then InnerPiece(q)
    else if q >= 1.0 && q < 2.0 then OuterPiece(q)
    else 0.0
  }

  lemma KernelAtZero(h: real)
    requires h != 0.0
    ensures SmoothingKernel(0.0, h) == 1.0
  {
  }

  /** The kernel vanishes outside q in [0, 2). */
  lemma KernelVanishes(dist: real, h: real)
    requires h != 0.0 && (dist / h >= 2.0 || dist / h < 0.0)
    ensures SmoothingKernel(dist, h) == 0.0
  {
  }

  /** Both pieces meet at q = 1 with value 1/4, and the outer piece reaches 0 at q = 2,
      so the kernel is continuous. */
  lemma KernelContinuous(h: real)
    requires h > 0.0
    ensures InnerPiece(1.0) == 0.25 && OuterPiece(1.0) == 0.25 && OuterPiece(2.0) == 0.0
    ensures SmoothingKernel(h, h) == 0.25
  {
    assert h / h == 1.0;
  }

  lemma InnerPieceBounds(q: real)
    requires 0.0 <= q < 1.0
    ensures 0.25 < InnerPiece(q) <= 1.0
  {
    InnerAboveQuarter(q);
    InnerAtMostOne(q);
  }

  /** 1/4 below the inner piece lies 3/4 (1 - q)(1 + q - q^2). */
  lemma InnerAboveQuarter(q: real)
    requires 0.0 <= q < 1.0
    ensures 0.25 < InnerPiece(q)
  {
    NonnegProduct(q, 1.0 - q);
    PositiveProduct(1.0 - q, 1.0 + q * (1.0 - q));
    Above(InnerPiece(q), (1.0 - q) * (1.0 + q * (1.0 - q)), 0.75, 0.25);
  }

  /** 1 above the inner piece lies 3/4 q^2 (2 - q). */
  lemma InnerAtMostOne(q: real)
    requires 0.0 <= q < 1.0
    ensures InnerPiece(q) <= 1.0
  {
    NonnegProduct(q * q, 2.0 - q);
    Above(1.0 - InnerPiece(q), q * q * (2.0 - q), 0.75, 0.0);
  }

  lemma OuterPieceBounds(q: real)
    requires 1.0 <= q < 2.0
    ensures 0.0 <= OuterPiece(q) <= 0.25
  {
    CubeBounds(2.0 - q);
    assert OuterPiece(q) == 0.25 * ((2.0 - q) * (2.0 - q) * (2.0 - q));
  }

  lemma Above(w: real, x: real, c: real, d: real)
    requires w == c * x + d && c > 0.0 && x >= 0.0
    ensures d <= w && (x > 0.0 ==> d < w)
  {
    NonnegProduct(c, x);
    if x > 0.0 {
      PositiveProduct(c, x);
    }
  }

  lemma FractionProduct(a: real, b: real)
    requires 0.0 <= a <= 1.0 && 0.0 <= b
    ensures 0.0 <= a * b <= b
  {
    NonnegProduct(a, b);
    NonnegProduct(1.0 - a, b);
  }

  lemma CubeBounds(t: real)
    requires 0.0 <= t <= 1.0
    ensures 0.0 <= t * t * t <= 1.0
  {
    FractionProduct(t, t);
    FractionProduct(t, t * t);
    assert t * t * t == t * (t * t);
  }

  /** For a non-negative distance and a positive smoothing length the kernel lies in
      [0, 1], and it exceeds 1/4 on q in [0, 1). */
  lemma KernelBounds(dist: real, h: real)
    requires dist >= 0.0 && h > 0.0
    ensures 0.0 <= SmoothingKernel(dist, h) <= 1.0
    ensures dist / h < 1.0 ==> SmoothingKernel(dist, h) > 0.25
  {
    var q := dist / h;
    assert q >= 0.0 by {
      assert q * h == dist;
      if q < 0.0 {
        PositiveProduct(-q, h);
      }
    }
    if q < 1.0 {
      InnerPieceBounds(q);
    } else if q < 2.0 {
      OuterPieceBounds(q);
    }
  }

  // ---------------------------------------------------------------------------
  // Pairwise terms.

  /** What `updateDensity(a, b, h)` adds to a's density. */
  function DensityTerm(a: Particle, b: Particle, h: real): real
    requires h != 0.0 && Measurable(Sub(a.pos, b.pos))
  {
    b.mass * SmoothingKernel(Len(Sub(a.pos, b.pos)), h)
  }

  /** `updateDensity(a, b, h)`: only a's density changes, by b's contribution, which for a
      non-negative mass and a positive smoothing length lies between nothing and b's mass. */
  function UpdateDensity(a: Particle, b: Particle, h: real): (r: Particle)
    requires h != 0.0 && Measurable(Sub(a.pos, b.pos))
    ensures r == a.(density := a.density + DensityTerm(a, b, h))
    ensures h > 0.0 && b.mass >= 0.0 ==> a.density <= r.density <= a.density + b.mass
  {
    DensityTermBounds(a, b, h);
    var diff := Sub(a.pos, b.pos);
    var dist := Len(diff);
    a.(density := a.density + b.mass * SmoothingKernel(dist, h))
  }

  /** The pressure a density gives: `stiffness * (density - density0)`. */
  function PressureOf(density: real): real
  {
    Stiffness * (density - ReferenceDensity)
  }

  /** The force term needs the centre distance of the pair, and a non-zero one when the
      pair is closer than the smoothing length, since the term divides by it. A pair at
      distance zero is always that close, so this asks for two distinct positions. */
  ghost predicate ForceDefined(a: V3, b: V3)
  {
    Measurable(Sub(a, b)) && a != b
  }

  /** The pressure force one neighbour o exerts on particle p. */
  function ForceTerm(p: Particle, o: Particle): V3
    requires ForceDefined(p.pos, o.pos)
  {
    SubZero(p.pos, o.pos);
    LenZero(Sub(p.pos, o.pos));
    var dist := Len(Sub(p.pos, o.pos));
    PairForce(Sub(p.pos, o.pos), dist, SmoothingKernel(dist, SmoothingLength), p.pressure + o.pressure)
  }

  /** The force term from the offset `diff` between the pair, its length `dist`, the
      smoothing kernel's value `w` at that distance and the sum of the pair's pressures:
      nothing unless the pair is closer than the smoothing length. */
  function PairForce(diff: V3, dist: real, w: real, pressureSum: real): V3
    requires dist != 0.0
  {
    var q := dist / SmoothingLength;
    if q >= 0.0 && q < 1.0 then
      var pressure := 0.5 * pressureSum * (1.0 - q);
      var kernel := Mul(diff, 1.0 / dist * w);
      Mul(kernel, -pressure)
    else
      Zero
  }

  /** Reversing the offset reverses the force. */
  lemma PairForceNegated(diff: V3, dist: real, w: real, pressureSum: real)
    requires dist != 0.0
    ensures PairForce(Mul(diff, -1.0), dist, w, pressureSum) == Mul(PairForce(diff, dist, w, pressureSum), -1.0)
  {
    if dist / SmoothingLength >= 0.0 && dist / SmoothingLength < 1.0 {
      MulNegated(diff, 1.0 / dist * w,
        -(0.5 * pressureSum * (1.0 - dist / SmoothingLength)));
    } else {
      MulZero(-1.0);
    }
  }

  /** Pressure pass: positive pressure exactly above the reference density. */
  lemma PressureSign(density: real)
    ensures PressureOf(density) > 0.0 <==> density > ReferenceDensity
    ensures PressureOf(density) == 0.0 <==> density == ReferenceDensity
  {
  }

  /** Only neighbours closer than the smoothing length contribute. */
  lemma ForceTermOutOfRange(p: Particle, o: Particle)
    requires ForceDefined(p.pos, o.pos) && Len(Sub(p.pos, o.pos)) >= SmoothingLength
    ensures ForceTerm(p, o) == Zero
  {
  }

  /** The term is antisymmetric: o pushes p exactly as hard as p pushes o, in the opposite
      direction. */
  lemma ForceTermAntisymmetric(p: Particle, o: Particle)
    requires ForceDefined(p.pos, o.pos)
    ensures ForceDefined(o.pos, p.pos)
    ensures ForceTerm(p, o) == Mul(ForceTerm(o, p), -1.0)
  {
    LenSubSymmetric(p.pos, o.pos);
    SubZero(o.pos, p.pos);
    assert Sub(o.pos, p.pos) == Mul(Sub(p.pos, o.pos), -1.0);
    LenZero(Sub(p.pos, o.pos));
    var dist := Len(Sub(p.pos, o.pos));
    PairForceNegated(Sub(p.pos, o.pos), dist, SmoothingKernel(dist, SmoothingLength), p.pressure + o.pressure);
    assert o.pressure + p.pressure == p.pressure + o.pressure;
  }

  /** With a positive pressure sum, a neighbour inside the smoothing length pulls the
      particle toward itself: the term has a negative component along `p.pos - o.pos`. */
  lemma ForceTermAttracts(p: Particle, o: Particle)
    requires ForceDefined(p.pos, o.pos)
    requires p.pressure + o.pressure > 0.0 && Len(Sub(p.pos, o.pos)) < SmoothingLength
    ensures Dot(ForceTerm(p, o), Sub(p.pos, o.pos)) < 0.0
  {
    SubZero(p.pos, o.pos);
    LenZero(Sub(p.pos, o.pos));
    var dist := Len(Sub(p.pos, o.pos));
    KernelBounds(dist, SmoothingLength);
    PairForceAttracts(Sub(p.pos, o.pos), dist, SmoothingKernel(dist, SmoothingLength), p.pressure + o.pressure);
  }

  /** `PairForce` inside the smoothing length, with a positive kernel value and pressure
      sum, points against the offset. */
  lemma PairForceAttracts(diff: V3, dist: real, w: real, pressureSum: real)
    requires diff != Zero && 0.0 < dist < SmoothingLength && w > 0.0 && pressureSum > 0.0
    ensures Dot(PairForce(diff, dist, w, pressureSum), diff) < 0.0
  {
    var q := dist / SmoothingLength;
    assert 0.0 <= q < 1.0;
    PositiveProduct(0.5 * pressureSum, 1.0 - q);
    ScaleFactorPositive(dist, w);
    NegativeAlong(diff, 1.0 / dist * w, -(0.5 * pressureSum * (1.0 - dist / SmoothingLength)));
  }

  lemma SubZero(a: V3, b: V3)
    ensures Sub(a, b) == Zero <==> a == b
  {
  }

  lemma ScaleFactorPositive(dist: real, w: real)
    requires dist > 0.0 && w > 0.0
    ensures 1.0 / dist * w > 0.0
  {
    PositiveProduct(1.0 / dist, w);
  }

  /** Scaling a non-zero vector by a positive and then a negative factor turns it around. */
  lemma NegativeAlong(v: V3, s: real, t: real)
    requires v != Zero && s > 0.0 && t < 0.0
    ensures Dot(Mul(Mul(v, s), t), v) < 0.0
  {
    DotScaled(v, s, t);
    DotSelfNonneg(v);
    PositiveProduct(s, -t);
    assert s * t < 0.0;
    PositiveProduct(-(s * t), Dot(v, v));
  }

  // ---------------------------------------------------------------------------
  // Sums over a list of neighbours.

  /** Positions and pressures agree: what the force pass reads of the particles. */
  ghost predicate SamePressures(ps: seq<Particle>, qs: seq<Particle>)
  {
    |ps| == |qs| && forall k | 0 <= k < |ps| :: ps[k].pos == qs[k].pos && ps[k].pressure == qs[k].pressure
  }

  /** Every reference names a particle at a distance from p the density terms can take:
      a length, which may be zero. */
  ghost predicate Measured(ps: seq<Particle>, p: Particle, refs: seq<nat>)
  {
    forall r | r in refs :: r < |ps| && Measurable(Sub(p.pos, ps[r].pos))
  }

  /** Every reference names a particle at a distance from p the force terms can take:
      one that is also not zero. */
  ghost predicate Reaches(ps: seq<Particle>, p: Particle, refs: seq<nat>)
  {
    forall r | r in refs :: r < |ps| && ForceDefined(p.pos, ps[r].pos)
  }

  /** The density the neighbours `refs` contribute to a particle p, accumulated in order. */
  function DensitySum(ps: seq<Particle>, p: Particle, refs: seq<nat>, h: real): real
    requires h != 0.0 && Measured(ps, p, refs)
  {
    if |refs| == 0 then 0.0
    else
      assert refs[|refs| - 1] in refs;
      DensitySum(ps, p, refs[..|refs| - 1], h) + DensityTerm(p, ps[refs[|refs| - 1]], h)
  }

  /** The pressure force the neighbours `refs` exert on a particle p, accumulated in order. */
  function ForceSum(ps: seq<Particle>, p: Particle, refs: seq<nat>): V3
    requires Reaches(ps, p, refs)
  {
    if |refs| == 0 then Zero
    else
      assert refs[|refs| - 1] in refs;
      Add(ForceSum(ps, p, refs[..|refs| - 1]), ForceTerm(p, ps[refs[|refs| - 1]]))
  }

  lemma {:induction false} DensitySumConcat(ps: seq<Particle>, p: Particle, a: seq<nat>, b: seq<nat>, h: real)
    requires h != 0.0 && Measured(ps, p, a) && Measured(ps, p, b)
    ensures Measured(ps, p, a + b)
    ensures DensitySum(ps, p, a + b, h) == DensitySum(ps, p, a, h) + DensitySum(ps, p, b, h)
  {
    if |b| > 0 {
      var n := |b| - 1;
      assert (a + b)[..|a + b| - 1] == a + b[..n];
      DensitySumConcat(ps, p, a, b[..n], h);
    } else {
      assert a + b == a;
    }
  }

  lemma {:induction false} ForceSumConcat(ps: seq<Particle>, p: Particle, a: seq<nat>, b: seq<nat>)
    requires Reaches(ps, p, a) && Reaches(ps, p, b)
    ensures Reaches(ps, p, a + b)
    ensures ForceSum(ps, p, a + b) == Add(ForceSum(ps, p, a), ForceSum(ps, p, b))
  {
    if |b| > 0 {
      var n := |b| - 1;
      assert (a + b)[..|a + b| - 1] == a + b[..n];
      ForceSumConcat(ps, p, a, b[..n]);
    } else {
      assert a + b == a;
    }
  }

  /** With non-negative masses and a positive smoothing length, neighbours never lower a
      density. */
  lemma {:induction false} DensitySumNonneg(ps: seq<Particle>, p: Particle, refs: seq<nat>, h: real)
    requires h > 0.0 && Measured(ps, p, refs)
    requires forall r | r in refs :: ps[r].mass >= 0.0
    ensures DensitySum(ps, p, refs, h) >= 0.0
  {
    if |refs| > 0 {
      var n := |refs| - 1;
      assert refs[n] in refs;
      assert forall r | r in refs[..n] :: r in refs;
      DensitySumNonneg(ps, p, refs[..n], h);
      DensityTermBounds(p, ps[refs[n]], h);
    }
  }

  /** One neighbour's share of a density is at least nothing and at most its mass. */
  lemma DensityTermBounds(p: Particle, o: Particle, h: real)
    requires h != 0.0 && Measurable(Sub(p.pos, o.pos))
    ensures h > 0.0 && o.mass >= 0.0 ==> 0.0 <= DensityTerm(p, o, h) <= o.mass
  {
    if h > 0.0 && o.mass >= 0.0 {
      var w := SmoothingKernel(Len(Sub(p.pos, o.pos)), h);
      KernelBounds(Len(Sub(p.pos, o.pos)), h);
      NonnegProduct(o.mass, w);
      NonnegProduct(o.mass, 1.0 - w);
    }
  }

  /** The force sums read nothing but the positions and pressures of the particles. */
  lemma {:induction false} ForceSumFrame(ps: seq<Particle>, qs: seq<Particle>, p: Particle, p': Particle, refs: seq<nat>)
    requires SamePressures(ps, qs) && p.pos == p'.pos && p.pressure == p'.pressure
    requires Reaches(ps, p, refs)
    ensures Reaches(qs, p', refs)
    ensures ForceSum(ps, p, refs) == ForceSum(qs, p', refs)
  {
    if |refs| > 0 {
      var last := refs[|refs| - 1];
      assert last in refs;
      ForceSumFrame(ps, qs, p, p', refs[..|refs| - 1]);
      ForceTermFrame(p, ps[last], p', qs[last]);
    }
  }

  lemma ForceTermFrame(p: Particle, o: Particle, p': Particle, o': Particle)
    requires p.pos == p'.pos && p.pressure == p'.pressure && o.pos == o'.pos && o.pressure == o'.pressure
    requires ForceDefined(p.pos, o.pos)
    ensures ForceTerm(p, o) == ForceTerm(p', o')
  {
  }

  // ---------------------------------------------------------------------------
  // Neighbourhoods.

  /** `refs` without the index i (the `other == particle` test). */
  function Others(refs: seq<nat>, i: nat): seq<nat>
  {
    if |refs| == 0 then []
    else
      var last := refs[|refs| - 1];
      Others(refs[..|refs| - 1], i) + (if last == i then [] else [last])
  }

  /** Others keeps exactly the references other than i. */
  lemma {:induction false} OthersMembers(refs: seq<nat>, i: nat)
    ensures forall x :: x in Others(refs, i) <==> x in refs && x != i
  {
    if |refs| > 0 {
      var last := refs[|refs| - 1];
      OthersMembers(refs[..|refs| - 1], i);
      assert refs == refs[..|refs| - 1] + [last];
    }
  }

  lemma OthersStep(refs: seq<nat>, i: nat, j: nat)
    requires j < |refs|
    ensures Others(refs[..j + 1], i) == Others(refs[..j], i) + (if refs[j] == i then [] else [refs[j]])
  {
    assert refs[..j + 1][..j] == refs[..j];
  }

  /** The references of the chunks an adjacency table lists in its slots below s. */
  function SlotRefs(d: Domain, adj: seq<Option<Int3>>, s: nat): (r: seq<nat>)
    reads d.chunks
    requires d.Valid() && |adj| == 26 && s <= 26
    requires forall t | 0 <= t < 26 && adj[t].Some? :: InGrid(adj[t].value, d.chunkCounts)
    ensures forall x | x in r :: x < d.particles.Length
  {
    if s == 0 then []
    else
      var rest := SlotRefs(d, adj, s - 1);
      match adj[s - 1]
      case None => rest
      case Some(n) => rest + Refs(d.chunks[n.x, n.y, n.z])
  }

  /** The chunk lookup of the passes is unchecked: the position must fall in the grid. */
  predicate Located(d: Domain, pos: V3)
  {
    d.chunkSize > 0.0 && InGrid(CellOf(pos, d.chunkSize), d.chunkCounts)
  }

  /** The neighbourhood of particle i at position pos, in visiting order. */
  function Candidates(d: Domain, pos: V3, i: nat): (r: seq<nat>)
    reads d.chunks
    requires d.Valid() && Located(d, pos)
    ensures forall x | x in r :: x < d.particles.Length
  {
    var c := CellOf(pos, d.chunkSize);
    var chunk := d.chunks[c.x, c.y, c.z];
    OthersMembers(Refs(chunk), i);
    Others(Refs(chunk), i) + SlotRefs(d, chunk.adj, |chunk.adj|)
  }

  /** What the density pass needs of the domain: a well-formed lattice, every particle
      located in it, and a distance from every particle to each of its neighbours. */
  ghost predicate DensityNeighbourhoods(d: Domain, ps: seq<Particle>)
    reads d.chunks
  {
    d.Valid() && |ps| == d.particles.Length &&
    forall i {:trigger Located(d, ps[i].pos)} {:trigger Candidates(d, ps[i].pos, i)} | 0 <= i < |ps| ::
      Located(d, ps[i].pos) && Measured(ps, ps[i], Candidates(d, ps[i].pos, i))
  }

  /** What the force pass needs besides: no particle shares its position with one of its
      neighbours, since the force term divides by their distance. */
  ghost predicate Neighbourhoods(d: Domain, ps: seq<Particle>)
    reads d.chunks
  {
    DensityNeighbourhoods(d, ps) &&
    forall i {:trigger Located(d, ps[i].pos)} {:trigger Candidates(d, ps[i].pos, i)} | 0 <= i < |ps| ::
      Located(d, ps[i].pos) && Reaches(ps, ps[i], Candidates(d, ps[i].pos, i))
  }

  lemma NeighbourhoodsSamePositions(d: Domain, ps: seq<Particle>, qs: seq<Particle>)
    requires Neighbourhoods(d, ps) && |ps| == |qs|
    requires forall k | 0 <= k < |ps| :: ps[k].pos == qs[k].pos
    ensures Neighbourhoods(d, qs)
  {
    forall i | 0 <= i < |qs|
      ensures Located(d, qs[i].pos) && Reaches(qs, qs[i], Candidates(d, qs[i].pos, i))
    {
      assert Reaches(ps, ps[i], Candidates(d, ps[i].pos, i));
    }
  }

  /** The density the density pass gives particle i: its neighbours' contributions plus its
      own `mass * smoothingKernel(0, h)`. */
  function DensityOf(d: Domain, ps: seq<Particle>, i: nat, h: real): real
    reads d.chunks
    requires DensityNeighbourhoods(d, ps) && i < |ps| && h != 0.0
  {
    DensitySum(ps, ps[i], Candidates(d, ps[i].pos, i), h) + ps[i].mass * SmoothingKernel(0.0, h)
  }

  /** The pressure force the force pass adds to particle i's velocity. */
  function ForceOf(d: Domain, ps: seq<Particle>, i: nat): V3
    reads d.chunks
    requires Neighbourhoods(d, ps) && i < |ps|
  {
    ForceSum(ps, ps[i], Candidates(d, ps[i].pos, i))
  }

  /** With non-negative masses and a positive smoothing length, a particle's density is
      at least its own mass. */
  lemma DensityAtLeastOwnMass(d: Domain, ps: seq<Particle>, i: nat, h: real)
    requires DensityNeighbourhoods(d, ps) && i < |ps| && h > 0.0
    requires forall k | 0 <= k < |ps| :: ps[k].mass >= 0.0
    ensures DensityOf(d, ps, i, h) >= ps[i].mass
  {
    var cand := Candidates(d, ps[i].pos, i);
    assert Measured(ps, ps[i], cand);
    assert forall r | r in cand :: ps[r].mass >= 0.0;
    DensitySumNonneg(ps, ps[i], cand, h);
    KernelAtZero(h);
  }

  /** A particle with an empty neighbourhood keeps its velocity and has density equal to
      its mass. */
  lemma LoneParticle(d: Domain, ps: seq<Particle>, i: nat, h: real)
    requires DensityNeighbourhoods(d, ps) && i < |ps| && h != 0.0
    requires Candidates(d, ps[i].pos, i) == []
    ensures DensityOf(d, ps, i, h) == ps[i].mass
    ensures Neighbourhoods(d, ps) ==> ForceOf(d, ps, i) == Zero
  {
    KernelAtZero(h);
  }

  // ---------------------------------------------------------------------------
  // The passes.

  /** Positions and masses agree: what the density pass reads of the particles. */
  ghost predicate SameBodies(ps: seq<Particle>, qs: seq<Particle>)
  {
    |ps| == |qs| && forall k | 0 <= k < |ps| :: ps[k].pos == qs[k].pos && ps[k].mass == qs[k].mass
  }

  lemma DensitySumSnoc(ps: seq<Particle>, p: Particle, refs: seq<nat>, r: nat, h: real)
    requires h != 0.0 && Measured(ps, p, refs + [r]) && r < |ps| && Measurable(Sub(p.pos, ps[r].pos))
    ensures Measured(ps, p, refs)
    ensures DensitySum(ps, p, refs + [r], h) == DensitySum(ps, p, refs, h) + DensityTerm(p, ps[r], h)
  {
    assert (refs + [r])[..|refs|] == refs;
  }

  lemma ForceSumSnoc(ps: seq<Particle>, p: Particle, refs: seq<nat>, r: nat)
    requires Reaches(ps, p, refs + [r]) && r < |ps| && ForceDefined(p.pos, ps[r].pos)
    ensures Reaches(ps, p, refs)
    ensures ForceSum(ps, p, refs + [r]) == Add(ForceSum(ps, p, refs), ForceTerm(p, ps[r]))
  {
    assert (refs + [r])[..|refs|] == refs;
  }

  lemma ReachesSubset(ps: seq<Particle>, p: Particle, a: seq<nat>, b: seq<nat>)
    requires Reaches(ps, p, b) && forall x | x in a :: x in b
    ensures Reaches(ps, p, a)
  {
  }

  lemma MeasuredSubset(ps: seq<Particle>, p: Particle, a: seq<nat>, b: seq<nat>)
    requires Measured(ps, p, b) && forall x | x in a :: x in b
    ensures Measured(ps, p, a)
  {
  }

  lemma DensityTermFrame(p: Particle, o: Particle, p': Particle, o': Particle, h: real)
    requires p.pos == p'.pos && o.pos == o'.pos && o.mass == o'.mass
    requires h != 0.0 && Measurable(Sub(p.pos, o.pos))
    ensures DensityTerm(p, o, h) == DensityTerm(p', o', h)
  {
  }

  /** Step j of a loop over a chunk's references that skips particle i itself. */
lemma OwnStep(own: seq<nat>, i: nat, j: nat)
    requires j < |own|
    ensures forall x | x in Others(own[..j], i) :: x in Others(own, i)
    ensures forall x | x in Others(own[..j + 1], i) :: x in Others(own, i)
    ensures own[j] == i ==> Others(own[..j + 1], i) == Others(own[..j], i)
    ensures own[j] != i ==> Others(own[..j + 1], i) == Others(own[..j], i) + [own[j]]
  {
    OthersStep(own, i, j);
    OthersMembers(own, i);
    OthersMembers(own[..j], i);
    OthersMembers(own[..j + 1], i);
    assert forall x | x in own[..j] :: x in own;
    assert forall x | x in own[..j + 1] :: x in own;
  }

  /** Step j of the own-chunk density loop: what reference j adds to the density sum. */
  lemma OwnDensityStep(ps: seq<Particle>, p: Particle, own: seq<nat>, i: nat, j: nat, h: real, visited: seq<nat>)
    requires j < |own| && h != 0.0 && Measured(ps, p, Others(own, i)) && visited == Others(own[..j], i)
    ensures Measured(ps, p, visited)
    ensures own[j] == i ==> Others(own[..j + 1], i) == visited
    ensures own[j] != i ==> (own[j] < |ps| && Measurable(Sub(p.pos, ps[own[j]].pos)) &&
      Others(own[..j + 1], i) == visited + [own[j]] && Measured(ps, p, visited + [own[j]]) &&
      DensitySum(ps, p, visited + [own[j]], h) == DensitySum(ps, p, visited, h) + DensityTerm(p, ps[own[j]], h))
  {
    OwnStep(own, i, j);
    MeasuredSubset(ps, p, visited, Others(own, i));
    MeasuredSubset(ps, p, Others(own[..j + 1], i), Others(own, i));
    if own[j] != i {
      assert own[j] in Others(own[..j + 1], i);
      DensitySumSnoc(ps, p, visited, own[j], h);
    }
  }

  /** Step j of the own-chunk force loop: what reference j adds to the force sum. */
  lemma OwnForceStep(ps: seq<Particle>, p: Particle, own: seq<nat>, i: nat, j: nat)
    requires j < |own| && Reaches(ps, p, Others(own, i))
    ensures Reaches(ps, p, Others(own[..j], i)) && Reaches(ps, p, Others(own[..j + 1], i))
    ensures own[j] == i ==> Others(own[..j + 1], i) == Others(own[..j], i)
    ensures own[j] != i ==> (own[j] < |ps| && ForceDefined(p.pos, ps[own[j]].pos) &&
      ForceSum(ps, p, Others(own[..j + 1], i)) == Add(ForceSum(ps, p, Others(own[..j], i)), ForceTerm(p, ps[own[j]])))
  {
    OwnStep(own, i, j);
    ReachesSubset(ps, p, Others(own[..j], i), Others(own, i));
    ReachesSubset(ps, p, Others(own[..j + 1], i), Others(own, i));
    if own[j] != i {
      assert own[j] in Others(own[..j + 1], i);
      ForceSumSnoc(ps, p, Others(own[..j], i), own[j]);
    }
  }

  /** Step k of a loop over all of a chunk's references, for the density. */
  lemma PrefixDensityStep(ps: seq<Particle>, p: Particle, refs: seq<nat>, k: nat, h: real)
    requires k < |refs| && h != 0.0 && Measured(ps, p, refs)
    ensures Measured(ps, p, refs[..k]) && Measured(ps, p, refs[..k + 1])
    ensures refs[k] < |ps| && Measurable(Sub(p.pos, ps[refs[k]].pos))
    ensures DensitySum(ps, p, refs[..k + 1], h) == DensitySum(ps, p, refs[..k], h) + DensityTerm(p, ps[refs[k]], h)
  {
    assert refs[..k + 1] == refs[..k] + [refs[k]];
    assert refs[k] in refs;
    MeasuredSubset(ps, p, refs[..k], refs);
    MeasuredSubset(ps, p, refs[..k + 1], refs);
    DensitySumSnoc(ps, p, refs[..k], refs[k], h);
  }

  /** Step k of a loop over all of a chunk's references, for the force. */
  lemma PrefixForceStep(ps: seq<Particle>, p: Particle, refs: seq<nat>, k: nat)
    requires k < |refs| && Reaches(ps, p, refs)
    ensures Reaches(ps, p, refs[..k]) && Reaches(ps, p, refs[..k + 1])
    ensures refs[k] < |ps| && ForceDefined(p.pos, ps[refs[k]].pos)
    ensures ForceSum(ps, p, refs[..k + 1]) == Add(ForceSum(ps, p, refs[..k]), ForceTerm(p, ps[refs[k]]))
  {
    assert refs[..k + 1] == refs[..k] + [refs[k]];
    assert refs[k] in refs;
    ReachesSubset(ps, p, refs[..k], refs);
    ReachesSubset(ps, p, refs[..k + 1], refs);
    ForceSumSnoc(ps, p, refs[..k], refs[k]);
  }

  /** The first loop over the particle's own chunk: every particle the chunk references,
      except particle i itself, adds its contribution to the density of `particle`. */
  method OwnChunkDensity(d: Domain, ghost ps0: seq<Particle>, i: nat, chunk: Chunk, particle: Particle, h: real)
    returns (r: Particle)
    requires ChunkValid(chunk) && i < |ps0| && h != 0.0 && particle.pos == ps0[i].pos
    requires SameBodies(d.particles[..], ps0) && Measured(ps0, ps0[i], Others(Refs(chunk), i))
    ensures r == particle.(density := particle.density + DensitySum(ps0, ps0[i], Others(Refs(chunk), i), h))
  {
    ghost var own := Refs(chunk);
    ghost var visited: seq<nat> := [];
    r := particle;
    for j := 0 to chunk.numParticles
      invariant visited == Others(own[..j], i)
      invariant Measured(ps0, ps0[i], visited)
      invariant r == particle.(density := particle.density + DensitySum(ps0, ps0[i], visited, h))
    {
      OwnDensityStep(ps0, ps0[i], own, i, j, h, visited);
      var other := chunk.particles[j];
      assert other == own[j];
      if other != i {
        DensityTermFrame(r, d.particles[other], ps0[i], ps0[other], h);
        r := UpdateDensity(r, d.particles[other], h);
        visited := visited + [other];
      }
    }
    assert own[..chunk.numParticles] == own;
  }

  /** The inner loop over one adjacent chunk: every particle it references adds its
      contribution to the density of `particle`. */
  method AdjChunkDensity(d: Domain, ghost ps0: seq<Particle>, i: nat, adj: Chunk, particle: Particle, h: real)
    returns (r: Particle)
    requires ChunkValid(adj) && i < |ps0| && h != 0.0 && particle.pos == ps0[i].pos
    requires SameBodies(d.particles[..], ps0) && Measured(ps0, ps0[i], Refs(adj))
    ensures r == particle.(density := particle.density + DensitySum(ps0, ps0[i], Refs(adj), h))
  {
    ghost var refs := Refs(adj);
    r := particle;
    var adjParticles := adj.numParticles;
    for k := 0 to adjParticles
      invariant Measured(ps0, ps0[i], refs[..k])
      invariant r == particle.(density := particle.density + DensitySum(ps0, ps0[i], refs[..k], h))
    {
      PrefixDensityStep(ps0, ps0[i], refs, k, h);
      var other := adj.particles[k];
      assert other == refs[k];
      DensityTermFrame(r, d.particles[other], ps0[i], ps0[other], h);
      r := UpdateDensity(r, d.particles[other], h);
    }
    assert refs[..adjParticles] == refs;
  }

  /** The loop over the 26 adjacency slots of the particle's chunk for the density. */
  method NeighbourDensity(d: Domain, ghost ps0: seq<Particle>, i: nat, adjs: seq<Option<Int3>>, particle: Particle, h: real)
    returns (r: Particle)
    requires d.Valid() && |adjs| == 26 && i < |ps0| && h != 0.0 && particle.pos == ps0[i].pos
    requires forall t | 0 <= t < 26 && adjs[t].Some? :: InGrid(adjs[t].value, d.chunkCounts)
    requires SameBodies(d.particles[..], ps0) && Measured(ps0, ps0[i], SlotRefs(d, adjs, |adjs|))
    ensures r == particle.(density := particle.density + DensitySum(ps0, ps0[i], SlotRefs(d, adjs, |adjs|), h))
  {
    r := particle;
    for j := 0 to 26
      invariant Gathered(particle, r, ps0, ps0[i], SlotRefs(d, adjs, j), h)
    {
      SlotDensityStep(d, ps0, ps0[i], adjs, j, h, particle, r);
      if adjs[j].None? {
        continue;
      }
      var adj := d.chunks[adjs[j].value.x, adjs[j].value.y, adjs[j].value.z];
      r := AdjChunkDensity(d, ps0, i, adj, r, h);
    }
  }

  /** Slot j of an adjacency table: what the chunk it names adds to the visited references. */
lemma SlotStep(d: Domain, adjs: seq<Option<Int3>>, j: nat)
    requires d.Valid() && |adjs| == 26 && j < 26
    requires forall t | 0 <= t < 26 && adjs[t].Some? :: InGrid(adjs[t].value, d.chunkCounts)
    ensures forall x | x in SlotRefs(d, adjs, j) :: x in SlotRefs(d, adjs, |adjs|)
    ensures forall x | x in SlotRefs(d, adjs, j + 1) :: x in SlotRefs(d, adjs, |adjs|)
    ensures adjs[j].None? ==> SlotRefs(d, adjs, j + 1) == SlotRefs(d, adjs, j)
    ensures adjs[j].Some? ==> var c := adjs[j].value;
      d.InChunks(c.x, c.y, c.z) && ChunkValid(d.chunks[c.x, c.y, c.z]) &&
      (forall x | x in Refs(d.chunks[c.x, c.y, c.z]) :: x in SlotRefs(d, adjs, |adjs|)) &&
      SlotRefs(d, adjs, j + 1) == SlotRefs(d, adjs, j) + Refs(d.chunks[c.x, c.y, c.z])
  {
    SlotRefsGrow(d, adjs, j, |adjs|);
    SlotRefsGrow(d, adjs, j + 1, |adjs|);
  }

  /** Particle r is `start` with the contributions of the particles `refs` reference added
      to its density. */
  ghost predicate Gathered(start: Particle, r: Particle, ps: seq<Particle>, p: Particle, refs: seq<nat>, h: real)
  {
    h != 0.0 && Measured(ps, p, refs) && r == start.(density := start.density + DensitySum(ps, p, refs, h))
  }

  /** Slot j of the density's neighbour loop, for a particle `start` before the loop and
      `r` after slot j - 1. */
  lemma SlotDensityStep(d: Domain, ps: seq<Particle>, p: Particle, adjs: seq<Option<Int3>>, j: nat, h: real,
                        start: Particle, r: Particle)
    requires d.Valid() && |adjs| == 26 && j < 26 && h != 0.0
    requires forall t | 0 <= t < 26 && adjs[t].Some? :: InGrid(adjs[t].value, d.chunkCounts)
    requires Measured(ps, p, SlotRefs(d, adjs, |adjs|))
    ensures Measured(ps, p, SlotRefs(d, adjs, j)) && Measured(ps, p, SlotRefs(d, adjs, j + 1))
    ensures adjs[j].None? ==> (Gathered(start, r, ps, p, SlotRefs(d, adjs, j), h) ==>
      Gathered(start, r, ps, p, SlotRefs(d, adjs, j + 1), h))
    ensures adjs[j].Some? ==> var c := adjs[j].value;
      d.InChunks(c.x, c.y, c.z) && ChunkValid(d.chunks[c.x, c.y, c.z]) &&
      Measured(ps, p, Refs(d.chunks[c.x, c.y, c.z])) &&
      (Gathered(start, r, ps, p, SlotRefs(d, adjs, j), h) ==>
        Gathered(start, r.(density := r.density + DensitySum(ps, p, Refs(d.chunks[c.x, c.y, c.z]), h)),
          ps, p, SlotRefs(d, adjs, j + 1), h))
  {
    SlotStep(d, adjs, j);
    MeasuredSubset(ps, p, SlotRefs(d, adjs, j), SlotRefs(d, adjs, |adjs|));
    MeasuredSubset(ps, p, SlotRefs(d, adjs, j + 1), SlotRefs(d, adjs, |adjs|));
    if adjs[j].Some? {
      var c := adjs[j].value;
      MeasuredSubset(ps, p, Refs(d.chunks[c.x, c.y, c.z]), SlotRefs(d, adjs, |adjs|));
      DensitySumConcat(ps, p, SlotRefs(d, adjs, j), Refs(d.chunks[c.x, c.y, c.z]), h);
    }
  }

  /** Slot j of the force's neighbour loop, for a force `acc` before the loop and `sum`
      after slot j - 1. */
  lemma SlotForceStep(d: Domain, ps: seq<Particle>, p: Particle, adjs: seq<Option<Int3>>, j: nat, acc: V3, sum: V3)
    requires d.Valid() && |adjs| == 26 && j < 26
    requires forall t | 0 <= t < 26 && adjs[t].Some? :: InGrid(adjs[t].value, d.chunkCounts)
    requires Reaches(ps, p, SlotRefs(d, adjs, |adjs|))
    ensures Reaches(ps, p, SlotRefs(d, adjs, j)) && Reaches(ps, p, SlotRefs(d, adjs, j + 1))
    ensures adjs[j].None? ==> SlotRefs(d, adjs, j + 1) == SlotRefs(d, adjs, j)
    ensures adjs[j].Some? ==> var c := adjs[j].value;
      d.InChunks(c.x, c.y, c.z) && ChunkValid(d.chunks[c.x, c.y, c.z]) &&
      Reaches(ps, p, Refs(d.chunks[c.x, c.y, c.z])) &&
      (sum == Add(acc, ForceSum(ps, p, SlotRefs(d, adjs, j))) ==>
        Add(sum, ForceSum(ps, p, Refs(d.chunks[c.x, c.y, c.z]))) == Add(acc, ForceSum(ps, p, SlotRefs(d, adjs, j + 1))))
  {
    SlotStep(d, adjs, j);
    ReachesSubset(ps, p, SlotRefs(d, adjs, j), SlotRefs(d, adjs, |adjs|));
    ReachesSubset(ps, p, SlotRefs(d, adjs, j + 1), SlotRefs(d, adjs, |adjs|));
    if adjs[j].Some? {
      var c := adjs[j].value;
      ReachesSubset(ps, p, Refs(d.chunks[c.x, c.y, c.z]), SlotRefs(d, adjs, |adjs|));
      ForceSumConcat(ps, p, SlotRefs(d, adjs, j), Refs(d.chunks[c.x, c.y, c.z]));
    }
  }

  /** The chunk lists of the slots below j are among those of the slots below k. */
  lemma {:induction false} SlotRefsGrow(d: Domain, adjs: seq<Option<Int3>>, j: nat, k: nat)
    requires d.Valid() && |adjs| == 26 && j <= k <= 26
    requires forall t | 0 <= t < 26 && adjs[t].Some? :: InGrid(adjs[t].value, d.chunkCounts)
    ensures forall x | x in SlotRefs(d, adjs, j) :: x in SlotRefs(d, adjs, k)
  {
    if j < k {
      SlotRefsGrow(d, adjs, j, k - 1);
    }
  }

  /** The chunk of a located particle, as the passes look it up. */
  method ChunkOf(d: Domain, pos: V3) returns (chunk: Chunk)
    requires d.Valid() && Located(d, pos)
    ensures var c := CellOf(pos, d.chunkSize);
      chunk == d.chunks[c.x, c.y, c.z] && ChunkValid(chunk) && TableSound(c, d.chunkCounts, chunk.adj)
  {
    var temp := Div(pos, d.chunkSize);
    var chunkX, chunkY, chunkZ := Trunc(temp.x), Trunc(temp.y), Trunc(temp.z);
    chunk := d.chunks[chunkX, chunkY, chunkZ];
  }

  /** One iteration of the density loop of `handlePressure`: reset particle i's density,
      add its neighbours' contributions, then its own. */
  method ParticleDensity(d: Domain, ghost ps0: seq<Particle>, i: nat, h: real)
    requires DensityNeighbourhoods(d, ps0) && SameBodies(d.particles[..], ps0) && i < |ps0| && h != 0.0
    modifies d.particles
    ensures d.particles[..] == old(d.particles[..])[i := old(d.particles[i]).(density := DensityOf(d, ps0, i, h))]
  {
    var particle := d.particles[i].(density := 0.0);
    assert Located(d, ps0[i].pos);
    var chunk := ChunkOf(d, particle.pos);
    DensityOfChunk(d, ps0, i, chunk, h);
    ghost var target := DensityOf(d, ps0, i, h);
    particle := OwnChunkDensity(d, ps0, i, chunk, particle, h);
    particle := NeighbourDensity(d, ps0, i, chunk.adj, particle, h);
    particle := particle.(density := particle.density + particle.mass * SmoothingKernel(0.0, h));
    assert particle.density == target;
    d.particles[i] := particle;
    assert DensityOf(d, ps0, i, h) == target;
  }

  /** The density of particle i split into its own chunk's part, its neighbours' part and
      its own mass. */
  lemma DensityOfChunk(d: Domain, ps: seq<Particle>, i: nat, chunk: Chunk, h: real)
    requires DensityNeighbourhoods(d, ps) && i < |ps| && h != 0.0 && Located(d, ps[i].pos)
    requires var c := CellOf(ps[i].pos, d.chunkSize); chunk == d.chunks[c.x, c.y, c.z]
    ensures |chunk.adj| == 26 && ChunkValid(chunk)
    ensures forall t | 0 <= t < 26 && chunk.adj[t].Some? :: InGrid(chunk.adj[t].value, d.chunkCounts)
    ensures Measured(ps, ps[i], Others(Refs(chunk), i))
    ensures Measured(ps, ps[i], SlotRefs(d, chunk.adj, |chunk.adj|))
    ensures DensityOf(d, ps, i, h) == DensitySum(ps, ps[i], Others(Refs(chunk), i), h) +
      DensitySum(ps, ps[i], SlotRefs(d, chunk.adj, |chunk.adj|), h) + ps[i].mass * SmoothingKernel(0.0, h)
  {
    CandidatesOfChunk(d, ps[i].pos, i, chunk);
    DensityOfSplit(d, ps, i, h, Others(Refs(chunk), i), SlotRefs(d, chunk.adj, |chunk.adj|));
  }

  lemma DensityOfSplit(d: Domain, ps: seq<Particle>, i: nat, h: real, own: seq<nat>, slots: seq<nat>)
    requires DensityNeighbourhoods(d, ps) && i < |ps| && h != 0.0
    requires Candidates(d, ps[i].pos, i) == own + slots
    ensures Measured(ps, ps[i], own) && Measured(ps, ps[i], slots)
    ensures DensityOf(d, ps, i, h) ==
      DensitySum(ps, ps[i], own, h) + DensitySum(ps, ps[i], slots, h) + ps[i].mass * SmoothingKernel(0.0, h)
  {
    var cand := Candidates(d, ps[i].pos, i);
    assert Measured(ps, ps[i], cand);
    MeasuredSubset(ps, ps[i], own, cand);
    MeasuredSubset(ps, ps[i], slots, cand);
    var self := ps[i].mass * SmoothingKernel(0.0, h);
    assert DensityOf(d, ps, i, h) == DensitySum(ps, ps[i], own + slots, h) + self;
    DensitySumConcat(ps, ps[i], own, slots, h);
  }

  /** The density loop of `handlePressure`. */
  method DensityPass(d: Domain, h: real)
    requires DensityNeighbourhoods(d, d.particles[..]) && h != 0.0
    modifies d.particles
    ensures forall k | 0 <= k < d.particles.Length ::
      d.particles[k] == old(d.particles[k]).(density := DensityOf(d, old(d.particles[..]), k, h))
  {
    ghost var ps0 := d.particles[..];
    for i := 0 to d.config.numParticles
      invariant DensityNeighbourhoods(d, ps0) && SameBodies(d.particles[..], ps0)
      invariant forall k | 0 <= k < d.particles.Length ::
        d.particles[k] == if k < i then ps0[k].(density := DensityOf(d, ps0, k, h)) else ps0[k]
    {
      ParticleDensity(d, ps0, i, h);
    }
  }

  /** The pressure loop of `handlePressure`. */
  method PressurePass(d: Domain)
    requires d.Valid()
    modifies d.particles
    ensures forall k | 0 <= k < d.particles.Length ::
      d.particles[k] == old(d.particles[k]).(pressure := PressureOf(old(d.particles[k].density)))
  {
    for i := 0 to d.config.numParticles
      invariant forall k | 0 <= k < d.particles.Length ::
        d.particles[k] == if k < i then old(d.particles[k]).(pressure := PressureOf(old(d.particles[k].density))) else old(d.particles[k])
    {
      var density0 := ReferenceDensity;
      var stiffness := Stiffness;
      var pressure := stiffness * (d.particles[i].density - density0);
      d.particles[i] := d.particles[i].(pressure := pressure);
    }
  }

  /** The body of the inner force loops for one neighbour: its term, or nothing when it is
      not closer than the smoothing length. */
  method AddForceTerm(pressureForce: V3, particle: Particle, other: Particle) returns (r: V3)
    requires ForceDefined(particle.pos, other.pos)
    ensures r == Add(pressureForce, ForceTerm(particle, other))
  {
    var h := SmoothingLength;
    var diff := Sub(particle.pos, other.pos);
    var dist := Len(diff);
    SubZero(particle.pos, other.pos);
    LenZero(diff);
    var q := dist / h;
    r := pressureForce;
    if q >= 0.0 && q < 1.0 {
      var pressure := 0.5 * (particle.pressure + other.pressure) * (1.0 - q);
      var kernel := Mul(diff, 1.0 / dist * SmoothingKernel(dist, h));
      var temp := Mul(kernel, -pressure);
      r := Add(r, temp);
    }
  }

  /** The own-chunk loop of the force pass. */
  method OwnChunkForce(d: Domain, ghost ps1: seq<Particle>, i: nat, chunk: Chunk, acc: V3) returns (pressureForce: V3)
    requires ChunkValid(chunk) && i < |ps1|
    requires SamePressures(d.particles[..], ps1) && Reaches(ps1, ps1[i], Others(Refs(chunk), i))
    ensures pressureForce == Add(acc, ForceSum(ps1, ps1[i], Others(Refs(chunk), i)))
  {
    ghost var own := Refs(chunk);
    var particle := d.particles[i];
    pressureForce := acc;
    for j := 0 to chunk.numParticles
      invariant Reaches(ps1, ps1[i], Others(own[..j], i))
      invariant pressureForce == Add(acc, ForceSum(ps1, ps1[i], Others(own[..j], i)))
    {
      OwnForceStep(ps1, ps1[i], own, i, j);
      var other := chunk.particles[j];
      assert other == own[j];
      if other == i {
        continue;
      }
      ForceTermFrame(particle, d.particles[other], ps1[i], ps1[other]);
      pressureForce := AddForceTerm(pressureForce, particle, d.particles[other]);
    }
    assert own[..chunk.numParticles] == own;
  }

  /** The inner force loop over one adjacent chunk. */
  method AdjChunkForce(d: Domain, ghost ps1: seq<Particle>, i: nat, adj: Chunk, acc: V3) returns (pressureForce: V3)
    requires ChunkValid(adj) && i < |ps1|
    requires SamePressures(d.particles[..], ps1) && Reaches(ps1, ps1[i], Refs(adj))
    ensures pressureForce == Add(acc, ForceSum(ps1, ps1[i], Refs(adj)))
  {
    ghost var refs := Refs(adj);
    var particle := d.particles[i];
    pressureForce := acc;
    var adjParticles := adj.numParticles;
    for k := 0 to adjParticles
      invariant Reaches(ps1, ps1[i], refs[..k])
      invariant pressureForce == Add(acc, ForceSum(ps1, ps1[i], refs[..k]))
    {
      PrefixForceStep(ps1, ps1[i], refs, k);
      var other := adj.particles[k];
      assert other == refs[k];
      ForceTermFrame(particle, d.particles[other], ps1[i], ps1[other]);
      pressureForce := AddForceTerm(pressureForce, particle, d.particles[other]);
    }
    assert refs[..adjParticles] == refs;
  }

  /** The loop over the 26 adjacency slots of the particle's chunk for the force. */
  method NeighbourForce(d: Domain, ghost ps1: seq<Particle>, i: nat, adjs: seq<Option<Int3>>, acc: V3) returns (pressureForce: V3)
    requires d.Valid() && |adjs| == 26 && i < |ps1|
    requires forall t | 0 <= t < 26 && adjs[t].Some? :: InGrid(adjs[t].value, d.chunkCounts)
    requires SamePressures(d.particles[..], ps1) && Reaches(ps1, ps1[i], SlotRefs(d, adjs, |adjs|))
    ensures pressureForce == Add(acc, ForceSum(ps1, ps1[i], SlotRefs(d, adjs, |adjs|)))
  {
    pressureForce := acc;
    for j := 0 to 26
      invariant Reaches(ps1, ps1[i], SlotRefs(d, adjs, j))
      invariant pressureForce == Add(acc, ForceSum(ps1, ps1[i], SlotRefs(d, adjs, j)))
    {
      SlotForceStep(d, ps1, ps1[i], adjs, j, acc, pressureForce);
      if adjs[j].None? {
        continue;
      }
      var adj := d.chunks[adjs[j].value.x, adjs[j].value.y, adjs[j].value.z];
      pressureForce := AdjChunkForce(d, ps1, i, adj, pressureForce);
    }
  }

  /** The `pressureForce` accumulated for particle i in the force loop of `handlePressure`. */
  method NetPressureForce(d: Domain, ghost ps1: seq<Particle>, i: nat) returns (pressureForce: V3)
    requires Neighbourhoods(d, ps1) && SamePressures(d.particles[..], ps1) && i < |ps1|
    ensures pressureForce == ForceOf(d, ps1, i)
  {
    var particle := d.particles[i];
    pressureForce := V3(0.0, 0.0, 0.0);
    var chunk := ChunkOf(d, particle.pos);
    ForceOfChunk(d, ps1, i, chunk);
    pressureForce := OwnChunkForce(d, ps1, i, chunk, pressureForce);
    pressureForce := NeighbourForce(d, ps1, i, chunk.adj, pressureForce);
  }

  /** The force on particle i split into its own chunk's part and its neighbours' part. */
  lemma ForceOfChunk(d: Domain, ps: seq<Particle>, i: nat, chunk: Chunk)
    requires Neighbourhoods(d, ps) && i < |ps| && Located(d, ps[i].pos)
    requires var c := CellOf(ps[i].pos, d.chunkSize); chunk == d.chunks[c.x, c.y, c.z]
    ensures |chunk.adj| == 26 && ChunkValid(chunk)
    ensures forall t | 0 <= t < 26 && chunk.adj[t].Some? :: InGrid(chunk.adj[t].value, d.chunkCounts)
    ensures Reaches(ps, ps[i], Others(Refs(chunk), i))
    ensures Reaches(ps, ps[i], SlotRefs(d, chunk.adj, |chunk.adj|))
    ensures ForceOf(d, ps, i) ==
      Add(ForceSum(ps, ps[i], Others(Refs(chunk), i)), ForceSum(ps, ps[i], SlotRefs(d, chunk.adj, |chunk.adj|)))
  {
    CandidatesOfChunk(d, ps[i].pos, i, chunk);
    ForceOfSplit(d, ps, i, Others(Refs(chunk), i), SlotRefs(d, chunk.adj, |chunk.adj|));
  }

  /** The candidates of a particle are the other members of its chunk followed by the
      members of the chunks its adjacency table names. */
  lemma CandidatesOfChunk(d: Domain, pos: V3, i: nat, chunk: Chunk)
    requires d.Valid() && Located(d, pos)
    requires var c := CellOf(pos, d.chunkSize); chunk == d.chunks[c.x, c.y, c.z]
    ensures |chunk.adj| == 26
    ensures forall t | 0 <= t < 26 && chunk.adj[t].Some? :: InGrid(chunk.adj[t].value, d.chunkCounts)
    ensures Candidates(d, pos, i) == Others(Refs(chunk), i) + SlotRefs(d, chunk.adj, |chunk.adj|)
  {
  }

  lemma ForceOfSplit(d: Domain, ps: seq<Particle>, i: nat, own: seq<nat>, slots: seq<nat>)
    requires Neighbourhoods(d, ps) && i < |ps|
    requires Candidates(d, ps[i].pos, i) == own + slots
    ensures Reaches(ps, ps[i], own) && Reaches(ps, ps[i], slots)
    ensures ForceOf(d, ps, i) == Add(ForceSum(ps, ps[i], own), ForceSum(ps, ps[i], slots))
  {
    var cand := Candidates(d, ps[i].pos, i);
    assert Reaches(ps, ps[i], cand);
    ReachesSubset(ps, ps[i], own, cand);
    ReachesSubset(ps, ps[i], slots, cand);
    assert ForceOf(d, ps, i) == ForceSum(ps, ps[i], own + slots);
    ForceSumConcat(ps, ps[i], own, slots);
  }

  /** The force loop of `handlePressure`. */
  method ForcePass(d: Domain)
    requires Neighbourhoods(d, d.particles[..])
    modifies d.particles
    ensures forall k | 0 <= k < d.particles.Length ::
      d.particles[k] == old(d.particles[k]).(vel := Add(old(d.particles[k].vel), ForceOf(d, old(d.particles[..]), k)))
  {
    ghost var ps1 := d.particles[..];
    for i := 0 to d.config.numParticles
      invariant forall k | 0 <= k < d.particles.Length ::
        d.particles[k] == if k < i then ps1[k].(vel := Add(ps1[k].vel, ForceOf(d, ps1, k))) else ps1[k]
    {
      var pressureForce := NetPressureForce(d, ps1, i);
      d.particles[i] := d.particles[i].(vel := Add(d.particles[i].vel, pressureForce));
    }
  }

  /** `handlePressure`: every particle's density becomes the kernel-weighted mass of its
      neighbourhood (itself included), its pressure follows from that density, and its
      velocity gains the pressure force of its neighbourhood. Positions are untouched. */
  method HandlePressure(d: Domain)
    requires Neighbourhoods(d, d.particles[..])
    modifies d.particles
    ensures Neighbourhoods(d, d.particles[..])
    ensures forall k | 0 <= k < d.particles.Length ::
      var density := DensityOf(d, old(d.particles[..]), k, SmoothingLength);
      d.particles[k] == old(d.particles[k]).(density := density, pressure := PressureOf(density),
        vel := Add(old(d.particles[k].vel), ForceOf(d, d.particles[..], k)))
  {
    ghost var ps0 := d.particles[..];
    DensityPass(d, SmoothingLength);
    PressurePass(d);
    ghost var ps1 := d.particles[..];
    NeighbourhoodsSamePositions(d, ps0, ps1);
    ForcePass(d);
    ghost var ps2 := d.particles[..];
    NeighbourhoodsSamePositions(d, ps1, ps2);
    forall k | 0 <= k < |ps2|
      ensures ForceOf(d, ps1, k) == ForceOf(d, ps2, k)
    {
      ForceSumFrame(ps1, ps2, ps1[k], ps2[k], Candidates(d, ps1[k].pos, k));
    }
  }
}
