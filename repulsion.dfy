/** `handleRepulsion`: overlapping particles push each other apart. The overlap is computed
    from the given distance, while the push direction is the unit vector from b to a, whose
    length `len3(a.pos - b.pos)` is recomputed from the positions. */
module Repulsion {
  import opened Vector3
  import opened Containers

  /** How far the two particles' radii (their `mass` fields) overlap at the given distance. */
  function Overlap(a: Particle, b: Particle, distance: real): real
  {
    a.mass + b.mass - distance
  }

  /** Overlapping particles need a measurable, non-zero centre offset, since the push
      direction divides by its length. */
  ghost predicate RepulsionDefined(a: Particle, b: Particle, distance: real)
  {
    Overlap(a, b, distance) > 0.0 ==> Measurable(Sub(a.pos, b.pos)) && Len(Sub(a.pos, b.pos)) != 0.0
  }

  /** The velocity change of a (b receives its negation). */
  function Push(a: Particle, b: Particle, distance: real, repulsion: real): V3
    requires Overlap(a, b, distance) > 0.0
    requires Measurable(Sub(a.pos, b.pos)) && Len(Sub(a.pos, b.pos)) != 0.0
  {
    var dif := Sub(a.pos, b.pos);
    Mul(Div(dif, Len(dif)), Overlap(a, b, distance) * repulsion)
  }

  /** `Push` from the push's magnitude and direction as `handleRepulsion` computes them. */
  lemma PushUnfolded(a: Particle, b: Particle, distance: real, repulsion: real, force: real, normal: V3)
    requires Overlap(a, b, distance) > 0.0
    requires Measurable(Sub(a.pos, b.pos)) && Len(Sub(a.pos, b.pos)) != 0.0
    requires force == (a.mass + b.mass - distance) * repulsion && normal == Div(Sub(a.pos, b.pos), Len(Sub(a.pos, b.pos)))
    ensures Push(a, b, distance, repulsion) == Mul(normal, force)
  {
  }

  /** The two particles after `handleRepulsion`. */
  function Repel(a: Particle, b: Particle, distance: real, repulsion: real): (Particle, Particle)
    requires RepulsionDefined(a, b, distance)
  {
    if Overlap(a, b, distance) > 0.0 then
      var forceScaled := Push(a, b, distance, repulsion);
      (a.(vel := Add(a.vel, forceScaled)), b.(vel := Sub(b.vel, forceScaled)))
    else
      (a, b)
  }

  /** `handleRepulsion` on particles a and b of the particle array. */
  method HandleRepulsion(ps: array<Particle>, a: nat, b: nat, distance: real, repulsion: real)
    requires a < ps.Length && b < ps.Length && a != b
    requires RepulsionDefined(ps[a], ps[b], distance)
    modifies ps
    ensures var r := Repel(old(ps[a]), old(ps[b]), distance, repulsion);
      ps[..] == old(ps[..])[a := r.0][b := r.1]
  {
    var pa, pb := ps[a], ps[b];
    var overlap := pa.mass + pb.mass - distance;
    if overlap > 0.0 {
      var force := overlap * repulsion;
      var dif := Sub(pa.pos, pb.pos);
      var norm := Len(dif);
      var normal := Div(dif, norm);
      var forceScaled := Mul(normal, force);
      PushUnfolded(pa, pb, distance, repulsion, force, normal);
      ps[a] := pa.(vel := Add(pa.vel, forceScaled));
      ps[b] := pb.(vel := Sub(pb.vel, forceScaled));
    } else {
      assert ps[..] == old(ps[..])[a := pa][b := pb];
    }
  }

  /** The pushes are equal and opposite, so the sum of the two velocities is kept. */
  lemma RepulsionConservesVelocitySum(a: Particle, b: Particle, distance: real, repulsion: real)
    requires RepulsionDefined(a, b, distance)
    ensures var r := Repel(a, b, distance, repulsion);
      Add(r.0.vel, r.1.vel) == Add(a.vel, b.vel)
  {
  }

  /** Only velocities change: positions, radii, densities, pressures and colours are kept;
      without overlap nothing changes at all. */
  lemma RepulsionKeepsOtherFields(a: Particle, b: Particle, distance: real, repulsion: real)
    requires RepulsionDefined(a, b, distance)
    ensures var r := Repel(a, b, distance, repulsion);
      r.0 == a.(vel := r.0.vel) && r.1 == b.(vel := r.1.vel)
    ensures Overlap(a, b, distance) <= 0.0 ==> Repel(a, b, distance, repulsion) == (a, b)
  {
  }

  /** The push has length `overlap * repulsion` whatever the given distance was: its
      direction is a unit vector recomputed from the positions. */
  lemma PushMagnitude(a: Particle, b: Particle, distance: real, repulsion: real)
    requires Overlap(a, b, distance) > 0.0 && repulsion >= 0.0
    requires Measurable(Sub(a.pos, b.pos)) && Len(Sub(a.pos, b.pos)) != 0.0
    ensures var f := Push(a, b, distance, repulsion);
      Dot(f, f) == (Overlap(a, b, distance) * repulsion) * (Overlap(a, b, distance) * repulsion)
  {
    var dif := Sub(a.pos, b.pos);
    var n := Len(dif);
    var s := Overlap(a, b, distance) * repulsion;
    var u := Div(dif, n);
    UnitLength(dif, n);
    assert Dot(Mul(u, s), Mul(u, s)) == Dot(u, u) * (s * s);
  }

  /** With a non-negative repulsion coefficient the push on a points away from b: its dot
      product with `a.pos - b.pos` is `len3(a.pos - b.pos) * overlap * repulsion >= 0`. */
  lemma PushPointsAway(a: Particle, b: Particle, distance: real, repulsion: real)
    requires Overlap(a, b, distance) > 0.0 && repulsion >= 0.0
    requires Measurable(Sub(a.pos, b.pos)) && Len(Sub(a.pos, b.pos)) != 0.0
    ensures Dot(Push(a, b, distance, repulsion), Sub(a.pos, b.pos)) ==
      Len(Sub(a.pos, b.pos)) * (Overlap(a, b, distance) * repulsion)
    ensures Dot(Push(a, b, distance, repulsion), Sub(a.pos, b.pos)) >= 0.0
  {
    var s := Overlap(a, b, distance) * repulsion;
    ScaledDirectionAlong(Sub(a.pos, b.pos), Len(Sub(a.pos, b.pos)), s);
    assert s >= 0.0 by {
      if repulsion > 0.0 {
        PositiveProduct(Overlap(a, b, distance), repulsion);
      }
    }
    NonnegProduct(Len(Sub(a.pos, b.pos)), s);
  }

  /** The unit direction of d scaled by s has dot product `|d| * s` with d. */
  lemma ScaledDirectionAlong(d: V3, n: real, s: real)
    requires n != 0.0 && n * n == Dot(d, d)
    ensures Dot(Mul(Div(d, n), s), d) == n * s
  {
    var k := 1.0 / n;
    assert Div(d, n) == Mul(d, k);
    DotScaled(d, k, s);
    ReciprocalCancel(k, n, s);
  }
}
