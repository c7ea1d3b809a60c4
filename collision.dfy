/** `handleCollision`: the impulse exchanged by two touching particles. Particles touch when
    the given centre distance is below the sum of their radii (their `mass` fields). The
    impulse acts along the unit normal from b to a and is only applied while the particles
    approach each other. */
module Collision {
  import opened Vector3
  import opened Containers

  /** The normal from b to a, scaled by the given distance. */
  function Normal(a: Particle, b: Particle, distance: real): V3
    requires distance != 0.0
  {
    Div(Sub(a.pos, b.pos), distance)
  }

  /** The relative velocity of a with respect to b along the normal. */
  function ApproachSpeed(a: Particle, b: Particle, distance: real): real
    requires distance != 0.0
  {
    Dot(Sub(a.vel, b.vel), Normal(a, b, distance))
  }

  /** Touching particles need a non-zero distance, since the normal divides by it. */
  predicate CollisionDefined(a: Particle, b: Particle, distance: real)
  {
    distance < a.mass + b.mass ==> distance != 0.0
  }

  /** The impulse: the normal scaled by the approach speed times the friction factor. */
  function ImpulseOf(a: Particle, b: Particle, distance: real, friction: real): V3
    requires distance != 0.0
  {
    Mul(Normal(a, b, distance), ApproachSpeed(a, b, distance) * friction)
  }

  /** The two particles after `handleCollision`. */
  function Collide(a: Particle, b: Particle, distance: real, friction: real): (Particle, Particle)
    requires CollisionDefined(a, b, distance)
  {
    if distance < a.mass + b.mass && ApproachSpeed(a, b, distance) <= 0.0 then
      var impulseVec := ImpulseOf(a, b, distance, friction);
      (a.(vel := Sub(a.vel, impulseVec)), b.(vel := Add(b.vel, impulseVec)))
    else
      (a, b)
  }

  /** `handleCollision` on particles a and b of the particle array. */
  method HandleCollision(ps: array<Particle>, a: nat, b: nat, distance: real, friction: real)
    requires a < ps.Length && b < ps.Length && a != b
    requires CollisionDefined(ps[a], ps[b], distance)
    modifies ps
    ensures var r := Collide(old(ps[a]), old(ps[b]), distance, friction);
      ps[..] == old(ps[..])[a := r.0][b := r.1]
  {
    var pa, pb := ps[a], ps[b];
    var dif := Sub(pa.pos, pb.pos);
    if distance < pa.mass + pb.mass {
      var normal := Div(dif, distance);
      var relVel := Sub(pa.vel, pb.vel);
      var vDotN := Dot(relVel, normal);
      assert normal == Normal(pa, pb, distance) && vDotN == ApproachSpeed(pa, pb, distance);
      if vDotN > 0.0 {
        assert ps[..] == old(ps[..])[a := pa][b := pb];
        return;
      }
      var impulse := vDotN * friction;
      var impulseVec := Mul(normal, impulse);
      ps[a] := pa.(vel := Sub(pa.vel, impulseVec));
      ps[b] := pb.(vel := Add(pb.vel, impulseVec));
      assert ps[b] == pb.(vel := Add(pb.vel, impulseVec));
      assert ps[a] == pa.(vel := Sub(pa.vel, impulseVec));
      assert Collide(pa, pb, distance, friction).0 == pa.(vel := Sub(pa.vel, impulseVec));
      assert (ps[a], ps[b]) == Collide(pa, pb, distance, friction);
      assert ps[..] == old(ps[..])[a := ps[a]][b := ps[b]];
    } else {
      assert ps[..] == old(ps[..])[a := pa][b := pb];
    }
  }

  /** The impulse is equal and opposite, so the sum of the two velocities is kept. */
  lemma CollisionConservesVelocitySum(a: Particle, b: Particle, distance: real, friction: real)
    requires CollisionDefined(a, b, distance)
    ensures var r := Collide(a, b, distance, friction);
      Add(r.0.vel, r.1.vel) == Add(a.vel, b.vel)
  {
  }

  /** Only velocities change: positions, radii, densities, pressures and colours are kept. */
  lemma CollisionKeepsOtherFields(a: Particle, b: Particle, distance: real, friction: real)
    requires CollisionDefined(a, b, distance)
    ensures var r := Collide(a, b, distance, friction);
      r.0 == a.(vel := r.0.vel) && r.1 == b.(vel := r.1.vel)
  {
  }

  /** Particles that do not touch, or that are already separating, are left as they are. */
  lemma CollisionNeedsApproach(a: Particle, b: Particle, distance: real, friction: real)
    requires CollisionDefined(a, b, distance)
    requires distance >= a.mass + b.mass || ApproachSpeed(a, b, distance) > 0.0
    ensures Collide(a, b, distance, friction) == (a, b)
  {
  }

  /** When the given distance is the true centre distance (the normal has unit length), the
      approach speed after the impulse is the old one scaled by `1 - 2*friction`: friction
      1 reverses it as in an elastic bounce, friction 1/2 brings it to zero. */
  lemma CollisionScalesApproach(a: Particle, b: Particle, distance: real, friction: real)
    requires CollisionDefined(a, b, distance)
    requires distance < a.mass + b.mass && ApproachSpeed(a, b, distance) <= 0.0
    requires distance * distance == Dot(Sub(a.pos, b.pos), Sub(a.pos, b.pos))
    ensures var r := Collide(a, b, distance, friction);
      ApproachSpeed(r.0, r.1, distance) == ApproachSpeed(a, b, distance) * (1.0 - 2.0 * friction)
  {
    var n := Normal(a, b, distance);
    var s := ApproachSpeed(a, b, distance);
    var m := ImpulseOf(a, b, distance, friction);
    UnitLength(Sub(a.pos, b.pos), distance);
    GapAfterImpulse(a.vel, b.vel, m);
    DotSubTwice(Sub(a.vel, b.vel), m, n);
    DotScaledUnit(n, s * friction);
    TwiceScaled(s, friction);
  }

  lemma TwiceScaled(s: real, f: real)
    ensures s - 2.0 * (s * f) == s * (1.0 - 2.0 * f)
  {
  }

  /** Taking m from one velocity and giving it to the other widens their gap by 2m. */
  lemma GapAfterImpulse(u: V3, w: V3, m: V3)
    ensures Sub(Sub(u, m), Add(w, m)) == Sub(Sub(u, w), Add(m, m))
  {
  }

  lemma DotSubTwice(g: V3, m: V3, n: V3)
    ensures Dot(Sub(g, Add(m, m)), n) == Dot(g, n) - 2.0 * Dot(m, n)
  {
  }

  lemma DotScaledUnit(n: V3, k: real)
    requires Dot(n, n) == 1.0
    ensures Dot(Mul(n, k), n) == k
  {
    assert Dot(Mul(n, k), n) == k * Dot(n, n);
  }
}
