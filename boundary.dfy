/** `checkBoundaries`: keeping a particle inside the box. Each axis is handled on its own:
    if the predicted position `pos + vel`, widened by the particle's radius (its `mass`),
    would leave the box, the velocity component is reversed and scaled by the friction
    factor and the position is clamped to one radius from the wall. The lower wall is
    checked first. */
module Boundary {
  import opened Vector3
  import opened Containers

  /** The pair (position, velocity) of one axis after the rule, from that axis's position
      `p`, velocity `v`, the particle's radius, the box extent `dim` and the friction. */
  function Bounce(p: real, v: real, mass: real, dim: int, friction: real): (real, real)
  {
    var next := p + v;
    if next - mass < 0.0 then (mass, v * -friction)
    else if next + mass >= dim as real then (dim as real - mass, v * -friction)
    else (p, v)
  }

  /** The particle after `checkBoundaries`. */
  function Bounded(pt: Particle, dim: Int3, friction: real): Particle
  {
    var x := Bounce(pt.pos.x, pt.vel.x, pt.mass, dim.x, friction);
    var y := Bounce(pt.pos.y, pt.vel.y, pt.mass, dim.y, friction);
    var z := Bounce(pt.pos.z, pt.vel.z, pt.mass, dim.z, friction);
    pt.(pos := V3(x.0, y.0, z.0), vel := V3(x.1, y.1, z.1))
  }

  /** `checkBoundaries` on particle i of the particle array; the domain is read only for
      its extents and friction. */
  method CheckBoundaries(ps: array<Particle>, i: nat, config: Config)
    requires i < ps.Length
    modifies ps
    ensures ps[..] == old(ps[..])[i := Bounded(old(ps[i]), config.dim, config.friction)]
  {
    var particle := ps[i];
    var newPos := Add(particle.pos, particle.vel);
    var newPosX, newPosY, newPosZ := newPos.x, newPos.y, newPos.z;
    var dimX, dimY, dimZ := config.dim.x, config.dim.y, config.dim.z;
    var friction := config.friction;
    ghost var start := particle;
    ghost var onX := Bounce(start.pos.x, start.vel.x, start.mass, dimX, friction);
    ghost var onY := Bounce(start.pos.y, start.vel.y, start.mass, dimY, friction);
    ghost var onZ := Bounce(start.pos.z, start.vel.z, start.mass, dimZ, friction);

    if newPosX - particle.mass < 0.0 {
      particle := particle.(vel := particle.vel.(x := particle.vel.x * -friction));
      particle := particle.(pos := particle.pos.(x := particle.mass));
    } else if newPosX + particle.mass >= dimX as real {
      particle := particle.(vel := particle.vel.(x := particle.vel.x * -friction));
      particle := particle.(pos := particle.pos.(x := dimX as real - particle.mass));
    }
    assert particle == start.(pos := start.pos.(x := onX.0), vel := start.vel.(x := onX.1));

    if newPosY - particle.mass < 0.0 {
      particle := particle.(vel := particle.vel.(y := particle.vel.y * -friction));
      particle := particle.(pos := particle.pos.(y := particle.mass));
    } else if newPosY + particle.mass >= dimY as real {
      particle := particle.(vel := particle.vel.(y := particle.vel.y * -friction));
      particle := particle.(pos := particle.pos.(y := dimY as real - particle.mass));
    }
    assert particle == start.(pos := start.pos.(x := onX.0, y := onY.0), vel := start.vel.(x := onX.1, y := onY.1));

    if newPosZ - particle.mass < 0.0 {
      particle := particle.(vel := particle.vel.(z := particle.vel.z * -friction));
      particle := particle.(pos := particle.pos.(z := particle.mass));
    } else if newPosZ + particle.mass >= dimZ as real {
      particle := particle.(vel := particle.vel.(z := particle.vel.z * -friction));
      particle := particle.(pos := particle.pos.(z := dimZ as real - particle.mass));
    }
    assert particle == Bounded(old(ps[i]), config.dim, friction);
    ps[i] := particle;
  }

  // ---------------------------------------------------------------------------
  // Properties of one axis.

  /** A predicted crossing of the lower wall clamps the position to one radius from it and
      reflects the velocity scaled by friction; this wins even when the upper wall would
      be crossed too. */
  lemma LowerWallWins(p: real, v: real, mass: real, dim: int, friction: real)
    requires p + v - mass < 0.0
    ensures Bounce(p, v, mass, dim, friction) == (mass, -(friction * v))
  {
  }

  /** A predicted crossing of the upper wall alone clamps to one radius below it. */
  lemma UpperWall(p: real, v: real, mass: real, dim: int, friction: real)
    requires p + v - mass >= 0.0 && p + v + mass >= dim as real
    ensures Bounce(p, v, mass, dim, friction) == (dim as real - mass, -(friction * v))
  {
  }

  /** When the predicted position stays a radius clear of both walls, nothing changes. */
  lemma InsideUnchanged(p: real, v: real, mass: real, dim: int, friction: real)
    requires mass <= p + v < dim as real - mass
    ensures Bounce(p, v, mass, dim, friction) == (p, v)
  {
  }

  /** The rule fires exactly when the predicted position comes within a radius of a wall,
      and then the velocity component is reversed and scaled by the friction factor. */
  lemma BounceFires(p: real, v: real, mass: real, dim: int, friction: real)
    ensures var r := Bounce(p, v, mass, dim, friction);
      (r != (p, v) ==> r.1 == -(friction * v)) &&
      (p + v - mass < 0.0 || p + v + mass >= dim as real ==> r.1 == -(friction * v))
  {
  }

  /** With a non-negative radius and a box at least two radii wide, a clamped position
      lies a radius clear of both walls. */
  lemma ClampedInside(p: real, v: real, mass: real, dim: int, friction: real)
    requires 0.0 <= mass && 2.0 * mass <= dim as real
    requires p + v - mass < 0.0 || p + v + mass >= dim as real
    ensures mass <= Bounce(p, v, mass, dim, friction).0 <= dim as real - mass
  {
  }

  /** With friction in [0, 1] a bounce never speeds the particle up along that axis. */
  lemma BounceDamps(p: real, v: real, mass: real, dim: int, friction: real)
    requires 0.0 <= friction <= 1.0
    ensures var w := Bounce(p, v, mass, dim, friction).1;
      -(if v < 0.0 then -v else v) <= w <= (if v < 0.0 then -v else v)
  {
    var w := Bounce(p, v, mass, dim, friction).1;
    if w != v {
      assert w == -(friction * v);
      if v >= 0.0 {
        MulLe(friction, v);
      } else {
        MulLe(friction, -v);
      }
    }
  }

  lemma MulLe(f: real, a: real)
    requires 0.0 <= f <= 1.0 && a >= 0.0
    ensures 0.0 <= f * a <= a
  {
    assert a - f * a == (1.0 - f) * a;
  }

  // ---------------------------------------------------------------------------
  // Properties of the whole rule.

  /** Only position and velocity change: mass, density, pressure and colour are kept. */
  lemma BoundedKeepsOtherFields(pt: Particle, dim: Int3, friction: real)
    ensures var r := Bounded(pt, dim, friction);
      r.mass == pt.mass && r.density == pt.density && r.pressure == pt.pressure && r.col == pt.col
  {
  }

  /** The axes are independent: an axis's new position and velocity depend only on that
      axis's position, velocity and extent, the radius and the friction. */
  lemma AxesIndependent(a: Particle, b: Particle, dim: Int3, dim': Int3, friction: real)
    requires a.mass == b.mass
    requires a.pos.x == b.pos.x && a.vel.x == b.vel.x && dim.x == dim'.x
    ensures Bounded(a, dim, friction).pos.x == Bounded(b, dim', friction).pos.x
    ensures Bounded(a, dim, friction).vel.x == Bounded(b, dim', friction).vel.x
  {
  }

  /** A particle whose predicted position is a radius clear of every wall is left as it is. */
  lemma BoundedInside(pt: Particle, dim: Int3, friction: real)
    requires var n := Add(pt.pos, pt.vel);
      pt.mass <= n.x < dim.x as real - pt.mass &&
      pt.mass <= n.y < dim.y as real - pt.mass &&
      pt.mass <= n.z < dim.z as real - pt.mass
    ensures Bounded(pt, dim, friction) == pt
  {
    InsideUnchanged(pt.pos.x, pt.vel.x, pt.mass, dim.x, friction);
    InsideUnchanged(pt.pos.y, pt.vel.y, pt.mass, dim.y, friction);
    InsideUnchanged(pt.pos.z, pt.vel.z, pt.mass, dim.z, friction);
  }

  /** A concrete bounce off the lower x wall and the upper y wall of a 100 x 100 x 100 box. */
  lemma BounceExample()
    ensures Bounded(Particle(V3(1.0, 97.0, 50.0), V3(-3.0, 2.0, 0.0), 1.0, 0.0, 0.0, Color(0, 0, 0)),
                    Int3(100, 100, 100), 0.5)
      == Particle(V3(1.0, 99.0, 50.0), V3(1.5, -1.0, 0.0), 1.0, 0.0, 0.0, Color(0, 0, 0))
  {
  }
}
