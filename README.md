# ParticleSim engine core in Dafny

This project models the simulation engine of ParticleSim, a small particle simulator.
It covers two parts of the engine.

- **The spatial grid** (`chunk.c`). The box is cut into a 3-D lattice of cubic chunks.
  Each chunk holds a growable buffer of particle references and a 26-slot table of
  adjacent chunks. `initChunks` sizes and fills the lattice. `resizeParticleChunk`
  doubles a full buffer. `updateChunks` empties every chunk and files each particle in
  the chunk its position falls in.
- **The per-particle force rules**, over mathematical reals:
  - the vector helpers of `vector3.c`;
  - `checkBoundaries`, which reflects and clamps a particle at the walls, axis by axis;
  - `handleCollision` and `handleRepulsion`, which exchange equal and opposite velocity
    changes between two particles;
  - `smoothingKernel` and the density, pressure and force passes of `handlePressure`.

The model keeps the program's own form:
- The particle store is an `array<Particle>` of records.
- The lattice is an `array3<Chunk>` owned by the `Chunks.Domain` class.
- A chunk's reference buffer is a sequence of particle indices.
- An adjacency slot holds the coordinates of the chunk it points to, or `None`.
- Each loop of the source is a `while` or `for` loop with its invariants, with one
  exception: the loop of `initChunks` that sets the 26 slots of a chunk to NULL
  (chunk.c:63-65) is the constant all-NULL table `NoNeighbours`, stored by `FillEmpty`.
  Each loop is proved against a specification function: `Bucket` for the grid, `AdjTable` for adjacency,
  `DensityOf` and `ForceOf` for the pressure passes. The properties the program relies on
  are then proved about those functions.

Files: `vector3.dfy`, `containers.dfy` (records), `chunk.dfy` and `adjacency.dfy` (grid),
`boundary.dfy`, `collision.dfy`, `repulsion.dfy`, `pressure.dfy`.

## Model

| member | source | states |
|---|---|---|
| Vector3.AddCommutes | src/simulation/math/vector3.c:7-13 | `add3` is commutative |
| Vector3.SubAddCancel | src/simulation/math/vector3.c:7-21 | `sub3(add3(a, b), b) == a` |
| Vector3.MulDivCancel | src/simulation/math/vector3.c:23-37 | `mul3(div3(a, s), s) == a` for every non-zero `s` |
| Vector3.DotSymmetric | src/simulation/math/vector3.c:39-41 | `dot3` is symmetric |
| Vector3.DotSelfNonneg | src/simulation/math/vector3.c:39-41 | `dot3(a, a) >= 0`, with equality exactly for the zero vector |
| Vector3.CrossAntisymmetric | src/simulation/math/vector3.c:43-49 | `cross3(a, b) == -cross3(b, a)` |
| Vector3.CrossOrthogonal | src/simulation/math/vector3.c:43-49 | `cross3(a, b)` is orthogonal to both `a` and `b` |
| Vector3.Sqrt | src/simulation/math/vector3.c:52 | the square root is a non-negative real whose square is the argument |
| Vector3.RootUnique | src/simulation/math/vector3.c:52 | there is only one such root, so the square root is well defined |
| Vector3.SqrtOfSquare | src/simulation/math/vector3.c:52 | the square root of `y*y` is `y` for `y >= 0` |
| Vector3.Len | src/simulation/math/vector3.c:51-53 | `len3(a) >= 0` and `len3(a)^2 == dot3(a, a)` |
| Vector3.LenZero | src/simulation/math/vector3.c:51-53 | `len3(a) == 0` exactly when `a` is the zero vector |
| Vector3.UnitLength | src/simulation/math/vector3.c:31-53 | dividing a vector by its length gives a vector of length one |
| Vector3.LenSubSymmetric | src/simulation/math/vector3.c:15-53 | `len3(a - b) == len3(b - a)` |
| Chunks.Ceil | src/simulation/containers/chunk.c:23-25 | `ceil(x)` is the least integer not below `x` |
| Chunks.TruncBounds | src/simulation/containers/chunk.c:157-159 | supporting lemma: the float-to-int conversion truncates toward zero, moving by less than one |
| Chunks.CountCovers | src/simulation/containers/chunk.c:23-29 | along an axis the `ceil(dim / chunkSize)` chunks reach the box's end and the one before it does not; a box of extent at least 1 gets at least one chunk |
| Chunks.DefaultStorage | src/simulation/containers/chunk.c:31 | the initial capacity is at least 1, and the capacities of all chunks together exceed the particle count |
| Chunks.Domain.InitChunks | src/simulation/containers/chunk.c:8-105 | the counts are `ceil(dim / chunkSize)` per axis; every chunk is empty, has the default capacity and holds the adjacency table of its coordinates |
| Chunks.FillEmpty | src/simulation/containers/chunk.c:43-68 | the allocation loops leave every chunk empty, with the default capacity and an all-NULL table |
| Chunks.FillAdjacency | src/simulation/containers/chunk.c:71-104 | the adjacency loops give each chunk exactly the table `AdjTable` of its coordinates and change nothing else |
| Chunks.AdjacencyRow | src/simulation/containers/chunk.c:73-102 | the loop over k gives every chunk of one row its table and leaves the other rows as they were |
| Adjacency.NeighbourSlots | src/simulation/containers/chunk.c:63-101 | the 26 neighbour steps of one chunk, from the all-NULL table, produce `AdjTable`: each slot holds the last in-grid neighbour written to it in loop order |
| Adjacency.NeighbourRow | src/simulation/containers/chunk.c:79-99 | the loop over nk performs three steps of the table's construction, in loop order |
| Adjacency.TableStep | src/simulation/containers/chunk.c:90-97 | one step writes its in-grid neighbour into its slot, keeping the last-write-wins description of the table |
| Adjacency.LastWriteSound | src/simulation/containers/chunk.c:81-97 | a slot's content is an in-grid chunk at an offset in {-1, 0, 1}^3 that is not the chunk itself, stored at that offset's slot |
| Adjacency.AdjTableSound | src/simulation/containers/chunk.c:63-98 | every non-NULL slot refers to an in-grid, adjacent, different chunk; out-of-range neighbours are never stored; slots 15 to 25 stay NULL |
| Adjacency.TablesSound | src/simulation/containers/chunk.c:63-98 | both the table as written and the one-slot-per-offset table are sound: 26 slots, each NULL or an in-grid adjacent chunk other than the chunk itself |
| Adjacency.SlotShared | src/simulation/containers/chunk.c:97 | two offsets share a slot exactly when their `ni + nj` and their `nk` agree |
| Adjacency.Slot4Holds | src/simulation/containers/chunk.c:77-97 | slot 4 of a chunk with j >= 1 ends holding its neighbour at (0,-1,0), the last write to that slot |
| Adjacency.Slot10Holds | src/simulation/containers/chunk.c:77-97 | slot 10 ends holding the neighbour at (1,0,0) when it is in the grid |
| Adjacency.LowerXNeighbourMissing | src/simulation/containers/chunk.c:77-97 | for i >= 1 and j >= 1 the neighbour at (-1,0,0) is in no slot, since slot 4 is overwritten |
| Adjacency.AdjacencyAsymmetric | src/simulation/containers/chunk.c:77-97 | the stored tables are not symmetric: chunk (i-1,j,k) lists (i,j,k), which does not list it back |
| Adjacency.AsymmetricExample | src/simulation/containers/chunk.c:77-97 | in a 2 x 2 x 1 lattice chunk (0,1,0) lists (1,1,0), but (1,1,0) does not list (0,1,0) |
| Adjacency.IntendedEntrySound | src/simulation/containers/chunk.c:77-98 | with a one-slot-per-offset layout, every non-NULL slot holds an in-grid adjacent chunk other than the chunk itself |
| Adjacency.IntendedTableComplete | src/simulation/containers/chunk.c:77-98 | with a one-slot-per-offset layout, every in-grid neighbour has its own slot and is stored there |
| Adjacency.IntendedTableSymmetric | src/simulation/containers/chunk.c:77-98 | with a one-slot-per-offset layout, n is listed by c exactly when c is listed by n |
| Adjacency.IntendedListsBack | src/simulation/containers/chunk.c:77-98 | with a one-slot-per-offset layout, a listed neighbour lists the chunk back |
| Chunks.Resized | src/simulation/containers/chunk.c:107-122 | a full chunk doubles its capacity; a chunk that is not full is unchanged; either way the held references are kept and afterwards `numParticles < size` |
| Chunks.ResizeParticleChunk | src/simulation/containers/chunk.c:107-122 | the chunk at (x, y, z) becomes `Resized` of itself, and no other chunk changes |
| Chunks.AppendAfterResize | src/simulation/containers/chunk.c:172-175 | appending after a resize fits in the buffer, adds exactly the new reference, keeps every earlier one and the table, and leaves the capacity doubled exactly when the chunk was full |
| Chunks.Domain.ClearChunks | src/simulation/containers/chunk.c:135-141 | every chunk's count drops to zero; its capacity, buffer and table are kept |
| Chunks.Appended | src/simulation/containers/chunk.c:172-173 | storing the index at `numParticles` and incrementing it, on a chunk with room, appends the index and keeps capacity and table |
| Chunks.Domain.AddReference | src/simulation/containers/chunk.c:169-175 | the chunk becomes `Appended(Resized(old chunk), i)`: it gains the reference at its end, its capacity doubles exactly when it was full, its table is kept; no other chunk changes |
| Chunks.Domain.CheckParticle | src/simulation/containers/chunk.c:147-167 | the position check fails exactly when a coordinate is outside `[0, dim)`; the index check fails exactly when the position passes but the truncated index is off the lattice; otherwise the particle's chunk is returned |
| Chunks.Domain.FileParticle | src/simulation/containers/chunk.c:169-175 | filing particle i turns the buckets of the first i particles into those of the first i + 1 |
| Chunks.Domain.FileParticles | src/simulation/containers/chunk.c:144-176 | the particle loop ends with the chunks holding exactly the buckets of the particles processed, stopping at the first particle that fails a check and naming that check |
| Chunks.Domain.UpdateChunks | src/simulation/containers/chunk.c:125-177 | after a rebuild every chunk holds exactly the bucket of its cell; on an error exit the failing particle and its check are reported; every chunk keeps its table |
| Chunks.Bucket | src/simulation/containers/chunk.c:144-175 | a bucket never holds more references than there are particles |
| Chunks.BucketSpec | src/simulation/containers/chunk.c:144-175 | a bucket holds exactly the indices of the particles whose truncated `pos / chunkSize` is its chunk, in strictly increasing order |
| Chunks.BucketAppend | src/simulation/containers/chunk.c:169-175 | filing particle i appends i to the bucket of its chunk only |
| Chunks.ReferencedOnce | src/simulation/containers/chunk.c:144-175 | a particle is referenced in exactly one chunk, the one its position falls in, and no chunk references it twice |
| Chunks.BucketDependsOnCells | src/simulation/containers/chunk.c:144-175 | buckets depend only on each particle's cell, so rebuilding with unchanged positions gives identical chunk contents |
| Chunks.BucketsPartition | src/simulation/containers/chunk.c:135-176 | when every particle falls in one of a list of distinct chunks, the bucket sizes over that list sum to the number of particles |
| Chunks.OccursOnce | src/simulation/containers/chunk.c:135-141 | supporting lemma: a cell of a duplicate-free cell list occurs in it exactly once |
| Chunks.LatticeCells | src/simulation/containers/chunk.c:135-141 | supporting lemma: the lattice list holds every chunk of the grid, each once, as the three loops over i, j and k visit them |
| Chunks.Domain.HeldBuckets | src/simulation/containers/chunk.c:144-175 | supporting lemma: when the chunks hold the buckets of a prefix, their reference counts over a list of cells add up as the bucket sizes do |
| Chunks.Domain.FiledPartition | src/simulation/containers/chunk.c:125-177 | after `updateChunks` the chunks of the whole grid together hold one reference per particle filed: every particle on success, those before the failing particle on an error exit |
| Chunks.AxisIndexInRange | src/simulation/containers/chunk.c:155-164 | a coordinate in `[0, dim)` truncates to an index in `[0, ceil(dim / chunkSize))` |
| Chunks.PositionCheckImpliesIndexCheck | src/simulation/containers/chunk.c:147-167 | over exact arithmetic a position that passes the bounds check also passes the second chunk-index check |
| Boundary.CheckBoundaries | src/simulation/forces/boundary.c:8-46 | only particle i changes, and it becomes `Bounded` of its old value: the predicted position is taken before any write and each axis is reflected and clamped on its own |
| Boundary.LowerWallWins | src/simulation/forces/boundary.c:23-25 | a predicted crossing of the lower wall sets the position to the radius and the velocity to `-friction * v`, whatever the upper test would say |
| Boundary.UpperWall | src/simulation/forces/boundary.c:26-28 | a predicted crossing of only the upper wall sets the position to `dim - mass` and the velocity to `-friction * v` |
| Boundary.InsideUnchanged | src/simulation/forces/boundary.c:23-29 | a predicted position a radius clear of both walls leaves that axis unchanged |
| Boundary.BounceFires | src/simulation/forces/boundary.c:23-29 | whenever a wall test holds, and whenever the rule changes an axis at all, that axis's velocity becomes `-friction * v` |
| Boundary.ClampedInside | src/simulation/forces/boundary.c:23-29 | when the box is at least two radii wide, a clamped position lies a radius inside both walls |
| Boundary.BounceDamps | src/simulation/forces/boundary.c:23-28 | with friction in [0, 1] a bounce never increases the speed along that axis |
| Boundary.BoundedKeepsOtherFields | src/simulation/forces/boundary.c:8-46 | only position and velocity change; mass, density, pressure and colour are kept |
| Boundary.AxesIndependent | src/simulation/forces/boundary.c:23-45 | an axis's new position and velocity depend only on that axis's position, velocity and extent, the mass and the friction |
| Boundary.BoundedInside | src/simulation/forces/boundary.c:10-45 | a particle whose predicted position is a radius clear of every wall is left as it is |
| Boundary.BounceExample | src/simulation/forces/boundary.c:16-45 | a concrete particle bouncing off the lower x wall and the upper y wall of a 100-unit box gets the clamped positions and damped velocities |
| Collision.HandleCollision | src/simulation/forces/collision.c:7-32 | particles a and b become `Collide` of their old values; no other particle changes |
| Collision.CollisionConservesVelocitySum | src/simulation/forces/collision.c:27-30 | `a.vel + b.vel` is unchanged |
| Collision.CollisionKeepsOtherFields | src/simulation/forces/collision.c:7-32 | positions, radii, densities, pressures and colours are kept |
| Collision.CollisionNeedsApproach | src/simulation/forces/collision.c:10-21 | particles that do not touch, or that separate (`vDotN > 0`), are left as they are |
| Collision.CollisionScalesApproach | src/simulation/forces/collision.c:8-30 | when `distance` is the true centre distance, the approach speed along the normal becomes `(1 - 2 * friction)` times what it was |
| Collision.GapAfterImpulse | src/simulation/forces/collision.c:29-30 | supporting lemma: taking the impulse from a and giving it to b widens their velocity gap by twice the impulse |
| Repulsion.HandleRepulsion | src/simulation/forces/repulsion.c:8-25 | particles a and b become `Repel` of their old values; no other particle changes |
| Repulsion.PushUnfolded | src/simulation/forces/repulsion.c:12-20 | supporting lemma: the push is the unit offset `(a.pos - b.pos) / norm` scaled by `overlap * repulsion` |
| Repulsion.RepulsionConservesVelocitySum | src/simulation/forces/repulsion.c:22-23 | `a.vel + b.vel` is unchanged |
| Repulsion.RepulsionKeepsOtherFields | src/simulation/forces/repulsion.c:8-25 | only velocities change, and with no overlap nothing changes |
| Repulsion.PushMagnitude | src/simulation/forces/repulsion.c:12-20 | the push has length `overlap * repulsion`, because `norm` is recomputed from the positions whatever `distance` was passed |
| Repulsion.PushPointsAway | src/simulation/forces/repulsion.c:12-22 | the push on a has dot product `len3(a.pos - b.pos) * overlap * repulsion` with `a.pos - b.pos`, which is non-negative: it pushes a away from b |
| Repulsion.ScaledDirectionAlong | src/simulation/forces/repulsion.c:16-20 | supporting lemma: the unit direction of d scaled by s has dot product `len3(d) * s` with d |
| Pressure.KernelAtZero | src/simulation/forces/pressure.c:10-13 | `smoothingKernel(0, h) == 1` |
| Pressure.KernelVanishes | src/simulation/forces/pressure.c:14-18 | the kernel is 0 when `q >= 2` or `q < 0` |
| Pressure.KernelContinuous | src/simulation/forces/pressure.c:12-15 | both pieces give 1/4 at `q = 1` and the outer piece is 0 at `q = 2`, so the kernel is continuous |
| Pressure.KernelBounds | src/simulation/forces/pressure.c:9-19 | for `dist >= 0` and `h > 0` the kernel lies in [0, 1], and above 1/4 when `q < 1` |
| Pressure.UpdateDensity | src/simulation/forces/pressure.c:21-26 | only a's density changes, by b's kernel-weighted mass, which lies between 0 and b's mass |
| Pressure.DensityTermBounds | src/simulation/forces/pressure.c:25 | one neighbour's share of a density lies between 0 and its mass |
| Pressure.DensitySumNonneg | src/simulation/forces/pressure.c:47-64 | with non-negative masses, neighbours never lower a density |
| Pressure.DensityAtLeastOwnMass | src/simulation/forces/pressure.c:33-68 | with non-negative masses a particle's density is at least its own mass |
| Pressure.LoneParticle | src/simulation/forces/pressure.c:33-134 | a particle with no neighbours gets density equal to its mass and, where the force pass is defined, no pressure force |
| Pressure.OwnChunkDensity | src/simulation/forces/pressure.c:46-52 | the own-chunk loop adds the contributions of the chunk's particles other than the particle itself, in order |
| Pressure.AdjChunkDensity | src/simulation/forces/pressure.c:59-63 | the loop over one adjacent chunk adds the contributions of all its particles |
| Pressure.NeighbourDensity | src/simulation/forces/pressure.c:54-64 | the slot loop adds the contributions of all particles of the non-NULL adjacent chunks, slot by slot |
| Pressure.ParticleDensity | src/simulation/forces/pressure.c:34-67 | particle i's density becomes `DensityOf`: the neighbours' contributions plus `mass * kernel(0, h)`; nothing else changes |
| Pressure.DensityOfChunk | src/simulation/forces/pressure.c:43-64 | the density splits into the own-chunk part, the adjacent chunks' part and the particle's own share |
| Pressure.DensitySumConcat | src/simulation/forces/pressure.c:47-64 | the density gathered over two reference lists in turn is the sum of the two |
| Pressure.DensityPass | src/simulation/forces/pressure.c:33-68 | every particle's density becomes `DensityOf` of the particles before the pass; all other fields are kept |
| Pressure.PressureSign | src/simulation/forces/pressure.c:73-75 | the pressure is positive exactly above the reference density 1, and zero exactly at it |
| Pressure.PressurePass | src/simulation/forces/pressure.c:71-77 | every particle's pressure becomes `1000 * (density - 1)`; all other fields are kept |
| Pressure.PairForceNegated | src/simulation/forces/pressure.c:98-106 | supporting lemma: reversing the offset of a pair reverses its force term |
| Pressure.PairForceAttracts | src/simulation/forces/pressure.c:101-106 | inside the smoothing length, with a positive kernel value and pressure sum, the term points against the offset |
| Pressure.ForceTermOutOfRange | src/simulation/forces/pressure.c:101-102 | only neighbours closer than the smoothing length contribute |
| Pressure.ForceTermAntisymmetric | src/simulation/forces/pressure.c:98-106 | o's term on p is the negation of p's term on o |
| Pressure.ForceTermAttracts | src/simulation/forces/pressure.c:98-106 | with a positive pressure sum, a neighbour closer than the smoothing length contributes a force toward itself |
| Pressure.AddForceTerm | src/simulation/forces/pressure.c:98-107 | one iteration of the inner force loops adds the neighbour's force term to the running force |
| Pressure.OwnChunkForce | src/simulation/forces/pressure.c:93-108 | the own-chunk loop adds the terms of the chunk's particles other than the particle itself |
| Pressure.AdjChunkForce | src/simulation/forces/pressure.c:115-129 | the loop over one adjacent chunk adds the terms of all its particles |
| Pressure.NeighbourForce | src/simulation/forces/pressure.c:110-130 | the slot loop adds the terms of all particles of the non-NULL adjacent chunks |
| Pressure.NetPressureForce | src/simulation/forces/pressure.c:81-130 | the accumulated `pressureForce` is `ForceOf`, the sum of the terms over the particle's neighbourhood |
| Pressure.ForceOfChunk | src/simulation/forces/pressure.c:90-130 | the force splits into the own-chunk part and the adjacent chunks' part |
| Pressure.ForceSumConcat | src/simulation/forces/pressure.c:93-130 | the force gathered over two reference lists in turn is the sum of the two |
| Pressure.ForceSumFrame | src/simulation/forces/pressure.c:93-133 | the force depends only on positions and pressures, so writing velocities earlier in the pass does not change later forces |
| Pressure.ForcePass | src/simulation/forces/pressure.c:80-134 | every particle's velocity gains `ForceOf` of the particles before the pass; all other fields are kept |
| Pressure.NeighbourhoodsSamePositions | src/simulation/forces/pressure.c:37-90 | the chunk lookups depend only on positions, which the passes never write |
| Pressure.HandlePressure | src/simulation/forces/pressure.c:28-135 | every density becomes `DensityOf` with h = 10, the pressure follows from it, the velocity gains the pressure force; positions, masses and colours are kept |

## Left out

- Floating-point rounding: every quantity is a mathematical real. Momentum conservation
  and the kernel identities hold exactly only over the reals.
- The square root of `len3` is a real root chosen by `Sqrt`. Operations that take a length
  require the vector to be `Measurable`, which over the reals always holds but is stated
  rather than proved.
- The cube root of `initChunks` is not computed: `chunkSize` is an input, required to be
  the positive real whose cube is the volume per target chunk.
- Allocation: `malloc` and `realloc` always succeed. The failure exits and the `printf`
  diagnostics are not modelled. The pointer `realloc` returns is not modelled: the buffer is
  a sequence whose prefix is kept and whose new half, left uninitialised by `realloc` and
  never read before it is written, is filled with index 0.
- Pointers: particle references are indices into the particle array, and the
  `other == particle` test compares indices. Adjacency slots hold chunk coordinates.
- Integer widths: `int` is unbounded. Overflow of `chunksX * chunksY * chunksZ` or of the
  doubled capacity is not modelled.
- Chunks.Domain.UpdateChunks: the `exit(1)` on a bad particle becomes a status result,
  leaving the chunks filed up to that particle.
- Chunks.Domain.InitChunks: requires box extents and a target chunk count of at least 1.
  The source divides by the chunk count and does not check it.
- Collision.HandleCollision: requires `a != b` and a non-zero `distance`, because the normal
  divides by it unguarded.
- Repulsion.HandleRepulsion: requires `a != b` and a non-zero `len3(a.pos - b.pos)` on
  overlap, because the normal divides by it unguarded.
- Pressure.HandlePressure: requires that every particle lies in the lattice, because the
  chunk lookup is unchecked. It also requires that neighbours have distinct positions,
  because `1 / dist` is unguarded in the force loop. The density pass and its lemmas
  require only the first (`DensityNeighbourhoods`), since that loop never divides by a
  distance. The passes use whatever sound adjacency tables the chunks store.
- Pressure.UpdateDensity: the value function returns the updated particle. The density
  loops accumulate into a copy of the particle and write it back once. This agrees with
  the source's in-place accumulation, because the loops read only the other particles'
  positions and masses.
- Threading, the draw-buffer copy, the timing loop and random spawning of `start.c` are
  not part of this model, nor are the visualisers, `main.cpp`, `gravity.c` (it does not
  type-check against its headers) and the stale cell grid of `domain.c`.

## Findings

| source | as written | input that shows it | evidently intended | confidence | as-written member | corrected member |
|---|---|---|---|---|---|---|
| src/simulation/containers/chunk.c:97 | the slot is `3*(ni+1) + (nj+1)*3 + (nk+1)`: offsets with the same `ni+nj` and `nk` share a slot, the last write wins, slots 15 to 25 stay NULL | a 2 x 2 x 1 lattice: chunk (0,1,0) lists (1,1,0) in slot 10, but in (1,1,0) slot 4 holds (1,0,0), overwriting (0,1,0) | one slot per offset, e.g. `9*(ni+1) + 3*(nj+1) + (nk+1)` without the centre, so every in-grid neighbour is stored and the tables are symmetric | high, not executed | Adjacency.AdjacencyAsymmetric, Adjacency.AsymmetricExample, Adjacency.LowerXNeighbourMissing | Adjacency.IntendedTableComplete, Adjacency.IntendedTableSymmetric |

`Chunks.Domain.InitChunks` keeps the table as written, since it models what the program
stores. The domain invariant asks of a chunk's table only that it be sound
(`Adjacency.TableSound`), and `Adjacency.TablesSound` proves that of both layouts, so the
contracts of the pressure passes hold under either.
