/** The spatial grid of the simulation (`chunk.c`): a 3-D lattice of chunks, each holding
    references to the particles whose position falls inside it, a growable reference buffer
    and the 26-slot adjacency table built by `initChunks`.

    A particle reference is an index into the domain's particle array; a chunk's adjacency
    entry is the coordinate triple of the neighbouring chunk, or None for NULL. */
module Chunks {
  import opened Vector3
  import opened Containers
  import opened Adjacency

  /** One chunk. `particles` is the whole reference buffer (`size` entries); only its first
      `numParticles` entries are meaningful. */
  datatype Chunk = Chunk(adj: seq<Option<Int3>>, numParticles: int, size: int, particles: seq<nat>)

  predicate ChunkValid(ch: Chunk)
  {
    |ch.adj| == 26 && 1 <= ch.size && |ch.particles| == ch.size && 0 <= ch.numParticles <= ch.size
  }

  /** The references a chunk currently holds. */
  function Refs(ch: Chunk): seq<nat>
    requires ChunkValid(ch)
  {
    ch.particles[..ch.numParticles]
  }

  // ---------------------------------------------------------------------------
  // Growing a chunk's reference buffer.

  /** The chunk after `resizeParticleChunk`. The upper half of a doubled buffer is
      uninitialised memory in the source; here it holds zeros. */
  function Resized(ch: Chunk): (r: Chunk)
    requires ChunkValid(ch)
    ensures ChunkValid(r) && r.numParticles < r.size
    ensures r.adj == ch.adj && r.numParticles == ch.numParticles && Refs(r) == Refs(ch)
    ensures ch.particles <= r.particles
    ensures ch.numParticles < ch.size ==> r == ch
    ensures ch.numParticles >= ch.size ==> r.size == 2 * ch.size
  {
    if ch.numParticles >= ch.size then
      ch.(particles := ch.particles + seq(ch.size, _ => 0), size := ch.size * 2)
    else
      ch
  }

  /** `resizeParticleChunk` on the chunk stored at (x, y, z). */
  method ResizeParticleChunk(chunks: array3<Chunk>, x: int, y: int, z: int)
    requires 0 <= x < chunks.Length0 && 0 <= y < chunks.Length1 && 0 <= z < chunks.Length2
    requires ChunkValid(chunks[x, y, z])
    modifies chunks
    ensures chunks[x, y, z] == Resized(old(chunks[x, y, z]))
    ensures forall i, j, k | 0 <= i < chunks.Length0 && 0 <= j < chunks.Length1 && 0 <= k < chunks.Length2 &&
      (i, j, k) != (x, y, z) :: chunks[i, j, k] == old(chunks[i, j, k])
  {
    var ch := chunks[x, y, z];
    if ch.numParticles >= ch.size {
      var newSize := ch.size * 2;
      var newParticles := ch.particles + seq(ch.size, _ => 0);
      chunks[x, y, z] := ch.(particles := newParticles, size := newSize);
    }
  }

  /** The chunk after `chunk->particles[chunk->numParticles] = i; chunk->numParticles++`,
      on a chunk with room left: it holds one more reference, i, at its end. */
  function Appended(ch: Chunk, i: nat): (r: Chunk)
    requires ChunkValid(ch) && ch.numParticles < ch.size
    ensures ChunkValid(r) && Refs(r) == Refs(ch) + [i]
    ensures r.adj == ch.adj && r.size == ch.size
  {
    var r := ch.(particles := ch.particles[ch.numParticles := i], numParticles := ch.numParticles + 1);
    assert Refs(r) == Refs(ch) + [i];
    r
  }

  /** Appending a reference to a chunk after `Resized` always fits, keeps every earlier
      reference and the table, and leaves the capacity doubled exactly when the chunk was full. */
  lemma AppendAfterResize(ch: Chunk, i: nat)
    requires ChunkValid(ch)
    ensures var next := Appended(Resized(ch), i);
      Refs(next) == Refs(ch) + [i] && next.adj == ch.adj &&
      next.size == (if ch.numParticles >= ch.size then 2 * ch.size else ch.size)
  {
  }

  // ---------------------------------------------------------------------------
  // Conversions and the lattice dimensions.

  /** C's conversion of a float to int: truncation toward zero. */
  function Trunc(x: real): int
  {
    if x >= 0.0 then x.Floor else -((-x).Floor)
  }

  /** Truncation moves toward zero by less than one. */
  lemma TruncBounds(x: real)
    ensures x >= 0.0 ==> Trunc(x) as real <= x < Trunc(x) as real + 1.0
    ensures x < 0.0 ==> Trunc(x) as real - 1.0 < x <= Trunc(x) as real
  {
  }

  /** `ceil`: the least integer not below x. */
  function Ceil(x: real): (r: int)
    ensures r as real - 1.0 < x <= r as real
  {
    if x.Floor as real == x then x.Floor else x.Floor + 1
  }

  /** The number of chunks along each axis: `ceil(dim / chunkSize)`. */
  function CountsFor(dim: Int3, chunkSize: real): Int3
    requires chunkSize > 0.0
  {
    Int3(Ceil(dim.x as real / chunkSize), Ceil(dim.y as real / chunkSize), Ceil(dim.z as real / chunkSize))
  }

  /** Along one axis the chunks cover the extent exactly: `count` chunks reach at least as
      far as the extent and `count - 1` do not; a positive extent needs at least one chunk. */
  lemma CountCovers(d: int, chunkSize: real)
    requires chunkSize > 0.0
    ensures var n := Ceil(d as real / chunkSize);
      d as real <= n as real * chunkSize && (n - 1) as real * chunkSize < d as real
    ensures d >= 1 ==> Ceil(d as real / chunkSize) >= 1
  {
    var n := Ceil(d as real / chunkSize);
    CeilScaled(d as real, chunkSize, n as real);
    assert (n - 1) as real == n as real - 1.0;
  }

  lemma CeilScaled(a: real, c: real, n: real)
    requires c > 0.0 && n - 1.0 < a / c <= n
    ensures (n - 1.0) * c < a <= n * c
    ensures a > 0.0 ==> n > 0.0
  {
    var q := a / c;
    assert q * c == a;
    MulStrict(n - 1.0, q, c);
    MulMonotone(q, n, c);
    if a > 0.0 && n <= 0.0 {
      MulMonotone(n, 0.0, c);
    }
  }

  lemma MulMonotone(a: real, b: real, c: real)
    requires a <= b && c > 0.0
    ensures a * c <= b * c
  {
    assert b * c - a * c == (b - a) * c;
  }

  lemma MulStrict(a: real, b: real, c: real)
    requires a < b && c > 0.0
    ensures a * c < b * c
  {
    assert b * c - a * c == (b - a) * c;
    PositiveProduct(b - a, c);
  }

  /** The initial capacity of every chunk: `numParticles / (chunksX*chunksY*chunksZ) + 1`.
      It is at least one, and that many slots in every chunk hold all particles. */
  function DefaultStorage(numParticles: nat, counts: Int3): (r: int)
    requires counts.x >= 1 && counts.y >= 1 && counts.z >= 1
    ensures r >= 1 && r * (counts.x * counts.y * counts.z) > numParticles
  {
    var cells := counts.x * counts.y * counts.z;
    assert cells >= 1 by {
      assert counts.x * counts.y >= 1 by { IntProductPositive(counts.x, counts.y); }
      IntProductPositive(counts.x * counts.y, counts.z);
    }
    numParticles / cells + 1
  }

  lemma IntProductPositive(a: int, b: int)
    requires a >= 1 && b >= 1
    ensures a * b >= 1
  {
  }

  // ---------------------------------------------------------------------------
  // Bucketing particles by chunk.

  /** The chunk coordinates of a position: `(int) div3(pos, chunkSize)`. */
  function CellOf(pos: V3, chunkSize: real): Int3
    requires chunkSize > 0.0
  {
    var t := Div(pos, chunkSize);
    Int3(Trunc(t.x), Trunc(t.y), Trunc(t.z))
  }

  /** The position check of `updateChunks`: every coordinate in [0, dim). */
  predicate InDomain(pos: V3, dim: Int3)
  {
    0.0 <= pos.x < dim.x as real && 0.0 <= pos.y < dim.y as real && 0.0 <= pos.z < dim.z as real
  }

  /** A particle that passes both checks of `updateChunks`. */
  predicate Admissible(p: Particle, dim: Int3, chunkSize: real, counts: Int3)
    requires chunkSize > 0.0
  {
    InDomain(p.pos, dim) && InGrid(CellOf(p.pos, chunkSize), counts)
  }

  lemma AdmissibleSnoc(ps: seq<Particle>, i: nat, dim: Int3, chunkSize: real, counts: Int3)
    requires chunkSize > 0.0 && i < |ps|
    requires forall k | 0 <= k < i :: Admissible(ps[k], dim, chunkSize, counts)
    requires Admissible(ps[i], dim, chunkSize, counts)
    ensures forall k | 0 <= k < i + 1 :: Admissible(ps[k], dim, chunkSize, counts)
  {
  }

  /** The indices of the particles of `ps` that lie in chunk c, in increasing order. */
  function Bucket(ps: seq<Particle>, chunkSize: real, c: Int3): (r: seq<nat>)
    requires chunkSize > 0.0
    ensures |r| <= |ps|
  {
    if |ps| == 0 then []
    else
      var last := |ps| - 1;
      Bucket(ps[..last], chunkSize, c) + (if CellOf(ps[last].pos, chunkSize) == c then [last] else [])
  }

  /** A bucket holds exactly the indices of the particles in its chunk, in strictly
      increasing order (so none twice). */
  lemma {:induction false} BucketSpec(ps: seq<Particle>, chunkSize: real, c: Int3)
    requires chunkSize > 0.0
    ensures forall k: nat :: k in Bucket(ps, chunkSize, c) <==> k < |ps| && CellOf(ps[k].pos, chunkSize) == c
    ensures forall m, n | 0 <= m < n < |Bucket(ps, chunkSize, c)| :: Bucket(ps, chunkSize, c)[m] < Bucket(ps, chunkSize, c)[n]
  {
    if |ps| > 0 {
      var last := |ps| - 1;
      var init := ps[..last];
      BucketSpec(init, chunkSize, c);
      var b := Bucket(init, chunkSize, c);
      var tail: seq<nat> := if CellOf(ps[last].pos, chunkSize) == c then [last] else [];
      assert Bucket(ps, chunkSize, c) == b + tail;
      forall k: nat
        ensures k in b + tail <==> k < |ps| && CellOf(ps[k].pos, chunkSize) == c
      {
        if k < last {
          assert ps[k] == init[k];
        }
      }
      forall m | 0 <= m < |b|
        ensures b[m] < last
      {
        assert b[m] in b;
      }
    }
  }

  lemma BucketAppend(ps: seq<Particle>, chunkSize: real, c: Int3, i: nat)
    requires chunkSize > 0.0 && i < |ps|
    ensures Bucket(ps[..i + 1], chunkSize, c) ==
      Bucket(ps[..i], chunkSize, c) + (if CellOf(ps[i].pos, chunkSize) == c then [i] else [])
  {
    assert ps[..i + 1][..i] == ps[..i];
  }

  /** Buckets depend on nothing but the chunk each particle falls in, so rebuilding with
      unchanged positions yields the same chunk contents. */
  lemma {:induction false} BucketDependsOnCells(ps: seq<Particle>, qs: seq<Particle>, chunkSize: real, c: Int3)
    requires chunkSize > 0.0 && |ps| == |qs|
    requires forall k | 0 <= k < |ps| :: CellOf(ps[k].pos, chunkSize) == CellOf(qs[k].pos, chunkSize)
    ensures Bucket(ps, chunkSize, c) == Bucket(qs, chunkSize, c)
  {
    if |ps| > 0 {
      var last := |ps| - 1;
      BucketDependsOnCells(ps[..last], qs[..last], chunkSize, c);
    }
  }

  /** A particle is referenced in exactly one chunk, the one its position falls in, and
      at most once there. */
  lemma ReferencedOnce(ps: seq<Particle>, chunkSize: real, k: nat, c: Int3)
    requires chunkSize > 0.0 && k < |ps|
    ensures k in Bucket(ps, chunkSize, c) <==> c == CellOf(ps[k].pos, chunkSize)
    ensures forall m, n | 0 <= m < n < |Bucket(ps, chunkSize, c)| :: Bucket(ps, chunkSize, c)[m] != Bucket(ps, chunkSize, c)[n]
  {
    BucketSpec(ps, chunkSize, c);
  }

  predicate Distinct(cells: seq<Int3>)
  {
    forall m, n | 0 <= m < n < |cells| :: cells[m] != cells[n]
  }

  /** The total number of references over a list of chunks. */
  function BucketSizes(ps: seq<Particle>, chunkSize: real, cells: seq<Int3>): nat
    requires chunkSize > 0.0
  {
    if |cells| == 0 then 0 else |Bucket(ps, chunkSize, cells[0])| + BucketSizes(ps, chunkSize, cells[1..])
  }

  function Occurrences(cells: seq<Int3>, c: Int3): nat
  {
    if |cells| == 0 then 0 else (if cells[0] == c then 1 else 0) + Occurrences(cells[1..], c)
  }

  lemma {:induction false} OccursOnce(cells: seq<Int3>, c: Int3)
    requires Distinct(cells) && c in cells
    ensures Occurrences(cells, c) == 1
  {
    if cells[0] == c {
      OccursNever(cells[1..], c);
    } else {
      OccursOnce(cells[1..], c);
    }
  }

  lemma {:induction false} OccursNever(cells: seq<Int3>, c: Int3)
    requires c !in cells
    ensures Occurrences(cells, c) == 0
  {
    if |cells| > 0 {
      OccursNever(cells[1..], c);
    }
  }

  lemma {:induction false} SizesStep(ps: seq<Particle>, chunkSize: real, cells: seq<Int3>)
    requires chunkSize > 0.0 && |ps| > 0
    ensures BucketSizes(ps, chunkSize, cells) ==
      BucketSizes(ps[..|ps| - 1], chunkSize, cells) + Occurrences(cells, CellOf(ps[|ps| - 1].pos, chunkSize))
  {
    if |cells| > 0 {
      SizesStep(ps, chunkSize, cells[1..]);
    }
  }

  /** When every particle falls in one of a list of distinct chunks (for instance, all the
      chunks of the grid), the references in those chunks add up to the number of particles. */
  lemma {:induction false} BucketsPartition(ps: seq<Particle>, chunkSize: real, cells: seq<Int3>)
    requires chunkSize > 0.0 && Distinct(cells)
    requires forall k | 0 <= k < |ps| :: CellOf(ps[k].pos, chunkSize) in cells
    ensures BucketSizes(ps, chunkSize, cells) == |ps|
  {
    if |ps| == 0 {
      EmptySizes(chunkSize, cells);
    } else {
      var last := |ps| - 1;
      SizesStep(ps, chunkSize, cells);
      OccursOnce(cells, CellOf(ps[last].pos, chunkSize));
      BucketsPartition(ps[..last], chunkSize, cells);
    }
  }

  lemma {:induction false} EmptySizes(chunkSize: real, cells: seq<Int3>)
    requires chunkSize > 0.0
    ensures BucketSizes([], chunkSize, cells) == 0
  {
    if |cells| > 0 {
      EmptySizes(chunkSize, cells[1..]);
    }
  }

  // ---------------------------------------------------------------------------
  // The chunks of the grid, listed once each.

  /** The cells (x, y, z) with z below nz, in increasing z. */
  function Row(x: int, y: int, nz: int): (r: seq<Int3>)
    decreases nz
  {
    if nz <= 0 then [] else Row(x, y, nz - 1) + [Int3(x, y, nz - 1)]
  }

  /** The cells (x, y, z) with y below ny and z below nz, row by row. */
  function Layer(x: int, ny: int, nz: int): (r: seq<Int3>)
    decreases ny
  {
    if ny <= 0 then [] else Layer(x, ny - 1, nz) + Row(x, ny - 1, nz)
  }

  /** The cells of a grid of the given counts, layer by layer: the order of the loops of
      `initChunks` and `updateChunks`. */
  function Lattice(counts: Int3): (r: seq<Int3>)
  {
    Layers(counts.x, counts.y, counts.z)
  }

  function Layers(nx: int, ny: int, nz: int): (r: seq<Int3>)
    decreases nx
  {
    if nx <= 0 then [] else Layers(nx - 1, ny, nz) + Layer(nx - 1, ny, nz)
  }

  lemma DistinctConcat(a: seq<Int3>, b: seq<Int3>)
    requires Distinct(a) && Distinct(b) && forall c | c in a :: c !in b
    ensures Distinct(a + b)
  {
    forall m, n | 0 <= m < n < |a + b|
      ensures (a + b)[m] != (a + b)[n]
    {
      if m < |a| && n >= |a| {
        assert (a + b)[m] in a && (a + b)[n] == b[n - |a|];
      }
    }
  }

  lemma {:induction false} RowCells(x: int, y: int, nz: int)
    ensures forall c :: c in Row(x, y, nz) <==> c.x == x && c.y == y && 0 <= c.z < nz
    ensures Distinct(Row(x, y, nz))
    decreases nz
  {
    if nz > 0 {
      RowCells(x, y, nz - 1);
      DistinctConcat(Row(x, y, nz - 1), [Int3(x, y, nz - 1)]);
    }
  }

  lemma {:induction false} LayerCells(x: int, ny: int, nz: int)
    ensures forall c :: c in Layer(x, ny, nz) <==> c.x == x && 0 <= c.y < ny && 0 <= c.z < nz
    ensures Distinct(Layer(x, ny, nz))
    decreases ny
  {
    if ny > 0 {
      LayerCells(x, ny - 1, nz);
      RowCells(x, ny - 1, nz);
      DistinctConcat(Layer(x, ny - 1, nz), Row(x, ny - 1, nz));
    }
  }

  lemma {:induction false} LayersCells(nx: int, ny: int, nz: int)
    ensures forall c :: c in Layers(nx, ny, nz) <==> 0 <= c.x < nx && 0 <= c.y < ny && 0 <= c.z < nz
    ensures Distinct(Layers(nx, ny, nz))
    decreases nx
  {
    if nx > 0 {
      LayersCells(nx - 1, ny, nz);
      LayerCells(nx - 1, ny, nz);
      DistinctConcat(Layers(nx - 1, ny, nz), Layer(nx - 1, ny, nz));
    }
  }

  /** The lattice lists every chunk of the grid, and each once. */
  lemma LatticeCells(counts: Int3)
    ensures forall c :: c in Lattice(counts) <==> InGrid(c, counts)
    ensures Distinct(Lattice(counts))
  {
    LayersCells(counts.x, counts.y, counts.z);
  }

  /** Truncating a coordinate in [0, d) by the chunk size gives an index below
      `ceil(d / chunkSize)`. */
  lemma AxisIndexInRange(p: real, d: int, chunkSize: real)
    requires chunkSize > 0.0 && 0.0 <= p < d as real
    ensures 0 <= Trunc(p / chunkSize) < Ceil(d as real / chunkSize)
  {
    TruncBounds(p / chunkSize);
    DivBounds(p, d as real, chunkSize);
  }

  /** Dividing by a positive c keeps 0 <= a < b. */
  lemma DivBounds(a: real, b: real, c: real)
    requires 0.0 <= a < b && c > 0.0
    ensures 0.0 <= a / c < b / c
  {
    assert (a / c) * c == a && (b / c) * c == b;
    assert b / c - a / c == (b - a) / c;
    PositiveProduct(b - a, 1.0 / c);
  }

  /** Over exact arithmetic the position check of `updateChunks` implies its second
      ("double-check") test on the chunk index. */
  lemma PositionCheckImpliesIndexCheck(pos: V3, dim: Int3, chunkSize: real)
    requires chunkSize > 0.0 && InDomain(pos, dim)
    ensures InGrid(CellOf(pos, chunkSize), CountsFor(dim, chunkSize))
  {
    AxisIndexInRange(pos.x, dim.x, chunkSize);
    AxisIndexInRange(pos.y, dim.y, chunkSize);
    AxisIndexInRange(pos.z, dim.z, chunkSize);
  }

  // ---------------------------------------------------------------------------
  // The domain.

  /** How `updateChunks` ended: every particle bucketed, or the exit on the first particle
      whose position is outside the box, or whose computed chunk index is out of range. */
  datatype UpdateStatus = Rebuilt | PositionOutOfBounds(index: nat) | ChunkIndexOutOfBounds(index: nat)

  /** Lexicographic order on chunk coordinates: (x, y, z) is visited before (i, j, k). */
  predicate Earlier(x: int, y: int, z: int, i: int, j: int, k: int)
  {
    x < i || (x == i && (y < j || (y == j && z < k)))
  }

  /** A chunk as the first loops of `initChunks` leave it: no references, the default
      capacity (freshly allocated, modelled as zeros) and an all-NULL table. */
  function EmptyChunk(storage: int): Chunk
    requires storage >= 1
  {
    Chunk(NoNeighbours, 0, storage, seq(storage, _ => 0))
  }

  class Domain {
    const config: Config
    const chunkSize: real
    const chunkCounts: Int3
    const chunks: array3<Chunk>
    const particles: array<Particle>

    predicate InChunks(x: int, y: int, z: int)
    {
      0 <= x < chunks.Length0 && 0 <= y < chunks.Length1 && 0 <= z < chunks.Length2
    }

    /** The lattice matches its counts, every chunk is well formed, references only
        existing particles and holds a sound adjacency table for its coordinates. */
    ghost predicate Valid()
      reads chunks
    {
      chunkSize > 0.0 &&
      chunks.Length0 == chunkCounts.x && chunks.Length1 == chunkCounts.y && chunks.Length2 == chunkCounts.z &&
      particles.Length == config.numParticles &&
      (forall x, y, z | InChunks(x, y, z) ::
        ChunkValid(chunks[x, y, z]) && forall r | r in Refs(chunks[x, y, z]) :: r < particles.Length) &&
      forall x, y, z {:trigger chunks[x, y, z].adj} | InChunks(x, y, z) ::
        TableSound(Int3(x, y, z), chunkCounts, chunks[x, y, z].adj)
    }

    /** `initChunks`. The cube root is not modelled: `chunkSize` is supplied, and it is the
        positive real whose cube is the volume per target chunk. */
    constructor InitChunks(config: Config, particles: array<Particle>, chunkSize: real)
      requires config.dim.x >= 1 && config.dim.y >= 1 && config.dim.z >= 1 && config.targetChunkCount >= 1
      requires chunkSize > 0.0
      requires chunkSize * chunkSize * chunkSize ==
        (config.dim.x * config.dim.y * config.dim.z) as real / config.targetChunkCount as real
      requires particles.Length == config.numParticles
      ensures Valid()
      ensures this.config == config && this.particles == particles && this.chunkSize == chunkSize
      ensures chunkCounts == CountsFor(config.dim, chunkSize)
      ensures forall x, y, z | InChunks(x, y, z) ::
        chunks[x, y, z] == EmptyChunk(DefaultStorage(config.numParticles, chunkCounts)).(adj := AdjTable(Int3(x, y, z), chunkCounts))
      ensures fresh(chunks)
    {
      var counts := CountsFor(config.dim, chunkSize);
      CountCovers(config.dim.x, chunkSize);
      CountCovers(config.dim.y, chunkSize);
      CountCovers(config.dim.z, chunkSize);
      var storage := DefaultStorage(config.numParticles, counts);
      var a := new Chunk[counts.x, counts.y, counts.z];
      FillEmpty(a, storage);
      FillAdjacency(a, storage, counts);
      forall c: Int3
        ensures TableSound(c, counts, AdjTable(c, counts))
      {
        TablesSound(c, counts);
      }
      this.config := config;
      this.chunkSize := chunkSize;
      this.chunkCounts := counts;
      this.chunks := a;
      this.particles := particles;
    }

    /** The outcome of `updateChunks`: on success every particle passed both checks; on
        failure the reported particle is the first to fail, the check it failed is the
        one named; either way the chunks hold exactly the buckets of the particles
        processed before it. */
    ghost predicate Filed(status: UpdateStatus)
      reads chunks, particles
      requires Valid()
    {
      (status.Rebuilt? ==>
        forall k | 0 <= k < particles.Length :: Admissible(particles[k], config.dim, chunkSize, chunkCounts)) &&
      (!status.Rebuilt? ==> (
        status.index < particles.Length &&
        (forall k | 0 <= k < status.index :: Admissible(particles[k], config.dim, chunkSize, chunkCounts)) &&
        (status.PositionOutOfBounds? <==> !InDomain(particles[status.index].pos, config.dim)) &&
        (status.ChunkIndexOutOfBounds? ==> !InGrid(CellOf(particles[status.index].pos, chunkSize), chunkCounts)))) &&
      var done := if status.Rebuilt? then particles.Length else status.index;
      forall x, y, z | InChunks(x, y, z) ::
        Refs(chunks[x, y, z]) == Bucket(particles[..done], chunkSize, Int3(x, y, z))
    }

    /** The number of references the chunks of `cells` hold together. */
    ghost function Held(cells: seq<Int3>): nat
      reads chunks
      requires Valid() && forall c | c in cells :: InGrid(c, chunkCounts)
    {
      if |cells| == 0 then 0
      else
        assert cells[0] in cells && InGrid(cells[0], chunkCounts);
        assert InChunks(cells[0].x, cells[0].y, cells[0].z);
        |Refs(chunks[cells[0].x, cells[0].y, cells[0].z])| + Held(cells[1..])
    }

    lemma {:induction false} HeldBuckets(cells: seq<Int3>, done: nat)
      requires Valid() && forall c | c in cells :: InGrid(c, chunkCounts)
      requires done <= particles.Length
      requires forall x, y, z | InChunks(x, y, z) :: Refs(chunks[x, y, z]) == Bucket(particles[..done], chunkSize, Int3(x, y, z))
      ensures Held(cells) == BucketSizes(particles[..done], chunkSize, cells)
    {
      if |cells| > 0 {
        assert cells[0] in cells;
        HeldBuckets(cells[1..], done);
      }
    }

    /** After `updateChunks` the chunks of the grid hold one reference per particle
        processed: every particle when the rebuild succeeded, the ones before the
        reported particle otherwise. No particle is lost or filed twice. */
    lemma FiledPartition(status: UpdateStatus)
      requires Valid() && Filed(status)
      ensures forall c | c in Lattice(chunkCounts) :: InGrid(c, chunkCounts)
      ensures Held(Lattice(chunkCounts)) == if status.Rebuilt? then particles.Length else status.index
    {
      LatticeCells(chunkCounts);
      var done := if status.Rebuilt? then particles.Length else status.index;
      var ps := particles[..done];
      forall k | 0 <= k < |ps|
        ensures CellOf(ps[k].pos, chunkSize) in Lattice(chunkCounts)
      {
        assert ps[k] == particles[k];
      }
      HeldBuckets(Lattice(chunkCounts), done);
      BucketsPartition(ps, chunkSize, Lattice(chunkCounts));
    }

    /** `updateChunks`: empty every chunk, then append each particle's index to the chunk
        its position falls in, stopping at the first particle that fails a check. The
        chunks then hold exactly the buckets of the particles processed. */
    method UpdateChunks() returns (status: UpdateStatus)
      requires Valid()
      modifies chunks
      ensures Valid()
      ensures Filed(status)
      ensures forall x, y, z | InChunks(x, y, z) :: chunks[x, y, z].adj == old(chunks[x, y, z].adj)
    {
      ClearChunks();
      status := FileParticles();
    }

    /** The particle loop of `updateChunks`, starting from empty chunks. */
    method FileParticles() returns (status: UpdateStatus)
      requires Valid()
      requires forall x, y, z | InChunks(x, y, z) :: Refs(chunks[x, y, z]) == []
      modifies chunks
      ensures Valid()
      ensures Filed(status)
      ensures forall x, y, z | InChunks(x, y, z) :: chunks[x, y, z].adj == old(chunks[x, y, z].adj)
    {
      ghost var ps := particles[..];
      var i := 0;
      while i < config.numParticles
        invariant 0 <= i <= particles.Length
        invariant Valid() && particles[..] == ps
        invariant forall k | 0 <= k < i :: Admissible(ps[k], config.dim, chunkSize, chunkCounts)
        invariant forall x, y, z | InChunks(x, y, z) ::
          Refs(chunks[x, y, z]) == Bucket(ps[..i], chunkSize, Int3(x, y, z))
        invariant forall x, y, z | InChunks(x, y, z) :: chunks[x, y, z].adj == old(chunks[x, y, z].adj)
      {
        var failure, chunkX, chunkY, chunkZ := CheckParticle(i);
        if failure.Some? {
          assert particles[..i] == ps[..i];
          return failure.value;
        }
        assert Admissible(ps[i], config.dim, chunkSize, chunkCounts);
        FileParticle(ps, chunkX, chunkY, chunkZ, i);
        AdmissibleSnoc(ps, i, config.dim, chunkSize, chunkCounts);
        i := i + 1;
      }
      assert particles[..particles.Length] == ps[..i];
      return Rebuilt;
    }

    /** The two checks `updateChunks` makes of particle i before filing it: its position
        lies in the domain, and the chunk it truncates to lies in the lattice. */
    method CheckParticle(i: nat) returns (failure: Option<UpdateStatus>, x: int, y: int, z: int)
      requires Valid() && i < particles.Length
      ensures failure.None? ==> (Admissible(particles[i], config.dim, chunkSize, chunkCounts) &&
        Int3(x, y, z) == CellOf(particles[i].pos, chunkSize) && InChunks(x, y, z))
      ensures failure == Some(PositionOutOfBounds(i)) <==> !InDomain(particles[i].pos, config.dim)
      ensures failure == Some(ChunkIndexOutOfBounds(i)) <==> (InDomain(particles[i].pos, config.dim) &&
        !InGrid(CellOf(particles[i].pos, chunkSize), chunkCounts))
      ensures failure.Some? ==> !failure.value.Rebuilt? && failure.value.index == i
    {
      var dimX, dimY, dimZ := config.dim.x, config.dim.y, config.dim.z;
      var pos := particles[i].pos;
      if pos.x < 0.0 || pos.x >= dimX as real || pos.y < 0.0 || pos.y >= dimY as real ||
         pos.z < 0.0 || pos.z >= dimZ as real {
        return Some(PositionOutOfBounds(i)), 0, 0, 0;
      }
      var temp := Div(pos, chunkSize);
      x, y, z := Trunc(temp.x), Trunc(temp.y), Trunc(temp.z);
      if x < 0 || x >= chunkCounts.x || y < 0 || y >= chunkCounts.y || z < 0 || z >= chunkCounts.z {
        return Some(ChunkIndexOutOfBounds(i)), x, y, z;
      }
      failure := None;
    }

    /** Appending particle i to the chunk it falls in turns the buckets of the first i
        particles into those of the first i + 1. */
    method FileParticle(ghost ps: seq<Particle>, x: int, y: int, z: int, i: nat)
      requires Valid() && particles[..] == ps && i < |ps| && Int3(x, y, z) == CellOf(ps[i].pos, chunkSize)
      requires InChunks(x, y, z)
      requires forall a, b, c | InChunks(a, b, c) ::
        Refs(chunks[a, b, c]) == Bucket(ps[..i], chunkSize, Int3(a, b, c))
      modifies chunks
      ensures Valid()
      ensures forall a, b, c | InChunks(a, b, c) ::
        Refs(chunks[a, b, c]) == Bucket(ps[..i + 1], chunkSize, Int3(a, b, c))
      ensures forall a, b, c | InChunks(a, b, c) :: chunks[a, b, c].adj == old(chunks[a, b, c].adj)
    {
      AddReference(x, y, z, i);
      forall a, b, c | InChunks(a, b, c)
        ensures Refs(chunks[a, b, c]) == Bucket(ps[..i + 1], chunkSize, Int3(a, b, c))
      {
        BucketAppend(ps, chunkSize, Int3(a, b, c), i);
      }
    }

    /** The clearing loops of `updateChunks`: every chunk's count drops to zero, its buffer
        and table are kept. */
    method ClearChunks()
      requires Valid()
      modifies chunks
      ensures Valid()
      ensures forall x, y, z | InChunks(x, y, z) :: chunks[x, y, z] == old(chunks[x, y, z]).(numParticles := 0)
    {
      for i := 0 to chunkCounts.x
        invariant forall x, y, z | InChunks(x, y, z) ::
          chunks[x, y, z] == if x < i then old(chunks[x, y, z]).(numParticles := 0) else old(chunks[x, y, z])
      {
        for j := 0 to chunkCounts.y
          invariant forall x, y, z | InChunks(x, y, z) ::
            chunks[x, y, z] == if Earlier(x, y, 0, i, j, 0) then old(chunks[x, y, z]).(numParticles := 0) else old(chunks[x, y, z])
        {
          for k := 0 to chunkCounts.z
            invariant forall x, y, z | InChunks(x, y, z) ::
              chunks[x, y, z] == if Earlier(x, y, z, i, j, k) then old(chunks[x, y, z]).(numParticles := 0) else old(chunks[x, y, z])
          {
            chunks[i, j, k] := chunks[i, j, k].(numParticles := 0);
          }
        }
      }
    }

    /** One step of the particle loop of `updateChunks`: resize chunk (x, y, z) if it is
        full, then append reference i. */
    method AddReference(x: int, y: int, z: int, i: nat)
      requires Valid() && InChunks(x, y, z) && i < particles.Length
      modifies chunks
      ensures Valid()
      ensures chunks[x, y, z] == Appended(Resized(old(chunks[x, y, z])), i)
      ensures Refs(chunks[x, y, z]) == Refs(old(chunks[x, y, z])) + [i]
      ensures forall a, b, c | InChunks(a, b, c) && (a, b, c) != (x, y, z) :: chunks[a, b, c] == old(chunks[a, b, c])
    {
      ghost var before := chunks[x, y, z];
      ResizeParticleChunk(chunks, x, y, z);
      var chunk := chunks[x, y, z];
      chunks[x, y, z] := chunk.(particles := chunk.particles[chunk.numParticles := i], numParticles := chunk.numParticles + 1);
      AppendAfterResize(before, i);
      assert chunks[x, y, z] == Appended(Resized(before), i);
    }
  }

  /** The first loops of `initChunks`: every chunk starts empty with the default capacity
      and an all-NULL adjacency table. */
  method FillEmpty(a: array3<Chunk>, storage: int)
    requires storage >= 1
    modifies a
    ensures forall x, y, z | 0 <= x < a.Length0 && 0 <= y < a.Length1 && 0 <= z < a.Length2 ::
      a[x, y, z] == EmptyChunk(storage)
  {
    for i := 0 to a.Length0
      invariant forall x, y, z | 0 <= x < a.Length0 && 0 <= y < a.Length1 && 0 <= z < a.Length2 && x < i ::
        a[x, y, z] == EmptyChunk(storage)
    {
      for j := 0 to a.Length1
        invariant forall x, y, z | 0 <= x < a.Length0 && 0 <= y < a.Length1 && 0 <= z < a.Length2 && Earlier(x, y, 0, i, j, 0) ::
          a[x, y, z] == EmptyChunk(storage)
      {
        for k := 0 to a.Length2
          invariant forall x, y, z | 0 <= x < a.Length0 && 0 <= y < a.Length1 && 0 <= z < a.Length2 && Earlier(x, y, z, i, j, k) ::
            a[x, y, z] == EmptyChunk(storage)
        {
          a[i, j, k] := Chunk(NoNeighbours, 0, storage, seq(storage, _ => 0));
        }
      }
    }
  }

  /** Chunk (x, y, z) of the lattice after the adjacency loops have visited the chunks
      before (i, j, k). */
  function AdjacencyStage(storage: int, counts: Int3, x: int, y: int, z: int, i: int, j: int, k: int): Chunk
    requires storage >= 1
  {
    if Earlier(x, y, z, i, j, k) then EmptyChunk(storage).(adj := AdjTable(Int3(x, y, z), counts)) else EmptyChunk(storage)
  }

  /** The adjacency loops of `initChunks`: every chunk gets the table of its coordinates. */
  method FillAdjacency(a: array3<Chunk>, storage: int, counts: Int3)
    requires storage >= 1
    requires a.Length0 == counts.x && a.Length1 == counts.y && a.Length2 == counts.z
    requires forall x, y, z | 0 <= x < a.Length0 && 0 <= y < a.Length1 && 0 <= z < a.Length2 ::
      a[x, y, z] == EmptyChunk(storage)
    modifies a
    ensures forall x, y, z | 0 <= x < a.Length0 && 0 <= y < a.Length1 && 0 <= z < a.Length2 ::
      a[x, y, z] == EmptyChunk(storage).(adj := AdjTable(Int3(x, y, z), counts))
  {
    for i := 0 to counts.x
      invariant forall x, y, z | 0 <= x < a.Length0 && 0 <= y < a.Length1 && 0 <= z < a.Length2 ::
        a[x, y, z] == AdjacencyStage(storage, counts, x, y, z, i, 0, 0)
    {
      for j := 0 to counts.y
        invariant forall x, y, z | 0 <= x < a.Length0 && 0 <= y < a.Length1 && 0 <= z < a.Length2 ::
          a[x, y, z] == AdjacencyStage(storage, counts, x, y, z, i, j, 0)
      {
        AdjacencyRow(a, storage, counts, i, j);
      }
    }
  }

  /** The loop over k of the adjacency loops, for fixed i and j. */
  method AdjacencyRow(a: array3<Chunk>, storage: int, counts: Int3, i: int, j: int)
    requires storage >= 1 && 0 <= i < counts.x && 0 <= j < counts.y
    requires a.Length0 == counts.x && a.Length1 == counts.y && a.Length2 == counts.z
    requires forall x, y, z | 0 <= x < a.Length0 && 0 <= y < a.Length1 && 0 <= z < a.Length2 ::
      a[x, y, z] == AdjacencyStage(storage, counts, x, y, z, i, j, 0)
    modifies a
    ensures forall x, y, z | 0 <= x < a.Length0 && 0 <= y < a.Length1 && 0 <= z < a.Length2 ::
      a[x, y, z] == AdjacencyStage(storage, counts, x, y, z, i, j + 1, 0)
  {
    for k := 0 to counts.z
      invariant forall x, y, z | 0 <= x < a.Length0 && 0 <= y < a.Length1 && 0 <= z < a.Length2 ::
        a[x, y, z] == AdjacencyStage(storage, counts, x, y, z, i, j, k)
    {
      var adj := NeighbourSlots(Int3(i, j, k), counts);
      a[i, j, k] := a[i, j, k].(adj := adj);
    }
  }
}
