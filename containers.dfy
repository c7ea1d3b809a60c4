/** The records the simulation engine works on: particles, the run configuration and
    integer triples (domain extents, chunk counts and chunk coordinates). */
module Containers {
  import opened Vector3

  datatype Option<T> = None | Some(value: T)

  newtype byte = x: int | 0 <= x < 256

  datatype Color = Color(r: byte, g: byte, b: byte)

  /** One particle. `mass` doubles as the particle's radius in the force rules; `pressure`
      is the field the pressure passes write. */
  datatype Particle = Particle(
    pos: V3,
    vel: V3,
    mass: real,
    density: real,
    pressure: real,
    col: Color)

  datatype Int3 = Int3(x: int, y: int, z: int)

  /** The per-run parameters. `dim` holds the integer box extents. */
  datatype Config = Config(
    dim: Int3,
    friction: real,
    gravity: V3,
    repulsion: real,
    speed: real,
    supsampling: int,
    fps: int,
    numParticles: nat,
    mass: real,
    targetChunkCount: int)
}
