/** Addressing of voxels: absolute voxel coordinates, chunk coordinates and
    the local coordinate of a voxel inside its chunk. WorldGenerator packs each
    triple into one long key; here the triple itself is the key, which is the
    same thing under an injective packing. */
module Coords {

  /** Edge length of a chunk, in voxels. */
  const ChunkSize: int := 16

  datatype Coord = Coord(x: int, y: int, z: int)

  function Add(a: Coord, b: Coord): Coord {
    Coord(a.x + b.x, a.y + b.y, a.z + b.z)
  }

  /** Floor division of one axis by the chunk size (Dafny's `/` with a
      positive divisor rounds toward negative infinity). */
  function ChunkAxis(v: int): (c: int)
    ensures ChunkSize * c <= v < ChunkSize * c + ChunkSize
  {
    v / ChunkSize
  }

  /** The chunk that holds voxel `p`. */
  function ChunkOf(p: Coord): Coord {
    Coord(ChunkAxis(p.x), ChunkAxis(p.y), ChunkAxis(p.z))
  }

  /** The absolute coordinate of a chunk's first voxel. */
  function Origin(c: Coord): Coord {
    Coord(ChunkSize * c.x, ChunkSize * c.y, ChunkSize * c.z)
  }

  /** The offset of `p` from the origin of its chunk. */
  function LocalOf(p: Coord): Coord {
    var o := Origin(ChunkOf(p));
    Coord(p.x - o.x, p.y - o.y, p.z - o.z)
  }

  /** A local coordinate lies inside one chunk. */
  predicate InChunk(l: Coord) {
    0 <= l.x < ChunkSize && 0 <= l.y < ChunkSize && 0 <= l.z < ChunkSize
  }

  /** Every voxel is its chunk's origin plus an offset inside the chunk. */
  lemma Decompose(p: Coord)
    ensures InChunk(LocalOf(p))
    ensures Add(Origin(ChunkOf(p)), LocalOf(p)) == p
  {
  }

  /** One axis has exactly one floor decomposition. */
  lemma AxisUnique(v: int, c: int, l: int)
    requires 0 <= l < ChunkSize && ChunkSize * c + l == v
    ensures c == ChunkAxis(v) && l == v - ChunkSize * ChunkAxis(v)
  {
  }

  /** A voxel belongs to exactly one chunk and has exactly one local offset
      in it: any decomposition into a chunk and an in-chunk offset is that of
      ChunkOf and LocalOf. */
  lemma {:induction false} AddressUnique(p: Coord, c: Coord, l: Coord)
    requires InChunk(l) && Add(Origin(c), l) == p
    ensures c == ChunkOf(p) && l == LocalOf(p)
  {
    AxisUnique(p.x, c.x, l.x);
    AxisUnique(p.y, c.y, l.y);
    AxisUnique(p.z, c.z, l.z);
  }

  /** Distinct voxels never share both a chunk and a local key. */
  lemma {:induction false} AddressInjective(p: Coord, q: Coord)
    requires ChunkOf(p) == ChunkOf(q) && LocalOf(p) == LocalOf(q)
    ensures p == q
  {
    Decompose(p);
    Decompose(q);
  }
}
