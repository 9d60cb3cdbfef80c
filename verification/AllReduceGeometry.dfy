/** Launch geometry of the peer-to-peer all-reduce: which work-group handles
    which element of a payload, for the one-shot and the two-shot algorithm. */
module AllReduceGeometry {
  import opened Division

  const BLOCKS: nat := 64
  const WG_SIZE: nat := 256
  const STRIDE: nat := BLOCKS * WG_SIZE

  /** One collective call. Every rank issues the same sequence of these. */
  datatype Call = Call(numel: nat, elemBytes: nat, twoshotMinBytes: nat) {
    predicate TwoShot() {
      numel * elemBytes >= twoshotMinBytes
    }
  }

  function CeilDiv(a: nat, b: nat): nat
    requires b > 0
  {
    (a + b - 1) / b
  }

  function Chunk(numel: nat, world: nat): nat
    requires world > 0
  {
    CeilDiv(numel, world)
  }

  function PerBlock(numel: nat, world: nat): nat
    requires world > 0
  {
    CeilDiv(Chunk(numel, world), BLOCKS)
  }

  function SliceLo(numel: nat, world: nat, owner: nat, block: nat): nat
    requires world > 0
  {
    owner * Chunk(numel, world) + block * PerBlock(numel, world)
  }

  function SliceHi(numel: nat, world: nat, owner: nat, block: nat): nat
    requires world > 0
  {
    var chunk := Chunk(numel, world);
    var within := (block + 1) * PerBlock(numel, world);
    var clipped := if within > chunk then chunk else within;
    var end := owner * chunk + clipped;
    if end < numel then end else numel
  }

  /** Element i lies in the slice that `owner` reduces with work-group `block`. */
  predicate InSlice(numel: nat, world: nat, owner: nat, block: nat, i: nat)
    requires world > 0
  {
    SliceLo(numel, world, owner, block) <= i < SliceHi(numel, world, owner, block)
  }

  /** Element i is one that the one-shot grid-stride loop gives to `block`. */
  predicate InStrided(numel: nat, block: nat, i: nat) {
    i < numel && (i % STRIDE) / WG_SIZE == block
  }

  function OwnerOf(numel: nat, world: nat, i: nat): nat
    requires world > 0
  {
    if i < numel then i / Chunk(numel, world) else 0
  }

  function BlockOf(numel: nat, world: nat, i: nat): nat
    requires world > 0
  {
    if i < numel then (i % Chunk(numel, world)) / PerBlock(numel, world) else 0
  }

  lemma CeilDivBounds(a: nat, b: nat)
    requires b > 0
    ensures a <= CeilDiv(a, b) * b
    ensures a > 0 ==> CeilDiv(a, b) > 0
  {
    var q := CeilDiv(a, b);
    assert a + b - 1 == q * b + (a + b - 1) % b;
  }

  /** The chunks are as short as `world` equal chunks can be, the block slices as short as
      64 equal ones, and no slice is longer. */
  lemma ChunkSizes(numel: nat, world: nat, owner: nat, block: nat)
    requires world > 0
    ensures numel <= Chunk(numel, world) * world < numel + world
    ensures Chunk(numel, world) <= PerBlock(numel, world) * 64 < Chunk(numel, world) + 64
    ensures SliceHi(numel, world, owner, block) <= SliceLo(numel, world, owner, block) + PerBlock(numel, world)
  {
    var chunk, per := Chunk(numel, world), PerBlock(numel, world);
    assert numel + world - 1 == chunk * world + (numel + world - 1) % world;
    assert chunk + BLOCKS - 1 == per * BLOCKS + (chunk + BLOCKS - 1) % BLOCKS;
    MulMono(block, block, per);
  }

  /** Each element lies in the slice that OwnerOf and BlockOf name. */
  lemma SliceCovers(numel: nat, world: nat, i: nat)
    requires world > 0 && i < numel
    ensures OwnerOf(numel, world, i) < world && BlockOf(numel, world, i) < BLOCKS
    ensures InSlice(numel, world, OwnerOf(numel, world, i), BlockOf(numel, world, i), i)
  {
    var chunk, per := Chunk(numel, world), PerBlock(numel, world);
    CeilDivBounds(numel, world);
    CeilDivBounds(chunk, BLOCKS);
    var o, within := i / chunk, i % chunk;
    assert i == o * chunk + within;
    assert world * chunk == chunk * world;
    DivBelow(i, chunk, world);
    DivBelow(within, per, BLOCKS);
    var b := within / per;
    assert within == b * per + within % per;
    MulMono(b, b, per);
  }

  /** No element lies in any other slice. */
  lemma SliceUnique(numel: nat, world: nat, owner: nat, block: nat, i: nat)
    requires world > 0 && InSlice(numel, world, owner, block, i)
    ensures i < numel
    ensures owner == OwnerOf(numel, world, i) && block == BlockOf(numel, world, i)
  {
    var chunk, per := Chunk(numel, world), PerBlock(numel, world);
    MulMono(block, block, per);
    DivUnique(i, chunk, owner);
    DivUnique(i % chunk, per, block);
  }

  /** The two-shot slices are disjoint and cover the payload: for every payload
      length and world size an element lies in the (owner, block) slice exactly when
      OwnerOf and BlockOf name it, and they always name an existing slice. Chunks
      shorter than the block count and a ragged last chunk are included. */
  lemma SlicesPartition(numel: nat, world: nat, i: nat)
    requires world > 0
    ensures i < numel ==> OwnerOf(numel, world, i) < world && BlockOf(numel, world, i) < BLOCKS
    ensures forall owner: nat, block: nat ::
              InSlice(numel, world, owner, block, i) <==>
              (i < numel && owner == OwnerOf(numel, world, i) && block == BlockOf(numel, world, i))
  {
    if i < numel {
      SliceCovers(numel, world, i);
    }
    forall owner: nat, block: nat | InSlice(numel, world, owner, block, i)
      ensures i < numel && owner == OwnerOf(numel, world, i) && block == BlockOf(numel, world, i)
    {
      SliceUnique(numel, world, owner, block, i);
    }
  }

  /** The one-shot grid-stride assignment covers the payload with in-range blocks. */
  lemma StridesCover(numel: nat, i: nat)
    requires i < numel
    ensures (i % STRIDE) / WG_SIZE < BLOCKS
    ensures InStrided(numel, (i % STRIDE) / WG_SIZE, i)
  {
  }
}
