/** Buffer usage flags: a `u32` bit set with single-bit flags and three combinations. */
module BufferUsage {

  type Flags = bv32

  const MAP_READ: Flags := 1
  const MAP_WRITE: Flags := 2
  const COPY_SRC: Flags := 4
  const COPY_DST: Flags := 8
  const INDEX: Flags := 16
  const VERTEX: Flags := 32
  const UNIFORM: Flags := 64
  const STORAGE: Flags := 128
  const STORAGE_READ: Flags := 256
  const INDIRECT: Flags := 512
  const NONE: Flags := 0

  /** Every read-only usage. */
  const READ_ALL: Flags := MAP_READ | COPY_SRC | INDEX | VERTEX | UNIFORM | STORAGE_READ | INDIRECT
  /** Every write-only or read-write usage. */
  const WRITE_ALL: Flags := MAP_WRITE | COPY_DST | STORAGE
  /** Usages the hardware keeps ordered: staying in one of them needs no barrier. */
  const ORDERED: Flags := READ_ALL

  /** The single flags, in declaration order. */
  const SINGLES: seq<Flags> :=
    [MAP_READ, MAP_WRITE, COPY_SRC, COPY_DST, INDEX, VERTEX, UNIFORM, STORAGE, STORAGE_READ, INDIRECT]

  /** `a` holds every bit of `b` (bitflags' `contains`). */
  predicate Contains(a: Flags, b: Flags) {
    a & b == b
  }

  /** `a` and `b` share a bit (bitflags' `intersects`). */
  predicate Intersects(a: Flags, b: Flags) {
    a & b != 0
  }

  lemma ContainsTransitive(a: Flags, b: Flags, c: Flags)
    requires Contains(a, b) && Contains(b, c)
    ensures Contains(a, c)
  {
  }

  lemma UnionContainsBoth(a: Flags, b: Flags)
    ensures Contains(a | b, a) && Contains(a | b, b)
  {
  }

  /** The flags of `a` and of `b` together (bitflags' `|`). */
  function Union(a: Flags, b: Flags): (r: Flags)
    ensures Contains(r, a) && Contains(r, b)
  {
    UnionContainsBoth(a, b);
    a | b
  }

  predicate IsSingleBit(x: Flags) {
    x != 0 && x & (x - 1) == 0
  }

  /** The read and write combinations share no flag, and ORDERED is exactly the read-only set. */
  lemma ReadWriteDisjoint()
    ensures READ_ALL & WRITE_ALL == NONE
    ensures ORDERED == READ_ALL
  {
  }

  /** The single flags are distinct powers of two, and each is either read-only or writing, never both. */
  lemma SinglesArePartitioned()
    ensures forall i :: 0 <= i < |SINGLES| ==> IsSingleBit(SINGLES[i])
    ensures forall i, j :: 0 <= i < j < |SINGLES| ==> SINGLES[i] & SINGLES[j] == 0
    ensures forall i :: 0 <= i < |SINGLES| ==> (Contains(READ_ALL, SINGLES[i]) <==> !Contains(WRITE_ALL, SINGLES[i]))
    ensures READ_ALL | WRITE_ALL == 0x3FF
  {
  }
}

/** Texture usage flags: a `u32` bit set. */
module TextureUsage {

  type Flags = bv32

  const COPY_SRC: Flags := 1
  const COPY_DST: Flags := 2
  const SAMPLED: Flags := 4
  const STORAGE: Flags := 8
  const OUTPUT_ATTACHMENT: Flags := 16
  const NONE: Flags := 0

  const READ_ALL: Flags := COPY_SRC | SAMPLED
  const WRITE_ALL: Flags := COPY_DST | STORAGE | OUTPUT_ATTACHMENT
  /** Output attachments are ordered by the hardware even though they are written. */
  const ORDERED: Flags := READ_ALL | OUTPUT_ATTACHMENT
  /** The state of a texture nobody has used yet: every bit of the low half-word. */
  const UNINITIALIZED: Flags := 0xFFFF

  const SINGLES: seq<Flags> := [COPY_SRC, COPY_DST, SAMPLED, STORAGE, OUTPUT_ATTACHMENT]

  predicate Contains(a: Flags, b: Flags) {
    a & b == b
  }

  lemma ReadWriteDisjoint()
    ensures READ_ALL & WRITE_ALL == NONE
    ensures ORDERED == READ_ALL | OUTPUT_ATTACHMENT
    ensures ORDERED & WRITE_ALL == OUTPUT_ATTACHMENT
  {
  }

  /** UNINITIALIZED holds every defined usage, so it never equals a real usage. */
  lemma UninitializedCoversAll()
    ensures forall i :: 0 <= i < |SINGLES| ==> Contains(UNINITIALIZED, SINGLES[i])
    ensures Contains(UNINITIALIZED, READ_ALL | WRITE_ALL)
    ensures UNINITIALIZED != READ_ALL | WRITE_ALL
  {
  }
}

/** Resource enums: comparison functions, texture placement and the descriptor defaults. */
module Resource {
  import opened Wrappers

  datatype CompareFunction =
    | Never | Less | Equal | LessEqual | Greater | NotEqual | GreaterEqual | Always

  /** `is_trivial`: the comparison ignores its operands. */
  predicate IsTrivial(f: CompareFunction) {
    f == Never || f == Always
  }

  /** What a depth or stencil test with `f` answers for a reference value `a` and a stored value `b`. */
  function Compare(f: CompareFunction, a: int, b: int): bool {
    match f
    case Never => false
    case Less => a < b
    case Equal => a == b
    case LessEqual => a <= b
    case Greater => a > b
    case NotEqual => a != b
    case GreaterEqual => a >= b
    case Always => true
  }

  /** A comparison is trivial exactly when its answer does not depend on the operands. */
  lemma TrivialIffConstant(f: CompareFunction)
    ensures IsTrivial(f) ==> forall a, b :: Compare(f, a, b) == Compare(f, 0, 0)
    ensures !IsTrivial(f) ==> exists a, b :: Compare(f, a, b) != Compare(f, 0, 0)
  {
    match f
    case Less => assert Compare(f, 0, 1) != Compare(f, 0, 0);
    case Equal => assert Compare(f, 0, 1) != Compare(f, 0, 0);
    case LessEqual => assert Compare(f, 1, 0) != Compare(f, 0, 0);
    case Greater => assert Compare(f, 1, 0) != Compare(f, 0, 0);
    case NotEqual => assert Compare(f, 0, 1) != Compare(f, 0, 0);
    case GreaterEqual => assert Compare(f, 0, 1) != Compare(f, 0, 0);
    case Never =>
    case Always =>
  }

  /** A swap-chain link: the swap chain and the image the texture stands for. */
  datatype SwapChainLink = SwapChainLink(swapChainId: nat, imageIndex: nat, epoch: nat)

  /** Where a texture's memory comes from. */
  datatype TexturePlacement = SwapChain(link: SwapChainLink) | Memory(block: nat)

  /** `as_swap_chain`: the link of a swap-chain texture; a texture in memory has none (the source panics). */
  function AsSwapChain(p: TexturePlacement): (r: Option<SwapChainLink>)
    ensures r.Some? <==> p.SwapChain?
    ensures r.Some? ==> p == SwapChain(r.value)
  {
    match p
    case SwapChain(link) => Some(link)
    case Memory(_) => None
  }

  datatype TextureAspect = All | StencilOnly | DepthOnly
  datatype AddressMode = ClampToEdge | Repeat | MirrorRepeat
  datatype FilterMode = Nearest | Linear

  const DEFAULT_TEXTURE_ASPECT: TextureAspect := All
  const DEFAULT_ADDRESS_MODE: AddressMode := ClampToEdge
  const DEFAULT_FILTER_MODE: FilterMode := Nearest
}
