/**
  The integer grid the pipes grow through: unsigned 32-bit coordinates, the six
  axis directions, and the one-cell move along a direction, with the u32
  wrap-around of a release build written out.
 */
module Grid {

  datatype Option<+T> = None | Some(value: T)

  const U32_MAX: int := 0xFFFF_FFFF
  const U32_MODULUS: int := 0x1_0000_0000

  /** An unsigned 32-bit coordinate (`u32`). */
  newtype U32 = c: int | 0 <= c <= 0xFFFF_FFFF

  /** A grid cell `(u32, u32, u32)`. */
  datatype Pos = Pos(x: U32, y: U32, z: U32)

  datatype Axis = AxisX | AxisY | AxisZ

  /** The six unit directions; `NegX` is the source's `_X`, and so on. */
  datatype Direction = X | Y | Z | NegX | NegY | NegZ

  datatype PipeType = I | L

  /** A placed segment: its pipe type, its outgoing direction and its cell. */
  datatype Block = Block(pipeType: PipeType, direction: Direction, position: Pos)

  function AxisOf(d: Direction): Axis {
    match d
    case X | NegX => AxisX
    case Y | NegY => AxisY
    case Z | NegZ => AxisZ
  }

  predicate IsPositive(d: Direction) {
    d == X || d == Y || d == Z
  }

  /** Two directions are perpendicular when their axes differ. */
  predicate Perpendicular(a: Direction, b: Direction) {
    AxisOf(a) != AxisOf(b)
  }

  function Coord(p: Pos, a: Axis): U32 {
    match a
    case AxisX => p.x
    case AxisY => p.y
    case AxisZ => p.z
  }

  /** Every coordinate is at most the bound on its axis (the accepting side of a `>` test). */
  predicate WithinMax(p: Pos, maxX: U32, maxY: U32, maxZ: U32) {
    p.x <= maxX && p.y <= maxY && p.z <= maxZ
  }

  /** Every coordinate lies in `0..max` on its axis, the range a fresh start draws from. */
  predicate InSpawnRange(p: Pos, maxX: U32, maxY: U32, maxZ: U32) {
    p.x < maxX && p.y < maxY && p.z < maxZ
  }

  // ---------------------------------------------------------------------------
  // Direction draws
  // ---------------------------------------------------------------------------

  /** The position of a direction in the declaration order X, Y, Z, _X, _Y, _Z. */
  function DirectionIndex(d: Direction): nat {
    match d
    case X => 0
    case Y => 1
    case Z => 2
    case NegX => 3
    case NegY => 4
    case NegZ => 5
  }

  /**
    `Direction::random`: the draw falls in one of six equal slices of [0, 1);
    `k` is the slice it fell in.
   */
  function RandomDirection(k: nat): (d: Direction)
    requires k < 6
    ensures DirectionIndex(d) == k
  {
    if k == 0 then X
    else if k == 1 then Y
    else if k == 2 then Z
    else if k == 3 then NegX
    else if k == 4 then NegY
    else NegZ
  }

  /** Every direction is the outcome of exactly one slice of the draw. */
  lemma RandomDirectionOnto(d: Direction)
    ensures DirectionIndex(d) < 6 && RandomDirection(DirectionIndex(d)) == d
  {
  }

  /** The option tuple of `Direction::random_perpendicular`, in the source's order. */
  function PerpendicularOptions(d: Direction): seq<Direction> {
    match d
    case X | NegX => [Y, NegY, Z, NegZ]
    case Y | NegY => [X, NegX, Z, NegZ]
    case Z | NegZ => [Y, NegY, X, NegX]
  }

  /**
    `Direction::random_perpendicular`: the draw falls in one of four quarters
    of [0, 1); `k` is the quarter, an index into the option tuple.
   */
  function RandomPerpendicular(d: Direction, k: nat): (r: Direction)
    requires k < 4
    ensures Perpendicular(d, r)
    ensures r != d
  {
    PerpendicularOptions(d)[k]
  }

  /**
    The four options are pairwise distinct and are exactly the directions
    perpendicular to `d`, so every turn is reachable and none is drawn twice.
   */
  lemma PerpendicularOptionsExact(d: Direction, e: Direction)
    ensures |PerpendicularOptions(d)| == 4
    ensures forall i, j :: 0 <= i < j < 4 ==> PerpendicularOptions(d)[i] != PerpendicularOptions(d)[j]
    ensures Perpendicular(d, e) <==> e in PerpendicularOptions(d)
  {
  }

  // ---------------------------------------------------------------------------
  // One step along a direction
  // ---------------------------------------------------------------------------

  /** The signed offset a move along `d` makes on axis `a`: +1, -1 or 0. */
  function Delta(d: Direction, a: Axis): int {
    if AxisOf(d) != a then 0 else if IsPositive(d) then 1 else -1
  }

  /** The move leaves the u32 range: a debug build panics here. */
  predicate Overflows(p: Pos, d: Direction) {
    var v := Coord(p, AxisOf(d)) as int + Delta(d, AxisOf(d));
    v < 0 || v > U32_MAX
  }

  function WrapInc(c: U32): U32 {
    if c == 0xFFFF_FFFF then 0 else c + 1
  }

  function WrapDec(c: U32): U32 {
    if c == 0 then 0xFFFF_FFFF else c - 1
  }

  /**
    The candidate cell of `next_block`: the cell one step along `d`, with u32
    wrap-around as a release build computes it.
   */
  function Advance(p: Pos, d: Direction): (r: Pos)
    ensures r.x as int == (p.x as int + Delta(d, AxisX)) % U32_MODULUS
    ensures r.y as int == (p.y as int + Delta(d, AxisY)) % U32_MODULUS
    ensures r.z as int == (p.z as int + Delta(d, AxisZ)) % U32_MODULUS
    ensures !Overflows(p, d) ==>
      && r.x as int == p.x as int + Delta(d, AxisX)
      && r.y as int == p.y as int + Delta(d, AxisY)
      && r.z as int == p.z as int + Delta(d, AxisZ)
  {
    match d
    case X => Pos(WrapInc(p.x), p.y, p.z)
    case Y => Pos(p.x, WrapInc(p.y), p.z)
    case Z => Pos(p.x, p.y, WrapInc(p.z))
    case NegX => Pos(WrapDec(p.x), p.y, p.z)
    case NegY => Pos(p.x, WrapDec(p.y), p.z)
    case NegZ => Pos(p.x, p.y, WrapDec(p.z))
  }

  /**
    Without overflow the candidate differs from `p` in exactly one coordinate,
    the one on `d`'s axis, and by exactly one, towards `d`.
   */
  lemma AdvanceIsUnitStep(p: Pos, d: Direction, a: Axis)
    requires !Overflows(p, d)
    ensures a == AxisOf(d) ==> Coord(Advance(p, d), a) as int == Coord(p, a) as int + (if IsPositive(d) then 1 else -1)
    ensures a != AxisOf(d) ==> Coord(Advance(p, d), a) == Coord(p, a)
    ensures Advance(p, d) != p
  {
  }

  /**
    From a cell inside bounds that are below `u32::MAX`, only a move in a
    negative direction from coordinate 0 overflows, and the wrapped cell it
    gives (coordinate `u32::MAX`) lies outside the bounds, so a release build
    rejects it.
   */
  lemma OverflowLeavesBounds(p: Pos, d: Direction, maxX: U32, maxY: U32, maxZ: U32)
    requires maxX as int < U32_MAX && maxY as int < U32_MAX && maxZ as int < U32_MAX
    requires WithinMax(p, maxX, maxY, maxZ)
    requires Overflows(p, d)
    ensures !IsPositive(d) && Coord(p, AxisOf(d)) == 0
    ensures Coord(Advance(p, d), AxisOf(d)) as int == U32_MAX
    ensures !WithinMax(Advance(p, d), maxX, maxY, maxZ)
  {
  }
}
