/**
  The orientation resolver: the rotation applied to the canonical straight
  (`I`, along Y) and elbow (`L`, along Y and X) meshes so that a placed block
  points the right way. Rotations are kept symbolic: a rotation is the product,
  left to right, of rotations by a whole number of degrees about a unit axis,
  exactly the `from_axis_angle` factors that `l_instance_at_block`
  multiplies.
 */
module Orientation {
  import opened Grid

  /** `from_axis_angle(unit_<axis>, Deg(degrees))`. */
  datatype Factor = Factor(axis: Axis, degrees: int)

  /** A product of factors, the first factor leftmost. */
  type Rotation = seq<Factor>

  /** A render instance: the block's cell and the rotation of its mesh. */
  datatype Instance = Instance(position: Pos, rotation: Rotation)

  /** The rotation is one of the three straight-pipe rotations. */
  ghost predicate IsStraightRotation(r: Rotation) {
    exists d :: StraightRotation(d) == r
  }

  /** The rotation is an entry of the elbow table. */
  ghost predicate IsElbowRotation(r: Rotation) {
    exists outgoing, incoming :: ElbowRotation(outgoing, incoming) == Some(r)
  }

  /** The angles an elbow may be turned by about its outgoing axis. */
  predicate IsQuarterTurn(deg: int) {
    deg == 0 || deg == 90 || deg == 180 || deg == -90
  }

  // ---------------------------------------------------------------------------
  // Straight pipes
  // ---------------------------------------------------------------------------

  /** The rotation of a straight pipe pointing along `d`. */
  function StraightRotation(d: Direction): (r: Rotation)
    ensures |r| == 1
  {
    match d
    case Y | NegY => [Factor(AxisY, 0)]
    case X | NegX => [Factor(AxisZ, -90)]
    case Z | NegZ => [Factor(AxisX, 90)]
  }

  /**
    A straight pipe is symmetric under flipping its direction: two directions
    give the same rotation exactly when they share an axis, so the six
    directions give three distinct rotations.
   */
  lemma StraightRotationByAxis(d1: Direction, d2: Direction)
    ensures StraightRotation(d1) == StraightRotation(d2) <==> AxisOf(d1) == AxisOf(d2)
  {
  }

  /** The canonical Y-aligned mesh is left unrotated exactly for the Y axis. */
  lemma StraightRotationIdentityOnY(d: Direction)
    ensures StraightRotation(d)[0].degrees == 0 <==> AxisOf(d) == AxisY
  {
  }

  /** `i_instance_at_block`: the instance of a straight block. */
  function IInstanceAt(b: Block): (r: Instance)
    ensures r.position == b.position
    ensures |r.rotation| == 1
  {
    Instance(b.position, StraightRotation(b.direction))
  }

  /**
    A straight instance is determined by the block's cell and the axis of its
    direction, and nothing else.
   */
  lemma StraightInstanceByAxis(b1: Block, b2: Block)
    ensures IInstanceAt(b1) == IInstanceAt(b2) <==>
      b1.position == b2.position && AxisOf(b1.direction) == AxisOf(b2.direction)
  {
    StraightRotationByAxis(b1.direction, b2.direction);
  }

  // ---------------------------------------------------------------------------
  // Elbow pipes
  // ---------------------------------------------------------------------------

  /**
    The angle about the outgoing axis for the pair (outgoing, incoming), where
    incoming is the previous block's direction. `None` is the source's
    `panic!("Invalid direction")`.
   */
  function ElbowAngle(outgoing: Direction, incoming: Direction): (r: Option<int>)
    ensures r.Some? <==> Perpendicular(outgoing, incoming)
    ensures r.Some? ==> IsQuarterTurn(r.value)
  {
    match outgoing
    case X | NegX =>
      (match incoming
       case NegY => Some(0)
       case NegZ => Some(90)
       case Y => Some(180)
       case Z => Some(-90)
       case _ => None)
    case Y | NegY =>
      (match incoming
       case NegX => Some(0)
       case NegZ => Some(-90)
       case X => Some(180)
       case Z => Some(90)
       case _ => None)
    case Z | NegZ =>
      (match incoming
       case NegX => Some(0)
       case NegY => Some(90)
       case X => Some(180)
       case Y => Some(-90)
       case _ => None)
  }

  /** For one outgoing direction, distinct perpendicular incomings get distinct angles. */
  lemma ElbowAnglesDistinct(outgoing: Direction, in1: Direction, in2: Direction)
    requires Perpendicular(outgoing, in1) && Perpendicular(outgoing, in2)
    requires in1 != in2
    ensures ElbowAngle(outgoing, in1) != ElbowAngle(outgoing, in2)
  {
  }

  /**
    For one outgoing direction, every quarter turn is the angle of some
    perpendicular incoming direction: with ElbowAnglesDistinct, the four
    perpendicular incomings map one-to-one onto {0, 90, 180, -90}.
   */
  lemma ElbowAnglesCoverQuarterTurns(outgoing: Direction, deg: int)
    requires IsQuarterTurn(deg)
    ensures exists incoming :: Perpendicular(outgoing, incoming) && ElbowAngle(outgoing, incoming) == Some(deg)
  {
    var opts := PerpendicularOptions(outgoing);
    var incoming :|
      incoming in opts && ElbowAngle(outgoing, incoming) == Some(deg);
    PerpendicularOptionsExact(outgoing, incoming);
  }

  /**
    The fixed rotation that first aligns the canonical elbow with the outgoing
    direction, before the turn about the outgoing axis.
   */
  function ElbowBase(outgoing: Direction): Rotation {
    match outgoing
    case X => []
    case NegX => [Factor(AxisZ, 90)]
    case Y => []
    case NegY => [Factor(AxisX, 180)]
    case Z => [Factor(AxisX, 90)]
    case NegZ => [Factor(AxisX, -90)]
  }

  /**
    The rotation of an elbow block (the table of `l_instance_at_block`):
    defined exactly on perpendicular pairs, and then the base of the outgoing
    direction followed by a quarter turn about the outgoing axis.
   */
  function ElbowRotation(outgoing: Direction, incoming: Direction): (r: Option<Rotation>)
    ensures r.Some? <==> Perpendicular(outgoing, incoming)
    ensures r.Some? ==>
      && |r.value| == |ElbowBase(outgoing)| + 1
      && r.value[..|r.value| - 1] == ElbowBase(outgoing)
      && r.value[|r.value| - 1].axis == AxisOf(outgoing)
      && IsQuarterTurn(r.value[|r.value| - 1].degrees)
  {
    match ElbowAngle(outgoing, incoming)
    case None => None
    case Some(deg) => Some(ElbowBase(outgoing) + [Factor(AxisOf(outgoing), deg)])
  }

  /**
    For one outgoing direction, the four perpendicular incoming directions give
    four different elbow rotations: the same base followed by four different
    quarter turns about the same axis.
   */
  lemma ElbowRotationDistinctIncoming(outgoing: Direction, in1: Direction, in2: Direction)
    requires Perpendicular(outgoing, in1) && Perpendicular(outgoing, in2)
    requires in1 != in2
    ensures ElbowRotation(outgoing, in1) != ElbowRotation(outgoing, in2)
  {
  }

  /**
    The turn drawn by `random_perpendicular` always has an entry in the elbow
    table, so the panic of the table is unreachable from a turn.
   */
  lemma TurnHasElbowRotation(previous: Direction, k: nat)
    requires k < 4
    ensures ElbowRotation(RandomPerpendicular(previous, k), previous).Some?
  {
  }
}
