/**
  The pipe-growth engine: a `World` keeps the occupied cells, the last placed
  block and the two instance streams (straight and elbow) handed to the
  renderer, and `AddPipe` grows the network by one block per call.

  The random draws the engine makes are parameters here (`Draws`): the stop
  coin, the turn coin, the quarter drawn by `random_perpendicular`, the sixth
  drawn by `Direction::random`, and the cells that `random_block` draws in
  turn until one is free.
 */
module Engine {
  import opened Grid
  import opened Orientation

  /** Whether u32 overflow panics (a debug build) or wraps (a release build). */
  datatype Build = Debug | Release

  /** The four ways a step can choose its block. */
  datatype Path = FreshStart | Continue | Turn | BlockedRestart

  /**
    The result of one step. `NoFreeCandidate`: every supplied candidate cell was
    occupied, so the resampling loop would go on drawing beyond the supplied
    draws. `Panicked`: the step panicked before changing anything.
   */
  datatype Outcome = Placed(block: Block, path: Path) | NoFreeCandidate | Panicked

  /** The random draws one call of `add_pipe` may consume. */
  datatype Draws = Draws(
    stop: bool,           // rand < stop_probability
    turn: bool,           // rand < turn_probability
    perpendicular: nat,   // quarter of [0, 1) drawn by random_perpendicular
    direction: nat,       // sixth of [0, 1) drawn by Direction::random
    candidates: seq<Pos>  // successive cells drawn by random_block
  )

  /** What the random source guarantees of its draws, for a world of the given bounds. */
  predicate WellFormed(draws: Draws, maxX: U32, maxY: U32, maxZ: U32) {
    && draws.perpendicular < 4
    && draws.direction < 6
    && forall k :: 0 <= k < |draws.candidates| ==> InSpawnRange(draws.candidates[k], maxX, maxY, maxZ)
  }

  class World {
    const maxX: U32
    const maxY: U32
    const maxZ: U32

    var iInstances: seq<Instance>
    var lInstances: seq<Instance>
    var occupied: set<Pos>
    var last: Option<Block>

    /**
      The object invariant: the bounds leave room below `u32::MAX`, the last
      block's cell is occupied, every instance sits on an occupied cell and
      carries a rotation from its table.
     */
    ghost predicate Valid()
      reads this
    {
      && maxX as int < U32_MAX && maxY as int < U32_MAX && maxZ as int < U32_MAX
      && (last.Some? ==> last.value.position in occupied)
      && (forall k :: 0 <= k < |iInstances| ==>
            iInstances[k].position in occupied && IsStraightRotation(iInstances[k].rotation))
      && (forall k :: 0 <= k < |lInstances| ==>
            lInstances[k].position in occupied && IsElbowRotation(lInstances[k].rotation))
    }

    /** The cell passes the bound test of `is_position_valid` (which accepts `max` itself). */
    predicate InWorld(p: Pos) {
      WithinMax(p, maxX, maxY, maxZ)
    }

    predicate AllInWorld()
      reads this
    {
      forall p :: p in occupied ==> InWorld(p)
    }

    /** `World::new`: a 10 x 8 x 8 world with nothing placed. */
    constructor ()
      ensures Valid()
      ensures maxX == 10 && maxY == 8 && maxZ == 8
      ensures iInstances == [] && lInstances == [] && occupied == {} && last == None
    {
      maxX, maxY, maxZ := 10, 8, 8;
      iInstances, lInstances := [], [];
      occupied := {};
      last := None;
    }

    /** `get_I_pipe_instances`: the straight-pipe stream, in placement order. */
    function IPipeInstances(): (r: seq<Instance>)
      reads this
      requires Valid()
      ensures r == iInstances
      ensures forall k :: 0 <= k < |r| ==> r[k].position in occupied && IsStraightRotation(r[k].rotation)
    {
      iInstances
    }

    /** `get_L_pipe_instances`: the elbow-pipe stream, in placement order. */
    function LPipeInstances(): (r: seq<Instance>)
      reads this
      requires Valid()
      ensures r == lInstances
      ensures forall k :: 0 <= k < |r| ==> r[k].position in occupied && IsElbowRotation(r[k].rotation)
    {
      lInstances
    }

    /**
      `is_position_valid`: the cell is within the bounds and free, so placing a
      block there adds exactly one occupied cell.
     */
    function IsPositionValid(p: Pos): (r: bool)
      reads this
      ensures r <==> InWorld(p) && p !in occupied
      ensures r ==> |occupied + {p}| == |occupied| + 1
    {
      !(p.x > maxX || p.y > maxY || p.z > maxZ || p in occupied)
    }

    /** The `k`-th candidate is the first free one. */
    ghost predicate FirstFreeAt(candidates: seq<Pos>, k: int)
      reads this
    {
      && 0 <= k < |candidates|
      && candidates[k] !in occupied
      && forall j :: 0 <= j < k ==> candidates[j] in occupied
    }

    ghost predicate NoneFree(candidates: seq<Pos>)
      reads this
    {
      forall k :: 0 <= k < |candidates| ==> candidates[k] in occupied
    }

    /** The block `random_block` returns for these draws. */
    ghost predicate IsFreshBlock(b: Block, candidates: seq<Pos>, direction: nat)
      reads this
      requires direction < 6
    {
      && b.pipeType == I
      && b.direction == RandomDirection(direction)
      && exists k :: FirstFreeAt(candidates, k) && b.position == candidates[k]
    }

    /**
      `random_block`: a straight block with a random direction at the first
      drawn cell that is free. Runs out only when every drawn cell is occupied.
     */
    method RandomBlock(candidates: seq<Pos>, direction: nat) returns (r: Option<Block>)
      requires direction < 6
      requires forall k :: 0 <= k < |candidates| ==> InSpawnRange(candidates[k], maxX, maxY, maxZ)
      ensures r.None? <==> NoneFree(candidates)
      ensures r.Some? ==> IsFreshBlock(r.value, candidates, direction)
      ensures r.Some? ==> r.value.position !in occupied && InSpawnRange(r.value.position, maxX, maxY, maxZ)
    {
      var i := 0;
      while i < |candidates|
        invariant 0 <= i <= |candidates|
        invariant forall j :: 0 <= j < i ==> candidates[j] in occupied
      {
        if candidates[i] !in occupied {
          assert FirstFreeAt(candidates, i);
          return Some(Block(I, RandomDirection(direction), candidates[i]));
        }
        i := i + 1;
      }
      return None;
    }

    /**
      `next_block`: one step along the last block's direction. On a valid cell
      the turn coin picks an elbow with a perpendicular direction or a straight
      pipe with the same direction; on an invalid cell the step restarts at a
      random block.
     */
    method NextBlock(draws: Draws, build: Build) returns (r: Outcome)
      requires last.Some?
      requires WellFormed(draws, maxX, maxY, maxZ)
      ensures r.Panicked? <==> build == Debug && Overflows(last.value.position, last.value.direction)
      ensures r.Placed? ==> r.path != FreshStart
      ensures r.Placed? ==> (r.block.pipeType == L <==> r.path == Turn)
      ensures !r.Panicked? ==>
        (IsPositionValid(Advance(last.value.position, last.value.direction)) <==>
           r.Placed? && (r.path == Continue || r.path == Turn))
      ensures r.Placed? && r.path == Continue ==>
        !draws.turn && r.block == Block(I, last.value.direction, Advance(last.value.position, last.value.direction))
      ensures r.Placed? && r.path == Turn ==>
        && draws.turn
        && r.block.position == Advance(last.value.position, last.value.direction)
        && r.block.direction == RandomPerpendicular(last.value.direction, draws.perpendicular)
        && Perpendicular(r.block.direction, last.value.direction)
      ensures r.Placed? && r.path == BlockedRestart ==> IsFreshBlock(r.block, draws.candidates, draws.direction)
      ensures r.NoFreeCandidate? ==> NoneFree(draws.candidates)
    {
      var prev := last.value;
      if build == Debug && Overflows(prev.position, prev.direction) {
        return Panicked;
      }
      var position := Advance(prev.position, prev.direction);
      if !IsPositionValid(position) {
        var restart := RandomBlock(draws.candidates, draws.direction);
        match restart
        case None => return NoFreeCandidate;
        case Some(b) => return Placed(b, BlockedRestart);
      }
      if draws.turn {
        return Placed(Block(L, RandomPerpendicular(prev.direction, draws.perpendicular), position), Turn);
      } else {
        return Placed(Block(I, prev.direction, position), Continue);
      }
    }

    /**
      `l_instance_at_block`: the elbow instance for `b`, turning from the last
      block's direction. `None` is a panic: there is no last block, or its
      direction is not perpendicular to `b`'s.
     */
    function LInstanceAt(b: Block): (r: Option<Instance>)
      reads this
      ensures r.Some? <==> last.Some? && Perpendicular(b.direction, last.value.direction)
      ensures r.Some? ==> r.value.position == b.position && IsElbowRotation(r.value.rotation)
      ensures r.Some? ==> Some(r.value.rotation) == ElbowRotation(b.direction, last.value.direction)
    {
      match last
      case None => None
      case Some(prev) =>
        match ElbowRotation(b.direction, prev.direction)
        case None => None
        case Some(rotation) => Some(Instance(b.position, rotation))
    }

    /**
      `add_pipe`: choose one block, append its instance to the stream of its
      pipe type, occupy its cell and remember it as the last block.
     */
    method AddPipe(draws: Draws, build: Build) returns (r: Outcome)
      requires Valid()
      requires WellFormed(draws, maxX, maxY, maxZ)
      modifies this
      ensures Valid()
      ensures !r.Placed? ==>
        occupied == old(occupied) && last == old(last) &&
        iInstances == old(iInstances) && lInstances == old(lInstances)
      // no collision, and exactly one more occupied cell
      ensures r.Placed? ==>
        && r.block.position !in old(occupied)
        && occupied == old(occupied) + {r.block.position}
        && |occupied| == |old(occupied)| + 1
        && last == Some(r.block)
      // bounded world
      ensures r.Placed? ==> InWorld(r.block.position)
      ensures old(AllInWorld()) ==> AllInWorld()
      // the new block never lands on the last block's cell
      ensures r.Placed? && old(last).Some? ==> r.block.position != old(last).value.position
      // exactly one stream grows, by the block's instance
      ensures r.Placed? && r.block.pipeType == I ==>
        iInstances == old(iInstances) + [IInstanceAt(r.block)] && lInstances == old(lInstances)
      ensures r.Placed? && r.block.pipeType == L ==>
        && old(last).Some?
        && Perpendicular(r.block.direction, old(last).value.direction)
        && lInstances == old(lInstances) +
             [Instance(r.block.position, ElbowRotation(r.block.direction, old(last).value.direction).value)]
        && iInstances == old(iInstances)
      // the path taken
      ensures r.Placed? ==> (r.path == FreshStart <==> old(last).None? || draws.stop)
      ensures r.Placed? && (r.path == FreshStart || r.path == BlockedRestart) ==>
        old(IsFreshBlock(r.block, draws.candidates, draws.direction))
      ensures r.Placed? && r.path == Continue ==>
        old(last).Some? && !draws.stop && !draws.turn &&
        r.block == Block(I, old(last).value.direction, Advance(old(last).value.position, old(last).value.direction))
      ensures r.Placed? && r.path == Turn ==>
        && old(last).Some? && !draws.stop && draws.turn
        && r.block.pipeType == L
        && r.block.position == Advance(old(last).value.position, old(last).value.direction)
        && r.block.direction == RandomPerpendicular(old(last).value.direction, draws.perpendicular)
        && Perpendicular(r.block.direction, old(last).value.direction)
      ensures r.Placed? && r.path == BlockedRestart ==>
        old(last).Some? && !draws.stop &&
        !old(IsPositionValid(Advance(last.value.position, last.value.direction)))
      ensures r.NoFreeCandidate? ==> old(NoneFree(draws.candidates))
      ensures r.NoFreeCandidate? ==>
        draws.stop || old(last).None? ||
        !old(IsPositionValid(Advance(last.value.position, last.value.direction)))
      // which outcome each situation gives
      ensures old(last).None? || draws.stop ==> !r.Panicked?
      ensures old(last).Some? && !draws.stop ==>
        (r.Panicked? <==> build == Debug && Overflows(old(last).value.position, old(last).value.direction))
      ensures old(last).Some? && !draws.stop && !r.Panicked? ==>
        (old(IsPositionValid(Advance(last.value.position, last.value.direction))) <==>
           r.Placed? && (r.path == Continue || r.path == Turn))
      ensures !r.Panicked? && !(r.Placed? && (r.path == Continue || r.path == Turn)) ==>
        (r.NoFreeCandidate? <==> old(NoneFree(draws.candidates)))
      ensures r.Panicked? ==>
        build == Debug && old(last).Some? && !draws.stop &&
        Overflows(old(last).value.position, old(last).value.direction)
    {
      var choice: Outcome;
      if draws.stop || last.None? {
        var b := RandomBlock(draws.candidates, draws.direction);
        if b.None? {
          return NoFreeCandidate;
        }
        choice := Placed(b.value, FreshStart);
      } else {
        choice := NextBlock(draws, build);
        if !choice.Placed? {
          return choice;
        }
      }
      Place(choice.block);
      r := choice;
    }

    /**
      The bookkeeping `add_pipe` and `add_debug_pipe` share: append the block's
      instance to the stream of its pipe type, occupy its cell and remember it
      as the last block. An elbow needs a last block perpendicular to it.
     */
    method Place(b: Block)
      requires Valid()
      requires b.pipeType == L ==> last.Some? && Perpendicular(b.direction, last.value.direction)
      modifies this
      ensures Valid()
      ensures occupied == old(occupied) + {b.position} && last == Some(b)
      ensures b.pipeType == I ==>
        iInstances == old(iInstances) + [IInstanceAt(b)] && lInstances == old(lInstances)
      ensures b.pipeType == L ==>
        && lInstances == old(lInstances) +
             [Instance(b.position, ElbowRotation(b.direction, old(last).value.direction).value)]
        && iInstances == old(iInstances)
    {
      match b.pipeType {
        case I =>
          assert IsStraightRotation(IInstanceAt(b).rotation);
          iInstances := iInstances + [IInstanceAt(b)];
        case L =>
          var instance := LInstanceAt(b);
          lInstances := lInstances + [instance.value];
      }
      occupied := occupied + {b.position};
      last := Some(b);
    }

    /**
      `add_debug_pipe`: place a given block with the same bookkeeping as
      `AddPipe` but no occupancy or bound test. Returns false where the source
      panics: an elbow with no last block, or one not perpendicular to it.
     */
    method AddDebugPipe(pipeType: PipeType, position: Pos, direction: Direction) returns (ok: bool)
      requires Valid()
      modifies this
      ensures Valid()
      ensures ok <==> pipeType == I || (old(last).Some? && Perpendicular(direction, old(last).value.direction))
      ensures !ok ==>
        occupied == old(occupied) && last == old(last) &&
        iInstances == old(iInstances) && lInstances == old(lInstances)
      ensures ok ==> occupied == old(occupied) + {position} && last == Some(Block(pipeType, direction, position))
      ensures ok && pipeType == I ==>
        iInstances == old(iInstances) + [IInstanceAt(Block(I, direction, position))] && lInstances == old(lInstances)
      ensures ok && pipeType == L ==>
        && lInstances == old(lInstances) +
             [Instance(position, ElbowRotation(direction, old(last).value.direction).value)]
        && iInstances == old(iInstances)
    {
      if pipeType == L && LInstanceAt(Block(L, direction, position)).None? {
        return false;
      }
      Place(Block(pipeType, direction, position));
      ok := true;
    }
  }

  /**
    The host's growth run: a new world and one `add_pipe` per supplied set of
    draws, stopping at the first step that does not place a block. Every
    placed block occupies a new cell inside the bounds, so the world holds
    exactly as many occupied cells as instances. A run stops early only at a
    step that falls back to a random block (stop coin, no last block, or an
    invalid next cell) whose drawn cells are all occupied, or where a debug
    build panics on the last block's move; a step that places nothing leaves
    the world as it was.
   */
  method Grow(draws: seq<Draws>, build: Build) returns (w: World, placed: nat)
    requires forall k :: 0 <= k < |draws| ==> WellFormed(draws[k], 10, 8, 8)
    ensures w.Valid() && w.maxX == 10 && w.maxY == 8 && w.maxZ == 8
    ensures placed <= |draws|
    ensures |w.occupied| == placed && |w.iInstances| + |w.lInstances| == placed
    ensures w.AllInWorld()
    ensures w.last.Some? <==> placed > 0
    ensures placed < |draws| ==>
      || (&& (|| draws[placed].stop || w.last.None?
              || !w.IsPositionValid(Advance(w.last.value.position, w.last.value.direction)))
          && w.NoneFree(draws[placed].candidates))
      || (&& build == Debug && w.last.Some? && !draws[placed].stop
          && Overflows(w.last.value.position, w.last.value.direction))
  {
    w := new World();
    placed := 0;
    while placed < |draws|
      invariant placed <= |draws|
      invariant w.Valid()
      invariant |w.occupied| == placed && |w.iInstances| + |w.lInstances| == placed
      invariant w.AllInWorld()
      invariant w.last.Some? <==> placed > 0
    {
      var r := w.AddPipe(draws[placed], build);
      if !r.Placed? {
        return;
      }
      placed := placed + 1;
    }
  }

  /**
    Placing a straight pipe at (1, 1, 1) pointing +Y by hand yields exactly one
    straight instance there, unrotated about Y, and occupies that one cell.
   */
  method DebugPlacementExample() returns (straight: seq<Instance>, occupied: set<Pos>)
    ensures straight == [Instance(Pos(1, 1, 1), [Factor(AxisY, 0)])]
    ensures occupied == {Pos(1, 1, 1)}
  {
    var w := new World();
    var ok := w.AddDebugPipe(I, Pos(1, 1, 1), Y);
    straight := w.IPipeInstances();
    occupied := w.occupied;
  }
}
