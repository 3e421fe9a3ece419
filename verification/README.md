# XPipe growth engine in Dafny

XPipe draws a network of pipes that grows through a 3D grid. The only logic in
it is the growth engine in `src/world.rs`. A `World` holds four things:
- the set of occupied integer cells;
- the last placed block;
- two append-only instance lists, one for straight (`I`) pipes and one for
  elbow (`L`) pipes.

Each call of `add_pipe` places one block. It takes one of four paths:
- **fresh start**: a random free cell, a random direction and a straight pipe;
- **continue**: one cell further along the last direction, straight;
- **turn**: one cell further, as an elbow whose new direction is
  perpendicular to the last one;
- **blocked restart**: the next cell is out of bounds or occupied, so the
  engine falls back to a fresh start.

The engine then works out the rotation of the pipe mesh. Straight pipes use a
table keyed by axis. Elbows use a table keyed by the (outgoing, incoming)
direction pair. The engine then appends the instance to its list, marks the
cell occupied and remembers the block.

The project has three modules:
- `Grid` (`grid.dfy`): u32 coordinates, cells, directions and the one-cell
  move. The u32 wrap-around of a release build is written out.
- `Orientation` (`orientation.dfy`): the two rotation tables. Rotations are
  symbolic: a sequence of (axis, whole degrees) factors, multiplied left to
  right.
- `Engine` (`world.dfy`): the `World` class, whose fields the methods update
  in place. It also holds the host's growth loop.

Random draws are parameters. One `Draws` value holds everything one
`add_pipe` call may draw:
- the stop coin;
- the turn coin;
- the quarter drawn by `random_perpendicular` (0..3);
- the sixth drawn by `Direction::random` (0..5, in the order X, Y, Z, _X, _Y, _Z);
- the cells `random_block` draws one after another.

The source's loop in `random_block` never ends while every drawn cell is
occupied. Here it stops at the end of the supplied cells and reports
`NoFreeCandidate`, leaving the state unchanged. The u32 move from coordinate 0
towards a negative direction depends on the build. A `Build` parameter chooses
between a debug build, which panics (`Panicked`, state unchanged), and a
release build, which wraps to `u32::MAX`. The bound test then rejects the
wrapped cell (`Grid.OverflowLeavesBounds`).

Notes on the code's behaviour:
- `is_position_valid` tests `coordinate > max`, so a cell whose coordinate
  equals `max` is accepted. Cells placed by `add_pipe` therefore satisfy
  `coordinate <= max`.
  Fresh starts draw from `0..max`, so their coordinates are `< max`.
- Blocks and instances carry a cell, a direction or rotation, and nothing else.
- A full grid makes `random_block` loop forever; the code reports no error.
  Here that case appears only as running out of supplied draws.
- `add_debug_pipe` checks neither occupancy nor bounds. An elbow placed with it
  panics when there is no last block or when the last direction is not
  perpendicular to the new one.

## Model

| member | source | states |
|---|---|---|
| Grid.RandomDirection | src/world.rs:25-43 | the draw's sixth `k` gives the direction at position `k` in the order X, Y, Z, _X, _Y, _Z |
| Grid.RandomDirectionOnto | src/world.rs:25-43 | every direction is the outcome of exactly the sixth at its position |
| Grid.RandomPerpendicular | src/world.rs:45-63 | the direction drawn for a turn is perpendicular to, and different from, the previous one |
| Grid.PerpendicularOptionsExact | src/world.rs:47-51 | the four options are pairwise distinct and are exactly the directions perpendicular to the given one |
| Grid.Advance | src/world.rs:196-203 | the candidate cell is the last cell plus the direction's unit offset modulo 2^32; without overflow it is exactly +1 or -1 on the direction's axis |
| Grid.AdvanceIsUnitStep | src/world.rs:196-203 | without overflow the candidate changes only the coordinate on the direction's axis, by one towards the direction, and differs from the last cell |
| Grid.OverflowLeavesBounds | src/world.rs:200-206 | from an in-bounds cell, only a negative move from 0 overflows; the wrapped cell has coordinate `u32::MAX` and fails the bound test |
| Orientation.StraightRotation | src/world.rs:241-245 | a straight pipe's rotation is a single factor |
| Orientation.StraightRotationByAxis | src/world.rs:241-245 | two directions give the same straight rotation if and only if they share an axis (three rotations for six directions) |
| Orientation.StraightRotationIdentityOnY | src/world.rs:242-244 | the mesh is turned by 0 degrees exactly for Y and _Y |
| Orientation.IInstanceAt | src/world.rs:236-250 | a straight instance sits at the block's cell with a one-factor rotation |
| Orientation.StraightInstanceByAxis | src/world.rs:236-250 | two straight instances are equal if and only if their blocks share a cell and a direction axis |
| Orientation.ElbowAngle | src/world.rs:258-322 | the angle table is defined (no panic) if and only if the pair is perpendicular, and every angle is 0, 90, 180 or -90 |
| Orientation.ElbowAnglesDistinct | src/world.rs:258-322 | for one outgoing direction, distinct perpendicular incoming directions get distinct angles |
| Orientation.ElbowAnglesCoverQuarterTurns | src/world.rs:258-322 | for one outgoing direction, each of 0, 90, 180, -90 is the angle of some perpendicular incoming direction |
| Orientation.ElbowRotation | src/world.rs:258-322 | an elbow rotation exists if and only if the pair is perpendicular; it is the outgoing direction's base followed by a quarter turn about the outgoing axis |
| Orientation.ElbowRotationDistinctIncoming | src/world.rs:258-322 | for one outgoing direction, distinct perpendicular incoming directions give distinct elbow rotations |
| Orientation.TurnHasElbowRotation | src/world.rs:210-215 | a turn drawn by `random_perpendicular` always has an entry in the elbow table, so the table's panic cannot occur on a turn |
| Engine.World.constructor | src/world.rs:108-121 | a new world is 10 x 8 x 8, with empty lists, nothing occupied and no last block |
| Engine.World.IPipeInstances | src/world.rs:123-125 | the straight stream; each entry sits on an occupied cell and has a straight-table rotation |
| Engine.World.LPipeInstances | src/world.rs:127-129 | the elbow stream; each entry sits on an occupied cell and has an elbow-table rotation |
| Engine.World.IsPositionValid | src/world.rs:225-234 | a cell is valid if and only if it passes the `> max` bound test and is free; placing a block there adds exactly one occupied cell |
| Engine.World.RandomBlock | src/world.rs:173-190 | gives a straight block with the drawn direction at the first free drawn cell, with each coordinate `< max`; gives nothing if and only if every drawn cell is occupied |
| Engine.World.NextBlock | src/world.rs:192-223 | panics if and only if a debug build overflows. On a valid candidate: a turn gives an elbow with a perpendicular direction, otherwise a straight pipe with the last direction, both at the candidate cell. On an invalid candidate it falls back to the random block. |
| Engine.World.LInstanceAt | src/world.rs:252-328 | an elbow instance exists if and only if there is a last block perpendicular to the new one; it sits at the block's cell and uses the elbow-table rotation for (new, last) |
| Engine.World.AddPipe | src/world.rs:131-153 | a placed block's cell was free and is added as the one new occupied cell, inside the bounds. Exactly the matching stream grows by the block's instance, and the block becomes the last one. A fresh start happens if and only if there is no last block or the stop coin fell. Otherwise it panics if and only if a debug build overflows, and a valid candidate always gives a continue or a turn. On a fresh start or blocked restart it runs out if and only if every drawn cell is occupied. A placed block never lands on the last block's cell. A step that places nothing changes nothing. |
| Engine.World.Place | src/world.rs:140-152 | the bookkeeping shared by `add_pipe` and `add_debug_pipe`: exactly the stream of the block's pipe type grows by its instance (an elbow's rotation from the table for (block, last)), the cell joins the occupied set and the block becomes the last one |
| Engine.World.AddDebugPipe | src/world.rs:155-171 | succeeds if and only if the block is straight or perpendicular to the last block; it then appends to the matching stream, occupies the cell and becomes the last block; otherwise nothing changes |
| Engine.Grow | src/lib.rs:168-171 | after `n` placing steps from a new world there are exactly `n` occupied cells and `n` instances, all cells inside the bounds, and a last block exactly when `n > 0`. A run stops before the end of the draws only at a step that falls back to a random block (the stop coin fell, there is no last block, or the next cell is invalid) and whose drawn cells are all occupied, or where a debug build panics on the last block's move (the stop coin not having fallen) |
| Engine.DebugPlacementExample | src/world.rs:155-171 | a straight +Y debug pipe at (1, 1, 1) gives one straight instance there with a 0-degree rotation about Y, and occupies only that cell |

## Left out

- Floating point: the `f32` stop and turn probabilities (0.1 each) and the `f32` comparisons inside `Direction::random` and `random_perpendicular`. They become the coins and indices of `Draws`. How likely each outcome is, is not modelled.
- Quaternions: `cgmath::Quaternion::from_axis_angle` and quaternion multiplication are kept as symbolic factor sequences, and equality of two factor sequences is not equality of the rotations they denote. Across different outgoing directions, distinct sequences can be the same rotation: (X, last _Y) gives a 0-degree turn about X and (Y, last _X) a 0-degree turn about Y, both the identity, the same elbow joining +X and +Y. Only for a fixed outgoing direction are distinct entries distinct rotations (`Orientation.ElbowRotationDistinctIncoming`).
- The `u32` to `f32` cast of the instance position: instances keep the integer cell.
- The `dbg!` output in `add_pipe`.
- `Engine.World.RandomBlock`: does not model the unbounded resampling. With a finite list of drawn cells it can give `NoFreeCandidate` where the source would keep drawing.
- `Engine.Grow`: ends at the first step that places nothing, where the source's host loop always makes 100 calls. Such a step leaves the world unchanged, and the source's call would instead keep drawing cells or panic. It takes any number of draws rather than exactly 100.
- `Engine.World.IPipeInstances`: requires the object invariant `Valid()`, which every public operation keeps.
- `Engine.World.LPipeInstances`: requires the object invariant `Valid()`, which every public operation keeps.
- Everything in `src/lib.rs` except the growth loop: GPU setup, buffer uploads, rendering and the event loop. `Instance::to_raw` is not part of this model.
- `src/camera.rs`: view-projection matrix arithmetic in `f32`.
- `src/resources.rs`: reading files.
- `src/light.rs`: a plain uniform struct with no behaviour.
