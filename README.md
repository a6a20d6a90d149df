# Particle system: a verified model of the store and its state machine

ParticleSystem.c is an OpenGL/GLUT demo. It emits particles from a point,
lets them fly under gravity, bounces them on a two-tier ground, and re-emits
any particle that lands too far out. Its core is a fixed-capacity particle
store of `MAX` = 1 000 000 slots. The `[0, numberParticles)` prefix of the
store is live. Three parts update the store in place:

- `pointInt` writes one slot from random draws.
- `makeParticleArray` and `updateParticleArray` loop over the live slots.
- The `menu` and `keyboard` callbacks change the tunable scalars. They are the
  particle count, gravity, mean emission speed, render style, sizes, texture
  and the run flag.

The project has three modules:

- `Physics` (physics.dfy) gives the value of a particle slot and two
  transitions. `Emit` is what `pointInt` writes. `Step` is one slot's update
  in `updateParticleArray`. They come with lemmas: well-formedness is kept
  across ticks, the bounce and re-emission rules hold, and the age advances.
- `Controller` (controller.dfy) gives the menu and keyboard transitions on a
  record of the scalars. It proves that every reachable control state
  satisfies an invariant. The invariant gives the count in `[1, MAX]`,
  gravity ≥ 2, mean speed ≥ 3, exactly one render style and each size within
  its ladder.
- `Simulation` (system.dfy) has the class `ParticleSystem`. It holds the store
  as an `array<Particle>` and the scalars as fields. Its methods mirror the C
  functions statement by statement. Each method is proved against the
  functions above: the slots it updates equal `Emit`/`Step` of their old
  values, every other slot is unchanged, and the scalars equal
  `Controller.Menu`/`Controller.Keyboard` of their old values.

Random draws and the values of `cos`/`sin` are inputs. Each is a `Draw`
record, constrained to the ranges the source draws from. `draws[i]` is what
`pointInt(i)` would draw. Floats are `real`.

## Model

| member | source | states |
|---|---|---|
| `Physics.Speed` | ParticleSystem.c:83 | the emission speed lies within 1 of the mean speed |
| `Physics.Emit` | ParticleSystem.c:72-91 | an emitted particle sits at the emitter (x = z = 0) at a height in [8, 10], with age 0 and `down` set. Its colour is in [0.1, 1] and its alpha in [0.7, 1]. Its direction is the heading's (cos, sin). Its planar and vertical speeds are the emission speed times the elevation's cos and sin |
| `Physics.EmitWellFormed` | ParticleSystem.c:79-85 | with a mean speed above 1, an emitted particle is well formed. Its planar speed and its initial downward vertical speed are both positive |
| `Physics.Vertical` | ParticleSystem.c:119-135 | three cases. Descending: the height follows the projectile law with upward speed −v, and v grows by gΔt. Ascending with v > 0: the height follows the projectile law with speed v, and v shrinks by gΔt. Ascending with v ≤ 0: only `down` is set; height and speed are unchanged |
| `Physics.OnGroundIsFloor` | ParticleSystem.c:138 | contact means the updated height is at or below the floor in force: 5.0 below distance 3, 0.0 beyond it. At distance exactly 3 there is never contact |
| `Physics.Step` | ParticleSystem.c:113-147 | A slot that touches ground beyond EDGE is fully re-emitted, with age 0. Any other slot ages by exactly TIME_DELTA. It is placed at direction × (planar speed × pre-step age). Its planar speed, direction and colour are kept. A slot that touches ground within EDGE bounces: `down` is cleared and the vertical speed is 0.8 × its post-step value. Without contact, the slot's vertical state is `Vertical`'s |
| `Physics.StepWellFormed` | ParticleSystem.c:113-147 | one tick keeps a particle well formed, whether it is re-emitted or not |
| `Physics.PlacementRadius` | ParticleSystem.c:113-116 | for a unit direction, a slot that is not re-emitted lies at planar radius equal to the distance travelled |
| `Physics.EmitUnitDirection` | ParticleSystem.c:80-82 | a heading drawn as (cos, sin) of one angle gives an emitted particle a unit direction |
| `Physics.StepUnitDirection` | ParticleSystem.c:113-147 | one tick keeps the direction a unit vector, re-emitted or not |
| `Physics.BounceWithinEdge` | ParticleSystem.c:138-146 | a well-formed particle with a unit direction that bounces lies within EDGE of the emitter |
| `Physics.AirborneBeyondEdge` | ParticleSystem.c:138-143 | a particle beyond EDGE that is still above the ground is not re-emitted: it ages, keeps its vertical motion, and is placed outside EDGE |
| `Physics.AdvanceWellFormed` | ParticleSystem.c:106-149 | a particle stays well formed over any number of ticks. Its age never goes negative and its planar speed stays positive |
| `Physics.AdvanceAges` | ParticleSystem.c:147 | over ticks without re-emission, the age grows by exactly TIME_DELTA per tick. Planar speed and direction are kept |
| `Controller.Menu` | ParticleSystem.c:344-463 | in both directions: items 4 and 6 raise gravity and the mean speed by 1, items 5 and 7 lower them by 1 exactly when they are above 3, and no other item changes them. Items 8–10 select exactly the named style, and no other item touches the style. While its style is active, items 11–16 move a size one rung when the rung is within its limit and leave it otherwise, and item 20 flips the texture; a size or the texture never changes otherwise. The count becomes ten times larger on item 18 when that fits in MAX and stays otherwise, becomes 100 on item 17, and becomes a tenth on item 19 when that is at least 1 and stays otherwise. No other item touches the count, and the run flag never changes |
| `Controller.MenuKeepsInv` | ParticleSystem.c:353-458 | every menu item keeps the control invariant |
| `Controller.GravityKeepsInv` | ParticleSystem.c:353-361 | items 4 and 5 keep gravity whole and ≥ 2 |
| `Controller.SpeedKeepsInv` | ParticleSystem.c:362-370 | items 6 and 7 keep the mean speed whole and ≥ 3 |
| `Controller.StyleKeepsInv` | ParticleSystem.c:371-385 | items 8–10 keep exactly one style set |
| `Controller.SizesKeepInv` | ParticleSystem.c:386-458 | items 11–16 and 20 keep each size on its ladder and the texture flag in {0, 1} |
| `Controller.PointSizeKeepsInv` | ParticleSystem.c:386-405 | doubling below 64 and halving above 1 keep the point size in {2, 4, 8, 16, 32} |
| `Controller.SquareSizeKeepsInv` | ParticleSystem.c:406-419 | the sprite half-size stays in {0.02, 0.05, 0.08} |
| `Controller.SlicesKeepInv` | ParticleSystem.c:420-433 | the sphere tessellation stays in {2, 6, 10, 14, 18} |
| `Controller.CountKeepsInv` | ParticleSystem.c:434-452 | items 17–19 keep the count in [1, MAX] |
| `Controller.OtherItemsKeepInv` | ParticleSystem.c:346-352 | the view items and any item outside 4–20 leave the controls unchanged |
| `Controller.Keyboard` | ParticleSystem.c:466-494 | Enter flips the run flag and Space sets it. No other key changes anything modelled, and the invariant is kept |
| `Controller.InitialInv` | ParticleSystem.c:33-51 | the starting values satisfy the control invariant |
| `Controller.RunKeepsInv` | ParticleSystem.c:344-494 | any sequence of menu selections and key presses keeps the invariant |
| `Controller.ReachableBounds` | ParticleSystem.c:353-458 | from the starting values, whatever the user selects: the count stays in [1, MAX], gravity ≥ 2, mean speed ≥ 3 and exactly one style is set. The point size stays in [2, 32], the sprite half-size in (0, 0.10) and the tessellation in (0, 20] |
| `Controller.TextureToggleTwice` | ParticleSystem.c:453-458 | toggling the texture twice restores every control |
| `Controller.EnterTwice` | ParticleSystem.c:469-470 | pressing Enter twice restores every control |
| `Simulation.ParticleSystem.constructor` | ParticleSystem.c:551-584 | the program starts from the static initial values. The first 100 slots are emitted, and the store is valid |
| `Simulation.ParticleSystem.PointInt` | ParticleSystem.c:72-91 | slot i becomes `Emit` of its draw at the current mean speed. No other slot changes |
| `Simulation.ParticleSystem.MakeParticleArray` | ParticleSystem.c:94-101 | every live slot k becomes `Emit(draws[k])`. The slots at or beyond the count are unchanged, and the store stays valid |
| `Simulation.ParticleSystem.UpdateSlot` | ParticleSystem.c:113-147 | the loop body turns slot i into `Step` of its old value, and leaves every other slot unchanged |
| `Simulation.ParticleSystem.UpdateParticleArray` | ParticleSystem.c:106-149 | every live slot k becomes `Step` of its old value with `draws[k]`. Every slot at or beyond the count is unchanged, and the store stays valid |
| `Simulation.ParticleSystem.Idle` | ParticleSystem.c:152-156 | while running, one frame is one `updateParticleArray` |
| `Simulation.ParticleSystem.Menu` | ParticleSystem.c:344-463 | the scalars become `Controller.Menu` of the old ones. On growth, the newly exposed slots are freshly emitted. Every other slot is unchanged, and the store stays valid |
| `Simulation.ParticleSystem.IncreaseCount` | ParticleSystem.c:437-446 | within capacity, the count grows tenfold. Each slot in [old, 10·old) is emitted with its own draw, and the old live slots keep their state |
| `Simulation.ParticleSystem.AdjustForces` | ParticleSystem.c:353-370 | gravity and mean speed change as `Controller.Menu` says, and the store stays valid |
| `Simulation.ParticleSystem.SelectStyle` | ParticleSystem.c:371-385 | the style flags change as `Controller.Menu` says |
| `Simulation.ParticleSystem.AdjustStyle` | ParticleSystem.c:386-458 | the sizes and the texture change as `Controller.Menu` says |
| `Simulation.ParticleSystem.SetCount` | ParticleSystem.c:434-452 | reset and ÷10 change the count as `Controller.Menu` says. The store stays valid, with no slot touched |
| `Simulation.ParticleSystem.Keyboard` | ParticleSystem.c:466-494 | the run flag changes as `Controller.Keyboard` says. Space re-emits every live slot, and no other key touches a slot |

## Notes on the source

- At planar distance exactly 3 neither floor applies: the ground test uses
  `distance < 3` and `distance > 3` (ParticleSystem.c:138), so such a
  particle never touches ground. `OnGroundIsFloor` states this.
- Item 17 sets the count back to 100 without re-emitting slots
  (ParticleSystem.c:434-436). The model keeps every slot below
  max(count, 100) well formed, which is what makes this safe: `Emitted`
  and `Valid` in system.dfy.
- A particle beyond EDGE is re-emitted only when it also touches ground.
  One that is still in the air past EDGE keeps flying until it lands
  (ParticleSystem.c:138-143). `AirborneBeyondEdge` states this.
- The point size's upper bound is 32: doubling is allowed while the result
  is below 64 (ParticleSystem.c:389).

## Left out

- All GL/GLUT drawing, view, camera and mouse code, `glPointSize`,
  `glutPostRedisplay` and `glutIdleFunc`. They are foreign calls. Whether
  `idle` is registered is captured by `Idle` requiring `start == 1`.
- frames.h (wall-clock frame timing and text output) is not part of this
  model. It is I/O.
- `rand`, `srand`, `myRandom`, `cos` and `sin` are not modelled. Their results
  are the fields of `Draw`. The trigonometric fields are bounded by
  enclosures of cos and sin over the drawn angle ranges (60–70° and
  −15–15°). The identity cos² + sin² = 1 is a separate hypothesis,
  `UnitHeading` on a draw and `UnitDirection` on a particle, which the
  lemmas about the planar radius assume.
- IEEE single-precision rounding is not modelled. All floats are `real`.
  Sums such as the sprite size 0.02 + 0.03 are taken as exact.
- The six parallel C arrays are merged into one array of `Particle` records.
  One slot is written field by field, as in the C.
- Menu item 666 and key 27 (`exit`), the view items 2 and 3, and the camera
  keys 'a' and 's' change only process or view state. The model leaves the
  controls unchanged for them.
- `Physics.Advance` runs a particle through several ticks at fixed gravity
  and mean speed. Controller changes between ticks are covered by the class
  methods, not by `Advance`.
