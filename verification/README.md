# snowdom — a verified model of the snowfall particle bookkeeping

snowdom draws falling snow over a page element on a 2D canvas. This project
models the bookkeeping behind it in Dafny:

- **Flake** (`SnowDOMFlake`, module `Snowflake`). Each flake has six random
  parameters fixed at creation: opacity, relative x, relative y, size, drift
  and fall speed. It has three accumulators that every frame advances: the
  horizontal offset, the vertical offset and the sway phase `xCosinus`. Its
  absolute position is read from the current stage box. When the flake
  reaches the bottom of the stage it is recycled to just above the top edge.
- **Pile** (`SnowDOMPile`, module `Snowpile`). A counting loop pushes one
  sub-particle per unit of region width. Each has a random lateral offset, a
  random radius and a height set by the radius.
- **Stage controller** (`SnowDOM`, module `SnowDom`). It merges the options
  with the defaults and mounts the canvas when the selector matches. It
  creates the flakes and pushes each measured stage box to every flake. It
  sizes the canvas, paints the roof rectangles and advances every flake once
  per frame, in creation order.

Module `Basics` holds the shared shapes: `Option`, the measured rectangle
`Rect`, the `Math.random()` range `Unit`, and `LoopCount`, the number of
iterations of `for (let i = 0; i < bound; i++)` when `bound` is a number.

Coordinates are `real`. Every `Math.random()` result and every `Math.cos`
result is an input. Random draws lie in `[0, 1)` and cosines in `[-1, 1]`.
The flake and pile state updates are classes with fields and `modifies`
clauses. Each method is tied to a pure function of the old state (`Advance`,
`PileOf`, `RoofFills`), and the properties are proved as lemmas about those
functions.

The model follows the code's own arithmetic, which differs from the rounder figures one might expect:

- flake size is sampled in `[3, 5)`, not `[2, 5]`;
- a pile holds `ceil(width)` sub-particles, not `floor(width)`;
- a pile radius can reach up to (not including) 10.5, so it is not bounded by
  the base radius 10;
- the random ranges are half-open, because `Math.random()` never returns 1.

Two consequences of the code are modelled as they are:

- `canvas.width` and `canvas.height` are reflected unsigned longs. Assigning a
  box side truncates it toward zero and wraps it modulo 2^32. A result above
  2^31 - 1 is not kept: the side falls back to the default, 300 for the width
  and 150 for the height (`CanvasDimension`). The canvas matches the box
  exactly only for whole-pixel sides up to 2^31 - 1 (`CanvasMatchesWholeBox`).
- `render` clears the whole canvas, and `updateStage` is always followed by a
  frame. So the roof rectangles that `updateStage` paints, red in debug mode,
  are gone after the constructor's first frame (`roofPaint == []`).

## Model

| member | source | states |
|---|---|---|
| `Basics.LoopCount` | src/snowdom/snowpile.ts:22 | a counting loop against a number bound runs 0 times for a bound <= 0, and `n` times with `n - 1 < bound <= n` otherwise (the ceiling) |
| `Basics.LoopCountCounts` | src/snowdom/index.ts:89 | the loop body runs for index `i` exactly when `i < bound` |
| `Snowflake.Sample` | src/snowdom/snowflake.ts:13-20 | a new flake's parameters lie in fillStyle `[0.2,0.8)`, x `[-0.15,1.15)`, y `[0,1)`, size `[3,5)`, velocityX `[0,0.8)`, velocityY `[0.5,1)` |
| `Snowflake.SampleCoversRange` | src/snowdom/snowflake.ts:13-20 | every parameter record in those ranges comes from some in-range draws, so the ranges are exact |
| `Snowflake.Advance` | src/snowdom/snowflake.ts:63-84 | one frame: the phase takes exactly one step, and the flake has either fallen by exactly `velocityY` or been recycled to `offsetX = 0`, `y = -size` |
| `Snowflake.PhaseStep` | src/snowdom/snowflake.ts:37-40 | each frame raises the phase exactly once, by the draw over 50, which lies in `[0, 1/50)`, whether or not the flake is recycled |
| `Snowflake.FallStep` | src/snowdom/snowflake.ts:63-65 | a frame that does not reach the bottom adds `(cos*0.25 + randoms.velocityX) * velocityXFactor` to offsetX and exactly `velocityY` to offsetY and to `y` |
| `Snowflake.RecycleAtBottom` | src/snowdom/snowflake.ts:76-84 | the flake is recycled exactly when its advanced `y >= stageBox.height`; after a recycle `offsetX = 0`, `y = -size` and the phase is kept; otherwise the advanced state stands |
| `Snowflake.StaysAboveBottom` | src/snowdom/snowflake.ts:63-84 | after any frame, with `size > 0` and a non-negative stage height, `y < stageBox.height` |
| `Snowflake.DriftBounded` | src/snowdom/snowflake.ts:37-40 | with in-range parameters the horizontal velocity lies in `[-0.25*f, 1.05*f]` for a factor `f >= 0` and in `[1.05*f, -0.25*f]` for `f < 0` |
| `Snowflake.PhaseTotal` | src/snowdom/snowflake.ts:38 | the phase steps of `n` frames add up to between 0 and `n`, strictly below `n` when `n > 0` |
| `Snowflake.PhaseAfterFrames` | src/snowdom/snowflake.ts:37-40 | over any run of frames the phase grows by the total of the steps over 50; recycling never resets it |
| `Snowflake.FallsSteadily` | src/snowdom/snowflake.ts:63-78 | with a fixed box and positive fall speed, if `n` frames do not reach the bottom, `y` grows by exactly `n * velocityY` |
| `Snowflake.Flake.constructor` | src/snowdom/snowflake.ts:42-57 | parameters sampled from the draws, `size = randoms.size * sizeFactor`, `velocityY = randoms.velocityY * velocityYFactor`, accumulators 0, the given box; size and fall speed are constants |
| `Snowflake.Flake.X` | src/snowdom/snowflake.ts:30-32 | the `x` getter: relative fraction times the current box width, plus offsetX, computed from the box held at the time of reading |
| `Snowflake.Flake.Y` | src/snowdom/snowflake.ts:33-35 | the `y` getter: relative fraction times the current box height, plus offsetY, computed from the box held at the time of reading |
| `Snowflake.Flake.UpdateStageBox` | src/snowdom/snowflake.ts:59-61 | replaces the stage box only; `x` and `y` move at once by the relative fractions times the change of width and height |
| `Snowflake.Flake.VelocityX` | src/snowdom/snowflake.ts:37-40 | the getter advances `xCosinus` by the draw over 50 and returns `(cos*0.25 + randoms.velocityX) * velocityXFactor` |
| `Snowflake.Flake.Render` | src/snowdom/snowflake.ts:63-79 | the new accumulators are `Advance` of the old ones against the current box; afterwards `y < stageBox.height` for a positive size and non-negative height |
| `Snowflake.Flake.Reset` | src/snowdom/snowflake.ts:81-84 | `offsetX = 0` and `y = -size`; the phase and all parameters are unchanged |
| `Snowpile.Entry` | src/snowdom/snowpile.ts:23-31 | a sub-particle's radius lies in `[6.2, 10.5)`; `y = top + 7.5 - 1.5*size` lies in `(top - 8.25, top - 1.8]`; on a positive width `x` lies in `[center - 0.45*width, center + 0.45*width)` |
| `Snowpile.LargerIsHigher` | src/snowdom/snowpile.ts:30 | a larger sub-particle sits strictly higher (smaller `y`) |
| `Snowpile.PileOf` | src/snowdom/snowpile.ts:22-33 | the loop pushes one entry per draw it consumes |
| `Snowpile.PileOfAt` | src/snowdom/snowpile.ts:28-32 | the k-th pushed entry is built from the k-th draw only, in loop order |
| `Snowpile.PileWithinRegion` | src/snowdom/snowpile.ts:19-31 | every entry of a pile the loop builds is within 45% of the width of the centre, has a radius in `[6.2, 10.5)` and sits above the region top |
| `Snowpile.PileIgnoresHeight` | src/snowdom/snowpile.ts:17-34 | the pile depends only on the box's left, top and width |
| `Snowpile.Pile.constructor` | src/snowdom/snowpile.ts:11-15 | builds the pile exactly once: a new pile holds exactly `LoopCount(width)` entries, the loop's entries for the box |
| `Snowpile.Pile.CreatePile` | src/snowdom/snowpile.ts:17-34 | appends the loop's entries to the existing pile, in loop order, without touching earlier entries |
| `SnowDom.Merge` | src/snowdom/index.ts:32 | each supplied option replaces the default; each absent option keeps it; no options keeps all defaults |
| `SnowDom.MergeIdempotent` | src/snowdom/index.ts:32 | merging the same options twice equals merging them once |
| `SnowDom.DefaultsWhenNothingSupplied` | src/snowdom/index.ts:15-21 | the defaults are flakeCount 1000, flakeSize 1, velocityX 1, velocityY 1, roofSelector `.snowdom-roof`, debug absent |
| `SnowDom.RoofColour` | src/snowdom/index.ts:74 | the roof fill is `red` exactly when `debug` is true, and `transparent` exactly otherwise |
| `SnowDom.RoofFill` | src/snowdom/index.ts:75-80 | a roof is painted at its page position minus the stage origin (so adding the origin gives the roof back), with the roof's width and height 10 |
| `SnowDom.RoofFills` | src/snowdom/index.ts:69-81 | one fill per matched roof, in document order |
| `SnowDom.CanvasDimension` | src/snowdom/index.ts:66-67 | the canvas side is at most 2^31 - 1 or the default; a side in `[0, 2^31 - 1]` gives the side rounded down; a side in `[2^31, 2^32)` gives the default (300 wide, 150 high) |
| `SnowDom.CanvasMatchesWholeBox` | src/snowdom/index.ts:66-67 | a whole-pixel box side up to 2^31 - 1 sizes the canvas exactly |
| `SnowDom.Stage.constructor` | src/snowdom/index.ts:31-43 | merged options; the container and canvas mounted only if the selector matched, otherwise a warning; `LoopCount(flakeCount)` new flakes built from their draws; the measured box on the stage and every flake; each flake advanced once from rest; no roof paint left |
| `SnowDom.Stage.SetupDOM` | src/snowdom/index.ts:45-59 | no match: a warning, and the container and canvas are unchanged; a match: it becomes the container and the canvas is attached |
| `SnowDom.Stage.SetupFlakes` | src/snowdom/index.ts:88-99 | appends exactly `LoopCount(flakeCount)` new, distinct flakes with the option factors, the current stage box and accumulators at rest; earlier flakes are kept |
| `SnowDom.Stage.UpdateStage` | src/snowdom/index.ts:61-86 | the stage box becomes the measured box; the canvas is sized to it; the roof fills are painted; every flake gets the new box while the flake list and each flake's accumulators are unchanged |
| `SnowDom.Stage.Render` | src/snowdom/index.ts:101-107 | clears the canvas and advances every flake exactly once, the i-th flake with the i-th frame draw, against the stage box |

## Left out

- Canvas drawing: `arc`, `fill`, `clearRect`'s pixels, the flake's `rgba(...)` fill style string, the shadow circle and `SnowDOMPile.render`'s single batched path. These go to a foreign rendering API. The model records only which roof rectangles are on the canvas (`roofPaint`).
- DOM plumbing: `querySelector`, `querySelectorAll`, `getBoundingClientRect`, `appendChild`, the canvas style assignments and `destroy`. The matched element, the roof boxes and the measured boxes are inputs. The roof selector string is kept but not interpreted.
- The `window` resize listener registration. `UpdateStage` is the handler and can be called at any time, but the registration itself is not modelled.
- `requestAnimationFrame` self-scheduling. `Stage.Render` models a single frame.
- `Math.random()` and `Math.cos`. They are inputs with range preconditions. The cosine input is not tied to the phase value, because the model has no cosine.
- IEEE-754 rounding. All arithmetic is on `real`, so an equality such as `y = -size` after a reset is exact in the model but only approximate in the program.
- Options given with a key explicitly set to `undefined`. Object spread copies `undefined` over the default. The model treats such a key as absent.
- A non-boolean `debug` value. The model takes `debug` as an optional boolean, and its truthiness is `Some(true)`.
- `SnowDOMPile` is not used by the stage controller in `src/snowdom/index.ts`, so it is modelled on its own.
- src/snowdom.ts, an older prototype whose per-frame update is floating-point repulsion physics, is not part of this model.
