# grav — a Dafny model of the simulation core

grav is an interactive 2D gravity simulator built on the ggez engine. Point
masses ("bodies") attract each other under Newtonian gravity. They are
integrated forward in fixed time steps and shown through a pan-and-zoom view
that the keyboard and mouse control.

This project models the core of that program in Dafny:

- `vectors.dfy` (module `Vectors`): 2D vectors over `real`. These stand in
  for nalgebra's `Point2<f32>` and `Vector2<f32>`.
- `body.dfy` (module `Bodies`): the `Body` record and `accel_towards`, the
  acceleration one body feels towards another. `atan2`, `cos` and `sin`
  come from the platform. They are passed in as a `Trig` record and assumed
  nothing about, except where a lemma states a hypothesis on them.
- `gravity.dfy` (module `Gravity`): a specification of the pairwise
  accumulation pass of one step, `Accumulated`. Each body's `a` grows by the
  sum of its pulls from all the other bodies, in ascending index order. The
  module proves that:
  - the pass changes nothing but `a`;
  - it does nothing with fewer than two bodies;
  - when the platform's headings in opposite directions are opposite, the
    mass-weighted accelerations it adds sum to zero (momentum balance).
- `game.dfy` (module `Game`):
  - the conversions between screen ("local") and world ("global")
    coordinates;
  - the keyboard transition function `OnKey`;
  - the classes `GameState`, `UiState` and `GameInstance`. Their methods update
    fields in place as the Rust `&mut self` methods do.

`GameState.UpdateBodies` is the program's `update_bodies`. It has two passes:

- `AccumulateAccelerations` is the guarded nested loop. For readability of
  the proof, its outer iteration (`PullRow`) and its inner step (`PullPair`)
  are separate methods.
- `AdvanceBodies` is the integration loop.

The accumulation pass is proved equal to `Accumulated` of the bodies before
the step.

Two facts about the program that the model keeps as they are:

- The gravitational constant is 6.67e-11, as `src/body.rs:22` writes it.
- Nothing clamps `dt` or `scale`: the arrow keys halve and double them
  without bound.

## Model

| member | source | states |
|---|---|---|
| `Bodies.AccelTowards` | src/body.rs:15-27 | The pull is exactly zero when the two positions coincide, and zero when the other body's mass is zero. |
| `Bodies.AccelNonDegenerate` | src/body.rs:19-26 | Past the `r_squared == 0` guard, the positions differ. The result is `G * other.mass / r^2` times (cos θ, sin θ), where θ = atan2(dy, dx) and G = 6.67e-11. |
| `Bodies.AccelReadsOnly` | src/body.rs:15-27 | The result depends only on `self.pos`, `other.pos` and `other.mass`. Both bodies are taken by shared reference and neither is modified. |
| `Bodies.InverseSquare` | src/body.rs:19-26 | If cos² + sin² = 1 at the heading, the squared length of the pull is `(G * other.mass / r^2)^2` (inverse-square law). |
| `Bodies.AccelAlongOffset` | src/body.rs:16-26 | If the cosine and sine of the heading are parallel to the offset (dx, dy), so is the pull. |
| `Bodies.AccelPointsTowardsOther` | src/body.rs:16-26 | The pull is attractive. Assume the positions differ, the other mass is positive, and the cosine and sine of the heading point the way of the offset. Then the pull has a positive component along the offset from `self` to `other`. |
| `Bodies.NewtonThird` | src/body.rs:15-27 | Assume `atan2` of the negated offset gives negated cosine and sine. Then `p.mass * accel(p→q) == -(q.mass * accel(q→p))`, for coincident positions too. |
| `Gravity.NetPullStep` | src/main.rs:86-87 | One more inner-loop term adds exactly `accel_towards(b, b_)` to body `k`'s running sum. |
| `Gravity.AccumulatedWritesOnlyAccel` | src/main.rs:82-91 | The accumulation pass keeps the number and order of bodies, and each body's mass, position, velocity and colour. |
| `Gravity.NetPullReadsOnlyMassAndPos` | src/main.rs:83-90 | A body's net pull depends only on the masses and positions of all bodies, so accelerations updated earlier in the pass do not affect later pulls. |
| `Gravity.FewerThanTwoAddsNothing` | src/main.rs:82 | With fewer than two bodies the pass leaves every body unchanged, as the `len() >= 2` guard skips it. |
| `Gravity.OppositeHeadingsMakeLawReciprocal` | src/body.rs:15-27 | Under the heading hypothesis, `accel_towards` obeys action and reaction on every pair of bodies. |
| `Gravity.WeightedPullGrows` | src/main.rs:83-90 | Letting body `m` pull too adds to the mass-weighted sum exactly the pulls of the earlier bodies towards `m`. |
| `Gravity.RowCancels` | src/main.rs:86-89 | For a reciprocal law, the mass-weighted pulls on body `m` from the bodies before it cancel their pulls towards `m`. |
| `Gravity.ReciprocalPullsBalance` | src/main.rs:83-90 | For any reciprocal pairwise law, the mass-weighted accelerations among the first `m` bodies sum to zero. |
| `Gravity.MomentumBalance` | src/main.rs:82-91 | Under the heading hypothesis, the mass-weighted pulls Σ mass_k · NetPull_k that the pass adds sum to zero. |
| `Gravity.MomentumGrowsByPull` | src/main.rs:82-91 | Over the first `upto` bodies, Σ mass_k · a_k after the pass equals Σ mass_k · a_k before it plus the mass-weighted pulls. |
| `Gravity.PassConservesMomentum` | src/main.rs:82-91 | Under the heading hypothesis, Σ mass_k · a_k over all bodies is the same after the pass as before it. |
| `Game.LocalToGlobal` | src/main.rs:33-38 | The screen centre shows the view's origin. A zero scale collapses every screen point onto the origin. |
| `Game.GlobalToLocal` | src/main.rs:40-45 | The view's origin is drawn at the screen centre. |
| `Game.LocalGlobalRoundTrip` | src/main.rs:33-45 | For a non-zero scale, screen → world → screen is the identity. |
| `Game.GlobalLocalRoundTrip` | src/main.rs:33-45 | For a non-zero scale, world → screen → world is the identity. |
| `Game.DragFollowsMouse` | src/main.rs:203-206 | Moving the origin by (−dx·scale, −dy·scale) shifts every world point's screen position by exactly (dx, dy). |
| `Game.HalvingScaleZoomsIn` | src/main.rs:157-158 | Halving the scale maps every screen point to a world point half as far from the origin, which zooms in about the centre. |
| `Game.OnKeyKeepsSteady` | src/main.rs:145-179 | Every key keeps dt > 0 and scale > 0, and keeps the simulation paused whenever the mode is Add. |
| `Game.OnKeysKeepsSteady` | src/main.rs:145-179 | The same invariant holds after any sequence of key presses. |
| `Game.InertKeys` | src/main.rs:148-177 | Q, unbound keys, and P in Add mode leave every control as it was. |
| `Game.PauseToggles` | src/main.rs:150-154 | In Drag mode P flips `paused`, and pressing P twice restores the controls. |
| `Game.TimeStepKeysUndoEachOther` | src/main.rs:155-156 | Left halves dt and Right doubles it. Each undoes the other and nothing else changes. |
| `Game.ZoomKeysUndoEachOther` | src/main.rs:157-164 | Up halves the scale and sets `scale_change` to 0.5. Down doubles it and sets 2.0. Up then Down restores the scale. |
| `Game.ModeKeys` | src/main.rs:165-176 | A sets mode Add and pauses only when entering Add. D sets mode Drag and resumes only when entering Drag. Each is idempotent. |
| `Game.AddThenDragResumes` | src/main.rs:165-176 | From Drag mode, A then D leaves everything as it was except that the simulation is running. |
| `Game.PairStep` | src/main.rs:86-89 | One inner step of the accumulation loop advances the pass exactly one pair further. |
| `Game.GameState.constructor` | src/main.rs:19-31 | A new game has the screen's size, origin (0, 0), scale 1e9, no bodies, dt 8192, is not paused, and is in Drag mode. |
| `Game.GameState.AddBody` | src/main.rs:47-53 | Appends exactly one body, with the given mass, position and velocity, zero acceleration and colour [1, 1, 1, 1]. Earlier bodies are unchanged. |
| `Game.GameState.UpdateBodies` | src/main.rs:80-97 | The new bodies are the accumulation pass of the old bodies, then each body advanced over `dt`. No other field changes. |
| `Game.GameState.AccumulateAccelerations` | src/main.rs:81-91 | The guarded nested loop leaves exactly `Accumulated` of the old bodies. |
| `Game.GameState.PullRow` | src/main.rs:83-90 | Outer iteration `i` turns "first `i` rows done" into "first `i + 1` rows done". |
| `Game.GameState.PullPair` | src/main.rs:84-89 | Body `i` adds its pull towards `j`, then body `j` adds its pull towards the updated body `i`. |
| `Game.GameState.AdvanceBodies` | src/main.rs:93-96 | Every body is replaced, in order, by its update over `dt`. |
| `Game.UiState.constructor` | src/main.rs:100-114 | The mouse position starts at (0, 0), `scale_change` at 1.0, and the add-body dialog is closed. |
| `Game.GameInstance.ScreenPosition` | src/main.rs:67 | Where `draw_body` draws a world point. It is defined in every steady state, the origin is drawn at the screen centre, and converting back gives the world point. |
| `Game.GameInstance.constructor` | src/main.rs:116-126 | A fresh game and UI state, with steady initial controls. |
| `Game.GameInstance.Update` | src/main.rs:129-135 | While paused the bodies stay exactly as they were. Otherwise they take one simulation step. The steady invariant is kept. |
| `Game.GameInstance.KeyDown` | src/main.rs:145-179 | The controls change as `OnKey` says. Bodies, origin, size and the rest of the UI state are unchanged, and the steady invariant is kept. |
| `Game.GameInstance.MouseButtonDown` | src/main.rs:186-193 | In Add mode with no dialog open, a click opens the add-body dialog and records the click position. Otherwise nothing changes. The steady invariant is kept. |
| `Game.GameInstance.MouseMotion` | src/main.rs:200-208 | In Drag mode with the left button held, the origin moves by (−dx·scale, −dy·scale). Otherwise it stays. Nothing else changes, and the steady invariant is kept. |

## Left out

- Floating point: the model computes over `real`, so f32 rounding, overflow to infinity and underflow are not modelled. `PullPair` adds each pull into `a` one at a time, as the loop does. The specification `Accumulated`, which is the contract of `AccumulateAccelerations`, adds the summed pull at once. The two are equal over the reals but not in f32.
- The platform's `atan2`, `cos` and `sin` are parameters. `Bodies.NewtonThird`, `Gravity.MomentumBalance`, `Gravity.PassConservesMomentum`, `Bodies.InverseSquare`, `Bodies.AccelAlongOffset` and `Bodies.AccelPointsTowardsOther` hold under stated hypotheses about them. These hypotheses are true of the mathematical functions.
- Bodies.AccelTowards: the converse of "coincident positions give zero" is not stated. Over the reals `r_squared` is zero exactly when the positions coincide. The non-degenerate lemma takes the program's own guard `r_squared != 0` as its hypothesis.
- Game.GlobalToLocal: requires a non-zero scale, because real division by zero is undefined, whereas f32 would give infinities. The scale starts at 1e9 and the keys only halve or double it, so it stays positive (`Game.OnKeyKeepsSteady`). `Game.GameInstance.ScreenPosition` uses the steady invariant to call it with the game's own scale.
- `src/body.rs` does not define `Body::update`, which `update_bodies` calls at `src/main.rs:95`. `UpdateBodies` takes it as the parameter `bodyUpdate`.
- Drawing (`draw`, `draw_body`, `draw_bodies`), `main`, `resize_event`, and the forwarding handlers (`key_up_event`, `mouse_button_up_event`, `mouse_wheel_event`, `text_input_event`) only call into the engine or the UI wrapper.
- `src/ui.rs` (the ImGui wrapper) is not part of this model. The same goes for every `ui_wrapper.update_*` call at the start of the handlers, and for the fields of `UiState` that only the UI reads (`opened`, `body_created`, `input_*`). `src/state.rs` declares `UiState` with a single `add_body` field. The model follows the fields that `src/main.rs` builds and uses.
- Key Q calls `event::quit` and changes no state. The model's `KeyDown` leaves everything unchanged for Q and does not model quitting.
- `mouse_button_down_event` ignores which button was pressed except to forward it to the UI, so the model's `MouseButtonDown` takes only the position. `mouse_motion_event`'s absolute `x, y` only go to the UI. Whether the left button is held is an engine query and becomes the parameter `leftPressed`.
- `GameInstance::new`'s `hidpi_factor` and `ui_wrapper` belong to the UI and are left out. The screen size becomes constructor parameters.
