# wgpu-engine-rs particle core, modelled in Dafny

This project models four parts of the engine that need no GPU or window
system, and proves properties about them:

- **The simulation thread** (`sim` in `src/main.rs`). Particle state lives
  in four vectors of 32-wide `f32x32` lanes: `x`, `y`, `x_vel` and `y_vel`.
  - Each vector is allocated with `COUNT / SIMD_LEVEL + 1 = 32` lanes.
  - `COUNT = 1000` particles are declared, but every lane loop covers only
    the first `COUNT / SIMD_LEVEL = 31` lanes (992 particles). The spare 32nd
    lane is never written after allocation, ticked or read.
  - Those 992 particles start on a grid 31 columns wide
    (`GRID_SIZE = isqrt(1000) = 31`), filled in rows of 31, which gives 32 rows.
  - Their velocities start from random draws.
  - Every frame, each of those 31 lanes is ticked in place: gravity,
    integration, the out-of-bounds masks on the integrated position, the
    clamp to `[-1000, 1000]`, and a factor of `-0.8` on each velocity whose
    mask fired.
  - Those lanes are then flattened into a 992-entry snapshot in
    particle-index order. The thread sleeps for what is left of a 16 ms frame.
  - In `sim.dfy`, the lane vectors are `array<Lane>` fields of the class
    `Sim.Particles`, and each lane loop is a method with its loop invariants.
    - Grid placement is proved against `GridX` and `GridY`.
    - The tick is proved against the per-particle `Step`.
    - The velocity fill is proved against the sequence of draws.
    - The snapshot is proved against the lane arrays.
    - The endless frame loop is modelled as one call of `Frame`, a single
      iteration.
- **The pan/zoom camera** (`src/camera.rs`). It is the class
  `CameraControl.Camera`, whose methods update `position`, `zoom`,
  `dragging` and `last_mouse_pos`. The invariant "a drag is in progress
  exactly when the last cursor position is remembered, and the zoom lies in
  `[0.1, 10]`" is kept by every method.
  - `screen_to_world` and `get_view_matrix` are pure functions, and lemmas
    relate the two.
- **Input translation** (`src/input.rs`). This covers the mouse-button id
  table, the `KeyCode -> Key` table, and the routing of winit device events
  in `parse_winit_event`. All of it is written as pure functions over local
  models of the winit and input-actions enums (`input.dfy`).
  - The key table is proved to be a partial bijection, with its rejected
    codes given exactly.
- **The truncating `Debug` format** of `LimitedVec` / `OrMore`
  (`src/bench.rs`). At most four elements are printed, followed by one
  `...` marker when there are more (`bench.dfy`).

`common.dfy` holds `Option` and `Result`. `f32` is modelled as `real`, so
the proofs are about order, selection and index layout, not rounding.

## Model

| member | source | states |
|---|---|---|
| Sim.Isqrt | src/main.rs:27 | `usize::isqrt`: the result squared is at most `n`, and its successor squared exceeds `n` |
| Sim.GridSizeValue | src/main.rs:27 | `GRID_SIZE = isqrt(1000)` is 31 |
| Sim.StepWithinBounds | src/main.rs:101-102 | after a tick, every particle lies within `[-BOUNDS_X, BOUNDS_X] x [-BOUNDS_Y, BOUNDS_Y]`, whatever its state before |
| Sim.ClampMeaning | src/main.rs:101-102 | `simd_min(max).simd_max(min)` lands in the range; it moves a value only when the value is outside the range, and then onto the bound it crossed |
| Sim.ReflectFiresOnExit | src/main.rs:95-109 | with `min < max`, at most one mask fires per axis; the velocity is multiplied by `-0.8` exactly when the position is outside the range, and is unchanged otherwise |
| Sim.StepReflection | src/main.rs:95-109 | per axis, the new velocity is `-0.8` times the integrated one exactly when the integrated (pre-clamp) position is above max or below min |
| Sim.BounceLosesSpeed | src/main.rs:105-109 | a bounce keeps 80% of the speed on that axis; without one, the speed is kept |
| Sim.StepInsideUnchanged | src/main.rs:91-109 | a particle whose integrated position is inside the bounds keeps that position and its velocity through the boundary step |
| Sim.IntegrateIsLinear | src/main.rs:82-92 | with gravity `-0.0`, integration is `x + x_vel*dt`, `y + y_vel*dt`, and both velocities are unchanged |
| Sim.Integrate | src/main.rs:90-92 | gravity and integration of one particle; its meaning is stated by `IntegrateIsLinear` |
| Sim.Constrain | src/main.rs:95-109 | the boundary step of one particle: the result is inside the bounds, and a particle already inside passes unchanged |
| Sim.Step | src/main.rs:90-109 | one tick of one particle; stated by `StepWithinBounds`, `StepReflection`, `BounceLosesSpeed` and `StepInsideUnchanged` |
| Sim.TickLane | src/main.rs:89-110 | the loop body on one lane, operation by operation; `TickLaneMatchesStep` states that it is `Step` slot by slot |
| Sim.TickLaneMatchesStep | src/main.rs:89-110 | slot `j` of a lane after the vectorised tick is the per-particle step of slot `j` before it; no slot depends on another |
| Sim.GridCell | src/main.rs:54-55 | row `index / GRID_SIZE`, column `index % GRID_SIZE`; `GridLayoutInjective` states that distinct indices get distinct cells |
| Sim.GridX | src/main.rs:58 | the centred x of the column; stated by `GridLayoutInjective` and `GridWithinBounds`, and `GridLane` is proved against it |
| Sim.GridY | src/main.rs:59 | the centred y of the row; stated by `GridLayoutInjective` and `GridWithinBounds`, and `GridLane` is proved against it |
| Sim.GridLayoutInjective | src/main.rs:52-59 | distinct indices get distinct `(row, col)` cells, hence distinct start positions |
| Sim.GridWithinBounds | src/main.rs:47-65 | every particle index below `COUNT` gets a grid start position inside the bounds |
| Sim.LaneSlot | src/main.rs:119-122 | particle `i*32 + j` is lane `i`, slot `j` |
| Sim.SleepDuration | src/main.rs:138 | the pacing sleep is `16 ms - elapsed` when positive and 0 otherwise, never above 16 ms |
| Sim.Particles.constructor | src/main.rs:39-42 | four distinct vectors of `COUNT/SIMD_LEVEL + 1` lanes, all zero |
| Sim.Particles.GridLane | src/main.rs:48-61 | the scratch arrays of lane `i` hold the grid coordinates of particles `i*32 + j < COUNT`, and zero in the slots past `COUNT` |
| Sim.Particles.InitPositions | src/main.rs:47-65 | the first `lanes` lanes of `x` and `y` hold the grid layout; later lanes (with `LANES`, the spare lane) are unchanged |
| Sim.Particles.InitVelocities | src/main.rs:68-80 | slot `j` of lane `i` takes the x and y draws number `2(32i+j)` and `2(32i+j)+1`, each in `[-1, 1)`; later lanes are unchanged |
| Sim.Particles.Tick | src/main.rs:89-110 | every particle of the first `lanes` lanes becomes `Step` of its old state, in place; the other lanes of all four vectors are unchanged |
| Sim.Particles.Snapshot | src/main.rs:113-126 | the snapshot has `min(lanes*32, COUNT)` entries, and entry `k` is `(x[k/32][k%32], y[k/32][k%32])` in increasing `k` |
| Sim.Particles.Frame | src/main.rs:85-126 | one frame as written: every particle of the first 31 lanes becomes `Step` of its old state; the spare lane is untouched; the snapshot has `31*32 = 992 < COUNT` entries, entry `k` being the stepped particle `k` |
| Sim.Particles.FrameAll | src/main.rs:39-126 | one frame over all 32 allocated lanes: every particle becomes `Step` of its old state, and the snapshot has exactly `COUNT` entries, entry `k` being the stepped particle `k` |
| CameraControl.ClampZoom | src/camera.rs:85 | `clamp(0.1, 10.0)` lies in `[0.1, 10]`: a zoom in range is unchanged, one below `0.1` becomes `0.1`, and one above `10` becomes `10` |
| CameraControl.ScrolledZoom | src/camera.rs:85 | the new zoom lies in `[0.1, 10]`, equals the scaled zoom when that is in range, and a zero step leaves an in-range zoom unchanged |
| CameraControl.PannedPosition | src/camera.rs:67-70 | the camera moves back by the drag: the position's change, times the zoom, is the cursor's movement |
| CameraControl.ScrolledPosition | src/camera.rs:82-95 | the as-written scroll adjustment; `ScrollDriftsCursor` states when it keeps the cursor's world point |
| CameraControl.WorldAt | src/camera.rs:43-48 | `screen_to_world`: the world point's offset from the camera, times the zoom, is the screen point's offset from the window centre |
| CameraControl.PanKeepsGrabbedPoint | src/camera.rs:64-74 | moving the camera back by the drag over the zoom keeps the grabbed world point under the cursor |
| CameraControl.DriftOnAxis | src/camera.rs:93-95 | on one axis, the as-written adjustment keeps the cursor's world coordinate exactly when the cursor is on the centre line or the zoom is unchanged |
| CameraControl.ScrollDriftsCursor | src/camera.rs:81-95 | after `handle_scroll` as written, the cursor's world point is preserved if and only if the zoom is unchanged or the cursor is at the window centre; with the zoom unchanged, the position is unchanged |
| CameraControl.ScrollDriftExample | src/camera.rs:76-96 | 800x600 window, zoom 1 -> 1.1, cursor at (500, 300): the world x under the cursor goes from 100 to 900/11 |
| CameraControl.AnchoredKeepsCursor | src/camera.rs:93-95 | with the adjustment subtracted, the world point under the cursor is the same before and after any zoom change |
| CameraControl.ViewMatrixMapsWorld | src/camera.rs:27-40 | the view matrix takes a world point `p` to `((p - position) * zoom, 0, 1)` |
| CameraControl.ViewUndoesScreenToWorld | src/camera.rs:27-48 | the view matrix maps `screen_to_world(s)` back to `s`'s offset from the window centre |
| CameraControl.Camera.constructor | src/camera.rs:13-21 | position (0,0), zoom 1, not dragging, no last position, 800x600 window; the invariant holds |
| CameraControl.Camera.UpdateWindowSize | src/camera.rs:23-25 | only the window size changes, to `(width, height)` |
| CameraControl.Camera.ViewMatrix | src/camera.rs:27-40 | a 4x4 matrix whose first three columns are zero off the diagonal, with a 1 in the third diagonal entry |
| CameraControl.Camera.ScreenToWorld | src/camera.rs:43-48 | `screen_to_world` on the camera's fields; the relation is `WorldAt`'s contract, and `ViewUndoesScreenToWorld` states that the view matrix undoes it |
| CameraControl.Camera.HandleMousePress | src/camera.rs:50-55 | a left press starts a drag remembering the cursor; any other button changes nothing; the invariant is kept |
| CameraControl.Camera.HandleMouseRelease | src/camera.rs:57-62 | a left release ends the drag and forgets the cursor; any other button changes nothing; the invariant is kept |
| CameraControl.Camera.HandleMouseMove | src/camera.rs:64-74 | without a drag nothing changes; during a drag the position moves back by `(new - last)/zoom`, the new cursor is remembered, and the grabbed world point is now under it |
| CameraControl.Camera.HandleScroll | src/camera.rs:76-96 | the zoom becomes the clamped scaled zoom, within `[0.1, 10]`; the position moves by `world_after - world_before` (as written); nothing else changes |
| CameraControl.Camera.HandleScrollAnchored | src/camera.rs:93-95 | the same zoom step with the sign of the adjustment corrected: the world point under the cursor is unchanged |
| Input.MouseButtonFromId | src/input.rs:81-91 | ids 1, 2 and 3 are accepted and every other id is rejected, with the error carrying that same id |
| Input.MouseButtonRoundTrip | src/input.rs:84-88 | the button table is a bijection between the ids 1..3 and Left, Center and Right |
| Input.KeyFromCode | src/input.rs:93-262 | the key table, arm by arm in the source's order; `KeyRejections` states that it yields `Err(())` exactly on the ten unsupported codes, `KeyTableLeftInverse` that each `Ok` key maps back to its code, and `KeyTableInjective` that no two codes share a key |
| Input.NumpadRows | src/input.rs:97-194 | each numpad code either translates to a key the backward table maps back to it, or is rejected; rejected exactly for NumpadDecimal and NumpadComma |
| Input.LetterRows | src/input.rs:107-132 | each letter code translates to a key the backward table maps back to it |
| Input.FunctionRows | src/input.rs:133-157 | Escape and F1..F24 translate to keys the backward table maps back to them |
| Input.NavigationRows | src/input.rs:160-176 | each navigation code translates to a key the backward table maps back to it |
| Input.SymbolRows | src/input.rs:202-259 | each symbol code either translates to a key the backward table maps back to it, or is rejected; rejected exactly for the eight unsupported symbol codes |
| Input.DigitKeysBack | src/input.rs:97-106 | each digit key comes back from its numpad code |
| Input.LetterKeysBack | src/input.rs:107-132 | each letter key comes back from its letter code |
| Input.FunctionKeysBack | src/input.rs:133-157 | Escape and each of F1..F24 come back from their codes |
| Input.NavigationKeysBack | src/input.rs:160-176 | each navigation key comes back from its code |
| Input.NumpadKeysBack | src/input.rs:187-194 | each numpad operator key the backward table covers comes back from its code |
| Input.SymbolKeysBack | src/input.rs:202-243 | each symbol key comes back from its code |
| Input.KeyTableLeftInverse | src/input.rs:96-259 | each translated code is recovered from its key by the backward table |
| Input.KeyTableRightInverse | src/input.rs:96-259 | each key the backward table covers is produced by the table from that code |
| Input.KeyTableInjective | src/input.rs:96-259 | no two codes translate to the same key |
| Input.KeyRejections | src/input.rs:189-259 | a handled code yields `Err(())` exactly when it is NumpadDecimal, NumpadComma, Convert, MediaSelect, MediaStop, Power, Sleep, Copy, Paste or Cut |
| Input.NumpadKeysUnreachable | src/input.rs:97-186 | the first matching arm wins, so no code yields `Key::Numpad0..Key::Numpad9` |
| Input.NumpadDigitsAsDigitKeys | src/input.rs:97-106 | `Numpad0..Numpad9` translate to digit keys, one-to-one with `Key0..Key9` |
| Input.LettersOneToOne | src/input.rs:107-132 | `KeyA..KeyZ` translate to letter keys, one-to-one with `A..Z` |
| Input.ButtonStateOf | src/input.rs:43-46 | Pressed maps to Pressed and Released maps to Released |
| Input.ParseWinitEvent | src/input.rs:9-79 | an accepted event is a device event, tagged Mouse exactly when its binding is a mouse binding |
| Input.ParseFailsExactly | src/input.rs:13-77 | an event is rejected exactly when it is not motion, a line-delta wheel step, a button with id 1..3, or a key with a supported code |
| Input.ParseMouseValues | src/input.rs:14-33 | motion and line-delta wheel events pass their two values through unchanged, as Mouse events |
| Input.ParseKeepsPressState | src/input.rs:34-76 | an accepted button or key event keeps its press state, its device, and the button or key the tables give |
| Bench.RenderOrMore | src/bench.rs:12-19 | a value prints as itself and the marker as `...`; `Items` states both for the rendered entries |
| Bench.LimitedVecDebug | src/bench.rs:24-40 | `<LimitedVec as Debug>::fmt`; stated by `ShortVecPrintsWhole` and `LongVecPrintsPrefixAndMarker` |
| Bench.MarkedEntries | src/bench.rs:29-36 | the long branch lists the first four elements as values, then exactly one marker, at position 4 |
| Bench.Items | src/bench.rs:24-39 | the entry count is `min(len, 4) + (len > 4 ? 1 : 0)`; the listed values are a prefix of the vector; a fifth entry is `...` |
| Bench.JoinAppend | src/bench.rs:29-37 | appending the marker entry adds `, ` and the marker to the joined list |
| Bench.ShortVecPrintsWhole | src/bench.rs:26-27 | a vector of at most four elements prints exactly as the whole vector does |
| Bench.LongVecPrintsPrefixAndMarker | src/bench.rs:28-37 | a longer vector prints as its first four elements, then `, ...` before the closing bracket |
| Bench.LongVecOutputDependsOnPrefix | src/bench.rs:31-35 | once a vector is longer than four, its output depends only on its first four elements |

## Left out

- Threads, the stack size and `main` (src/main.rs:142-160). The `mpsc` channel, the `send` and the break on a dropped receiver (src/main.rs:129-131) are not modelled. A frame is one iteration of the loop, and the snapshot is the value returned.
- `Instant`, the frame counter, the `println!` every 60 frames and `thread::sleep` (src/main.rs:86, 133-138) are not modelled. Only the saturating subtraction that computes the sleep is kept (`SleepDuration`, in nanoseconds, with the elapsed time as a parameter).
- The random generator (src/main.rs:44, 74-75) is replaced by a parameter: the sequence of draws, each in `[-1, 1)`.
- Exact `f32` rounding is not modelled: `real` arithmetic is used throughout, and `-0.0` is zero.
- The code has no collision pass and no single-slot publisher: it sends every snapshot on an unbounded `mpsc` channel (src/main.rs:146), which is not modelled.
- `simd_bench` (src/bench.rs) is a wall-clock benchmark with nothing to state.
- The `Debug` format is modelled in its plain form `[a, b]`; the alternate (`{:#?}`) layout of `debug_list` is not modelled. The element type's own `Debug` output is a parameter `show`.
- src/wgpu_ctx.rs, src/app.rs and src/gui.rs (GPU setup, the window event loop, GUI imports) are not part of this model.
- `println!` in the button-id `map_err` (src/input.rs:51) is not modelled; only the `Err(())` it returns is.
- winit's `KeyCode` is one flat enum. Here it, and the engine's `Key`, are grouped into families (digits, letters, function keys, navigation, numpad, symbols) so that the tables can be reasoned about family by family. A code the table does not list is the constructor `Unlisted`.
- Input.KeyFromCode: the `unimplemented!("Key")` panic for unlisted codes is a precondition, `Implemented(code)`, not a modelled failure.
- Input.KeyFromCode: the ten shadowed arms at src/input.rs:177-186 are not written, because Dafny rejects redundant match arms. `NumpadKeysUnreachable` states what their absence means.
- Input.ParseWinitEvent: requires `KeyCodeHandled(e)`, the precondition that keeps key events away from the `unimplemented!` panic. Key events without a virtual keycode are modelled and yield `Err(())`.
- Input.ParseWinitEvent: winit's other mouse-button and device-event variants appear only as one `OtherDeviceEvent` and one `OtherEvent`. They all reach the `_ => Err(())` arm.
- CameraControl.Camera.HandleMousePress: requires `Valid()`. The Rust fields are `pub`, so other code could break the invariant, but no code shown does.
- CameraControl.Camera.HandleMouseRelease: requires `Valid()`, for the same reason.
- CameraControl.Camera.HandleMouseMove: requires `Valid()`. A drag with no remembered position, which the source handles by only remembering the cursor, is excluded by it.
- CameraControl.Camera.HandleScroll: requires `Valid()`, which keeps the zoom non-zero for the divisions in `screen_to_world`.
- CameraControl.Camera.ViewMatrix: each inner array is read as one column (column-major order). The contract states the shape, the zero entries and the third diagonal entry. `ViewMatrixMapsWorld` states the mapping.
- The winit `MouseButton` passed to the camera is modelled as Left, Right, Middle, Back, Forward and `Other(id)`. Only `Left` is compared against.

## Findings

| source | as written | input that shows it | evidently intended | confidence | as-written member | corrected member |
|---|---|---|---|---|---|---|
| src/camera.rs:93-95 | `position += world_after - world_before`, although the comment says it maintains the cursor's world position | 800x600 window, zoom 1, position (0,0), cursor (500,300), delta 1: the world x under the cursor goes from 100 to 900/11 | `position -= world_after - world_before`, which keeps the cursor's world point fixed | not executed | CameraControl.ScrollDriftExample | CameraControl.Camera.HandleScrollAnchored |
| src/main.rs:89 | every lane loop runs `0..COUNT / SIMD_LEVEL`, i.e. 31 lanes, so particles 992..999 are never placed, moved or published (also lines 47, 68, 114) | `COUNT = 1000`: a frame publishes 992 instances, although each vector has a spare 32nd lane (lines 39-42) and the `index < COUNT` guards (lines 53, 120) only matter for that lane | run the loops over all `COUNT / SIMD_LEVEL + 1` allocated lanes, so that all 1000 particles are published. `InitPositions`, `InitVelocities`, `Tick` and `Snapshot` take the lane count, and `FrameAll` passes all 32 | not executed | Sim.Particles.Frame | Sim.Particles.FrameAll |
