# GameEngine decision layer, in Dafny

This project models the decision layer of `GameEngine` (`src/engine/GameEngine.ts`).
That class drives two views of one game world: a perspective 3D view and an
orthographic 2D view. Its decision layer is small:

- **Input State**: the seven movement flags in `characterControls`. The keydown
  and keyup listeners that `enableControls` installs set and clear them over a
  fixed key map (`w s a d`, space, `Shift`, `x`). Module `Input`.
- **Camera Director**: the part of `animateFrame` that acts while some flag is
  set. It sends the primary camera controls to an eye 200 above and 500 along −z from
  the root of `character3D`, looking at that root. It also aims the
  orthographic camera at that same root. Module `Director`, and `AnimateFrame`
  in `GameEngine`.
- **Frame tick**: one `animateFrame` call. Nine steps run in a fixed order, and
  each is skipped when a component it needs is `null`. The tick is a pure
  function returning the new state and the trace of the steps that ran. Those
  steps are checked against a reference schedule built from the fixed order and
  a table of each step's guards. Module `GameEngine`.
- **Construction**: the state left by the constructor, including the quirk that
  `initializeGame` runs the first frame before any character or the stats panel
  exists. Module `GameEngine`.
- **Resize**: `resize3DView` sets aspect = w/h. `resize2DView` sets the
  orthographic frustum to ±2·(w/h) horizontally and ±2 vertically. Both do
  nothing while their camera or renderer is missing. Module `Resize`.
- **Keyboard**: the browser's translation from physical keys to
  `KeyboardEvent.key`. It is used for the finding below. Module `Keyboard`.

Components are optional values (`Option`), or booleans for the opaque ones
(clocks, composers, stats). Positions and frustum bounds are exact `real`s.

The model follows the code, including these behaviours:

- The camera steps are guarded by `character3D` being non-null, not by the
  character having finished loading. `character3D` is assigned right after its
  load starts, so after construction the cameras follow the root even before
  the model is attached to the scene.
- The orthographic camera follows `character3D`, not `character2D`.
- The camera-controls easing step runs only when both the controls and their
  clock exist.
- A zero container height is not guarded in the code. In JavaScript it would
  produce an infinite or NaN aspect. The model requires a positive height
  wherever the code divides by it.

## Model

| member | source | states |
|---|---|---|
| Input.KeyDown | src/engine/GameEngine.ts:481-505 | A mapped key sets exactly its own flag; every other flag keeps its value; an unmapped key changes nothing |
| Input.KeyUp | src/engine/GameEngine.ts:506-530 | A mapped key clears exactly its own flag; every other flag keeps its value; an unmapped key changes nothing |
| Input.KeyMapBijective | src/engine/GameEngine.ts:482-504 | The key map pairs the seven keys with the seven flags one to one |
| Input.HandlersOnHeldSet | src/engine/GameEngine.ts:481-530 | On the set of held intents a keydown adds its flag and a keyup removes it; unmapped keys leave the set alone |
| Input.HandlersIdempotent | src/engine/GameEngine.ts:481-530 | Keydown and keyup are each idempotent, and of a keydown/keyup pair on one key the later event wins |
| Input.ReplayFollowsLastEvent | src/engine/GameEngine.ts:480-531 | After any event sequence a flag equals "the last event for its key was a keydown", or its old value if its key had no event |
| Input.NoPhantomFlags | src/engine/GameEngine.ts:59-68 | Starting from all-false, a flag is never true before its key's first keydown |
| Input.HeldAfterReplay | src/engine/GameEngine.ts:59-68 | Starting from all-false, the held set is exactly the flags whose last event was a keydown |
| Director.IsMoving | src/engine/GameEngine.ts:425-427 | The character counts as moving iff at least one of the seven flags is set, jump/crouch/attack included |
| Director.FollowTarget | src/engine/GameEngine.ts:430-437 | The follow pose looks at the root from the root plus (0, 200, -500) |
| GameEngine.AnimateFrame | src/engine/GameEngine.ts:421-475 | One frame's trace is the reference schedule; the primary target becomes the follow pose and the 2D camera aims at the 3D root exactly when those steps run; nothing else in the state changes |
| GameEngine.RunsTable | src/engine/GameEngine.ts:424-474 | Each step's guard table entry means exactly the null checks and movement test the frame performs before that step |
| GameEngine.FrameStepsInFixedOrder | src/engine/GameEngine.ts:421-475 | The steps of a frame appear in the fixed order, and a step appears iff all its guards are present (and the character moves, for the camera steps) |
| GameEngine.MissingComponentSkipsOnlyItsSteps | src/engine/GameEngine.ts:454-474 | Clearing one component removes exactly the steps that need it; every other step still runs |
| GameEngine.IdleFrameHoldsCameras | src/engine/GameEngine.ts:429-451 | With no flag set a frame leaves the whole modelled state unchanged: neither `setLookAt` nor `lookAt` is issued, so the controls' target and the orthographic camera's aim stay as they were (the controls' own easing step still runs) |
| GameEngine.CamerasFollowCharacter3D | src/engine/GameEngine.ts:442-451 | Where the cameras are sent does not depend on character2D at all |
| GameEngine.OrthoFrustum | src/engine/GameEngine.ts:353-364 | The orthographic frustum is symmetric, has half-height 2, and its width/height ratio is the viewport aspect |
| GameEngine.InitialViews | src/engine/GameEngine.ts:281-416 | Initialisation yields a camera whose aspect times height is width, renderers sized to the containers, controls at (0,270,-500) looking at the origin, and no characters or stats yet |
| GameEngine.Construct | src/engine/GameEngine.ts:76-95 | The first frame runs only schedule, controls update and the two renders; afterwards every component is present, characters sit at the origin and no listener is installed |
| GameEngine.EnableControls | src/engine/GameEngine.ts:480-531 | Each call registers one more listener pair and changes nothing else |
| GameEngine.RepeatCollapses | src/engine/GameEngine.ts:480-531 | Any positive number of registered listeners handles an event like a single listener |
| GameEngine.OnKeyEvent | src/engine/GameEngine.ts:480-531 | Before enableControls an event does nothing; afterwards only the flags change, as one handler call would change them |
| GameEngine.ForwardFromOriginScenario | src/engine/GameEngine.ts:424-451 | After construction and a keydown of w, a frame sends the primary camera to (0,200,-500) looking at (0,0,0) and aims the 2D camera at the origin |
| Resize.Resize3D | src/engine/GameEngine.ts:533-543 | With camera and renderer present, aspect times height equals width and the renderer takes the new size; otherwise nothing changes; no other field changes |
| Resize.Resize2D | src/engine/GameEngine.ts:544-581 | With camera and renderer present, left = -right, top = 2, bottom = -2, the frustum has the viewport's aspect, the aim is kept and the renderer takes the new size; otherwise nothing changes |
| Resize.ResizeIdempotent | src/engine/GameEngine.ts:533-581 | Resizing twice to the same size equals resizing once, for both views |
| Resize.ResizeLastWins | src/engine/GameEngine.ts:533-581 | Of two resizes only the last one's dimensions matter |
| Resize.ResizeAgreesWithConstruction | src/engine/GameEngine.ts:546-570 | Resizing a new engine to the sizes it was built with changes nothing: construction and resize compute the same geometry |
| Resize.Resize3DCommutesWithFrame | src/engine/GameEngine.ts:533-543 | A 3D resize and a frame commute |
| Resize.Resize2DCommutesWithFrame | src/engine/GameEngine.ts:544-581 | A 2D resize and a frame commute: the frame re-aims, the resize keeps the aim |
| Resize.ResizeScenario | src/engine/GameEngine.ts:535-536 | Resizing the perspective view from 800x600 to 400x300 gives aspect 4/3 and a 400x300 renderer |
| Keyboard.AsWrittenLeavesFlagStuck | src/engine/GameEngine.ts:506-530 | Press w, press Shift, release w: the release arrives as "W" and moveForward stays set with w no longer held |
| Keyboard.StepCorrected | src/engine/GameEngine.ts:506-530 | With a single upper-case letter key lower-cased before the switch (lower-casing the whole key would break the "Shift" case), each stroke keeps the flags equal to the held keys |
| Keyboard.AsWrittenShiftFirstNeverSets | src/engine/GameEngine.ts:481-505 | Press Shift, press w: the keydown arrives as "W" and moveForward stays false although w is held |
| Keyboard.CorrectedTracksHeldKeys | src/engine/GameEngine.ts:481-530 | With single upper-case letter keys lower-cased, every stroke sequence keeps every flag equal to "its key is held" |

## Left out

- Scene, renderer, effect-composer and post-processing construction (bloom, pixelation, fog, shadow maps). This is rendering-library configuration with no behaviour to state. Only the presence of each component and the camera and renderer geometry are kept.
- Lights, ground, and the independence of their `.clone()` copies. Object identity and cloning belong to the rendering library.
- Character loading, the `onLoadComplete` scene attachment, and the character's animation and locomotion in `update(delta)`. These are external. In the tick, the character-update steps appear only in the trace, and the roots do not move.
- Camera-controls easing and `Clock.getDelta` timing. These are external and time-dependent. A frame records the pose the controls are sent to, not the eased pose.
- `requestAnimationFrame` scheduling (recorded as the first step of the trace), the Stats panel, and DOM attachment.
- Resize.Resize2D: applies the deferred half of `resize2DView` at once, with the dimensions read at the call. The screenshot overlay, the 100 ms `setTimeout`, the re-check of the camera and renderer inside the timeout, and the container being resized again before the timeout fires are not modelled.
- Resize.Resize3D: requires a positive height whenever it divides. The code divides unguarded (line 536), which in JavaScript gives an infinite or NaN aspect.
- Resize.Resize2D: requires a positive height whenever it divides. The code divides unguarded (line 546).
- GameEngine.InitialViews: requires positive container heights. The code divides unguarded (lines 291 and 354).
- GameEngine.Construct: requires positive container heights, for the same reason as GameEngine.InitialViews.
- JavaScript floating point: aspect ratios and positions are exact reals.
- The `set2DView` preset table: camera positions and the 0.0075 zoom. Only its look-at of the origin is kept, as the orthographic camera's initial aim.
- `createHelpers` (never called) and the commented-out orbit controls of the 2D view.
- Caps Lock and non-US keyboard layouts, in Keyboard.KeyString.
- Keyboard.CorrectedTracksHeldKeys: the keyboard has one Shift key. Left and right Shift both report `"Shift"`, so releasing one while the other is held clears crouch; lower-casing does not fix that, and the invariant is proved only for a single Shift key.
- Keyboard.StepCorrected: the same single-Shift scope applies to its one-stroke invariant.
- `src/router/index.ts`: routing configuration only.

## Findings

| source | as written | input that shows it | evidently intended | confidence | as-written member | corrected member |
|---|---|---|---|---|---|---|
| src/engine/GameEngine.ts:506-530 | The keyup switch compares `event.key` with lower-case letters. With Shift held, a browser reports a letter key in upper case, and Shift is itself the crouch key. | Press w, press Shift, release w: the release arrives as "W", no case matches, and moveForward stays true while no key for it is held. Likewise Shift then w never sets moveForward (Keyboard.AsWrittenShiftFirstNeverSets). | Flags equal the currently held keys, with a single upper-case letter key lower-cased before the switch; lower-casing the whole key would break the "Shift" case | medium, not executed (depends on browser key reporting) | Keyboard.AsWrittenLeavesFlagStuck | Keyboard.StepCorrected |
