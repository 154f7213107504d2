# Open-world scene and character controller

This project models the core of the world view in `src/pages/Index.tsx`: the
effect that builds the city scene once, keeps a table of pressed keys, and on
every animation frame moves the player, turns them, and drags the chase
camera and the player's head along. Everything Three.js does with the
objects is left out: shading, lighting, shadows and rendering. What remains
is discrete and deterministic:

- **Scene builder** (`world_builder.dfy`, module `WorldBuilder`). This covers
  the ground, the two roads, and the lane-marker loop `for (i = -200; i < 200; i += 8)`.
  It also covers `createBuilding`, whose box is followed by a loop of
  front/back window pairs at `y = 2, 5, 8, … < height`. The eight building
  calls and four tree calls come from constant tables. Each loop is a method
  proved equal to a specification function. The lemmas then give the layout:
  counts, coordinates, and the pairing of front and back windows. The shared
  `Stepped` function is the list of values a JavaScript stepping `for` loop
  visits.
- **Key table** (`input.dfy`, module `Input`). This is a `map<string, bool>`
  written by the keydown and keyup handlers under the lower-cased key value.
  `Decode` reads the four command flags from it, each from a pair of alias
  keys. An absent entry reads as "up".
- **Controller** (`controller.dfy`, module `Controller`). `Advance` is one
  frame's effect on the player's position and `playerRotation`. `Run` applies
  a sequence of frames.
- **Camera rig** (`camera_rig.dfy`, module `CameraRig`). This is the chase
  camera pose and the head position, derived from the player state after the
  frame.
- **Session** (`session.dfy`, class `Session.World`). This is the mutable
  state of the effect: the built scene, the key table, the player, the mesh
  yaw, the head and the camera. The constructor models the set-up of
  lines 7-166, up to but not including the first frame. `Tick` is one call of
  `animate`, with the command tests in source order. Entering the view is
  `Enter`: the constructor followed by one `Tick`, because the effect calls
  `animate()` at line 214 before it returns. The `KeyDown` and `KeyUp`
  methods are the two handlers.

`Math.sin` and `Math.cos` are not modelled. They are the two function values
of a `Trig` parameter. Every lemma holds for any such pair, except where a
lemma states what it needs, such as `sin² + cos² = 1` or `sin 0 = 0`.
Positions are exact reals.

Facts about the code that a reader might expect otherwise:

- A building of height `h` gets `h div 3` window rows. This differs from
  `⌊(h−2)/3⌋+1` exactly when `h − 2` is a multiple of 3: the loop then stops
  one row earlier, because the row at `y == h` fails `y < h`. For the eight
  buildings the code places 94 rows (188 windows). The other formula would
  give 97 rows.
- The heading is never wrapped into `[0, 2π)`.
- Speeds and turn steps are per frame. Nothing scales them by elapsed time.
- A building with a negative height is not rejected. It gets no windows.
- The key table is keyed by lower-cased key values (`e.key`, which depends
  on the keyboard layout and on Shift), not by physical key codes. Commands
  are decoded from it on every frame, not stored per command.

## Model

| member | source | states |
|---|---|---|
| WorldBuilder.Stepped | src/pages/Index.tsx:72 | the values a stepping `for` loop visits (line 72, and line 98 for the window rows); its shape is stated by SteppedShape |
| WorldBuilder.BuildingObjects | src/pages/Index.tsx:78-107 | everything one `createBuilding` call adds, in order; stated by BuildingLayout, WindowRowCount and WindowPairsIndex |
| WorldBuilder.TreeObjects | src/pages/Index.tsx:123-133 | what one `createTree` call adds; stated by AllTreesLayout |
| WorldBuilder.AllBuildings | src/pages/Index.tsx:109-116 | the objects of the building calls in call order; stated by AllBuildingsCount and SceneCount |
| WorldBuilder.AllTrees | src/pages/Index.tsx:135-138 | the objects of the tree calls in call order; stated by AllTreesLayout |
| WorldBuilder.AllTreesLayout | src/pages/Index.tsx:123-138 | the k-th tree call adds the trunk at index 2k, at (x, 2, z), and the canopy at 2k+1, at (x, 5, z), over the same spot; two objects per call |
| WorldBuilder.Scene | src/pages/Index.tsx:41-138 | the static scene in `scene.add` order; stated by SceneCount and BuildScene |
| Input.Lower | src/pages/Index.tsx:169 | `toLowerCase` on key values; stated by LowerIdempotent and CaseFolded |
| Input.Apply | src/pages/Index.tsx:168-174 | what one keydown or keyup handler writes; stated by ApplyTouchesOneEntry and CaseFolded |
| Input.Replay | src/pages/Index.tsx:168-174 | the table after a run of handled events; stated by ReplaySnoc and LastEventWins |
| Input.Decode | src/pages/Index.tsx:181-195 | the four command tests on alias pairs; stated by DecodeFollowsBindings, UnboundKeyIgnored and NothingHeldAtStart |
| Controller.Advance | src/pages/Index.tsx:181-198 | one frame of the controller; stated by AdvanceDeltas and AdvanceInSteps |
| Controller.Run | src/pages/Index.tsx:176-198 | a run of `animate` frames; stated by RunAppend, RunHeading, TurnLeftRun, StraightRun and ForwardThenBack |
| CameraRig.ChaseCamera | src/pages/Index.tsx:204-209 | the camera pose derived from the player; stated by CameraOnCircle, CameraRigid, CameraBehind and QuarterTurnPose |
| CameraRig.HeadAt | src/pages/Index.tsx:200-202 | the head position derived from the player; stated by HeadIgnoresHeading |
| WorldBuilder.SteppedShape | src/pages/Index.tsx:72 | a `for (i = lo; i < hi; i += step)` loop makes n = ⌈(hi−lo)/step⌉ passes ((n−1)·step < hi−lo ≤ n·step), visiting lo + step·k, all within [lo, hi); none when lo ≥ hi |
| WorldBuilder.LaneMarkerLayout | src/pages/Index.tsx:72-76 | exactly 50 lane markers; the k-th is at (0, 0.02, −200 + 8k); every marker z lies in [−200, 200) |
| WorldBuilder.LayLaneMarkers | src/pages/Index.tsx:72-76 | the marker loop, one marker per pass, produces exactly the marker list of the layout lemma |
| WorldBuilder.WindowRowCount | src/pages/Index.tsx:98 | a building of height h has h div 3 window rows (0 for negative h), and y is a row exactly when 2 ≤ y < h and y mod 3 = 2 |
| WorldBuilder.RowFormulaMismatch | src/pages/Index.tsx:98-106 | for h ≥ 2 the row count differs from ⌊(h−2)/3⌋+1 if and only if h−2 is a multiple of 3, and then it is one less |
| WorldBuilder.WindowPairsIndex | src/pages/Index.tsx:98-106 | the window list has two entries per row: the front window of row k at index 2k and the back window at 2k+1 |
| WorldBuilder.BuildingLayout | src/pages/Index.tsx:78-107 | one building adds 1 + 2·rows objects: the box centred at (x, h/2, z), then for each row a front window at (x, y, z + depth/2 + 0.05) and a back window at (x, y, z − depth/2 − 0.05), both of width 0.8·width; the pair shares x and y and mirrors across z |
| WorldBuilder.CreateBuilding | src/pages/Index.tsx:78-107 | the box plus the window loop produces exactly the building's object list |
| WorldBuilder.TotalRowsByHeight | src/pages/Index.tsx:98-116 | the rows over a run of buildings total the sum of h div 3 over their non-negative heights |
| WorldBuilder.AllBuildingsCount | src/pages/Index.tsx:109-116 | a run of building calls adds one box per building plus two windows per row |
| WorldBuilder.AllTreesCount | src/pages/Index.tsx:123-138 | a run of tree calls adds a trunk and a canopy per tree |
| WorldBuilder.BuildingHeightThirds | src/pages/Index.tsx:109-116 | the eight building heights give 94 as their sum of h div 3 |
| WorldBuilder.SceneCount | src/pages/Index.tsx:41-138 | the eight buildings have 94 rows, so 188 windows and 196 building objects; the whole static scene holds 257 objects |
| WorldBuilder.PlaceBuildings | src/pages/Index.tsx:109-116 | the building calls, in table order, produce the concatenated building objects |
| WorldBuilder.PlaceTrees | src/pages/Index.tsx:123-138 | the tree calls, in table order, produce a trunk at height 2 and a canopy at height 5 over each spot |
| WorldBuilder.BuildScene | src/pages/Index.tsx:41-138 | the builder adds, in order, the ground, the two roads, the markers, the buildings with their windows, then the trees |
| Input.ApplyTouchesOneEntry | src/pages/Index.tsx:168-174 | one key event writes exactly the entry of its lower-cased key (down: true, up: false); every other entry, present or absent, reads as before |
| Input.ReplaySnoc | src/pages/Index.tsx:168-174 | handling one more event after a run of events is the handler applied to the table that run left |
| Input.LastEventWins | src/pages/Index.tsx:168-174 | after any run of events a key reads as the direction of the last event on it, or as before the run when there was none |
| Input.LowerIdempotent | src/pages/Index.tsx:169 | lower-casing an already lower-cased name changes nothing |
| Input.CaseFolded | src/pages/Index.tsx:168-174 | an event on a key writes the same table as the event on its lower-cased name; "W" folds to "w" and "ArrowUp" to "arrowup" |
| Input.DecodeFollowsBindings | src/pages/Index.tsx:181-195 | a command is active exactly when one of the keys bound to it (w/arrowup, s/arrowdown, a/arrowleft, d/arrowright) is down |
| Input.UnboundKeyIgnored | src/pages/Index.tsx:181-195 | an event on a key bound to no command leaves all four command flags unchanged |
| Input.NothingHeldAtStart | src/pages/Index.tsx:164 | with the empty table no command is active |
| Input.ShiftedKeyDrives | src/pages/Index.tsx:168-181 | a keydown of "W" activates forward; a keyup of "W" deactivates it unless arrow-up is held |
| Controller.AdvanceDeltas | src/pages/Index.tsx:181-198 | one frame moves x and z by (sin r₀, cos r₀)·0.15·(B − F) with r₀ the heading before the frame; the heading moves by 0.05·(L − R); y never changes; forward with backward leaves the position, left with right leaves the heading; the turn of a frame does not change that frame's translation |
| Controller.AdvanceInSteps | src/pages/Index.tsx:181-198 | the forward step, backward step, left turn and right turn applied one after another, in source order, give exactly the one-frame result |
| Controller.RunAppend | src/pages/Index.tsx:176-177 | running two frame sequences back to back equals running their concatenation |
| Controller.RunHeading | src/pages/Index.tsx:147-197 | over any frame sequence the height stays what it was and the heading is the start heading plus 0.05 per net left turn, never wrapped |
| Controller.TurnLeftRun | src/pages/Index.tsx:191-193 | n frames of turning left leave the position alone and add exactly 0.05·n to the heading |
| Controller.StraightRun | src/pages/Index.tsx:181-190 | n frames forward (or backward) without turning move the player by n·0.15·(sin r, cos r) backwards (or forwards) and keep the heading |
| Controller.ForwardThenBack | src/pages/Index.tsx:181-190 | n frames forward then n frames backward without turning return the player exactly to the starting state |
| Controller.StartExamples | src/pages/Index.tsx:147-193 | from the start state with sin 0 = 0 and cos 0 = 1, ten forward frames reach (0, 1.25, −1.5); eighteen left turns give heading 0.9 |
| CameraRig.CameraOnCircle | src/pages/Index.tsx:204-209 | the camera looks at the point 1 above the player from 4 above it, and where sin² + cos² = 1 it stays exactly 10 from the player in the ground plane |
| CameraRig.CameraRigid | src/pages/Index.tsx:204-209 | moving the player by d moves eye and target by d; the offset from target to eye is (10 sin r, 4, 10 cos r) and depends on the heading alone |
| CameraRig.CameraBehind | src/pages/Index.tsx:181-207 | after a forward frame the camera recomputed for the moved player is 5 above it and behind it on the line of motion: its ground-plane offset is the frame's displacement reversed and scaled by 10 / 0.15 |
| CameraRig.QuarterTurnPose | src/pages/Index.tsx:206-208 | at a heading with sin = 1 and cos = 0 the eye is the player's position plus (10, 5, 0) |
| CameraRig.HeadIgnoresHeading | src/pages/Index.tsx:200-202 | the head takes the player's x and z, keeps height 2.5, and no heading moves it |
| CameraRig.InitialPoseNotChase | src/pages/Index.tsx:161-162 | the camera pose set before the first frame is not the chase pose of the start state; its eye is 1.25 lower |
| Session.World.constructor | src/pages/Index.tsx:7-166 | the set-up before the first frame builds exactly the static scene, starts with an empty key table, the player at (0, 1.25, 0) with heading 0, the head at (0, 2.5, 0) and the camera at (0, 5, 10) looking at (0, 1, 0) |
| Session.Enter | src/pages/Index.tsx:7-214 | entering the view is the set-up followed by the first frame: the player is still at the start, and the camera is already in the chase pose of the start state |
| Session.World.KeyDown | src/pages/Index.tsx:168-170 | the keydown handler writes true under the lower-cased key and changes nothing else |
| Session.World.KeyUp | src/pages/Index.tsx:172-174 | the keyup handler writes false under the lower-cased key and changes nothing else |
| Session.World.Tick | src/pages/Index.tsx:179-209 | one frame advances the player exactly as `Advance` does for the flags decoded from the key table. The frame keeps the player at height 1.25, the head above the player at 2.5 and the mesh yaw equal to the heading. It then leaves the camera in the chase pose of the new state and does not touch the key table |

## Left out

- Three.js objects are left out: geometries, materials, colours other than a building's, fog, shadows, `renderer.render` and `renderer.dispose`. They are library calls with no logic of the effect's own. An object is modelled as its kind and position only.
- The ambient and directional lights are left out. They are fixed library objects, and their placement involves no arithmetic.
- The quarter-turn rotations of the ground and the roads are reduced to a "crossing" flag on the second road.
- The player and head meshes are not part of the `scene` list. They are the `position` and `head` fields of `Session.World`.
- The eight `createBuilding` calls and the four `createTree` calls are modelled as loops over constant tables in the same order.
- `requestAnimationFrame` scheduling is left out. One frame is `Tick`, and a run of frames is the `Run` function.
- Key events are not concurrent with frames. In the browser they run between frames on the same thread, so they are modelled as method calls between `Tick` calls.
- The resize handler is left out. It only divides the window size and calls library update methods.
- Teardown and listener removal are left out. The cleanup passes fresh closures to `removeEventListener`, so the key listeners stay registered. That is not modelled.
- The unused `moved` flag and the component's JSX shell are left out.
- The values of `Math.sin` and `Math.cos` are not modelled: they are parameters.
- Floating-point rounding is not modelled. Positions and headings are exact reals, so `ForwardThenBack` returns the player exactly. In IEEE doubles the return is only approximate.
- Input.Lower: lower-cases the ASCII letters only. JavaScript's `toLowerCase` also folds non-ASCII letters, which no bound key uses.
- WorldBuilder.BuildingSpec: building heights are integers. Every call passes an integer height, and the window loop over a fractional height is not modelled.
