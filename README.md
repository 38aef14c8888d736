# Let's Go, Capybara! — the Game scene's control and scoring logic

A Dafny model of the per-frame logic of the `Game` scene of the
capybara collecting game (`src/game/scenes/Game.ts`):

- **Touch buttons.** Four on-screen buttons each carry an `active` flag. A
  pointer-down on a button sets its own flag. Every button's pointer-up handler
  calls `movePlayerTouch()` with no direction, so releasing any button clears
  all four flags.
- **Input unification.** Each tick, each direction handed to `movePlayer` is the
  cursor key's `isDown` OR the matching button's `active` flag.
- **Movement.** `movePlayer` makes a horizontal pass (left beats right) and
  then a vertical pass (up beats down). It sets each velocity component to
  -240, 0 or 240 and plays `capy_idle` or `capy_side_walk`. It keeps the
  facing (`flipX`) unless a horizontal direction is set, and it highlights the
  buttons. A losing button's frame is left untouched; a button is reset to
  frame 0 only when neither direction of its axis is set.
- **Scoring.** `create` makes 250 items (`250 * MULTIPLIER`), each with
  `points` = 1. Every item the player overlaps adds its points to
  `scoreValue`, rewrites the readout to `Score: <n>` and is destroyed.

Files:

- `controls.dfy`, module `Controls`. Directions, the OR rule, and the
  movement decision table as functions: the winner of each axis, velocities,
  animation, facing, frames, and `MoveStep` for a whole tick. It also holds
  the touch transitions and facing over several ticks, with lemmas for each
  rule.
- `scoring.dfy`, module `Scoring`. Item constants, the decimal text of the
  score with its round trip, and the scoring invariant `ScoreOk`.
- `game_scene.dfy`, module `GameScene`. The class `Scene` holds the fields
  the source updates in place: the sprite's facing, velocity and animation,
  the buttons' flags and frames, the score, the readout and the live items.
  Its methods follow the source statement by statement and are proved
  against the functions above. Two client methods at the end walk the scene
  through short scenarios whose asserts the verifier checks.

The host is a parameter. `Update` takes the cursor keys' state and the set of
live items the player overlaps this tick.

## Model

| member | source | states |
|---|---|---|
| GameScene.Scene.constructor | src/game/scenes/Game.ts:36-89 | After construction and `create`, the score is 0, the readout is exactly "Score: 0", items 0..249 are live and worth 1 point each, no button is active, every frame is 0, and the sprite faces unflipped and stands still. |
| GameScene.Scene.CreateItems | src/game/scenes/Game.ts:152-167 | The loop leaves exactly `num` live items, with ids 0..num-1, each worth `points` = 1. |
| GameScene.Scene.CollectItem | src/game/scenes/Game.ts:169-175 | Collecting a live item adds its points to the score, so the score strictly increases. The readout becomes "Score: " followed by the score in decimal. The item leaves the live set, and score + number of live items stays 250. |
| GameScene.Scene.CollectOverlapping | src/game/scenes/Game.ts:99 | Collecting every overlapped live item in one tick raises the score by the number of those items and removes exactly them from the live set. The scoring invariant is kept. |
| GameScene.Scene.MovePlayerTouch | src/game/scenes/Game.ts:245-266 | "up", "down", "right" or "left" sets that one button's flag; any other argument, including none, clears all four. |
| GameScene.Scene.OnPointerDown | src/game/scenes/Game.ts:222-229 | A pointer-down on a button switches on its own flag and leaves the other three unchanged. |
| GameScene.Scene.OnPointerUp | src/game/scenes/Game.ts:222-229 | A pointer-up on any button, whichever it is, clears all four flags. |
| GameScene.Scene.HorizontalPass | src/game/scenes/Game.ts:274-288 | The horizontal pass sets the horizontal velocity towards the winner (left beats right), or to 0. It sets the winner's frame to 1. It resets both horizontal frames only when neither is set, and otherwise leaves the losing frame untouched. The facing becomes false for left, true for right, and is otherwise kept. |
| GameScene.Scene.VerticalPass | src/game/scenes/Game.ts:290-316 | The vertical pass sets the vertical velocity towards the winner (up beats down), or to 0, with the same frame rule for up/down. Given what the horizontal pass left, it never changes the facing or the horizontal frames. |
| GameScene.Scene.MovePlayer | src/game/scenes/Game.ts:268-320 | The sprite's facing, velocity and animation and the four frames after the call are exactly `MoveStep` of the state before and the four booleans. Frames stay 0 or 1. |
| GameScene.Scene.Update | src/game/scenes/Game.ts:91-100 | One tick moves the player by `MoveStep` of the keys OR-ed with the touch flags. It collects exactly the overlapped items, raises the score by their number and keeps the invariants. |
| Controls.Unify | src/game/scenes/Game.ts:93-96 | Each direction of the intent is set exactly when its key is down or its button is active. |
| Controls.Winner | src/game/scenes/Game.ts:274-316 | The winner of an axis is a set direction of that axis. There is none exactly when no direction of the axis is set. When both are set, left beats right and up beats down. |
| Controls.HorizontalVelocityRule | src/game/scenes/Game.ts:274-288 | The horizontal velocity is -240 if left, else 240 if right, else 0. |
| Controls.VerticalVelocityRule | src/game/scenes/Game.ts:290-316 | The vertical velocity is -240 if up, else 240 if down, else 0. |
| Controls.VelocityRange | src/game/scenes/Game.ts:269-316 | Each velocity component is -240, 0 or 240. |
| Controls.AnimationRule | src/game/scenes/Game.ts:270-318 | The animation played is `capy_idle` exactly when no direction is set and `capy_side_walk` otherwise. `capy_side_run` is never played. |
| Controls.FacingRule | src/game/scenes/Game.ts:272-319 | The facing is false if left, else true if right, else the previous facing. |
| Controls.FrameRule | src/game/scenes/Game.ts:278-315 | The winning button shows frame 1. Both buttons of an axis with no input show 0. A losing button keeps its previous frame, so right keeps its frame whenever left is held and down whenever up is held. Frames stay within 0..1. |
| Controls.StaleHighlight | src/game/scenes/Game.ts:278-287 | After a tick of right only and then a tick of left only, the right button still shows frame 1. |
| Controls.NoInputIsIdle | src/game/scenes/Game.ts:268-320 | With no input the velocity is (0, 0), the animation is `capy_idle`, every frame is 0 and the facing is unchanged. |
| Controls.MoveStepOk | src/game/scenes/Game.ts:268-320 | A tick keeps the frames within 0..1 and always plays one of the two reachable animations. |
| Controls.TouchActsLikeKeyAnyState | src/game/scenes/Game.ts:93-96 | Whatever keys and buttons are already held, pressing a touch button gives the same intent as pressing the matching key. |
| Controls.TouchActsLikeKey | src/game/scenes/Game.ts:93-96 | With nothing else held, a touch button gives the same intent as the matching key, so the player moves towards that direction, walks, and lights that button. |
| Controls.FacingAfterTicksAppend | src/game/scenes/Game.ts:272-319 | Facing over two runs of ticks is facing over the first run, then over the second. |
| Controls.FacingKeptWithoutHorizontal | src/game/scenes/Game.ts:272-288 | Any number of ticks without horizontal input leave the facing as it was. |
| Controls.FacingFollowsLastHorizontal | src/game/scenes/Game.ts:272-319 | After any history, the facing is decided by the last tick that had horizontal input: false if left was set in it, true if only right. |
| Controls.ParseDirection | src/game/scenes/Game.ts:245-265 | The switch selects a direction exactly for that direction's own name, and the default case for every other string. |
| Controls.PointerDownSetsOnlyItsFlag | src/game/scenes/Game.ts:245-258 | Passing a direction's name sets that flag and leaves the other three as they were. |
| Controls.PointerUpClearsAll | src/game/scenes/Game.ts:259-264 | Passing no direction clears all four flags. |
| Controls.TouchIdempotent | src/game/scenes/Game.ts:245-265 | Repeating the same touch event changes nothing further. |
| Scoring.NatToString | src/game/scenes/Game.ts:172 | The score's text is at least one decimal digit, with no leading zero except for 0. |
| Scoring.DecimalRoundTrip | src/game/scenes/Game.ts:172 | Reading the score's text back as a decimal number gives the score. |
| Scoring.ReadoutInjective | src/game/scenes/Game.ts:172 | Two different scores never show the same readout. |
| Scoring.InitialReadout | src/game/scenes/Game.ts:195 | The readout for score 0 is exactly "Score: 0", the text the display starts with. |

## Left out

- Asset loading and animation registration (`preload`, `createPlayerAnimation`): these are loader and animation-manager calls. The animation is modelled as the key string passed to `anims.play`.
- World bounds, the border rectangles, the camera and the background (`createWorld`, `createCamera`, lines 231-241): these are rendering and host configuration.
- Text styling, the title, and the positions and scale of the touch buttons: these are cosmetic.
- Random item positions and frames: these are random and host-provided. Items are ids 0..249 with their `points`.
- Arcade physics: overlap detection, velocity integration and clamping to the world bounds are host work on floating-point positions. The overlapped items are a parameter of `Update`. The model does not fix the order in which the host reports them; the score does not depend on it.
- GameScene.Scene.CollectItem: requires the item to be live. The host only reports live group members; calling `collectItem` on a destroyed item is outside what the source handles.
- The missing-keyboard case (`this.input.keyboard?.` at line 107): the model assumes the keyboard exists. Without it, line 93 would throw rather than read "no key pressed".
- `EventBus.emit`, `changeScene` (empty) and `src/game/scenes/MainMenu.ts`: these are event and scene-switching plumbing with no logic.
- Scoring.NatToString: models JavaScript's number-to-string only for non-negative integers. That covers every score, which ranges over 0..250.
- The release of a touch button is modelled as written: any pointer-up clears all four flags. A release scoped to its own button is not modelled.
- The animation before the first tick is modelled as "" (nothing played yet).
