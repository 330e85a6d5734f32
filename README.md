# Rogue-Cube: a Dafny model of the game logic

Rogue-Cube is a small Unity puzzle game. The player is a cube that rolls over a grid,
one cell per move, and must press every floor button of a level to win. This project
models the game's scripts:

- the game manager (`game.dfy`): level choice, the timed level setup, and the button
  countdown;
- the player controller (`player.dfy`): gravity check, keyboard input with a fixed order
  of preference, the rolling move about a bottom edge, and the camera follow;
- the obstacle detector (`obstacles.dfy`): a trigger counter;
- the floor button (`buttons.dfy`): a one-shot trigger that reports to the game manager;
- the level record (`levels.dfy`).

Engine values live in `scene.dfy`: vectors, colliders and the camera transform.

Coordinates and angles are exact reals. Every resting position the game uses is a
multiple of one half, so a completed roll can be proved to land exactly one cell over.

Engine services are passed in as parameters:

- Physics.Raycast is a function `(origin, direction) -> bool`.
- The keys held in a frame are a set of `Key`s.
- Random.Range is a nondeterministic choice of a value between its two bounds.
- Each frame of a roll is given as its Time.deltaTime together with the cube position
  the engine's floating-point RotateAround produced.

The singletons `GameManager.instance` and `LevelManager.instance` become explicit
references. A button holds its manager, and the manager holds the level list.

Three facts about the counters that follow from the code as written:

- `ButtonActivated` subtracts one with no floor, so calls past the level's button count
  drive the objective counter negative, and the level never finishes a second time
  (`Game.WinsAfterClosedForm`).
- The setup sets the objective counter to `numButtons`, and the level only finishes on
  an activation that brings it to zero. A level with no buttons therefore never
  finishes (`Game.WinsAfterClosedForm`).
- The obstacle detector's counter has no floor either: a counted exit with no matching
  enter drives it below zero (`Obstacles.StrayExitGoesNegative`).

## Model

| member | source | states |
|---|---|---|
| Scene.RightAngleTurnIsRodrigues | Assets/Scripts/PlayerController.cs:101 | the right-angle turn table used for RotateAround equals Rodrigues' formula k×v + k(k·v) for each signed unit axis |
| Player.ProbeMatchesRoll | Assets/Scripts/PlayerController.cs:109-128 | the ray IsDirectionClear casts for a direction's name is the unit vector toward the cell that Move rolls into; the pivot offsets are half of that vector and half of "down" |
| Player.ProbeOtherNames | Assets/Scripts/PlayerController.cs:109-129 | "below" casts straight down; any name outside the switch casts the zero vector |
| Player.RollAxisIsUpCrossEdge | Assets/Scripts/PlayerController.cs:65-83 | each roll axis of Move's switch is up × the direction of travel, and that direction has no vertical component and unit length |
| Player.RollLandsOneCellOver | Assets/Scripts/PlayerController.cs:63-84 | a 90° turn about the pivot (half a unit toward the edge, half a unit down) and the tabled axis carries the cube exactly one cell over, at the same height |
| Player.EnabledMoves | Assets/Scripts/PlayerController.cs:42-57 | a direction is enabled exactly when its arrow or letter key is held and its side is clear |
| Player.FirstEnabled | Assets/Scripts/PlayerController.cs:42-57 | the result is none exactly when no direction of the order is enabled; otherwise it is enabled and no earlier direction of the order is |
| Player.CameraFollow | Assets/Scripts/PlayerController.cs:132-136 | the follow never changes the camera's height; right after linking it leaves the camera in place; a one-cell roll moves the camera by the same cell |
| Player.PlayerController.constructor | Assets/Scripts/GameManager.cs:104 | the instantiated player stands at the given position with the cube at the parent's origin and the prefab's flags |
| Player.PlayerController.LinkCamera | Assets/Scripts/PlayerController.cs:31-34 | the controller records the camera and its offset from the cube |
| Player.PlayerController.SetParentPosition | Assets/Scripts/PlayerController.cs:95 | moving the parent moves the child cube by the same amount, keeping its local position |
| Player.PlayerController.ManageInput | Assets/Scripts/PlayerController.cs:38-58 | nothing happens while moving or when movement is disabled; otherwise the first enabled direction in the order up, down, left, right starts a move, and `moving` is set exactly when one starts |
| Player.PlayerController.ManageGravity | Assets/Scripts/PlayerController.cs:138-144 | with movement enabled, no move running and nothing below, movement is disabled and the rigidbody is handed to gravity; otherwise nothing changes |
| Player.PlayerController.ManageCamera | Assets/Scripts/PlayerController.cs:132-136 | the camera takes the cube's position plus the offset, except that it keeps its height and its rotation |
| Player.PlayerController.Update | Assets/Scripts/PlayerController.cs:23-27 | gravity, then input, then camera: a frame that hands the cube to gravity starts no move; otherwise the gravity flags are kept and a move starts exactly as ManageInput chooses; the camera follows the cube and keeps its rotation |
| Player.PlayerController.Move | Assets/Scripts/PlayerController.cs:60-105 | each frame turns by 90·deltaTime·speed degrees; the frame angles plus the final angle make exactly 90° (the final one negative after an overshoot); during the loop the parent follows the cube's x and z at a fixed height; at the end the parent is one cell over, the cube sits at its origin and `moving` is false |
| Obstacles.CountsConcat | Assets/Scripts/ObstacleDetector.cs:10-23 | counted enters and counted exits add up over concatenated event histories |
| Obstacles.EnterAllCounts | Assets/Scripts/ObstacleDetector.cs:10-16 | entries by a sequence of colliders raise the count by the number of them that are neither Player nor Detector |
| Obstacles.ExitAllCounts | Assets/Scripts/ObstacleDetector.cs:18-23 | exits by a sequence of colliders lower the count by the number of them that are neither Player nor Detector |
| Obstacles.CountedInPermutation | Assets/Scripts/ObstacleDetector.cs:11 | the filter's count depends only on which colliders there are, not on their order |
| Obstacles.BalancedReturnsToZero | Assets/Scripts/ObstacleDetector.cs:10-23 | when the colliders that entered all leave again, in any order, the counter is back to zero |
| Obstacles.StrayExitGoesNegative | Assets/Scripts/ObstacleDetector.cs:18-23 | the counter has no floor: a counted exit from a zero or negative count makes it negative |
| Obstacles.ObstacleDetector.constructor | Assets/Scripts/ObstacleDetector.cs:7-8 | a new detector has a zero counter, no collision and an empty history |
| Obstacles.ObstacleDetector.OnTriggerEnter | Assets/Scripts/ObstacleDetector.cs:10-16 | a counted collider raises the counter by one; Player and Detector are ignored; the counter stays equal to counted enters minus counted exits, and `colliding` to counter > 0 |
| Obstacles.ObstacleDetector.OnTriggerExit | Assets/Scripts/ObstacleDetector.cs:18-23 | a counted collider lowers the counter by one, without a floor; Player and Detector are ignored; the same invariant is kept |
| Obstacles.StrayExit | Assets/Scripts/ObstacleDetector.cs:18-23 | a fresh detector that sees a counted collider leave ends at -1 with no collision |
| Game.SpawnIsCellCentre | Assets/Scripts/GameManager.cs:71 | the spawn point is (spawnX + 0.5, 0.5, -(spawnY + 0.5)), the centre of cell (spawnX, spawnY), and that cell can be read back from it |
| Game.RollStaysOnGrid | Assets/Scripts/GameManager.cs:71 | a roll from a cell centre ends on the centre of the neighbouring cell (up lowers spawnY, down raises it, right and left change spawnX) |
| Game.ChooseLevel | Assets/Scripts/GameManager.cs:55-57 | the first level of the list; none exactly when the list is empty, where the indexer throws |
| Game.WinsAfterClosedForm | Assets/Scripts/GameManager.cs:127-132 | after k activations the level has finished once if the counter started between 1 and k, and never otherwise; with 0 buttons it never finishes |
| Game.WaitCoversAllTweens | Assets/Scripts/GameManager.cs:81-101 | the wait of maxTweenDuration + 0.5 outlasts every duration Random.Range can draw exactly when minTweenDuration is below it |
| Game.SetupOrder | Assets/Scripts/GameManager.cs:66-112 | the setup first sets the button counter, then places the camera at spawn + offset with the configured rotation and loads the level; then it tweens the floor, wall and button children in turn, each at time 0 with its own drawn duration; after that come the spawn, the camera link and the player tween at the spawn time, and clearing the moving flag comes last, playerTweenDuration + 0.5 later |
| Game.SetupTiming | Assets/Scripts/GameManager.cs:79-110 | with durations drawn between the bounds, every environment tween has ended when the player spawns, and the player's tween has ended when the moving flag is cleared |
| Game.GameManager.constructor | Assets/Scripts/GameManager.cs:10-28 | the manager holds its settings, camera, player prefab and levels, and has no player, no level and no win yet |
| Game.GameManager.Start | Assets/Scripts/GameManager.cs:41-49 | the depth is reset and the first level is chosen; with a level, it is set up exactly as SetupLevelCoroutine states (counter, drawn durations, trace, camera placement, a fresh player at the spawn point linked to the camera and not moving); with no levels nothing is set up and the camera stays put |
| Game.GameManager.SetupLevelCoroutine | Assets/Scripts/GameManager.cs:66-112 | the counter becomes numButtons; the camera stands at spawn + offset with the configured rotation; the steps taken are the setup trace; a fresh player stands at the spawn point, linked to the camera with exactly the offset, and is not moving |
| Game.GameManager.TweenGroup | Assets/Scripts/GameManager.cs:80-86 | every child of the group gets a duration between the bounds and a tween of that duration |
| Game.GameManager.SpawnAndEnable | Assets/Scripts/GameManager.cs:103-111 | the player is spawned, linked and tweened at the spawn time, and its moving flag is cleared playerTweenDuration + 0.5 later |
| Game.GameManager.LevelFinished | Assets/Scripts/GameManager.cs:121-123 | one more win is announced |
| Game.GameManager.ButtonActivated | Assets/Scripts/GameManager.cs:127-132 | the counter drops by exactly one, and the level finishes exactly when it reaches zero |
| Buttons.Button.constructor | Assets/Scripts/Button.cs:9 | a new button is not activated |
| Buttons.Button.OnTriggerEnter | Assets/Scripts/Button.cs:11-15 | only the first Player contact activates the button; `activated` never goes back; every other contact changes nothing |
| Buttons.Button.ActivateButton | Assets/Scripts/Button.cs:17-21 | the button is marked active, shows the active material, and counts down the manager once |
| Buttons.PressedByPlayer | Assets/Scripts/Button.cs:12 | a button is pressed by a sequence of contacts exactly when one of its contacts is Player-tagged |
| Buttons.AllPressedFinishOnce | Assets/Scripts/Button.cs:11-21 | when the player has touched each of n buttons, n distinct activations happened and, with the counter set to n, the level finished exactly once |
| Buttons.TouchOne | Assets/Scripts/Button.cs:11-21 | one contact moves the counter, the wins and the activated flags from the buttons pressed before it to those pressed after it |
| Buttons.TouchButtons | Assets/Scripts/Button.cs:11-21 | over any sequence of contacts with distinct buttons of one manager, the counter drops by the number of distinct buttons the player touched, the wins follow the countdown, and exactly those buttons are activated |

## Left out

- Awake's singleton bookkeeping (`instance`, `Destroy`, `DontDestroyOnLoad`) is left out. The objects hold explicit references to one another instead.
- iTween's animation itself (fading, easing, intermediate positions) is left out. A tween is recorded as a setup step with its target, start time, duration and lift.
- FadeFrom and MoveFrom on the same child always get the same duration, so they are recorded as a single step.
- Random.Range is an unspecified choice between its bounds, in either order of the bounds. Which value the engine's generator picks is not modelled.
- The physics engine is left out: raycasts and trigger callbacks come in as parameters and calls, and the fall after gravity is enabled is not modelled.
- Floating-point rounding is left out: coordinates, times and angles are exact reals.
- Coroutine scheduling is left out:
  - SetupLevelCoroutine runs to completion in one call, and its waits advance a clock that stamps the steps.
  - Move runs over a given sequence of frames. How many frames the loop condition `Time.time - timeAnchor <= duration` admits depends on the frame clock, and is not modelled.
  - Frames of Update that interleave with a running coroutine are not modelled.
- Player.PlayerController.Update: when a move starts, StartCoroutine runs Move up to its first `yield return 0` inside the same frame (PlayerController.cs:44-56, 91-99), so the cube takes its first partial turn and the parent follows before ManageCamera runs. The model's Update does not run that first step: it leaves both positions unchanged and reports the started direction, and Move runs every frame of the roll, the first included.
- Player.PlayerController.Move: RotateAround also turns the cube's orientation (PlayerController.cs:91, 101). The model tracks positions only, not the cube's rotation.
- Game.GameManager.SetupLevelCoroutine: each foreach over `transform.Find("Floor")`, `"Walls"` or `"Buttons"` (GameManager.cs:80, 87, 94) throws when the prefab lacks that group. The model's LevelPrefab always has all three groups, so that failure is not modelled.
- Player.PlayerController.Move: the cube positions on the arc during the loop are engine results the model takes as given. They are not checked to lie on the quarter circle. Only the final position is computed, exactly, from the accumulated 90°.
- Player.PlayerController.Move: the final turn is modelled as one exact quarter turn from the starting position. This holds because turns about one fixed pivot and axis add up; the partial rotations are not composed step by step.
- Renderer materials are identities only. Input.GetKey is a set of held keys.
- `print("You win!")` is modelled as a count of wins.
- Level fields that no core code reads (difficulty, width, height) are carried but constrain nothing. The prefab is reduced to the number of children under its Floor, Walls and Buttons groups.
- LevelManager's empty Start and Update are left out.
- Scene geometry is left out: the prefab's children, their positions and the colliders they carry.
