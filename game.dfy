/** The game manager: picks a level, sets it up (camera, environment tween, player spawn)
    as a timed sequence of steps, and counts down the level's buttons to the win. */
module Game {
  import opened Scene
  import opened Levels
  import opened Player

  /** The game manager's serialized constants. */
  datatype Settings = Settings(
    cameraOffsetPos: Vec3,
    cameraRotation: Vec3,
    minTweenDuration: real,
    maxTweenDuration: real,
    playerTweenDuration: real,
    tweenDistance: real)

  /** The serialized values of the player prefab's controller and cube rigidbody. */
  datatype PlayerPrefab = PlayerPrefab(speed: real, canMove: bool, moving: bool, useGravity: bool, isKinematic: bool)

  // ---------------------------------------------------------------- spawn arithmetic

  /** Where the player spawns (and what the camera is placed relative to): the offset
      (0.5, 0.5, -0.5) plus (spawnX, 0, -spawnY). */
  function SpawnPosition(spawnX: int, spawnY: int): Vec3 {
    Vec3(0.5, 0.5, -0.5).Plus(Vec3(spawnX as real, 0.0, -(spawnY as real)))
  }

  /** The grid cell a point lies over: cell (x, y) covers [x, x + 1) along the world x
      axis and (-(y + 1), -y] along the world z axis, so spawnY grows toward -z. */
  function CellOf(p: Vec3): (int, int) {
    (p.x.Floor, -p.z.Floor - 1)
  }

  /** The cell a roll in a direction leads to. Rolling "up" (forward, +z) lowers the row. */
  function Neighbour(cell: (int, int), d: Direction): (int, int) {
    match d
    case Up => (cell.0, cell.1 - 1)
    case Down => (cell.0, cell.1 + 1)
    case Right => (cell.0 + 1, cell.1)
    case Left => (cell.0 - 1, cell.1)
  }

  /** The spawn point is the centre of cell (spawnX, spawnY) on top of the floor, and that
      cell can be read back from it. */
  lemma SpawnIsCellCentre(x: int, y: int)
    ensures SpawnPosition(x, y) == Vec3(x as real + 0.5, 0.5, -(y as real + 0.5))
    ensures CellOf(SpawnPosition(x, y)) == (x, y)
  {
    var p := SpawnPosition(x, y);
    assert p.x == x as real + 0.5 && p.z == -(y as real) - 0.5;
    assert p.z.Floor == -y - 1;
  }

  /** A completed roll from a cell centre ends on the centre of the neighbouring cell, so
      the cube stays on the grid that spawn positions are drawn from. */
  lemma RollStaysOnGrid(x: int, y: int, d: Direction)
    ensures var n := Neighbour((x, y), d);
      QuarterTurn(Pivot(SpawnPosition(x, y), d), RollAxis(d), SpawnPosition(x, y)) == SpawnPosition(n.0, n.1)
  {
    RollLandsOneCellOver(SpawnPosition(x, y), d);
  }

  // ---------------------------------------------------------------- level choice

  /** ChooseLevel: always the first level of the list. An empty list makes the indexer
      throw, which the model reports as None. */
  function ChooseLevel(levels: seq<Level>): (r: Option<Level>)
    ensures r.Some? <==> |levels| > 0
    ensures r.Some? ==> r == Some(levels[0])
  {
    if |levels| == 0 then None else Some(levels[0])
  }

  // ---------------------------------------------------------------- button countdown

  /** The number of wins (LevelFinished calls) that k button activations produce when the
      countdown starts at `remaining`: the k-th activation finishes the level exactly when
      it brings the counter to zero. */
  function WinsAfter(remaining: int, k: nat): nat {
    if k == 0 then 0 else WinsAfter(remaining, k - 1) + (if remaining - k == 0 then 1 else 0)
  }

  /** The level finishes exactly once, on the activation that brings the counter to zero:
      after k activations it has finished once if the counter started between 1 and k, and
      never otherwise. A level with no buttons (or a negative count) never finishes; its
      counter only goes further below zero. */
  lemma {:induction false} WinsAfterClosedForm(remaining: int, k: nat)
    ensures WinsAfter(remaining, k) == if 1 <= remaining <= k then 1 else 0
  {
    if k > 0 {
      WinsAfterClosedForm(remaining, k - 1);
    }
  }

  // ---------------------------------------------------------------- tween timing

  /** What Random.Range(lo, hi) can return: a value between the two bounds, whichever
      order they come in. */
  predicate InRange(v: real, lo: real, hi: real) {
    if lo <= hi then lo <= v <= hi else hi <= v <= lo
  }

  /** The wait of maxTweenDuration + 0.5 outlasts every environment tween exactly when
      minTweenDuration is below that wait; with minTweenDuration <= maxTweenDuration it
      always does. */
  lemma WaitCoversAllTweens(lo: real, hi: real)
    ensures (forall v :: InRange(v, lo, hi) ==> v < hi + 0.5) <==> lo < hi + 0.5
  {
    assert InRange(lo, lo, hi);
  }

  /** The three groups of children the setup tweens, in the order it tweens them. */
  datatype Group = Floor | Walls | Buttons

  /** What a tween moves: a child of one of the level's groups, or the player. */
  datatype Target = Child(group: Group, index: nat) | PlayerObject

  /** An observable step of the level setup. Times are seconds since the setup began. */
  datatype SetupEvent =
    | ResetButtons(count: int)
    | PlaceCamera(position: Vec3, eulerAngles: Vec3)
    | LoadLevel(prefab: LevelPrefab)
      /** FadeFrom and MoveFrom with the same duration: the target fades in and drops by
          `lift` from above its place, starting at time `at`. */
    | Tween(target: Target, at: real, duration: real, lift: real)
    | SpawnPlayer(position: Vec3, at: real)
    | LinkCamera(offset: Vec3)
    | ClearMoving(at: real)

  /** The tweens of one group's children, all started at the same time. */
  function GroupTweens(g: Group, durations: seq<real>, at: real, lift: real): seq<SetupEvent> {
    seq(|durations|, i requires 0 <= i < |durations| => Tween(Child(g, i), at, durations[i], lift))
  }

  /** When the player is spawned: after the environment wait of maxTweenDuration + 0.5. */
  function SpawnTime(s: Settings): real {
    s.maxTweenDuration + 0.5
  }

  /** The steps of SetupLevelCoroutine for a level, given the random durations it drew for
      the children of the three groups. */
  function SetupTrace(level: Level, s: Settings, floor: seq<real>, walls: seq<real>, buttons: seq<real>): seq<SetupEvent> {
    var spawn := SpawnPosition(level.spawnX, level.spawnY);
    var t := SpawnTime(s);
    [ResetButtons(level.numButtons), PlaceCamera(spawn.Plus(s.cameraOffsetPos), s.cameraRotation), LoadLevel(level.levelPrefab)]
    + GroupTweens(Floor, floor, 0.0, s.tweenDistance)
    + GroupTweens(Walls, walls, 0.0, s.tweenDistance)
    + GroupTweens(Buttons, buttons, 0.0, s.tweenDistance)
    + [SpawnPlayer(spawn, t), LinkCamera(s.cameraOffsetPos), Tween(PlayerObject, t, s.playerTweenDuration, s.tweenDistance),
       ClearMoving(t + s.playerTweenDuration + 0.5)]
  }

  /** Random durations for a group whose children number `count`. */
  predicate Drawn(durations: seq<real>, count: nat, s: Settings) {
    |durations| == count &&
    forall i :: 0 <= i < |durations| ==> InRange(durations[i], s.minTweenDuration, s.maxTweenDuration)
  }

  /** The order of the setup: the button counter is set before anything else, the camera
      is placed and the level instantiated next, and the moving flag is cleared last; every
      environment tween starts at the beginning, group by group and child by child with the
      duration drawn for it, before the player is spawned, and the spawn, camera link and
      player tween come right after them. */
  lemma SetupOrder(level: Level, s: Settings, floor: seq<real>, walls: seq<real>, buttons: seq<real>)
    ensures var tr := SetupTrace(level, s, floor, walls, buttons);
      var n := 3 + |floor| + |walls| + |buttons|;
      var spawn := SpawnPosition(level.spawnX, level.spawnY);
      && |tr| == n + 4
      && tr[0] == ResetButtons(level.numButtons)
      && tr[1] == PlaceCamera(spawn.Plus(s.cameraOffsetPos), s.cameraRotation)
      && tr[2] == LoadLevel(level.levelPrefab)
      && (forall i :: 0 <= i < |floor| ==> tr[3 + i] == Tween(Child(Floor, i), 0.0, floor[i], s.tweenDistance))
      && (forall i :: 0 <= i < |walls| ==>
            tr[3 + |floor| + i] == Tween(Child(Walls, i), 0.0, walls[i], s.tweenDistance))
      && (forall i :: 0 <= i < |buttons| ==>
            tr[3 + |floor| + |walls| + i] == Tween(Child(Buttons, i), 0.0, buttons[i], s.tweenDistance))
      && tr[n] == SpawnPlayer(spawn, SpawnTime(s))
      && tr[n + 1] == LinkCamera(s.cameraOffsetPos)
      && tr[n + 2] == Tween(PlayerObject, SpawnTime(s), s.playerTweenDuration, s.tweenDistance)
      && tr[n + 3] == ClearMoving(SpawnTime(s) + s.playerTweenDuration + 0.5)
      && (forall i :: 3 <= i < n ==> tr[i].Tween? && tr[i].target.Child? && tr[i].at == 0.0)
      && (forall i :: 0 <= i < n + 3 ==> !tr[i].ClearMoving?)
  {
    var tr := SetupTrace(level, s, floor, walls, buttons);
    var n := 3 + |floor| + |walls| + |buttons|;
    var ft, wt, bt := GroupTweens(Floor, floor, 0.0, s.tweenDistance),
                      GroupTweens(Walls, walls, 0.0, s.tweenDistance),
                      GroupTweens(Buttons, buttons, 0.0, s.tweenDistance);
    forall i | 0 <= i < |floor|
      ensures tr[3 + i] == Tween(Child(Floor, i), 0.0, floor[i], s.tweenDistance)
    {
      assert tr[3 + i] == ft[i];
    }
    forall i | 0 <= i < |walls|
      ensures tr[3 + |floor| + i] == Tween(Child(Walls, i), 0.0, walls[i], s.tweenDistance)
    {
      assert tr[3 + |floor| + i] == wt[i];
    }
    forall i | 0 <= i < |buttons|
      ensures tr[3 + |floor| + |walls| + i] == Tween(Child(Buttons, i), 0.0, buttons[i], s.tweenDistance)
    {
      assert tr[3 + |floor| + |walls| + i] == bt[i];
    }
    forall i | 3 <= i < n
      ensures tr[i].Tween? && tr[i].target.Child? && tr[i].at == 0.0
    {
      if i < 3 + |floor| {
        assert tr[i] == ft[i - 3];
      } else if i < 3 + |floor| + |walls| {
        assert tr[i] == wt[i - 3 - |floor|];
      } else {
        assert tr[i] == bt[i - 3 - |floor| - |walls|];
      }
    }
  }

  /** The timing of the setup: with durations drawn from [minTweenDuration,
      maxTweenDuration] and the minimum below the wait, every environment tween has
      finished when the player appears, and the player's tween has finished when the
      moving flag is cleared. */
  lemma SetupTiming(level: Level, s: Settings, floor: seq<real>, walls: seq<real>, buttons: seq<real>)
    requires Drawn(floor, level.levelPrefab.floor, s)
    requires Drawn(walls, level.levelPrefab.walls, s)
    requires Drawn(buttons, level.levelPrefab.buttons, s)
    requires s.minTweenDuration < s.maxTweenDuration + 0.5
    ensures var tr := SetupTrace(level, s, floor, walls, buttons);
      var n := 3 + |floor| + |walls| + |buttons|;
      && (forall i :: 3 <= i < n ==> tr[i].Tween? && tr[i].at + tr[i].duration < tr[n].at)
      && tr[n + 2].at + tr[n + 2].duration < tr[n + 3].at
  {
    var tr := SetupTrace(level, s, floor, walls, buttons);
    var n := 3 + |floor| + |walls| + |buttons|;
    var lo, hi := s.minTweenDuration, s.maxTweenDuration;
    WaitCoversAllTweens(lo, hi);
    var ft, wt, bt := GroupTweens(Floor, floor, 0.0, s.tweenDistance),
                      GroupTweens(Walls, walls, 0.0, s.tweenDistance),
                      GroupTweens(Buttons, buttons, 0.0, s.tweenDistance);
    assert tr[n] == SpawnPlayer(SpawnPosition(level.spawnX, level.spawnY), hi + 0.5);
    forall i | 3 <= i < n
      ensures tr[i].Tween? && tr[i].at + tr[i].duration < tr[n].at
    {
      if i < 3 + |floor| {
        assert tr[i] == ft[i - 3];
        assert InRange(floor[i - 3], lo, hi);
      } else if i < 3 + |floor| + |walls| {
        assert tr[i] == wt[i - 3 - |floor|];
        assert InRange(walls[i - 3 - |floor|], lo, hi);
      } else {
        assert tr[i] == bt[i - 3 - |floor| - |walls|];
        assert InRange(buttons[i - 3 - |floor| - |walls|], lo, hi);
      }
    }
  }

  // ---------------------------------------------------------------- the manager

  class GameManager {
    const settings: Settings
    const cam: CameraRig
    const playerPrefab: PlayerPrefab
    /** The level manager's list of levels. */
    const levels: seq<Level>
    var player: PlayerController?
    var currentDepth: int
    var currentLevel: Option<Level>
    var buttonsRemaining: int
    /** How many times LevelFinished has run, that is, how often "You win!" was printed. */
    var wins: nat
    /** The setup steps performed so far. */
    ghost var log: seq<SetupEvent>

    constructor (settings: Settings, cam: CameraRig, playerPrefab: PlayerPrefab, levels: seq<Level>)
      ensures this.settings == settings && this.cam == cam && this.playerPrefab == playerPrefab
      ensures this.levels == levels
      ensures player == null && currentLevel == None && buttonsRemaining == 0 && wins == 0 && log == []
    {
      this.settings := settings;
      this.cam := cam;
      this.playerPrefab := playerPrefab;
      this.levels := levels;
      player := null;
      currentDepth := 0;
      currentLevel := None;
      buttonsRemaining := 0;
      wins := 0;
      log := [];
    }

    /** Starts the game: the first level of the list is chosen and set up. An empty list
        makes ChooseLevel throw, and nothing is set up. */
    method Start() returns (floor: seq<real>, walls: seq<real>, buttons: seq<real>)
      modifies this, cam
      ensures currentDepth == 0 && currentLevel == ChooseLevel(levels)
      ensures currentLevel.None? ==>
        floor == walls == buttons == [] && log == old(log) && player == old(player) &&
        buttonsRemaining == old(buttonsRemaining) && cam.position == old(cam.position) &&
        cam.eulerAngles == old(cam.eulerAngles)
      ensures currentLevel.Some? ==>
        var level := currentLevel.value;
        var spawn := SpawnPosition(level.spawnX, level.spawnY);
        && buttonsRemaining == level.numButtons
        && Drawn(floor, level.levelPrefab.floor, settings)
        && Drawn(walls, level.levelPrefab.walls, settings)
        && Drawn(buttons, level.levelPrefab.buttons, settings)
        && log == old(log) + SetupTrace(level, settings, floor, walls, buttons)
        && cam.position == spawn.Plus(settings.cameraOffsetPos)
        && cam.eulerAngles == settings.cameraRotation
        && player != null && fresh(player) && player.Valid()
        && player.parentPos == spawn && player.CubeLocalPosition() == Zero
        && player.cam == cam && player.relCamPos == settings.cameraOffsetPos
        && player.speed == playerPrefab.speed && player.canMove == playerPrefab.canMove
        && player.useGravity == playerPrefab.useGravity && player.isKinematic == playerPrefab.isKinematic
        && !player.moving
      ensures wins == old(wins)
    {
      currentDepth := 0;
      currentLevel := ChooseLevel(levels);
      floor, walls, buttons := [], [], [];
      if currentLevel.Some? {
        floor, walls, buttons := SetupLevelCoroutine(currentLevel.value);
      }
    }

    /** The setup of a level, run to completion; WaitForSeconds advances the clock that
        stamps the steps. Returns the durations Random.Range drew for the children of each
        group. */
    method SetupLevelCoroutine(level: Level) returns (floor: seq<real>, walls: seq<real>, buttons: seq<real>)
      modifies this`buttonsRemaining, this`player, this`log, cam
      ensures buttonsRemaining == level.numButtons
      ensures Drawn(floor, level.levelPrefab.floor, settings)
      ensures Drawn(walls, level.levelPrefab.walls, settings)
      ensures Drawn(buttons, level.levelPrefab.buttons, settings)
      ensures log == old(log) + SetupTrace(level, settings, floor, walls, buttons)
      ensures var spawn := SpawnPosition(level.spawnX, level.spawnY);
        && cam.position == spawn.Plus(settings.cameraOffsetPos)
        && cam.eulerAngles == settings.cameraRotation
        && player != null && fresh(player) && player.Valid()
        && player.parentPos == spawn && player.CubeLocalPosition() == Zero
        && player.cam == cam && player.relCamPos == settings.cameraOffsetPos
        && player.speed == playerPrefab.speed && player.canMove == playerPrefab.canMove
        && player.useGravity == playerPrefab.useGravity && player.isKinematic == playerPrefab.isKinematic
        && !player.moving
    {
      buttonsRemaining := level.numButtons;
      ghost var start := log;
      log := log + [ResetButtons(level.numButtons)];

      var clock := 0.0;
      var playerPosition := SpawnPosition(level.spawnX, level.spawnY);
      cam.position := playerPosition.Plus(settings.cameraOffsetPos);
      cam.eulerAngles := settings.cameraRotation;
      log := log + [PlaceCamera(cam.position, cam.eulerAngles), LoadLevel(level.levelPrefab)];
      ghost var head := log;

      floor := TweenGroup(Floor, level.levelPrefab.floor, clock);
      walls := TweenGroup(Walls, level.levelPrefab.walls, clock);
      buttons := TweenGroup(Buttons, level.levelPrefab.buttons, clock);
      ghost var tweened := log;
      clock := clock + (settings.maxTweenDuration + 0.5);

      SpawnAndEnable(playerPosition, clock);
      ghost var spawn := playerPosition;
      ghost var first := [ResetButtons(level.numButtons), PlaceCamera(spawn.Plus(settings.cameraOffsetPos), settings.cameraRotation), LoadLevel(level.levelPrefab)];
      ghost var tweens := GroupTweens(Floor, floor, 0.0, settings.tweenDistance)
                        + GroupTweens(Walls, walls, 0.0, settings.tweenDistance)
                        + GroupTweens(Buttons, buttons, 0.0, settings.tweenDistance);
      ghost var last := [SpawnPlayer(spawn, SpawnTime(settings)), LinkCamera(settings.cameraOffsetPos),
                         Tween(PlayerObject, SpawnTime(settings), settings.playerTweenDuration, settings.tweenDistance),
                         ClearMoving(SpawnTime(settings) + settings.playerTweenDuration + 0.5)];
      assert SetupTrace(level, settings, floor, walls, buttons) == first + tweens + last;
      assert head == start + first;
      assert tweened == head + tweens;
      assert log == tweened + last;
    }

    /** The last part of the setup, at time `clock`: the player is instantiated at the spawn
        point, linked to the camera and tweened down, and after a further wait of
        playerTweenDuration + 0.5 its moving flag is cleared. */
    method SpawnAndEnable(playerPosition: Vec3, clock: real)
      requires cam.position == playerPosition.Plus(settings.cameraOffsetPos)
      modifies this`player, this`log
      ensures log == old(log) + [SpawnPlayer(playerPosition, clock), LinkCamera(settings.cameraOffsetPos),
                                 Tween(PlayerObject, clock, settings.playerTweenDuration, settings.tweenDistance),
                                 ClearMoving(clock + settings.playerTweenDuration + 0.5)]
      ensures player != null && fresh(player) && player.Valid()
      ensures player.parentPos == playerPosition && player.CubeLocalPosition() == Zero
      ensures player.cam == cam && player.relCamPos == settings.cameraOffsetPos
      ensures player.speed == playerPrefab.speed && player.canMove == playerPrefab.canMove
      ensures player.useGravity == playerPrefab.useGravity && player.isKinematic == playerPrefab.isKinematic
      ensures !player.moving
    {
      var p := new PlayerController(playerPosition, playerPrefab.speed, playerPrefab.canMove,
                                    playerPrefab.moving, playerPrefab.useGravity, playerPrefab.isKinematic);
      player := p;
      p.LinkCamera(cam);
      // The camera was placed at the spawn point plus the offset, so the link records the offset.
      assert p.relCamPos == settings.cameraOffsetPos;
      log := log + [SpawnPlayer(playerPosition, clock), LinkCamera(p.relCamPos),
                    Tween(PlayerObject, clock, settings.playerTweenDuration, settings.tweenDistance)];
      var wait := settings.playerTweenDuration + 0.5;
      p.moving := false;
      log := log + [ClearMoving(clock + wait)];
    }

    /** One of the three foreach loops: each child gets a duration from Random.Range and
        a fade-in and drop of that duration. */
    method TweenGroup(g: Group, count: nat, at: real) returns (durations: seq<real>)
      modifies this`log
      ensures Drawn(durations, count, settings)
      ensures log == old(log) + GroupTweens(g, durations, at, settings.tweenDistance)
    {
      var lo, hi := settings.minTweenDuration, settings.maxTweenDuration;
      durations := [];
      var i := 0;
      while i < count
        invariant 0 <= i <= count
        invariant Drawn(durations, i, settings)
        invariant log == old(log) + GroupTweens(g, durations, at, settings.tweenDistance)
      {
        assert InRange(lo, lo, hi);
        var duration :| InRange(duration, lo, hi);
        assert GroupTweens(g, durations + [duration], at, settings.tweenDistance)
            == GroupTweens(g, durations, at, settings.tweenDistance) + [Tween(Child(g, i), at, duration, settings.tweenDistance)];
        durations := durations + [duration];
        log := log + [Tween(Child(g, i), at, duration, settings.tweenDistance)];
        i := i + 1;
      }
    }

    /** Prints "You win!". */
    method LevelFinished()
      modifies this`wins
      ensures wins == old(wins) + 1
    {
      wins := wins + 1;
    }

    /** A button was activated: one fewer remains, and the level is finished when none
        remain. */
    method ButtonActivated()
      modifies this`buttonsRemaining, this`wins
      ensures buttonsRemaining == old(buttonsRemaining) - 1
      ensures wins == old(wins) + (if buttonsRemaining == 0 then 1 else 0)
    {
      buttonsRemaining := buttonsRemaining - 1;
      if buttonsRemaining == 0 {
        LevelFinished();
      }
    }
  }
}
