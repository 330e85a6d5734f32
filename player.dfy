/** The rolling cube: per-frame gravity check, keyboard input with a fixed order of
    preference, the rolling move about a bottom edge, and the camera follow. */
module Player {
  import opened Scene

  datatype Direction = Up | Down | Left | Right

  /** The order in which the input handler tries the four directions. */
  const Priority: seq<Direction> := [Up, Down, Left, Right]

  /** The keys the input handler polls: each direction has an arrow key and a letter key. */
  datatype Key = UpArrow | DownArrow | LeftArrow | RightArrow | KeyW | KeyS | KeyA | KeyD

  /** The string the controller passes to Move and to IsDirectionClear. */
  function Name(d: Direction): string {
    match d
    case Up => "up"
    case Down => "down"
    case Left => "left"
    case Right => "right"
  }

  /** Whether the arrow key or the letter key of a direction is held this frame. */
  predicate Held(d: Direction, keys: set<Key>) {
    match d
    case Up => UpArrow in keys || KeyW in keys
    case Down => DownArrow in keys || KeyS in keys
    case Left => LeftArrow in keys || KeyA in keys
    case Right => RightArrow in keys || KeyD in keys
  }

  /** The ray direction IsDirectionClear casts for each probe name. A name outside the
      switch keeps the zero vector it was initialised with. */
  function ProbeVector(dir: string): Vec3 {
    if dir == "up" then Vec3(0.0, 0.0, 1.0)
    else if dir == "down" then Vec3(0.0, 0.0, -1.0)
    else if dir == "right" then Vec3(1.0, 0.0, 0.0)
    else if dir == "left" then Vec3(-1.0, 0.0, 0.0)
    else if dir == "below" then Vec3(0.0, -1.0, 0.0)
    else Zero
  }

  /** IsDirectionClear: clear when the physics query finds nothing within one unit of the
      origin along the probe's ray. The query itself belongs to the physics engine and is
      a parameter: raycast(origin, direction) is true when a collider is hit. */
  function IsDirectionClear(origin: Vec3, dir: string, raycast: (Vec3, Vec3) -> bool): bool {
    !raycast(origin, ProbeVector(dir))
  }

  /** Move's switch, first half: the unit vector toward the edge the cube tips over. */
  function EdgeSide(d: Direction): Vec3 {
    match d
    case Up => UnitForward
    case Down => UnitBack
    case Right => UnitRight
    case Left => UnitLeft
  }

  /** Move's switch, second half: the axis of the roll (Vector3.right, left, back, forward). */
  function RollAxis(d: Direction): AxisDir {
    match d
    case Up => PosX
    case Down => NegX
    case Right => NegZ
    case Left => PosZ
  }

  /** Move's switch, scaled by halfScale: half a unit toward the edge. */
  function HalfEdge(d: Direction): Vec3 {
    match d
    case Up => Vec3(0.0, 0.0, 0.5)
    case Down => Vec3(0.0, 0.0, -0.5)
    case Right => Vec3(0.5, 0.0, 0.0)
    case Left => Vec3(-0.5, 0.0, 0.0)
  }

  /** Vector3.down scaled by halfScale. */
  const HalfDown := Vec3(0.0, -0.5, 0.0)

  /** The pivot of a roll: half a unit toward the edge, then half a unit down. */
  function Pivot(position: Vec3, d: Direction): Vec3 {
    position.Plus(HalfEdge(d)).Plus(HalfDown)
  }

  /** The probe that decides whether a direction is clear points at the cell a roll in
      that direction lands in, and the pivot lies half-way toward it and half-way down. */
  lemma ProbeMatchesRoll(d: Direction)
    ensures ProbeVector(Name(d)) == EdgeSide(d) && EdgeSide(d).y == 0.0
    ensures HalfEdge(d).Plus(HalfEdge(d)) == EdgeSide(d) && HalfDown.Plus(HalfDown) == UnitDown
  {
  }

  /** The below probe points straight down; any name outside the switch gives zero. */
  lemma ProbeOtherNames(other: string)
    requires other !in {"up", "down", "left", "right", "below"}
    ensures ProbeVector("below") == UnitDown
    ensures ProbeVector(other) == Zero
  {
    assert "below"[0] == 'b';
  }

  /** The roll's axis is "up" crossed with the direction of the roll, a horizontal unit
      vector. */
  lemma RollAxisIsUpCrossEdge(d: Direction)
    ensures AxisVector(RollAxis(d)) == Cross(UnitUp, EdgeSide(d))
    ensures EdgeSide(d).y == 0.0 && Dot(EdgeSide(d), EdgeSide(d)) == 1.0
  {
    var e := EdgeSide(d);
    assert Cross(UnitUp, e) == Vec3(e.z, 0.0, -e.x);
  }

  /** A quarter turn about the roll's pivot and axis carries the cube's centre exactly one
      cell over, in the chosen direction, at the same height. */
  lemma RollLandsOneCellOver(p: Vec3, d: Direction)
    ensures QuarterTurn(Pivot(p, d), RollAxis(d), p) == p.Plus(EdgeSide(d))
    ensures QuarterTurn(Pivot(p, d), RollAxis(d), p).y == p.y
  {
  }

  /** The directions whose key is held and whose side is clear. */
  function EnabledMoves(keys: set<Key>, origin: Vec3, raycast: (Vec3, Vec3) -> bool): (r: set<Direction>)
    ensures forall d :: d in r <==> Held(d, keys) && IsDirectionClear(origin, Name(d), raycast)
  {
    (if Held(Up, keys) && IsDirectionClear(origin, "up", raycast) then {Up} else {}) +
    (if Held(Down, keys) && IsDirectionClear(origin, "down", raycast) then {Down} else {}) +
    (if Held(Left, keys) && IsDirectionClear(origin, "left", raycast) then {Left} else {}) +
    (if Held(Right, keys) && IsDirectionClear(origin, "right", raycast) then {Right} else {})
  }

  /** The first direction of an order of preference that is enabled, if any. */
  function FirstEnabled(order: seq<Direction>, enabled: set<Direction>): (r: Option<Direction>)
    ensures r.None? <==> forall i :: 0 <= i < |order| ==> order[i] !in enabled
    ensures r.Some? ==> exists i :: 0 <= i < |order| && order[i] == r.value && r.value in enabled &&
                                    forall j :: 0 <= j < i ==> order[j] !in enabled
  {
    if order == [] then None
    else if order[0] in enabled then Some(order[0])
    else
      var r := FirstEnabled(order[1..], enabled);
      assert forall i :: 1 <= i < |order| ==> order[i] == order[1..][i - 1];
      r
  }

  /** The camera position the follow step computes: the cube's position plus the linked
      offset, except that the camera keeps its current height. */
  function FollowPosition(cube: Vec3, rel: Vec3, current: Vec3): Vec3 {
    var v := cube.Plus(rel);
    Vec3(v.x, current.y, v.z)
  }

  /** The camera never changes height; right after linking it stays where it is; and when
      the cube rolls one cell over, the camera moves by the same cell. */
  lemma CameraFollow(cube: Vec3, cam: Vec3, rel: Vec3, d: Direction)
    ensures FollowPosition(cube, rel, cam).y == cam.y
    ensures FollowPosition(cube, cam.Minus(cube), cam) == cam
    ensures FollowPosition(cube.Plus(EdgeSide(d)), rel, cam) == FollowPosition(cube, rel, cam).Plus(EdgeSide(d))
  {
  }

  /** One frame of a roll: the frame's Time.deltaTime, and where the engine's RotateAround
      put the cube's centre after this frame's partial turn (a floating-point engine
      result the model does not compute). */
  datatype Frame = Frame(deltaTime: real, cubeOnArc: Vec3)

  /** The angle a frame turns the cube by: 90 degrees per second, times the speed. */
  function FrameAngle(deltaTime: real, speed: real): real {
    90.0 * deltaTime * speed
  }

  /** The total of a sequence of angles. */
  function Sum(s: seq<real>): real {
    if s == [] then 0.0 else Sum(s[..|s| - 1]) + s[|s| - 1]
  }

  /** The player object: a parent transform with the visible cube as its child. */
  class PlayerController {
    const speed: real
    var canMove: bool
    var moving: bool
    /** The parent's world position (transform.position). */
    var parentPos: Vec3
    /** The cube's world position (playerCube.transform.position); the parent is never
        rotated or scaled, so the cube's local position is cubePos - parentPos. */
    var cubePos: Vec3
    /** The cube's Rigidbody flags, which hand the cube to the physics engine. */
    var useGravity: bool
    var isKinematic: bool
    var cam: CameraRig?
    var relCamPos: Vec3

    /** Between moves the cube sits at its parent's origin. */
    ghost predicate Valid()
      reads this
    {
      cubePos == parentPos
    }

    /** playerCube.transform.localPosition. */
    function CubeLocalPosition(): Vec3
      reads this
    {
      cubePos.Minus(parentPos)
    }

    /** Instantiating the prefab at a position; the flags are the prefab's serialized values. */
    constructor (position: Vec3, speed: real, canMove: bool, moving: bool, useGravity: bool, isKinematic: bool)
      ensures Valid() && parentPos == position && CubeLocalPosition() == Zero
      ensures this.speed == speed && this.canMove == canMove && this.moving == moving
      ensures this.useGravity == useGravity && this.isKinematic == isKinematic
      ensures cam == null && relCamPos == Zero
    {
      this.speed := speed;
      this.canMove := canMove;
      this.moving := moving;
      parentPos := position;
      cubePos := position;
      this.useGravity := useGravity;
      this.isKinematic := isKinematic;
      cam := null;
      relCamPos := Zero;
    }

    /** Records the camera and its offset from the cube. */
    method LinkCamera(c: CameraRig)
      modifies this`cam, this`relCamPos
      ensures cam == c && relCamPos == c.position.Minus(cubePos)
    {
      cam := c;
      relCamPos := c.position.Minus(cubePos);
    }

    /** Assigning transform.position: the child cube moves with its parent. */
    method SetParentPosition(p: Vec3)
      modifies this`parentPos, this`cubePos
      ensures parentPos == p && cubePos == old(cubePos).Plus(p.Minus(old(parentPos)))
      ensures CubeLocalPosition() == old(CubeLocalPosition())
    {
      cubePos := cubePos.Plus(p.Minus(parentPos));
      parentPos := p;
    }

    /** Starts at most one move, trying the directions in order of preference. The move
        itself is the Move coroutine, which the caller runs with the returned direction. */
    method ManageInput(keys: set<Key>, raycast: (Vec3, Vec3) -> bool) returns (started: Option<Direction>)
      modifies this`moving
      ensures old(moving) || !canMove ==> started == None && moving == old(moving)
      ensures !old(moving) && canMove ==>
        started == FirstEnabled(Priority, EnabledMoves(keys, parentPos, raycast)) && moving == started.Some?
    {
      started := None;
      if moving || !canMove {
        return;
      }
      if Held(Up, keys) && IsDirectionClear(parentPos, "up", raycast) {
        moving := true;
        started := Some(Up);
      } else if Held(Down, keys) && IsDirectionClear(parentPos, "down", raycast) {
        moving := true;
        started := Some(Down);
      } else if Held(Left, keys) && IsDirectionClear(parentPos, "left", raycast) {
        moving := true;
        started := Some(Left);
      } else if Held(Right, keys) && IsDirectionClear(parentPos, "right", raycast) {
        moving := true;
        started := Some(Right);
      }
      ghost var e := EnabledMoves(keys, parentPos, raycast);
      ghost var r := FirstEnabled(Priority, e);
      assert Priority[0] == Up && Priority[1] == Down && Priority[2] == Left && Priority[3] == Right;
      if r.Some? {
        var i :| 0 <= i < |Priority| && Priority[i] == r.value && r.value in e &&
                 forall j :: 0 <= j < i ==> Priority[j] !in e;
      }
    }

    /** Hands the cube to the physics engine when it rests over nothing. */
    method ManageGravity(raycast: (Vec3, Vec3) -> bool)
      modifies this`canMove, this`useGravity, this`isKinematic
      ensures var falls := old(canMove) && !moving && IsDirectionClear(parentPos, "below", raycast);
        (falls ==> !canMove && useGravity && !isKinematic) &&
        (!falls ==> canMove == old(canMove) && useGravity == old(useGravity) && isKinematic == old(isKinematic))
    {
      if canMove && !moving && IsDirectionClear(parentPos, "below", raycast) {
        canMove := false;
        useGravity := true;
        isKinematic := false;
      }
    }

    /** Moves the camera after the cube, at a fixed height. */
    method ManageCamera()
      requires cam != null
      modifies cam
      ensures cam.position == FollowPosition(cubePos, relCamPos, old(cam.position))
      ensures cam.eulerAngles == old(cam.eulerAngles)
    {
      var vec := cubePos.Plus(relCamPos);
      cam.position := Vec3(vec.x, cam.position.y, vec.z);
    }

    /** One frame: gravity first, then input, then the camera. Gravity runs first, so a
        frame that hands the cube to physics never starts a move. A move that starts is
        returned; its frames, the first included, are Move's. */
    method Update(keys: set<Key>, raycast: (Vec3, Vec3) -> bool) returns (started: Option<Direction>)
      requires cam != null
      modifies this, cam
      ensures cam == old(cam) && relCamPos == old(relCamPos)
      ensures parentPos == old(parentPos) && cubePos == old(cubePos)
      ensures var falls := old(canMove) && !old(moving) && IsDirectionClear(parentPos, "below", raycast);
        && canMove == (old(canMove) && !falls)
        && (falls ==> useGravity && !isKinematic)
        && (!falls ==> useGravity == old(useGravity) && isKinematic == old(isKinematic))
        && started == (if old(moving) || !old(canMove) || falls then None
                       else FirstEnabled(Priority, EnabledMoves(keys, parentPos, raycast)))
        && moving == (old(moving) || started.Some?)
      ensures cam.position == FollowPosition(cubePos, relCamPos, old(cam.position))
      ensures cam.eulerAngles == old(cam.eulerAngles)
    {
      ManageGravity(raycast);
      started := ManageInput(keys, raycast);
      ManageCamera();
    }

    /** The rolling move. Each frame turns the cube by 90 * deltaTime * speed degrees about
        the pivot and axis and then copies the cube's horizontal position to the parent,
        keeping the parent's height. When the frames run out, one last turn by whatever
        angle remains (negative after an overshoot) completes exactly 90 degrees; the parent
        snaps to the cube and the cube back to the parent's origin. */
    method Move(d: Direction, frames: seq<Frame>) returns (angles: seq<real>, finalAngle: real, trail: seq<Vec3>)
      requires Valid()
      modifies this`parentPos, this`cubePos, this`moving
      ensures Valid() && !moving && CubeLocalPosition() == Zero
      ensures parentPos == old(parentPos).Plus(EdgeSide(d))
      ensures |angles| == |frames| && |trail| == |frames|
      ensures forall i :: 0 <= i < |frames| ==> angles[i] == FrameAngle(frames[i].deltaTime, speed)
      ensures Sum(angles) + finalAngle == 90.0
      ensures forall i :: 0 <= i < |frames| ==>
        trail[i] == Vec3(frames[i].cubeOnArc.x, old(parentPos).y, frames[i].cubeOnArc.z)
    {
      var point := Pivot(parentPos, d);
      var axis := RollAxis(d);
      var start := cubePos;
      var angleRemaining := 90.0;
      // How far the cube has turned about (point, axis) since the move began.
      ghost var turned := 0.0;
      angles, trail := [], [];
      var i := 0;
      while i < |frames|
        invariant 0 <= i <= |frames|
        invariant |angles| == i && |trail| == i
        invariant forall k :: 0 <= k < i ==> angles[k] == FrameAngle(frames[k].deltaTime, speed)
        invariant forall k :: 0 <= k < i ==>
          trail[k] == Vec3(frames[k].cubeOnArc.x, old(parentPos).y, frames[k].cubeOnArc.z)
        invariant turned == Sum(angles) && turned + angleRemaining == 90.0
        invariant parentPos.y == old(parentPos).y
        invariant i == 0 ==> cubePos == start
        invariant i > 0 ==> cubePos == frames[i - 1].cubeOnArc && parentPos == trail[i - 1]
      {
        var angle := FrameAngle(frames[i].deltaTime, speed);
        angleRemaining := angleRemaining - angle;
        // RotateAround(point, axis, angle): the engine's result for this frame.
        cubePos := frames[i].cubeOnArc;
        turned := turned + angle;
        var vec := cubePos;
        SetParentPosition(Vec3(vec.x, parentPos.y, vec.z));
        cubePos := vec;
        assert (angles + [angle])[..i] == angles;
        angles := angles + [angle];
        trail := trail + [parentPos];
        i := i + 1;
      }
      // RotateAround(point, axis, angleRemaining): rotations about one axis add up, so the
      // cube has now turned by exactly a right angle from where it started.
      turned := turned + angleRemaining;
      assert turned == 90.0;
      cubePos := QuarterTurn(point, axis, start);
      RollLandsOneCellOver(start, d);
      SetParentPosition(cubePos);
      cubePos := parentPos;
      moving := false;
      finalAngle := angleRemaining;
    }
  }
}
