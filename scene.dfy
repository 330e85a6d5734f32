/** The small part of the engine's world that the game logic touches: exact 3-vectors
    (every resting coordinate of the game is a multiple of one half, so reals are exact),
    tagged colliders, and the camera object that two components share. */
module Scene {

  datatype Option<T> = None | Some(value: T)

  /** A world-space point or direction. Axes as in the engine: x right, y up, z forward. */
  datatype Vec3 = Vec3(x: real, y: real, z: real) {
    function Plus(o: Vec3): Vec3 { Vec3(x + o.x, y + o.y, z + o.z) }
    function Minus(o: Vec3): Vec3 { Vec3(x - o.x, y - o.y, z - o.z) }
    function Times(k: real): Vec3 { Vec3(k * x, k * y, k * z) }
  }

  const Zero := Vec3(0.0, 0.0, 0.0)
  const UnitForward := Vec3(0.0, 0.0, 1.0)
  const UnitBack := Vec3(0.0, 0.0, -1.0)
  const UnitRight := Vec3(1.0, 0.0, 0.0)
  const UnitLeft := Vec3(-1.0, 0.0, 0.0)
  const UnitUp := Vec3(0.0, 1.0, 0.0)
  const UnitDown := Vec3(0.0, -1.0, 0.0)

  function Dot(a: Vec3, b: Vec3): real { a.x * b.x + a.y * b.y + a.z * b.z }

  function Cross(a: Vec3, b: Vec3): Vec3 {
    Vec3(a.y * b.z - a.z * b.y, a.z * b.x - a.x * b.z, a.x * b.y - a.y * b.x)
  }

  /** The six signed coordinate axes, the only axes the game turns about. */
  datatype AxisDir = PosX | NegX | PosY | NegY | PosZ | NegZ

  function AxisVector(a: AxisDir): Vec3 {
    match a
    case PosX => UnitRight
    case NegX => UnitLeft
    case PosY => UnitUp
    case NegY => UnitDown
    case PosZ => UnitForward
    case NegZ => UnitBack
  }

  /** A vector turned by a right angle about a signed coordinate axis. The engine rotates
      with the usual quaternion formula, which in its left-handed frame turns a positive
      angle clockwise when looking along the axis. */
  function RightAngleTurn(a: AxisDir, v: Vec3): Vec3 {
    match a
    case PosX => Vec3(v.x, -v.z, v.y)
    case NegX => Vec3(v.x, v.z, -v.y)
    case PosY => Vec3(v.z, v.y, -v.x)
    case NegY => Vec3(-v.z, v.y, v.x)
    case PosZ => Vec3(-v.y, v.x, v.z)
    case NegZ => Vec3(v.y, -v.x, v.z)
  }

  /** RotateAround(point, axis, 90) applied to the point p. */
  function QuarterTurn(point: Vec3, a: AxisDir, p: Vec3): Vec3 {
    point.Plus(RightAngleTurn(a, p.Minus(point)))
  }

  /** The table above is Rodrigues' rotation formula at a right angle,
      v' = k x v + k (k . v), for each unit axis k. */
  lemma RightAngleTurnIsRodrigues(a: AxisDir, v: Vec3)
    ensures var k := AxisVector(a); RightAngleTurn(a, v) == Cross(k, v).Plus(k.Times(Dot(k, v)))
  {
    match a {
      case PosX =>
        var k := UnitRight;
        var c, d := Cross(k, v), Dot(k, v);
        assert c == Vec3(0.0, -v.z, v.y) && d == v.x;
        assert k.Times(d) == Vec3(v.x, 0.0, 0.0);
      case NegX =>
        var k := UnitLeft;
        var c, d := Cross(k, v), Dot(k, v);
        assert c == Vec3(0.0, v.z, -v.y) && d == -v.x;
        assert k.Times(d) == Vec3(v.x, 0.0, 0.0);
      case PosY =>
        var k := UnitUp;
        var c, d := Cross(k, v), Dot(k, v);
        assert c == Vec3(v.z, 0.0, -v.x) && d == v.y;
        assert k.Times(d) == Vec3(0.0, v.y, 0.0);
      case NegY =>
        var k := UnitDown;
        var c, d := Cross(k, v), Dot(k, v);
        assert c == Vec3(-v.z, 0.0, v.x) && d == -v.y;
        assert k.Times(d) == Vec3(0.0, v.y, 0.0);
      case PosZ =>
        var k := UnitForward;
        var c, d := Cross(k, v), Dot(k, v);
        assert c == Vec3(-v.y, v.x, 0.0) && d == v.z;
        assert k.Times(d) == Vec3(0.0, 0.0, v.z);
      case NegZ =>
        var k := UnitBack;
        var c, d := Cross(k, v), Dot(k, v);
        assert c == Vec3(v.y, -v.x, 0.0) && d == -v.z;
        assert k.Times(d) == Vec3(0.0, 0.0, v.z);
    }
  }

  /** The other party of a trigger event; only its tag is visible to the scripts. */
  datatype Collider = Collider(tag: string) {
    predicate CompareTag(t: string) { tag == t }
  }

  /** The camera's transform, written by the game manager at setup and by the player's
      camera follow every frame. */
  class CameraRig {
    var position: Vec3
    var eulerAngles: Vec3

    constructor (position: Vec3, eulerAngles: Vec3)
      ensures this.position == position && this.eulerAngles == eulerAngles
    {
      this.position := position;
      this.eulerAngles := eulerAngles;
    }
  }
}
