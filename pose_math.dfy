/** Exact stand-ins for the math types the core uses: a 3-vector and a rigid
    pose. The source uses double-precision vectors and 6-DOF poses; here the
    rotation part of a pose is restricted to whole quarter turns about the z
    axis, so composition is exact and still not commutative, which is what
    matters for "compose on the right". */
module PoseMath {

  datatype Vector3 = Vector3(x: real, y: real, z: real)

  const Zero3: Vector3 := Vector3(0.0, 0.0, 0.0)
  const One3: Vector3 := Vector3(1.0, 1.0, 1.0)

  function Add(a: Vector3, b: Vector3): Vector3
  {
    Vector3(a.x + b.x, a.y + b.y, a.z + b.z)
  }

  /** A rotation about z by a whole number of quarter turns (0 to 3). */
  type Turns = q: int | 0 <= q < 4

  function AddTurns(a: Turns, b: Turns): Turns
  {
    if a + b < 4 then a + b else a + b - 4
  }

  /** Rotates `v` about z by `q` quarter turns counter-clockwise. */
  function Rotate(q: Turns, v: Vector3): Vector3
  {
    match q
    case 0 => v
    case 1 => Vector3(-v.y, v.x, v.z)
    case 2 => Vector3(-v.x, -v.y, v.z)
    case 3 => Vector3(v.y, -v.x, v.z)
  }

  /** A rigid transform: the pose of a child frame expressed in its parent. */
  datatype Pose = Pose(position: Vector3, yaw: Turns)

  /** Pose3d::Zero and the state after Pose3d::Reset(). */
  const Identity: Pose := Pose(Zero3, 0)

  /** `a * b`: `a` is the pose of frame B in frame A, `b` that of frame C in
      frame B; the result is the pose of C in A. */
  function Compose(a: Pose, b: Pose): Pose
  {
    Pose(Add(a.position, Rotate(a.yaw, b.position)), AddTurns(a.yaw, b.yaw))
  }

  /** The identity pose is a two-sided unit of composition. */
  lemma ComposeIdentity(p: Pose)
    ensures Compose(Identity, p) == p
    ensures Compose(p, Identity) == p
  {
  }

  /** Composition is associative, so a chain of relative poses has one
      meaning however it is grouped. */
  lemma ComposeAssociative(a: Pose, b: Pose, c: Pose)
    ensures Compose(Compose(a, b), c) == Compose(a, Compose(b, c))
  {
  }

  /** The pose of the last frame of a path in the first frame's coordinates,
      given the pose of each frame of the path in the frame before it. */
  function ComposeChain(chain: seq<Pose>): Pose
  {
    if chain == [] then Identity else Compose(chain[0], ComposeChain(chain[1..]))
  }

  /** Composing two consecutive paths piecewise gives the pose along the
      whole path. With `b == [raw]` this is the step that right-composes an
      entity's raw pose onto the pose of the frame it is relative to. */
  lemma {:induction false} ComposeChainAppend(a: seq<Pose>, b: seq<Pose>)
    ensures ComposeChain(a + b) == Compose(ComposeChain(a), ComposeChain(b))
  {
    if a == [] {
      assert a + b == b;
      ComposeIdentity(ComposeChain(b));
    } else {
      assert (a + b)[1..] == a[1..] + b;
      ComposeChainAppend(a[1..], b);
      ComposeAssociative(a[0], ComposeChain(a[1..]), ComposeChain(b));
    }
  }

  /** Composition depends on the order of its operands. */
  lemma ComposeNotCommutative()
    ensures Compose(Pose(Zero3, 1), Pose(Vector3(1.0, 0.0, 0.0), 0))
         != Compose(Pose(Vector3(1.0, 0.0, 0.0), 0), Pose(Zero3, 1))
  {
  }
}
