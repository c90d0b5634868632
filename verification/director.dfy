/**
  The Camera Director: the movement test shared by both camera steps of a
  frame, and the look-at pose the primary camera is sent to while the
  character moves. Positions are exact reals.
 */
module Director {
  import opened Input

  datatype Vec3 = Vec3(x: real, y: real, z: real)

  const Origin: Vec3 := Vec3(0.0, 0.0, 0.0)

  function Add(a: Vec3, b: Vec3): Vec3
  {
    Vec3(a.x + b.x, a.y + b.y, a.z + b.z)
  }

  function Sub(a: Vec3, b: Vec3): Vec3
  {
    Vec3(a.x - b.x, a.y - b.y, a.z - b.z)
  }

  /** Where the primary eye sits relative to the character root while it moves. */
  const FollowOffset: Vec3 := Vec3(0.0, 200.0, -500.0)

  /** An eye position and the point it looks at, as given to `setLookAt`. */
  datatype LookAt = LookAt(eye: Vec3, target: Vec3)

  /**
    Whether the character counts as moving: some value of the flag record
    is true. Jump, crouch and attack count as much as the four directions.
   */
  function IsMoving(s: InputState): (r: bool)
    ensures r <==> Held(s) != {}
    ensures r <==> exists f :: Get(s, f)
  {
    var values := [s.moveForward, s.moveBackward, s.moveLeft, s.moveRight, s.jump, s.crouch, s.attack];
    assert Get(s, MoveForward) == values[0] && Get(s, MoveBackward) == values[1];
    assert Get(s, MoveLeft) == values[2] && Get(s, MoveRight) == values[3];
    assert Get(s, Jump) == values[4] && Get(s, Crouch) == values[5] && Get(s, Attack) == values[6];
    assert forall f :: Get(s, f) ==> f in Held(s) by {
      forall f ensures Get(s, f) ==> f in Held(s) {
        AllFlagsComplete(f);
      }
    }
    exists i :: 0 <= i < |values| && values[i]
  }

  /** The pose the primary camera is sent to while the character moves. */
  function FollowTarget(root: Vec3): (r: LookAt)
    ensures r.target == root
    ensures Sub(r.eye, r.target) == FollowOffset
    ensures r.eye == Add(root, FollowOffset)
  {
    LookAt(Vec3(root.x, root.y + 200.0, root.z - 500.0), root)
  }
}
