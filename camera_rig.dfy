/**
 * The chase camera and the player's head, derived each frame from the
 * player's state after the controller has moved it.
 */
module CameraRig {
  import opened Geometry
  import opened Controller

  const CameraDistance: real := 10.0
  const CameraHeight: real := 5.0
  const LookLift: real := 1.0
  const HeadHeight: real := 2.5

  /** A camera position and the point it looks at. */
  datatype Pose = Pose(eye: Vec3, target: Vec3)

  /** The pose the camera has before the first frame. */
  const InitialPose: Pose := Pose(Vec3(0.0, 5.0, 10.0), Vec3(0.0, 1.0, 0.0))

  /**
   * Behind the player at distance 10 in the ground plane along the
   * heading, 5 above the player, looking at a point 1 above the player.
   */
  function ChaseCamera(trig: Trig, b: Body): Pose
  {
    Pose(Vec3(b.pos.x + CameraDistance * trig.sin(b.rotation),
              b.pos.y + CameraHeight,
              b.pos.z + CameraDistance * trig.cos(b.rotation)),
         Vec3(b.pos.x, b.pos.y + LookLift, b.pos.z))
  }

  /** The head copies the player's x and z and keeps its own height. */
  function HeadAt(b: Body): Vec3
  {
    Vec3(b.pos.x, HeadHeight, b.pos.z)
  }

  /**
   * The camera looks at the point 1 above the player, from 4 above that
   * point, and where sin^2 + cos^2 = 1 it stays exactly 10 from the player
   * in the ground plane.
   */
  lemma CameraOnCircle(trig: Trig, b: Body)
    requires trig.sin(b.rotation) * trig.sin(b.rotation) + trig.cos(b.rotation) * trig.cos(b.rotation) == 1.0
    ensures var p := ChaseCamera(trig, b);
      var dx, dz := p.eye.x - b.pos.x, p.eye.z - b.pos.z;
      dx * dx + dz * dz == CameraDistance * CameraDistance &&
      p.target == Add(b.pos, Vec3(0.0, 1.0, 0.0)) &&
      p.eye.y - p.target.y == 4.0
  {
  }

  /**
   * The camera is rigidly attached: moving the player by d moves eye and
   * target by d, and the offset from target to eye depends on the heading
   * alone.
   */
  lemma CameraRigid(trig: Trig, b: Body, d: Vec3)
    ensures ChaseCamera(trig, Body(Add(b.pos, d), b.rotation)) ==
      Pose(Add(ChaseCamera(trig, b).eye, d), Add(ChaseCamera(trig, b).target, d))
    ensures Sub(ChaseCamera(trig, b).eye, ChaseCamera(trig, b).target) ==
      Vec3(CameraDistance * trig.sin(b.rotation), CameraHeight - LookLift, CameraDistance * trig.cos(b.rotation))
  {
  }

  /**
   * After a forward frame the camera, recomputed for the moved player, sits
   * behind the player on the line of motion: its offset from the player is
   * the frame's displacement reversed and scaled by 10 / 0.15, raised by 5.
   */
  lemma CameraBehind(trig: Trig, b: Body)
    ensures var next := Advance(trig, b, Forward);
      var moved, offset := Sub(next.pos, b.pos), Sub(ChaseCamera(trig, next).eye, next.pos);
      Speed * offset.x == -CameraDistance * moved.x &&
      Speed * offset.z == -CameraDistance * moved.z &&
      moved.y == 0.0 && offset.y == CameraHeight
  {
  }

  /** At a heading with sin = 1 and cos = 0 the eye is the player plus (10, 5, 0). */
  lemma QuarterTurnPose(trig: Trig, b: Body)
    requires trig.sin(b.rotation) == 1.0 && trig.cos(b.rotation) == 0.0
    ensures ChaseCamera(trig, b).eye == Add(b.pos, Vec3(10.0, 5.0, 0.0))
  {
  }

  /** The head follows position only: turning never moves it. */
  lemma HeadIgnoresHeading(b: Body, r: real)
    ensures HeadAt(Body(b.pos, r)) == HeadAt(b)
    ensures HeadAt(b).x == b.pos.x && HeadAt(b).z == b.pos.z && HeadAt(b).y == 2.5
  {
  }

  /**
   * The pose set before the first frame is not the chase pose of the start
   * state (its eye is 5, not 6.25, above the ground); the first frame, run
   * at once when the view is entered, replaces it.
   */
  lemma InitialPoseNotChase(trig: Trig)
    ensures InitialPose != ChaseCamera(trig, Start)
    ensures ChaseCamera(trig, Start).eye.y - InitialPose.eye.y == 1.25
  {
  }
}
