/**
 * The state the world view's effect sets up and then mutates: the built
 * scene, the key table written by the keydown/keyup handlers, and the
 * player, head and camera fields advanced by each animation frame.
 */
module Session {
  import opened Geometry
  import opened WorldBuilder
  import opened Input
  import opened Controller
  import opened CameraRig

  class World {
    const trig: Trig
    const scene: seq<Placed>
    var keys: KeyTable
    var position: Vec3      // player.position
    var rotation: real      // playerRotation
    var yaw: real           // player.rotation.y
    var head: Vec3          // head.position
    var camera: Pose

    /**
     * The player stays on the ground at height 1.25, the head keeps height
     * 2.5 above the player's x and z, and the mesh yaw is the heading.
     */
    ghost predicate Valid()
      reads this
    {
      position.y == 1.25 && head == HeadAt(Player()) && yaw == rotation
    }

    function Player(): Body
      reads this
    {
      Body(position, rotation)
    }

    /** Entering the view: build the scene and place player, head and camera. */
    constructor (trig: Trig)
      ensures Valid()
      ensures this.trig == trig && scene == Scene()
      ensures keys == map[] && Player() == Start && camera == InitialPose
    {
      this.trig := trig;
      var objs := BuildScene();
      scene := objs;
      keys := map[];
      position := Vec3(0.0, 1.25, 0.0);
      rotation := 0.0;
      yaw := 0.0;
      head := Vec3(0.0, 2.5, 0.0);
      camera := InitialPose;
    }

    /** The keydown handler. */
    method KeyDown(key: string)
      modifies this`keys
      ensures keys == Apply(old(keys), KeyEvent.KeyDown(key))
    {
      keys := keys[Lower(key) := true];
    }

    /** The keyup handler. */
    method KeyUp(key: string)
      modifies this`keys
      ensures keys == Apply(old(keys), KeyEvent.KeyUp(key))
    {
      keys := keys[Lower(key) := false];
    }

    /**
     * One animation frame: the four command tests in source order, then the
     * mesh yaw, the head and the camera follow the new player state.  The
     * key table is only read.
     */
    method Tick()
      requires Valid()
      modifies this`position, this`rotation, this`yaw, this`head, this`camera
      ensures Valid()
      ensures Player() == Advance(trig, old(Player()), Decode(keys))
      ensures camera == ChaseCamera(trig, Player())
    {
      var c := Decode(keys);
      var s, k := trig.sin(rotation), trig.cos(rotation);
      AdvanceInSteps(trig, Player(), c);
      if c.forward {
        position := position.(z := position.z - Speed * k);
        position := position.(x := position.x - Speed * s);
      }
      if c.backward {
        position := position.(z := position.z + Speed * k);
        position := position.(x := position.x + Speed * s);
      }
      if c.left {
        rotation := rotation + TurnStep;
      }
      if c.right {
        rotation := rotation - TurnStep;
      }
      yaw := rotation;
      head := head.(x := position.x, z := position.z);
      camera := ChaseCamera(trig, Player());
    }
  }

  /**
   * Entering the view: the set-up, then the first `animate` call, which runs
   * before the effect returns.  No key has been pressed, so the player has
   * not moved, and the camera is already in the chase pose of the start.
   */
  method Enter(trig: Trig) returns (w: World)
    ensures fresh(w) && w.Valid() && w.trig == trig
    ensures w.scene == Scene() && w.keys == map[]
    ensures w.Player() == Start
    ensures w.camera == ChaseCamera(trig, Start)
  {
    w := new World(trig);
    w.Tick();
  }
}
