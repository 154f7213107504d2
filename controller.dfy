/**
 * The character controller of one frame, as a value: the player's position
 * and heading, and how one frame's command flags advance them.  Movement
 * speed and turn step are per frame; nothing scales them by elapsed time,
 * nothing wraps the heading and nothing bounds the position.
 */
module Controller {
  import opened Geometry
  import opened Input

  /**
   * `Math.sin` and `Math.cos`.  Their values are not modelled: every result
   * below holds for any pair of functions, unless a lemma says what it
   * needs of them.
   */
  datatype Trig = Trig(sin: real -> real, cos: real -> real)

  /** Player position and `playerRotation`. */
  datatype Body = Body(pos: Vec3, rotation: real)

  const Speed: real := 0.15
  const TurnStep: real := 0.05

  /** Where the player starts: on the ground at the origin, facing -z. */
  const Start: Body := Body(Vec3(0.0, 1.25, 0.0), 0.0)

  function Flag(b: bool): real
  {
    if b then 1.0 else 0.0
  }

  /**
   * One frame.  Translation uses the heading the frame starts with; forward
   * moves along (-sin r, -cos r), backward along (sin r, cos r); turning left
   * adds a step to the heading and turning right subtracts one.
   */
  function Advance(trig: Trig, b: Body, c: Controls): Body
  {
    var drive := Flag(c.backward) - Flag(c.forward);
    var turn := Flag(c.left) - Flag(c.right);
    Body(Vec3(b.pos.x + trig.sin(b.rotation) * drive * Speed,
              b.pos.y,
              b.pos.z + trig.cos(b.rotation) * drive * Speed),
         b.rotation + TurnStep * turn)
  }

  /** A run of frames, each with its own flags. */
  function Run(trig: Trig, b: Body, cs: seq<Controls>): Body
    decreases |cs|
  {
    if cs == [] then b else Run(trig, Advance(trig, b, cs[0]), cs[1..])
  }

  const Forward: Controls := Controls(true, false, false, false)
  const Backward: Controls := Controls(false, true, false, false)
  const Left: Controls := Controls(false, false, true, false)

  function Repeat(c: Controls, n: nat): (r: seq<Controls>)
    ensures |r| == n
  {
    if n == 0 then [] else [c] + Repeat(c, n - 1)
  }

  /** Left flags minus right flags over a run. */
  function NetTurns(cs: seq<Controls>): int
  {
    if cs == [] then 0
    else (if cs[0].left then 1 else 0) - (if cs[0].right then 1 else 0) + NetTurns(cs[1..])
  }

  /**
   * Per-frame deltas: x and z move by (sin r, cos r) * 0.15 * (B - F) with r
   * the heading before the frame, the heading moves by 0.05 * (L - R), and
   * the height never changes.  Forward with backward cancels out, and so
   * does left with right; the turn of a frame does not steer that frame.
   */
  lemma AdvanceDeltas(trig: Trig, b: Body, c: Controls)
    ensures Advance(trig, b, c).pos.x - b.pos.x ==
      trig.sin(b.rotation) * Speed * (Flag(c.backward) - Flag(c.forward))
    ensures Advance(trig, b, c).pos.z - b.pos.z ==
      trig.cos(b.rotation) * Speed * (Flag(c.backward) - Flag(c.forward))
    ensures Advance(trig, b, c).pos.y == b.pos.y
    ensures Advance(trig, b, c).rotation - b.rotation == TurnStep * (Flag(c.left) - Flag(c.right))
    ensures c.forward == c.backward ==> Advance(trig, b, c).pos == b.pos
    ensures c.left == c.right ==> Advance(trig, b, c).rotation == b.rotation
    ensures Advance(trig, b, c).pos == Advance(trig, b, c.(left := false, right := false)).pos
  {
  }

  /**
   * The same frame as the source writes it: a forward step then a backward
   * step, each on its own, then a left turn then a right turn.
   */
  lemma AdvanceInSteps(trig: Trig, b: Body, c: Controls)
    ensures var s, k := trig.sin(b.rotation), trig.cos(b.rotation);
      var x1 := if c.forward then b.pos.x - Speed * s else b.pos.x;
      var z1 := if c.forward then b.pos.z - Speed * k else b.pos.z;
      var x2 := if c.backward then x1 + Speed * s else x1;
      var z2 := if c.backward then z1 + Speed * k else z1;
      var r1 := if c.left then b.rotation + TurnStep else b.rotation;
      var r2 := if c.right then r1 - TurnStep else r1;
      Advance(trig, b, c) == Body(Vec3(x2, b.pos.y, z2), r2)
  {
  }

  lemma {:induction false} RunAppend(trig: Trig, b: Body, cs: seq<Controls>, ds: seq<Controls>)
    ensures Run(trig, b, cs + ds) == Run(trig, Run(trig, b, cs), ds)
    decreases |cs|
  {
    if cs == [] {
      assert cs + ds == ds;
    } else {
      assert (cs + ds)[0] == cs[0];
      assert (cs + ds)[1..] == cs[1..] + ds;
      RunAppend(trig, Advance(trig, b, cs[0]), cs[1..], ds);
    }
  }

  /**
   * Over any run the height stays put and the heading is the start heading
   * plus 0.05 per net left turn: it is never wrapped.
   */
  lemma {:induction false} RunHeading(trig: Trig, b: Body, cs: seq<Controls>)
    ensures Run(trig, b, cs).pos.y == b.pos.y
    ensures Run(trig, b, cs).rotation == b.rotation + TurnStep * NetTurns(cs) as real
    decreases |cs|
  {
    if cs != [] {
      RunHeading(trig, Advance(trig, b, cs[0]), cs[1..]);
    }
  }

  /** n frames of turning left add exactly 0.05 * n to the heading. */
  lemma {:induction false} TurnLeftRun(trig: Trig, b: Body, n: nat)
    ensures Run(trig, b, Repeat(Left, n)) == Body(b.pos, b.rotation + TurnStep * n as real)
    decreases n
  {
    if n > 0 {
      TurnLeftRun(trig, Advance(trig, b, Left), n - 1);
    }
  }

  /**
   * n frames of one straight move (drive -1 forward, +1 backward) shift x
   * and z by n * 0.15 * (sin r, cos r) * drive and leave the heading alone.
   */
  lemma {:induction false} StraightRun(trig: Trig, b: Body, c: Controls, n: nat)
    requires c == Forward || c == Backward
    ensures var drive := Flag(c.backward) - Flag(c.forward);
      Run(trig, b, Repeat(c, n)) ==
        Body(Vec3(b.pos.x + n as real * Speed * drive * trig.sin(b.rotation),
                  b.pos.y,
                  b.pos.z + n as real * Speed * drive * trig.cos(b.rotation)),
             b.rotation)
    decreases n
  {
    if n > 0 {
      var next := Advance(trig, b, c);
      StraightRun(trig, next, c, n - 1);
    }
  }

  /** n frames forward then n frames backward, without turning, return home. */
  lemma ForwardThenBack(trig: Trig, b: Body, n: nat)
    ensures Run(trig, b, Repeat(Forward, n) + Repeat(Backward, n)) == b
  {
    RunAppend(trig, b, Repeat(Forward, n), Repeat(Backward, n));
    StraightRun(trig, b, Forward, n);
    StraightRun(trig, Run(trig, b, Repeat(Forward, n)), Backward, n);
  }

  /**
   * From the start, facing heading 0 (sin 0 = 0, cos 0 = 1), ten frames
   * forward reach z = -1.5 with x still 0; eighteen left turns give 0.9.
   */
  lemma StartExamples(trig: Trig)
    requires trig.sin(0.0) == 0.0 && trig.cos(0.0) == 1.0
    ensures Run(trig, Start, Repeat(Forward, 10)).pos == Vec3(0.0, 1.25, -1.5)
    ensures Run(trig, Start, Repeat(Left, 18)).rotation == 0.9
  {
    StraightRun(trig, Start, Forward, 10);
    TurnLeftRun(trig, Start, 18);
  }
}
