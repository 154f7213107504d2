/**
 * The key-state table and the decoding of commands from it.  The table maps
 * a lower-cased key value to whether that key is down; a value that was never
 * seen is absent and reads as "up".
 */
module Input {

  datatype Option<T> = None | Some(value: T)

  /** `toLowerCase` on the ASCII letters; every other character is kept. */
  function LowerChar(c: char): char
  {
    if 'A' <= c <= 'Z' then (c as int + 32) as char else c
  }

  function Lower(s: string): string
  {
    seq(|s|, i requires 0 <= i < |s| => LowerChar(s[i]))
  }

  type KeyTable = map<string, bool>

  /** `keys[k]` as a condition: an absent entry is falsy. */
  function Pressed(keys: KeyTable, k: string): bool
  {
    k in keys && keys[k]
  }

  datatype KeyEvent = KeyDown(key: string) | KeyUp(key: string)

  /** What a handler writes into the table for one event. */
  function Apply(keys: KeyTable, e: KeyEvent): KeyTable
  {
    match e
    case KeyDown(k) => keys[Lower(k) := true]
    case KeyUp(k) => keys[Lower(k) := false]
  }

  function IsDown(e: KeyEvent): bool
  {
    e.KeyDown?
  }

  /** The table after a run of events, handled in order. */
  function Replay(keys: KeyTable, es: seq<KeyEvent>): KeyTable
    decreases |es|
  {
    if es == [] then keys else Replay(Apply(keys, es[0]), es[1..])
  }

  /** The direction of the last event in `es` whose key lower-cases to `k`. */
  function LastWrite(es: seq<KeyEvent>, k: string): Option<bool>
  {
    if es == [] then None
    else if Lower(es[|es| - 1].key) == k then Some(IsDown(es[|es| - 1]))
    else LastWrite(es[..|es| - 1], k)
  }

  /**
   * One event writes exactly the entry of its lower-cased key (down: true,
   * up: false); every other entry, present or absent, reads as before.
   */
  lemma ApplyTouchesOneEntry(keys: KeyTable, e: KeyEvent)
    ensures Apply(keys, e).Keys == keys.Keys + {Lower(e.key)}
    ensures Pressed(Apply(keys, e), Lower(e.key)) == IsDown(e)
    ensures forall k :: k != Lower(e.key) ==> Pressed(Apply(keys, e), k) == Pressed(keys, k)
  {
  }

  lemma {:induction false} ReplaySnoc(keys: KeyTable, es: seq<KeyEvent>, e: KeyEvent)
    ensures Replay(keys, es + [e]) == Apply(Replay(keys, es), e)
    decreases |es|
  {
    if es != [] {
      assert (es + [e])[1..] == es[1..] + [e];
      ReplaySnoc(Apply(keys, es[0]), es[1..], e);
    }
  }

  /**
   * Last writer wins: after a run of events, a key reads as the direction
   * of the last event on it, or as before the run when there was none.
   */
  lemma {:induction false} LastEventWins(keys: KeyTable, es: seq<KeyEvent>, k: string)
    ensures Pressed(Replay(keys, es), k) ==
      match LastWrite(es, k) { case Some(d) => d case None => Pressed(keys, k) }
  {
    if es != [] {
      var init, e := es[..|es| - 1], es[|es| - 1];
      assert es == init + [e];
      ReplaySnoc(keys, init, e);
      LastEventWins(keys, init, k);
      ApplyTouchesOneEntry(Replay(keys, init), e);
    }
  }

  lemma LowerIdempotent(s: string)
    ensures Lower(Lower(s)) == Lower(s)
  {
  }

  /**
   * Key names are case-folded: an event on "W" and an event on "w" write
   * the same entry, and so do "ArrowUp" and "arrowup".
   */
  lemma CaseFolded(keys: KeyTable, e: KeyEvent)
    ensures Apply(keys, e) == Apply(keys, e.(key := Lower(e.key)))
    ensures Lower("W") == "w" && Lower("ArrowUp") == "arrowup"
  {
    LowerIdempotent(e.key);
    assert Lower("W")[0] == 'w';
    var up := Lower("ArrowUp");
    assert up[0] == 'a' && up[5] == 'u';
    assert up == "arrowup";
  }

  // ---------------------------------------------------------------------
  // Commands
  // ---------------------------------------------------------------------

  datatype Command = MoveForward | MoveBackward | TurnLeft | TurnRight

  /** The four command flags the frame reads from the table. */
  datatype Controls = Controls(forward: bool, backward: bool, left: bool, right: bool)

  /** The four tests at the head of each frame, each on a pair of aliases. */
  function Decode(keys: KeyTable): Controls
  {
    Controls(
      Pressed(keys, "w") || Pressed(keys, "arrowup"),
      Pressed(keys, "s") || Pressed(keys, "arrowdown"),
      Pressed(keys, "a") || Pressed(keys, "arrowleft"),
      Pressed(keys, "d") || Pressed(keys, "arrowright"))
  }

  function Holds(c: Controls, cmd: Command): bool
  {
    match cmd
    case MoveForward => c.forward
    case MoveBackward => c.backward
    case TurnLeft => c.left
    case TurnRight => c.right
  }

  /** The key-to-command bindings, as lower-cased key values. */
  const Bindings: seq<(string, Command)> := [
    ("w", MoveForward), ("arrowup", MoveForward),
    ("s", MoveBackward), ("arrowdown", MoveBackward),
    ("a", TurnLeft), ("arrowleft", TurnLeft),
    ("d", TurnRight), ("arrowright", TurnRight)
  ]

  function BoundKeys(): set<string>
  {
    set i | 0 <= i < |Bindings| :: Bindings[i].0
  }

  /**
   * A command is active exactly when one of the keys bound to it is down;
   * absent entries count as up.
   */
  lemma DecodeFollowsBindings(keys: KeyTable, cmd: Command)
    ensures Holds(Decode(keys), cmd) <==>
      exists i :: 0 <= i < |Bindings| && Bindings[i].1 == cmd && Pressed(keys, Bindings[i].0)
  {
    var b := Bindings;
    match cmd
    case MoveForward =>
      assert b[0].1 == cmd && b[1].1 == cmd;
      assert forall i :: 2 <= i < |b| ==> b[i].1 != cmd;
    case MoveBackward =>
      assert b[2].1 == cmd && b[3].1 == cmd;
      assert forall i :: 0 <= i < |b| && i != 2 && i != 3 ==> b[i].1 != cmd;
    case TurnLeft =>
      assert b[4].1 == cmd && b[5].1 == cmd;
      assert forall i :: 0 <= i < |b| && i != 4 && i != 5 ==> b[i].1 != cmd;
    case TurnRight =>
      assert b[6].1 == cmd && b[7].1 == cmd;
      assert forall i :: 0 <= i < 6 ==> b[i].1 != cmd;
  }

  /** An event on a key that no command is bound to changes no command. */
  lemma UnboundKeyIgnored(keys: KeyTable, e: KeyEvent)
    requires Lower(e.key) !in BoundKeys()
    ensures Decode(Apply(keys, e)) == Decode(keys)
  {
    var b := Bindings;
    assert b[0].0 in BoundKeys() && b[1].0 in BoundKeys() && b[2].0 in BoundKeys() && b[3].0 in BoundKeys();
    assert b[4].0 in BoundKeys() && b[5].0 in BoundKeys() && b[6].0 in BoundKeys() && b[7].0 in BoundKeys();
    ApplyTouchesOneEntry(keys, e);
  }

  /** Before any event every command is inactive. */
  lemma NothingHeldAtStart()
    ensures forall cmd :: !Holds(Decode(map[]), cmd)
  {
  }

  /**
   * Shift-W drives forward like w; releasing it stops forward when the
   * arrow-up alias is not held.
   */
  lemma ShiftedKeyDrives(keys: KeyTable)
    ensures Decode(Apply(keys, KeyDown("W"))).forward
    ensures !Pressed(keys, "arrowup") ==> !Decode(Apply(keys, KeyUp("W"))).forward
  {
    CaseFolded(keys, KeyDown("W"));
  }
}
