/**
  The physical keyboard in front of the key handlers. A browser reports a
  letter key's `KeyboardEvent.key` in upper case while Shift is held, and
  Shift is itself a mapped key (crouch). The handlers compare against
  lower-case letters only, so a letter released while Shift is down is
  delivered as a key outside the map and its flag stays set. This module
  models the handlers as written on top of that delivery, exhibits the
  stuck flag, and proves the intended invariant for handlers that
  lower-case a single upper-case letter key first. Lower-casing the whole
  key would turn "Shift" into "shift" and break the crouch case.
 */
module Keyboard {
  import opened Wrappers
  import opened Input

  /** The physical keys the key map is meant for (US layout, Caps Lock off). */
  datatype PhysicalKey = KeyW | KeyS | KeyA | KeyD | SpaceBar | ShiftKey | KeyX

  /** The intent each physical key is meant to drive. */
  function Intent(p: PhysicalKey): Flag
  {
    match p
    case KeyW => MoveForward
    case KeyS => MoveBackward
    case KeyA => MoveLeft
    case KeyD => MoveRight
    case SpaceBar => Jump
    case ShiftKey => Crouch
    case KeyX => Attack
  }

  /** The `KeyboardEvent.key` a browser reports for `p`, with or without Shift held. */
  function KeyString(p: PhysicalKey, shifted: bool): Key
  {
    match p
    case KeyW => if shifted then "W" else "w"
    case KeyS => if shifted then "S" else "s"
    case KeyA => if shifted then "A" else "a"
    case KeyD => if shifted then "D" else "d"
    case SpaceBar => " "
    case ShiftKey => "Shift"
    case KeyX => if shifted then "X" else "x"
  }

  datatype Stroke = Press(key: PhysicalKey) | Release(key: PhysicalKey)

  /** The physical keys held down and the engine's flag record. */
  datatype Keyboard = Keyboard(held: set<PhysicalKey>, flags: InputState)

  const Idle: Keyboard := Keyboard({}, Released)

  /** The invariant the Input State is meant to keep: a flag is set exactly while its key is held. */
  predicate Tracks(kb: Keyboard)
  {
    forall p :: Get(kb.flags, Intent(p)) <==> p in kb.held
  }

  function NextHeld(held: set<PhysicalKey>, stroke: Stroke): (r: set<PhysicalKey>)
    ensures stroke.Press? ==> stroke.key in r
    ensures stroke.Release? ==> stroke.key !in r
    ensures forall q :: q != stroke.key ==> (q in r <==> q in held)
  {
    match stroke
    case Press(p) => held + {p}
    case Release(p) => held - {p}
  }

  /** The event the document listeners receive for a stroke. */
  function Delivered(kb: Keyboard, stroke: Stroke): KeyEvent
  {
    var k := KeyString(stroke.key, ShiftKey in kb.held);
    if stroke.Press? then Down(k) else Up(k)
  }

  /** A stroke handled by the listeners as written. */
  function StepAsWritten(kb: Keyboard, stroke: Stroke): Keyboard
  {
    Keyboard(NextHeld(kb.held, stroke), Apply(kb.flags, Delivered(kb, stroke)))
  }

  function RunAsWritten(kb: Keyboard, strokes: seq<Stroke>): Keyboard
    decreases |strokes|
  {
    if strokes == [] then kb else RunAsWritten(StepAsWritten(kb, strokes[0]), strokes[1..])
  }

  /**
    Press `w`, press Shift, release `w`: the release arrives as "W", which no
    case matches, so moveForward stays true with `w` no longer held.
   */
  lemma AsWrittenLeavesFlagStuck()
    ensures Tracks(Idle)
    ensures var kb := RunAsWritten(Idle, [Press(KeyW), Press(ShiftKey), Release(KeyW)]);
      KeyW !in kb.held && Get(kb.flags, MoveForward) && !Tracks(kb)
  {
    var s := [Press(KeyW), Press(ShiftKey), Release(KeyW)];
    var k1 := StepAsWritten(Idle, s[0]);
    assert k1 == Keyboard({KeyW}, Released.(moveForward := true));
    var k2 := StepAsWritten(k1, s[1]);
    assert k2 == Keyboard({KeyW, ShiftKey}, Released.(moveForward := true, crouch := true));
    var k3 := StepAsWritten(k2, s[2]);
    assert FlagOf("W") == None;
    assert k3 == Keyboard({ShiftKey}, k2.flags);
    assert s[1..][1..] == [s[2]];
    assert RunAsWritten(Idle, s) == k3;
  }

  /** Press Shift, press `w`: the keydown arrives as "W", so moveForward is never set while `w` is held. */
  lemma AsWrittenShiftFirstNeverSets()
    ensures var kb := RunAsWritten(Idle, [Press(ShiftKey), Press(KeyW)]);
      KeyW in kb.held && !Get(kb.flags, MoveForward) && !Tracks(kb)
  {
    var s := [Press(ShiftKey), Press(KeyW)];
    var k1 := StepAsWritten(Idle, s[0]);
    assert k1 == Keyboard({ShiftKey}, Released.(crouch := true));
    var k2 := StepAsWritten(k1, s[1]);
    assert FlagOf("W") == None;
    assert k2 == Keyboard({ShiftKey, KeyW}, k1.flags);
    assert s[1..][1..] == [];
    assert RunAsWritten(Idle, s) == k2;
  }

  /** Lower-cases a one-character upper-case ASCII key; every other key is kept. */
  function Normalize(k: Key): (r: Key)
    ensures |r| == |k|
    ensures |k| != 1 ==> r == k
    ensures |k| == 1 ==> !('A' <= r[0] <= 'Z')
    ensures |k| == 1 && !('A' <= k[0] <= 'Z') ==> r == k
  {
    if |k| == 1 && 'A' <= k[0] <= 'Z' then [(k[0] as int + 32) as char] else k
  }

  /** Whatever the Shift state, the normalised key is the key bound to the intended flag. */
  lemma NormalizeKeyString(p: PhysicalKey, shifted: bool)
    ensures Normalize(KeyString(p, shifted)) == KeyOf(Intent(p))
  {
    match p
    case KeyW => assert "W"[0] == 'W';
    case KeyS => assert "S"[0] == 'S';
    case KeyA => assert "A"[0] == 'A';
    case KeyD => assert "D"[0] == 'D';
    case SpaceBar =>
    case ShiftKey =>
    case KeyX => assert "X"[0] == 'X';
  }

  /** A stroke handled by listeners that lower-case a single upper-case letter key before the switch. */
  function StepCorrected(kb: Keyboard, stroke: Stroke): (r: Keyboard)
    ensures r.held == NextHeld(kb.held, stroke)
    ensures Tracks(kb) ==> Tracks(r)
  {
    var r := match Delivered(kb, stroke)
      case Down(k) => Keyboard(NextHeld(kb.held, stroke), KeyDown(kb.flags, Normalize(k)))
      case Up(k) => Keyboard(NextHeld(kb.held, stroke), KeyUp(kb.flags, Normalize(k)));
    CorrectedStepTracks(kb, stroke, r);
    r
  }

  lemma CorrectedStepTracks(kb: Keyboard, stroke: Stroke, r: Keyboard)
    requires r == match Delivered(kb, stroke)
      case Down(k) => Keyboard(NextHeld(kb.held, stroke), KeyDown(kb.flags, Normalize(k)))
      case Up(k) => Keyboard(NextHeld(kb.held, stroke), KeyUp(kb.flags, Normalize(k)))
    ensures Tracks(kb) ==> Tracks(r)
  {
    var p := stroke.key;
    var f := Intent(p);
    NormalizeKeyString(p, ShiftKey in kb.held);
    KeyMapBijective(KeyOf(f), f);
    assert FlagOf(Normalize(Delivered(kb, stroke).key)) == Some(f);
    if Tracks(kb) {
      forall q ensures Get(r.flags, Intent(q)) <==> q in r.held {
        if q != p {
          assert Intent(q) != f;
        }
      }
    }
  }

  function RunCorrected(kb: Keyboard, strokes: seq<Stroke>): Keyboard
    decreases |strokes|
  {
    if strokes == [] then kb else RunCorrected(StepCorrected(kb, strokes[0]), strokes[1..])
  }

  /** With single upper-case letter keys lower-cased, every stroke sequence keeps the flags equal to the held keys. */
  lemma {:induction false} CorrectedTracksHeldKeys(kb: Keyboard, strokes: seq<Stroke>)
    requires Tracks(kb)
    ensures Tracks(RunCorrected(kb, strokes))
    decreases |strokes|
  {
    if strokes != [] {
      CorrectedTracksHeldKeys(StepCorrected(kb, strokes[0]), strokes[1..]);
    }
  }
}
