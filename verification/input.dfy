/**
  The Input State of the engine: the seven movement flags of
  `characterControls` and the two key handlers that `enableControls`
  installs. Both handlers switch over the same fixed key map and have no
  default branch, so a key outside the map changes nothing.
 */
module Input {
  import opened Wrappers

  /** One of the seven movement intents. */
  datatype Flag = MoveForward | MoveBackward | MoveLeft | MoveRight | Jump | Crouch | Attack

  const AllFlags: set<Flag> := {MoveForward, MoveBackward, MoveLeft, MoveRight, Jump, Crouch, Attack}

  /** The flag record, one field per intent, all false at construction. */
  datatype InputState = InputState(
    moveForward: bool,
    moveBackward: bool,
    moveLeft: bool,
    moveRight: bool,
    jump: bool,
    crouch: bool,
    attack: bool)

  const Released: InputState := InputState(false, false, false, false, false, false, false)

  /** The value of one flag. */
  function Get(s: InputState, f: Flag): bool
  {
    match f
    case MoveForward => s.moveForward
    case MoveBackward => s.moveBackward
    case MoveLeft => s.moveLeft
    case MoveRight => s.moveRight
    case Jump => s.jump
    case Crouch => s.crouch
    case Attack => s.attack
  }

  /** The set of flags that are currently true. */
  function Held(s: InputState): set<Flag>
  {
    set f | f in AllFlags && Get(s, f)
  }

  lemma AllFlagsComplete(f: Flag)
    ensures f in AllFlags
  {
  }

  /** The value of `KeyboardEvent.key` as the handlers see it. */
  type Key = string

  /** The key map shared by the keydown and the keyup switch. */
  function FlagOf(k: Key): Option<Flag>
  {
    if k == "w" then Some(MoveForward)
    else if k == "s" then Some(MoveBackward)
    else if k == "a" then Some(MoveLeft)
    else if k == "d" then Some(MoveRight)
    else if k == " " then Some(Jump)
    else if k == "Shift" then Some(Crouch)
    else if k == "x" then Some(Attack)
    else None
  }

  /** The one key bound to each flag. */
  function KeyOf(f: Flag): Key
  {
    match f
    case MoveForward => "w"
    case MoveBackward => "s"
    case MoveLeft => "a"
    case MoveRight => "d"
    case Jump => " "
    case Crouch => "Shift"
    case Attack => "x"
  }

  /** The key map is a bijection between the seven keys and the seven flags. */
  lemma KeyMapBijective(k: Key, f: Flag)
    ensures FlagOf(k) == Some(f) <==> k == KeyOf(f)
  {
  }

  /** The keydown listener: sets the flag of a mapped key. */
  function KeyDown(s: InputState, k: Key): (r: InputState)
    ensures FlagOf(k).None? ==> r == s
    ensures FlagOf(k).Some? ==> Get(r, FlagOf(k).value)
    ensures forall g :: Some(g) != FlagOf(k) ==> Get(r, g) == Get(s, g)
  {
    if k == "w" then s.(moveForward := true)
    else if k == "s" then s.(moveBackward := true)
    else if k == "a" then s.(moveLeft := true)
    else if k == "d" then s.(moveRight := true)
    else if k == " " then s.(jump := true)
    else if k == "Shift" then s.(crouch := true)
    else if k == "x" then s.(attack := true)
    else s
  }

  /** The keyup listener: clears the flag of a mapped key. */
  function KeyUp(s: InputState, k: Key): (r: InputState)
    ensures FlagOf(k).None? ==> r == s
    ensures FlagOf(k).Some? ==> !Get(r, FlagOf(k).value)
    ensures forall g :: Some(g) != FlagOf(k) ==> Get(r, g) == Get(s, g)
  {
    if k == "w" then s.(moveForward := false)
    else if k == "s" then s.(moveBackward := false)
    else if k == "a" then s.(moveLeft := false)
    else if k == "d" then s.(moveRight := false)
    else if k == " " then s.(jump := false)
    else if k == "Shift" then s.(crouch := false)
    else if k == "x" then s.(attack := false)
    else s
  }

  /** Two flag records that agree on every flag are the same record. */
  lemma Extensional(s: InputState, t: InputState)
    requires forall f :: Get(s, f) == Get(t, f)
    ensures s == t
  {
    assert Get(s, MoveForward) == Get(t, MoveForward);
    assert Get(s, MoveBackward) == Get(t, MoveBackward);
    assert Get(s, MoveLeft) == Get(t, MoveLeft);
    assert Get(s, MoveRight) == Get(t, MoveRight);
    assert Get(s, Jump) == Get(t, Jump);
    assert Get(s, Crouch) == Get(t, Crouch);
    assert Get(s, Attack) == Get(t, Attack);
  }

  /** Seen as the set of held intents, a keydown adds its flag and a keyup removes it. */
  lemma HandlersOnHeldSet(s: InputState, k: Key)
    ensures FlagOf(k).Some? ==> Held(KeyDown(s, k)) == Held(s) + {FlagOf(k).value}
    ensures FlagOf(k).Some? ==> Held(KeyUp(s, k)) == Held(s) - {FlagOf(k).value}
    ensures FlagOf(k).None? ==> Held(KeyDown(s, k)) == Held(s) == Held(KeyUp(s, k))
  {
    if FlagOf(k).Some? {
      var f := FlagOf(k).value;
      forall g ensures g in Held(KeyDown(s, k)) <==> g in Held(s) + {f} {
        AllFlagsComplete(g);
      }
      forall g ensures g in Held(KeyUp(s, k)) <==> g in Held(s) - {f} {
        AllFlagsComplete(g);
      }
    }
  }

  /** Keydown and keyup are idempotent, and the later of the two wins. */
  lemma HandlersIdempotent(s: InputState, k: Key)
    ensures KeyDown(KeyDown(s, k), k) == KeyDown(s, k)
    ensures KeyUp(KeyUp(s, k), k) == KeyUp(s, k)
    ensures KeyUp(KeyDown(s, k), k) == KeyUp(s, k)
    ensures KeyDown(KeyUp(s, k), k) == KeyDown(s, k)
  {
    Extensional(KeyDown(KeyDown(s, k), k), KeyDown(s, k));
    Extensional(KeyUp(KeyUp(s, k), k), KeyUp(s, k));
    Extensional(KeyUp(KeyDown(s, k), k), KeyUp(s, k));
    Extensional(KeyDown(KeyUp(s, k), k), KeyDown(s, k));
  }

  /** A key event as delivered to the document listeners. */
  datatype KeyEvent = Down(key: Key) | Up(key: Key)

  /** One event handled by the matching listener. */
  function Apply(s: InputState, ev: KeyEvent): InputState
  {
    match ev
    case Down(k) => KeyDown(s, k)
    case Up(k) => KeyUp(s, k)
  }

  /** A sequence of events handled in order, first event first. */
  function Replay(s: InputState, evs: seq<KeyEvent>): InputState
    decreases |evs|
  {
    if evs == [] then s else Replay(Apply(s, evs[0]), evs[1..])
  }

  /**
    The last event in `evs` whose key is bound to `f`: `Some(true)` for a
    keydown, `Some(false)` for a keyup, `None` if there is none.
   */
  function LastFor(evs: seq<KeyEvent>, f: Flag): Option<bool>
    decreases |evs|
  {
    if evs == [] then None
    else if FlagOf(evs[|evs| - 1].key) == Some(f) then Some(evs[|evs| - 1].Down?)
    else LastFor(evs[..|evs| - 1], f)
  }

  lemma {:induction false} ReplaySnoc(s: InputState, evs: seq<KeyEvent>, ev: KeyEvent)
    ensures Replay(s, evs + [ev]) == Apply(Replay(s, evs), ev)
    decreases |evs|
  {
    if evs == [] {
      assert evs + [ev] == [ev];
    } else {
      assert (evs + [ev])[1..] == evs[1..] + [ev];
      ReplaySnoc(Apply(s, evs[0]), evs[1..], ev);
    }
  }

  /**
    After any event sequence a flag is true exactly when the last event for
    its key was a keydown; with no event for its key it keeps its value.
   */
  lemma {:induction false} ReplayFollowsLastEvent(s: InputState, evs: seq<KeyEvent>, f: Flag)
    ensures Get(Replay(s, evs), f) == match LastFor(evs, f) { case Some(down) => down case None => Get(s, f) }
    decreases |evs|
  {
    if evs != [] {
      var init, ev := evs[..|evs| - 1], evs[|evs| - 1];
      assert evs == init + [ev];
      ReplaySnoc(s, init, ev);
      ReplayFollowsLastEvent(s, init, f);
    }
  }

  /** Whether `evs` holds a keydown of the key bound to `f`. */
  predicate HasKeyDown(evs: seq<KeyEvent>, f: Flag)
  {
    exists i :: 0 <= i < |evs| && evs[i].Down? && FlagOf(evs[i].key) == Some(f)
  }

  /** Starting from all-false, a flag is never true before its key's first keydown. */
  lemma {:induction false} NoPhantomFlags(evs: seq<KeyEvent>, f: Flag)
    requires !HasKeyDown(evs, f)
    ensures !Get(Replay(Released, evs), f)
  {
    ReplayFollowsLastEvent(Released, evs, f);
    LastForWitness(evs, f);
  }

  lemma {:induction false} LastForWitness(evs: seq<KeyEvent>, f: Flag)
    ensures LastFor(evs, f) == Some(true) ==> HasKeyDown(evs, f)
    decreases |evs|
  {
    if evs != [] && FlagOf(evs[|evs| - 1].key) != Some(f) {
      var init := evs[..|evs| - 1];
      LastForWitness(init, f);
      if LastFor(evs, f) == Some(true) {
        var i :| 0 <= i < |init| && init[i].Down? && FlagOf(init[i].key) == Some(f);
        assert evs[i] == init[i];
      }
    }
  }

  /** Starting from all-false, the held set is exactly the flags whose last event was a keydown. */
  lemma HeldAfterReplay(evs: seq<KeyEvent>)
    ensures Held(Replay(Released, evs)) == set f | f in AllFlags && LastFor(evs, f) == Some(true)
  {
    forall f ensures Get(Replay(Released, evs), f) <==> LastFor(evs, f) == Some(true) {
      ReplayFollowsLastEvent(Released, evs, f);
    }
  }
}
