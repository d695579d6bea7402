/** The airlock turf: a door tile that opens and closes when a nearby object
    interacts with it, can be locked, and blocks movement through its centre
    while it is not opened.

    The airlock's own state is four fields: `isOpened` (the source's `opened`,
    a reserved word in Dafny), `locked`, `sprite` and the set of blocking
    directions `solidity`. The specification layer below
    describes each transition as a function on a `Door` value; the class
    `Airlock` at the end updates its fields in place and its methods are tied
    to those functions.

    Two engine calls stand outside the model and become parameters:
    `animOk` is the result of asking the engine to play an animation, and
    `isClose` is the engine's answer to "is the interacting object close to
    this turf?". The engine runs the opening animation's callback later; here
    that callback is a method that a caller invokes explicitly. */
module AirlockDoor {

  datatype Option<T> = None | Some(value: T)

  /** The directions of the engine's geometry. Only `Center` is used by the
      airlock: a blocked centre makes the tile impassable. */
  datatype Direction =
    | South | West | North | East
    | SouthWest | NorthWest | NorthEast | SouthEast
    | Center

  /** The airlock turf's default sprite, shown while it is closed. */
  const DefSprite: string := "airlock"

  /** The sprite shown once the opening animation has been started. */
  const OpenedSprite: string := "airlock_opened"

  /** The solidity a closed airlock adds back: its centre blocks. */
  const ClosedSolidity: set<Direction> := {Center}

  /** The three animations the airlock may ask the engine to play. */
  datatype Animation = ClosedAnimation | ClosingAnimation | OpeningAnimation

  function AnimationName(a: Animation): string
  {
    match a
    case ClosedAnimation => "airlock_closed_animation"
    case ClosingAnimation => "airlock_closing"
    case OpeningAnimation => "airlock_opening"
  }

  /** The state of one airlock. */
  datatype Door = Door(isOpened: bool, locked: bool, sprite: string, solidity: set<Direction>)

  /** What an activation leaves behind: the new door state and the animation
      it asked the engine to play, if any (whether or not the engine could
      start it). */
  datatype Activation = Activation(door: Door, played: Option<Animation>)

  /** The reachable-state invariant: a door that is not opened blocks its
      centre, an opened door blocks nothing, and the sprite is one of the
      two the airlock uses. */
  predicate Consistent(d: Door)
  {
    && (d.isOpened ==> d.solidity == {})
    && (!d.isOpened ==> Center in d.solidity)
    && (d.sprite == DefSprite || d.sprite == OpenedSprite)
  }

  /** A newly built airlock, given the solidity its turf base left in place. */
  function Built(base: set<Direction>): (d: Door)
    ensures !d.isOpened && !d.locked
    ensures d.sprite == DefSprite
    ensures ClosedSolidity <= d.solidity && base <= d.solidity
    ensures Consistent(d)
  {
    Door(false, false, DefSprite, base + ClosedSolidity)
  }

  /** Activating the airlock; `animOk` is whether the engine could start the
      animation the airlock asked for. */
  function Activated(d: Door, animOk: bool): (r: Activation)
    // activation never touches the lock
    ensures r.door.locked == d.locked
    // a locked door stays as it is; it only grumbles when it is closed
    ensures d.locked ==> r.door == d
    ensures d.locked ==> (r.played == Some(ClosedAnimation) <==> !d.isOpened)
    // an unlocked door asks for the closing or the opening animation
    ensures !d.locked ==> r.played == Some(if d.isOpened then ClosingAnimation else OpeningAnimation)
    // the names the engine is asked to play
    ensures r.played.Some? ==>
      AnimationName(r.played.value) ==
        (if d.locked then "airlock_closed_animation"
         else if d.isOpened then "airlock_closing"
         else "airlock_opening")
    // when the engine refuses the animation, nothing changes
    ensures !animOk ==> r.door == d
    // closing an opened door: drawn closed and solid again
    ensures !d.locked && d.isOpened && animOk ==>
      && !r.door.isOpened && r.door.sprite == DefSprite
      && r.door.solidity == d.solidity + ClosedSolidity
    // opening a closed door only changes the sprite: `isOpened` and
    // `solidity` wait for the opening callback
    ensures !d.locked && !d.isOpened && animOk ==> r.door == d.(sprite := OpenedSprite)
    // activation alone never opens a door
    ensures r.door.isOpened ==> d.isOpened
    ensures Consistent(d) ==> Consistent(r.door)
  {
    if d.locked then
      Activation(d, if d.isOpened then None else Some(ClosedAnimation))
    else if d.isOpened then
      Activation(
        if animOk then d.(sprite := DefSprite, isOpened := false, solidity := d.solidity + ClosedSolidity) else d,
        Some(ClosingAnimation))
    else
      Activation(if animOk then d.(sprite := OpenedSprite) else d, Some(OpeningAnimation))
  }

  /** Whether an activation hands the engine the opening callback: only an
      unlocked, not yet opened door whose opening animation could start. */
  predicate SchedulesOpening(d: Door, animOk: bool)
  {
    !d.locked && !d.isOpened && animOk
  }

  /** An object interacting with the airlock: `handled` is false, and nothing
      happens, when the object is not close; otherwise the airlock is
      activated once. */
  function Interacted(d: Door, isClose: bool, animOk: bool): (r: (bool, Activation))
    ensures r.0 == isClose
    ensures !isClose ==> r.1 == Activation(d, None)
    ensures isClose ==> r.1 == Activated(d, animOk)
    ensures r.1.door.locked == d.locked
    ensures Consistent(d) ==> Consistent(r.1.door)
  {
    if !isClose then (false, Activation(d, None)) else (true, Activated(d, animOk))
  }

  function Locked(d: Door): (r: Door)
    ensures r.locked
    ensures r.(locked := d.locked) == d
    ensures Consistent(d) ==> Consistent(r)
  {
    d.(locked := true)
  }

  function Unlocked(d: Door): (r: Door)
    ensures !r.locked
    ensures r.(locked := d.locked) == d
    ensures Consistent(d) ==> Consistent(r)
  {
    d.(locked := false)
  }

  /** The callback the engine runs when the opening animation ends: the door
      is now opened and blocks nothing. */
  function OpeningFinished(d: Door): (r: Door)
    ensures r.isOpened && r.solidity == {}
    ensures r.locked == d.locked && r.sprite == d.sprite
    ensures Consistent(d) ==> Consistent(r)
  {
    d.(isOpened := true, solidity := {})
  }

  /** The autoclose callback: nothing when the door is not opened, otherwise
      exactly an activation, so a locked opened door stays opened. */
  function AutocloseFired(d: Door, animOk: bool): (r: Activation)
    ensures !d.isOpened ==> r == Activation(d, None)
    ensures d.isOpened ==> r == Activated(d, animOk)
    ensures d.isOpened && d.locked ==> r.door == d && r.door.isOpened
    ensures r.door.locked == d.locked
    ensures Consistent(d) ==> Consistent(r.door)
  {
    if d.isOpened then Activated(d, animOk) else Activation(d, None)
  }

  lemma LockIdempotent(d: Door)
    ensures Locked(Locked(d)) == Locked(d)
  {
  }

  lemma UnlockIdempotent(d: Door)
    ensures Unlocked(Unlocked(d)) == Unlocked(d)
  {
  }

  /** Under the invariant the centre blocks exactly when the door is not
      opened: the door is dense if and only if it is closed or still opening. */
  lemma DenseIffNotOpened(d: Door)
    requires Consistent(d)
    ensures Center in d.solidity <==> !d.isOpened
  {
  }

  /** The airlock as an object whose methods update its fields in place. */
  class Airlock {
    var isOpened: bool
    var locked: bool
    var sprite: string
    var solidity: set<Direction>

    /** The value of the four fields. */
    function State(): Door
      reads this
    {
      Door(isOpened, locked, sprite, solidity)
    }

    /** `baseSolidity` is what the turf base constructor leaves in
        `solidity`. */
    constructor (baseSolidity: set<Direction>)
      ensures State() == Built(baseSolidity)
      ensures !isOpened && !locked && Center in solidity
    {
      sprite := DefSprite;
      solidity := baseSolidity;
      new;
      solidity := solidity + ClosedSolidity;
      isOpened := false;
      locked := false;
    }

    method InteractedBy(isClose: bool, animOk: bool) returns (handled: bool, played: Option<Animation>)
      modifies this
      ensures (handled, Activation(State(), played)) == Interacted(old(State()), isClose, animOk)
      ensures !isClose ==> !handled && State() == old(State())
    {
      if !isClose {
        return false, None;
      }
      played := Activate(animOk);
      handled := true;
    }

    method Activate(animOk: bool) returns (played: Option<Animation>)
      modifies this
      ensures Activation(State(), played) == Activated(old(State()), animOk)
      ensures locked == old(locked)
    {
      if locked {
        played := if isOpened then None else Some(ClosedAnimation);
        return;
      }
      if isOpened {
        played := Some(ClosingAnimation);
        if !animOk {
          return;
        }
        sprite := DefSprite;
        isOpened := false;
        solidity := solidity + ClosedSolidity;
      } else {
        played := Some(OpeningAnimation);
        if !animOk {
          return;
        }
        sprite := OpenedSprite;
      }
    }

    method Lock()
      modifies this
      ensures State() == Locked(old(State()))
    {
      locked := true;
    }

    method Unlock()
      modifies this
      ensures State() == Unlocked(old(State()))
    {
      locked := false;
    }

    /** Run by the engine once the opening animation has finished. */
    method AnimationOpeningCallback()
      modifies this
      ensures State() == OpeningFinished(old(State()))
    {
      isOpened := true;
      solidity := {};
    }

    method AutocloseCallback(animOk: bool) returns (played: Option<Animation>)
      modifies this
      ensures Activation(State(), played) == AutocloseFired(old(State()), animOk)
    {
      played := None;
      if isOpened {
        played := Activate(animOk);
      }
    }
  }
}
