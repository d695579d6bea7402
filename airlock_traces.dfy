/** Sequences of events applied to one airlock, together with the part of the
    engine the airlock depends on: the opening callbacks the engine still has
    to run. Each opening animation that could start hands the engine one
    callback; the engine runs the outstanding callbacks later, in between
    other events, and the autoclose callback may fire at any time.

    Two engines are considered. An `Overlapping` engine may start a new
    animation while an opening callback is still outstanding; a `OneAtATime`
    engine refuses to (its `PlayAnimation` reports failure). */
module AirlockTraces {
  import opened AirlockDoor

  datatype Engine = Overlapping | OneAtATime

  datatype Event =
    | Interact(isClose: bool, animOk: bool)
    | Activate(animOk: bool)
    | Lock
    | Unlock
    | OpeningDone
    | Autoclose(animOk: bool)

  /** One airlock and the number of opening callbacks the engine holds for it. */
  datatype World = World(door: Door, pending: nat)

  function Initial(base: set<Direction>): World
  {
    World(Built(base), 0)
  }

  /** What `PlayAnimation` reports: the engine's own answer, overruled by a
      one-at-a-time engine while an opening callback is outstanding. */
  function Started(w: World, engine: Engine, animOk: bool): bool
  {
    animOk && (engine == Overlapping || w.pending == 0)
  }

  /** The world after an activation of the door with engine answer `ok`. */
  function AfterActivation(w: World, ok: bool): World
  {
    World(Activated(w.door, ok).door, w.pending + if SchedulesOpening(w.door, ok) then 1 else 0)
  }

  function Apply(w: World, engine: Engine, e: Event): World
  {
    match e
    case Interact(isClose, animOk) =>
      var ok := Started(w, engine, animOk);
      World(Interacted(w.door, isClose, ok).1.door,
            w.pending + if isClose && SchedulesOpening(w.door, ok) then 1 else 0)
    case Activate(animOk) => AfterActivation(w, Started(w, engine, animOk))
    case Lock => w.(door := Locked(w.door))
    case Unlock => w.(door := Unlocked(w.door))
    case OpeningDone =>
      if w.pending == 0 then w else World(OpeningFinished(w.door), w.pending - 1)
    case Autoclose(animOk) =>
      var ok := Started(w, engine, animOk);
      World(AutocloseFired(w.door, ok).door,
            w.pending + if w.door.isOpened && SchedulesOpening(w.door, ok) then 1 else 0)
  }

  function Run(w: World, engine: Engine, events: seq<Event>): World
    decreases |events|
  {
    if events == [] then w else Run(Apply(w, engine, events[0]), engine, events[1..])
  }

  /** Every event keeps the door consistent, on either engine. */
  lemma ApplyKeepsConsistent(w: World, engine: Engine, e: Event)
    requires Consistent(w.door)
    ensures Consistent(Apply(w, engine, e).door)
  {
  }

  lemma {:induction false} RunKeepsConsistent(w: World, engine: Engine, events: seq<Event>)
    requires Consistent(w.door)
    ensures Consistent(Run(w, engine, events).door)
    decreases |events|
  {
    if events != [] {
      ApplyKeepsConsistent(w, engine, events[0]);
      RunKeepsConsistent(Apply(w, engine, events[0]), engine, events[1..]);
    }
  }

  /** Whatever the engine does, every reachable airlock blocks its centre
      exactly when it is not opened, and an opened one blocks nothing. */
  lemma ReachableIsConsistent(base: set<Direction>, engine: Engine, events: seq<Event>)
    ensures Consistent(Run(Initial(base), engine, events).door)
    ensures var d := Run(Initial(base), engine, events).door;
      (Center in d.solidity <==> !d.isOpened) && (d.isOpened ==> d.solidity == {})
  {
    RunKeepsConsistent(Initial(base), engine, events);
    DenseIffNotOpened(Run(Initial(base), engine, events).door);
  }

  /** On a one-at-a-time engine the sprite tells the truth: with no callback
      outstanding it shows "opened" exactly when the door is opened, and while
      the single outstanding callback waits, the door is shown opened but is
      still closed. */
  predicate SpriteAgrees(w: World)
  {
    && Consistent(w.door)
    && w.pending <= 1
    && (w.pending == 0 ==> (w.door.sprite == OpenedSprite <==> w.door.isOpened))
    && (w.pending == 1 ==> w.door.sprite == OpenedSprite && !w.door.isOpened)
  }

  lemma ApplyKeepsSpriteAgreement(w: World, e: Event)
    requires SpriteAgrees(w)
    ensures SpriteAgrees(Apply(w, OneAtATime, e))
  {
  }

  lemma {:induction false} RunKeepsSpriteAgreement(w: World, events: seq<Event>)
    requires SpriteAgrees(w)
    ensures SpriteAgrees(Run(w, OneAtATime, events))
    decreases |events|
  {
    if events != [] {
      ApplyKeepsSpriteAgreement(w, events[0]);
      RunKeepsSpriteAgreement(Apply(w, OneAtATime, events[0]), events[1..]);
    }
  }

  lemma ReachableSpriteAgrees(base: set<Direction>, events: seq<Event>)
    ensures SpriteAgrees(Run(Initial(base), OneAtATime, events))
  {
    RunKeepsSpriteAgreement(Initial(base), events);
  }

  /** On an overlapping engine the sprite can lie: two opening animations
      started back to back leave a second callback outstanding, which opens
      the door again after it has been closed, while it is drawn closed. */
  lemma OverlappingOpeningsDesync(base: set<Direction>)
    ensures var w := Run(Initial(base), Overlapping,
                         [Activate(true), Activate(true), OpeningDone, Activate(true), OpeningDone]);
      w.door.isOpened && w.door.sprite == DefSprite && w.door.solidity == {} && w.pending == 0
  {
    // after the two activations the door shows "airlock_opened" with two
    // callbacks outstanding; the first opens it, the third activation closes
    // it again (sprite "airlock"), and the second callback reopens it
  }

  /** Only events that touch the lock or the opening callback can move a
      locked door: a locked airlock receiving interactions, activations and
      autoclose callbacks keeps its whole state. */
  predicate MovesLockedDoor(e: Event)
  {
    e.Unlock? || e.OpeningDone?
  }

  lemma {:induction false} LockedDoorStaysPut(w: World, engine: Engine, events: seq<Event>)
    requires w.door.locked
    requires forall i :: 0 <= i < |events| ==> !MovesLockedDoor(events[i])
    ensures Run(w, engine, events).door == w.door
    decreases |events|
  {
    if events != [] {
      assert !MovesLockedDoor(events[0]);
      var w' := Apply(w, engine, events[0]);
      assert w'.door == w.door;
      forall i | 0 <= i < |events[1..]|
        ensures !MovesLockedDoor(events[1..][i])
      {
        assert events[1..][i] == events[i + 1];
      }
      LockedDoorStaysPut(w', engine, events[1..]);
    }
  }
}
