# Airlock door state machine

A Dafny model of the airlock turf of the game logic (`GameLogic/Objects/Turfs/Airlock.py`).
An airlock is a door tile with four pieces of state:
- `opened` (called `isOpened` here, because `opened` is a reserved word in Dafny);
- `locked`;
- the `sprite` it shows;
- its `solidity`, the set of directions in which it blocks movement.

Objects interact with the airlock, and it is activated. A locked airlock only plays its "closed" animation, and only when it is closed; a locked opened airlock does nothing. An unlocked, opened airlock closes. An unlocked, closed airlock starts its opening animation. The engine runs the opening callback once that animation ends, and only then is the door opened and passable. The autoclose callback activates an opened door.

The model has two modules.

- `AirlockDoor` (`airlock_door.dfy`):
  - the `Door` value and one specification function per transition (`Built`, `Activated`, `Interacted`, `Locked`, `Unlocked`, `OpeningFinished`, `AutocloseFired`), each with a contract stating what the source does;
  - the `Consistent` invariant, which every transition preserves;
  - class `Airlock`, whose fields are updated in place by one method per transition. Each method's postcondition ties its new fields (and the animation it asked for) to the matching specification function of the old fields.
- `AirlockTraces` (`airlock_traces.dfy`): sequences of events applied to one airlock. It tracks the number of opening callbacks the engine still holds, and covers two engines: one that may overlap animations and one that plays one at a time. Induction over the events proves:
  - every reachable airlock is `Consistent`;
  - on a one-at-a-time engine, the sprite agrees with the door's state;
  - a locked door keeps its state unless it is unlocked or an opening callback runs.

  A fixed five-event trace shows that an overlapping engine can leave a door opened while it is drawn closed.

Engine calls become parameters:
- `PlayAnimation`'s result is `animOk`.
- `IsCloseTo`'s result is `isClose`.
- The animation the airlock asks for is returned to the caller as `played`, so that the request becomes visible.
- The callbacks are methods that the caller invokes explicitly.
- The solidity container's `Add` is set union and `Reset` is the empty set.

## Model

| member | source | states |
|---|---|---|
| AirlockDoor.Built | GameLogic/Objects/Turfs/Airlock.py:9-15 | a new airlock is not opened and not locked, shows the default sprite "airlock", and its solidity contains the closed solidity {Center} as well as whatever the turf base left; it is `Consistent` |
| AirlockDoor.Activated | GameLogic/Objects/Turfs/Airlock.py:23-38 | activation never changes `locked`. A locked door is unchanged and asks for the "closed" animation exactly when it is not opened. An unlocked door asks for the closing animation if opened, else the opening one. The requested animations carry the source's names "airlock_closed_animation", "airlock_closing" and "airlock_opening". A refused animation changes nothing. A successful close clears `opened`, shows "airlock" and adds {Center} back. A successful open changes only the sprite, to "airlock_opened". Activation never opens a door. It preserves `Consistent` |
| AirlockDoor.Interacted | GameLogic/Objects/Turfs/Airlock.py:17-21 | the returned flag equals closeness; when the object is not close nothing changes and no animation is asked for; otherwise the result is exactly one activation; `locked` and `Consistent` are kept |
| AirlockDoor.Locked | GameLogic/Objects/Turfs/Airlock.py:40-41 | the door becomes locked and nothing else changes; `Consistent` is kept |
| AirlockDoor.Unlocked | GameLogic/Objects/Turfs/Airlock.py:43-44 | the door becomes unlocked and nothing else changes; `Consistent` is kept |
| AirlockDoor.OpeningFinished | GameLogic/Objects/Turfs/Airlock.py:46-48 | the opening callback leaves the door opened with empty solidity, sprite and lock untouched; `Consistent` is kept |
| AirlockDoor.AutocloseFired | GameLogic/Objects/Turfs/Airlock.py:50-52 | the autoclose callback changes nothing when the door is not opened. Otherwise it is exactly an activation, so a locked opened door stays opened. It keeps `locked` and `Consistent` |
| AirlockDoor.LockIdempotent | GameLogic/Objects/Turfs/Airlock.py:40-41 | locking twice is locking once |
| AirlockDoor.UnlockIdempotent | GameLogic/Objects/Turfs/Airlock.py:43-44 | unlocking twice is unlocking once |
| AirlockDoor.DenseIffNotOpened | GameLogic/Objects/Turfs/Airlock.py:11-13 | for a `Consistent` door the centre blocks exactly when the door is not opened |
| AirlockDoor.Airlock.constructor | GameLogic/Objects/Turfs/Airlock.py:9-15 | the new object's fields are `Built` of the base solidity: closed, unlocked, centre blocking |
| AirlockDoor.Airlock.InteractedBy | GameLogic/Objects/Turfs/Airlock.py:17-21 | returns false and leaves every field unchanged when not close; otherwise calls `Activate` once and returns true; new fields and requested animation are those of `Interacted` |
| AirlockDoor.Airlock.Activate | GameLogic/Objects/Turfs/Airlock.py:23-38 | the new fields and the requested animation are those of `Activated` on the old fields; `locked` is unchanged |
| AirlockDoor.Airlock.Lock | GameLogic/Objects/Turfs/Airlock.py:40-41 | the new fields are `Locked` of the old ones |
| AirlockDoor.Airlock.Unlock | GameLogic/Objects/Turfs/Airlock.py:43-44 | the new fields are `Unlocked` of the old ones |
| AirlockDoor.Airlock.AnimationOpeningCallback | GameLogic/Objects/Turfs/Airlock.py:46-48 | the new fields are `OpeningFinished` of the old ones |
| AirlockDoor.Airlock.AutocloseCallback | GameLogic/Objects/Turfs/Airlock.py:50-52 | the new fields and requested animation are those of `AutocloseFired` on the old fields |
| AirlockTraces.ApplyKeepsConsistent | GameLogic/Objects/Turfs/Airlock.py:17-52 | every event (interaction, activation, lock, unlock, opening callback, autoclose), on either engine, keeps a door `Consistent` |
| AirlockTraces.RunKeepsConsistent | GameLogic/Objects/Turfs/Airlock.py:17-52 | any sequence of events keeps a door `Consistent` |
| AirlockTraces.ReachableIsConsistent | GameLogic/Objects/Turfs/Airlock.py:9-52 | every airlock reachable from construction blocks its centre exactly when it is not opened, and an opened airlock blocks nothing |
| AirlockTraces.ApplyKeepsSpriteAgreement | GameLogic/Objects/Turfs/Airlock.py:23-48 | on a one-at-a-time engine, each event keeps at most one opening callback outstanding. With none outstanding, the sprite shows "airlock_opened" exactly when the door is opened. With one outstanding, the door shows "airlock_opened" but is not yet opened |
| AirlockTraces.RunKeepsSpriteAgreement | GameLogic/Objects/Turfs/Airlock.py:23-48 | the same agreement is kept by any sequence of events on a one-at-a-time engine |
| AirlockTraces.ReachableSpriteAgrees | GameLogic/Objects/Turfs/Airlock.py:9-48 | every airlock reachable from construction on a one-at-a-time engine has that agreement |
| AirlockTraces.OverlappingOpeningsDesync | GameLogic/Objects/Turfs/Airlock.py:29-48 | on an engine that starts a second opening animation before the first callback ran, the events activate, activate, callback, activate, callback leave the door opened and passable while it shows the closed sprite "airlock" |
| AirlockTraces.LockedDoorStaysPut | GameLogic/Objects/Turfs/Airlock.py:23-27 | a locked door keeps its whole state through any events other than unlocking and the opening callback |

## Left out

- `Turf` base class: its constructor is not part of this model. The model assumes it sets `sprite` to the class's `defSprite` ("airlock"). The solidity it leaves is the constructor parameter `baseSolidity`, so only "contains {Center}" is promised about a new airlock's solidity.
- `Engine.Geometry.Direction`: the enumeration is not part of this model. It is given nine values, and only `Center` is used.
- `PlayAnimation` and `IsCloseTo`: these are engine calls, and only their boolean results are modelled. Which animation is shown, its timing, and the lambda passed as the opening callback are the engine's business. The model returns the requested animation instead.
- Callback scheduling: this is asynchronous and engine-driven. In the class, the callbacks are methods anyone may call at any time. In the trace model, the opening callback runs only while one is outstanding. Nothing in `Airlock.py` schedules `__autocloseCallback`, so it may fire at any time.
- `PlayAnimation` while an opening callback is outstanding: `Airlock.py` does not say whether the engine starts a second animation then. The trace model covers both answers. `SpriteAgrees` holds only under the `OneAtATime` policy, where the engine refuses. `OverlappingOpeningsDesync` shows what happens when the engine accepts.
- `canBeSpawned` and `defName`: these are not modelled. Spawning and naming belong to the engine.
- `SharedLibrary/Sources/Shared/Network/Protocol/ServerToClient/Commands.h`: its messages are declarations built from serialization macros whose bodies are not part of this model, and serialization belongs to the transport layer.
