# Game-state coordination of a Unity prototype, in Dafny

This project models the core that sits under the Unity glue of a small game
prototype:

- the **GameManager** state machine: five `GameState` values; the fields
  `currentGameState`, `previousGameState`, `isGamePaused` and `gameTime`; the
  guarded `ChangeGameState`; the operations built on it; and the Escape-key and
  host pause/focus triggers;
- the **EventSystem** modal gate: an `isEventPlaying` flag whose start and end
  are idempotent and which call `PauseGame` / `ResumeGame`;
- the **SceneConfig** policy: a scene-name-to-state dictionary built from a
  list of pairs, written at runtime, and looked up with a default;
- the static **GameEvents** channels: typed delegates, their `+=`/`-=` and the
  `?.Invoke` forwarders;
- **Actor.CanAct**, which gates the per-frame hooks;
- the **SingletonMonoBehaviour** register-once rule.

Each file whose source updates state in place has a class with the source's
fields. Its methods are proved to have exactly the effect of a pure function
on values, and the lemmas are stated about those functions:

- `GameFlow` specifies `GameManagers.GameManager`;
- `EventGate` specifies `EventSystems.EventSystem`;
- `Events` holds the `Bus` functions and the class `Events.GameEvents`.

`Actors` is pure. `Singletons` is a class only.

The model follows the code as written:

- `ChangeGameState` raises no event: every case of `OnGameStateChanged` is
  empty. So `StartGame` raises only `GameResumed`.
- Event invocation does not isolate a failing handler.
- `StartGame` has no guard.
- The scene dictionary is not built on start-up: `Awake` only subscribes.
  `SetupSceneStates` is private and nothing calls it, so the dictionary holds
  only the keys `SetSceneState` has written; every other scene resolves to
  `defaultState`.
- The cut-scene has no guaranteed release.
- The gate does not force the game into Paused. `StartEvent` outside Playing
  only sets the flag, and `EndEvent` resumes any Paused game, including one
  the player paused.

Facts proved beyond the single-operation contracts:

- **Reachable states.** No sequence of the manager's commands reaches
  Loading. Paused is only entered with the pause flag set and Playing
  remembered (`GameFlow.ReachableStatesAreConsistent`). This covers the
  manager's own commands only: `SceneConfig.OnSceneChanged` calls
  `ChangeGameState` directly, so a scene mapped to Paused or Loading by
  `SetSceneState` is entered without the flag.
- **Stale pause flag.** The flag can go stale: Start, Pause, GameOver, Start
  ends in Playing with `isGamePaused` set. In that state the clock is frozen
  while actors still act (`GameFlow.PauseFlagOutlivesGameOver`,
  `Actors.ActorsActWhileClockIsFrozen`).
- **Scene changes.** A scene change can also leave the flag stale
  (`Scenes.SceneChangeLeavesPauseFlag`).

## Model

| member | source | states |
|---|---|---|
| `Events.ChannelOf` | Assets/Scripts/EventSystem/GameEvents.cs:9-30 | each raise method invokes its own delegate: every one of the eight channels receives exactly its own kind of event |
| `Events.Deliveries` | Assets/Scripts/EventSystem/GameEvents.cs:16-20 | invoking a delegate calls every subscriber once, in subscription order, each with the same payload |
| `Events.RemoveLast` | Assets/Scripts/Managers/SceneConfig.cs:31 | `-=` removes exactly one occurrence of a subscribed handler (multiset minus one) and leaves a list without it unchanged |
| `Events.RemoveLastDropsLastOccurrence` | Assets/Scripts/Managers/SceneConfig.cs:31 | the occurrence `-=` removes is the last one; everything before and after it keeps its order |
| `Events.AddHandler` | Assets/Scripts/Managers/SceneConfig.cs:26 | `+=` appends the handler to one channel's list and touches no other channel and no trace |
| `Events.RemoveHandler` | Assets/Scripts/Managers/SceneConfig.cs:31 | `-=` changes only that channel's list, and only by removing the last occurrence |
| `Events.RemoveUndoesAdd` | Assets/Scripts/Managers/SceneConfig.cs:26-31 | subscribing then unsubscribing the same handler restores every channel's invocation list |
| `Events.Publish` | Assets/Scripts/EventSystem/GameEvents.cs:16-30 | a raise adds one delivery per subscriber of the event's own channel, in order, each carrying the payload unchanged; without subscribers it delivers nothing and is not an error |
| `Events.GameEvents.constructor` | Assets/Scripts/EventSystem/GameEvents.cs:9-25 | every delegate starts null: no subscribers, nothing raised |
| `Events.GameEvents.Subscribe` | Assets/Scripts/Managers/SceneConfig.cs:26 | the bus state afterwards is the `+=` of the old one |
| `Events.GameEvents.Unsubscribe` | Assets/Scripts/Managers/SceneConfig.cs:31 | the bus state afterwards is the `-=` of the old one |
| `Events.GameEvents.Raise` | Assets/Scripts/EventSystem/GameEvents.cs:16-30 | the bus state afterwards is the old one with the event published |
| `GameFlow.ChangeGameState` | Assets/Scripts/Managers/GameManager.cs:93-103 | moving to the current state changes nothing; otherwise previous becomes the old current; the flag and time are untouched and no event is raised |
| `GameFlow.ResetGameStats` | Assets/Scripts/Managers/GameManager.cs:175-180 | game time becomes zero and nothing else changes |
| `GameFlow.StartGame` | Assets/Scripts/Managers/GameManager.cs:122-127 | from any state: Playing, time zero, pause flag untouched, previous set only if the state changed, exactly one GameResumed |
| `GameFlow.PauseGame` | Assets/Scripts/Managers/GameManager.cs:129-138 | no-op unless Playing; from Playing: flag set, Paused with previous Playing, exactly one GamePaused |
| `GameFlow.ResumeGame` | Assets/Scripts/Managers/GameManager.cs:140-149 | no-op unless Paused; from Paused: flag cleared, Playing with previous Paused, exactly one GameResumed |
| `GameFlow.GameOver` | Assets/Scripts/Managers/GameManager.cs:151-159 | from any state ends in GameOver without touching flag or time and without an event; a no-op when already there, otherwise previous becomes the old current state |
| `GameFlow.RestartGame` | Assets/Scripts/Managers/GameManager.cs:161-165 | from any state: Playing with time zero, flag untouched, no event |
| `GameFlow.GoToMainMenu` | Assets/Scripts/Managers/GameManager.cs:167-171 | from any state ends in Menu without touching flag or time and without an event; a no-op when already there, otherwise previous becomes the old current state |
| `GameFlow.HandleInput` | Assets/Scripts/Managers/GameManager.cs:74-88 | without Escape, or outside Playing/Paused, nothing happens; Escape does exactly what PauseGame does from Playing and what ResumeGame does from Paused |
| `GameFlow.OnApplicationPause` | Assets/Scripts/Managers/GameManager.cs:205-211 | a host pause pauses the game only from Playing; otherwise nothing happens |
| `GameFlow.OnApplicationFocus` | Assets/Scripts/Managers/GameManager.cs:214-220 | losing focus pauses the game only from Playing; otherwise nothing happens |
| `GameFlow.Update` | Assets/Scripts/Managers/GameManager.cs:39-47 | game time advances by the frame time exactly when the game is playing (Playing and not paused); apart from the time, a frame has the effect and events of the Escape handling, and without Escape nothing else changes |
| `GameFlow.ApplyKeepsConsistent` | Assets/Scripts/Managers/GameManager.cs:122-220 | every public command except ChangeGameState keeps Loading out of current and previous, and keeps Paused tied to the set flag and a remembered Playing |
| `GameFlow.RunKeepsConsistent` | Assets/Scripts/Managers/GameManager.cs:122-220 | any sequence of those commands keeps that invariant |
| `GameFlow.ReachableStatesAreConsistent` | Assets/Scripts/Managers/GameManager.cs:19-25 | from the field initialisers no command sequence reaches Loading or a Paused state without the flag |
| `GameFlow.PauseFlagMovesOnlyWithPauseOrResume` | Assets/Scripts/Managers/GameManager.cs:129-149 | `isGamePaused` changes only together with a Playing-to-Paused (set) or Paused-to-Playing (cleared) move |
| `GameFlow.PauseFlagOutlivesGameOver` | Assets/Scripts/Managers/GameManager.cs:122-189 | Start, Pause, GameOver, Start ends in Playing with the flag still set, raising GameResumed, GamePaused, GameResumed, and the game does not count as playing |
| `GameFlow.StaleFlagFreezesClock` | Assets/Scripts/Managers/GameManager.cs:39-44 | in Playing with the flag set, a frame without Escape changes nothing, time included |
| `GameFlow.EscapeTwiceClearsStaleFlag` | Assets/Scripts/Managers/GameManager.cs:74-88 | from that stale state two Escape frames pause and resume, which clears the flag without moving the clock |
| `GameFlow.EscapeToggles` | Assets/Scripts/Managers/GameManager.cs:74-88 | from Playing, Escape raises GamePaused; a second Escape returns to Playing, unpaused, with one GameResumed |
| `GameFlow.RestartIsStartWithoutSignal` | Assets/Scripts/Managers/GameManager.cs:122-165 | RestartGame leaves the same state as StartGame and differs only by the missing GameResumed |
| `GameManagers.GameManager.constructor` | Assets/Scripts/Managers/GameManager.cs:18-25 | the public fields start from their Inspector values, previous at Menu |
| `GameManagers.GameManager.OnGameStateChanged` | Assets/Scripts/Managers/GameManager.cs:105-120 | every case is empty: it changes nothing and raises nothing |
| `GameManagers.GameManager.ChangeGameState` | Assets/Scripts/Managers/GameManager.cs:93-120 | fields end as the guarded transition says; the bus is outside its frame, so no event is raised |
| `GameManagers.GameManager.ResetGameStats` | Assets/Scripts/Managers/GameManager.cs:175-180 | only `gameTime` may change, and it becomes zero |
| `GameManagers.GameManager.StartGame` | Assets/Scripts/Managers/GameManager.cs:122-127 | fields and bus end as StartGame specifies |
| `GameManagers.GameManager.PauseGame` | Assets/Scripts/Managers/GameManager.cs:129-138 | fields and bus end as PauseGame specifies |
| `GameManagers.GameManager.ResumeGame` | Assets/Scripts/Managers/GameManager.cs:140-149 | fields and bus end as ResumeGame specifies |
| `GameManagers.GameManager.GameOver` | Assets/Scripts/Managers/GameManager.cs:151-159 | fields end as GameOver specifies; the bus is untouched |
| `GameManagers.GameManager.RestartGame` | Assets/Scripts/Managers/GameManager.cs:161-165 | fields end as RestartGame specifies; the bus is untouched |
| `GameManagers.GameManager.GoToMainMenu` | Assets/Scripts/Managers/GameManager.cs:167-171 | fields end as GoToMainMenu specifies; the bus is untouched |
| `GameManagers.GameManager.IsGamePlaying` | Assets/Scripts/Managers/GameManager.cs:186-189 | true exactly when the state is Playing and the flag is clear |
| `GameManagers.GameManager.HandleInput` | Assets/Scripts/Managers/GameManager.cs:74-88 | fields and bus end as the Escape handling specifies |
| `GameManagers.GameManager.Update` | Assets/Scripts/Managers/GameManager.cs:39-47 | fields and bus end as one frame specifies |
| `GameManagers.GameManager.OnApplicationPause` | Assets/Scripts/Managers/GameManager.cs:205-211 | fields and bus end as the host-pause trigger specifies |
| `GameManagers.GameManager.OnApplicationFocus` | Assets/Scripts/Managers/GameManager.cs:214-220 | fields and bus end as the focus trigger specifies |
| `EventGate.StartEvent` | Assets/Scripts/EventSystem/EventSystem.cs:11-19 | the flag is set afterwards; while active nothing changes; from Playing the game pauses with one GamePaused; elsewhere only the flag changes |
| `EventGate.EndEvent` | Assets/Scripts/EventSystem/EventSystem.cs:22-30 | the flag is clear afterwards; while inactive nothing changes; from Paused the game resumes with one GameResumed; elsewhere only the flag changes |
| `EventGate.CutSceneCoroutine` | Assets/Scripts/EventSystem/EventSystem.cs:38-46 | start then end: from Playing one pause and one resume back to Playing; a Paused game is resumed; an event already playing is ended; in other states nothing changes |
| `EventGate.NestedStartsPauseOnce` | Assets/Scripts/EventSystem/EventSystem.cs:11-30 | Start, Start, End from Playing with the gate closed ends closed and Playing, with exactly one GamePaused and one GameResumed; a further End is a no-op |
| `EventGate.GateKeepsConsistent` | Assets/Scripts/EventSystem/EventSystem.cs:16-27 | starting or ending an event keeps the manager's reachable-state invariant |
| `EventSystems.EventSystem.constructor` | Assets/Scripts/EventSystem/EventSystem.cs:8 | the gate flag starts from its Inspector value |
| `EventSystems.EventSystem.StartEvent` | Assets/Scripts/EventSystem/EventSystem.cs:11-19 | flag, manager fields and bus end as StartEvent specifies |
| `EventSystems.EventSystem.EndEvent` | Assets/Scripts/EventSystem/EventSystem.cs:22-30 | flag, manager fields and bus end as EndEvent specifies |
| `EventSystems.EventSystem.CutSceneCoroutine` | Assets/Scripts/EventSystem/EventSystem.cs:38-46 | flag, manager fields and bus end as the start-then-end composition specifies |
| `Scenes.BuildMap` | Assets/Scripts/Managers/SceneConfig.cs:35-46 | the rebuilt dictionary never has the empty name as a key, and every key is the name of some pair |
| `Scenes.BuildMapLastWins` | Assets/Scripts/Managers/SceneConfig.cs:39-45 | a named pair with no later pair of the same name is present with its state: the last pair wins |
| `Scenes.Resolve` | Assets/Scripts/Managers/SceneConfig.cs:51 | a scene that is a key resolves to its stored state; any other scene resolves to the default |
| `Scenes.ResolveAfterSetup` | Assets/Scripts/Managers/SceneConfig.cs:35-51 | after setup, a scene resolves to its last pair's state, and to the default when unnamed or not listed |
| `Scenes.SetThenResolve` | Assets/Scripts/Managers/SceneConfig.cs:51-65 | after SetSceneState(n, s), n resolves to s and every other name resolves as before |
| `Scenes.SceneChangeLeavesPauseFlag` | Assets/Scripts/Managers/SceneConfig.cs:49-56 | with {"Menu": Menu, "Game": Playing} and default Menu, entering "Game" from Paused gives Playing with the flag still set; an unknown scene gives Menu |
| `Scenes.SceneConfig.constructor` | Assets/Scripts/Managers/SceneConfig.cs:15-21 | the inspector fields are taken as given, the component shares the manager's single static bus, and the dictionary starts empty |
| `Scenes.SceneConfig.Awake` | Assets/Scripts/Managers/SceneConfig.cs:23-27 | only subscribes the handler to the scene-changed channel; the dictionary is not built |
| `Scenes.SceneConfig.OnDestroy` | Assets/Scripts/Managers/SceneConfig.cs:29-32 | unsubscribes the same handler |
| `Scenes.SceneConfig.SetupSceneStates` | Assets/Scripts/Managers/SceneConfig.cs:35-46 | the dictionary becomes the list inserted in order into an empty map, whatever it held before |
| `Scenes.SceneConfig.OnSceneChanged` | Assets/Scripts/Managers/SceneConfig.cs:49-59 | a null name throws and changes nothing; otherwise the manager makes the guarded transition to the resolved state |
| `Scenes.SceneConfig.SetSceneState` | Assets/Scripts/Managers/SceneConfig.cs:62-65 | a null name throws and changes nothing; otherwise exactly that key is written and all others are kept |
| `Actors.CanAct` | Assets/Scripts/Actors/Base/Actor.cs:29-36 | false when `canUpdate` is off; true with no manager; otherwise exactly when the state is Playing, whatever the pause flag |
| `Actors.Update` | Assets/Scripts/Actors/Base/Actor.cs:11-17 | calls ActorUpdate exactly when the actor can act, and nothing else |
| `Actors.FixedUpdate` | Assets/Scripts/Actors/Base/Actor.cs:20-26 | calls ActorFixedUpdate exactly when the actor can act, and nothing else |
| `Actors.PlayingLetsActorsAct` | Assets/Scripts/Actors/Base/Actor.cs:29-36 | whenever the game counts as playing, every updatable actor acts |
| `Actors.ActorsActWhileClockIsFrozen` | Assets/Scripts/Actors/Base/Actor.cs:29-36 | after Start, Pause, GameOver, Start, actors act although the game is not playing and time does not advance |
| `Singletons.Singleton.constructor` | Assets/Scripts/Utility/SingletonMonoBehaviour.cs:8 | nothing is registered at start |
| `Singletons.Singleton.Awake` | Assets/Scripts/Utility/SingletonMonoBehaviour.cs:26-37 | with no registration the component registers itself and survives scene loads; a different component destroys itself and the registration is unchanged |
| `Singletons.Singleton.Instance` | Assets/Scripts/Utility/SingletonMonoBehaviour.cs:9-24 | a registration is returned unchanged; otherwise a live component is registered; failing that, a fresh one is created, registered and kept alive |
| `Singletons.Singleton.LookupIsStable` | Assets/Scripts/Utility/SingletonMonoBehaviour.cs:13-22 | two lookups in a row return the same object, the registered one if there was one |

## Left out

- SettingsManager.cs is not part of this model. Its work is:
  - PlayerPrefs and JSON persistence;
  - float volume clamping and decibel conversion;
  - calls into Unity's Screen, QualitySettings, AudioMixer and AudioListener.
- Enemy.cs (vector movement) and MainMenuUI.cs (button wiring into a SceneManager class) are not part of this model.
- `InitializeGame`, `InitializeManagers`, `QuitGame` and `Debug.Log` are not modelled. They are platform settings, a coroutine that waits a frame, reads `SceneManager.Instance` (a lazy getter that is not part of this model and may create the object) and logs, application exit and logging.
- GameManager `gameTime` is a `real`. Float rounding is not modelled, and the frame time `Time.deltaTime` is a parameter. The same goes for the Escape key state, `Input.GetKeyDown`.
- `PlayCutScene` and the real-time wait in `CutSceneCoroutine` are not modelled. The coroutine is modelled as StartEvent immediately followed by EndEvent. Frames that run during the wait, and a component destroyed mid-wait, are not modelled.
- The bus records each delivery but does not run the subscribed handlers. `SceneConfig.OnSceneChanged` is modelled as a direct call.
- A handler that throws inside `Invoke` stops the remaining handlers. This is not modelled.
- `GameManager.Instance` is never null, because the lazy getter creates a manager. Components therefore hold a fixed manager reference, and the `?.` and `!= null` guards always pass. `Actors.CanAct` keeps the no-manager branch as an explicit input.
- The `base.Awake()` calls of the managers are not composed with their own Awake. The register-or-destroy rule is modelled once, in `Singletons.Singleton.Awake`.
- `GameFlow.ReachableStatesAreConsistent` starts from the field initialisers (Menu, not paused, zero time). A manager whose Inspector values differ starts elsewhere; from any start that is already consistent, `GameFlow.RunKeepsConsistent` still applies. Writes by other scripts to the public fields `currentGameState`, `isGamePaused` and `gameTime`, and to EventSystem's `isEventPlaying`, are not modelled.
- `Singletons.Singleton.Instance`: FindObjectOfType's choice is arbitrary here: any live component may be returned.
- Singletons: `Destroy` takes effect at once, not at the end of the frame. Unity's "destroyed objects compare equal to null" is not modelled.
