/**
 * The GameManager component: the four fields its methods update in place,
 * and a reference to the event bus its raise calls go to.  Every method is
 * proved to have exactly the effect of the GameFlow function of the same
 * name, on the fields and on the bus.
 *
 * `Input.GetKeyDown(KeyCode.Escape)` and `Time.deltaTime` are parameters.
 */
module GameManagers {
  import opened GameStates
  import opened Events
  import GameFlow

  class GameManager {
    var currentGameState: GameState
    var isGamePaused: bool
    var gameTime: real
    var previousGameState: GameState
    const events: GameEvents

    /**
     * The three public fields start from their Inspector values (the field
     * initialisers are Menu, false and 0); the private `previousGameState`
     * starts at the enum default, Menu.
     */
    constructor (events: GameEvents, currentGameState: GameState, isGamePaused: bool, gameTime: real)
      ensures Snapshot() == GameFlow.Machine(currentGameState, Menu, isGamePaused, gameTime)
      ensures this.events == events
    {
      this.currentGameState := currentGameState;
      this.isGamePaused := isGamePaused;
      this.gameTime := gameTime;
      previousGameState := Menu;
      this.events := events;
    }

    function Snapshot(): GameFlow.Machine
      reads this
    {
      GameFlow.Machine(currentGameState, previousGameState, isGamePaused, gameTime)
    }

    /** Changes only the two state fields and raises nothing: the bus is not in its frame. */
    method ChangeGameState(newState: GameState)
      modifies this
      ensures Snapshot() == GameFlow.ChangeGameState(old(Snapshot()), newState).next
    {
      if currentGameState == newState {
        return;
      }
      previousGameState := currentGameState;
      currentGameState := newState;
      OnGameStateChanged(newState);
    }

    /** Every case of the switch is empty: it changes nothing and raises nothing. */
    method OnGameStateChanged(newState: GameState)
      ensures Snapshot() == old(Snapshot())
    {
      match newState
      case Menu =>
      case Playing =>
      case Paused =>
      case GameOver =>
      case Loading =>
    }

    method ResetGameStats()
      modifies this`gameTime
      ensures Snapshot() == GameFlow.ResetGameStats(old(Snapshot()))
    {
      gameTime := 0.0;
    }

    method StartGame()
      modifies this, events
      ensures Snapshot() == GameFlow.StartGame(old(Snapshot())).next
      ensures events.Snapshot() == PublishAll(old(events.Snapshot()), GameFlow.StartGame(old(Snapshot())).raised)
    {
      ResetGameStats();
      ChangeGameState(Playing);
      events.Raise(GameResumed);
    }

    method PauseGame()
      modifies this, events
      ensures Snapshot() == GameFlow.PauseGame(old(Snapshot())).next
      ensures events.Snapshot() == PublishAll(old(events.Snapshot()), GameFlow.PauseGame(old(Snapshot())).raised)
    {
      if currentGameState != Playing {
        return;
      }
      isGamePaused := true;
      ChangeGameState(Paused);
      events.Raise(GamePaused);
    }

    method ResumeGame()
      modifies this, events
      ensures Snapshot() == GameFlow.ResumeGame(old(Snapshot())).next
      ensures events.Snapshot() == PublishAll(old(events.Snapshot()), GameFlow.ResumeGame(old(Snapshot())).raised)
    {
      if currentGameState != Paused {
        return;
      }
      isGamePaused := false;
      ChangeGameState(Playing);
      events.Raise(GameResumed);
    }

    method GameOver()
      modifies this
      ensures Snapshot() == GameFlow.GameOver(old(Snapshot())).next
    {
      ChangeGameState(GameState.GameOver);
    }

    method RestartGame()
      modifies this
      ensures Snapshot() == GameFlow.RestartGame(old(Snapshot())).next
    {
      ResetGameStats();
      ChangeGameState(Playing);
    }

    method GoToMainMenu()
      modifies this
      ensures Snapshot() == GameFlow.GoToMainMenu(old(Snapshot())).next
    {
      ChangeGameState(Menu);
    }

    method IsGamePlaying() returns (playing: bool)
      ensures playing <==> GameFlow.IsGamePlaying(Snapshot())
    {
      playing := currentGameState == Playing && !isGamePaused;
    }

    method HandleInput(escapeDown: bool)
      modifies this, events
      ensures Snapshot() == GameFlow.HandleInput(old(Snapshot()), escapeDown).next
      ensures events.Snapshot() == PublishAll(old(events.Snapshot()), GameFlow.HandleInput(old(Snapshot()), escapeDown).raised)
    {
      if escapeDown {
        if currentGameState == Playing {
          PauseGame();
        } else if currentGameState == Paused {
          ResumeGame();
        }
      }
    }

    method Update(deltaTime: real, escapeDown: bool)
      modifies this, events
      ensures Snapshot() == GameFlow.Update(old(Snapshot()), deltaTime, escapeDown).next
      ensures events.Snapshot() == PublishAll(old(events.Snapshot()), GameFlow.Update(old(Snapshot()), deltaTime, escapeDown).raised)
    {
      if currentGameState == Playing && !isGamePaused {
        gameTime := gameTime + deltaTime;
      }
      HandleInput(escapeDown);
    }

    method OnApplicationPause(pauseStatus: bool)
      modifies this, events
      ensures Snapshot() == GameFlow.OnApplicationPause(old(Snapshot()), pauseStatus).next
      ensures events.Snapshot() == PublishAll(old(events.Snapshot()), GameFlow.OnApplicationPause(old(Snapshot()), pauseStatus).raised)
    {
      if pauseStatus && currentGameState == Playing {
        PauseGame();
      }
    }

    method OnApplicationFocus(hasFocus: bool)
      modifies this, events
      ensures Snapshot() == GameFlow.OnApplicationFocus(old(Snapshot()), hasFocus).next
      ensures events.Snapshot() == PublishAll(old(events.Snapshot()), GameFlow.OnApplicationFocus(old(Snapshot()), hasFocus).raised)
    {
      if !hasFocus && currentGameState == Playing {
        PauseGame();
      }
    }
  }
}
