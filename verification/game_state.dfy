/** The phase of a play session, the `GameState` enum of GameManager.cs. */
module GameStates {
  datatype GameState = Menu | Playing | Paused | GameOver | Loading
}
