/**
 * The GameManager's state machine as values: what each public operation of
 * GameManager.cs does to `currentGameState`, `previousGameState`,
 * `isGamePaused` and `gameTime`, and which events it raises.
 *
 * `gameTime` is a float in the source; here it is a `real`, and the frame
 * time is a parameter.
 */
module GameFlow {
  import opened GameStates
  import opened Events

  datatype Machine = Machine(current: GameState, previous: GameState, isGamePaused: bool, gameTime: real)

  /** The machine after an operation, and the events it raised in order. */
  datatype Step = Step(next: Machine, raised: seq<Event>)

  /** Field initialisers: Menu, not paused, no time; `previousGameState` is the enum default, Menu. */
  const Initial: Machine := Machine(Menu, Menu, false, 0.0)

  /** Playing and not paused. */
  predicate IsGamePlaying(m: Machine)
  {
    m.current == Playing && !m.isGamePaused
  }

  /**
   * The guarded transition.  Moving to the current state changes nothing;
   * any other move remembers the old state.  No event is raised in either
   * case, since every branch of `OnGameStateChanged` is empty.
   */
  function ChangeGameState(m: Machine, newState: GameState): (r: Step)
    ensures r.raised == []
    ensures r.next.current == newState
    ensures r.next.isGamePaused == m.isGamePaused && r.next.gameTime == m.gameTime
    ensures m.current == newState ==> r.next == m
    ensures m.current != newState ==> r.next.previous == m.current
  {
    if m.current == newState then Step(m, [])
    else Step(m.(previous := m.current, current := newState), [])
  }

  /** Zeroes the session statistics (only `gameTime` exists) and nothing else. */
  function ResetGameStats(m: Machine): (r: Machine)
    ensures r.gameTime == 0.0
    ensures r.(gameTime := m.gameTime) == m
  {
    m.(gameTime := 0.0)
  }

  /** Unguarded: from any state, Playing with zero time, and always one GameResumed. */
  function StartGame(m: Machine): (r: Step)
    ensures r.next.current == Playing && r.next.gameTime == 0.0
    ensures r.next.isGamePaused == m.isGamePaused
    ensures r.next.previous == if m.current == Playing then m.previous else m.current
    ensures r.raised == [GameResumed]
  {
    var changed := ChangeGameState(ResetGameStats(m), Playing);
    Step(changed.next, changed.raised + [GameResumed])
  }

  /** A no-op unless Playing; from Playing sets the flag, moves to Paused and raises GamePaused once. */
  function PauseGame(m: Machine): (r: Step)
    ensures m.current != Playing ==> r == Step(m, [])
    ensures m.current == Playing ==>
              r.next == Machine(Paused, Playing, true, m.gameTime) && r.raised == [GamePaused]
  {
    if m.current != Playing then Step(m, [])
    else
      var changed := ChangeGameState(m.(isGamePaused := true), Paused);
      Step(changed.next, changed.raised + [GamePaused])
  }

  /** A no-op unless Paused; from Paused clears the flag, moves to Playing and raises GameResumed once. */
  function ResumeGame(m: Machine): (r: Step)
    ensures m.current != Paused ==> r == Step(m, [])
    ensures m.current == Paused ==>
              r.next == Machine(Playing, Paused, false, m.gameTime) && r.raised == [GameResumed]
  {
    if m.current != Paused then Step(m, [])
    else
      var changed := ChangeGameState(m.(isGamePaused := false), Playing);
      Step(changed.next, changed.raised + [GameResumed])
  }

  /** Unconditional move to GameOver; the pause flag and time are left as they are. */
  function GameOver(m: Machine): (r: Step)
    ensures r.next.current == GameState.GameOver && r.raised == []
    ensures r.next.isGamePaused == m.isGamePaused && r.next.gameTime == m.gameTime
    ensures m.current == GameState.GameOver ==> r.next == m
    ensures m.current != GameState.GameOver ==> r.next.previous == m.current
  {
    ChangeGameState(m, GameState.GameOver)
  }

  /** StartGame without the GameResumed signal. */
  function RestartGame(m: Machine): (r: Step)
    ensures r.next.current == Playing && r.next.gameTime == 0.0
    ensures r.next.isGamePaused == m.isGamePaused
    ensures r.raised == []
  {
    ChangeGameState(ResetGameStats(m), Playing)
  }

  /** Unconditional move to Menu; the pause flag and time are left as they are. */
  function GoToMainMenu(m: Machine): (r: Step)
    ensures r.next.current == Menu && r.raised == []
    ensures r.next.isGamePaused == m.isGamePaused && r.next.gameTime == m.gameTime
    ensures m.current == Menu ==> r.next == m
    ensures m.current != Menu ==> r.next.previous == m.current
  {
    ChangeGameState(m, Menu)
  }

  /** The Escape key: pauses from Playing, resumes from Paused, ignored otherwise. */
  function HandleInput(m: Machine, escapeDown: bool): (r: Step)
    ensures !escapeDown || (m.current != Playing && m.current != Paused) ==> r == Step(m, [])
    ensures escapeDown && m.current == Playing ==> r == PauseGame(m)
    ensures escapeDown && m.current == Paused ==> r == ResumeGame(m)
  {
    if !escapeDown then Step(m, [])
    else if m.current == Playing then PauseGame(m)
    else if m.current == Paused then ResumeGame(m)
    else Step(m, [])
  }

  /** The host paused the application: pause, but only from Playing. */
  function OnApplicationPause(m: Machine, pauseStatus: bool): (r: Step)
    ensures pauseStatus && m.current == Playing ==>
              r.next == Machine(Paused, Playing, true, m.gameTime) && r.raised == [GamePaused]
    ensures !pauseStatus || m.current != Playing ==> r == Step(m, [])
  {
    if pauseStatus && m.current == Playing then PauseGame(m) else Step(m, [])
  }

  /** The application lost focus: pause, but only from Playing. */
  function OnApplicationFocus(m: Machine, hasFocus: bool): (r: Step)
    ensures !hasFocus && m.current == Playing ==>
              r.next == Machine(Paused, Playing, true, m.gameTime) && r.raised == [GamePaused]
    ensures hasFocus || m.current != Playing ==> r == Step(m, [])
  {
    if !hasFocus && m.current == Playing then PauseGame(m) else Step(m, [])
  }

  /** One frame: the clock runs only while the game is playing, then Escape is handled. */
  function Update(m: Machine, deltaTime: real, escapeDown: bool): (r: Step)
    ensures r.next.gameTime == if IsGamePlaying(m) then m.gameTime + deltaTime else m.gameTime
    ensures !escapeDown ==> r.raised == [] && r.next.(gameTime := m.gameTime) == m
    ensures escapeDown ==> r.next.(gameTime := m.gameTime) == HandleInput(m, true).next
                           && r.raised == HandleInput(m, true).raised
  {
    var ticked := if IsGamePlaying(m) then m.(gameTime := m.gameTime + deltaTime) else m;
    HandleInput(ticked, escapeDown)
  }

  /** The public operations (and the host triggers) other than ChangeGameState itself. */
  datatype Command =
    | Start
    | Pause
    | Resume
    | Over
    | Restart
    | ToMenu
    | Frame(deltaTime: real, escapeDown: bool)
    | AppPause(pauseStatus: bool)
    | AppFocus(hasFocus: bool)

  function Apply(m: Machine, c: Command): Step
  {
    match c
    case Start => StartGame(m)
    case Pause => PauseGame(m)
    case Resume => ResumeGame(m)
    case Over => GameOver(m)
    case Restart => RestartGame(m)
    case ToMenu => GoToMainMenu(m)
    case Frame(dt, esc) => Update(m, dt, esc)
    case AppPause(p) => OnApplicationPause(m, p)
    case AppFocus(f) => OnApplicationFocus(m, f)
  }

  /** A sequence of commands, with all raised events in order. */
  function Run(m: Machine, cs: seq<Command>): Step
    decreases |cs|
  {
    if cs == [] then Step(m, [])
    else
      var first := Apply(m, cs[0]);
      var rest := Run(first.next, cs[1..]);
      Step(rest.next, first.raised + rest.raised)
  }

  /**
   * What the commands maintain: Loading is never current or previous, and
   * Paused is only ever entered through PauseGame, so it comes with the flag
   * set and Playing remembered.
   */
  ghost predicate Consistent(m: Machine)
  {
    && m.current != Loading
    && m.previous != Loading
    && (m.current == Paused ==> m.isGamePaused && m.previous == Playing)
  }

  lemma ApplyKeepsConsistent(m: Machine, c: Command)
    requires Consistent(m)
    ensures Consistent(Apply(m, c).next)
  {
  }

  lemma {:induction false} RunKeepsConsistent(m: Machine, cs: seq<Command>)
    requires Consistent(m)
    ensures Consistent(Run(m, cs).next)
    decreases |cs|
  {
    if cs != [] {
      ApplyKeepsConsistent(m, cs[0]);
      RunKeepsConsistent(Apply(m, cs[0]).next, cs[1..]);
    }
  }

  /** No command sequence from start-up reaches Loading; only a direct ChangeGameState can. */
  lemma ReachableStatesAreConsistent(cs: seq<Command>)
    ensures Consistent(Run(Initial, cs).next)
    ensures Run(Initial, cs).next.current != Loading
  {
    RunKeepsConsistent(Initial, cs);
  }

  /**
   * `isGamePaused` only changes together with a Playing-to-Paused or
   * Paused-to-Playing move, i.e. inside PauseGame or ResumeGame.
   */
  lemma PauseFlagMovesOnlyWithPauseOrResume(m: Machine, c: Command)
    ensures var r := Apply(m, c).next;
            r.isGamePaused != m.isGamePaused ==>
              (m.current == Playing && r.current == Paused && r.isGamePaused) ||
              (m.current == Paused && r.current == Playing && !r.isGamePaused)
  {
  }

  /**
   * The flag can go stale: pausing, losing, and starting again ends in
   * Playing with the flag still set, so the game does not count as playing.
   */
  lemma PauseFlagOutlivesGameOver()
    ensures Run(Initial, [Start, Pause, Over, Start])
            == Step(Machine(Playing, GameState.GameOver, true, 0.0), [GameResumed, GamePaused, GameResumed])
    ensures !IsGamePlaying(Run(Initial, [Start, Pause, Over, Start]).next)
  {
  }

  /** In that stale state the clock is frozen, whatever the frame time. */
  lemma StaleFlagFreezesClock(m: Machine, deltaTime: real)
    requires m.current == Playing && m.isGamePaused
    ensures Update(m, deltaTime, false) == Step(m, [])
  {
  }

  /** Pressing Escape twice from a stale Playing state pauses and resumes, which clears the flag. */
  lemma {:induction false} EscapeTwiceClearsStaleFlag(m: Machine, dt1: real, dt2: real)
    requires m.current == Playing && m.isGamePaused
    ensures Run(m, [Frame(dt1, true), Frame(dt2, true)])
            == Step(m.(previous := Paused, isGamePaused := false), [GamePaused, GameResumed])
  {
    var paused := Machine(Paused, Playing, true, m.gameTime);
    assert Update(m, dt1, true) == Step(paused, [GamePaused]);
    assert Run(paused, [Frame(dt2, true)]) == Step(m.(previous := Paused, isGamePaused := false), [GameResumed]);
  }

  /** Escape toggles: from Playing, two presses come back to Playing, unpaused, with one event each way. */
  lemma EscapeToggles(m: Machine)
    requires m.current == Playing
    ensures HandleInput(m, true).raised == [GamePaused]
    ensures HandleInput(HandleInput(m, true).next, true)
            == Step(m.(previous := Paused, isGamePaused := false), [GameResumed])
  {
  }

  /** RestartGame is StartGame minus the GameResumed signal. */
  lemma RestartIsStartWithoutSignal(m: Machine)
    ensures StartGame(m) == Step(RestartGame(m).next, RestartGame(m).raised + [GameResumed])
  {
  }
}
