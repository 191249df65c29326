/**
 * The modal event gate of EventSystem.cs as values: the `isEventPlaying`
 * flag next to the GameManager's machine.  Starting an event calls
 * PauseGame and ending one calls ResumeGame, so the gate inherits their
 * guards: the flag and the game state are not tied together.
 */
module EventGate {
  import opened GameStates
  import opened Events
  import GameFlow

  datatype Gate = Gate(isEventPlaying: bool, machine: GameFlow.Machine)
  datatype GateStep = GateStep(next: Gate, raised: seq<Event>)

  /** Idempotent start: the flag is set afterwards, and the game is paused only if it was Playing. */
  function StartEvent(g: Gate): (r: GateStep)
    ensures r.next.isEventPlaying
    ensures g.isEventPlaying ==> r == GateStep(g, [])
    ensures !g.isEventPlaying && g.machine.current != Playing ==>
              r == GateStep(g.(isEventPlaying := true), [])
    ensures !g.isEventPlaying && g.machine.current == Playing ==>
              r.next.machine == GameFlow.Machine(Paused, Playing, true, g.machine.gameTime)
              && r.raised == [GamePaused]
  {
    if g.isEventPlaying then GateStep(g, [])
    else
      var paused := GameFlow.PauseGame(g.machine);
      GateStep(Gate(true, paused.next), paused.raised)
  }

  /** Idempotent end: the flag is clear afterwards, and the game resumes only if it was Paused. */
  function EndEvent(g: Gate): (r: GateStep)
    ensures !r.next.isEventPlaying
    ensures !g.isEventPlaying ==> r == GateStep(g, [])
    ensures g.isEventPlaying && g.machine.current != Paused ==>
              r == GateStep(g.(isEventPlaying := false), [])
    ensures g.isEventPlaying && g.machine.current == Paused ==>
              r.next.machine == GameFlow.Machine(Playing, Paused, false, g.machine.gameTime)
              && r.raised == [GameResumed]
  {
    if !g.isEventPlaying then GateStep(g, [])
    else
      var resumed := GameFlow.ResumeGame(g.machine);
      GateStep(Gate(false, resumed.next), resumed.raised)
  }

  /**
   * The cut-scene coroutine, without its wait: StartEvent, then EndEvent.
   * From Playing it pauses and resumes once; from a Paused game it resumes
   * it; while another event is playing it ends that event.
   */
  function CutSceneCoroutine(g: Gate): (r: GateStep)
    ensures !r.next.isEventPlaying
    ensures !g.isEventPlaying && g.machine.current == Playing ==>
              r == GateStep(g.(machine := g.machine.(previous := Paused, isGamePaused := false)),
                            [GamePaused, GameResumed])
    ensures !g.isEventPlaying && g.machine.current == Paused ==>
              r.next.machine == GameFlow.Machine(Playing, Paused, false, g.machine.gameTime)
              && r.raised == [GameResumed]
    ensures !g.isEventPlaying && g.machine.current != Playing && g.machine.current != Paused ==>
              r == GateStep(g, [])
    ensures g.isEventPlaying ==> r == EndEvent(g)
  {
    var started := StartEvent(g);
    var ended := EndEvent(started.next);
    GateStep(ended.next, started.raised + ended.raised)
  }

  /**
   * Nested starts do not pause twice: Start; Start; End from Playing with the
   * gate closed ends closed, back in Playing, with one GamePaused and one
   * GameResumed; a further End changes nothing.
   */
  lemma NestedStartsPauseOnce(g: Gate)
    requires !g.isEventPlaying && g.machine.current == Playing
    ensures var s1 := StartEvent(g);
            var s2 := StartEvent(s1.next);
            var s3 := EndEvent(s2.next);
            && s3.next == Gate(false, g.machine.(previous := Paused, isGamePaused := false))
            && s1.raised + s2.raised + s3.raised == [GamePaused, GameResumed]
            && EndEvent(s3.next) == GateStep(s3.next, [])
  {
  }

  /** The gate never leaves the machine in a state the GameManager's own commands could not reach. */
  lemma GateKeepsConsistent(g: Gate)
    requires GameFlow.Consistent(g.machine)
    ensures GameFlow.Consistent(StartEvent(g).next.machine)
    ensures GameFlow.Consistent(EndEvent(g).next.machine)
  {
  }
}
