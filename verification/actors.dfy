/**
 * Actor.cs: whether an actor may run its per-frame hooks.  The manager is
 * optional: `None` is the `GameManager.Instance == null` branch.
 */
module Actors {
  import opened Optional
  import opened GameStates
  import GameFlow

  datatype Actor = Actor(canUpdate: bool)

  /** The overridable per-frame hooks. */
  datatype Hook = ActorUpdate | ActorFixedUpdate

  /** Reads only `canUpdate` and the manager's current state, never its pause flag. */
  function CanAct(actor: Actor, manager: Option<GameFlow.Machine>): (r: bool)
    ensures !actor.canUpdate ==> !r
    ensures actor.canUpdate && manager.None? ==> r
    ensures actor.canUpdate && manager.Some? ==> (r <==> manager.value.current == Playing)
  {
    if !actor.canUpdate then false
    else if manager.None? then true
    else manager.value.current == Playing
  }

  /** The hooks `Update` calls: ActorUpdate exactly when the actor can act. */
  function Update(actor: Actor, manager: Option<GameFlow.Machine>): (hooks: seq<Hook>)
    ensures hooks == [ActorUpdate] <==> CanAct(actor, manager)
    ensures ActorFixedUpdate !in hooks && |hooks| <= 1
  {
    if CanAct(actor, manager) then [ActorUpdate] else []
  }

  /** The hooks `FixedUpdate` calls: ActorFixedUpdate exactly when the actor can act. */
  function FixedUpdate(actor: Actor, manager: Option<GameFlow.Machine>): (hooks: seq<Hook>)
    ensures hooks == [ActorFixedUpdate] <==> CanAct(actor, manager)
    ensures ActorUpdate !in hooks && |hooks| <= 1
  {
    if CanAct(actor, manager) then [ActorFixedUpdate] else []
  }

  /** Whenever the game counts as playing, every updatable actor acts. */
  lemma PlayingLetsActorsAct(actor: Actor, m: GameFlow.Machine)
    requires actor.canUpdate && GameFlow.IsGamePlaying(m)
    ensures CanAct(actor, Some(m))
  {
  }

  /**
   * The converse fails: after Start, Pause, GameOver, Start the game is
   * Playing with the pause flag set, so actors act while the clock stands
   * still.
   */
  lemma ActorsActWhileClockIsFrozen(actor: Actor, deltaTime: real)
    requires actor.canUpdate
    ensures var m := GameFlow.Run(GameFlow.Initial,
                                  [GameFlow.Start, GameFlow.Pause, GameFlow.Over, GameFlow.Start]).next;
            && CanAct(actor, Some(m))
            && Update(actor, Some(m)) == [ActorUpdate]
            && !GameFlow.IsGamePlaying(m)
            && GameFlow.Update(m, deltaTime, false).next.gameTime == m.gameTime
  {
  }
}
