/**
 * SceneConfig.cs: the scene-name-to-state policy.  The inspector list of
 * pairs, the dictionary built from it, the lookup with a default, and the
 * subscription of the scene-changed handler.
 *
 * C# strings may be null; `Option<string>` models that.  A null key makes
 * the dictionary throw ArgumentNullException before anything changes.
 */
module Scenes {
  import opened Optional
  import opened GameStates
  import opened Events
  import GameFlow
  import GameManagers

  datatype SceneStatePair = SceneStatePair(sceneName: Option<string>, gameState: GameState)

  /** `!string.IsNullOrEmpty(config.sceneName)`. */
  predicate HasName(p: SceneStatePair)
  {
    p.sceneName.Some? && p.sceneName.value != ""
  }

  /** One iteration of the loop in SetupSceneStates. */
  function Insert(sceneStates: map<string, GameState>, p: SceneStatePair): map<string, GameState>
  {
    if HasName(p) then sceneStates[p.sceneName.value := p.gameState] else sceneStates
  }

  /**
   * The dictionary SetupSceneStates leaves: the pairs inserted in list order
   * into an empty map.  Only named pairs become keys.
   */
  function BuildMap(pairs: seq<SceneStatePair>): (r: map<string, GameState>)
    ensures "" !in r
    ensures forall n :: n in r ==> exists i :: 0 <= i < |pairs| && pairs[i].sceneName == Some(n)
    decreases |pairs|
  {
    if pairs == [] then map[]
    else
      var init := BuildMap(pairs[..|pairs| - 1]);
      assert forall n :: n in init ==> exists i :: 0 <= i < |pairs| && pairs[i].sceneName == Some(n) by {
        forall n | n in init
          ensures exists i :: 0 <= i < |pairs| && pairs[i].sceneName == Some(n)
        {
          var i :| 0 <= i < |pairs| - 1 && pairs[..|pairs| - 1][i].sceneName == Some(n);
          assert pairs[i].sceneName == Some(n);
        }
      }
      Insert(init, pairs[|pairs| - 1])
  }

  /** Last write wins: a named pair with no later pair of the same name decides its key. */
  lemma {:induction false} BuildMapLastWins(pairs: seq<SceneStatePair>, i: nat)
    requires i < |pairs| && HasName(pairs[i])
    requires forall j :: i < j < |pairs| ==> pairs[j].sceneName != pairs[i].sceneName
    ensures pairs[i].sceneName.value in BuildMap(pairs)
    ensures BuildMap(pairs)[pairs[i].sceneName.value] == pairs[i].gameState
    decreases |pairs|
  {
    var n := |pairs| - 1;
    if i < n {
      var init := pairs[..n];
      assert init[i] == pairs[i];
      BuildMapLastWins(init, i);
      assert pairs[n].sceneName != pairs[i].sceneName;
    }
  }

  /** The target state of OnSceneChanged: the configured state, or the default for an unknown scene. */
  function Resolve(sceneStates: map<string, GameState>, defaultState: GameState, sceneName: string): (r: GameState)
    ensures sceneName in sceneStates ==> r == sceneStates[sceneName]
    ensures sceneName !in sceneStates ==> r == defaultState
  {
    if sceneName in sceneStates then sceneStates[sceneName] else defaultState
  }

  /**
   * What a scene resolves to once the map is built from the pairs: the state
   * of the last pair with that name, or the default when no pair names it
   * (an empty name is never a key, so it always falls back).
   */
  lemma ResolveAfterSetup(pairs: seq<SceneStatePair>, defaultState: GameState, sceneName: string)
    ensures (sceneName == "" || forall i :: 0 <= i < |pairs| ==> pairs[i].sceneName != Some(sceneName))
            ==> Resolve(BuildMap(pairs), defaultState, sceneName) == defaultState
    ensures forall i :: 0 <= i < |pairs| && pairs[i].sceneName == Some(sceneName) && sceneName != ""
                        && (forall j :: i < j < |pairs| ==> pairs[j].sceneName != Some(sceneName))
                        ==> Resolve(BuildMap(pairs), defaultState, sceneName) == pairs[i].gameState
  {
    forall i | 0 <= i < |pairs| && pairs[i].sceneName == Some(sceneName) && sceneName != ""
               && (forall j :: i < j < |pairs| ==> pairs[j].sceneName != Some(sceneName))
      ensures Resolve(BuildMap(pairs), defaultState, sceneName) == pairs[i].gameState
    {
      BuildMapLastWins(pairs, i);
    }
  }

  /**
   * SetSceneState followed by a scene change: the written name resolves to
   * the written state, every other name resolves as before.
   */
  lemma SetThenResolve(sceneStates: map<string, GameState>, defaultState: GameState,
                       sceneName: string, targetState: GameState, other: string)
    ensures Resolve(sceneStates[sceneName := targetState], defaultState, sceneName) == targetState
    ensures other != sceneName ==>
              Resolve(sceneStates[sceneName := targetState], defaultState, other)
              == Resolve(sceneStates, defaultState, other)
  {
  }

  /**
   * The policy drives ChangeGameState only, never PauseGame or ResumeGame,
   * so it can leave the pause flag stale.  With the map {"Menu": Menu,
   * "Game": Playing} and default Menu, entering "Game" from a Paused game
   * gives Playing with the flag still set; an unknown scene falls back to
   * Menu.
   */
  lemma SceneChangeLeavesPauseFlag(t: real)
    ensures var states := BuildMap([SceneStatePair(Some("Menu"), Menu), SceneStatePair(Some("Game"), Playing)]);
            var paused := GameFlow.Machine(Paused, Playing, true, t);
            && GameFlow.ChangeGameState(paused, Resolve(states, Menu, "Game")).next
               == GameFlow.Machine(Playing, Paused, true, t)
            && !GameFlow.IsGamePlaying(GameFlow.ChangeGameState(paused, Resolve(states, Menu, "Game")).next)
            && GameFlow.ChangeGameState(paused, Resolve(states, Menu, "Unknown")).next
               == GameFlow.Machine(Menu, Paused, true, t)
  {
  }

  /** What OnSceneChanged and SetSceneState report: normal return, or the dictionary's exception. */
  datatype Status = Completed | ArgumentNullException

  class SceneConfig {
    var defaultState: GameState
    var sceneConfigs: seq<SceneStatePair>
    var sceneStates: map<string, GameState>
    const gm: GameManagers.GameManager
    const events: GameEvents
    /** The identity of this component's OnSceneChanged delegate. */
    const handler: Handler

    /** Inspector values for the two public fields; the dictionary starts empty. */
    constructor (gm: GameManagers.GameManager, events: GameEvents, handler: Handler,
                 defaultState: GameState, sceneConfigs: seq<SceneStatePair>)
      requires events == gm.events  // the one static bus
      ensures this.gm == gm && this.events == events && this.handler == handler
      ensures this.defaultState == defaultState && this.sceneConfigs == sceneConfigs
      ensures sceneStates == map[]
    {
      this.gm := gm;
      this.events := events;
      this.handler := handler;
      this.defaultState := defaultState;
      this.sceneConfigs := sceneConfigs;
      sceneStates := map[];
    }

    /** Subscribes the handler; it does not build the dictionary. */
    method Awake()
      modifies events
      ensures events.Snapshot() == AddHandler(old(events.Snapshot()), Channel.OnSceneChanged, handler)
    {
      events.Subscribe(Channel.OnSceneChanged, handler);
    }

    /** Unsubscribes the same handler. */
    method OnDestroy()
      modifies events
      ensures events.Snapshot() == RemoveHandler(old(events.Snapshot()), Channel.OnSceneChanged, handler)
    {
      events.Unsubscribe(Channel.OnSceneChanged, handler);
    }

    /** Clears the dictionary and refills it from the list, in order. */
    method SetupSceneStates()
      modifies this`sceneStates
      ensures sceneStates == BuildMap(sceneConfigs)
    {
      sceneStates := map[];
      var i := 0;
      while i < |sceneConfigs|
        invariant 0 <= i <= |sceneConfigs|
        invariant sceneStates == BuildMap(sceneConfigs[..i])
      {
        var config := sceneConfigs[i];
        if config.sceneName.Some? && config.sceneName.value != "" {
          sceneStates := sceneStates[config.sceneName.value := config.gameState];
        }
        assert sceneConfigs[..i + 1][..i] == sceneConfigs[..i];
        i := i + 1;
      }
      assert sceneConfigs[..i] == sceneConfigs;
    }

    /** Resolves the scene and hands the result to ChangeGameState. */
    method OnSceneChanged(sceneName: Option<string>) returns (status: Status)
      modifies gm
      ensures sceneName.None? ==> status == ArgumentNullException && gm.Snapshot() == old(gm.Snapshot())
      ensures sceneName.Some? ==>
                status == Completed
                && gm.Snapshot() == GameFlow.ChangeGameState(old(gm.Snapshot()),
                                      Resolve(sceneStates, defaultState, sceneName.value)).next
    {
      if sceneName.None? {
        return ArgumentNullException;
      }
      var targetState := if sceneName.value in sceneStates then sceneStates[sceneName.value] else defaultState;
      gm.ChangeGameState(targetState);
      status := Completed;
    }

    /** Writes one key at runtime, without the empty-name check of SetupSceneStates. */
    method SetSceneState(sceneName: Option<string>, targetState: GameState) returns (status: Status)
      modifies this`sceneStates
      ensures sceneName.None? ==> status == ArgumentNullException && sceneStates == old(sceneStates)
      ensures sceneName.Some? ==>
                status == Completed && sceneStates == old(sceneStates)[sceneName.value := targetState]
    {
      if sceneName.None? {
        return ArgumentNullException;
      }
      sceneStates := sceneStates[sceneName.value := targetState];
      status := Completed;
    }
  }
}
