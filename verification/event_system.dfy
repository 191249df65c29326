/**
 * The EventSystem component: the `isEventPlaying` field it toggles and the
 * GameManager it drives.  `GameManager.Instance` is never null (the lazy
 * getter creates one), so the `?.` calls always happen; here the manager is
 * a fixed reference.
 */
module EventSystems {
  import opened Events
  import EventGate
  import GameManagers

  class EventSystem {
    var isEventPlaying: bool
    const gm: GameManagers.GameManager

    /** `isEventPlaying` starts from its Inspector value (the initialiser is false). */
    constructor (gm: GameManagers.GameManager, isEventPlaying: bool)
      ensures this.isEventPlaying == isEventPlaying && this.gm == gm
    {
      this.isEventPlaying := isEventPlaying;
      this.gm := gm;
    }

    function Snapshot(): EventGate.Gate
      reads this, gm
    {
      EventGate.Gate(isEventPlaying, gm.Snapshot())
    }

    method StartEvent()
      modifies this, gm, gm.events
      ensures Snapshot() == EventGate.StartEvent(old(Snapshot())).next
      ensures gm.events.Snapshot() == PublishAll(old(gm.events.Snapshot()), EventGate.StartEvent(old(Snapshot())).raised)
    {
      if isEventPlaying {
        return;
      }
      isEventPlaying := true;
      gm.PauseGame();
    }

    method EndEvent()
      modifies this, gm, gm.events
      ensures Snapshot() == EventGate.EndEvent(old(Snapshot())).next
      ensures gm.events.Snapshot() == PublishAll(old(gm.events.Snapshot()), EventGate.EndEvent(old(Snapshot())).raised)
    {
      if !isEventPlaying {
        return;
      }
      isEventPlaying := false;
      gm.ResumeGame();
    }

    /** The coroutine body with the real-time wait removed. */
    method CutSceneCoroutine()
      modifies this, gm, gm.events
      ensures Snapshot() == EventGate.CutSceneCoroutine(old(Snapshot())).next
      ensures gm.events.Snapshot() == PublishAll(old(gm.events.Snapshot()), EventGate.CutSceneCoroutine(old(Snapshot())).raised)
    {
      ghost var before := gm.events.Snapshot();
      ghost var started := EventGate.StartEvent(Snapshot());
      StartEvent();
      ghost var ended := EventGate.EndEvent(Snapshot());
      EndEvent();
      PublishAllConcat(before, started.raised, ended.raised);
    }
  }
}
