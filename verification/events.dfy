/**
 * The static `GameEvents` class: one delegate per channel, raised through
 * expression-bodied forwarders that use `?.Invoke`.
 *
 * A delegate is modelled as the ordered list of its subscribers (a missing
 * map key is a null delegate).  Raising records the event in `raised` and
 * appends one `Delivery` per subscriber, in subscription order, to
 * `delivered`; the handlers' own effects are not run by the bus.
 */
module Events {
  import opened Optional

  /** One value per raise method; the arguments are the payloads it forwards. */
  datatype Event =
    | SceneChanged(sceneName: Option<string>)
    | VolumeChanged(volume: real)
    | ScoreChanged(score: int)
    | GamePaused
    | GameResumed
    | ResolutionChanged(resolutionIndex: int)
    | FullscreenChanged(isFullscreen: bool)
    | QualityChanged(qualityLevel: int)

  /** The delegate fields of GameEvents. */
  datatype Channel =
    | OnSceneChanged
    | OnVolumeChanged
    | OnScoreChanged
    | OnGamePaused
    | OnGameResumed
    | OnResolutionChanged
    | OnFullscreenChanged
    | OnQualityChanged

  /** The identity of a subscribed handler (a delegate's target and method). */
  type Handler = nat

  /** One invocation of one handler with the payload it received. */
  datatype Delivery = Delivery(handler: Handler, event: Event)

  /** The channel a raise method invokes. */
  function ChannelOf(e: Event): (c: Channel)
    ensures c == OnGamePaused <==> e == GamePaused
    ensures c == OnGameResumed <==> e == GameResumed
    ensures c == OnSceneChanged <==> e.SceneChanged?
    ensures c == OnVolumeChanged <==> e.VolumeChanged?
    ensures c == OnScoreChanged <==> e.ScoreChanged?
    ensures c == OnResolutionChanged <==> e.ResolutionChanged?
    ensures c == OnFullscreenChanged <==> e.FullscreenChanged?
    ensures c == OnQualityChanged <==> e.QualityChanged?
  {
    match e
    case SceneChanged(_) => OnSceneChanged
    case VolumeChanged(_) => OnVolumeChanged
    case ScoreChanged(_) => OnScoreChanged
    case GamePaused => OnGamePaused
    case GameResumed => OnGameResumed
    case ResolutionChanged(_) => OnResolutionChanged
    case FullscreenChanged(_) => OnFullscreenChanged
    case QualityChanged(_) => OnQualityChanged
  }

  /** `Invoke` on a multicast delegate: every handler once, in order, with the same payload. */
  function Deliveries(handlers: seq<Handler>, e: Event): (r: seq<Delivery>)
    ensures |r| == |handlers|
    ensures forall i :: 0 <= i < |handlers| ==> r[i] == Delivery(handlers[i], e)
  {
    if handlers == [] then []
    else [Delivery(handlers[0], e)] + Deliveries(handlers[1..], e)
  }

  /**
   * Delegate removal (`-=`): drops the LAST occurrence of the handler and
   * leaves a list without it unchanged.
   */
  function RemoveLast(handlers: seq<Handler>, h: Handler): (r: seq<Handler>)
    ensures h !in handlers ==> r == handlers
    ensures h in handlers ==> |r| == |handlers| - 1
    ensures multiset(r) == multiset(handlers) - multiset{h}
    decreases |handlers|
  {
    if handlers == [] then []
    else
      var n := |handlers| - 1;
      assert handlers == handlers[..n] + [handlers[n]];
      if handlers[n] == h then handlers[..n]
      else RemoveLast(handlers[..n], h) + [handlers[n]]
  }

  /** Which occurrence `-=` removes: the last one. */
  lemma {:induction false} RemoveLastDropsLastOccurrence(handlers: seq<Handler>, h: Handler)
    requires h in handlers
    ensures exists i :: 0 <= i < |handlers| && handlers[i] == h && h !in handlers[i + 1..]
                        && RemoveLast(handlers, h) == handlers[..i] + handlers[i + 1..]
    decreases |handlers|
  {
    var n := |handlers| - 1;
    var init := handlers[..n];
    assert handlers == init + [handlers[n]];
    if handlers[n] == h {
      assert handlers[n + 1..] == [];
      assert RemoveLast(handlers, h) == handlers[..n] + handlers[n + 1..];
    } else {
      assert h in init;
      RemoveLastDropsLastOccurrence(init, h);
      var i :| 0 <= i < |init| && init[i] == h && h !in init[i + 1..]
               && RemoveLast(init, h) == init[..i] + init[i + 1..];
      SplitAround(handlers, n, i);
      assert RemoveLast(handlers, h) == RemoveLast(init, h) + [handlers[n]];
    }
  }

  lemma SplitAround(s: seq<Handler>, n: nat, i: nat)
    requires i < n && n + 1 == |s|
    ensures s[i + 1..] == s[..n][i + 1..] + [s[n]]
    ensures s[..i] == s[..n][..i]
    ensures s[..n][..i] + s[..n][i + 1..] + [s[n]] == s[..i] + s[i + 1..]
  {
  }

  /** The state of all channels and what has been raised and delivered so far. */
  datatype Bus = Bus(subscribers: map<Channel, seq<Handler>>, raised: seq<Event>, delivered: seq<Delivery>)

  /** The invocation list of a channel; a null delegate has none. */
  function Subscribers(b: Bus, c: Channel): seq<Handler>
  {
    if c in b.subscribers then b.subscribers[c] else []
  }

  /** `GameEvents.X += h`. */
  function AddHandler(b: Bus, c: Channel, h: Handler): (r: Bus)
    ensures Subscribers(r, c) == Subscribers(b, c) + [h]
    ensures forall d :: d != c ==> Subscribers(r, d) == Subscribers(b, d)
    ensures r.raised == b.raised && r.delivered == b.delivered
  {
    b.(subscribers := b.subscribers[c := Subscribers(b, c) + [h]])
  }

  /** `GameEvents.X -= h`. */
  function RemoveHandler(b: Bus, c: Channel, h: Handler): (r: Bus)
    ensures Subscribers(r, c) == RemoveLast(Subscribers(b, c), h)
    ensures forall d :: d != c ==> Subscribers(r, d) == Subscribers(b, d)
    ensures r.raised == b.raised && r.delivered == b.delivered
  {
    b.(subscribers := b.subscribers[c := RemoveLast(Subscribers(b, c), h)])
  }

  /** Subscribing and then unsubscribing the same handler restores every invocation list. */
  lemma RemoveUndoesAdd(b: Bus, c: Channel, h: Handler, d: Channel)
    ensures Subscribers(RemoveHandler(AddHandler(b, c, h), c, h), d) == Subscribers(b, d)
  {
  }

  /**
   * A raise method: `X?.Invoke(payload)`.  Only the event's own channel is
   * invoked, each of its handlers receives the payload unchanged, and a
   * channel without subscribers delivers nothing (no error).
   */
  function Publish(b: Bus, e: Event): (r: Bus)
    ensures r.subscribers == b.subscribers
    ensures r.raised == b.raised + [e]
    ensures |r.delivered| == |b.delivered| + |Subscribers(b, ChannelOf(e))|
    ensures r.delivered[..|b.delivered|] == b.delivered
    ensures forall i :: |b.delivered| <= i < |r.delivered| ==>
              r.delivered[i] == Delivery(Subscribers(b, ChannelOf(e))[i - |b.delivered|], e)
  {
    var r := b.(raised := b.raised + [e],
                delivered := b.delivered + Deliveries(Subscribers(b, ChannelOf(e)), e));
    assert r.delivered[..|b.delivered|] == b.delivered;
    r
  }

  /** Raising several events in order. */
  function PublishAll(b: Bus, es: seq<Event>): (r: Bus)
    ensures r.subscribers == b.subscribers
    ensures r.raised == b.raised + es
    decreases |es|
  {
    if es == [] then b
    else
      var first := Publish(b, es[0]);
      assert first.raised + es[1..] == b.raised + es by {
        assert es == [es[0]] + es[1..];
      }
      PublishAll(first, es[1..])
  }

  lemma {:induction false} PublishAllConcat(b: Bus, xs: seq<Event>, ys: seq<Event>)
    ensures PublishAll(PublishAll(b, xs), ys) == PublishAll(b, xs + ys)
    decreases |xs|
  {
    if xs != [] {
      assert (xs + ys)[0] == xs[0];
      assert (xs + ys)[1..] == xs[1..] + ys;
      PublishAllConcat(Publish(b, xs[0]), xs[1..], ys);
    } else {
      assert xs + ys == ys;
    }
  }

  /** The static GameEvents class: its delegate fields and the traces the model adds. */
  class GameEvents {
    var subscribers: map<Channel, seq<Handler>>
    var raised: seq<Event>
    var delivered: seq<Delivery>

    /** Every delegate starts null. */
    constructor ()
      ensures Snapshot() == Bus(map[], [], [])
    {
      subscribers, raised, delivered := map[], [], [];
    }

    function Snapshot(): Bus
      reads this
    {
      Bus(subscribers, raised, delivered)
    }

    method Subscribe(c: Channel, h: Handler)
      modifies this
      ensures Snapshot() == AddHandler(old(Snapshot()), c, h)
    {
      subscribers := subscribers[c := Subscribers(Snapshot(), c) + [h]];
    }

    method Unsubscribe(c: Channel, h: Handler)
      modifies this
      ensures Snapshot() == RemoveHandler(old(Snapshot()), c, h)
    {
      subscribers := subscribers[c := RemoveLast(Subscribers(Snapshot(), c), h)];
    }

    /** Any of the eight raise methods; the event value says which one and with what payload. */
    method Raise(e: Event)
      modifies this
      ensures Snapshot() == Publish(old(Snapshot()), e)
    {
      delivered := delivered + Deliveries(Subscribers(Snapshot(), ChannelOf(e)), e);
      raised := raised + [e];
    }
  }
}
