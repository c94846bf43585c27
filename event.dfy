/**
 * The static listener registry of TauriApi/Event.cs.
 *
 * `EventHandlers` maps an event name to the one handler registered for it, so
 * a name never has two handlers. `Listen` uses `TryAdd`: the first
 * registration of a name wins and only it asks the bridge to listen.
 * `Unlisten` removes the name, present or not, and always asks the bridge to
 * unlisten. `TauriEventCallback`, called from JavaScript, invokes the
 * handler registered for the name or raises `NullReferenceException`.
 *
 * The registry is a value here with pure operations on it; the class
 * `Event` holds the dictionary and the ghost log of bridge calls and is
 * proved to follow them.
 */
module EventModel {
  import opened Bridge

  /** A call to the bridge, by event name. */
  datatype BridgeCall = BridgeListen(eventName: string) | BridgeUnlisten(eventName: string)

  /** The dictionary and the bridge calls made so far. */
  datatype Registry = Registry(handlers: map<string, Callback>, bridge: seq<BridgeCall>)

  /** The registry before any call. */
  const Empty := Registry(map[], [])

  /**
   * `Listen`: a new name gets exactly this handler and one bridge listen; a
   * name already present keeps its handler, and nothing is sent.
   */
  function ListenStep(r: Registry, eventName: string, handler: Callback): (r': Registry)
    ensures eventName in r'.handlers
    ensures eventName in r.handlers ==> r' == r
    ensures eventName !in r.handlers ==>
      r'.handlers[eventName] == handler && r'.bridge == r.bridge + [BridgeListen(eventName)]
    ensures forall n :: n != eventName ==> (n in r'.handlers <==> n in r.handlers)
    ensures forall n :: n != eventName && n in r.handlers ==> r'.handlers[n] == r.handlers[n]
  {
    if eventName in r.handlers then r
    else Registry(r.handlers[eventName := handler], r.bridge + [BridgeListen(eventName)])
  }

  /** `Unlisten`: the name is gone, every other name keeps its handler, and one bridge unlisten is sent, even for an absent name. */
  function UnlistenStep(r: Registry, eventName: string): (r': Registry)
    ensures eventName !in r'.handlers
    ensures forall n :: n != eventName ==> (n in r'.handlers <==> n in r.handlers)
    ensures forall n :: n != eventName && n in r.handlers ==> r'.handlers[n] == r.handlers[n]
    ensures r'.bridge == r.bridge + [BridgeUnlisten(eventName)]
  {
    Registry(r.handlers - {eventName}, r.bridge + [BridgeUnlisten(eventName)])
  }

  /** What `TauriEventCallback` does: invoke one handler on the data, or raise. */
  datatype Dispatch<D> = Invoked(handler: Callback, data: D) | NoHandler

  /** `TauriEventCallback`: a registered name invokes exactly its handler on the data; any other raises `NullReferenceException`. */
  function CallbackStep<D>(r: Registry, eventName: string, data: D): (d: Dispatch<D>)
    ensures d.Invoked? <==> eventName in r.handlers
    ensures d.Invoked? ==> d.handler == r.handlers[eventName] && d.data == data
  {
    if eventName in r.handlers then Invoked(r.handlers[eventName], data) else NoHandler
  }

  // ----- Properties -----

  /** The first registration wins: a later `Listen` on the same name still dispatches to the first handler. */
  lemma FirstListenWins<D>(r: Registry, eventName: string, first: Callback, second: Callback, data: D)
    requires eventName !in r.handlers
    ensures var r2 := ListenStep(ListenStep(r, eventName, first), eventName, second);
      r2.handlers[eventName] == first &&
      r2.bridge == r.bridge + [BridgeListen(eventName)] &&
      CallbackStep(r2, eventName, data) == Invoked(first, data)
  {
  }

  /** After `Unlisten`, the callback for that name raises, and a new `Listen` registers the new handler and listens again. */
  lemma ListenAgainAfterUnlisten<D>(r: Registry, eventName: string, handler: Callback, data: D)
    ensures CallbackStep(UnlistenStep(r, eventName), eventName, data) == NoHandler
    ensures var r2 := ListenStep(UnlistenStep(r, eventName), eventName, handler);
      r2.handlers[eventName] == handler &&
      r2.bridge == r.bridge + [BridgeUnlisten(eventName), BridgeListen(eventName)] &&
      CallbackStep(r2, eventName, data) == Invoked(handler, data)
  {
  }

  /** Operations on one name never change the callback of another. */
  lemma OtherNamesUnaffected<D>(r: Registry, eventName: string, other: string, handler: Callback, data: D)
    requires other != eventName
    ensures CallbackStep(ListenStep(r, eventName, handler), other, data) == CallbackStep(r, other, data)
    ensures CallbackStep(UnlistenStep(r, eventName), other, data) == CallbackStep(r, other, data)
  {
  }

  /** The number of bridge calls of one kind for one name. */
  function CountListen(bridge: seq<BridgeCall>, eventName: string): (n: nat)
    ensures n <= |bridge|
  {
    if bridge == [] then 0
    else CountListen(bridge[..|bridge| - 1], eventName) + (if bridge[|bridge| - 1] == BridgeListen(eventName) then 1 else 0)
  }

  function CountUnlisten(bridge: seq<BridgeCall>, eventName: string): (n: nat)
    ensures n <= |bridge|
  {
    if bridge == [] then 0
    else CountUnlisten(bridge[..|bridge| - 1], eventName) + (if bridge[|bridge| - 1] == BridgeUnlisten(eventName) then 1 else 0)
  }

  /** A sequence of calls on the registry, as JavaScript and Blazor make them. */
  datatype Call = ListenCall(eventName: string, handler: Callback) | UnlistenCall(eventName: string)

  function Apply(r: Registry, c: Call): Registry
  {
    match c
    case ListenCall(n, h) => ListenStep(r, n, h)
    case UnlistenCall(n) => UnlistenStep(r, n)
  }

  function Run(r: Registry, calls: seq<Call>): Registry
    decreases |calls|
  {
    if calls == [] then r else Run(Apply(r, calls[0]), calls[1..])
  }

  /**
   * A count bound: the listens sent for a name never exceed its unlistens by
   * more than one, and by one only while the name is registered. (Unlistens
   * of a name never registered also count, so this alone does not rule out
   * two listens in a row; `Tracked` below does.)
   */
  ghost predicate Balanced(r: Registry)
  {
    forall n :: CountListen(r.bridge, n) <= CountUnlisten(r.bridge, n) + (if n in r.handlers then 1 else 0)
  }

  lemma BalancedInitially()
    ensures Balanced(Empty)
  {
  }

  lemma {:induction false} BalancedPreserved(r: Registry, c: Call)
    requires Balanced(r)
    ensures Balanced(Apply(r, c))
  {
    var r' := Apply(r, c);
    forall n
      ensures CountListen(r'.bridge, n) <= CountUnlisten(r'.bridge, n) + (if n in r'.handlers then 1 else 0)
    {
      if r'.bridge != r.bridge {
        assert r'.bridge[..|r'.bridge| - 1] == r.bridge;
      }
    }
  }

  /** Whatever the calls, every name is listened to at most once more than it is unlistened. */
  lemma {:induction false} BalancedAlways(r: Registry, calls: seq<Call>)
    requires Balanced(r)
    ensures Balanced(Run(r, calls))
    decreases |calls|
  {
    if calls != [] {
      BalancedPreserved(r, calls[0]);
      BalancedAlways(Apply(r, calls[0]), calls[1..]);
    }
  }

  /** The bridge is listening to `n`: the last entry of the log that mentions `n` is a listen. */
  function Listening(bridge: seq<BridgeCall>, n: string): bool
  {
    if bridge == [] then false
    else if bridge[|bridge| - 1] == BridgeListen(n) then true
    else if bridge[|bridge| - 1] == BridgeUnlisten(n) then false
    else Listening(bridge[..|bridge| - 1], n)
  }

  /** Between any two listens of `n` in the log lies an unlisten of `n`. */
  ghost predicate ListensSeparated(bridge: seq<BridgeCall>, n: string)
  {
    forall i, j :: 0 <= i < j < |bridge| && bridge[i] == BridgeListen(n) && bridge[j] == BridgeListen(n) ==>
      exists k :: i < k < j && bridge[k] == BridgeUnlisten(n)
  }

  /**
   * The registry and the bridge agree: a name is registered exactly while the
   * bridge is listening to it, and no name was ever listened to twice without
   * an unlisten between.
   */
  ghost predicate Tracked(r: Registry)
  {
    forall n :: (n in r.handlers <==> Listening(r.bridge, n)) && ListensSeparated(r.bridge, n)
  }

  /** A listen of `n` that the bridge is no longer listening to was followed by an unlisten of `n`. */
  lemma {:induction false} UnlistenAfter(bridge: seq<BridgeCall>, n: string, i: nat)
    requires i < |bridge| && bridge[i] == BridgeListen(n) && !Listening(bridge, n)
    ensures exists k :: i < k < |bridge| && bridge[k] == BridgeUnlisten(n)
    decreases |bridge|
  {
    var last := |bridge| - 1;
    if bridge[last] != BridgeUnlisten(n) {
      var prefix := bridge[..last];
      UnlistenAfter(prefix, n, i);
      var k :| i < k < |prefix| && prefix[k] == BridgeUnlisten(n);
      assert bridge[k] == BridgeUnlisten(n);
    }
  }

  /** Appending one bridge call: how `Listening` changes, and that separation is kept unless a listen is sent while listening. */
  lemma AppendCall(bridge: seq<BridgeCall>, c: BridgeCall, n: string)
    requires ListensSeparated(bridge, n)
    requires c == BridgeListen(n) ==> !Listening(bridge, n)
    ensures Listening(bridge + [c], n) == (c == BridgeListen(n) || (c != BridgeUnlisten(n) && Listening(bridge, n)))
    ensures ListensSeparated(bridge + [c], n)
  {
    var b := bridge + [c];
    assert b[..|b| - 1] == bridge;
    forall i, j | 0 <= i < j < |b| && b[i] == BridgeListen(n) && b[j] == BridgeListen(n)
      ensures exists k :: i < k < j && b[k] == BridgeUnlisten(n)
    {
      if j == |bridge| {
        assert bridge[i] == BridgeListen(n);
        UnlistenAfter(bridge, n, i);
        var k :| i < k < |bridge| && bridge[k] == BridgeUnlisten(n);
        assert b[k] == BridgeUnlisten(n);
      } else {
        assert bridge[i] == BridgeListen(n) && bridge[j] == BridgeListen(n);
        var k :| i < k < j && bridge[k] == BridgeUnlisten(n);
        assert b[k] == BridgeUnlisten(n);
      }
    }
  }

  lemma TrackedInitially()
    ensures Tracked(Empty)
  {
  }

  lemma {:induction false} TrackedPreserved(r: Registry, c: Call)
    requires Tracked(r)
    ensures Tracked(Apply(r, c))
  {
    var r' := Apply(r, c);
    forall n
      ensures (n in r'.handlers <==> Listening(r'.bridge, n)) && ListensSeparated(r'.bridge, n)
    {
      assert (n in r.handlers <==> Listening(r.bridge, n)) && ListensSeparated(r.bridge, n);
      if r'.bridge != r.bridge {
        var sent := r'.bridge[|r'.bridge| - 1];
        assert r'.bridge == r.bridge + [sent];
        AppendCall(r.bridge, sent, n);
      }
    }
  }

  lemma {:induction false} TrackedAlways(r: Registry, calls: seq<Call>)
    requires Tracked(r)
    ensures Tracked(Run(r, calls))
    decreases |calls|
  {
    if calls != [] {
      TrackedPreserved(r, calls[0]);
      TrackedAlways(Apply(r, calls[0]), calls[1..]);
    }
  }

  /**
   * Whatever the calls from the empty registry, the bridge is never asked to
   * listen to a name twice without an unlisten of that name between.
   */
  lemma NoDoubleListen(calls: seq<Call>, n: string, i: nat, j: nat)
    requires var bridge := Run(Empty, calls).bridge;
      i < j < |bridge| && bridge[i] == BridgeListen(n) && bridge[j] == BridgeListen(n)
    ensures var bridge := Run(Empty, calls).bridge;
      exists k :: i < k < j && bridge[k] == BridgeUnlisten(n)
  {
    TrackedInitially();
    TrackedAlways(Empty, calls);
    assert ListensSeparated(Run(Empty, calls).bridge, n);
  }

  // ----- The class -----

  /** `Event`, with the static `EventHandlers` dictionary as a field of the one instance. */
  class Event {
    var eventHandlers: map<string, Callback>
    ghost var bridge: seq<BridgeCall>

    ghost function State(): Registry
      reads this
    {
      Registry(eventHandlers, bridge)
    }

    constructor ()
      ensures State() == Empty
    {
      eventHandlers := map[];
      bridge := [];
    }

    /** `TauriEventCallback(eventName, data)`: changes nothing. */
    method TauriEventCallback<D>(eventName: string, data: D) returns (d: Dispatch<D>)
      ensures d == CallbackStep(State(), eventName, data)
    {
      if eventName in eventHandlers {
        d := Invoked(eventHandlers[eventName], data);
      } else {
        d := NoHandler;
      }
    }

    /** `Listen<T>(eventName, handler)`. */
    method Listen(eventName: string, handler: Callback)
      modifies this
      ensures State() == ListenStep(old(State()), eventName, handler)
    {
      var added := eventName !in eventHandlers;
      if added {
        eventHandlers := eventHandlers[eventName := handler];
        bridge := bridge + [BridgeListen(eventName)];
      }
    }

    /** `Unlisten(eventName)`. */
    method Unlisten(eventName: string)
      modifies this
      ensures State() == UnlistenStep(old(State()), eventName)
    {
      eventHandlers := eventHandlers - {eventName};
      bridge := bridge + [BridgeUnlisten(eventName)];
    }
  }
}
