/**
 * The older handler bookkeeping of TauriApi/Utilities/TauriEventManager.cs.
 *
 * A `TauriEventManager` keeps the list of live handlers. `CreateEventHandler`
 * appends a new handler; a handler's `Unlisten` checks that it is not
 * disposed and has a bridge handle, marks itself disposed, asks the bridge to
 * unlisten, removes itself from its manager's list (the first occurrence, as
 * `List.Remove` does) and disposes the handle. `InvokeEvent` only runs the
 * callback: this variant has no once handlers.
 *
 * As for the newer variant, the pure functions below describe each operation
 * on a value, and the classes are proved to follow them. A handler's ghost
 * `log` records the bridge commands and the removal from the list in order.
 */
module TauriEventManagerModel {
  import opened Bridge
  import H = TauriEventHandlers

  // ----- The manager's list -----

  /** The position of the first occurrence of `x`. */
  function FirstIndex<T(==)>(s: seq<T>, x: T): (i: nat)
    requires x in s
    ensures i < |s| && s[i] == x && x !in s[..i]
  {
    if s[0] == x then 0
    else
      var j := FirstIndex(s[1..], x);
      assert s[..j + 1] == [s[0]] + s[1..][..j];
      j + 1
  }

  /**
   * `List<T>.Remove`: drop the first occurrence of `x`, if there is one; the
   * other entries keep their order.
   */
  function RemoveFirst<T(==)>(s: seq<T>, x: T): (r: seq<T>)
    ensures x !in s ==> r == s
    ensures x in s ==> r == s[..FirstIndex(s, x)] + s[FirstIndex(s, x) + 1..]
  {
    if s == [] then []
    else if s[0] == x then s[1..]
    else
      var rest := RemoveFirst(s[1..], x);
      if x in s[1..] then
        ConsSlices(s, FirstIndex(s[1..], x));
        [s[0]] + rest
      else
        [s[0]] + rest
  }

  /** Putting the head back in front of a sequence with one position dropped. */
  lemma ConsSlices<T>(s: seq<T>, j: nat)
    requires j + 1 < |s|
    ensures [s[0]] + (s[1..][..j] + s[1..][j + 1..]) == s[..j + 1] + s[j + 2..]
  {
    assert s[..j + 1] == [s[0]] + s[1..][..j];
    assert s[j + 2..] == s[1..][j + 1..];
  }

  /** Exactly one occurrence of `x` goes, when there is one. */
  lemma RemoveFirstMultiset<T>(s: seq<T>, x: T)
    ensures multiset(RemoveFirst(s, x)) == multiset(s) - multiset{x}
  {
    if x in s {
      var i := FirstIndex(s, x);
      assert s == s[..i] + [x] + s[i + 1..];
      MultisetWithout(s[..i], x, s[i + 1..]);
    } else {
      assert RemoveFirst(s, x) == s;
      assert x !in multiset(s);
    }
  }

  lemma MultisetWithout<T>(before: seq<T>, x: T, after: seq<T>)
    ensures multiset(before + after) == multiset(before + [x] + after) - multiset{x}
  {
    assert multiset(before + [x] + after) == multiset(before) + multiset{x} + multiset(after);
  }

  /** No handler occurs twice in the list. */
  ghost predicate Distinct<T>(s: seq<T>)
  {
    forall i, j :: 0 <= i < j < |s| ==> s[i] != s[j]
  }

  /** Appending a handler not yet in the list keeps it free of repetitions. */
  lemma AppendNewKeepsDistinct<T>(s: seq<T>, x: T)
    requires Distinct(s) && x !in s
    ensures Distinct(s + [x])
  {
    forall i, j | 0 <= i < j < |s + [x]|
      ensures (s + [x])[i] != (s + [x])[j]
    {
      if j == |s| {
        assert (s + [x])[i] == s[i];
      }
    }
  }

  /** In a list without repetitions, removing a handler removes it entirely, and the rest stays free of repetitions. */
  lemma RemoveFirstOfDistinct<T>(s: seq<T>, x: T)
    requires Distinct(s)
    ensures x !in RemoveFirst(s, x)
    ensures Distinct(RemoveFirst(s, x))
    ensures forall y :: y != x ==> (y in RemoveFirst(s, x) <==> y in s)
  {
    if x in s {
      var i := FirstIndex(s, x);
      var r := RemoveFirst(s, x);
      assert |r| == |s| - 1;
      assert forall k :: 0 <= k < |r| ==> r[k] == s[if k < i then k else k + 1];
      forall y | y != x && y in s
        ensures y in r
      {
        var k :| 0 <= k < |s| && s[k] == y;
        assert r[if k < i then k else k - 1] == y;
      }
    }
  }

  // ----- A handler, as a value -----

  /** What a handler hands to the bridge and to its manager, in order. */
  datatype Effect<P> =
    | RanCallback(callback: Callback, payload: P)
    | BridgeUnlisten(handle: JsHandle)
    | RemovedFromManager
    | BridgeDispose(handle: JsHandle)

  /** The handler's own fields. */
  datatype HandlerState<P> = HandlerState(
    callback: Callback,
    disposed: bool,
    handlerRef: Option<JsHandle>,
    log: seq<Effect<P>>)

  /** A handler together with its manager's list, and how the call ended. */
  datatype Step<P> = Step(state: HandlerState<P>, handlers: seq<object>, outcome: H.Outcome)

  /** A handler as `CreateEventHandler` returns it: not disposed, no handle yet, nothing sent. */
  function Created<P>(callback: Callback): (s: HandlerState<P>)
    ensures !s.disposed && s.handlerRef == None && s.log == [] && s.callback == callback
  {
    HandlerState(callback, false, None, [])
  }

  /** `InvokeEvent`: the callback runs, whatever the handler's state; nothing else happens. */
  function InvokeStep<P>(s: HandlerState<P>, payload: P): (r: HandlerState<P>)
    ensures r.callback == s.callback && r.disposed == s.disposed && r.handlerRef == s.handlerRef
    ensures |r.log| == |s.log| + 1 && r.log[..|s.log|] == s.log
    ensures r.log[|s.log|] == RanCallback(s.callback, payload)
  {
    s.(log := s.log + [RanCallback(s.callback, payload)])
  }

  /**
   * `Unlisten` of the handler `self` listed in `handlers`: it succeeds exactly
   * when the handler is not disposed and has a handle. A failure changes
   * neither the handler nor the list. A success marks the handler disposed,
   * removes it from the list and records unlisten, removal and dispose in
   * that order.
   */
  function UnlistenStep<P>(s: HandlerState<P>, handlers: seq<object>, self: object): (r: Step<P>)
    ensures r.outcome == H.Completed <==> !s.disposed && s.handlerRef.Some?
    ensures r.outcome != H.Completed ==> r.state == s && r.handlers == handlers
    ensures s.disposed ==> r.outcome == H.Raised(H.ObjectDisposedException)
    ensures !s.disposed && s.handlerRef == None ==> r.outcome == H.Raised(H.NullReferenceException)
    ensures r.outcome == H.Completed ==>
      r.state.disposed && r.state.callback == s.callback && r.state.handlerRef == s.handlerRef &&
      r.state.log == s.log + [BridgeUnlisten(s.handlerRef.value), RemovedFromManager, BridgeDispose(s.handlerRef.value)] &&
      (self in handlers ==> r.handlers == handlers[..FirstIndex(handlers, self)] + handlers[FirstIndex(handlers, self) + 1..]) &&
      (self !in handlers ==> r.handlers == handlers)
  {
    if s.disposed then Step(s, handlers, H.Raised(H.ObjectDisposedException))
    else if s.handlerRef == None then Step(s, handlers, H.Raised(H.NullReferenceException))
    else
      var h := s.handlerRef.value;
      Step(s.(disposed := true, log := s.log + [BridgeUnlisten(h), RemovedFromManager, BridgeDispose(h)]),
           RemoveFirst(handlers, self), H.Completed)
  }

  // ----- Properties of the lifecycle -----

  /** A second `Unlisten` raises `ObjectDisposedException` and leaves the handler and the list as they were. */
  lemma SecondUnlistenFails<P>(s: HandlerState<P>, handlers: seq<object>, self: object)
    requires UnlistenStep(s, handlers, self).outcome == H.Completed
    ensures var first := UnlistenStep(s, handlers, self);
      var second := UnlistenStep(first.state, first.handlers, self);
      second.outcome == H.Raised(H.ObjectDisposedException) &&
      second.state == first.state && second.handlers == first.handlers
  {
  }

  /**
   * A successful `Unlisten` of a handler listed once takes it off the list,
   * keeps every other handler, in order, and sends unlisten before dispose.
   */
  lemma {:induction false} UnlistenRemovesOnlySelf<P>(s: HandlerState<P>, handlers: seq<object>, self: object)
    requires Distinct(handlers) && self in handlers
    requires UnlistenStep(s, handlers, self).outcome == H.Completed
    ensures var r := UnlistenStep(s, handlers, self);
      self !in r.handlers && Distinct(r.handlers) &&
      (forall o :: o != self ==> (o in r.handlers <==> o in handlers)) &&
      r.handlers == handlers[..FirstIndex(handlers, self)] + handlers[FirstIndex(handlers, self) + 1..]
  {
    RemoveFirstOfDistinct(handlers, self);
  }

  /** `Unlisten` before a handle is set raises and changes neither `Disposed` nor the list. */
  lemma UnlistenWithoutHandle<P>(s: HandlerState<P>, handlers: seq<object>, self: object)
    requires !s.disposed && s.handlerRef == None
    ensures var r := UnlistenStep(s, handlers, self);
      r.outcome == H.Raised(H.NullReferenceException) && !r.state.disposed && r.handlers == handlers
  {
  }

  /** The bridge commands of the log, in order; the removal and the callbacks are not bridge commands. */
  function BridgeCommands<P>(log: seq<Effect<P>>): (r: seq<Effect<P>>)
    ensures |r| <= |log|
    ensures forall k :: 0 <= k < |r| ==> r[k].BridgeUnlisten? || r[k].BridgeDispose?
  {
    if log == [] then []
    else
      var rest := BridgeCommands(log[..|log| - 1]);
      var e := log[|log| - 1];
      if e.BridgeUnlisten? || e.BridgeDispose? then rest + [e] else rest
  }

  lemma {:induction false} BridgeCommandsAppend<P>(a: seq<Effect<P>>, b: seq<Effect<P>>)
    ensures BridgeCommands(a + b) == BridgeCommands(a) + BridgeCommands(b)
    decreases |b|
  {
    if b == [] {
      assert a + b == a;
    } else {
      var b' := b[..|b| - 1];
      assert (a + b)[..|a + b| - 1] == a + b';
      assert b[..|b| - 1] == b';
      BridgeCommandsAppend(a, b');
    }
  }

  /**
   * A fresh handler that receives one event, then gets its handle and is
   * unlistened, sends exactly `unlisten` then `dispose` on that handle to the
   * bridge: the callback run and the removal from the list are not bridge
   * commands.
   */
  lemma {:induction false} FireThenUnlistenSendsUnlistenThenDispose<P>(
    callback: Callback, payload: P, h: JsHandle, handlers: seq<object>, self: object)
    ensures var fired := InvokeStep(Created<P>(callback), payload);
      var r := UnlistenStep(fired.(handlerRef := Some(h)), handlers, self);
      r.outcome == H.Completed &&
      BridgeCommands(r.state.log) == [BridgeUnlisten(h), BridgeDispose(h)]
  {
    var fired := InvokeStep(Created<P>(callback), payload);
    var tail: seq<Effect<P>> := [BridgeUnlisten(h), RemovedFromManager, BridgeDispose(h)];
    BridgeCommandsAppend(fired.log, tail);
    assert fired.log == [RanCallback(callback, payload)];
    assert BridgeCommands(fired.log) == [] by {
      assert fired.log[..0] == [];
    }
    var u: seq<Effect<P>> := [BridgeUnlisten(h)];
    var ur: seq<Effect<P>> := [BridgeUnlisten(h), RemovedFromManager];
    assert BridgeCommands(u) == u by {
      assert u[..0] == [];
    }
    assert BridgeCommands(ur) == u by {
      assert ur[..1] == u;
    }
    assert BridgeCommands(tail) == [BridgeUnlisten(h), BridgeDispose(h)] by {
      assert tail[..2] == ur;
    }
  }

  // ----- The classes -----

  /** `TauriEventManager`: the list `_eventHandlers`. */
  class TauriEventManager {
    var eventHandlers: seq<object>

    /** The list never holds a handler twice: each is appended once, when it is created. */
    ghost predicate Valid()
      reads this
    {
      Distinct(eventHandlers)
    }

    constructor ()
      ensures eventHandlers == []
      ensures Valid()
    {
      eventHandlers := [];
    }

    /** `RemoveEventHandler`: `List.Remove` on the handler. */
    method RemoveEventHandler(handler: object)
      modifies this
      ensures eventHandlers == RemoveFirst(old(eventHandlers), handler)
      ensures old(Valid()) ==> Valid() && handler !in eventHandlers
    {
      if Distinct(eventHandlers) {
        RemoveFirstOfDistinct(eventHandlers, handler);
      }
      eventHandlers := RemoveFirst(eventHandlers, handler);
    }

    /** `CreateEventHandler(Action)`: one new handler, appended after the existing ones. */
    method CreateEventHandler(callback: Callback) returns (eventHandler: TauriEventHandler)
      modifies this
      ensures fresh(eventHandler) && eventHandler.manager == this
      ensures eventHandler.State() == Created(callback)
      ensures eventHandlers == old(eventHandlers) + [eventHandler]
      ensures eventHandler !in old(eventHandlers)
      ensures old(Valid()) ==> Valid()
    {
      eventHandler := new TauriEventHandler(this, callback);
      if Distinct(eventHandlers) {
        AppendNewKeepsDistinct(eventHandlers, eventHandler);
      }
      eventHandlers := eventHandlers + [eventHandler];
    }

    /** `CreateEventHandler<T>(Action<T>)`. */
    method CreateTypedEventHandler<T>(callback: Callback) returns (eventHandler: TypedTauriEventHandler<T>)
      modifies this
      ensures fresh(eventHandler) && eventHandler.manager == this
      ensures eventHandler.State() == Created(callback)
      ensures eventHandlers == old(eventHandlers) + [eventHandler]
      ensures eventHandler !in old(eventHandlers)
      ensures old(Valid()) ==> Valid()
    {
      eventHandler := new TypedTauriEventHandler<T>(this, callback);
      if Distinct(eventHandlers) {
        AppendNewKeepsDistinct(eventHandlers, eventHandler);
      }
      eventHandlers := eventHandlers + [eventHandler];
    }
  }

  /** `TauriEventHandler`: a handler whose callback takes no payload. */
  class TauriEventHandler {
    const manager: TauriEventManager
    const callback: Callback
    var disposed: bool
    var handlerRef: Option<JsHandle>
    ghost var log: seq<Effect<()>>

    ghost function State(): HandlerState<()>
      reads this
    {
      HandlerState(callback, disposed, handlerRef, log)
    }

    constructor (manager: TauriEventManager, callback: Callback)
      ensures this.manager == manager
      ensures State() == Created(callback)
    {
      this.manager := manager;
      this.callback := callback;
      disposed := false;
      handlerRef := None;
      log := [];
    }

    /** The `HandlerRef` setter. */
    method SetHandlerRef(h: Option<JsHandle>)
      modifies this
      ensures State() == old(State()).(handlerRef := h)
    {
      handlerRef := h;
    }

    /** `InvokeEvent(object? payload)`: the payload is ignored by a callback without parameters. */
    method InvokeEvent()
      modifies this
      ensures State() == InvokeStep(old(State()), ())
    {
      log := log + [RanCallback(callback, ())];
    }

    /** The `Unlisten` function. */
    method Unlisten() returns (outcome: H.Outcome)
      modifies this, manager
      ensures var r := UnlistenStep(old(State()), old(manager.eventHandlers), this);
        State() == r.state && manager.eventHandlers == r.handlers && outcome == r.outcome
      ensures old(manager.Valid()) ==> manager.Valid()
      ensures old(manager.Valid()) && outcome == H.Completed ==> this !in manager.eventHandlers
    {
      if disposed {
        return H.Raised(H.ObjectDisposedException);
      }
      if handlerRef == None {
        return H.Raised(H.NullReferenceException);
      }
      disposed := true;
      log := log + [BridgeUnlisten(handlerRef.value)];
      manager.RemoveEventHandler(this);
      log := log + [RemovedFromManager];
      log := log + [BridgeDispose(handlerRef.value)];
      return H.Completed;
    }
  }

  /** `TauriEventHandler<T>`: a handler whose callback takes a payload of type `T`. */
  class TypedTauriEventHandler<T> {
    const manager: TauriEventManager
    const callback: Callback
    var disposed: bool
    var handlerRef: Option<JsHandle>
    ghost var log: seq<Effect<T>>

    ghost function State(): HandlerState<T>
      reads this
    {
      HandlerState(callback, disposed, handlerRef, log)
    }

    constructor (manager: TauriEventManager, callback: Callback)
      ensures this.manager == manager
      ensures State() == Created(callback)
    {
      this.manager := manager;
      this.callback := callback;
      disposed := false;
      handlerRef := None;
      log := [];
    }

    /** The `HandlerRef` setter. */
    method SetHandlerRef(h: Option<JsHandle>)
      modifies this
      ensures State() == old(State()).(handlerRef := h)
    {
      handlerRef := h;
    }

    /** The typed `InvokeEvent(T payload)`. */
    method InvokeEvent(payload: T)
      modifies this
      ensures State() == InvokeStep(old(State()), payload)
    {
      log := log + [RanCallback(callback, payload)];
    }

    /**
     * The interface's `InvokeEvent(object? payload)`: a payload of type `T` goes
     * to the typed overload; any other raises `InvalidCastException` before the
     * callback runs.
     */
    method InvokeEventUntyped(payload: H.Dynamic<T>) returns (outcome: H.Outcome)
      modifies this
      ensures payload.NotOfType? ==> outcome == H.Raised(H.InvalidCastException) && State() == old(State())
      ensures payload.OfType? ==> outcome == H.Completed && State() == InvokeStep(old(State()), payload.value)
    {
      if payload.OfType? {
        InvokeEvent(payload.value);
        outcome := H.Completed;
      } else {
        outcome := H.Raised(H.InvalidCastException);
      }
    }

    /** The `Unlisten` function. */
    method Unlisten() returns (outcome: H.Outcome)
      modifies this, manager
      ensures var r := UnlistenStep(old(State()), old(manager.eventHandlers), this);
        State() == r.state && manager.eventHandlers == r.handlers && outcome == r.outcome
      ensures old(manager.Valid()) ==> manager.Valid()
      ensures old(manager.Valid()) && outcome == H.Completed ==> this !in manager.eventHandlers
    {
      if disposed {
        return H.Raised(H.ObjectDisposedException);
      }
      if handlerRef == None {
        return H.Raised(H.NullReferenceException);
      }
      disposed := true;
      log := log + [BridgeUnlisten(handlerRef.value)];
      manager.RemoveEventHandler(this);
      log := log + [RemovedFromManager];
      log := log + [BridgeDispose(handlerRef.value)];
      return H.Completed;
    }
  }

  /**
   * A client: two handlers created on one manager; unlistening the first
   * leaves exactly the second in the list, and a second unlisten of the
   * first fails.
   */
  method CreateTwoUnlistenFirstClient(h: JsHandle) returns (first: TauriEventHandler, second: TauriEventHandler, again: H.Outcome)
    ensures first.manager.eventHandlers == [second] && first.manager.Valid()
    ensures first.disposed && !second.disposed
    ensures again == H.Raised(H.ObjectDisposedException)
  {
    var manager := new TauriEventManager();
    first := manager.CreateEventHandler(Callback(0));
    second := manager.CreateEventHandler(Callback(1));
    first.SetHandlerRef(Some(h));
    var outcome := first.Unlisten();
    assert manager.eventHandlers == RemoveFirst([first as object, second], first);
    again := first.Unlisten();
  }
}
