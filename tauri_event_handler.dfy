/**
 * The listener lifecycle of TauriApi/Utilities/TauriEventHandler.cs.
 *
 * A handler is created as a "listen" or a "once" handler, is given the
 * bridge handle (`HandlerRef`) of the JavaScript listener, runs its callback
 * whenever the event fires, and is unregistered at most once. Its bridge
 * effects (running the callback, `unlisten`, disposing the handle) are kept
 * in an append-only log so that their number and order can be stated.
 *
 * The step functions `InvokeStep` and `UnlistenStep` describe one call on a
 * `HandlerState` value; the two classes are proved to follow them, and the
 * lemmas state what the source promises about sequences of calls.
 */
module TauriEventHandlers {
  import opened Bridge

  /** A bridge-visible effect of a handler, with `P` the type of the payload its callback receives. */
  datatype Effect<P> =
    | RanCallback(callback: Callback, payload: P)
    | BridgeUnlisten(handle: JsHandle)
    | BridgeDispose(handle: JsHandle)

  /** The exceptions a handler raises. */
  datatype Exception = ObjectDisposedException | NullReferenceException | InvalidCastException

  /** How a call ends: it completes, or it raises. */
  datatype Outcome = Completed | Raised(exception: Exception)

  /** Everything a handler holds: its callback, the `_once` flag, `_onceTriggered`, `Disposed`, `HandlerRef` and the effects so far. */
  datatype HandlerState<P> = HandlerState(
    callback: Callback,
    once: bool,
    onceTriggered: bool,
    disposed: bool,
    handlerRef: Option<JsHandle>,
    log: seq<Effect<P>>)

  /** The state after a call, and how the call ended. */
  datatype Step<P> = Step(state: HandlerState<P>, outcome: Outcome)

  /** A freshly constructed handler: nothing triggered, not disposed, no handle, no effects. */
  function Created<P>(callback: Callback, once: bool): (s: HandlerState<P>)
    ensures s.callback == callback && s.once == once
    ensures !s.onceTriggered && !s.disposed && s.handlerRef == None && s.log == []
  {
    HandlerState(callback, once, false, false, None, [])
  }

  /** A handler right after the event module stored the bridge's handle in it. */
  function Registered<P>(callback: Callback, once: bool, handle: JsHandle): (s: HandlerState<P>)
    ensures s == Created(callback, once).(handlerRef := Some(handle))
  {
    Created(callback, once).(handlerRef := Some(handle))
  }

  /** The number of bridge `unlisten` commands in a log. */
  function CountUnlisten<P>(log: seq<Effect<P>>): nat
  {
    if log == [] then 0
    else (if log[|log| - 1].BridgeUnlisten? then 1 else 0) + CountUnlisten(log[..|log| - 1])
  }

  /** The number of bridge disposals in a log. */
  function CountDispose<P>(log: seq<Effect<P>>): nat
  {
    if log == [] then 0
    else (if log[|log| - 1].BridgeDispose? then 1 else 0) + CountDispose(log[..|log| - 1])
  }

  lemma {:induction false} CountUnlistenAppend<P>(a: seq<Effect<P>>, b: seq<Effect<P>>)
    ensures CountUnlisten(a + b) == CountUnlisten(a) + CountUnlisten(b)
    decreases |b|
  {
    if b == [] {
      assert a + b == a;
    } else {
      var b' := b[..|b| - 1];
      assert (a + b)[..|a + b| - 1] == a + b';
      CountUnlistenAppend(a, b');
    }
  }

  lemma {:induction false} CountDisposeAppend<P>(a: seq<Effect<P>>, b: seq<Effect<P>>)
    ensures CountDispose(a + b) == CountDispose(a) + CountDispose(b)
    decreases |b|
  {
    if b == [] {
      assert a + b == a;
    } else {
      var b' := b[..|b| - 1];
      assert (a + b)[..|a + b| - 1] == a + b';
      CountDisposeAppend(a, b');
    }
  }

  /** The bridge commands `unlisten` then dispose, for one handle. */
  function ReleaseCommands<P>(h: JsHandle): (cmds: seq<Effect<P>>)
    ensures CountUnlisten(cmds) == 1 && CountDispose(cmds) == 1
  {
    var cmds := [BridgeUnlisten(h), BridgeDispose(h)];
    assert cmds[..1] == [BridgeUnlisten(h)] && cmds[..1][..0] == [];
    assert CountUnlisten(cmds[..1]) == 1 && CountDispose(cmds[..1]) == 0;
    cmds
  }

  /**
   * `InvokeEvent`: run the callback; a once handler then sets `_onceTriggered`,
   * raises if it has no handle, and otherwise sends `unlisten` and disposes the
   * handle. `Disposed` is not consulted.
   */
  function InvokeStep<P>(s: HandlerState<P>, payload: P): (r: Step<P>)
    ensures r.state.callback == s.callback && r.state.once == s.once
    ensures r.state.disposed == s.disposed && r.state.handlerRef == s.handlerRef
    ensures r.state.onceTriggered == (s.onceTriggered || s.once)
    ensures |r.state.log| > |s.log| && r.state.log[..|s.log|] == s.log
    ensures r.state.log[|s.log|] == RanCallback(s.callback, payload)
    ensures r.outcome == (if s.once && s.handlerRef == None then Raised(NullReferenceException) else Completed)
  {
    var ran := s.(log := s.log + [RanCallback(s.callback, payload)]);
    if !s.once then
      Step(ran, Completed)
    else if s.handlerRef == None then
      Step(ran.(onceTriggered := true), Raised(NullReferenceException))
    else
      Step(ran.(onceTriggered := true, log := ran.log + ReleaseCommands(s.handlerRef.value)), Completed)
  }

  /**
   * The `Unlisten` function: raise if already disposed, raise if there is no
   * handle (before `Disposed` is set), otherwise set `Disposed` and, unless the
   * once handler already fired, send `unlisten` and dispose the handle.
   */
  function UnlistenStep<P>(s: HandlerState<P>): (r: Step<P>)
    ensures r.state.callback == s.callback && r.state.once == s.once
    ensures r.state.onceTriggered == s.onceTriggered && r.state.handlerRef == s.handlerRef
    ensures r.outcome == Completed <==> !s.disposed && s.handlerRef != None
    ensures r.outcome == Completed ==> r.state.disposed
    ensures r.outcome != Completed ==> r.state == s
    ensures s.disposed ==> r.outcome == Raised(ObjectDisposedException)
    ensures !s.disposed && s.handlerRef == None ==> r.outcome == Raised(NullReferenceException)
  {
    if s.disposed then
      Step(s, Raised(ObjectDisposedException))
    else if s.handlerRef == None then
      Step(s, Raised(NullReferenceException))
    else if s.onceTriggered then
      Step(s.(disposed := true), Completed)
    else
      Step(s.(disposed := true, log := s.log + ReleaseCommands(s.handlerRef.value)), Completed)
  }

  /** The public `HandlerRef` setter. */
  function SetHandlerRefStep<P>(s: HandlerState<P>, h: Option<JsHandle>): (r: HandlerState<P>)
    ensures r.handlerRef == h && r.(handlerRef := s.handlerRef) == s
  {
    s.(handlerRef := h)
  }

  // ----- Properties of single calls -----

  /** A second `Unlisten` raises `ObjectDisposedException` and changes nothing, so at most one `Unlisten` succeeds. */
  lemma SecondUnlistenFails<P>(s: HandlerState<P>)
    requires UnlistenStep(s).outcome == Completed
    ensures UnlistenStep(UnlistenStep(s).state) == Step(UnlistenStep(s).state, Raised(ObjectDisposedException))
  {
  }

  /** `Unlisten` without a handle raises and leaves `Disposed` false: the check comes before the assignment. */
  lemma UnlistenWithoutHandle<P>(s: HandlerState<P>)
    requires !s.disposed && s.handlerRef == None
    ensures UnlistenStep(s) == Step(s, Raised(NullReferenceException))
    ensures !UnlistenStep(s).state.disposed
  {
  }

  /** `Unlisten` on a once handler that already fired sets `Disposed` but sends nothing over the bridge. */
  lemma UnlistenAfterOnceFired<P>(s: HandlerState<P>)
    requires s.onceTriggered && !s.disposed && s.handlerRef != None
    ensures UnlistenStep(s).outcome == Completed
    ensures UnlistenStep(s).state == s.(disposed := true)
  {
  }

  /** A successful `Unlisten` of a handler that has not fired sends exactly `unlisten` then dispose for its handle. */
  lemma UnlistenReleasesHandle<P>(s: HandlerState<P>)
    requires !s.onceTriggered && !s.disposed && s.handlerRef != None
    ensures UnlistenStep(s).state.log == s.log + [BridgeUnlisten(s.handlerRef.value), BridgeDispose(s.handlerRef.value)]
  {
  }

  /**
   * A once handler with a handle fires in this order: the callback, then
   * `_onceTriggered` is set, then `unlisten`, then dispose.
   */
  lemma OnceFireOrder<P>(s: HandlerState<P>, payload: P)
    requires s.once && s.handlerRef != None
    ensures InvokeStep(s, payload).outcome == Completed
    ensures InvokeStep(s, payload).state.onceTriggered
    ensures InvokeStep(s, payload).state.log ==
      s.log + [RanCallback(s.callback, payload), BridgeUnlisten(s.handlerRef.value), BridgeDispose(s.handlerRef.value)]
  {
  }

  /** A listen handler's `InvokeEvent` only runs the callback: no bridge command, no flag changes. */
  lemma ListenInvokeOnlyRunsCallback<P>(s: HandlerState<P>, payload: P)
    requires !s.once
    ensures InvokeStep(s, payload) == Step(s.(log := s.log + [RanCallback(s.callback, payload)]), Completed)
  {
  }

  /** A once handler that fires without a handle has still run its callback and set `_onceTriggered` when it raises. */
  lemma OnceFireWithoutHandle<P>(s: HandlerState<P>, payload: P)
    requires s.once && s.handlerRef == None
    ensures InvokeStep(s, payload).outcome == Raised(NullReferenceException)
    ensures InvokeStep(s, payload).state.onceTriggered
    ensures InvokeStep(s, payload).state.log == s.log + [RanCallback(s.callback, payload)]
  {
  }

  /** `InvokeEvent` does not look at `Disposed`: a handler that was unlistened still runs its callback if the event reaches it. */
  lemma InvokeIgnoresDisposed<P>(s: HandlerState<P>, payload: P)
    requires s.disposed
    ensures InvokeStep(s, payload).state.disposed
    ensures RanCallback(s.callback, payload) in InvokeStep(s, payload).state.log[|s.log|..]
  {
  }

  /** The handle the event module stores makes the first `Unlisten` succeed: it never meets the missing-handle error. */
  lemma RegisteredUnlistenSucceeds<P>(callback: Callback, once: bool, h: JsHandle)
    ensures UnlistenStep(Registered<P>(callback, once, h)).outcome == Completed
    ensures UnlistenStep(Registered<P>(callback, once, h)).state.log == [BridgeUnlisten(h), BridgeDispose(h)]
  {
  }

  // ----- Properties of sequences of calls -----

  /** Firing a once handler and then unlistening it sends `unlisten` exactly once in total, and disposes the handle once. */
  lemma {:induction false} OnceFireThenUnlistenSendsOneUnlisten<P>(s: HandlerState<P>, payload: P)
    requires s.once && !s.onceTriggered && !s.disposed && s.handlerRef != None
    ensures UnlistenStep(InvokeStep(s, payload).state).outcome == Completed
    ensures CountUnlisten(UnlistenStep(InvokeStep(s, payload).state).state.log) == CountUnlisten(s.log) + 1
    ensures CountDispose(UnlistenStep(InvokeStep(s, payload).state).state.log) == CountDispose(s.log) + 1
  {
    var h := s.handlerRef.value;
    var fired := InvokeStep(s, payload).state;
    var tail: seq<Effect<P>> := [RanCallback(s.callback, payload), BridgeUnlisten(h), BridgeDispose(h)];
    assert fired.log == s.log + tail;
    assert UnlistenStep(fired).state == fired.(disposed := true);
    assert tail == [RanCallback(s.callback, payload)] + ReleaseCommands(h);
    CountUnlistenAppend(s.log, tail);
    CountUnlistenAppend([RanCallback(s.callback, payload)], ReleaseCommands<P>(h));
    CountDisposeAppend(s.log, tail);
    CountDisposeAppend([RanCallback(s.callback, payload)], ReleaseCommands<P>(h));
  }

  /** A call a client makes on a handler. */
  datatype Call<P> = Fire(payload: P) | UnlistenCall | SetHandlerRef(handle: Option<JsHandle>)

  /** The state after one call, whether it completed or raised. */
  function Apply<P>(s: HandlerState<P>, c: Call<P>): HandlerState<P>
  {
    match c
    case Fire(p) => InvokeStep(s, p).state
    case UnlistenCall => UnlistenStep(s).state
    case SetHandlerRef(h) => SetHandlerRefStep(s, h)
  }

  /** The state after a sequence of calls; a raised exception is caught by the caller and the next call proceeds. */
  function Run<P>(s: HandlerState<P>, calls: seq<Call<P>>): HandlerState<P>
    decreases |calls|
  {
    if calls == [] then s else Run(Apply(s, calls[0]), calls[1..])
  }

  /**
   * The invariant of a listen handler: it never counts as triggered, and it has
   * sent `unlisten` exactly once if it is disposed and never otherwise.
   */
  ghost predicate ListenHandlerInvariant<P>(s: HandlerState<P>)
  {
    !s.once && !s.onceTriggered && CountUnlisten(s.log) == (if s.disposed then 1 else 0)
      && CountDispose(s.log) == CountUnlisten(s.log)
  }

  lemma ListenHandlerInvariantHoldsInitially<P>(callback: Callback)
    ensures ListenHandlerInvariant(Created<P>(callback, false))
  {
  }

  /** Every call preserves the listen handler's invariant. */
  lemma {:induction false} ListenHandlerInvariantPreserved<P>(s: HandlerState<P>, c: Call<P>)
    requires ListenHandlerInvariant(s)
    ensures ListenHandlerInvariant(Apply(s, c))
  {
    match c
    case Fire(p) =>
      CountUnlistenAppend(s.log, [RanCallback(s.callback, p)]);
      CountDisposeAppend(s.log, [RanCallback(s.callback, p)]);
    case UnlistenCall =>
      if !s.disposed && s.handlerRef != None {
        CountUnlistenAppend(s.log, ReleaseCommands<P>(s.handlerRef.value));
        CountDisposeAppend(s.log, ReleaseCommands<P>(s.handlerRef.value));
      }
    case SetHandlerRef(h) =>
  }

  /**
   * Whatever calls a client makes on a listen handler — firing, unlistening,
   * replacing its handle — the bridge receives at most one `unlisten`.
   */
  lemma {:induction false} ListenHandlerUnlistensAtMostOnce<P>(s: HandlerState<P>, calls: seq<Call<P>>)
    requires ListenHandlerInvariant(s)
    ensures ListenHandlerInvariant(Run(s, calls))
    ensures CountUnlisten(Run(s, calls).log) <= 1
    decreases |calls|
  {
    if calls != [] {
      ListenHandlerInvariantPreserved(s, calls[0]);
      ListenHandlerUnlistensAtMostOnce(Apply(s, calls[0]), calls[1..]);
    }
  }

  // ----- The two handler classes -----

  /** `TauriEventHandler`: a handler whose callback takes no payload. */
  class TauriEventHandler {
    const callback: Callback
    const once: bool
    var onceTriggered: bool
    var disposed: bool
    var handlerRef: Option<JsHandle>
    ghost var log: seq<Effect<()>>

    ghost function State(): HandlerState<()>
      reads this
    {
      HandlerState(callback, once, onceTriggered, disposed, handlerRef, log)
    }

    constructor (callback: Callback, once: bool)
      ensures State() == Created(callback, once)
    {
      this.callback := callback;
      this.once := once;
      onceTriggered := false;
      disposed := false;
      handlerRef := None;
      log := [];
    }

    /** The `HandlerRef` setter. */
    method SetHandlerRef(h: Option<JsHandle>)
      modifies this
      ensures State() == SetHandlerRefStep(old(State()), h)
    {
      handlerRef := h;
    }

    /** `InvokeEvent(object? payload)`; the payload is ignored by a callback without parameters. */
    method InvokeEvent() returns (outcome: Outcome)
      modifies this
      ensures State() == InvokeStep(old(State()), ()).state
      ensures outcome == InvokeStep(old(State()), ()).outcome
    {
      log := log + [RanCallback(callback, ())];
      if once {
        onceTriggered := true;
        if handlerRef == None {
          return Raised(NullReferenceException);
        }
        log := log + [BridgeUnlisten(handlerRef.value)];
        log := log + [BridgeDispose(handlerRef.value)];
      }
      return Completed;
    }

    /** The `Unlisten` function. */
    method Unlisten() returns (outcome: Outcome)
      modifies this
      ensures State() == UnlistenStep(old(State())).state
      ensures outcome == UnlistenStep(old(State())).outcome
    {
      if disposed {
        return Raised(ObjectDisposedException);
      }
      if handlerRef == None {
        return Raised(NullReferenceException);
      }
      disposed := true;
      if !onceTriggered {
        log := log + [BridgeUnlisten(handlerRef.value)];
        log := log + [BridgeDispose(handlerRef.value)];
      }
      return Completed;
    }
  }

  /** The runtime type test `payload is T` of a value passed as `object?`: `null` and values of other types fail it. */
  datatype Dynamic<T> = OfType(value: T) | NotOfType

  /** `TauriEventHandler<T>`: a handler whose callback takes a payload of type `T`. */
  class TypedTauriEventHandler<T> {
    const callback: Callback
    const once: bool
    var onceTriggered: bool
    var disposed: bool
    var handlerRef: Option<JsHandle>
    ghost var log: seq<Effect<T>>

    ghost function State(): HandlerState<T>
      reads this
    {
      HandlerState(callback, once, onceTriggered, disposed, handlerRef, log)
    }

    constructor (callback: Callback, once: bool)
      ensures State() == Created(callback, once)
    {
      this.callback := callback;
      this.once := once;
      onceTriggered := false;
      disposed := false;
      handlerRef := None;
      log := [];
    }

    /** The `HandlerRef` setter. */
    method SetHandlerRef(h: Option<JsHandle>)
      modifies this
      ensures State() == SetHandlerRefStep(old(State()), h)
    {
      handlerRef := h;
    }

    /** The typed `InvokeEvent(T payload)`. */
    method InvokeEvent(payload: T) returns (outcome: Outcome)
      modifies this
      ensures State() == InvokeStep(old(State()), payload).state
      ensures outcome == InvokeStep(old(State()), payload).outcome
    {
      log := log + [RanCallback(callback, payload)];
      if once {
        onceTriggered := true;
        if handlerRef == None {
          return Raised(NullReferenceException);
        }
        log := log + [BridgeUnlisten(handlerRef.value)];
        log := log + [BridgeDispose(handlerRef.value)];
      }
      return Completed;
    }

    /**
     * The interface's `InvokeEvent(object? payload)`: a payload of type `T` goes
     * to the typed overload; any other raises `InvalidCastException` before the
     * callback runs.
     */
    method InvokeEventUntyped(payload: Dynamic<T>) returns (outcome: Outcome)
      modifies this
      ensures payload.NotOfType? ==> outcome == Raised(InvalidCastException) && State() == old(State())
      ensures payload.OfType? ==>
        State() == InvokeStep(old(State()), payload.value).state &&
        outcome == InvokeStep(old(State()), payload.value).outcome
    {
      if payload.OfType? {
        outcome := InvokeEvent(payload.value);
      } else {
        outcome := Raised(InvalidCastException);
      }
    }

    /** The `Unlisten` function. */
    method Unlisten() returns (outcome: Outcome)
      modifies this
      ensures State() == UnlistenStep(old(State())).state
      ensures outcome == UnlistenStep(old(State())).outcome
    {
      if disposed {
        return Raised(ObjectDisposedException);
      }
      if handlerRef == None {
        return Raised(NullReferenceException);
      }
      disposed := true;
      if !onceTriggered {
        log := log + [BridgeUnlisten(handlerRef.value)];
        log := log + [BridgeDispose(handlerRef.value)];
      }
      return Completed;
    }
  }

  /** A client: a once handler that fires and is then unlistened sends `unlisten` exactly once. */
  method OnceThenUnlistenClient(callback: Callback, h: JsHandle, payload: int) returns (handler: TypedTauriEventHandler<int>)
    ensures fresh(handler)
    ensures handler.disposed && handler.onceTriggered
    ensures CountUnlisten(handler.log) == 1 && CountDispose(handler.log) == 1
  {
    handler := new TypedTauriEventHandler(callback, true);
    handler.SetHandlerRef(Some(h));
    var fired := handler.InvokeEvent(payload);
    var unlistened := handler.Unlisten();
    OnceFireThenUnlistenSendsOneUnlisten(Registered<int>(callback, true, h), payload);
  }
}
