/**
 * Listener registration of TauriApi/Modules/TauriEventModule.cs.
 *
 * Each string overload creates a handler (`once` false for `Listen`, true for
 * `Once`), asks the bridge to register it for the event with the given
 * options, stores the returned JavaScript handle in the handler's
 * `HandlerRef`, and returns the handler's `Unlisten`. The returned handler
 * object stands for that `UnlistenFn`. The enum overloads translate the
 * built-in event to its name and call the string overload.
 *
 * The bridge calls are kept in the ghost log `calls`; the handle the bridge
 * returns is a parameter, since it comes from JavaScript.
 */
module TauriEventModuleModel {
  import opened Bridge
  import H = TauriEventHandlers
  import EV = ModulesEventValue

  /** A registration request sent over the bridge, with the event name and options exactly as given. */
  datatype BridgeCall =
    | ListenEvent(eventName: string, options: Option<EV.EventOptions>)
    | OnceEvent(eventName: string, options: Option<EV.EventOptions>)

  class TauriEventModule {
    ghost var calls: seq<BridgeCall>

    constructor ()
      ensures calls == []
    {
      calls := [];
    }

    /** `Listen(string, Func<Task>, EventOptions?)`. */
    method Listen(eventName: string, callback: Callback, options: Option<EV.EventOptions>, jsHandler: JsHandle)
      returns (unlisten: H.TauriEventHandler)
      modifies this
      ensures fresh(unlisten)
      ensures unlisten.State() == H.Registered(callback, false, jsHandler)
      ensures calls == old(calls) + [ListenEvent(eventName, options)]
    {
      var eventHandler := new H.TauriEventHandler(callback, false);
      calls := calls + [ListenEvent(eventName, options)];
      eventHandler.SetHandlerRef(Some(jsHandler));
      return eventHandler;
    }

    /** `Listen<TR>(string, Func<TR, Task>, EventOptions?)`. */
    method ListenTyped<TR>(eventName: string, callback: Callback, options: Option<EV.EventOptions>, jsHandler: JsHandle)
      returns (unlisten: H.TypedTauriEventHandler<TR>)
      modifies this
      ensures fresh(unlisten)
      ensures unlisten.State() == H.Registered(callback, false, jsHandler)
      ensures calls == old(calls) + [ListenEvent(eventName, options)]
    {
      var eventHandler := new H.TypedTauriEventHandler<TR>(callback, false);
      calls := calls + [ListenEvent(eventName, options)];
      eventHandler.SetHandlerRef(Some(jsHandler));
      return eventHandler;
    }

    /** `Once(string, Func<Task>, EventOptions?)`. */
    method Once(eventName: string, callback: Callback, options: Option<EV.EventOptions>, jsHandler: JsHandle)
      returns (unlisten: H.TauriEventHandler)
      modifies this
      ensures fresh(unlisten)
      ensures unlisten.State() == H.Registered(callback, true, jsHandler)
      ensures calls == old(calls) + [OnceEvent(eventName, options)]
    {
      var eventHandler := new H.TauriEventHandler(callback, true);
      calls := calls + [OnceEvent(eventName, options)];
      eventHandler.SetHandlerRef(Some(jsHandler));
      return eventHandler;
    }

    /** `Once<TR>(string, Func<TR, Task>, EventOptions?)`. */
    method OnceTyped<TR>(eventName: string, callback: Callback, options: Option<EV.EventOptions>, jsHandler: JsHandle)
      returns (unlisten: H.TypedTauriEventHandler<TR>)
      modifies this
      ensures fresh(unlisten)
      ensures unlisten.State() == H.Registered(callback, true, jsHandler)
      ensures calls == old(calls) + [OnceEvent(eventName, options)]
    {
      var eventHandler := new H.TypedTauriEventHandler<TR>(callback, true);
      calls := calls + [OnceEvent(eventName, options)];
      eventHandler.SetHandlerRef(Some(jsHandler));
      return eventHandler;
    }

    /** `Listen(TauriEventName, Func<Task>, EventOptions?)`: the string overload on the built-in event's name. */
    method ListenBuiltin(eventName: EV.TauriEventName, callback: Callback, options: Option<EV.EventOptions>, jsHandler: JsHandle)
      returns (unlisten: H.TauriEventHandler)
      modifies this
      ensures fresh(unlisten)
      ensures unlisten.State() == H.Registered(callback, false, jsHandler)
      ensures calls == old(calls) + [ListenEvent(EV.GetTauriEventName(eventName), options)]
    {
      var eventNameString := EV.GetTauriEventName(eventName);
      unlisten := Listen(eventNameString, callback, options, jsHandler);
    }

    /** `Listen<TR>(TauriEventName, Func<TR, Task>, EventOptions?)`. */
    method ListenBuiltinTyped<TR>(eventName: EV.TauriEventName, callback: Callback, options: Option<EV.EventOptions>, jsHandler: JsHandle)
      returns (unlisten: H.TypedTauriEventHandler<TR>)
      modifies this
      ensures fresh(unlisten)
      ensures unlisten.State() == H.Registered(callback, false, jsHandler)
      ensures calls == old(calls) + [ListenEvent(EV.GetTauriEventName(eventName), options)]
    {
      var eventNameString := EV.GetTauriEventName(eventName);
      unlisten := ListenTyped<TR>(eventNameString, callback, options, jsHandler);
    }

    /** `Once(TauriEventName, Func<Task>, EventOptions?)`. */
    method OnceBuiltin(eventName: EV.TauriEventName, callback: Callback, options: Option<EV.EventOptions>, jsHandler: JsHandle)
      returns (unlisten: H.TauriEventHandler)
      modifies this
      ensures fresh(unlisten)
      ensures unlisten.State() == H.Registered(callback, true, jsHandler)
      ensures calls == old(calls) + [OnceEvent(EV.GetTauriEventName(eventName), options)]
    {
      var eventNameString := EV.GetTauriEventName(eventName);
      unlisten := Once(eventNameString, callback, options, jsHandler);
    }

    /** `Once<TR>(TauriEventName, Func<TR, Task>, EventOptions?)`. */
    method OnceBuiltinTyped<TR>(eventName: EV.TauriEventName, callback: Callback, options: Option<EV.EventOptions>, jsHandler: JsHandle)
      returns (unlisten: H.TypedTauriEventHandler<TR>)
      modifies this
      ensures fresh(unlisten)
      ensures unlisten.State() == H.Registered(callback, true, jsHandler)
      ensures calls == old(calls) + [OnceEvent(EV.GetTauriEventName(eventName), options)]
    {
      var eventNameString := EV.GetTauriEventName(eventName);
      unlisten := OnceTyped<TR>(eventNameString, callback, options, jsHandler);
    }
  }

  /**
   * A client: the function `Listen` returns can be called at once and
   * succeeds, sending `unlisten` and dispose for the bridge's handle.
   */
  method ListenThenUnlistenClient(events: TauriEventModule, eventName: string, callback: Callback, h: JsHandle)
    returns (outcome: H.Outcome, unlisten: H.TauriEventHandler)
    modifies events
    ensures outcome == H.Completed
    ensures fresh(unlisten) && unlisten.disposed
    ensures unlisten.log == [H.BridgeUnlisten(h), H.BridgeDispose(h)]
  {
    unlisten := events.Listen(eventName, callback, None, h);
    H.RegisteredUnlistenSucceeds<()>(callback, false, h);
    outcome := unlisten.Unlisten();
  }
}
