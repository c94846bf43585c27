/**
 * TauriApi/Modules/Objects/WebviewWindow.cs: a webview window's own `Listen`
 * and `Once`, which scope the event module's registration to the webview
 * window's label.
 */
module WebviewWindowModel {
  import opened Bridge
  import H = TauriEventHandlers
  import EV = ModulesEventValue
  import M = TauriEventModuleModel
  import W = WindowModel

  /** The options every registration of a webview window carries: target kind `WebviewWindow`, its label. */
  function WebviewWindowScope(windowLabel: string): (o: EV.EventOptions)
    ensures o.target.Some? && o.target.value.kind == "WebviewWindow"
    ensures o.target.value.targetLabel == Some(windowLabel)
    ensures o == EV.NewEventOptions(EV.WebviewWindow(windowLabel))
  {
    EV.NewEventOptions(EV.WebviewWindow(windowLabel))
  }

  /**
   * Registrations of different webview windows carry different options, and
   * none of them is a plain window's registration, even under the same label.
   */
  lemma WebviewWindowScopesDistinct(a: string, b: string)
    ensures WebviewWindowScope(a) == WebviewWindowScope(b) <==> a == b
    ensures WebviewWindowScope(a) != W.WindowScope(b)
  {
    EV.FactoryKindsDistinct(a);
  }

  /**
   * `TauriWebviewWindow`. The bridge returns the same `label` whenever it is
   * read, so the model keeps it as a constant of the object.
   */
  class TauriWebviewWindow {
    const windowLabel: string
    const events: M.TauriEventModule

    constructor (windowLabel: string, events: M.TauriEventModule)
      ensures this.windowLabel == windowLabel && this.events == events
    {
      this.windowLabel := windowLabel;
      this.events := events;
    }

    /** `Listen<TR>(string, Func<TR, Task>)`. */
    method ListenTyped<TR>(eventName: string, callback: Callback, jsHandler: JsHandle)
      returns (unlisten: H.TypedTauriEventHandler<TR>)
      modifies events
      ensures fresh(unlisten)
      ensures unlisten.State() == H.Registered(callback, false, jsHandler)
      ensures events.calls == old(events.calls) + [M.ListenEvent(eventName, Some(WebviewWindowScope(windowLabel)))]
    {
      var eventOption := EV.NewEventOptions(EV.WebviewWindow(windowLabel));
      unlisten := events.ListenTyped<TR>(eventName, callback, Some(eventOption), jsHandler);
    }

    /** `Listen(string, Func<Task>)`. */
    method Listen(eventName: string, callback: Callback, jsHandler: JsHandle)
      returns (unlisten: H.TauriEventHandler)
      modifies events
      ensures fresh(unlisten)
      ensures unlisten.State() == H.Registered(callback, false, jsHandler)
      ensures events.calls == old(events.calls) + [M.ListenEvent(eventName, Some(WebviewWindowScope(windowLabel)))]
    {
      var eventOption := EV.NewEventOptions(EV.WebviewWindow(windowLabel));
      unlisten := events.Listen(eventName, callback, Some(eventOption), jsHandler);
    }

    /** `Once<TR>(string, Func<TR, Task>)`. */
    method OnceTyped<TR>(eventName: string, callback: Callback, jsHandler: JsHandle)
      returns (unlisten: H.TypedTauriEventHandler<TR>)
      modifies events
      ensures fresh(unlisten)
      ensures unlisten.State() == H.Registered(callback, true, jsHandler)
      ensures events.calls == old(events.calls) + [M.OnceEvent(eventName, Some(WebviewWindowScope(windowLabel)))]
    {
      var eventOption := EV.NewEventOptions(EV.WebviewWindow(windowLabel));
      unlisten := events.OnceTyped<TR>(eventName, callback, Some(eventOption), jsHandler);
    }

    /** `Once(string, Func<Task>)`. */
    method Once(eventName: string, callback: Callback, jsHandler: JsHandle)
      returns (unlisten: H.TauriEventHandler)
      modifies events
      ensures fresh(unlisten)
      ensures unlisten.State() == H.Registered(callback, true, jsHandler)
      ensures events.calls == old(events.calls) + [M.OnceEvent(eventName, Some(WebviewWindowScope(windowLabel)))]
    {
      var eventOption := EV.NewEventOptions(EV.WebviewWindow(windowLabel));
      unlisten := events.Once(eventName, callback, Some(eventOption), jsHandler);
    }
  }
}
