/**
 * The event vocabulary of the `TauriApi.Modules` snapshot
 * (TauriApi/Modules/Objects/EventValue.cs): the table of Tauri's built-in
 * event names, the `EventTarget` value with its static factories, and
 * `EventOptions`.
 */
module ModulesEventValue {
  import opened Bridge

  /** Tauri's built-in events, in declaration order. */
  datatype TauriEventName =
    | DragDrop | DragEnter | DragLeave | DragOver
    | WebviewCreated
    | WindowBlur | WindowCloseRequested | WindowCreated | WindowDestroyed
    | WindowFocus | WindowMove | WindowResize | WindowScaleFactorChange
    | WindowThemeChanged

  /** The enum's underlying value: its position in the declaration. */
  function Ordinal(n: TauriEventName): (k: nat)
    ensures k < 14
  {
    match n
    case DragDrop => 0
    case DragEnter => 1
    case DragLeave => 2
    case DragOver => 3
    case WebviewCreated => 4
    case WindowBlur => 5
    case WindowCloseRequested => 6
    case WindowCreated => 7
    case WindowDestroyed => 8
    case WindowFocus => 9
    case WindowMove => 10
    case WindowResize => 11
    case WindowScaleFactorChange => 12
    case WindowThemeChanged => 13
  }

  /**
   * The `[TauriEventName(...)]` attribute on each member, as reflection finds
   * it (`None` would be a member without the attribute). Every member carries one.
   */
  function EventNameAttribute(n: TauriEventName): (a: Option<string>)
    ensures a.Some?
  {
    match n
    case DragDrop => Some(TauriScheme + "drag-drop")
    case DragEnter => Some(TauriScheme + "drag-enter")
    case DragLeave => Some(TauriScheme + "drag-leave")
    case DragOver => Some(TauriScheme + "drag-over")
    case WebviewCreated => Some(TauriScheme + "webview-created")
    case WindowBlur => Some(TauriScheme + "blur")
    case WindowCloseRequested => Some(TauriScheme + "close-requested")
    case WindowCreated => Some(TauriScheme + "window-created")
    case WindowDestroyed => Some(TauriScheme + "destroyed")
    case WindowFocus => Some(TauriScheme + "focus")
    case WindowMove => Some(TauriScheme + "move")
    case WindowResize => Some(TauriScheme + "resize")
    case WindowScaleFactorChange => Some(TauriScheme + "scale-change")
    case WindowThemeChanged => Some(TauriScheme + "theme-changed")
  }

  /** The prefix every built-in event name carries. */
  const TauriScheme: string := "tauri://"

  /**
   * `GetTauriEventName`: the attribute's event name. The null-forgiving
   * dereference `attribute!` never fails, since every member has the attribute.
   */
  function GetTauriEventName(n: TauriEventName): (s: string)
    ensures |s| > |TauriScheme| && s[..|TauriScheme|] == TauriScheme
    ensures Some(s) == EventNameAttribute(n)
  {
    EventNameAttribute(n).value
  }

  /** No two members share an event name. */
  lemma GetTauriEventNameInjective(a: TauriEventName, b: TauriEventName)
    ensures GetTauriEventName(a) == GetTauriEventName(b) <==> a == b
  {
  }

  /**
   * `EventTarget`: a target kind and an optional label. Its constructor is
   * private, so every value a caller can hold comes from a factory below.
   */
  datatype EventTarget = EventTarget(kind: string, targetLabel: Option<string>)

  function App(): (t: EventTarget)
    ensures t.kind == "App" && t.targetLabel == None
  {
    EventTarget("App", None)
  }

  function Any(): (t: EventTarget)
    ensures t.kind == "Any" && t.targetLabel == None
  {
    EventTarget("Any", None)
  }

  function AnyLabel(text: string): (t: EventTarget)
    ensures t.kind == "AnyLabel" && t.targetLabel == Some(text)
  {
    EventTarget("AnyLabel", Some(text))
  }

  function Window(text: string): (t: EventTarget)
    ensures t.kind == "Window" && t.targetLabel == Some(text)
  {
    EventTarget("Window", Some(text))
  }

  function Webview(text: string): (t: EventTarget)
    ensures t.kind == "Webview" && t.targetLabel == Some(text)
  {
    EventTarget("Webview", Some(text))
  }

  function WebviewWindow(text: string): (t: EventTarget)
    ensures t.kind == "WebviewWindow" && t.targetLabel == Some(text)
  {
    EventTarget("WebviewWindow", Some(text))
  }

  /** The implicit conversion `string -> EventTarget`. */
  function FromLabel(text: string): (t: EventTarget)
    ensures t == AnyLabel(text)
  {
    EventTarget("AnyLabel", Some(text))
  }

  /** The targets the factories can build. */
  ghost predicate IsFactoryTarget(t: EventTarget)
  {
    t == App() || t == Any() ||
    exists l :: t == AnyLabel(l) || t == Window(l) || t == Webview(l) || t == WebviewWindow(l)
  }

  /** The six factory kinds, in the order of their declaration. */
  const FactoryKinds: seq<string> := ["App", "Any", "AnyLabel", "Window", "Webview", "WebviewWindow"]

  /** The six factories' kinds are pairwise distinct, so the kind tells the factory apart. */
  lemma FactoryKindsDistinct(text: string)
    ensures FactoryKinds == [App().kind, Any().kind, AnyLabel(text).kind, Window(text).kind,
                             Webview(text).kind, WebviewWindow(text).kind]
    ensures forall i, j :: 0 <= i < j < |FactoryKinds| ==> FactoryKinds[i] != FactoryKinds[j]
  {
  }

  /** A labelled factory's result determines the label it was given, and a labelled target never equals an unlabelled one. */
  lemma LabelledFactoriesKeepLabel(l1: string, l2: string)
    ensures AnyLabel(l1) == AnyLabel(l2) <==> l1 == l2
    ensures Window(l1) == Window(l2) <==> l1 == l2
    ensures Webview(l1) == Webview(l2) <==> l1 == l2
    ensures WebviewWindow(l1) == WebviewWindow(l2) <==> l1 == l2
    ensures AnyLabel(l1) != Window(l2) && Window(l1) != Webview(l2) && Webview(l1) != WebviewWindow(l2)
    ensures AnyLabel(l1) != App() && AnyLabel(l1) != Any()
  {
  }

  /** Every factory result, including the implicit conversion, is a value a factory builds. */
  lemma FactoriesAreFactoryTargets(text: string)
    ensures IsFactoryTarget(App()) && IsFactoryTarget(Any()) && IsFactoryTarget(FromLabel(text))
    ensures IsFactoryTarget(Window(text)) && IsFactoryTarget(Webview(text))
    ensures IsFactoryTarget(WebviewWindow(text))
  {
    assert FromLabel(text) == AnyLabel(text);
  }

  /** `EventOptions`: the target to listen to (`null` when no options target was set). */
  datatype EventOptions = EventOptions(target: Option<EventTarget>)

  /** The `EventOptions(EventTarget target)` constructor. */
  function NewEventOptions(target: EventTarget): (o: EventOptions)
    ensures o.target == Some(target)
  {
    EventOptions(Some(target))
  }
}
