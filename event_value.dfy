/**
 * The event vocabulary of the root `TauriApi` snapshot (TauriApi/EventValue.cs):
 * the same built-in event-name table, an `EventTarget` hierarchy of sealed
 * subclasses whose constructors fix the kind, and `EventOptions`.
 */
module EventValue {
  import opened Bridge
  import M = ModulesEventValue

  /** Tauri's built-in events, in declaration order. */
  datatype TauriEventName =
    | DragDrop | DragEnter | DragLeave | DragOver
    | WebviewCreated
    | WindowBlur | WindowCloseRequested | WindowCreated | WindowDestroyed
    | WindowFocus | WindowMove | WindowResize | WindowScaleFactorChange
    | WindowThemeChanged

  /** The enum's underlying value: its position in the declaration. */
  function Ordinal(n: TauriEventName): (k: nat)
    ensures k < 14
  {
    match n
    case DragDrop => 0
    case DragEnter => 1
    case DragLeave => 2
    case DragOver => 3
    case WebviewCreated => 4
    case WindowBlur => 5
    case WindowCloseRequested => 6
    case WindowCreated => 7
    case WindowDestroyed => 8
    case WindowFocus => 9
    case WindowMove => 10
    case WindowResize => 11
    case WindowScaleFactorChange => 12
    case WindowThemeChanged => 13
  }

  /** The `[TauriEventName(...)]` attribute on each member; every member carries one. */
  function EventNameAttribute(n: TauriEventName): (a: Option<string>)
    ensures a.Some?
  {
    match n
    case DragDrop => Some(M.TauriScheme + "drag-drop")
    case DragEnter => Some(M.TauriScheme + "drag-enter")
    case DragLeave => Some(M.TauriScheme + "drag-leave")
    case DragOver => Some(M.TauriScheme + "drag-over")
    case WebviewCreated => Some(M.TauriScheme + "webview-created")
    case WindowBlur => Some(M.TauriScheme + "blur")
    case WindowCloseRequested => Some(M.TauriScheme + "close-requested")
    case WindowCreated => Some(M.TauriScheme + "window-created")
    case WindowDestroyed => Some(M.TauriScheme + "destroyed")
    case WindowFocus => Some(M.TauriScheme + "focus")
    case WindowMove => Some(M.TauriScheme + "move")
    case WindowResize => Some(M.TauriScheme + "resize")
    case WindowScaleFactorChange => Some(M.TauriScheme + "scale-change")
    case WindowThemeChanged => Some(M.TauriScheme + "theme-changed")
  }

  /** `GetTauriEventName`: the attribute's event name; `attribute!` never fails. */
  function GetTauriEventName(n: TauriEventName): (s: string)
    ensures |s| > |M.TauriScheme| && s[..|M.TauriScheme|] == M.TauriScheme
    ensures Some(s) == EventNameAttribute(n)
  {
    EventNameAttribute(n).value
  }

  /** No two members share an event name. */
  lemma GetTauriEventNameInjective(a: TauriEventName, b: TauriEventName)
    ensures GetTauriEventName(a) == GetTauriEventName(b) <==> a == b
  {
  }

  /** The member of the other snapshot's enum with the same name. */
  function ToModulesName(n: TauriEventName): M.TauriEventName
  {
    match n
    case DragDrop => M.DragDrop
    case DragEnter => M.DragEnter
    case DragLeave => M.DragLeave
    case DragOver => M.DragOver
    case WebviewCreated => M.WebviewCreated
    case WindowBlur => M.WindowBlur
    case WindowCloseRequested => M.WindowCloseRequested
    case WindowCreated => M.WindowCreated
    case WindowDestroyed => M.WindowDestroyed
    case WindowFocus => M.WindowFocus
    case WindowMove => M.WindowMove
    case WindowResize => M.WindowResize
    case WindowScaleFactorChange => M.WindowScaleFactorChange
    case WindowThemeChanged => M.WindowThemeChanged
  }

  /**
   * The two snapshots declare the same table: the members pair up one to one,
   * in the same position, with the same event name.
   */
  lemma SameTableAsModules(n: TauriEventName)
    ensures Ordinal(n) == M.Ordinal(ToModulesName(n))
    ensures GetTauriEventName(n) == M.GetTauriEventName(ToModulesName(n))
  {
  }

  /** The pairing is by position: a member corresponds to exactly the other snapshot's member at its position. */
  lemma ToModulesNameByOrdinal(n: TauriEventName, m: M.TauriEventName)
    ensures ToModulesName(n) == m <==> Ordinal(n) == M.Ordinal(m)
  {
  }

  /** The sealed subclasses of the abstract `EventTarget`; each constructor fixes the kind. */
  datatype EventTarget =
    | Any
    | AnyLabel(anyLabel: string)
    | App
    | Window(windowLabel: string)
    | Webview(webviewLabel: string)
    | WebviewWindow(webviewWindowLabel: string)
  {
    /** The `Kind` string the subclass passes to the base constructor. */
    function Kind(): string
    {
      match this
      case Any => "Any"
      case AnyLabel(_) => "AnyLabel"
      case App => "App"
      case Window(_) => "Window"
      case Webview(_) => "Webview"
      case WebviewWindow(_) => "WebviewWindow"
    }

    /** The `Label` property of the labelled subclasses. */
    function Label(): Option<string>
    {
      match this
      case AnyLabel(l) => Some(l)
      case Window(l) => Some(l)
      case Webview(l) => Some(l)
      case WebviewWindow(l) => Some(l)
      case _ => None
    }
  }

  /** The implicit conversion `string -> AnyLabel`. */
  function FromLabel(text: string): (t: EventTarget)
    ensures t.AnyLabel? && t.Kind() == "AnyLabel" && t.Label() == Some(text)
  {
    AnyLabel(text)
  }

  /** Each subclass fixes its own kind string, and labelled ones keep the constructor's label. */
  lemma KindsAndLabels(text: string)
    ensures Any.Kind() == "Any" && App.Kind() == "App" && Any.Label() == None && App.Label() == None
    ensures AnyLabel(text).Kind() == "AnyLabel" && AnyLabel(text).Label() == Some(text)
    ensures Window(text).Kind() == "Window" && Window(text).Label() == Some(text)
    ensures Webview(text).Kind() == "Webview" && Webview(text).Label() == Some(text)
    ensures WebviewWindow(text).Kind() == "WebviewWindow" && WebviewWindow(text).Label() == Some(text)
  {
  }

  /** The kind and the label together determine the target: two targets agree on both exactly when they are equal as values (the C# subclasses compare by reference). */
  lemma KindAndLabelDetermineTarget(a: EventTarget, b: EventTarget)
    ensures (a.Kind() == b.Kind() && a.Label() == b.Label()) <==> a == b
  {
  }

  /**
   * The value the other snapshot uses for the same target: the subclass's
   * kind and label become the `Kind` and `Label` properties.
   */
  function ToModulesTarget(t: EventTarget): (r: M.EventTarget)
    ensures r.kind == t.Kind() && r.targetLabel == t.Label()
  {
    match t
    case Any => M.Any()
    case AnyLabel(l) => M.AnyLabel(l)
    case App => M.App()
    case Window(l) => M.Window(l)
    case Webview(l) => M.Webview(l)
    case WebviewWindow(l) => M.WebviewWindow(l)
  }

  /** The correspondence is one to one and lands in the values the other snapshot's factories build. */
  lemma ToModulesTargetInjective(a: EventTarget, b: EventTarget)
    ensures ToModulesTarget(a) == ToModulesTarget(b) <==> a == b
    ensures M.IsFactoryTarget(ToModulesTarget(a))
  {
    KindAndLabelDetermineTarget(a, b);
    match a
    case AnyLabel(l) => M.FactoriesAreFactoryTargets(l);
    case Window(l) => M.FactoriesAreFactoryTargets(l);
    case Webview(l) => M.FactoriesAreFactoryTargets(l);
    case WebviewWindow(l) => M.FactoriesAreFactoryTargets(l);
    case _ => M.FactoriesAreFactoryTargets("");
  }

  /** `EventOptions`: the target to listen to. */
  datatype EventOptions = EventOptions(target: Option<EventTarget>)

  /** The `EventOptions(EventTarget target)` constructor. */
  function NewEventOptions(target: EventTarget): (o: EventOptions)
    ensures o.target == Some(target)
  {
    EventOptions(Some(target))
  }
}
