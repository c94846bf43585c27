/**
 * TauriApi/Modules/Objects/Window.cs: a window's own `Listen` and `Once`,
 * which scope the event module's registration to the window's label, and the
 * enums of the file that serialise through `CustomEnumValueConverter`.
 */
module WindowModel {
  import opened Bridge
  import H = TauriEventHandlers
  import EV = ModulesEventValue
  import M = TauriEventModuleModel
  import C = CustomEnumValueConverterModel

  /** The options every window-scoped registration carries: target kind `Window`, the window's label. */
  function WindowScope(windowLabel: string): (o: EV.EventOptions)
    ensures o.target.Some? && o.target.value.kind == "Window"
    ensures o.target.value.targetLabel == Some(windowLabel)
    ensures o == EV.NewEventOptions(EV.Window(windowLabel))
  {
    EV.NewEventOptions(EV.Window(windowLabel))
  }

  /**
   * `TauriWindow`. The bridge returns the same `label` whenever it is read, so
   * the model keeps it as a constant of the object.
   */
  class TauriWindow {
    const windowLabel: string
    const events: M.TauriEventModule

    constructor (windowLabel: string, events: M.TauriEventModule)
      ensures this.windowLabel == windowLabel && this.events == events
    {
      this.windowLabel := windowLabel;
      this.events := events;
    }

    /** `Listen<TR>(string, Func<TR, Task>)`. */
    method ListenTyped<TR>(eventName: string, callback: Callback, jsHandler: JsHandle)
      returns (unlisten: H.TypedTauriEventHandler<TR>)
      modifies events
      ensures fresh(unlisten)
      ensures unlisten.State() == H.Registered(callback, false, jsHandler)
      ensures events.calls == old(events.calls) + [M.ListenEvent(eventName, Some(WindowScope(windowLabel)))]
    {
      var eventOption := EV.NewEventOptions(EV.Window(windowLabel));
      unlisten := events.ListenTyped<TR>(eventName, callback, Some(eventOption), jsHandler);
    }

    /** `Listen(string, Func<Task>)`. */
    method Listen(eventName: string, callback: Callback, jsHandler: JsHandle)
      returns (unlisten: H.TauriEventHandler)
      modifies events
      ensures fresh(unlisten)
      ensures unlisten.State() == H.Registered(callback, false, jsHandler)
      ensures events.calls == old(events.calls) + [M.ListenEvent(eventName, Some(WindowScope(windowLabel)))]
    {
      var eventOption := EV.NewEventOptions(EV.Window(windowLabel));
      unlisten := events.Listen(eventName, callback, Some(eventOption), jsHandler);
    }

    /** `Once<TR>(string, Func<TR, Task>)`. */
    method OnceTyped<TR>(eventName: string, callback: Callback, jsHandler: JsHandle)
      returns (unlisten: H.TypedTauriEventHandler<TR>)
      modifies events
      ensures fresh(unlisten)
      ensures unlisten.State() == H.Registered(callback, true, jsHandler)
      ensures events.calls == old(events.calls) + [M.OnceEvent(eventName, Some(WindowScope(windowLabel)))]
    {
      var eventOption := EV.NewEventOptions(EV.Window(windowLabel));
      unlisten := events.OnceTyped<TR>(eventName, callback, Some(eventOption), jsHandler);
    }

    /** `Once(string, Func<Task>)`. */
    method Once(eventName: string, callback: Callback, jsHandler: JsHandle)
      returns (unlisten: H.TauriEventHandler)
      modifies events
      ensures fresh(unlisten)
      ensures unlisten.State() == H.Registered(callback, true, jsHandler)
      ensures events.calls == old(events.calls) + [M.OnceEvent(eventName, Some(WindowScope(windowLabel)))]
    {
      var eventOption := EV.NewEventOptions(EV.Window(windowLabel));
      unlisten := events.Once(eventName, callback, Some(eventOption), jsHandler);
    }
  }

  // ----- The custom-value enums, as converter tables in declaration order -----

  const BackgroundThrottlingPolicy: C.Table := [
    C.Field("Disabled", 0, Some("disabled")),
    C.Field("Throttle", 1, Some("throttle")),
    C.Field("Suspend", 2, Some("suspend"))
  ]

  /** The `Effect` member at position `k`, with its `[CustomEnumValue]` string. */
  function EffectMember(k: nat): (f: C.Field)
    requires k < 25
    ensures f.value == k && f.custom.Some? && EffectPosition(f.custom.value) == k
  {
    if k == 0 then C.Field("AppearanceBased", 0, Some("appearanceBased"))
    else if k == 1 then C.Field("Light", 1, Some("light"))
    else if k == 2 then C.Field("Dark", 2, Some("dark"))
    else if k == 3 then C.Field("MediumLight", 3, Some("mediumLight"))
    else if k == 4 then C.Field("UltraDark", 4, Some("ultraDark"))
    else if k == 5 then C.Field("Titlebar", 5, Some("titlebar"))
    else if k == 6 then C.Field("Selection", 6, Some("selection"))
    else if k == 7 then C.Field("Menu", 7, Some("menu"))
    else if k == 8 then C.Field("Popover", 8, Some("popover"))
    else if k == 9 then C.Field("Sidebar", 9, Some("sidebar"))
    else if k == 10 then C.Field("HeaderView", 10, Some("headerView"))
    else if k == 11 then C.Field("Sheet", 11, Some("sheet"))
    else if k == 12 then C.Field("WindowBackground", 12, Some("windowBackground"))
    else if k == 13 then C.Field("HudWindow", 13, Some("hudWindow"))
    else if k == 14 then C.Field("FullScreenUi", 14, Some("fullScreenUI"))
    else if k == 15 then C.Field("Tooltip", 15, Some("tooltip"))
    else if k == 16 then C.Field("ContentBackground", 16, Some("contentBackground"))
    else if k == 17 then C.Field("UnderWindowBackground", 17, Some("underWindowBackground"))
    else if k == 18 then C.Field("UnderPageBackground", 18, Some("underPageBackground"))
    else if k == 19 then C.Field("Mica", 19, Some("mica"))
    else if k == 20 then C.Field("Blur", 20, Some("blur"))
    else if k == 21 then C.Field("Acrylic", 21, Some("acrylic"))
    else if k == 22 then C.Field("Tabbed", 22, Some("tabbed"))
    else if k == 23 then C.Field("TabbedDark", 23, Some("tabbedDark"))
    else C.Field("TabbedLight", 24, Some("tabbedLight"))
  }

  const Effect: C.Table := seq(25, k requires 0 <= k < 25 => EffectMember(k))

  const EffectState: C.Table := [
    C.Field("FollowsWindowActiveState", 0, Some("followsWindowActiveState")),
    C.Field("Active", 1, Some("active")),
    C.Field("Inactive", 2, Some("inactive"))
  ]

  const Theme: C.Table := [
    C.Field("Light", 0, Some("light")),
    C.Field("Dark", 1, Some("dark"))
  ]

  const TitleBarStyle: C.Table := [
    C.Field("Visible", 0, Some("visible")),
    C.Field("Transparent", 1, Some("transparent")),
    C.Field("Overlay", 2, Some("overlay"))
  ]

  /** What makes a table round-trip: every member has a custom value, and values and custom values are distinct. */
  ghost predicate RoundTrips(table: C.Table)
  {
    C.AllCustom(table) && C.ValuesDistinct(table) && C.CustomValuesDistinct(table)
  }

  /** Each member's value is its position in the declaration, so no two members share a value. */
  lemma PositionalValuesDistinct(table: C.Table)
    requires forall i :: 0 <= i < |table| ==> table[i].value == i
    ensures C.ValuesDistinct(table)
  {
  }

  /** Every field of a `RoundTrips` table reads back from what `Write` emits for it, and `Write` emits its custom value. */
  lemma {:induction false} TableRoundTrip(table: C.Table)
    requires RoundTrips(table)
    ensures forall i :: 0 <= i < |table| ==> C.Write(table, table[i].value) == table[i].custom.value
    ensures forall i :: 0 <= i < |table| ==> C.ReadSpec(table, Some(C.Write(table, table[i].value))) == C.Ok(table[i].value)
  {
    forall i | 0 <= i < |table|
      ensures C.Write(table, table[i].value) == table[i].custom.value
      ensures C.ReadSpec(table, Some(C.Write(table, table[i].value))) == C.Ok(table[i].value)
    {
      C.RoundTripCustom(table, i);
    }
  }

  lemma BackgroundThrottlingPolicyRoundTrips()
    ensures RoundTrips(BackgroundThrottlingPolicy)
    ensures forall i :: 0 <= i < |BackgroundThrottlingPolicy| ==>
      C.ReadSpec(BackgroundThrottlingPolicy, Some(C.Write(BackgroundThrottlingPolicy, BackgroundThrottlingPolicy[i].value)))
        == C.Ok(BackgroundThrottlingPolicy[i].value)
  {
    PositionalValuesDistinct(BackgroundThrottlingPolicy);
    TableRoundTrip(BackgroundThrottlingPolicy);
  }

  /**
   * The inverse of `Effect`'s custom values: the position of the member a custom
   * value names, or -1. Grouped by length, so that each lookup compares few strings.
   */
  function EffectPosition(s: string): int
  {
    if |s| == 4 then (if s == "dark" then 2 else if s == "menu" then 7 else if s == "mica" then 19 else if s == "blur" then 20 else -1)
    else if |s| == 5 then (if s == "light" then 1 else if s == "sheet" then 11 else -1)
    else if |s| == 6 then (if s == "tabbed" then 22 else -1)
    else if |s| == 7 then (if s == "popover" then 8 else if s == "sidebar" then 9 else if s == "tooltip" then 15 else if s == "acrylic" then 21 else -1)
    else if |s| == 8 then (if s == "titlebar" then 5 else -1)
    else if |s| == 9 then (if s == "ultraDark" then 4 else if s == "selection" then 6 else if s == "hudWindow" then 13 else -1)
    else if |s| == 10 then (if s == "headerView" then 10 else if s == "tabbedDark" then 23 else -1)
    else if |s| == 11 then (if s == "mediumLight" then 3 else if s == "tabbedLight" then 24 else -1)
    else if |s| == 12 then (if s == "fullScreenUI" then 14 else -1)
    else if |s| == 15 then (if s == "appearanceBased" then 0 else -1)
    else if |s| == 16 then (if s == "windowBackground" then 12 else -1)
    else if |s| == 17 then (if s == "contentBackground" then 16 else -1)
    else if |s| == 19 then (if s == "underPageBackground" then 18 else -1)
    else if |s| == 21 then (if s == "underWindowBackground" then 17 else -1)
    else -1
  }

  /** A table whose custom values have a left inverse on positions has no two members sharing a custom value. */
  lemma CustomValuesDistinctByPosition(table: C.Table, position: string -> int)
    requires forall i :: 0 <= i < |table| ==> table[i].custom.Some? && position(table[i].custom.value) == i
    ensures C.AllCustom(table) && C.CustomValuesDistinct(table)
  {
  }

  lemma EffectRoundTrips()
    ensures RoundTrips(Effect)
    ensures forall i :: 0 <= i < |Effect| ==>
      C.ReadSpec(Effect, Some(C.Write(Effect, Effect[i].value))) == C.Ok(Effect[i].value)
  {
    CustomValuesDistinctByPosition(Effect, EffectPosition);
    PositionalValuesDistinct(Effect);
    TableRoundTrip(Effect);
  }

  lemma EffectStateRoundTrips()
    ensures RoundTrips(EffectState)
    ensures forall i :: 0 <= i < |EffectState| ==>
      C.ReadSpec(EffectState, Some(C.Write(EffectState, EffectState[i].value))) == C.Ok(EffectState[i].value)
  {
    PositionalValuesDistinct(EffectState);
    TableRoundTrip(EffectState);
  }

  lemma ThemeRoundTrips()
    ensures RoundTrips(Theme)
    ensures forall i :: 0 <= i < |Theme| ==>
      C.ReadSpec(Theme, Some(C.Write(Theme, Theme[i].value))) == C.Ok(Theme[i].value)
  {
    PositionalValuesDistinct(Theme);
    TableRoundTrip(Theme);
  }

  lemma TitleBarStyleRoundTrips()
    ensures RoundTrips(TitleBarStyle)
    ensures forall i :: 0 <= i < |TitleBarStyle| ==>
      C.ReadSpec(TitleBarStyle, Some(C.Write(TitleBarStyle, TitleBarStyle[i].value))) == C.Ok(TitleBarStyle[i].value)
  {
    PositionalValuesDistinct(TitleBarStyle);
    TableRoundTrip(TitleBarStyle);
  }

  /** Concretely: `Theme.Dark` is written as "dark", and "dark" reads back as `Dark` while "Dark" reads back through the name fallback. */
  lemma ThemeExamples()
    ensures C.Write(Theme, 1) == "dark"
    ensures C.ReadSpec(Theme, Some("dark")) == C.Ok(1)
    ensures C.ReadSpec(Theme, Some("1")) == C.Ok(1)
  {
  }

  /** Reading ignores ASCII case through the name fallback, and an unknown word is an `ArgumentException`. */
  lemma ThemeNameFallbackExamples()
    ensures C.ReadSpec(Theme, Some("DARK")) == C.Ok(1)
    ensures C.ReadSpec(Theme, Some("dim")) == C.Err(C.ArgumentException)
  {
    assert C.Matches(Theme[1], C.NameLike("DARK"));
    assert !C.Matches(Theme[0], C.NameLike("DARK"));
  }
}
