# TauriBlazor event and converter core, in Dafny

TauriBlazor lets a Blazor application call Tauri's JavaScript API. Most of
the library forwards a call to a JavaScript function and returns the result.
This project models the part that keeps state or encodes values:

- **The listener lifecycle.** An event handler is created as a *listen* or a
  *once* handler by `TauriEventModule`, which stores the JavaScript handle the
  bridge returns in its `HandlerRef`. The handler keeps the flags `Disposed`
  and `_onceTriggered`. Its `InvokeEvent` runs the callback; a once handler
  then unregisters itself. Its `Unlisten` fails on a disposed handler or a
  missing handle. Otherwise it unregisters and disposes the handle, unless
  the once handler already did. The older `TauriEventManager` variant also
  keeps the handlers in a list that `Unlisten` removes the handler from.
- **Name-keyed registries.** `Event` keeps a static dictionary from event name
  to handler, in which the first registration wins. The JavaScript module
  `tauri-api.js` keeps a global `Map` from event name to unlisten function,
  plus a `Map` per window that is created on first use.
- **Event names and targets.** Two snapshots of `EventValue.cs` map the 14
  built-in events to their `tauri://` names and build `EventTarget`s from a
  kind and a label. A window's and a webview window's own `Listen`/`Once`
  always target the object's own label.
- **JSON converters.** `ColorFormatConverter` uses the `#RRGGBB`/`#RRGGBBAA`
  notation of CSS Color Module Level 4, section 5.2.
  `CustomEnumValueConverter` writes an enum member's `[CustomEnumValue]`
  string and reads it back. It has concrete instances: the five enums of
  `Window.cs`.

## How it is modelled

Each core source file is its own module, in its own file. `Bridge`
(bridge.dfy) holds what they share: `Option`, and the opaque JavaScript
handle and callback identities.

Code that changes state is imperative Dafny:
- a class per C# or JavaScript object, with the object's fields;
- ghost logs for effects that cross the bridge (bridge commands, callbacks
  run, removals from the manager's list);
- foreign results as parameters: the handle `ListenEvent` returns, the
  unlisten function Tauri's `listen` resolves to, a window's label.

Each stateful operation is also a pure step function on a value:
`InvokeStep`, `UnlistenStep`, `ListenStep` and the map operations. Every
method's `ensures` ties its new state to that function of the old state. The
lemmas about single calls and about sequences of calls are stated on the
functions.

Exceptions become outcomes or results:
- `Raised(ObjectDisposedException)` and similar, for the handlers;
- `Err(...)` in `ReadResult`, for the enum converter;
- `JsonException(message)`, for the colour converter.

The enum converter works on an explicit table of the enum's fields in
declaration order, in place of reflection. Its `Read` keeps the source's
loop.

## Model

| member | source | states |
|---|---|---|
| TauriEventHandlers.Created | TauriApi/Utilities/TauriEventHandler.cs:38-42 | A new handler keeps its callback and `once` flag; it is not triggered, not disposed, has no handle and has sent nothing. |
| TauriEventHandlers.InvokeStep | TauriApi/Utilities/TauriEventHandler.cs:52-66 | `InvokeEvent` first runs the callback on the payload. A once handler then sets `_onceTriggered`, and raises `NullReferenceException` exactly when it has no handle. `Disposed`, the handle and the callback are never changed, and the earlier log is kept. |
| TauriEventHandlers.UnlistenStep | TauriApi/Utilities/TauriEventHandler.cs:74-95 | `Unlisten` succeeds exactly when the handler is not disposed and has a handle, and success sets `Disposed`. A failure changes nothing: `ObjectDisposedException` when disposed, otherwise `NullReferenceException` when there is no handle. |
| TauriEventHandlers.SetHandlerRefStep | TauriApi/Utilities/TauriEventHandler.cs:45 | The setter replaces the handle and nothing else. |
| TauriEventHandlers.ReleaseCommands | TauriApi/Utilities/TauriEventHandler.cs:63-64 | Releasing a handle sends exactly one `unlisten` and one dispose. |
| TauriEventHandlers.SecondUnlistenFails | TauriApi/Utilities/TauriEventHandler.cs:77-81 | After a successful `Unlisten`, a second one raises `ObjectDisposedException` and leaves the state unchanged, so at most one succeeds. |
| TauriEventHandlers.UnlistenWithoutHandle | TauriApi/Utilities/TauriEventHandler.cs:83-88 | `Unlisten` with a null handle raises `NullReferenceException` and leaves `Disposed` false, because the check precedes the assignment. |
| TauriEventHandlers.UnlistenAfterOnceFired | TauriApi/Utilities/TauriEventHandler.cs:88-94 | On a once handler that already fired, `Unlisten` succeeds, sets `Disposed` and sends no bridge command. |
| TauriEventHandlers.UnlistenReleasesHandle | TauriApi/Utilities/TauriEventHandler.cs:88-94 | On a handler that has not fired, a successful `Unlisten` appends `unlisten` and then dispose for its handle. |
| TauriEventHandlers.OnceFireOrder | TauriApi/Utilities/TauriEventHandler.cs:54-64 | A once handler with a handle runs the callback, sets `_onceTriggered`, then sends `unlisten` and then dispose, and completes. |
| TauriEventHandlers.ListenInvokeOnlyRunsCallback | TauriApi/Utilities/TauriEventHandler.cs:54-55 | A listen handler's `InvokeEvent` only records the callback run; no flag changes and no bridge command is sent. |
| TauriEventHandlers.OnceFireWithoutHandle | TauriApi/Utilities/TauriEventHandler.cs:54-61 | A once handler without a handle has run the callback and set `_onceTriggered` when it raises `NullReferenceException`. |
| TauriEventHandlers.InvokeIgnoresDisposed | TauriApi/Utilities/TauriEventHandler.cs:52-66 | `InvokeEvent` does not check `Disposed`: a disposed handler still runs its callback. |
| TauriEventHandlers.OnceFireThenUnlistenSendsOneUnlisten | TauriApi/Utilities/TauriEventHandler.cs:54-94 | Firing a once handler and then unlistening it sends `unlisten` exactly once in total, and disposes exactly once. |
| TauriEventHandlers.ListenHandlerInvariantHoldsInitially | TauriApi/Utilities/TauriEventHandler.cs:38-42 | A new listen handler satisfies the invariant `unlisten sent == (Disposed ? 1 : 0) == disposals sent`. |
| TauriEventHandlers.ListenHandlerInvariantPreserved | TauriApi/Utilities/TauriEventHandler.cs:52-95 | Every call (fire, unlisten, setting the handle) preserves the listen handler's invariant, whether the call completes or raises. |
| TauriEventHandlers.ListenHandlerUnlistensAtMostOnce | TauriApi/Utilities/TauriEventHandler.cs:74-95 | Over any sequence of calls, a listen handler sends at most one `unlisten`. |
| TauriEventHandlers.TauriEventHandler.constructor | TauriApi/Utilities/TauriEventHandler.cs:38-42 | The object's state is `Created(callback, once)`. |
| TauriEventHandlers.TauriEventHandler.SetHandlerRef | TauriApi/Utilities/TauriEventHandler.cs:45 | The new state is `SetHandlerRefStep` of the old one. |
| TauriEventHandlers.TauriEventHandler.InvokeEvent | TauriApi/Utilities/TauriEventHandler.cs:52-66 | The new state and the outcome are `InvokeStep` of the old state. |
| TauriEventHandlers.TauriEventHandler.Unlisten | TauriApi/Utilities/TauriEventHandler.cs:74-95 | The new state and the outcome are `UnlistenStep` of the old state. |
| TauriEventHandlers.TypedTauriEventHandler.constructor | TauriApi/Utilities/TauriEventHandler.cs:101-105 | The object's state is `Created(callback, once)`. |
| TauriEventHandlers.TypedTauriEventHandler.SetHandlerRef | TauriApi/Utilities/TauriEventHandler.cs:108 | The new state is `SetHandlerRefStep` of the old one. |
| TauriEventHandlers.TypedTauriEventHandler.InvokeEvent | TauriApi/Utilities/TauriEventHandler.cs:114-128 | The typed `InvokeEvent` follows `InvokeStep` with its payload. |
| TauriEventHandlers.TypedTauriEventHandler.InvokeEventUntyped | TauriApi/Utilities/TauriEventHandler.cs:130-140 | A payload not of type `T` raises `InvalidCastException`, and the state (including "callback not run") is unchanged. Otherwise the call is the typed `InvokeEvent`. |
| TauriEventHandlers.TypedTauriEventHandler.Unlisten | TauriApi/Utilities/TauriEventHandler.cs:148-169 | The new state and the outcome are `UnlistenStep` of the old state. |
| TauriEventHandlers.OnceThenUnlistenClient | TauriApi/Utilities/TauriEventHandler.cs:114-169 | A registered once handler that fires and is then unlistened ends disposed and triggered, having sent one `unlisten` and one dispose. |
| TauriEventHandlers.Registered | TauriApi/Modules/TauriEventModule.cs:115-118 | A registered handler is a new handler whose `HandlerRef` is the bridge's handle. |
| TauriEventHandlers.RegisteredUnlistenSucceeds | TauriApi/Modules/TauriEventModule.cs:113-119 | Calling the returned unlisten function at once succeeds and sends `unlisten` and dispose for the stored handle; it never meets the null-handle error. |
| TauriEventModuleModel.TauriEventModule.constructor | TauriApi/Modules/TauriEventModule.cs:18-22 | A new module has made no bridge call. |
| TauriEventModuleModel.TauriEventModule.Listen | TauriApi/Modules/TauriEventModule.cs:113-120 | Returns a fresh handler with `once` false whose `HandlerRef` is the bridge handle. The only bridge call logged is `ListenEvent` with the name and options unchanged. |
| TauriEventModuleModel.TauriEventModule.ListenTyped | TauriApi/Modules/TauriEventModule.cs:96-104 | As `Listen`, for the typed handler. |
| TauriEventModuleModel.TauriEventModule.Once | TauriApi/Modules/TauriEventModule.cs:178-185 | Returns a fresh handler with `once` true whose `HandlerRef` is the bridge handle. The only bridge call logged is `OnceEvent` with the name and options unchanged. |
| TauriEventModuleModel.TauriEventModule.OnceTyped | TauriApi/Modules/TauriEventModule.cs:162-169 | As `Once`, for the typed handler. |
| TauriEventModuleModel.TauriEventModule.ListenBuiltin | TauriApi/Modules/TauriEventModule.cs:81-86 | The enum overload registers under `GetTauriEventName(eventName)`, as the string overload does. |
| TauriEventModuleModel.TauriEventModule.ListenBuiltinTyped | TauriApi/Modules/TauriEventModule.cs:67-72 | The same, for the typed overload. |
| TauriEventModuleModel.TauriEventModule.OnceBuiltin | TauriApi/Modules/TauriEventModule.cs:148-152 | The enum overload of `Once` registers under `GetTauriEventName(eventName)`. |
| TauriEventModuleModel.TauriEventModule.OnceBuiltinTyped | TauriApi/Modules/TauriEventModule.cs:134-139 | The same, for the typed overload. |
| TauriEventModuleModel.ListenThenUnlistenClient | TauriApi/Modules/TauriEventModule.cs:113-119 | Calling the function `Listen` returns succeeds, disposes the handler and sends `unlisten` then dispose for the bridge handle. |
| TauriEventManagerModel.FirstIndex | TauriApi/Utilities/TauriEventManager.cs:16 | The first position holding the element: it holds it, and no earlier position does. |
| TauriEventManagerModel.RemoveFirst | TauriApi/Utilities/TauriEventManager.cs:14-17 | `List.Remove` drops only the first occurrence, and the entries before and after it keep their order. An absent element leaves the list as it was. |
| TauriEventManagerModel.RemoveFirstMultiset | TauriApi/Utilities/TauriEventManager.cs:14-17 | Removal takes away exactly one occurrence, when there is one. |
| TauriEventManagerModel.AppendNewKeepsDistinct | TauriApi/Utilities/TauriEventManager.cs:19-31 | Appending a handler not yet listed keeps the list free of repetitions. |
| TauriEventManagerModel.RemoveFirstOfDistinct | TauriApi/Utilities/TauriEventManager.cs:14-17 | In a list without repetitions, removal takes the handler out entirely, keeps every other handler, and keeps the list free of repetitions. |
| TauriEventManagerModel.Created | TauriApi/Utilities/TauriEventManager.cs:65-69 | A new handler is not disposed, has no handle and has sent nothing. |
| TauriEventManagerModel.InvokeStep | TauriApi/Utilities/TauriEventManager.cs:78-81 | `InvokeEvent` only runs the callback; `Disposed` and the handle are unchanged. |
| TauriEventManagerModel.UnlistenStep | TauriApi/Utilities/TauriEventManager.cs:89-108 | `Unlisten` succeeds exactly when not disposed and a handle is set. A failure changes neither the handler nor the list. A success sets `Disposed`, records `unlisten`, removal from the list and dispose in that order, and removes the first occurrence of the handler. |
| TauriEventManagerModel.SecondUnlistenFails | TauriApi/Utilities/TauriEventManager.cs:92-96 | A second `Unlisten` raises `ObjectDisposedException` and leaves the handler and the list unchanged. |
| TauriEventManagerModel.UnlistenRemovesOnlySelf | TauriApi/Utilities/TauriEventManager.cs:103-106 | A successful `Unlisten` of a handler listed once removes it from the list; every other handler stays, in order. |
| TauriEventManagerModel.UnlistenWithoutHandle | TauriApi/Utilities/TauriEventManager.cs:98-101 | With a null handle, `Unlisten` raises `NullReferenceException` and leaves `Disposed` and the list unchanged. |
| TauriEventManagerModel.BridgeCommands | TauriApi/Utilities/TauriEventManager.cs:105-107 | The bridge commands of a log, in order, without the callback runs and the removal. |
| TauriEventManagerModel.FireThenUnlistenSendsUnlistenThenDispose | TauriApi/Utilities/TauriEventManager.cs:78-107 | A handler that has fired, then gets its handle and is unlistened, sends exactly `unlisten` then dispose to the bridge. |
| TauriEventManagerModel.TauriEventManager.constructor | TauriApi/Utilities/TauriEventManager.cs:12 | The list starts empty, so it holds no handler twice. |
| TauriEventManagerModel.TauriEventManager.RemoveEventHandler | TauriApi/Utilities/TauriEventManager.cs:14-17 | The list becomes `RemoveFirst` of the old list. On a list without repetitions the handler is then gone entirely, and the list stays without repetitions. |
| TauriEventManagerModel.TauriEventManager.CreateEventHandler | TauriApi/Utilities/TauriEventManager.cs:19-24 | Appends exactly one fresh, non-disposed handler that was not listed before and returns it; earlier entries are unchanged, and a list without repetitions stays so. |
| TauriEventManagerModel.TauriEventManager.CreateTypedEventHandler | TauriApi/Utilities/TauriEventManager.cs:26-31 | The same, for the typed handler, including keeping the list without repetitions. |
| TauriEventManagerModel.TauriEventHandler.constructor | TauriApi/Utilities/TauriEventManager.cs:65-69 | The handler keeps its manager and starts as `Created`. |
| TauriEventManagerModel.TauriEventHandler.SetHandlerRef | TauriApi/Utilities/TauriEventManager.cs:72 | Only the handle changes. |
| TauriEventManagerModel.TauriEventHandler.InvokeEvent | TauriApi/Utilities/TauriEventManager.cs:77-81 | The new state is `InvokeStep` of the old. |
| TauriEventManagerModel.TauriEventHandler.Unlisten | TauriApi/Utilities/TauriEventManager.cs:89-108 | The handler's new state, the manager's new list and the outcome are `UnlistenStep` of the old handler state and list. A list without repetitions stays so, and after a success it no longer holds the handler. |
| TauriEventManagerModel.TypedTauriEventHandler.constructor | TauriApi/Utilities/TauriEventManager.cs:114-118 | The handler keeps its manager and starts as `Created`. |
| TauriEventManagerModel.TypedTauriEventHandler.SetHandlerRef | TauriApi/Utilities/TauriEventManager.cs:121 | Only the handle changes. |
| TauriEventManagerModel.TypedTauriEventHandler.InvokeEvent | TauriApi/Utilities/TauriEventManager.cs:125-129 | The new state is `InvokeStep` of the old, with the payload. |
| TauriEventManagerModel.TypedTauriEventHandler.InvokeEventUntyped | TauriApi/Utilities/TauriEventManager.cs:131-141 | A payload of the wrong type raises `InvalidCastException` and runs nothing; otherwise the typed `InvokeEvent` runs. |
| TauriEventManagerModel.TypedTauriEventHandler.Unlisten | TauriApi/Utilities/TauriEventManager.cs:149-168 | The same as the untyped `Unlisten`, including the facts about a list without repetitions. |
| TauriEventManagerModel.CreateTwoUnlistenFirstClient | TauriApi/Utilities/TauriEventManager.cs:19-107 | With two handlers created, unlistening the first leaves exactly the second listed, the list stays without repetitions, and unlistening the first again fails. |
| EventModel.ListenStep | TauriApi/Event.cs:34-40 | `Listen` on a new name adds exactly that handler and sends one bridge listen. On a registered name it changes nothing. Other names keep their handlers either way. |
| EventModel.UnlistenStep | TauriApi/Event.cs:42-46 | `Unlisten` removes the name, keeps every other name's handler, and always sends one bridge unlisten, even for an absent name. |
| EventModel.CallbackStep | TauriApi/Event.cs:19-32 | The callback invokes a handler exactly when the name is registered, and then it is that name's handler on the data; otherwise it raises. |
| EventModel.FirstListenWins | TauriApi/Event.cs:36-39 | After two `Listen`s on a new name, the first handler is kept and exactly one bridge listen was sent. |
| EventModel.ListenAgainAfterUnlisten | TauriApi/Event.cs:36-45 | After `Unlisten(n)` the callback for `n` raises; a new `Listen(n)` registers the new handler and listens again. |
| EventModel.OtherNamesUnaffected | TauriApi/Event.cs:36-44 | `Listen` and `Unlisten` on one name never change how the callback for another name dispatches. |
| EventModel.CountListen | TauriApi/Event.cs:38 | The number of bridge listens for a name. |
| EventModel.CountUnlisten | TauriApi/Event.cs:45 | The number of bridge unlistens for a name. |
| EventModel.BalancedInitially | TauriApi/Event.cs:17 | The empty registry is balanced. |
| EventModel.BalancedPreserved | TauriApi/Event.cs:34-46 | Every `Listen` and `Unlisten` keeps each name's bridge listens at most its unlistens plus one if registered. |
| EventModel.BalancedAlways | TauriApi/Event.cs:34-46 | Over any sequence of calls, a name's bridge listens never exceed its unlistens by more than one, and by one only while it is registered. |
| EventModel.UnlistenAfter | TauriApi/Event.cs:36-45 | If the bridge is no longer listening to a name, every earlier listen of it is followed by an unlisten of it. |
| EventModel.AppendCall | TauriApi/Event.cs:38-45 | After one more bridge call, the bridge is listening to a name exactly when the call listened to it, or did not unlisten it and the bridge was listening before. Listens stay separated by unlistens, unless a name is listened to while already listened to. |
| EventModel.TrackedInitially | TauriApi/Event.cs:17 | In the empty registry, no name is registered or listened to. |
| EventModel.TrackedPreserved | TauriApi/Event.cs:34-46 | Every `Listen` and `Unlisten` keeps this fact: a name is registered exactly while the last bridge call mentioning it was a listen. It also keeps every two listens of a name separated by an unlisten of it. |
| EventModel.TrackedAlways | TauriApi/Event.cs:34-46 | The same holds after any sequence of calls. |
| EventModel.NoDoubleListen | TauriApi/Event.cs:36-39 | From the empty registry, whatever the calls, between any two bridge listens of a name there is a bridge unlisten of it: `TryAdd` never lets a second listen through. |
| EventModel.Event.constructor | TauriApi/Event.cs:17 | The dictionary starts empty and no bridge call has been made. |
| EventModel.Event.TauriEventCallback | TauriApi/Event.cs:19-32 | Returns `CallbackStep` of the registry and changes nothing. |
| EventModel.Event.Listen | TauriApi/Event.cs:34-40 | The new registry is `ListenStep` of the old. |
| EventModel.Event.Unlisten | TauriApi/Event.cs:42-46 | The new registry is `UnlistenStep` of the old. |
| TauriApiJsModel.AddBind | TauriApi/wwwroot/js/tauri-api.js:13 | The name now holds the newest unlisten function; the other names keep theirs. |
| TauriApiJsModel.RemoveBind | TauriApi/wwwroot/js/tauri-api.js:16-23 | An absent name changes nothing and calls nothing. A present name's stored function is called, and that name alone loses its entry. |
| TauriApiJsModel.AddWindowBind | TauriApi/wwwroot/js/tauri-api.js:42-47 | A window without a map gets a map with just this entry; an existing map gets `AddBind`. |
| TauriApiJsModel.RemoveWindowBind | TauriApi/wwwroot/js/tauri-api.js:50-60 | A window without a map is left without one and nothing is called; otherwise the result is `RemoveBind` on its map. |
| TauriApiJsModel.AddBindOverwrites | TauriApi/wwwroot/js/tauri-api.js:13 | A second bind of a name overwrites the first. |
| TauriApiJsModel.AddThenRemove | TauriApi/wwwroot/js/tauri-api.js:13-21 | Removing a name just bound calls the newest function and leaves the map as it was without that name. |
| TauriApiJsModel.RemoveTwiceCallsOnce | TauriApi/wwwroot/js/tauri-api.js:18-22 | A second removal of a name calls nothing and changes nothing. |
| TauriApiJsModel.DifferentNamesCommute | TauriApi/wwwroot/js/tauri-api.js:13 | Binds of different names commute. |
| TauriApiJsModel.BindRemoveCommute | TauriApi/wwwroot/js/tauri-api.js:13-21 | A bind and a removal of different names commute, and the removal calls the same stored function either way. |
| TauriApiJsModel.WindowMapCreatedOnce | TauriApi/wwwroot/js/tauri-api.js:42-47 | The first window bind creates the map and a later one adds to the same map. |
| TauriApiJsModel.ListenerMap.constructor | TauriApi/wwwroot/js/tauri-api.js:2 | A new `Map` is empty. |
| TauriApiJsModel.AppWindow.constructor | TauriApi/wwwroot/js/tauri-api.js:42-43 | A window starts without `eventCollection`. |
| TauriApiJsModel.TauriApiJs.constructor | TauriApi/wwwroot/js/tauri-api.js:2 | The global map starts empty and nothing has been called. |
| TauriApiJsModel.TauriApiJs.AddListenBind | TauriApi/wwwroot/js/tauri-api.js:5-14 | Logs one Tauri listen for the name and sets the global map to `AddBind` of the old one. |
| TauriApiJsModel.TauriApiJs.RemoveListenBind | TauriApi/wwwroot/js/tauri-api.js:16-23 | The global map becomes `RemoveBind` of the old one, and the log gains exactly the call of the stored function, if there was one. |
| TauriApiJsModel.TauriApiJs.AddWindowListenBind | TauriApi/wwwroot/js/tauri-api.js:33-48 | The window's map is created fresh if missing and reused otherwise, and becomes `AddWindowBind` of the old one. The global map is unchanged. One window listen is logged. |
| TauriApiJsModel.TauriApiJs.RemoveWindowListenBind | TauriApi/wwwroot/js/tauri-api.js:50-60 | The window's map becomes `RemoveWindowBind` of the old one, and only the stored function is called. The global map is unchanged. |
| TauriApiJsModel.SeparateMapsClient | TauriApi/wwwroot/js/tauri-api.js:5-60 | Global binds leave a window's map alone, and window binds leave the global map alone. |
| ModulesEventValue.Ordinal | TauriApi/Modules/Objects/EventValue.cs:10-38 | Each built-in event has its declaration position below 14 as underlying value. |
| ModulesEventValue.EventNameAttribute | TauriApi/Modules/Objects/EventValue.cs:13-36 | Every one of the 14 members carries a `TauriEventName` attribute. |
| ModulesEventValue.GetTauriEventName | TauriApi/Modules/Objects/EventValue.cs:50-60 | Total: the result is the member's attribute, and it starts with `tauri://` followed by a non-empty name. |
| ModulesEventValue.GetTauriEventNameInjective | TauriApi/Modules/Objects/EventValue.cs:13-36 | Two members have the same event name exactly when they are the same member. |
| ModulesEventValue.App | TauriApi/Modules/Objects/EventValue.cs:115-118 | Kind `"App"`, null label. |
| ModulesEventValue.Any | TauriApi/Modules/Objects/EventValue.cs:122-125 | Kind `"Any"`, null label. |
| ModulesEventValue.AnyLabel | TauriApi/Modules/Objects/EventValue.cs:130-133 | Kind `"AnyLabel"`, the label as given. |
| ModulesEventValue.Window | TauriApi/Modules/Objects/EventValue.cs:138-141 | Kind `"Window"`, the label as given. |
| ModulesEventValue.Webview | TauriApi/Modules/Objects/EventValue.cs:146-149 | Kind `"Webview"`, the label as given. |
| ModulesEventValue.WebviewWindow | TauriApi/Modules/Objects/EventValue.cs:154-157 | Kind `"WebviewWindow"`, the label as given. |
| ModulesEventValue.FromLabel | TauriApi/Modules/Objects/EventValue.cs:162-165 | The implicit conversion from a string equals `AnyLabel` of it. |
| ModulesEventValue.FactoryKindsDistinct | TauriApi/Modules/Objects/EventValue.cs:115-157 | The six factories' kinds are pairwise distinct. |
| ModulesEventValue.LabelledFactoriesKeepLabel | TauriApi/Modules/Objects/EventValue.cs:130-157 | A labelled factory's result determines its label, and targets of different factories never coincide. |
| ModulesEventValue.FactoriesAreFactoryTargets | TauriApi/Modules/Objects/EventValue.cs:106-165 | Every factory result, the implicit conversion included, is a target the private constructor is called with from a factory. |
| ModulesEventValue.NewEventOptions | TauriApi/Modules/Objects/EventValue.cs:80-83 | `EventOptions` stores exactly the given target. |
| EventValue.Ordinal | TauriApi/EventValue.cs:10-38 | Each built-in event has its declaration position below 14 as underlying value. |
| EventValue.EventNameAttribute | TauriApi/EventValue.cs:13-36 | Every member carries an attribute. |
| EventValue.GetTauriEventName | TauriApi/EventValue.cs:50-60 | Total, and every name starts with `tauri://`. |
| EventValue.GetTauriEventNameInjective | TauriApi/EventValue.cs:13-36 | No two members share an event name. |
| EventValue.SameTableAsModules | TauriApi/EventValue.cs:13-36 | Each member's counterpart in the other snapshot has the same position and the same event name. |
| EventValue.ToModulesNameByOrdinal | TauriApi/EventValue.cs:10-38 | The pairing is by position: a member corresponds to exactly the other snapshot's member at its position. |
| EventValue.FromLabel | TauriApi/EventValue.cs:133-136 | The implicit conversion yields an `AnyLabel` with kind `"AnyLabel"` and that label. |
| EventValue.KindsAndLabels | TauriApi/EventValue.cs:106-191 | Each subclass fixes its kind string, and labelled subclasses keep the constructor's label. |
| EventValue.KindAndLabelDetermineTarget | TauriApi/EventValue.cs:93-191 | Two targets agree on kind and label exactly when they are equal as values (the C# classes compare by reference; the model compares by value). |
| EventValue.ToModulesTarget | TauriApi/EventValue.cs:93-104 | A target's kind and label carry over unchanged to the other snapshot's representation. |
| EventValue.ToModulesTargetInjective | TauriApi/EventValue.cs:93-191 | That correspondence is one to one and lands in the values the other snapshot's factories build. |
| EventValue.NewEventOptions | TauriApi/EventValue.cs:80-83 | `EventOptions` stores the given target. |
| WindowModel.WindowScope | TauriApi/Modules/Objects/Window.cs:32 | The options of a window registration: kind `"Window"` and the window's own label. |
| WindowModel.TauriWindow.constructor | TauriApi/Modules/Objects/Window.cs:16-21 | The window keeps its label and its event module. |
| WindowModel.TauriWindow.ListenTyped | TauriApi/Modules/Objects/Window.cs:29-34 | Delegates to the module's non-once `Listen`, passing the event name and callback through unchanged. The options are `WindowScope` of the window's label. |
| WindowModel.TauriWindow.Listen | TauriApi/Modules/Objects/Window.cs:36-41 | The same, for the untyped callback. |
| WindowModel.TauriWindow.OnceTyped | TauriApi/Modules/Objects/Window.cs:43-48 | Delegates to the module's `Once`, scoped to `WindowScope` of the label. |
| WindowModel.TauriWindow.Once | TauriApi/Modules/Objects/Window.cs:50-55 | The same, for the untyped callback. |
| WindowModel.PositionalValuesDistinct | TauriApi/Modules/Objects/Window.cs:416-595 | Members whose values are their positions have distinct values. |
| WindowModel.TableRoundTrip | TauriApi/Utilities/JsonConverters/CustomEnumValueConvertor.cs:36-55 | On a table where every member has a custom value, values are distinct and custom values are distinct, `Write` emits each member's custom value and `Read` returns the member. |
| WindowModel.BackgroundThrottlingPolicyRoundTrips | TauriApi/Modules/Objects/Window.cs:416-422 | All three members carry distinct custom values, and each reads back from what `Write` emits. |
| WindowModel.EffectMember | TauriApi/Modules/Objects/Window.cs:427-552 | The member at each of the 25 positions has that position as value and carries a custom value that leads back to it. |
| WindowModel.CustomValuesDistinctByPosition | TauriApi/Modules/Objects/Window.cs:427-552 | Custom values with a left inverse on positions are pairwise distinct. |
| WindowModel.EffectRoundTrips | TauriApi/Modules/Objects/Window.cs:427-552 | All 25 `Effect` members carry distinct custom values, and each reads back from what `Write` emits. |
| WindowModel.EffectStateRoundTrips | TauriApi/Modules/Objects/Window.cs:558-576 | The same for `EffectState`. |
| WindowModel.ThemeRoundTrips | TauriApi/Modules/Objects/Window.cs:582-587 | The same for `Theme`. |
| WindowModel.TitleBarStyleRoundTrips | TauriApi/Modules/Objects/Window.cs:589-595 | The same for `TitleBarStyle`. |
| WindowModel.ThemeExamples | TauriApi/Modules/Objects/Window.cs:582-587 | `Dark` is written `"dark"`, and `"dark"` and `"1"` read as `Dark`. |
| WindowModel.ThemeNameFallbackExamples | TauriApi/Utilities/JsonConverters/CustomEnumValueConvertor.cs:46 | On `Theme`, `"DARK"` reads as `Dark` through the case-insensitive name fallback, and `"dim"` fails with `ArgumentException`. |
| WebviewWindowModel.WebviewWindowScope | TauriApi/Modules/Objects/WebviewWindow.cs:35 | The options of a webview-window registration: kind `"WebviewWindow"` and the object's own label. |
| WebviewWindowModel.WebviewWindowScopesDistinct | TauriApi/Modules/Objects/WebviewWindow.cs:35 | Different labels give different options, and none equals a plain window's options. |
| WebviewWindowModel.TauriWebviewWindow.constructor | TauriApi/Modules/Objects/WebviewWindow.cs:14-20 | The object keeps its label and its event module. |
| WebviewWindowModel.TauriWebviewWindow.ListenTyped | TauriApi/Modules/Objects/WebviewWindow.cs:32-37 | Delegates to the module's non-once `Listen` with the name and callback unchanged and `WebviewWindowScope` of its own label. |
| WebviewWindowModel.TauriWebviewWindow.Listen | TauriApi/Modules/Objects/WebviewWindow.cs:39-44 | The same, for the untyped callback. |
| WebviewWindowModel.TauriWebviewWindow.OnceTyped | TauriApi/Modules/Objects/WebviewWindow.cs:46-51 | Delegates to the module's `Once`, scoped to `WebviewWindowScope` of its label. |
| WebviewWindowModel.TauriWebviewWindow.Once | TauriApi/Modules/Objects/WebviewWindow.cs:53-58 | The same, for the untyped callback. |
| CustomEnumValueConverterModel.FirstMatch | TauriApi/Utilities/JsonConverters/CustomEnumValueConvertor.cs:36-43 | The first field in declaration order that matches, with no earlier match; none exactly when no field matches. |
| CustomEnumValueConverterModel.FormatNat | TauriApi/Utilities/JsonConverters/CustomEnumValueConvertor.cs:55 | The decimal digits of a number denote that number. |
| CustomEnumValueConverterModel.ParseFormatInt | TauriApi/Utilities/JsonConverters/CustomEnumValueConvertor.cs:46-55 | Parsing the decimal form of an integer yields the integer. |
| CustomEnumValueConverterModel.EnumParse | TauriApi/Utilities/JsonConverters/CustomEnumValueConvertor.cs:46 | `Enum.Parse(value, true)`: a numeric string yields its value (`OverflowException` outside `int`); otherwise the first name equal ignoring case, otherwise `ArgumentException`. |
| CustomEnumValueConverterModel.Read | TauriApi/Utilities/JsonConverters/CustomEnumValueConvertor.cs:32-47 | The loop returns the first field whose custom value equals the input exactly; otherwise null raises `ArgumentNullException` and a string goes to `Enum.Parse`. |
| CustomEnumValueConverterModel.Write | TauriApi/Utilities/JsonConverters/CustomEnumValueConvertor.cs:50-56 | A declared value is written as its field's custom value, or its name without one; an undeclared value is written in decimal that parses back to it. |
| CustomEnumValueConverterModel.ReadNull | TauriApi/Utilities/JsonConverters/CustomEnumValueConvertor.cs:34-46 | A JSON null raises `ArgumentNullException`. |
| CustomEnumValueConverterModel.ReadCustomValueFirst | TauriApi/Utilities/JsonConverters/CustomEnumValueConvertor.cs:36-46 | The first field carrying the exact custom value wins over any name or number match. |
| CustomEnumValueConverterModel.ReadFallsBackToName | TauriApi/Utilities/JsonConverters/CustomEnumValueConvertor.cs:46 | Without a custom match or a numeric form, `Read` succeeds exactly when some name matches ignoring case. It returns the first such field and otherwise fails with `ArgumentException`. |
| CustomEnumValueConverterModel.FirstMatchOfDistinct | TauriApi/Utilities/JsonConverters/CustomEnumValueConvertor.cs:36-43 | A matching field with no earlier match is the one the search finds. |
| CustomEnumValueConverterModel.RoundTripCustom | TauriApi/Utilities/JsonConverters/CustomEnumValueConvertor.cs:36-55 | With distinct values and custom values, `Read(Write(v)) == v` for every member with a custom value. |
| CustomEnumValueConverterModel.RoundTripName | TauriApi/Utilities/JsonConverters/CustomEnumValueConvertor.cs:46-55 | A member without a custom value is written by name and read back, when no custom value or earlier name collides and the name is not numeric. |
| CustomEnumValueConverterModel.RoundTripUndeclared | TauriApi/Utilities/JsonConverters/CustomEnumValueConvertor.cs:46-55 | An undeclared value is written in decimal and read back, unless a custom value spells that number. |
| ColorFormatConverterModel.HexDigit | TauriApi/Utilities/JsonConverters/ColorFormatConverter.cs:54 | A nibble becomes a digit or an upper-case letter `A`-`F`. |
| ColorFormatConverterModel.HexByte | TauriApi/Utilities/JsonConverters/ColorFormatConverter.cs:54 | `X2` on a byte is exactly two characters. |
| ColorFormatConverterModel.Write | TauriApi/Utilities/JsonConverters/ColorFormatConverter.cs:52-56 | The output starts with `#`, has length 7 when A is 255 and 9 otherwise, and holds R, G, B, then A (when written), two upper-case digits each. |
| ColorFormatConverterModel.HexValue | TauriApi/Utilities/JsonConverters/ColorFormatConverter.cs:54 | A hexadecimal digit of either case denotes a nibble below 16. |
| ColorFormatConverterModel.Decode | TauriApi/Utilities/JsonConverters/ColorFormatConverter.cs:52-56 | A string of the notation is `#` and 6 or 8 digits. |
| ColorFormatConverterModel.HexDigitValue | TauriApi/Utilities/JsonConverters/ColorFormatConverter.cs:54 | Every digit written reads back as its nibble. |
| ColorFormatConverterModel.HexByteRoundTrip | TauriApi/Utilities/JsonConverters/ColorFormatConverter.cs:54 | Every byte reads back from its two digits. |
| ColorFormatConverterModel.WriteDecodes | TauriApi/Utilities/JsonConverters/ColorFormatConverter.cs:52-56 | The notation `Write` emits decodes back to the colour. |
| ColorFormatConverterModel.WriteInjective | TauriApi/Utilities/JsonConverters/ColorFormatConverter.cs:52-56 | Distinct colours give distinct strings, and an opaque colour's string never equals a translucent one's. |
| ColorFormatConverterModel.WriteExamples | TauriApi/Utilities/JsonConverters/ColorFormatConverter.cs:52-56 | Opaque red is `#FF0000`; blue at alpha 128 is `#0000FF80`. |
| ColorFormatConverterModel.EnsureHashPrefix | TauriApi/Utilities/JsonConverters/ColorFormatConverter.cs:28-31 | The result starts with `#`. A string that already starts with `#` is kept; any other gets `#` in front. |
| ColorFormatConverterModel.EnsureHashPrefixIdempotent | TauriApi/Utilities/JsonConverters/ColorFormatConverter.cs:28-31 | Prefixing twice is prefixing once. |
| ColorFormatConverterModel.Read | TauriApi/Utilities/JsonConverters/ColorFormatConverter.cs:20-25 | Null or empty input gives `JsonException("Color value cannot be null or empty")`. |
| ColorFormatConverterModel.ReadMapsConstructor | TauriApi/Utilities/JsonConverters/ColorFormatConverter.cs:27-40 | On other input, the constructor gets the prefixed string. Its colour is returned; its `ArgumentException` becomes `JsonException("Invalid color format: " + prefixed)`; other exceptions pass through. |
| ColorFormatConverterModel.ReadIgnoresHashPrefix | TauriApi/Utilities/JsonConverters/ColorFormatConverter.cs:28-31 | A string without `#` reads exactly as the same string with `#`. |
| ColorFormatConverterModel.ReadJsonExceptions | TauriApi/Utilities/JsonConverters/ColorFormatConverter.cs:22-40 | `Read` raises `JsonException` exactly for null or empty input, or when the constructor raises `ArgumentException`. |

## Left out

- ModulesEventValue.GetTauriEventName and EventValue.GetTauriEventName: the
  enum is `int`-backed, so a caller can cast an undeclared value such as 14
  to it. For that value `GetMember` finds no member and `memberInfo[0]`
  raises `IndexOutOfRangeException`. The model's enum has only the 14
  declared members, so that path is not modelled.
- CustomEnumValueConverterModel.Read and ColorFormatConverterModel.Read: the
  input is a JSON string or null. Any other token (a number, an object)
  makes `reader.GetString()` raise `InvalidOperationException` before the
  converter's own logic runs; that path is not modelled.
- TauriEventManagerModel.TauriEventManager.Valid: the manager's invariant
  only says that the list holds no handler twice. "No disposed handler is
  listed" is not stated, because the list holds handlers of two classes
  whose `disposed` fields it cannot read uniformly.

- Asynchrony: every `await` is one sequential step. Interleaved calls, or
  JavaScript delivering a once event twice, are not modelled.
- The JavaScript bridge: `InvokeAsync`/`InvokeVoidAsync`, `DotNetObjectReference`
  and the objects behind handles. Bridge calls are entries of ghost logs; the
  handles, labels and unlisten functions the bridge returns are parameters.
  A bridge call that throws is not modelled: every bridge call completes.
- Callbacks: a callback is an identity, and running it is a log entry. A
  callback that throws (which would stop `InvokeEvent` before the once
  handler unregisters) is not modelled.
- The JavaScript callback closures in `tauri-api.js` that forward events to
  `TauriEventCallback` / `WindowEventCallback`, and the `console.log` calls.
  `getAppWindow` and `getWebviewWindowLabel` only read properties and are
  not modelled.
- TauriApiJsModel.TauriApiJs.AddWindowListenBind and `RemoveWindowListenBind`
  require that the window's map is not the global map. The module itself only
  ever stores a fresh `Map` on a window, so this holds for every window the
  module has touched; a window object with a foreign `eventCollection` is not
  modelled.
- The `label` property of a window or webview window is read over the bridge
  on every `Listen`/`Once`; the model keeps it as a constant of the object.
- TauriEventModuleModel.TauriEventModule.Once: `TauriEventModule.cs` calls
  `OnceEvent` on the interop class, which the shown
  `TauriApi/Utilities/TauriJsInterop.cs` does not define. The model logs it
  as a bridge call like `ListenEvent`.
- EventModel.CallbackStep: `Delegate.DynamicInvoke` on data of the wrong type
  throws; the model only records which handler is invoked, with which data.
- EventModel: the static dictionary is a field of one `Event` object; statics
  shared between several `Event` instances are not modelled.
- CustomEnumValueConverterModel.EnumParse: `Enum.Parse` also trims white
  space, accepts comma-separated flag lists and folds case beyond ASCII; the
  model accepts an optional sign and decimal digits, or a name equal ignoring
  ASCII case.
- CustomEnumValueConverterModel.Write: for a value shared by several members,
  .NET's `ToString` name choice is unspecified; the model takes the first
  field in declaration order.
- Reflection (`GetFields`, `GetCustomAttribute`): each enum is an explicit
  table of its fields in declaration order.
- ColorFormatConverterModel.Read: the `TauriColor(string)` constructor is not
  part of this model. It is a function parameter, so no claim that `Read`
  inverts `Write` is made.
- ColorFormatConverterModel.EnsureHashPrefix: `StartsWith("#")` is
  culture-sensitive in .NET, and ignorable characters in front of the `#`
  may count as no prefix; the model tests the first character.
- ColorFormatConverterModel.TauriColor: its definition is not part of this
  model; the channels are taken to be the `byte` values `X2` formats as two
  digits.
- The `EventTarget` JSON shape (`Label` omitted when null) is serializer
  behaviour and is not modelled.
