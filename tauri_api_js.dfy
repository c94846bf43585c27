/**
 * The JavaScript side, TauriApi/wwwroot/js/tauri-api.js.
 *
 * The module keeps a global `Map` from event name to the unlisten function
 * Tauri returned for it. `addListenBind` listens and stores the new unlisten
 * function under the name, replacing any earlier one. `removeListenBind`
 * calls the stored function and deletes the entry, and does nothing for a
 * name without one. The window variants do the same on a map stored on the
 * window object, which the first `addWindowListenBind` creates.
 *
 * Maps are values here with pure operations on them; the classes hold the
 * maps in place, and a ghost log of the module records the calls into
 * Tauri: a listen (global or on a window), or a call of a stored unlisten
 * function. The unlisten functions Tauri returns are parameters.
 */
module TauriApiJsModel {
  import opened Bridge

  /** An unlisten function returned by Tauri. Functions are truthy in JavaScript. */
  datatype UnlistenFn = UnlistenFn(id: nat)

  /** A call into Tauri. */
  datatype JsCall =
    | TauriListen(eventName: string)
    | WindowListen(windowLabel: string, eventName: string)
    | CalledUnlisten(fn: UnlistenFn)

  type Bindings = map<string, UnlistenFn>

  // ----- The map operations, as values -----

  /** `map.set(eventName, unlisten)`: the name now holds the newest function; other names keep theirs. */
  function AddBind(m: Bindings, eventName: string, unlisten: UnlistenFn): (m': Bindings)
    ensures eventName in m' && m'[eventName] == unlisten
    ensures forall n :: n != eventName ==> (n in m' <==> n in m)
    ensures forall n :: n != eventName && n in m ==> m'[n] == m[n]
  {
    m[eventName := unlisten]
  }

  /** The map after a removal, and the stored function called, if any. */
  datatype Removal = Removal(entries: Bindings, called: Option<UnlistenFn>)

  /**
   * The body of `removeListenBind` on a map: an absent name changes nothing
   * and calls nothing; a present one calls its stored function once and
   * loses its entry, and every other entry stays.
   */
  function RemoveBind(m: Bindings, eventName: string): (r: Removal)
    ensures eventName !in m ==> r.entries == m && r.called == None
    ensures eventName in m ==> r.called == Some(m[eventName])
    ensures eventName !in r.entries
    ensures forall n :: n != eventName ==> (n in r.entries <==> n in m)
    ensures forall n :: n != eventName && n in m ==> r.entries[n] == m[n]
  {
    if eventName in m then Removal(m - {eventName}, Some(m[eventName]))
    else Removal(m, None)
  }

  /** A window's `eventCollection`: absent (`None`) until the first window bind. */
  type WindowBindings = Option<Bindings>

  /** `addWindowListenBind` on the window's map, created empty when missing. */
  function AddWindowBind(w: WindowBindings, eventName: string, unlisten: UnlistenFn): (w': WindowBindings)
    ensures w'.Some?
    ensures w.None? ==> w'.value == map[eventName := unlisten]
    ensures w.Some? ==> w'.value == AddBind(w.value, eventName, unlisten)
  {
    var m := if w.Some? then w.value else map[];
    Some(AddBind(m, eventName, unlisten))
  }

  /** `removeWindowListenBind`: a window without a map, or a name without an entry, changes nothing. */
  function RemoveWindowBind(w: WindowBindings, eventName: string): (r: (WindowBindings, Option<UnlistenFn>))
    ensures w.None? ==> r == (None, None)
    ensures w.Some? ==> r.0 == Some(RemoveBind(w.value, eventName).entries) && r.1 == RemoveBind(w.value, eventName).called
  {
    if w.None? then (None, None)
    else
      var rm := RemoveBind(w.value, eventName);
      (Some(rm.entries), rm.called)
  }

  // ----- Properties -----

  /** A second bind of a name overwrites the first: the map is as if only the second had been made. */
  lemma AddBindOverwrites(m: Bindings, eventName: string, first: UnlistenFn, second: UnlistenFn)
    ensures AddBind(AddBind(m, eventName, first), eventName, second) == AddBind(m, eventName, second)
  {
  }

  /** Binding then removing a name calls the newest function and leaves the map as it was without that name. */
  lemma AddThenRemove(m: Bindings, eventName: string, unlisten: UnlistenFn)
    ensures RemoveBind(AddBind(m, eventName, unlisten), eventName) == Removal(m - {eventName}, Some(unlisten))
  {
  }

  /** Removing twice calls the stored function only the first time. */
  lemma RemoveTwiceCallsOnce(m: Bindings, eventName: string)
    ensures RemoveBind(RemoveBind(m, eventName).entries, eventName) == Removal(RemoveBind(m, eventName).entries, None)
  {
  }

  /** Binds of different names commute. */
  lemma DifferentNamesCommute(m: Bindings, a: string, b: string, u: UnlistenFn, v: UnlistenFn)
    requires a != b
    ensures AddBind(AddBind(m, a, u), b, v) == AddBind(AddBind(m, b, v), a, u)
  {
    assert m[a := u][b := v] == m[b := v][a := u];
  }

  /** A bind and a removal of different names commute, and the removal calls the same function either way. */
  lemma BindRemoveCommute(m: Bindings, a: string, b: string, u: UnlistenFn)
    requires a != b
    ensures RemoveBind(AddBind(m, a, u), b).entries == AddBind(RemoveBind(m, b).entries, a, u)
    ensures RemoveBind(AddBind(m, a, u), b).called == RemoveBind(m, b).called
  {
    assert m[a := u] - {b} == (m - {b})[a := u];
  }

  /** The window map is created by the first bind and kept by later binds: a later bind only adds to it. */
  lemma WindowMapCreatedOnce(eventName: string, other: string, u: UnlistenFn, v: UnlistenFn)
    requires eventName != other
    ensures AddWindowBind(AddWindowBind(None, eventName, u), other, v) == Some(map[eventName := u, other := v])
  {
  }

  // ----- The objects -----

  /** A JavaScript `Map` from event name to unlisten function. */
  class ListenerMap {
    var entries: Bindings

    constructor ()
      ensures entries == map[]
    {
      entries := map[];
    }
  }

  /** The window object Tauri passes in; the module adds `eventCollection` to it. */
  class AppWindow {
    const windowLabel: string
    var eventCollection: ListenerMap?

    constructor (windowLabel: string)
      ensures this.windowLabel == windowLabel && eventCollection == null
    {
      this.windowLabel := windowLabel;
      eventCollection := null;
    }

    /** `appWindow.eventCollection` as a value. */
    ghost function Bindings(): WindowBindings
      reads this, eventCollection
    {
      if eventCollection == null then None else Some(eventCollection.entries)
    }
  }

  /** The module: the global `eventCollection` and the calls it makes into Tauri. */
  class TauriApiJs {
    const eventCollection: ListenerMap
    ghost var calls: seq<JsCall>

    constructor ()
      ensures fresh(eventCollection) && eventCollection.entries == map[] && calls == []
    {
      eventCollection := new ListenerMap();
      calls := [];
    }

    /** `addListenBind(eventName)`; `unlisten` is what Tauri's `listen` resolves to. */
    method AddListenBind(eventName: string, unlisten: UnlistenFn)
      modifies this, eventCollection
      ensures eventCollection.entries == AddBind(old(eventCollection.entries), eventName, unlisten)
      ensures calls == old(calls) + [TauriListen(eventName)]
    {
      calls := calls + [TauriListen(eventName)];
      eventCollection.entries := eventCollection.entries[eventName := unlisten];
    }

    /** `removeListenBind(eventName)`. */
    method RemoveListenBind(eventName: string)
      modifies this, eventCollection
      ensures var r := RemoveBind(old(eventCollection.entries), eventName);
        eventCollection.entries == r.entries &&
        calls == old(calls) + (if r.called.Some? then [CalledUnlisten(r.called.value)] else [])
    {
      if eventName in eventCollection.entries {
        var unlisten := eventCollection.entries[eventName];
        calls := calls + [CalledUnlisten(unlisten)];
        eventCollection.entries := eventCollection.entries - {eventName};
      }
    }

    /**
     * `addWindowListenBind(appWindow, eventName)`. A window's map is
     * created here and nowhere else, so it is never the global map.
     */
    method AddWindowListenBind(appWindow: AppWindow, eventName: string, unlisten: UnlistenFn)
      requires appWindow.eventCollection != eventCollection
      modifies this, appWindow, appWindow.eventCollection
      ensures appWindow.eventCollection != null && appWindow.eventCollection != eventCollection
      ensures old(appWindow.eventCollection) != null ==> appWindow.eventCollection == old(appWindow.eventCollection)
      ensures old(appWindow.eventCollection) == null ==> fresh(appWindow.eventCollection)
      ensures appWindow.Bindings() == AddWindowBind(old(appWindow.Bindings()), eventName, unlisten)
      ensures eventCollection.entries == old(eventCollection.entries)
      ensures calls == old(calls) + [WindowListen(appWindow.windowLabel, eventName)]
    {
      calls := calls + [WindowListen(appWindow.windowLabel, eventName)];
      var windowEventCollection := appWindow.eventCollection;
      if windowEventCollection == null {
        windowEventCollection := new ListenerMap();
        appWindow.eventCollection := windowEventCollection;
      }
      windowEventCollection.entries := windowEventCollection.entries[eventName := unlisten];
    }

    /** `removeWindowListenBind(appWindow, eventName)`. */
    method RemoveWindowListenBind(appWindow: AppWindow, eventName: string)
      requires appWindow.eventCollection != eventCollection
      modifies this, appWindow.eventCollection
      ensures appWindow.eventCollection == old(appWindow.eventCollection)
      ensures var r := RemoveWindowBind(old(appWindow.Bindings()), eventName);
        appWindow.Bindings() == r.0 &&
        calls == old(calls) + (if r.1.Some? then [CalledUnlisten(r.1.value)] else [])
      ensures eventCollection.entries == old(eventCollection.entries)
    {
      var windowEventCollection := appWindow.eventCollection;
      if windowEventCollection != null {
        if eventName in windowEventCollection.entries {
          var unlisten := windowEventCollection.entries[eventName];
          calls := calls + [CalledUnlisten(unlisten)];
          windowEventCollection.entries := windowEventCollection.entries - {eventName};
        }
      }
    }
  }

  /**
   * A client: global binds leave a window's map alone, and window binds
   * leave the global map alone.
   */
  method SeparateMapsClient(api: TauriApiJs, appWindow: AppWindow, eventName: string, u: UnlistenFn, v: UnlistenFn)
    requires appWindow.eventCollection == null
    modifies api, api.eventCollection, appWindow
    ensures api.eventCollection.entries == old(api.eventCollection.entries) - {eventName}
    ensures appWindow.Bindings() == Some(map[eventName := v])
    ensures api.calls == old(api.calls) + [TauriListen(eventName), WindowListen(appWindow.windowLabel, eventName), CalledUnlisten(u)]
  {
    api.AddListenBind(eventName, u);
    api.AddWindowListenBind(appWindow, eventName, v);
    api.RemoveListenBind(eventName);
  }
}
