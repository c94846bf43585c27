/** Values shared by every part of the model: what crosses the JavaScript bridge. */
module Bridge {

  /** A nullable reference (`T?` in C#, `undefined` in JavaScript). */
  datatype Option<+T> = None | Some(value: T)

  /** An opaque `IJSObjectReference` to a JavaScript object, returned by a bridge call. */
  datatype JsHandle = JsHandle(id: nat)

  /** The identity of a .NET delegate a caller registers as an event callback. */
  datatype Callback = Callback(id: nat)
}
