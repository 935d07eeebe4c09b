// The main process's guard on renderer messages: every registered handler
// first checks the frame that sent the message and only then runs.
module Ipc {
  import opened Common

  /** `process.env.NODE_ENV === 'development'`; `None` is an unset variable. */
  predicate IsDev(nodeEnv: Option<string>) {
    nodeEnv == Some("development")
  }

  const DevServerHost := "localhost:5123"

  /** The frame check passes, or throws with this message. */
  datatype FrameCheck = Accepted | Rejected(message: string)

  /**
   * `validateEventFrame`. `host` is `new URL(url).host`, `None` when the URL
   * does not parse (the constructor throws, which is evaluated only in
   * development); `uiFileUrl` is the file URL of the bundled page.
   */
  function ValidateEventFrame(nodeEnv: Option<string>, url: string, host: Option<string>, uiFileUrl: string): (r: FrameCheck)
    ensures r == Accepted <==>
      (IsDev(nodeEnv) && host == Some(DevServerHost))
      || ((!IsDev(nodeEnv) || host.Some?) && StartsWith(url, uiFileUrl))
    ensures !IsDev(nodeEnv) ==> (r == Accepted <==> StartsWith(url, uiFileUrl))
    ensures r.Rejected? ==> r.message in {"Invalid URL", "Malicius Event"}
  {
    if IsDev(nodeEnv) && host.None? then Rejected("Invalid URL")
    else if IsDev(nodeEnv) && host == Some(DevServerHost) then Accepted
    else if !StartsWith(url, uiFileUrl) then Rejected("Malicius Event")
    else Accepted
  }

  /** What the renderer gets back from an invocation. */
  datatype Reply<R> = Threw(message: string) | Returned(value: Option<R>)

  /**
   * `ipcMainHandle(key, handler)` receiving `payload` from a frame that
   * checked as `check`; a handler that was not given makes the reply empty.
   */
  function Handle<P, R>(check: FrameCheck, handler: Option<P -> R>, payload: P): (r: Reply<R>)
    ensures r.Threw? <==> check.Rejected?
    ensures r.Threw? ==> r.message == check.message
    ensures check == Accepted && handler.Some? ==> r == Returned(Some(handler.value(payload)))
    ensures check == Accepted && handler.None? ==> r == Returned(None)
  {
    if check.Rejected? then Threw(check.message)
    else if handler.None? then Returned(None)
    else Returned(Some(handler.value(payload)))
  }

  /** `ipcMainOn(key, handler)`: the handler runs, on the payload as sent, only for an accepted frame. */
  function On<P, R>(check: FrameCheck, handler: P -> R, payload: P): (r: Option<R>)
    ensures r.Some? <==> check == Accepted
    ensures r.Some? ==> r.value == handler(payload)
  {
    if check == Accepted then Some(handler(payload)) else None
  }
}
