/** The HTTP error handler installed on the server (api/error.go): turns an error that
    reached the framework into a log record and, unless the response is already
    committed, an error response. */
module ApiError {

  /** The JSON error body `{error: code, message: msg}`. */
  datatype ErrContent = ErrContent(code: int, message: string)

  /** The message of an `echo.HTTPError` is an `interface{}`: a string, or something else. */
  datatype Message = StringMessage(text: string) | OtherMessage

  /** The error handed to the handler; `text` is what its `Error()` method returns. */
  datatype Failure =
    | Plain(text: string)
    | HttpError(code: int, message: Message, text: string)

  datatype LogEntry = LogEntry(id: string, message: string, status: int)

  /** What goes onto the wire. */
  datatype Write = NothingWritten | NoContent(code: int) | Json(code: int, content: ErrContent)

  /** `Panicked` is the runtime panic of the type assertion `he.Message.(string)`. */
  datatype Handling = Handled(log: LogEntry, write: Write) | Panicked

  const StatusServiceUnavailable := 503
  const StatusTextServiceUnavailable := "Service Unavailable"
  const MethodHead := "HEAD"

  /** The error handler. `requestId` is the X-Request-ID response header, `debug` the
      framework's debug flag, `verb` the request method, `committed` whether a
      response has already been sent. */
  function Error(err: Failure, debug: bool, requestId: string, verb: string, committed: bool): (h: Handling)
    ensures h.Panicked? <==> err.HttpError? && err.message.OtherMessage?
    ensures h.Handled? ==> h.log.id == requestId
    // the status: 503 for errors that are not HTTP errors, the HTTP error's own code otherwise
    ensures h.Handled? && err.Plain? ==> h.log.status == StatusServiceUnavailable
    ensures h.Handled? && err.HttpError? ==> h.log.status == err.code
    // the message: the raw error text only in debug mode
    ensures h.Handled? && debug ==> h.log.message == err.text
    ensures h.Handled? && !debug && err.Plain? ==> h.log.message == StatusTextServiceUnavailable
    ensures h.Handled? && !debug && err.HttpError? ==> h.log.message == err.message.text
    // the write: nothing once committed, a bare status for HEAD, the JSON body otherwise
    ensures h.Handled? ==> (h.write.NothingWritten? <==> committed)
    ensures h.Handled? && !committed && verb == MethodHead ==> h.write == NoContent(h.log.status)
    ensures h.Handled? && !committed && verb != MethodHead ==>
              h.write == Json(h.log.status, ErrContent(h.log.status, h.log.message))
  {
    if err.HttpError? && err.message.OtherMessage? then Panicked
    else
      var code := if err.HttpError? then err.code else StatusServiceUnavailable;
      var msg := if err.HttpError? then err.message.text else StatusTextServiceUnavailable;
      var msg := if debug then err.text else msg;
      var write :=
        if committed then NothingWritten
        else if verb == MethodHead then NoContent(code)
        else Json(code, ErrContent(code, msg));
      Handled(LogEntry(requestId, msg, code), write)
  }

  /** Outside debug mode the raw text of an error never reaches the log or the client:
      two errors that differ only in their text are handled alike. */
  lemma RawTextHiddenOutsideDebug(e1: Failure, e2: Failure, requestId: string, verb: string, committed: bool)
    requires e1.Plain? == e2.Plain?
    requires e1.HttpError? ==> e1.code == e2.code && e1.message == e2.message
    ensures Error(e1, false, requestId, verb, committed) == Error(e2, false, requestId, verb, committed)
  {
  }
}
