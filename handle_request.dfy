/** `handleRequest(handler)`: the wrapper around every controller handler that
    turns whatever the handler throws into an `HTTPError` passed to `next`. */
module HandleRequest {
  import opened Wrappers
  import opened Json
  import opened Http
  import ExceptionFilter

  /** How an async handler finished: it completed having done `step`
      (answered, or called `next`), or it threw. */
  datatype HandlerOutcome = Completed(step: Step) | Threw(thrown: Thrown)

  /** The wrapped handler: a completed handler's effect is kept; a thrown
      `HTTPError` is forwarded as a copy with the same status, message and
      context; anything else is forwarded as a 500 whose message is the
      thrown value's string form, with context `GENERAL`. */
  function HandleRequest(o: HandlerOutcome): (s: Step)
    ensures o.Completed? ==> s == o.step
    ensures o.Threw? ==> s.Forward? && s.err.HttpErr?
    ensures o.Threw? && o.thrown.HttpErr? ==> s.err == o.thrown
    ensures o.Threw? && o.thrown.OtherErr? ==>
      s.err.err.statusCode == 500 && s.err.err.context == Some("GENERAL") &&
      s.err.err.message == ErrorString(o.thrown.name, o.thrown.message)
  {
    match o
    case Completed(step) => step
    case Threw(HttpErr(e)) => Forward(HttpErr(HttpError(e.statusCode, e.message, e.context)))
    case Threw(OtherErr(name, message)) =>
      Forward(HttpErr(HttpError(500, ErrorString(name, message), Some("GENERAL"))))
  }

  /** Whatever a wrapped handler throws, the client sees the `HTTPError`
      envelope `{ success: false, errors: [...] }`, never the bare `{ err }`
      one; a non-HTTP error is answered 500 carrying `Name: message`. */
  lemma ThrownReachesClientAsHttpError(t: Thrown)
    ensures var r := ExceptionFilter.Catch(HandleRequest(Threw(t)).err);
      Field(r.body.json, "success") == Some(JBool(false)) &&
      (t.HttpErr? ==> r.status == t.err.statusCode &&
                      Field(r.body.json, "errors") == Some(JArr([JStr(t.err.message)]))) &&
      (t.OtherErr? ==> r.status == 500 &&
                       Field(r.body.json, "errors") == Some(JArr([JStr(ErrorString(t.name, t.message))])))
  {
  }

  /** `String(e)` keeps the message of a named error after `Name: `. */
  lemma ErrorStringOfNamed(name: string, message: string)
    requires name != "" && message != ""
    ensures ErrorString(name, message) == name + ": " + message
    ensures ErrorString(name, message)[|name| + 2..] == message
  {
  }
}
