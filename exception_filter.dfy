/** `ExceptionFilter.catch`: the one error handler at the end of the Express
    stack, turning a thrown value into the response. */
module ExceptionFilter {
  import opened Wrappers
  import opened Json
  import opened Http

  /** The response the filter writes for an error. An `HTTPError` is answered
      with its own status and `{ success: false, errors: [message] }`; any
      other error with 500 and `{ err: message }`. */
  function Catch(err: Thrown): (r: Response)
    ensures r.contentType == ApplicationJson && r.body.JsonBody?
    ensures err.HttpErr? ==>
      r.status == err.err.statusCode &&
      ObjectKeys(r.body.json) == ["success", "errors"] &&
      Field(r.body.json, "success") == Some(JBool(false)) &&
      Field(r.body.json, "errors") == Some(JArr([JStr(err.err.message)]))
    ensures err.OtherErr? ==>
      r.status == 500 &&
      ObjectKeys(r.body.json) == ["err"] &&
      Field(r.body.json, "err") == Some(JStr(err.message))
  {
    match err
    case HttpErr(e) =>
      var fields := [("success", JBool(false)), ("errors", JArr([JStr(e.message)]))];
      GetAt(fields, 1);
      JsonResponse(e.statusCode, JObj(fields))
    case OtherErr(_, message) =>
      JsonResponse(500, JObj([("err", JStr(message))]))
  }

  /** The envelope tells the two kinds apart: only an `HTTPError` answer carries
      `success`, and its context never reaches the client. */
  lemma CatchEnvelopes(a: Thrown, b: Thrown)
    ensures (Field(Catch(a).body.json, "success") == Some(JBool(false))) <==> a.HttpErr?
    ensures a.HttpErr? && b.HttpErr? && a.err.statusCode == b.err.statusCode && a.err.message == b.err.message
      ==> Catch(a) == Catch(b)
  {
    GetSpec(Catch(a).body.json.fields, "success");
  }
}
