/** `App`: the Express application, its configuration-derived settings, the
    CORS origin check and the order in which the layers are installed. */
module App {
  import opened Wrappers
  import opened Json
  import opened Http
  import opened JsString
  import ExceptionFilter

  // ---- settings ---------------------------------------------------------

  /** `+configService.get('PORT') || 9999`: the port when it reads as a
      non-zero number, otherwise 9999. */
  function Port(config: Config): (p: int)
    ensures p != 0
    ensures p == 9999 <==> ToNumber(ConfigGet(config, "PORT")) in {None, Some(0), Some(9999)}
  {
    match ToNumber(ConfigGet(config, "PORT"))
    case Some(n) => if n != 0 then n else 9999
    case None => 9999
  }

  /** A port written in decimal is the port used. */
  lemma PortOfNumber(config: Config, n: nat)
    requires n > 0 && ConfigGet(config, "PORT") == Some(Show(n))
    ensures Port(config) == n
  {
    ToNumberShow(n);
  }

  /** `NODE_ENV === Mode.DEVELOPMENT`. */
  predicate IsDev(config: Config) {
    ConfigGet(config, "NODE_ENV") == Some("development")
  }

  // ---- CORS -------------------------------------------------------------

  /** `origins ? origins.split(',') : []`. The entries are not trimmed. */
  function ParseOrigins(config: Config): (list: seq<string>)
    ensures ConfigGet(config, "CORS_ORIGIN") in {None, Some("")} ==> list == []
    ensures ConfigGet(config, "CORS_ORIGIN").Some? && ConfigGet(config, "CORS_ORIGIN").value != "" ==>
      |list| >= 1 && Join(list, ',') == ConfigGet(config, "CORS_ORIGIN").value &&
      forall k :: 0 <= k < |list| ==> ',' !in list[k]
  {
    match ConfigGet(config, "CORS_ORIGIN")
    case None => []
    case Some(origins) =>
      if origins == "" then []
      else
        JoinSplit(origins, ',');
        Split(origins, ',')
  }

  datatype CorsDecision = Allow | Reject(err: Thrown)

  const NotAllowed: Thrown := OtherErr("Error", "Not allowed by CORS")

  /** The `origin` callback: requests without an origin, or whose origin is
      blank once trimmed, are allowed; otherwise the trimmed origin must be
      an entry of the list exactly. */
  function CorsOrigin(allowList: seq<string>, origin: Option<string>): (d: CorsDecision)
    ensures d.Reject? ==> d.err == NotAllowed
    ensures d == Allow <==>
      origin.None? || Trim(origin.value) == "" || Trim(origin.value) in allowList
  {
    var trimmed := if origin.Some? && origin.value != "" then Some(Trim(origin.value)) else None;
    if trimmed.None? || trimmed.value == "" || trimmed.value in allowList then Allow
    else Reject(NotAllowed)
  }

  /** An entry with white space at either end can never match, since the
      origin it is compared with has been trimmed. */
  lemma UntrimmedEntryNeverMatches(allowList: seq<string>, entry: string, origin: string)
    requires entry != [] && (IsSpace(entry[0]) || IsSpace(entry[|entry| - 1]))
    ensures Trim(origin) != entry
  {
    TrimmedHasNoOuterSpace(origin);
  }

  /** So a list written with a space after the comma admits only its first
      origin: `"a, b"` refuses the origin `b`. */
  lemma SpacedListRejectsSecond()
    ensures var list := ParseOrigins(map["CORS_ORIGIN" := "a, b"]);
      list == ["a", " b"] && CorsOrigin(list, Some("b")) == Reject(NotAllowed)
  {
    var v := "a, b";
    assert v == "a" + [','] + " b";
    SplitAfterWord("a", ',', " b");
    SplitWord(" b", ',');
    assert ParseOrigins(map["CORS_ORIGIN" := v]) == Split(v, ',');
    assert !IsSpace('b');
    TrimUnchanged("b");
  }

  /** The CORS error reaches the exception filter as a plain `Error`: 500 with
      `{ err: 'Not allowed by CORS' }`. */
  lemma CorsRejectionAnswer()
    ensures ExceptionFilter.Catch(NotAllowed).status == 500
    ensures Field(ExceptionFilter.Catch(NotAllowed).body.json, "err") == Some(JStr("Not allowed by CORS"))
  {
  }

  // ---- answering --------------------------------------------------------

  /** What the client receives for the step a request ended with: the answer
      written, or the exception filter's answer to a forwarded or thrown
      error; `None` when nothing is written by the core. */
  function Respond(s: Step): (r: Option<Response>)
    ensures s.Reply? ==> r == Some(s.response)
    ensures s.Forward? ==> r == Some(ExceptionFilter.Catch(s.err))
    ensures s.Raise? ==> r == Some(ExceptionFilter.Catch(s.thrown))
    ensures s.Continue? || s.Stall? ==> r.None?
  {
    match s
    case Reply(resp) => Some(resp)
    case Forward(e) => Some(ExceptionFilter.Catch(e))
    case Raise(e) => Some(ExceptionFilter.Catch(e))
    case _ => None
  }

  // ---- the application --------------------------------------------------

  /** The layers `app.use` installs. */
  datatype Layer =
    | AuthLayer
    | CorsLayer(allowList: seq<string>)
    | JsonBodyLayer
    | PassportLayer
    | RoutesLayer(mount: string)
    | ExceptionFilterLayer

  class App {
    var stack: seq<Layer>
    const config: Config
    const port: int
    const isDev: bool

    constructor(config: Config)
      ensures this.config == config && stack == []
      ensures port == Port(config) && isDev == IsDev(config)
    {
      this.config := config;
      stack := [];
      port := Port(config);
      isDev := IsDev(config);
    }

    /** `useMiddleware`: the auth middleware first, then CORS, the JSON body
        parser and passport. */
    method UseMiddleware()
      modifies this
      ensures stack == old(stack) + [AuthLayer, CorsLayer(ParseOrigins(config)), JsonBodyLayer, PassportLayer]
    {
      var parsedOrigins := ParseOrigins(config);
      stack := stack + [AuthLayer];
      stack := stack + [CorsLayer(parsedOrigins)];
      stack := stack + [JsonBodyLayer];
      stack := stack + [PassportLayer];
    }

    /** `useRoutes`: the user router under `/api/user`. */
    method UseRoutes()
      modifies this
      ensures stack == old(stack) + [RoutesLayer("/api/user")]
    {
      stack := stack + [RoutesLayer("/api/user")];
    }

    /** `useExceptionFilters`: the error handler. */
    method UseExceptionFilters()
      modifies this
      ensures stack == old(stack) + [ExceptionFilterLayer]
    {
      stack := stack + [ExceptionFilterLayer];
    }

    /** `init`: middleware, then routes, then the exception filter last, so
        that every error a route forwards reaches it. */
    method Init()
      modifies this
      ensures stack == old(stack) + [AuthLayer, CorsLayer(ParseOrigins(config)), JsonBodyLayer, PassportLayer,
                                     RoutesLayer("/api/user"), ExceptionFilterLayer]
      ensures stack[|stack| - 1] == ExceptionFilterLayer
    {
      UseMiddleware();
      UseRoutes();
      UseExceptionFilters();
    }
  }
}
