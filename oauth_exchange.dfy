/** The OAuth code-exchange Lambda (apps/api/src/lambdas/github-oauth-exchange.ts):
    a ladder of early returns that maps a request, the configured client
    credentials and GitHub's answer to one HTTP response. JSON parsing and
    the call to GitHub are oracle parameters. */
module OAuthExchange {
  import opened Wrappers

  /** The fixed CORS headers, in the order the handler lists them. */
  const CorsHeaders: seq<(string, string)> := [
    ("Content-Type", "application/json"),
    ("Access-Control-Allow-Origin", "*"),
    ("Access-Control-Allow-Headers", "Content-Type"),
    ("Access-Control-Allow-Methods", "POST, OPTIONS")
  ]

  /** The incoming API Gateway event, as far as the handler reads it. */
  datatype Event = Event(httpMethod: string, body: Option<string>)

  /** The value of the `code` property of the parsed body. Only its
      truthiness decides anything here; a string is kept as text. */
  datatype CodeValue = CodeText(text: string) | OtherJson(truthy: bool)

  /** What `JSON.parse(event.body)` gives, as far as the handler looks. */
  datatype ParsedBody =
    | Malformed                          // JSON.parse throws
    | NullBody                           // `null`: reading `.code` throws
    | Parsed(code: Option<CodeValue>)    // any other value; None when `code` is absent

  /** The Lambda's environment: `process.env.X || ''`. */
  datatype Config = Config(clientId: string, clientSecret: string)

  /** The body of the POST to GitHub's token endpoint. */
  datatype ExchangeCall = ExchangeCall(clientId: string, clientSecret: string, code: CodeValue)

  /** GitHub's token response body, when it is JSON. */
  datatype TokenJson =
    | NotAnObject                        // `null` or similar: reading a property throws
    | TokenFields(accessToken: Option<string>, tokenType: Option<string>, scope: Option<string>)

  /** The outcome of the `fetch` to GitHub. */
  datatype GitHubReply =
    | FetchFailed                        // the promise rejects
    | NotOk                              // `!tokenResponse.ok`
    | OkReply(json: Option<TokenJson>)   // None when `.json()` rejects

  /** Why the `catch` block was entered. The thrown error's message text is
      engine-specific and is not modelled. */
  datatype Thrown = ParseError | NullCode | NetworkFailure | BadTokenJson

  datatype ResponseBody =
    | EmptyText
    | ErrorJson(error: string)
    | InternalError(cause: Thrown)
    | TokenBody(accessToken: string, tokenType: Option<string>, scope: Option<string>)

  datatype Response = Response(statusCode: int, headers: seq<(string, string)>, body: ResponseBody)

  /** `!x` for a string that may be absent. */
  predicate Falsy(s: Option<string>) {
    s == None || s == Some("")
  }

  predicate CodeTruthy(c: Option<CodeValue>) {
    match c
    case None => false
    case Some(CodeText(t)) => t != ""
    case Some(OtherJson(truthy)) => truthy
  }

  function Reply(status: int, body: ResponseBody): Response {
    Response(status, CorsHeaders, body)
  }

  /** The checks made before GitHub is called: `Some` is the response they
      return early, `None` means the handler goes on to call GitHub. */
  function Early(event: Event, config: Config, parse: string -> ParsedBody): (r: Option<Response>)
    ensures r.Some? ==> r.value.headers == CorsHeaders
    ensures r.None? <==>
      && event.httpMethod == "POST" && !Falsy(event.body)
      && parse(event.body.value).Parsed? && CodeTruthy(parse(event.body.value).code)
      && config.clientId != "" && config.clientSecret != ""
    ensures event.httpMethod == "POST" && !Falsy(event.body) && !parse(event.body.value).Parsed? ==>
      r.Some? && r.value.statusCode == 500
  {
    if event.httpMethod == "OPTIONS" then Some(Reply(200, EmptyText))
    else if event.httpMethod != "POST" then Some(Reply(405, ErrorJson("Method not allowed")))
    else if Falsy(event.body) then Some(Reply(400, ErrorJson("Missing request body")))
    else match parse(event.body.value)
      case Malformed => Some(Reply(500, InternalError(ParseError)))
      case NullBody => Some(Reply(500, InternalError(NullCode)))
      case Parsed(code) =>
        if !CodeTruthy(code) then Some(Reply(400, ErrorJson("Missing authorization code")))
        else if config.clientId == "" || config.clientSecret == "" then
          Some(Reply(500, ErrorJson("OAuth not configured")))
        else None
  }

  /** The request sent to GitHub once the early checks pass. */
  function Call(event: Event, config: Config, parse: string -> ParsedBody): (c: ExchangeCall)
    requires Early(event, config, parse).None?
    ensures c.clientId == config.clientId && c.clientSecret == config.clientSecret
    ensures Some(c.code) == parse(event.body.value).code
  {
    ExchangeCall(config.clientId, config.clientSecret, parse(event.body.value).code.value)
  }

  /** How GitHub's answer is mapped to the response. */
  function FromReply(reply: GitHubReply): (r: Response)
    ensures r.statusCode == 200 || r.statusCode == 500
    ensures r.statusCode == 200 <==>
      reply.OkReply? && reply.json.Some? && reply.json.value.TokenFields? && !Falsy(reply.json.value.accessToken)
  {
    match reply
    case FetchFailed => Reply(500, InternalError(NetworkFailure))
    case NotOk => Reply(500, ErrorJson("Token exchange failed"))
    case OkReply(None) => Reply(500, InternalError(BadTokenJson))
    case OkReply(Some(NotAnObject)) => Reply(500, InternalError(BadTokenJson))
    case OkReply(Some(TokenFields(accessToken, tokenType, scope))) =>
      if Falsy(accessToken) then Reply(500, ErrorJson("Invalid token response"))
      else Reply(200, TokenBody(accessToken.value, tokenType, scope))
  }

  /** `handler`: `exchange` answers the POST to GitHub's token endpoint. */
  function Handler(
    event: Event, config: Config, parse: string -> ParsedBody, exchange: ExchangeCall -> GitHubReply
  ): (r: Response)
    ensures r.headers == CorsHeaders
    ensures r.statusCode in {200, 400, 405, 500}
  {
    match Early(event, config, parse)
    case Some(early) => early
    case None => FromReply(exchange(Call(event, config, parse)))
  }

  /** A preflight request gets 200 with an empty body, whatever else holds. */
  lemma PreflightFirst(event: Event, config: Config, parse: string -> ParsedBody, exchange: ExchangeCall -> GitHubReply)
    requires event.httpMethod == "OPTIONS"
    ensures Handler(event, config, parse, exchange) == Response(200, CorsHeaders, EmptyText)
  {
  }

  /** Every method other than OPTIONS and POST is refused with 405. */
  lemma OnlyPostAccepted(event: Event, config: Config, parse: string -> ParsedBody, exchange: ExchangeCall -> GitHubReply)
    ensures Handler(event, config, parse, exchange).statusCode == 405 <==>
      event.httpMethod != "OPTIONS" && event.httpMethod != "POST"
  {
  }

  /** A POST is answered 400 exactly when its body is missing or empty, or
      parses to a value whose `code` is falsy. */
  lemma BadRequestIff(event: Event, config: Config, parse: string -> ParsedBody, exchange: ExchangeCall -> GitHubReply)
    requires event.httpMethod == "POST"
    ensures Handler(event, config, parse, exchange).statusCode == 400 <==>
      Falsy(event.body) || (parse(event.body.value).Parsed? && !CodeTruthy(parse(event.body.value).code))
  {
    if !Falsy(event.body) && parse(event.body.value).Parsed? && CodeTruthy(parse(event.body.value).code)
      && config.clientId != "" && config.clientSecret != "" {
      var r := FromReply(exchange(Call(event, config, parse)));
      assert r.statusCode != 400;
    }
  }

  /** Missing credentials give 500 without contacting GitHub: the response
      is the same whatever GitHub would have answered. */
  lemma NoCallWithoutCredentials(
    event: Event, config: Config, parse: string -> ParsedBody,
    exchange1: ExchangeCall -> GitHubReply, exchange2: ExchangeCall -> GitHubReply)
    requires event.httpMethod == "POST" && !Falsy(event.body)
    requires parse(event.body.value).Parsed? && CodeTruthy(parse(event.body.value).code)
    requires config.clientId == "" || config.clientSecret == ""
    ensures Handler(event, config, parse, exchange1).statusCode == 500
    ensures Handler(event, config, parse, exchange1) == Handler(event, config, parse, exchange2)
  {
  }

  /** 200 with a token body exactly when every check passes and GitHub
      answers with JSON carrying a non-empty `access_token`; the body is then
      exactly `access_token`, `token_type` and `scope` from that answer. */
  lemma SuccessIff(event: Event, config: Config, parse: string -> ParsedBody, exchange: ExchangeCall -> GitHubReply)
    ensures var r := Handler(event, config, parse, exchange);
      r.statusCode == 200 && r.body.TokenBody? <==>
        && Early(event, config, parse).None?
        && var reply := exchange(Call(event, config, parse));
           reply.OkReply? && reply.json.Some? && reply.json.value.TokenFields?
           && !Falsy(reply.json.value.accessToken)
    ensures var r := Handler(event, config, parse, exchange);
      r.body.TokenBody? ==>
        && Early(event, config, parse).None?
        && var t := exchange(Call(event, config, parse)).json.value;
           r.body == TokenBody(t.accessToken.value, t.tokenType, t.scope)
  {
  }

  /** A POST whose body does not parse, or parses to `null`, ends in the
      `catch` block: 500 with the cause, and GitHub is never asked. */
  lemma UnparsableBodyIsServerError(
    event: Event, config: Config, parse: string -> ParsedBody, exchange: ExchangeCall -> GitHubReply)
    requires event.httpMethod == "POST" && !Falsy(event.body)
    requires !parse(event.body.value).Parsed?
    ensures var r := Handler(event, config, parse, exchange);
      && r.statusCode == 500
      && r.body == InternalError(if parse(event.body.value).Malformed? then ParseError else NullCode)
  {
  }

  /** A POST is answered 200 exactly when every early check passes and
      GitHub returns a usable token; every other POST that is not a bad
      request gets 500. */
  lemma PostOutcomes(event: Event, config: Config, parse: string -> ParsedBody, exchange: ExchangeCall -> GitHubReply)
    requires event.httpMethod == "POST"
    ensures var r := Handler(event, config, parse, exchange);
      r.statusCode == 200 <==>
        && Early(event, config, parse).None?
        && var reply := exchange(Call(event, config, parse));
           reply.OkReply? && reply.json.Some? && reply.json.value.TokenFields?
           && !Falsy(reply.json.value.accessToken)
    ensures Handler(event, config, parse, exchange).statusCode in {200, 400, 500}
  {
  }
}
