/**
 The vocabulary of the `login` command: what its collaborators can answer (the
 oracle), which calls it makes on them (the effects), and how it ends (the outcome).

 The command talks to a remote OAuth API, probes and selects a local callback port,
 starts a one-shot callback server, opens the browser and persists the tokens it
 obtains. None of those collaborators is modelled here: each is reduced to the value
 it returned, and every call is recorded, with its arguments, as an `Effect`.
 */
module LoginTypes {

  /** Ports travel through the command as strings, never as numbers. */
  type Port = string

  /** The fixed client type and provider sent with every OAuth request. */
  const ClientType: string := "CLI"
  const Provider: string := "GOOGLE_LOCALHOST"

  /** The redirect base the provider is told to call back: `http://localhost:<port>`. */
  const LocalhostPrefix: string := "http://localhost:"

  function RedirectBase(port: Port): (url: string)
    ensures |url| == |LocalhostPrefix| + |port|
    ensures url[..|LocalhostPrefix|] == LocalhostPrefix && url[|LocalhostPrefix|..] == port
  {
    LocalhostPrefix + port
  }

  /** Two redirect bases agree exactly when their ports do, so the redirect base
      sent to the provider pins down the port the callback must reach. */
  lemma RedirectBaseInjective(p: Port, q: Port)
    ensures RedirectBase(p) == RedirectBase(q) <==> p == q
  {
  }

  datatype Option<+T> = None | Some(value: T)

  /** What one call of the generated API client gave back: a decoded response, an
      API-level error (`GenericOpenAPIError`), or any other (network) error. */
  datatype CallResult<+T> =
    | Returned(value: T)
    | ApiError(message: string)
    | NetworkError(message: string)

  /** The OAuth login-URL response; `invokeUrl` and `alternativePorts` sit in its
      `Data` part. `alternativePorts` is the string exactly as the server sent it;
      the command only compares it with `""` and hands it to the selector. */
  datatype UrlResponse = UrlResponse(
    success: bool,
    code: string,
    requestId: string,
    traceId: string,
    invokeUrl: string,
    alternativePorts: string)

  /** The credentials inside a successful token exchange. The wire type of
      `expiresAt` is not visible to this model; it is carried as an opaque string. */
  datatype TokenData = TokenData(
    loginToken: string,
    sessionId: string,
    keepAliveToken: string,
    expiresAt: string)

  /** The token-exchange (`LoginTranslate`) response. */
  datatype TranslateResponse = TranslateResponse(
    success: bool,
    code: string,
    requestId: string,
    traceId: string,
    httpStatusCode: int,
    data: TokenData)

  /** The answer of the port selector for an occupied default port. */
  datatype PortSelection = Selected(port: Port) | SelectionFailed(message: string)

  /** Which of the three waits of the callback `select` fired first: the code
      channel, the error channel, or the expiry of the five-minute deadline. */
  datatype CallbackEvent =
    | CodeReceived(code: string)
    | ServerFailed(message: string)
    | DeadlineExpired

  /** Everything the collaborators answer during one login, in the order they are
      asked. A field the run never reaches is simply never consulted. */
  datatype Oracle = Oracle(
    defaultPort: Port,                        // auth.GetCallbackPort
    firstUrl: CallResult<UrlResponse>,        // GetLoginProviderURL
    defaultPortOccupied: bool,                // auth.IsPortOccupied(defaultPort)
    selection: PortSelection,                 // auth.SelectAvailablePort
    secondUrl: CallResult<UrlResponse>,       // GetLoginProviderURLWithPort
    browserOpened: bool,                      // browser.OpenURL succeeded
    callback: CallbackEvent,                  // the select over code, error and deadline
    exchange: CallResult<TranslateResponse>,  // LoginTranslateWithPort
    configLoaded: bool,                       // config.GetConfig succeeded
    tokensSaved: bool)                        // SaveTokens succeeded

  /** One call made on a collaborator, with the arguments the command passed.
      `RequestLoginUrl` with `localhostPort == None` is the first round
      (`GetLoginProviderURL`); with `Some(p)` it is the second round
      (`GetLoginProviderURLWithPort`). */
  datatype Effect =
    | RequestLoginUrl(redirectBase: string, clientType: string, provider: string, localhostPort: Option<Port>)
    | ProbePort(port: Port)
    | SelectPort(defaultPort: Port, alternatives: string)
    // the launch of the goroutine that calls `auth.StartCallbackServer`, not the bind
    | StartCallbackServer(port: Port)
    | OpenBrowser(url: string)
    | ExchangeCode(clientType: string, provider: string, code: string, port: Port)
    | LoadConfig
    | SaveTokens(loginToken: string, sessionId: string, keepAliveToken: string, expiresAt: string)

  /** Which of the two login-URL requests an error belongs to. */
  datatype Round = FirstRound | SecondRound

  /** Every error `runLogin` can return, one constructor per `return fmt.Errorf`. */
  datatype LoginError =
    | UrlApiError(round: Round, message: string)
    | UrlNetworkError(round: Round, message: string)
    | UrlRejected(round: Round, code: string)
    | NoAlternativePorts(defaultPort: Port)
    | PortSelectionFailed(message: string)
    | EmptyLoginUrl
    | CallbackFailed(message: string)
    | CallbackTimeout
    | ExchangeApiError(message: string)
    | ExchangeNetworkError(message: string)
    | ExchangeRejected(code: string)

  /** How persisting the tokens ended; none of these turns a login into an error. */
  datatype Persistence = TokensPersisted | ConfigNotLoaded | TokensNotPersisted

  /** The token fields whose emptiness is reported after a successful exchange. */
  datatype TokenField = LoginTokenField | SessionIdField | KeepAliveTokenField

  /** `LoggedIn` is the `nil` return; it also keeps how persistence went and which
      token fields were reported empty, which the command only prints. */
  datatype Outcome =
    | Failed(error: LoginError)
    | LoggedIn(persistence: Persistence, emptyFields: seq<TokenField>)

  /** A whole login: its outcome and the calls it made, in order. */
  datatype Run = Run(outcome: Outcome, trace: seq<Effect>)

  datatype Result<+T> = Ok(value: T) | Err(error: LoginError)
}
