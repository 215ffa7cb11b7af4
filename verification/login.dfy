/**
 `runLogin` of the `login` command as a pure function of what its collaborators
 answered. Printing, the OAuth request timeouts, the 100 ms start-up sleep and the
 goroutine are gone; what is left is the order of the calls, the arguments threaded
 into them, and the way each answer decides the next step.
 */
module Login {
  import opened LoginTypes

  /** The port the callback server will use, with the login-URL response that
      announced it to the provider. */
  datatype FinalUrl = FinalUrl(port: Port, response: UrlResponse)

  /** The result of the URL and port stage, with the calls it made. */
  datatype Negotiation = Negotiation(result: Result<FinalUrl>, trace: seq<Effect>)

  /** The first-round request: the redirect base carries the default port and no
      explicit localhost port is passed. */
  function FirstRequest(o: Oracle): Effect
  {
    RequestLoginUrl(RedirectBase(o.defaultPort), ClientType, Provider, None)
  }

  /** The second-round request, with the selected port both in the redirect base
      and as the explicit localhost port. */
  function SecondRequest(port: Port): Effect
  {
    RequestLoginUrl(RedirectBase(port), ClientType, Provider, Some(port))
  }

  /** The `SaveTokens` call for a token bundle, its four fields in the order the
      configuration expects them. */
  function PersistCall(d: TokenData): Effect
  {
    SaveTokens(d.loginToken, d.sessionId, d.keepAliveToken, d.expiresAt)
  }

  /** Judges one login-URL answer: an API error, a network error and a response
      whose `Success` is false each stop the login, attributed to their round; only
      a successful response goes on. */
  function CheckUrlResponse(round: Round, answer: CallResult<UrlResponse>): (r: Result<UrlResponse>)
    ensures r.Ok? <==> answer.Returned? && answer.value.success
    ensures r.Ok? ==> r.value == answer.value
    ensures r.Err? ==> (r.error.UrlApiError? || r.error.UrlNetworkError? || r.error.UrlRejected?) && r.error.round == round
    ensures answer.ApiError? ==> r == Err(UrlApiError(round, answer.message))
    ensures answer.NetworkError? ==> r == Err(UrlNetworkError(round, answer.message))
    ensures answer.Returned? && !answer.value.success ==> r == Err(UrlRejected(round, answer.value.code))
  {
    match answer
    case ApiError(m) => Err(UrlApiError(round, m))
    case NetworkError(m) => Err(UrlNetworkError(round, m))
    case Returned(response) =>
      if !response.success then Err(UrlRejected(round, response.code)) else Ok(response)
  }

  /** The port stage, entered after a successful first response: keep the default
      port when it is free; otherwise require alternatives, let the selector pick
      one, and ask for a fresh login URL that carries the picked port. */
  function ChoosePort(o: Oracle, first: UrlResponse): (n: Negotiation)
    ensures |n.trace| >= 1 && n.trace[0] == ProbePort(o.defaultPort)
    // a free default port is kept, with the first response, and nothing else is asked
    ensures !o.defaultPortOccupied ==> n.result == Ok(FinalUrl(o.defaultPort, first)) && |n.trace| == 1
    // an occupied default port with no alternatives fails before the selector is asked
    ensures o.defaultPortOccupied && first.alternativePorts == "" ==>
              n.result == Err(NoAlternativePorts(o.defaultPort)) && |n.trace| == 1
    // an occupied default port goes on exactly when selection and the second round succeed
    ensures o.defaultPortOccupied ==>
              (n.result.Ok? <==> first.alternativePorts != "" && o.selection.Selected?
                                 && o.secondUrl.Returned? && o.secondUrl.value.success)
    ensures o.defaultPortOccupied && first.alternativePorts != "" ==>
              |n.trace| >= 2 && n.trace[1] == SelectPort(o.defaultPort, first.alternativePorts)
    // a failed selection is reported with the selector's message
    ensures o.defaultPortOccupied && first.alternativePorts != "" && o.selection.SelectionFailed? ==>
              n.result == Err(PortSelectionFailed(o.selection.message))
    // a failed second request is reported as a second-round error
    ensures o.defaultPortOccupied && first.alternativePorts != "" && o.selection.Selected? && n.result.Err? ==>
              n.result == Err(CheckUrlResponse(SecondRound, o.secondUrl).error)
    // the selected port is the one requested in the second round and the one kept
    ensures o.defaultPortOccupied && n.result.Ok? ==>
              && n.result.value.port == o.selection.port
              && n.result.value.response == o.secondUrl.value
              && n.trace[|n.trace| - 1] ==
                   RequestLoginUrl(RedirectBase(o.selection.port), ClientType, Provider, Some(o.selection.port))
    // a second round is only ever made with the selector's port, in the redirect base
    // and as the explicit localhost port
    ensures forall e :: e in n.trace && e.RequestLoginUrl? ==>
              && o.selection.Selected?
              && e == RequestLoginUrl(RedirectBase(o.selection.port), ClientType, Provider, Some(o.selection.port))
  {
    if !o.defaultPortOccupied then
      Negotiation(Ok(FinalUrl(o.defaultPort, first)), [ProbePort(o.defaultPort)])
    else if first.alternativePorts == "" then
      Negotiation(Err(NoAlternativePorts(o.defaultPort)), [ProbePort(o.defaultPort)])
    else
      var asked := [ProbePort(o.defaultPort), SelectPort(o.defaultPort, first.alternativePorts)];
      match o.selection
      case SelectionFailed(m) => Negotiation(Err(PortSelectionFailed(m)), asked)
      case Selected(port) =>
        match CheckUrlResponse(SecondRound, o.secondUrl)
        case Err(e) => Negotiation(Err(e), asked + [SecondRequest(port)])
        case Ok(second) => Negotiation(Ok(FinalUrl(port, second)), asked + [SecondRequest(port)])
  }

  /** The whole URL and port stage: the first request, then `ChoosePort`. */
  function Negotiate(o: Oracle): (n: Negotiation)
    ensures |n.trace| >= 1 && n.trace[0] == RequestLoginUrl(RedirectBase(o.defaultPort), ClientType, Provider, None)
    // a failed first round stops everything after it, with the first-round error of its kind
    ensures !(o.firstUrl.Returned? && o.firstUrl.value.success) ==>
              && n.trace == [RequestLoginUrl(RedirectBase(o.defaultPort), ClientType, Provider, None)]
              && n.result == Err(CheckUrlResponse(FirstRound, o.firstUrl).error)
              && (n.result.error.UrlApiError? || n.result.error.UrlNetworkError? || n.result.error.UrlRejected?)
              && n.result.error.round == FirstRound
    // the port kept is the default one or the selector's, never another
    ensures n.result.Ok? ==>
              || (n.result.value.port == o.defaultPort && !o.defaultPortOccupied)
              || (o.selection.Selected? && n.result.value.port == o.selection.port)
  {
    match CheckUrlResponse(FirstRound, o.firstUrl)
    case Err(e) => Negotiation(Err(e), [FirstRequest(o)])
    case Ok(first) =>
      var c := ChoosePort(o, first);
      Negotiation(c.result, [FirstRequest(o)] + c.trace)
  }

  /** Where `TokenField` `f` sits in the order the fields are reported. */
  function FieldRank(f: TokenField): nat
  {
    match f
    case LoginTokenField => 0
    case SessionIdField => 1
    case KeepAliveTokenField => 2
  }

  /** The token fields reported as empty after a successful exchange. The expiry is
      never checked. */
  function EmptyTokenFields(d: TokenData): (fs: seq<TokenField>)
    ensures LoginTokenField in fs <==> d.loginToken == ""
    ensures SessionIdField in fs <==> d.sessionId == ""
    ensures KeepAliveTokenField in fs <==> d.keepAliveToken == ""
    ensures forall i, j :: 0 <= i < j < |fs| ==> FieldRank(fs[i]) < FieldRank(fs[j])
  {
    (if d.loginToken == "" then [LoginTokenField] else [])
    + (if d.sessionId == "" then [SessionIdField] else [])
    + (if d.keepAliveToken == "" then [KeepAliveTokenField] else [])
  }

  /** The exchange stage, entered with the code from the callback: trade the code
      for tokens on the final port and, only on a successful exchange, load the
      configuration and save the tokens. Neither a missing configuration nor a
      failed save turns the login into an error. */
  function Exchange(o: Oracle, code: string, port: Port): (r: Run)
    ensures |r.trace| >= 1 && r.trace[0] == ExchangeCode(ClientType, Provider, code, port)
    ensures r.outcome.LoggedIn? <==> o.exchange.Returned? && o.exchange.value.success
    // a failed exchange makes no further call
    ensures r.outcome.Failed? ==> |r.trace| == 1
    ensures o.exchange.ApiError? ==> r.outcome == Failed(ExchangeApiError(o.exchange.message))
    ensures o.exchange.NetworkError? ==> r.outcome == Failed(ExchangeNetworkError(o.exchange.message))
    ensures o.exchange.Returned? && !o.exchange.value.success ==>
              r.outcome == Failed(ExchangeRejected(o.exchange.value.code))
    // the tokens are saved only after a successful exchange and a loaded configuration,
    // once, with exactly the exchanged fields
    ensures (exists e :: e in r.trace && e.SaveTokens?) <==> r.outcome.LoggedIn? && o.configLoaded
    ensures forall e :: e in r.trace && e.SaveTokens? ==>
              && o.exchange.Returned?
              && e == SaveTokens(o.exchange.value.data.loginToken, o.exchange.value.data.sessionId,
                                 o.exchange.value.data.keepAliveToken, o.exchange.value.data.expiresAt)
    ensures r.outcome.LoggedIn? ==>
              && (r.outcome.persistence == ConfigNotLoaded <==> !o.configLoaded)
              && (r.outcome.persistence == TokensPersisted <==> o.configLoaded && o.tokensSaved)
              && r.outcome.emptyFields == EmptyTokenFields(o.exchange.value.data)
  {
    var call := ExchangeCode(ClientType, Provider, code, port);
    match o.exchange
    case ApiError(m) => Run(Failed(ExchangeApiError(m)), [call])
    case NetworkError(m) => Run(Failed(ExchangeNetworkError(m)), [call])
    case Returned(t) =>
      if !t.success then Run(Failed(ExchangeRejected(t.code)), [call])
      else
        var empty := EmptyTokenFields(t.data);
        if !o.configLoaded then Run(LoggedIn(ConfigNotLoaded, empty), [call, LoadConfig])
        else
          var saved := if o.tokensSaved then TokensPersisted else TokensNotPersisted;
          var trace := [call, LoadConfig, PersistCall(t.data)];
          assert trace[2].SaveTokens?;
          Run(LoggedIn(saved, empty), trace)
  }

  /** Everything after the URL and port stage: refuse an empty URL, launch the
      callback server's goroutine on the final port and open the browser at the URL, then follow
      whichever of code, server error and deadline arrives first. The browser's
      answer is only printed, so it is never consulted. */
  function Listen(o: Oracle, f: FinalUrl): (r: Run)
    // an empty URL fails before the server starts or the browser opens
    ensures f.response.invokeUrl == "" <==> r == Run(Failed(EmptyLoginUrl), [])
    ensures f.response.invokeUrl != "" ==>
              |r.trace| >= 2 && r.trace[0] == StartCallbackServer(f.port)
              && r.trace[1] == OpenBrowser(f.response.invokeUrl)
    // a server error or the deadline ends the login before any exchange
    ensures f.response.invokeUrl != "" && o.callback.ServerFailed? ==>
              r == Run(Failed(CallbackFailed(o.callback.message)), r.trace) && |r.trace| == 2
    ensures f.response.invokeUrl != "" && o.callback.DeadlineExpired? ==>
              r == Run(Failed(CallbackTimeout), r.trace) && |r.trace| == 2
    // a delivered code is exchanged, exactly as delivered, on the server's port
    ensures f.response.invokeUrl != "" && o.callback.CodeReceived? ==>
              |r.trace| >= 3 && r.trace[2] == ExchangeCode(ClientType, Provider, o.callback.code, f.port)
    // after a delivered code the login ends exactly as the exchange stage does
    ensures f.response.invokeUrl != "" && o.callback.CodeReceived? ==>
              var x := Exchange(o, o.callback.code, f.port);
              r.outcome == x.outcome && r.trace[2..] == x.trace
  {
    if f.response.invokeUrl == "" then Run(Failed(EmptyLoginUrl), [])
    else
      var launched := [StartCallbackServer(f.port), OpenBrowser(f.response.invokeUrl)];
      match o.callback
      case ServerFailed(m) => Run(Failed(CallbackFailed(m)), launched)
      case DeadlineExpired => Run(Failed(CallbackTimeout), launched)
      case CodeReceived(code) =>
        var x := Exchange(o, code, f.port);
        Run(x.outcome, launched + x.trace)
  }

  /** How a login ends once the URL and port stage has made its calls `n.trace`:
      with that stage's error, or by `Listen` on what it settled. */
  function Settle(o: Oracle, n: Negotiation): (r: Run)
    ensures |n.trace| <= |r.trace| && r.trace[..|n.trace|] == n.trace
    ensures n.result.Err? ==> r == Run(Failed(n.result.error), n.trace)
  {
    match n.result
    case Err(e) => Run(Failed(e), n.trace)
    case Ok(f) =>
      var l := Listen(o, f);
      Run(l.outcome, n.trace + l.trace)
  }

  /** `runLogin`: the URL and port stage, then `Listen` on what it settled. */
  function RunLogin(o: Oracle): (r: Run)
    ensures |r.trace| >= 1 && r.trace[0] == RequestLoginUrl(RedirectBase(o.defaultPort), ClientType, Provider, None)
    // a login succeeds only through a delivered code and a successful exchange
    ensures r.outcome.LoggedIn? ==>
              o.callback.CodeReceived? && o.exchange.Returned? && o.exchange.value.success
  {
    Settle(o, Negotiate(o))
  }
}
