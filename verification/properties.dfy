/**
 What `runLogin` promises, stated over every possible set of collaborator answers:
 which failure stops which later call, which port is threaded into which call, and
 when the tokens are saved.
 */
module LoginProperties {
  import opened LoginTypes
  import opened Login

  /** The first response was usable: no API or network error, and `Success`. */
  predicate FirstRoundOk(o: Oracle)
  {
    o.firstUrl.Returned? && o.firstUrl.value.success
  }

  /** The URL and port stage settled a port and a non-empty URL, so the callback
      server is started and the browser opened. */
  predicate Launched(o: Oracle)
  {
    Negotiate(o).result.Ok? && Negotiate(o).result.value.response.invokeUrl != ""
  }

  /** A failed first request (an error, or `Success == false`) ends the login with
      a first-round error before the port is probed or anything else is called. */
  lemma FirstRoundFailureStops(o: Oracle)
    requires !FirstRoundOk(o)
    ensures RunLogin(o).trace == [RequestLoginUrl(RedirectBase(o.defaultPort), ClientType, Provider, None)]
    ensures RunLogin(o).outcome.Failed?
    ensures var e := RunLogin(o).outcome.error;
            && (e.UrlApiError? || e.UrlNetworkError? || e.UrlRejected?) && e.round == FirstRound
            && (o.firstUrl.ApiError? ==> e == UrlApiError(FirstRound, o.firstUrl.message))
            && (o.firstUrl.NetworkError? ==> e == UrlNetworkError(FirstRound, o.firstUrl.message))
            && (o.firstUrl.Returned? ==> e == UrlRejected(FirstRound, o.firstUrl.value.code))
  {
  }

  /** A free default port is kept together with the first response: the selector is
      never asked and no second request is made. */
  lemma FreeDefaultPortKept(o: Oracle)
    requires FirstRoundOk(o) && !o.defaultPortOccupied
    ensures Negotiate(o).result == Ok(FinalUrl(o.defaultPort, o.firstUrl.value))
    ensures RunLogin(o).trace[..2] == [FirstRequest(o), ProbePort(o.defaultPort)]
    ensures forall e :: e in RunLogin(o).trace ==>
              !e.SelectPort? && !(e.RequestLoginUrl? && e.localhostPort.Some?)
  {
    var f := FinalUrl(o.defaultPort, o.firstUrl.value);
    var l := Listen(o, f);
    assert RunLogin(o).trace == [FirstRequest(o), ProbePort(o.defaultPort)] + l.trace;
    forall e | e in l.trace
      ensures !e.SelectPort? && !(e.RequestLoginUrl? && e.localhostPort.Some?)
    {
      ListenCalls(o, f, e);
    }
  }

  /** An occupied default port with an empty alternatives list fails at once; the
      selector is never asked. */
  lemma NoAlternativesFails(o: Oracle)
    requires FirstRoundOk(o) && o.defaultPortOccupied && o.firstUrl.value.alternativePorts == ""
    ensures RunLogin(o) == Run(Failed(NoAlternativePorts(o.defaultPort)), [FirstRequest(o), ProbePort(o.defaultPort)])
  {
  }

  /** With an occupied default port the login goes on only when alternatives exist,
      the selector picks a port, and a second request with that same port succeeds;
      that port and that second response are the ones kept. Otherwise the login
      fails and no callback server is started. */
  lemma AlternativePortThreaded(o: Oracle)
    requires FirstRoundOk(o) && o.defaultPortOccupied
    ensures Negotiate(o).result.Ok? <==>
              && o.firstUrl.value.alternativePorts != "" && o.selection.Selected?
              && o.secondUrl.Returned? && o.secondUrl.value.success
    ensures Negotiate(o).result.Ok? ==>
              && Negotiate(o).result.value == FinalUrl(o.selection.port, o.secondUrl.value)
              && RequestLoginUrl(RedirectBase(o.selection.port), ClientType, Provider, Some(o.selection.port))
                   in RunLogin(o).trace
    ensures o.firstUrl.value.alternativePorts != "" && o.selection.Selected? ==>
              RequestLoginUrl(RedirectBase(o.selection.port), ClientType, Provider, Some(o.selection.port))
                in RunLogin(o).trace
    ensures !Negotiate(o).result.Ok? ==>
              && RunLogin(o).outcome.Failed?
              && forall e :: e in RunLogin(o).trace ==> !e.StartCallbackServer?
  {
    var n := Negotiate(o);
    var first := o.firstUrl.value;
    if first.alternativePorts != "" && o.selection.Selected? {
      var c := ChoosePort(o, first);
      assert n.trace == [FirstRequest(o)] + c.trace;
      assert SecondRequest(o.selection.port) == c.trace[2] == n.trace[3];
      assert RunLogin(o).trace[..|n.trace|] == n.trace;
      assert RunLogin(o).trace[3] == n.trace[3];
    }
  }

  /** A failed second request, the one carrying the selected port, ends the login
      with a second-round error of the matching kind, right after that request and
      before any callback server is launched. */
  lemma SecondRoundFailureStops(o: Oracle)
    requires FirstRoundOk(o) && o.defaultPortOccupied
    requires o.firstUrl.value.alternativePorts != "" && o.selection.Selected?
    requires !(o.secondUrl.Returned? && o.secondUrl.value.success)
    ensures RunLogin(o).trace ==
              [FirstRequest(o), ProbePort(o.defaultPort),
               SelectPort(o.defaultPort, o.firstUrl.value.alternativePorts),
               RequestLoginUrl(RedirectBase(o.selection.port), ClientType, Provider, Some(o.selection.port))]
    ensures RunLogin(o).outcome.Failed?
    ensures var e := RunLogin(o).outcome.error;
            && (e.UrlApiError? || e.UrlNetworkError? || e.UrlRejected?) && e.round == SecondRound
            && (o.secondUrl.ApiError? ==> e == UrlApiError(SecondRound, o.secondUrl.message))
            && (o.secondUrl.NetworkError? ==> e == UrlNetworkError(SecondRound, o.secondUrl.message))
            && (o.secondUrl.Returned? ==> e == UrlRejected(SecondRound, o.secondUrl.value.code))
  {
  }

  /** An empty login URL fails before the callback server starts or the browser
      opens. */
  lemma EmptyUrlStopsEarly(o: Oracle)
    requires Negotiate(o).result.Ok? && Negotiate(o).result.value.response.invokeUrl == ""
    ensures RunLogin(o) == Run(Failed(EmptyLoginUrl), Negotiate(o).trace)
    ensures forall e :: e in RunLogin(o).trace ==> !e.StartCallbackServer? && !e.OpenBrowser?
  {
    NegotiationCalls(o);
  }

  /** Whether the browser opened changes neither the outcome nor any call. */
  lemma BrowserIrrelevant(o: Oracle, browserAnswer: bool)
    ensures RunLogin(o.(browserOpened := browserAnswer)) == RunLogin(o)
  {
    var o' := o.(browserOpened := browserAnswer);
    assert Negotiate(o') == Negotiate(o);
    match Negotiate(o).result
    case Err(_) =>
    case Ok(f) =>
      if o.callback.CodeReceived? {
        assert Exchange(o', o.callback.code, f.port) == Exchange(o, o.callback.code, f.port);
      }
      assert Listen(o', f) == Listen(o, f);
  }

  /** Once launched, the callback server's goroutine is launched on the final port
      before the browser is opened at the final URL. */
  lemma ServerBeforeBrowser(o: Oracle)
    requires Launched(o)
    ensures var n := Negotiate(o);
            && |RunLogin(o).trace| >= |n.trace| + 2
            && RunLogin(o).trace[|n.trace|] == StartCallbackServer(n.result.value.port)
            && RunLogin(o).trace[|n.trace| + 1] == OpenBrowser(n.result.value.response.invokeUrl)
  {
  }

  /** A server error or the deadline ends the login with the matching error; no
      code is exchanged and nothing is saved. */
  lemma CallbackFailureStops(o: Oracle)
    requires Launched(o) && !o.callback.CodeReceived?
    ensures o.callback.ServerFailed? ==> RunLogin(o).outcome == Failed(CallbackFailed(o.callback.message))
    ensures o.callback.DeadlineExpired? ==> RunLogin(o).outcome == Failed(CallbackTimeout)
    ensures forall e :: e in RunLogin(o).trace ==> !e.ExchangeCode? && !e.SaveTokens?
  {
    NegotiationCalls(o);
  }

  /** A delivered code is exchanged exactly as delivered, on the final port. */
  lemma CodeExchangedOnFinalPort(o: Oracle)
    requires Launched(o) && o.callback.CodeReceived?
    ensures ExchangeCode(ClientType, Provider, o.callback.code, Negotiate(o).result.value.port) in RunLogin(o).trace
  {
    var n := Negotiate(o);
    assert RunLogin(o).trace[|n.trace| + 2] == ExchangeCode(ClientType, Provider, o.callback.code, n.result.value.port);
  }

  /** An exchange that errs or reports `Success == false` fails the login, and the
      configuration is neither loaded nor written. */
  lemma ExchangeFailureNeverSaves(o: Oracle)
    requires !(o.exchange.Returned? && o.exchange.value.success)
    ensures RunLogin(o).outcome.Failed?
    ensures forall e :: e in RunLogin(o).trace ==> !e.SaveTokens? && e != LoadConfig
  {
    var n := Negotiate(o);
    NegotiationCalls(o);
    match n.result
    case Err(_) =>
    case Ok(f) =>
      forall e | e in Listen(o, f).trace
        ensures !e.SaveTokens? && e != LoadConfig
      {
        ListenCalls(o, f, e);
      }
  }

  /** A successful exchange always logs in, whatever happens to the configuration;
      when the configuration loads, `SaveTokens` is the last call and receives the
      four exchanged fields in order. */
  lemma SuccessfulExchangeSaves(o: Oracle)
    requires Launched(o) && o.callback.CodeReceived?
    requires o.exchange.Returned? && o.exchange.value.success
    ensures RunLogin(o).outcome.LoggedIn?
    ensures RunLogin(o).outcome.persistence == TokensPersisted <==> o.configLoaded && o.tokensSaved
    ensures var d := o.exchange.value.data;
            o.configLoaded ==>
              RunLogin(o).trace[|RunLogin(o).trace| - 1] ==
                SaveTokens(d.loginToken, d.sessionId, d.keepAliveToken, d.expiresAt)
    ensures !o.configLoaded ==> RunLogin(o).trace[|RunLogin(o).trace| - 1] == LoadConfig
  {
  }

  /** Anywhere in a login, `SaveTokens` is only called after a successful exchange
      and a loaded configuration, with exactly the exchanged fields, and the login
      then succeeds. */
  lemma SaveOnlyAfterSuccess(o: Oracle)
    ensures forall e :: e in RunLogin(o).trace && e.SaveTokens? ==>
              && RunLogin(o).outcome.LoggedIn? && o.configLoaded
              && o.exchange.Returned? && o.exchange.value.success
              && e == SaveTokens(o.exchange.value.data.loginToken, o.exchange.value.data.sessionId,
                                 o.exchange.value.data.keepAliveToken, o.exchange.value.data.expiresAt)
  {
    var n := Negotiate(o);
    NegotiationCalls(o);
    match n.result
    case Err(_) =>
    case Ok(f) =>
      forall e | e in Listen(o, f).trace && e.SaveTokens?
        ensures && RunLogin(o).outcome.LoggedIn? && o.configLoaded
                && o.exchange.Returned? && o.exchange.value.success
                && e == SaveTokens(o.exchange.value.data.loginToken, o.exchange.value.data.sessionId,
                                   o.exchange.value.data.keepAliveToken, o.exchange.value.data.expiresAt)
      {
        ListenCalls(o, f, e);
      }
  }

  /** The callback server listens on a port the provider was told about: the free
      default port of the first request, or the port of the second request. */
  lemma ServerPortAnnounced(o: Oracle)
    ensures forall e :: e in RunLogin(o).trace && e.StartCallbackServer? ==>
              || (e.port == o.defaultPort && !o.defaultPortOccupied
                  && RunLogin(o).trace[0] == RequestLoginUrl(RedirectBase(e.port), ClientType, Provider, None))
              || RequestLoginUrl(RedirectBase(e.port), ClientType, Provider, Some(e.port)) in RunLogin(o).trace
  {
    var n := Negotiate(o);
    NegotiationCalls(o);
    match n.result
    case Err(_) =>
    case Ok(f) =>
      forall e | e in RunLogin(o).trace && e.StartCallbackServer?
        ensures || (e.port == o.defaultPort && !o.defaultPortOccupied
                    && RunLogin(o).trace[0] == RequestLoginUrl(RedirectBase(e.port), ClientType, Provider, None))
                || RequestLoginUrl(RedirectBase(e.port), ClientType, Provider, Some(e.port)) in RunLogin(o).trace
      {
        assert e in Listen(o, f).trace;
        ListenCalls(o, f, e);
        if o.defaultPortOccupied {
          AlternativePortThreaded(o);
        }
      }
  }

  /** The URL and port stage makes only URL requests, the probe and the selection. */
  lemma NegotiationCalls(o: Oracle)
    ensures forall e :: e in Negotiate(o).trace ==> e.RequestLoginUrl? || e.ProbePort? || e.SelectPort?
  {
    if FirstRoundOk(o) {
      assert Negotiate(o).trace == [FirstRequest(o)] + ChoosePort(o, o.firstUrl.value).trace;
    }
  }

  /** Every call `Listen` makes: the server start on the final port, the browser,
      the exchange of the delivered code, and loading and saving after a successful
      exchange. */
  lemma ListenCalls(o: Oracle, f: FinalUrl, e: Effect)
    requires e in Listen(o, f).trace
    ensures e.StartCallbackServer? ==> e.port == f.port
    ensures !e.RequestLoginUrl? && !e.ProbePort? && !e.SelectPort?
    ensures e.ExchangeCode? ==> o.callback.CodeReceived?
    ensures e.SaveTokens? || e.LoadConfig? ==> o.callback.CodeReceived? && o.exchange.Returned? && o.exchange.value.success
    ensures e.LoadConfig? ==> Listen(o, f).outcome.LoggedIn?
    ensures e.SaveTokens? ==>
              && o.configLoaded && Listen(o, f).outcome.LoggedIn?
              && e == SaveTokens(o.exchange.value.data.loginToken, o.exchange.value.data.sessionId,
                                 o.exchange.value.data.keepAliveToken, o.exchange.value.data.expiresAt)
  {
  }
}
