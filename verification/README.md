# The `login` command of agbcloud-cli, as a verified Dafny model

`agbcloud login` authenticates the command-line client through OAuth in the user's
browser. `runLogin` in `cmd/login.go` follows these steps:

1. It asks the AgbCloud API for a login URL whose redirect base is
   `http://localhost:<default port>`.
2. It probes the default callback port. If the port is taken, it asks the port
   selector to pick one of the alternative ports the server offered and requests a
   second login URL that carries the picked port.
3. It refuses an empty URL.
4. It starts a one-shot local callback server in the background and opens the
   browser.
5. It waits for whichever comes first: a code, a server error or a five-minute
   deadline.
6. It exchanges the code for tokens on the same port and saves the four token fields
   to the configuration.

The model removes the printing, the request timeouts, the start-up sleep and the
goroutine. What is left is a pure function of what the collaborators answered:

- `LoginTypes.Oracle` holds one field per collaborator answer: the default port, both
  login-URL answers, the port probe, the port selector, the browser, the
  code/error/deadline race, the token exchange, loading the configuration and saving
  the tokens.
- `Login.RunLogin` maps an oracle to a `Run`. A `Run` is an outcome (`Failed` with
  one `LoginError` per `return fmt.Errorf`, or `LoggedIn`) plus a trace of `Effect`s.
  The trace lists, in order, every call whose answer steers the login, with the
  arguments the command passed to it. The contexts passed along are not recorded,
  and neither are the three set-up calls made before the first request
  (`config.DefaultConfig`, `client.NewFromConfig`, `auth.GetCallbackPort`); the port
  the last of these returns is the oracle's `defaultPort`.
- `LoginMachine` restates the same control flow as a small-step machine, with one
  phase per wait on a collaborator. It proves that running the machine yields exactly
  `RunLogin` (`MachineAgrees`). The step-local view then proves that calls always come
  in stage order (`StagedTrace`).
- `LoginProperties` states the command's guarantees over all oracles: which failure
  stops which later call, which port reaches which call, and when tokens are saved.

Files: `types.dfy` (vocabulary), `display.dfy` (`min` and the code preview),
`login.dfy` (`runLogin`), `machine.dfy` (phase machine), `properties.dfy` (guarantees).

## Model

| member | source | states |
|---|---|---|
| Display.Min | cmd/login.go:275-280 | the result is at most each argument and equal to one of them |
| Display.CodePreview | cmd/login.go:186 | the shown code is a prefix of the code, never longer than the code or than 20; a code of at most 20 is shown whole, a longer one cut to exactly 20, so the slice is always in bounds |
| LoginTypes.RedirectBase | cmd/login.go:52 | the redirect base is `http://localhost:` followed by exactly the port, so the port can be read back from it |
| LoginTypes.RedirectBaseInjective | cmd/login.go:107 | two redirect bases are equal exactly when their ports are: a redirect base names one port and no other |
| Login.CheckUrlResponse | cmd/login.go:52-70 | a login-URL answer goes on exactly when it returned with `Success`, unchanged; an API error, a network error or `Success == false` becomes an error of that round |
| Login.ChoosePort | cmd/login.go:72-128 | the default port is probed first; a free default port is kept with the first response and nothing else is called; an occupied one with no alternatives fails before the selector; otherwise the login goes on exactly when selection and the second request succeed, and then keeps the selected port and the second response; a failed selection ends with the selector's message and a failed second request with the second-round error of its kind; a second request only ever carries the selector's port, in the redirect base `http://localhost:<port>` and as the explicit localhost port |
| Login.Negotiate | cmd/login.go:51-128 | the first call is the URL request with redirect base `http://localhost:<default port>` and no explicit port; a failed first round stops everything after it with the first-round error of its kind (API, network or rejected); the port kept is the free default port or the selector's port, never another |
| Login.EmptyTokenFields | cmd/login.go:221-235 | a token field is reported empty exactly when it is empty, in the order login token, session id, keep-alive token; the expiry is never checked |
| Login.Exchange | cmd/login.go:195-266 | the first call exchanges exactly the given code on the given port; the login succeeds exactly when the exchange returned `Success`; a failed exchange makes no further call; tokens are saved exactly when the exchange succeeded and the configuration loaded, with exactly the exchanged fields; a config or save failure still logs in |
| Login.Listen | cmd/login.go:130-271 | an empty URL fails with no call; otherwise the server goroutine is launched on the final port before the browser is opened at the URL; a server error or the deadline fails after those two calls; a delivered code is exchanged as delivered on the final port, and the login then ends exactly as the exchange stage does, with its outcome and its calls |
| Login.Settle | cmd/login.go:33-272 | the calls of the URL and port stage come first, and a failure of that stage is returned with no further call |
| Login.RunLogin | cmd/login.go:33-272 | every login starts with the URL request whose redirect base is `http://localhost:<default port>`, and succeeds only through a delivered code and a successful exchange |
| LoginMachine.Step | cmd/login.go:33-272 | every collaborator answer moves the login strictly forward, so no stage is revisited or retried |
| LoginMachine.StepStaged | cmd/login.go:33-272 | the calls of one step are in stage order and lie between the stage of the phase left and that of the phase reached |
| LoginMachine.FinishStaged | cmd/login.go:33-272 | the calls made from any phase to the end are in strict stage order and none belongs to an earlier stage |
| LoginMachine.FinishFromTokens | cmd/login.go:219-266 | from issued tokens the machine loads the configuration and, only when it loaded, saves exactly those tokens; the login succeeds either way |
| LoginMachine.FinishFromCode | cmd/login.go:184-266 | from a delivered code the machine makes the same calls and ends the same way as the exchange stage |
| LoginMachine.FinishFromWaiting | cmd/login.go:183-271 | from the wait for the callback the machine ends as the listening stage does after starting the server and opening the browser |
| LoginMachine.FinishFromPort | cmd/login.go:130-271 | from a settled port and URL the machine makes the same calls and ends the same way as the listening stage |
| LoginMachine.FinishFromSelected | cmd/login.go:104-128 | from a selected port the machine does what the second request and everything after it do |
| LoginMachine.FinishFromBusyFailed | cmd/login.go:81-102 | from an occupied default port with alternatives and a failed selection, the machine does what the port stage and `Settle` do: probe, selection, and the selector's error |
| LoginMachine.FinishFromBusySelected | cmd/login.go:81-128 | from an occupied default port with alternatives and a selected port, the machine does what selection, the second request and everything after them do |
| LoginMachine.FinishFromBusy | cmd/login.go:81-128 | from an occupied default port with alternatives the machine does what selection, the second request and everything after them do |
| LoginMachine.FinishFromGranted | cmd/login.go:72-128 | from a successful first response the machine does what the port stage and everything after it do |
| LoginMachine.RunLoginAfterFirst | cmd/login.go:51-128 | after a successful first response, a login is the first request followed by the port stage and everything after it |
| LoginMachine.MachineAgrees | cmd/login.go:33-272 | running the machine from the start gives exactly the outcome and the calls of `RunLogin` |
| LoginMachine.StagedTrace | cmd/login.go:33-272 | the calls of every login are in strict stage order: each kind of call at most once, `SaveTokens` at most once and last |
| LoginMachine.Drive | cmd/login.go:33-272 | stepping the machine until it finishes ends with exactly `RunLogin`'s outcome and calls |
| LoginProperties.FirstRoundFailureStops | cmd/login.go:52-70 | a first request with an API error, a network error or `Success == false` fails with the matching first-round error (`UrlApiError`, `UrlNetworkError`, `UrlRejected` with the response code), and the probe, the selector, the second request, the callback and the exchange are never reached |
| LoginProperties.FreeDefaultPortKept | cmd/login.go:76-80 | a free default port is kept with the first response; the selector is never asked and no second request is made |
| LoginProperties.NoAlternativesFails | cmd/login.go:85-87 | an occupied default port with an empty alternatives string fails after the probe, without asking the selector |
| LoginProperties.AlternativePortThreaded | cmd/login.go:90-127 | with an occupied default port the login goes on exactly when alternatives exist, a port is selected and the second request with that port succeeds; the selected port and second response are kept; otherwise it fails and no server starts |
| LoginProperties.SecondRoundFailureStops | cmd/login.go:106-123 | a failed second request (API error, network error or `Success == false`) ends the login with the matching second-round error right after that request, before any server is launched |
| LoginProperties.EmptyUrlStopsEarly | cmd/login.go:130-132 | an empty final URL fails before the callback server starts or the browser opens |
| LoginProperties.BrowserIrrelevant | cmd/login.go:171-177 | whether the browser opened changes neither the outcome nor any call |
| LoginProperties.ServerBeforeBrowser | cmd/login.go:151-171 | once launched, the server goroutine is launched on the final port before the browser is opened at the final URL, with no call in between |
| LoginProperties.CallbackFailureStops | cmd/login.go:267-270 | a server error fails with that error and the deadline with a timeout; no code is exchanged and nothing is saved |
| LoginProperties.CodeExchangedOnFinalPort | cmd/login.go:184-195 | a delivered code is exchanged exactly as delivered, on the final port |
| LoginProperties.ExchangeFailureNeverSaves | cmd/login.go:196-208 | an exchange that errs or reports `Success == false` fails the login, and the configuration is neither loaded nor written |
| LoginProperties.SuccessfulExchangeSaves | cmd/login.go:219-266 | a successful exchange always logs in; tokens count as persisted exactly when the configuration loads and the save succeeds; with a loaded configuration `SaveTokens` is the last call and receives login token, session id, keep-alive token and expiry, in that order |
| LoginProperties.SaveOnlyAfterSuccess | cmd/login.go:240-257 | anywhere in a login, `SaveTokens` is only called after a successful exchange and a loaded configuration, with the exchanged login token, session id, keep-alive token and expiry in that order, and the login then succeeds |
| LoginProperties.ServerPortAnnounced | cmd/login.go:76-152 | the callback server listens on a port the provider was told about: the free default port, sent as `http://localhost:<port>` in the first request, or a port sent both as `http://localhost:<port>` and as the explicit localhost port in a second request of the same login |
| LoginProperties.NegotiationCalls | cmd/login.go:51-128 | the URL and port stage makes only URL requests, the probe and the selection |
| LoginProperties.ListenCalls | cmd/login.go:130-271 | every call after the port stage is the server start on the final port, the browser, the exchange of a delivered code, or loading and saving after a successful exchange |

## Left out

- Console output, including the API error body and status printing and the token
  display. The command only prints these, so they cannot change the outcome or any
  call.
- The 30-second request contexts, the five-minute callback deadline's duration, the
  100 ms `time.Sleep` and the goroutine with its two channels. The `select` race is
  reduced to the one event that won it (`CallbackEvent`), chosen by the oracle.
  When several signals are ready, Go picks among them at random; the oracle covers
  each choice.
- How the callback server binds, serves and releases its port is not modelled; only
  the event that ends the wait is.
- `auth.GetCallbackPort`, `auth.IsPortOccupied`, `auth.SelectAvailablePort` and
  `auth.StartCallbackServer` are not part of this model. Their results are opaque
  oracle fields. Nothing is assumed about how the selector parses the alternatives or
  which port it prefers.
- `config.DefaultConfig` and `client.NewFromConfig` (lines 37-39) only build the API
  client and report no error; they are not part of this model and appear neither in
  the oracle nor in the trace.
- The contexts (lines 46, 144 and 192) passed to the API calls and to
  `auth.StartCallbackServer` are not recorded in the trace.
- The calls of the generated API client are reduced to a `CallResult`;
  `browser.OpenURL`, `config.GetConfig` and `SaveTokens` to a success flag.
- The cobra command registration (lines 19-31) has no logic.
- `test/integration/image_deactivate_integration_test.go` tests another command
  against a live server. It has no local logic.
- Display.CodePreview: Go slices the code by bytes; the model slices a `seq<char>`.
  The two agree on ASCII codes.
- LoginProperties.ServerBeforeBrowser: the `StartCallbackServer` call marks the moment
  the goroutine is launched, not when it calls `auth.StartCallbackServer` or when the
  server binds its port. Go does not order those before `browser.OpenURL`; only the
  100 ms sleep separates them.
- The type of `ExpiresAt` is not visible, so the model carries it as an opaque string
  passed through unchanged.

## Behaviour of the code worth knowing

- Alternative ports arrive as one string, `Data.AlternativePorts`. Line 85 only
  compares it with `""` and line 90 hands it unchanged to the selector; its format is
  the selector's concern, and the model carries it as an opaque string.
- A failed configuration load (lines 240-244) or a failed `SaveTokens` (lines
  247-257) is only printed: the command still returns `nil`. The model's `LoggedIn`
  outcome records which of the two steps failed.
- Empty token fields are reported one by one (lines 221-235), yet all four fields,
  empty or not, are still passed to `SaveTokens`. `ExpiresAt` is never checked for
  emptiness.
- Nothing confirms that the callback server listens before the browser opens: the
  command launches the server goroutine (lines 151-158) and sleeps 100 ms (line 161).
  A bind failure reaches the command only as the server's error (`ServerFailed`).
- A token exchange answered with `Success == false` (lines 261-263) prints the
  provider's code and returns a fixed message. `ExchangeRejected` keeps the code so
  the model can say which answer caused it.
- On lines 94-100 the branch for a missing alternatives list can never run, because
  line 85 has already returned in that case. It only prints.
