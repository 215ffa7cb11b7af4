/**
 The `login` command read as the small state machine it is: one phase per point
 where `runLogin` waits for a collaborator, one `Step` per answer. Running the
 machine from `Start` reproduces `Login.RunLogin` call for call, which gives an
 independent, step-local reading of the same control flow, and the step-local view
 is what proves that the calls always come in stage order.
 */
module LoginMachine {
  import opened LoginTypes
  import opened Login

  /** The points of `runLogin` between two collaborator answers. */
  datatype Phase =
    | Start                                   // before the first URL request
    | UrlGranted(first: UrlResponse)          // the first response was successful
    | DefaultBusy(first: UrlResponse)         // the default port is taken, alternatives exist
    | PortSelected(port: Port)                // the selector answered with a port
    | PortFixed(port: Port, response: UrlResponse)  // the final port and URL are settled
    | Waiting(port: Port)                     // server goroutine launched, browser opened
    | CodeInHand(port: Port, code: string)    // the callback delivered a code
    | TokensIssued(data: TokenData)           // the exchange succeeded
    | ConfigOpen(data: TokenData)             // the configuration was loaded
    | Finished(outcome: Outcome)

  /** One step: the phase reached and the calls made on the way. */
  datatype Move = Move(next: Phase, effects: seq<Effect>)

  /** How far a phase is from the end; every step lowers it. */
  function Distance(p: Phase): nat
  {
    match p
    case Start => 9
    case UrlGranted(_) => 8
    case DefaultBusy(_) => 7
    case PortSelected(_) => 6
    case PortFixed(_, _) => 5
    case Waiting(_) => 4
    case CodeInHand(_, _) => 3
    case TokensIssued(_) => 2
    case ConfigOpen(_) => 1
    case Finished(_) => 0
  }

  /** The stage each call belongs to, in the order `runLogin` makes them. */
  function EffectRank(e: Effect): nat
  {
    match e
    case RequestLoginUrl(_, _, _, port) => if port.None? then 0 else 3
    case ProbePort(_) => 1
    case SelectPort(_, _) => 2
    case StartCallbackServer(_) => 4
    case OpenBrowser(_) => 5
    case ExchangeCode(_, _, _, _) => 6
    case LoadConfig => 7
    case SaveTokens(_, _, _, _) => 8
  }

  /** The first stage whose calls may still be made from a phase on. */
  function Floor(p: Phase): nat
  {
    match p
    case Start => 0
    case UrlGranted(_) => 1
    case DefaultBusy(_) => 2
    case PortSelected(_) => 3
    case PortFixed(_, _) => 4
    case Waiting(_) => 6
    case CodeInHand(_, _) => 6
    case TokensIssued(_) => 7
    case ConfigOpen(_) => 8
    case Finished(_) => 9
  }

  /** Calls strictly in stage order: no stage is visited twice or out of turn. */
  ghost predicate Staged(t: seq<Effect>)
  {
    forall i, j :: 0 <= i < j < |t| ==> EffectRank(t[i]) < EffectRank(t[j])
  }

  /** Every call of `t` belongs to stage `lo` or later. */
  ghost predicate From(t: seq<Effect>, lo: nat)
  {
    forall i :: 0 <= i < |t| ==> lo <= EffectRank(t[i])
  }

  /** The transition out of a live phase, read off the collaborator that answers
      there. */
  function Step(o: Oracle, p: Phase): (m: Move)
    requires !p.Finished?
    ensures Distance(m.next) < Distance(p)
  {
    match p
    case Start =>
      (match CheckUrlResponse(FirstRound, o.firstUrl)
       case Err(e) => Move(Finished(Failed(e)), [FirstRequest(o)])
       case Ok(first) => Move(UrlGranted(first), [FirstRequest(o)]))
    case UrlGranted(first) =>
      if !o.defaultPortOccupied then Move(PortFixed(o.defaultPort, first), [ProbePort(o.defaultPort)])
      else if first.alternativePorts == "" then
        Move(Finished(Failed(NoAlternativePorts(o.defaultPort))), [ProbePort(o.defaultPort)])
      else Move(DefaultBusy(first), [ProbePort(o.defaultPort)])
    case DefaultBusy(first) =>
      var ask := [SelectPort(o.defaultPort, first.alternativePorts)];
      (match o.selection
       case SelectionFailed(msg) => Move(Finished(Failed(PortSelectionFailed(msg))), ask)
       case Selected(port) => Move(PortSelected(port), ask))
    case PortSelected(port) =>
      (match CheckUrlResponse(SecondRound, o.secondUrl)
       case Err(e) => Move(Finished(Failed(e)), [SecondRequest(port)])
       case Ok(second) => Move(PortFixed(port, second), [SecondRequest(port)]))
    case PortFixed(port, response) =>
      if response.invokeUrl == "" then Move(Finished(Failed(EmptyLoginUrl)), [])
      else Move(Waiting(port), [StartCallbackServer(port), OpenBrowser(response.invokeUrl)])
    case Waiting(port) =>
      (match o.callback
       case CodeReceived(code) => Move(CodeInHand(port, code), [])
       case ServerFailed(msg) => Move(Finished(Failed(CallbackFailed(msg))), [])
       case DeadlineExpired => Move(Finished(Failed(CallbackTimeout)), []))
    case CodeInHand(port, code) =>
      var call := [ExchangeCode(ClientType, Provider, code, port)];
      (match o.exchange
       case ApiError(msg) => Move(Finished(Failed(ExchangeApiError(msg))), call)
       case NetworkError(msg) => Move(Finished(Failed(ExchangeNetworkError(msg))), call)
       case Returned(t) =>
         if t.success then Move(TokensIssued(t.data), call)
         else Move(Finished(Failed(ExchangeRejected(t.code))), call))
    case TokensIssued(d) =>
      if o.configLoaded then Move(ConfigOpen(d), [LoadConfig])
      else Move(Finished(LoggedIn(ConfigNotLoaded, EmptyTokenFields(d))), [LoadConfig])
    case ConfigOpen(d) =>
      var saved := if o.tokensSaved then TokensPersisted else TokensNotPersisted;
      Move(Finished(LoggedIn(saved, EmptyTokenFields(d))), [PersistCall(d)])
  }

  /** Calls in stage order, all of stage `lo` or later and earlier than stage `hi`. */
  ghost predicate Between(t: seq<Effect>, lo: nat, hi: nat)
  {
    Staged(t) && forall i :: 0 <= i < |t| ==> lo <= EffectRank(t[i]) < hi
  }

  lemma OneBetween(e: Effect, lo: nat, hi: nat)
    requires lo <= EffectRank(e) < hi
    ensures Between([e], lo, hi)
  {
  }

  lemma TwoBetween(a: Effect, b: Effect, lo: nat, hi: nat)
    requires lo <= EffectRank(a) < EffectRank(b) < hi
    ensures Between([a, b], lo, hi)
  {
  }

  /** The calls of one step are in stage order, no earlier than the phase left
      allows and all earlier than the phase reached allows. */
  lemma StepStaged(o: Oracle, p: Phase)
    requires !p.Finished?
    ensures Floor(p) <= Floor(Step(o, p).next)
    ensures Between(Step(o, p).effects, Floor(p), Floor(Step(o, p).next))
  {
    var m := Step(o, p);
    match p
    case Start => OneBetween(FirstRequest(o), 0, Floor(m.next));
    case UrlGranted(_) => OneBetween(ProbePort(o.defaultPort), 1, Floor(m.next));
    case DefaultBusy(first) => OneBetween(SelectPort(o.defaultPort, first.alternativePorts), 2, Floor(m.next));
    case PortSelected(port) => OneBetween(SecondRequest(port), 3, Floor(m.next));
    case PortFixed(port, response) =>
      if response.invokeUrl != "" {
        TwoBetween(StartCallbackServer(port), OpenBrowser(response.invokeUrl), 4, Floor(m.next));
      }
    case Waiting(_) =>
    case CodeInHand(port, code) => OneBetween(ExchangeCode(ClientType, Provider, code, port), 6, Floor(m.next));
    case TokensIssued(_) => OneBetween(LoadConfig, 7, Floor(m.next));
    case ConfigOpen(d) => OneBetween(PersistCall(d), 8, Floor(m.next));
  }

  /** Runs the machine from `p` to its terminal phase, collecting the calls. */
  function Finish(o: Oracle, p: Phase): Run
    decreases Distance(p)
  {
    if p.Finished? then Run(p.outcome, [])
    else
      var m := Step(o, p);
      var rest := Finish(o, m.next);
      Run(rest.outcome, m.effects + rest.trace)
  }

  /** One unfolding of `Finish`. */
  lemma FinishStep(o: Oracle, p: Phase)
    requires !p.Finished?
    ensures var m := Step(o, p);
            Finish(o, p) == Run(Finish(o, m.next).outcome, m.effects + Finish(o, m.next).trace)
  {
  }

  /** Calls bounded by `[lo, mid)` followed by staged calls from `mid` on are staged
      calls from `lo` on. */
  lemma ConcatStaged(a: seq<Effect>, b: seq<Effect>, lo: nat, mid: nat)
    requires lo <= mid && Between(a, lo, mid) && Staged(b) && From(b, mid)
    ensures Staged(a + b) && From(a + b, lo)
  {
    var t := a + b;
    forall i | 0 <= i < |t|
      ensures lo <= EffectRank(t[i])
    {
      if |a| <= i {
        assert t[i] == b[i - |a|];
      }
    }
    forall i, j | 0 <= i < j < |t|
      ensures EffectRank(t[i]) < EffectRank(t[j])
    {
      if j < |a| {
      } else if i < |a| {
        assert t[j] == b[j - |a|];
      } else {
        assert t[i] == b[i - |a|] && t[j] == b[j - |a|];
      }
    }
  }

  /** The calls made from any phase to the end are in stage order and none belongs
      to a stage earlier than the phase allows. */
  lemma {:induction false} FinishStaged(o: Oracle, p: Phase)
    ensures Staged(Finish(o, p).trace) && From(Finish(o, p).trace, Floor(p))
    decreases Distance(p)
  {
    if !p.Finished? {
      var m := Step(o, p);
      FinishStaged(o, m.next);
      StepStaged(o, p);
      FinishStep(o, p);
      ConcatStaged(m.effects, Finish(o, m.next).trace, Floor(p), Floor(m.next));
    }
  }

  /** From issued tokens, the machine loads the configuration and, when it loaded,
      saves exactly those tokens; the login succeeds either way. */
  lemma {:induction false} FinishFromTokens(o: Oracle, d: TokenData)
    ensures var empty := EmptyTokenFields(d);
            var saved := if o.tokensSaved then TokensPersisted else TokensNotPersisted;
            Finish(o, TokensIssued(d))
              == if o.configLoaded then Run(LoggedIn(saved, empty), [LoadConfig, PersistCall(d)])
                 else Run(LoggedIn(ConfigNotLoaded, empty), [LoadConfig])
  {
    FinishStep(o, TokensIssued(d));
    if o.configLoaded {
      assert Step(o, TokensIssued(d)).next == ConfigOpen(d);
      FinishStep(o, ConfigOpen(d));
    }
  }

  /** From the code in hand, the machine does what `Login.Exchange` does. */
  lemma {:induction false} FinishFromCode(o: Oracle, port: Port, code: string)
    ensures Finish(o, CodeInHand(port, code)) == Exchange(o, code, port)
  {
    var p := CodeInHand(port, code);
    var call := ExchangeCode(ClientType, Provider, code, port);
    FinishStep(o, p);
    match o.exchange
    case ApiError(msg) =>
      assert Step(o, p) == Move(Finished(Failed(ExchangeApiError(msg))), [call]);
    case NetworkError(msg) =>
      assert Step(o, p) == Move(Finished(Failed(ExchangeNetworkError(msg))), [call]);
    case Returned(t) =>
      if !t.success {
        assert Step(o, p) == Move(Finished(Failed(ExchangeRejected(t.code))), [call]);
      } else {
        assert Step(o, p) == Move(TokensIssued(t.data), [call]);
        FinishFromTokens(o, t.data);
      }
  }

  /** From the wait for the callback, the machine ends as `Login.Listen` does after
      its first two calls. */
  lemma {:induction false} FinishFromWaiting(o: Oracle, port: Port, response: UrlResponse)
    requires response.invokeUrl != ""
    ensures var l := Listen(o, FinalUrl(port, response));
            Finish(o, Waiting(port)) == Run(l.outcome, l.trace[2..])
  {
    var l := Listen(o, FinalUrl(port, response));
    FinishStep(o, Waiting(port));
    match o.callback
    case CodeReceived(code) =>
      assert Step(o, Waiting(port)) == Move(CodeInHand(port, code), []);
      FinishFromCode(o, port, code);
      var launched := [StartCallbackServer(port), OpenBrowser(response.invokeUrl)];
      assert l.trace == launched + Exchange(o, code, port).trace;
      assert l.trace[2..] == Exchange(o, code, port).trace;
    case ServerFailed(_) =>
    case DeadlineExpired =>
  }

  /** From a settled port and URL, the machine does what `Login.Listen` does. */
  lemma {:induction false} FinishFromPort(o: Oracle, port: Port, response: UrlResponse)
    ensures Finish(o, PortFixed(port, response)) == Listen(o, FinalUrl(port, response))
  {
    FinishStep(o, PortFixed(port, response));
    if response.invokeUrl != "" {
      var l := Listen(o, FinalUrl(port, response));
      assert Step(o, PortFixed(port, response)).next == Waiting(port);
      FinishFromWaiting(o, port, response);
      assert l.trace == l.trace[..2] + l.trace[2..];
    }
  }

  /** Calls made before the URL and port stage ends stay in front of everything
      `Login.Settle` adds. */
  lemma SettlePrepend(o: Oracle, pre: seq<Effect>, n: Negotiation)
    ensures var s := Settle(o, n);
            Settle(o, Negotiation(n.result, pre + n.trace)) == Run(s.outcome, pre + s.trace)
  {
    match n.result
    case Err(_) =>
    case Ok(f) =>
      var l := Listen(o, f);
      assert (pre + n.trace) + l.trace == pre + (n.trace + l.trace);
  }

  /** After the selector picked `port`, the machine does what the tail of
      `Login.ChoosePort` followed by `Login.Settle` does. */
  lemma {:induction false} FinishFromSelected(o: Oracle, first: UrlResponse, port: Port)
    requires o.defaultPortOccupied && first.alternativePorts != "" && o.selection == Selected(port)
    ensures var s := Settle(o, ChoosePort(o, first));
            Finish(o, PortSelected(port)) == Run(s.outcome, s.trace[2..])
  {
    FinishStep(o, PortSelected(port));
    var asked := [ProbePort(o.defaultPort), SelectPort(o.defaultPort, first.alternativePorts)];
    var r: Result<FinalUrl> := match CheckUrlResponse(SecondRound, o.secondUrl)
      case Err(e) => Err(e)
      case Ok(second) => Ok(FinalUrl(port, second));
    var n := Negotiation(r, [SecondRequest(port)]);
    assert ChoosePort(o, first) == Negotiation(r, asked + n.trace);
    SettlePrepend(o, asked, n);
    var s := Settle(o, n);
    assert (asked + s.trace)[2..] == s.trace;
    match CheckUrlResponse(SecondRound, o.secondUrl)
    case Err(_) =>
    case Ok(second) =>
      assert Step(o, PortSelected(port)).next == PortFixed(port, second);
      FinishFromPort(o, port, second);
  }

  /** The selector failed: the probe and the selection are the only calls. */
  lemma {:induction false} FinishFromBusyFailed(o: Oracle, first: UrlResponse)
    requires o.defaultPortOccupied && first.alternativePorts != "" && o.selection.SelectionFailed?
    ensures Finish(o, UrlGranted(first)) == Settle(o, ChoosePort(o, first))
  {
    var probe := ProbePort(o.defaultPort);
    var ask := SelectPort(o.defaultPort, first.alternativePorts);
    var done := Finished(Failed(PortSelectionFailed(o.selection.message)));
    FinishStep(o, UrlGranted(first));
    assert Step(o, UrlGranted(first)) == Move(DefaultBusy(first), [probe]);
    FinishStep(o, DefaultBusy(first));
    assert Step(o, DefaultBusy(first)) == Move(done, [ask]);
    assert Finish(o, done) == Run(done.outcome, []);
    assert ChoosePort(o, first) == Negotiation(Err(PortSelectionFailed(o.selection.message)), [probe, ask]);
  }

  /** The selector picked `port`: the probe and the selection come before what
      the machine does from the selected port. */
  lemma {:induction false} FinishFromBusySelected(o: Oracle, first: UrlResponse, port: Port)
    requires o.defaultPortOccupied && first.alternativePorts != "" && o.selection == Selected(port)
    ensures Finish(o, UrlGranted(first)) == Settle(o, ChoosePort(o, first))
  {
    var s := Settle(o, ChoosePort(o, first));
    var probe := ProbePort(o.defaultPort);
    var ask := SelectPort(o.defaultPort, first.alternativePorts);
    FinishStep(o, UrlGranted(first));
    assert Step(o, UrlGranted(first)) == Move(DefaultBusy(first), [probe]);
    FinishStep(o, DefaultBusy(first));
    assert Step(o, DefaultBusy(first)) == Move(PortSelected(port), [ask]);
    FinishFromSelected(o, first, port);
    assert s.trace == [probe, ask] + s.trace[2..];
  }

  /** With an occupied default port and alternatives on offer, the machine does
      what `Login.ChoosePort` followed by `Login.Settle` does. */
  lemma {:induction false} FinishFromBusy(o: Oracle, first: UrlResponse)
    requires o.defaultPortOccupied && first.alternativePorts != ""
    ensures Finish(o, UrlGranted(first)) == Settle(o, ChoosePort(o, first))
  {
    match o.selection
    case SelectionFailed(_) => FinishFromBusyFailed(o, first);
    case Selected(port) => FinishFromBusySelected(o, first, port);
  }

  /** After a successful first response, the machine does what `Login.ChoosePort`
      followed by `Login.Settle` does. */
  lemma {:induction false} FinishFromGranted(o: Oracle, first: UrlResponse)
    ensures Finish(o, UrlGranted(first)) == Settle(o, ChoosePort(o, first))
  {
    if !o.defaultPortOccupied {
      FinishStep(o, UrlGranted(first));
      assert Step(o, UrlGranted(first)) == Move(PortFixed(o.defaultPort, first), [ProbePort(o.defaultPort)]);
      FinishFromPort(o, o.defaultPort, first);
    } else if first.alternativePorts != "" {
      FinishFromBusy(o, first);
    } else {
      FinishStep(o, UrlGranted(first));
    }
  }

  /** After a successful first response, `Login.RunLogin` is the first request
      followed by what `Login.ChoosePort` and `Login.Settle` do. */
  lemma RunLoginAfterFirst(o: Oracle, first: UrlResponse)
    requires CheckUrlResponse(FirstRound, o.firstUrl) == Ok(first)
    ensures var s := Settle(o, ChoosePort(o, first));
            RunLogin(o) == Run(s.outcome, [FirstRequest(o)] + s.trace)
  {
    var c := ChoosePort(o, first);
    assert Negotiate(o) == Negotiation(c.result, [FirstRequest(o)] + c.trace);
    SettlePrepend(o, [FirstRequest(o)], c);
  }

  /** Running the machine from `Start` yields exactly `Login.RunLogin`: the same
      outcome and the same calls in the same order. */
  lemma {:induction false} MachineAgrees(o: Oracle)
    ensures Finish(o, Start) == RunLogin(o)
  {
    FinishStep(o, Start);
    match CheckUrlResponse(FirstRound, o.firstUrl)
    case Err(_) =>
    case Ok(first) =>
      assert Step(o, Start) == Move(UrlGranted(first), [FirstRequest(o)]);
      FinishFromGranted(o, first);
      RunLoginAfterFirst(o, first);
  }

  /** Whatever the collaborators answer, `runLogin` makes its calls in stage order:
      each kind of call at most once, none after a later stage has begun. */
  lemma StagedTrace(o: Oracle)
    ensures Staged(RunLogin(o).trace)
  {
    MachineAgrees(o);
    FinishStaged(o, Start);
  }

  /** Drives the machine one step at a time, as `runLogin` goes from one
      collaborator to the next, and ends where `Login.RunLogin` ends. */
  method Drive(o: Oracle) returns (r: Run)
    ensures r == RunLogin(o)
  {
    var p := Start;
    var trace: seq<Effect> := [];
    while !p.Finished?
      invariant trace + Finish(o, p).trace == Finish(o, Start).trace
      invariant Finish(o, p).outcome == Finish(o, Start).outcome
      decreases Distance(p)
    {
      var m := Step(o, p);
      FinishStep(o, p);
      trace := trace + m.effects;
      p := m.next;
    }
    MachineAgrees(o);
    r := Run(p.outcome, trace);
  }
}
