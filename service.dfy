/** The Telegram service: builds and authorises the bot and user clients, starts both actors,
    and routes requests and responses between the bot and the application. */
module Service {
  import opened Base
  import Bot

  datatype ServiceRequests = BotRequest(botRequest: Bot.BotRequest)

  datatype ServiceResponses = BotResponse(botResponse: Bot.BotResponse)

  // ---------------------------------------------------------------------------------------
  // Client construction.

  datatype ClientIdentifier = BotToken(token: string) | PhoneNumber(phone: string)

  /** The database directory of a client: "bot" for the bot identity, "user" for the phone
      identity, so the two clients never share storage. */
  function DbDir(ident: ClientIdentifier): (d: string)
    ensures d == "bot" <==> ident.BotToken?
    ensures d == "user" <==> ident.PhoneNumber?
  {
    match ident
    case PhoneNumber(_) => "user"
    case BotToken(_) => "bot"
  }

  datatype TdlibParameters = TdlibParameters(
    databaseDirectory: string, useTestDc: bool, apiId: int, apiHash: string,
    systemLanguageCode: string, deviceModel: string, systemVersion: string,
    applicationVersion: string, enableStorageOptimizer: bool)

  /** The parameters every client is built with; only the directory depends on the identity. */
  function ClientParameters(ident: ClientIdentifier, appId: int, apiHash: string): (p: TdlibParameters)
    ensures p.databaseDirectory == DbDir(ident) && p.apiId == appId && p.apiHash == apiHash
    ensures !p.useTestDc && p.enableStorageOptimizer
  {
    TdlibParameters(DbDir(ident), false, appId, apiHash, "en", "Unknown", "Unknown", "0.0.1", true)
  }

  /** Parameters differ between the two identities. */
  lemma ClientsUseSeparateDirectories(bot: string, phone: string, appId: int, apiHash: string)
    ensures ClientParameters(BotToken(bot), appId, apiHash) != ClientParameters(PhoneNumber(phone), appId, apiHash)
  {
    assert ClientParameters(BotToken(bot), appId, apiHash).databaseDirectory == "bot";
  }

  datatype ClientState = Opened | Closed | Authorizing

  /** One answer of `wait_auth_state_change`: a state, an error reported with the state, or a
      failure of the call itself. */
  datatype AuthObservation = Observed(state: ClientState) | ObservedError(observedError: string) | WaitFailed(waitError: string)

  /** How a multi-step start-up ended: it finished, it failed with a message, or it is
      still waiting for authorisation when the observations run out. */
  datatype Progress<T> = Done(value: T) | Failed(error: string) | Waiting

  const ClosedMessage := "client closed, need to reauthorize it"

  /** The verdict of the authorisation wait: decided by the first observation that is not
      `Authorizing`. */
  function AuthDecision(obs: seq<AuthObservation>): Progress<()>
  {
    if obs == [] then Waiting
    else
      match obs[0]
      case Observed(Opened) => Done(())
      case Observed(Closed) => Failed(ClosedMessage)
      case Observed(Authorizing) => AuthDecision(obs[1..])
      case ObservedError(e) => Failed(e)
      case WaitFailed(e) => Failed(e)
  }

  /** The authorisation loop of `build_client`. */
  method WaitAuth(obs: seq<AuthObservation>) returns (r: Progress<()>)
    ensures r == AuthDecision(obs)
  {
    var k := 0;
    while k < |obs|
      invariant k <= |obs|
      invariant forall j :: 0 <= j < k ==> obs[j] == Observed(Authorizing)
      invariant AuthDecision(obs) == AuthDecision(obs[k..])
    {
      assert obs[k..][1..] == obs[k + 1..];
      match obs[k] {
        case Observed(Opened) =>
          return Done(());
        case Observed(Closed) =>
          return Failed(ClosedMessage);
        case Observed(Authorizing) =>
          k := k + 1;
        case ObservedError(e) =>
          return Failed(e);
        case WaitFailed(e) =>
          return Failed(e);
      }
    }
    return Waiting;
  }

  /** The waiting prefix skipped by the loop does not change its verdict. */
  lemma {:induction false} AuthDecisionSkips(obs: seq<AuthObservation>, i: nat)
    requires i <= |obs|
    requires forall j :: 0 <= j < i ==> obs[j] == Observed(Authorizing)
    ensures AuthDecision(obs) == AuthDecision(obs[i..])
    decreases i
  {
    if i > 0 {
      AuthDecisionSkips(obs[1..], i - 1);
      assert obs[1..][i - 1..] == obs[i..];
    }
  }

  /** Authorisation succeeds exactly when the first observation that is not `Authorizing`
      is `Opened`; `Closed` or an error there is a failure. */
  lemma AuthSucceedsIff(obs: seq<AuthObservation>, i: nat)
    requires i < |obs|
    requires forall j :: 0 <= j < i ==> obs[j] == Observed(Authorizing)
    requires obs[i] != Observed(Authorizing)
    ensures AuthDecision(obs) == Done(()) <==> obs[i] == Observed(Opened)
    ensures AuthDecision(obs).Failed? <==> obs[i] != Observed(Opened)
    ensures obs[i] == Observed(Closed) ==> AuthDecision(obs) == Failed(ClosedMessage)
  {
    AuthDecisionSkips(obs, i);
  }

  /** Observations that never leave `Authorizing` keep the wait going. */
  lemma {:induction false} AuthWaitsWhileAuthorizing(obs: seq<AuthObservation>)
    requires forall j :: 0 <= j < |obs| ==> obs[j] == Observed(Authorizing)
    ensures AuthDecision(obs) == Waiting
  {
    AuthDecisionSkips(obs, |obs|);
  }

  /** What the environment answers when one client is built: whether building the client from
      its parameters succeeds, whether binding it to the worker succeeds, and the sequence of
      authorisation states it then reports. */
  datatype ClientEnv = ClientEnv(build: TdlibParameters -> Outcome, bind: Outcome, auth: seq<AuthObservation>)

  /** `build_client`: build, bind, then wait for authorisation; the first failure ends it. */
  method BuildClient(ident: ClientIdentifier, appId: int, apiHash: string, env: ClientEnv)
    returns (r: Progress<TdlibParameters>)
    ensures r == ClientProgress(ident, appId, apiHash, env)
  {
    var params := ClientParameters(ident, appId, apiHash);
    var built := env.build(params);
    if built.Fail? {
      return Failed(built.error);
    }
    if env.bind.Fail? {
      return Failed(env.bind.error);
    }
    var auth := WaitAuth(env.auth);
    match auth {
      case Done(_) => r := Done(params);
      case Failed(e) => r := Failed(e);
      case Waiting => r := Waiting;
    }
  }

  /** The outcome of building one client. */
  function ClientProgress(ident: ClientIdentifier, appId: int, apiHash: string, env: ClientEnv): (r: Progress<TdlibParameters>)
    ensures r.Done? <==> env.build(ClientParameters(ident, appId, apiHash)).Pass? && env.bind.Pass?
                         && AuthDecision(env.auth).Done?
    ensures r.Done? ==> r.value == ClientParameters(ident, appId, apiHash)
  {
    var params := ClientParameters(ident, appId, apiHash);
    if env.build(params).Fail? then Failed(env.build(params).error)
    else if env.bind.Fail? then Failed(env.bind.error)
    else
      match AuthDecision(env.auth)
      case Done(_) => Done(params)
      case Failed(e) => Failed(e)
      case Waiting => Waiting
  }

  // ---------------------------------------------------------------------------------------
  // Start and stop.

  /** What the environment answers during `start`: the verbosity variable and how it parses,
      whether the worker builds, the two clients' environments, and the bot's start-up calls.
      The user actor's start cannot fail. */
  datatype StartEnv = StartEnv(
    verbosityVar: Option<string>, parseVerbosity: string -> Result<int>,
    workerBuild: Outcome, botEnv: ClientEnv, userEnv: ClientEnv,
    setCommands: seq<Bot.MenuEntry> -> Outcome, getMe: Result<int>)

  /** The running service: both authorised clients and the bot's own id. The worker is not a
      value here; stopping it is counted by `TelegramService.workerStops`. */
  datatype Inner = Inner(botClient: TdlibParameters, userClient: TdlibParameters, botId: int)

  const AlreadyStarted := "service already started"

  /** How `start` on a stopped service ends, step by step in the order of the source. */
  function StartProgress(appId: int, apiHash: string, userPhone: string, botToken: string, env: StartEnv): Progress<Inner>
  {
    var level := if env.verbosityVar.Some? then env.verbosityVar.value else "1";
    if env.parseVerbosity(level).Err? then Failed(env.parseVerbosity(level).error)
    else if env.workerBuild.Fail? then Failed(env.workerBuild.error)
    else
      match ClientProgress(BotToken(botToken), appId, apiHash, env.botEnv)
      case Failed(e) => Failed(e)
      case Waiting => Waiting
      case Done(bp) =>
        match ClientProgress(PhoneNumber(userPhone), appId, apiHash, env.userEnv)
        case Failed(e) => Failed(e)
        case Waiting => Waiting
        case Done(up) =>
          match Bot.Startup(env.setCommands, env.getMe)
          case Err(e) => Failed(e)
          case Ok(me) => Done(Inner(bp, up, me))
  }

  /** A service is started only when every step succeeded: the verbosity parsed, the worker
      built, both clients authorised and the bot published its menu and learned its id. */
  lemma StartSucceedsIff(appId: int, apiHash: string, userPhone: string, botToken: string, env: StartEnv)
    ensures var level := if env.verbosityVar.Some? then env.verbosityVar.value else "1";
            StartProgress(appId, apiHash, userPhone, botToken, env).Done? <==>
              && env.parseVerbosity(level).Ok?
              && env.workerBuild.Pass?
              && ClientProgress(BotToken(botToken), appId, apiHash, env.botEnv).Done?
              && ClientProgress(PhoneNumber(userPhone), appId, apiHash, env.userEnv).Done?
              && env.setCommands(Bot.Menu()).Pass? && env.getMe.Ok?
    ensures StartProgress(appId, apiHash, userPhone, botToken, env).Done? ==>
              StartProgress(appId, apiHash, userPhone, botToken, env).value
                == Inner(ClientParameters(BotToken(botToken), appId, apiHash),
                         ClientParameters(PhoneNumber(userPhone), appId, apiHash), env.getMe.value)
  {
  }

  class TelegramService {
    const apiHash: string
    const appId: int
    const userPhone: string
    const botToken: string
    var inner: Option<Inner>
    /** How many times the worker has been told to stop. */
    var workerStops: nat

    constructor(apiHash: string, appId: int, userPhone: string, botToken: string)
      ensures this.apiHash == apiHash && this.appId == appId
      ensures this.userPhone == userPhone && this.botToken == botToken
      ensures inner == None && workerStops == 0
    {
      this.apiHash := apiHash;
      this.appId := appId;
      this.userPhone := userPhone;
      this.botToken := botToken;
      inner := None;
      workerStops := 0;
    }

    /** `start`: refuses a started service; otherwise runs the start-up steps and records
      the running service only when all of them succeeded. */
    method Start(env: StartEnv) returns (r: Progress<()>)
      modifies this
      ensures workerStops == old(workerStops)
      ensures old(inner).Some? ==> r == Failed(AlreadyStarted) && inner == old(inner)
      ensures old(inner).None? ==>
                var p := StartProgress(appId, apiHash, userPhone, botToken, env);
                && (r.Done? <==> p.Done?)
                && (p.Failed? ==> r == Failed(p.error))
                && (p.Waiting? ==> r == Waiting)
                && inner == (if p.Done? then Some(p.value) else None)
    {
      if inner.Some? {
        return Failed(AlreadyStarted);
      }
      var level := if env.verbosityVar.Some? then env.verbosityVar.value else "1";
      var parsed := env.parseVerbosity(level);
      if parsed.Err? {
        return Failed(parsed.error);
      }
      if env.workerBuild.Fail? {
        return Failed(env.workerBuild.error);
      }
      var bot := BuildClient(BotToken(botToken), appId, apiHash, env.botEnv);
      if bot.Failed? {
        return Failed(bot.error);
      } else if bot.Waiting? {
        return Waiting;
      }
      var user := BuildClient(PhoneNumber(userPhone), appId, apiHash, env.userEnv);
      if user.Failed? {
        return Failed(user.error);
      } else if user.Waiting? {
        return Waiting;
      }
      var me := Bot.Startup(env.setCommands, env.getMe);
      if me.Err? {
        return Failed(me.error);
      }
      inner := Some(Inner(bot.value, user.value, me.value));
      return Done(());
    }

    /** `stop`: a started service forgets its clients and stops its worker; a
        stopped service is left as it is. */
    method Stop()
      modifies this
      ensures inner == None
      ensures workerStops == if old(inner).Some? then old(workerStops) + 1 else old(workerStops)
    {
      if inner.Some? {
        inner := None;
        workerStops := workerStops + 1;
      }
    }
  }

  /** Stopping twice is stopping once. */
  method StopIsIdempotent(s: TelegramService)
    modifies s
    ensures s.inner == None
    ensures s.workerStops == if old(s.inner).Some? then old(s.workerStops) + 1 else old(s.workerStops)
  {
    s.Stop();
    s.Stop();
  }

  // ---------------------------------------------------------------------------------------
  // The router.

  /** One event the router reacts to: a response from the application or a request from the
      bot actor. */
  datatype RouterEvent = FromApp(appResponse: ServiceResponses) | FromBot(botRequest: Bot.BotRequest)

  /** Where one event goes: the unwrapped response to the bot, the wrapped request to the app. */
  datatype Forwarded = ToBot(toBot: Bot.BotResponse) | ToApp(toApp: ServiceRequests)

  function Route(e: RouterEvent): Forwarded
  {
    match e
    case FromApp(BotResponse(resp)) => ToBot(resp)
    case FromBot(req) => ToApp(BotRequest(req))
  }

  /** Routing neither alters a response nor a request: wrapping and unwrapping are inverse. */
  lemma RouteRoundTrip(resp: Bot.BotResponse, req: Bot.BotRequest)
    ensures Route(FromApp(BotResponse(resp))) == ToBot(resp)
    ensures Route(FromBot(req)).toApp.botRequest == req
  {
  }

  ghost function Routed(events: seq<RouterEvent>): seq<Forwarded>
  {
    if events == [] then [] else Routed(events[..|events| - 1]) + [Route(events[|events| - 1])]
  }

  /** The forwarding arms of the router loop, one event per iteration. */
  method RunRouter(events: seq<RouterEvent>) returns (toBot: seq<Bot.BotResponse>, toApp: seq<ServiceRequests>)
    ensures |toBot| + |toApp| == |events|
    ensures toBot == BotBound(Routed(events)) && toApp == AppBound(Routed(events))
  {
    toBot, toApp := [], [];
    for k := 0 to |events|
      invariant |toBot| + |toApp| == k
      invariant toBot == BotBound(Routed(events[..k])) && toApp == AppBound(Routed(events[..k]))
    {
      assert events[..k + 1][..k] == events[..k];
      BoundSnoc(Routed(events[..k]), Route(events[k]));
      match events[k] {
        case FromApp(BotResponse(resp)) =>
          toBot := toBot + [resp];
        case FromBot(req) =>
          toApp := toApp + [BotRequest(req)];
      }
    }
    assert events[..|events|] == events;
  }

  /** The messages sent to the bot, in order. */
  function BotBound(fs: seq<Forwarded>): seq<Bot.BotResponse>
  {
    if fs == [] then [] else BotBound(fs[..|fs| - 1]) + (if fs[|fs| - 1].ToBot? then [fs[|fs| - 1].toBot] else [])
  }

  /** The messages sent to the application, in order. */
  function AppBound(fs: seq<Forwarded>): seq<ServiceRequests>
  {
    if fs == [] then [] else AppBound(fs[..|fs| - 1]) + (if fs[|fs| - 1].ToApp? then [fs[|fs| - 1].toApp] else [])
  }

  lemma BoundSnoc(fs: seq<Forwarded>, f: Forwarded)
    ensures BotBound(fs + [f]) == BotBound(fs) + (if f.ToBot? then [f.toBot] else [])
    ensures AppBound(fs + [f]) == AppBound(fs) + (if f.ToApp? then [f.toApp] else [])
  {
    assert (fs + [f])[..|fs|] == fs;
  }
}
