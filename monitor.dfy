/**
 * The RCON player monitor that runs beside the game server: every check it
 * asks the server for its player list, remembers when a player was last
 * seen, and once the server has been empty for the inactivity timeout it
 * stops the server by the configured method (an RCON `stop`, a stop request
 * to the Azure management API, or nothing).
 *
 * RCON sessions, the Azure credential and the HTTP calls are inputs: the
 * reply they give, or that they failed.
 */
module PlayerMonitor {
  import opened GoBasics
  import opened GoStrings
  import opened AzureRetry

  const ListPrefix: Bytes := Ascii("There are ")
  const ListSuffix: Bytes := Ascii(" of")

  /** The length of the run of ASCII digits at the start of `s`. */
  function DigitRun(s: Bytes): (d: nat)
    ensures d <= |s|
  {
    if s != [] && IsDigit(s[0]) then 1 + DigitRun(s[1..]) else 0
  }

  /** The digit run at the start of `s` is all digits, the bounds are right, and it is maximal. */
  lemma {:induction false} DigitRunShape(s: Bytes)
    ensures DigitRun(s) <= |s|
    ensures forall i :: 0 <= i < DigitRun(s) ==> IsDigit(s[i])
    ensures DigitRun(s) < |s| ==> !IsDigit(s[DigitRun(s)])
    decreases |s|
  {
    if s != [] && IsDigit(s[0]) {
      DigitRunShape(s[1..]);
      forall i | 1 <= i < DigitRun(s)
        ensures IsDigit(s[i])
      {
        assert s[i] == s[1..][i - 1];
      }
    }
  }

  /** The digit run of digits followed by a non-digit is exactly those digits. */
  lemma {:induction false} DigitRunOf(ds: Bytes, rest: Bytes)
    requires forall i :: 0 <= i < |ds| ==> IsDigit(ds[i])
    requires rest == [] || !IsDigit(rest[0])
    ensures DigitRun(ds + rest) == |ds|
    decreases |ds|
  {
    if ds == [] {
      assert ds + rest == rest;
    } else {
      assert (ds + rest)[1..] == ds[1..] + rest;
      DigitRunOf(ds[1..], rest);
    }
  }

  /** Whether `There are ` occurs at position `i` of `s`. */
  predicate PrefixAt(s: Bytes, i: nat)
  {
    i + |ListPrefix| <= |s| && s[i..i + |ListPrefix|] == ListPrefix
  }

  /**
   * Whether `There are (\d+) of` matches at position `i` of `s`. `\d+` is
   * greedy and must be followed by a space, so the only candidate is the
   * whole digit run.
   */
  predicate MatchAt(s: Bytes, i: nat)
  {
    PrefixAt(s, i) &&
    var d := DigitRun(s[i + |ListPrefix|..]);
    d > 0 && HasPrefix(s[i + |ListPrefix| + d..], ListSuffix)
  }

  /** The leftmost match at or after `from`, as `FindStringSubmatch` finds it. */
  function FirstMatch(s: Bytes, from: nat): (r: Option<nat>)
    requires from <= |s|
    ensures r.Some? ==> from <= r.value <= |s| && MatchAt(s, r.value)
    ensures r.Some? ==> forall j :: from <= j < r.value ==> !MatchAt(s, j)
    ensures r.None? ==> forall j :: from <= j <= |s| ==> !MatchAt(s, j)
    decreases |s| - from
  {
    if MatchAt(s, from) then Some(from)
    else if from == |s| then None
    else FirstMatch(s, from + 1)
  }

  /**
   * The player count in the reply to `list`: the number captured by the
   * first match, read with `strconv.Atoi` whose error is ignored, or 0. The
   * captured number is a digit string, so the count is never negative.
   */
  function PlayerCountOf(reply: Bytes): (n: int64)
    ensures n >= 0
  {
    match FirstMatch(reply, 0)
    case None => 0
    case Some(i) =>
      var start := i + |ListPrefix|;
      DigitRunShape(reply[start..]);
      var ds := reply[start..start + DigitRun(reply[start..])];
      assert forall k :: 0 <= k < |ds| ==> IsDigit(ds[k]);
      AtoiDigitsNonNegative(ds);
      Atoi(ds).value
  }

  /** The server's own reply, `There are <n> of a max of <m> players online: ...`, gives n. */
  lemma ListReplyCount(n: int64, rest: Bytes)
    requires n >= 0
    ensures PlayerCountOf(ListPrefix + Decimal(n) + ListSuffix + rest) == n
  {
    var s := ListPrefix + Decimal(n) + ListSuffix + rest;
    var ds := Decimal(n);
    var tail := ListSuffix + rest;
    assert s[|ListPrefix|..] == ds + tail;
    assert s[0..|ListPrefix|] == ListPrefix;
    DigitRunOf(ds, tail);
    assert s[|ListPrefix| + |ds|..] == tail;
    assert MatchAt(s, 0);
    assert s[|ListPrefix|..|ListPrefix| + |ds|] == ds;
    AtoiDecimal(n);
  }

  /** A reply in which `There are ` never occurs counts no players. */
  lemma NoListPrefixNoPlayers(reply: Bytes)
    requires forall i :: 0 <= i <= |reply| ==> !PrefixAt(reply, i)
    ensures PlayerCountOf(reply) == 0
  {
    assert forall j :: 0 <= j <= |reply| ==> !MatchAt(reply, j);
  }

  /** Atoi of a digit string is never negative. */
  lemma AtoiDigitsNonNegative(ds: Bytes)
    requires ds != [] && forall k :: 0 <= k < |ds| ==> IsDigit(ds[k])
    ensures Atoi(ds).value >= 0
  {
    assert ds[0] != '-' as int;
  }

  /** The stop methods `stop` dispatches to. */
  datatype StopMethod = AzureStop | RconStop | NoStop

  /** `Monitor.stop`'s switch: an unknown method name stops through RCON. */
  function StopMethodOf(name: Bytes): (m: StopMethod)
    ensures m == AzureStop <==> name == Ascii("azure")
    ensures m == NoStop <==> name == Ascii("noop")
  {
    assert Ascii("rcon")[0] != Ascii("noop")[0];
    if name == Ascii("azure") then AzureStop
    else if name == Ascii("rcon") then RconStop
    else if name == Ascii("noop") then NoStop
    else RconStop
  }

  /** The errors `check` can return. */
  datatype MonitorError =
    | RconError         // dialling or a command failed
    | NoCredential      // "Azure credentials not available"
    | NoSubscription    // "AZURE_SUBSCRIPTION_ID not set"
    | NoResourceGroup   // "AZURE_RESOURCE_GROUP not set"
    | NoAppName         // "AZURE_CONTAINER_APP_NAME not set"
    | TokenError        // "failed to get token"
    | RequestError      // http.NewRequest failed
    | StopFailed        // "stop failed"

  /** What one RCON session for `list` gave. */
  datatype ListSession = ListDialFailed | ListFailed | ListReply(text: Bytes)

  /** What the RCON session of `stopViaRcon` gave: dial, warning, `stop`. */
  datatype StopSession = StopDialFailed | StopCommandFailed | StopCommandSent

  /** The outside world as one check meets it. */
  datatype Tick = Tick(
    now: int,
    list: ListSession,
    stopSession: StopSession,
    tokenOk: bool,
    respond: nat -> HttpOutcome)

  /** `stopViaRcon`'s result; a failed warning is only logged, and the 30 s sleep is not modelled. */
  function RconStopError(session: StopSession): Option<MonitorError>
  {
    if session == StopCommandSent then None else Some(RconError)
  }

  const StopCooldown: int := 2 * Minute

  /** The Azure settings of a monitor. */
  datatype AzureSettings = AzureSettings(
    hasCredential: bool, subscriptionId: Bytes, resourceGroup: Bytes, containerAppName: Bytes)

  /** How `stopContainerApp` ended. */
  datatype StopEnd =
    | StopCoolingDown
    | Invalid(error: MonitorError)
    | NoTokenIssued
    | Requested(end: RetryEnd)

  /** The first missing Azure setting, in the order `stopContainerApp` checks them. */
  function MissingSetting(a: AzureSettings): Option<MonitorError>
  {
    if !a.hasCredential then Some(NoCredential)
    else if a.subscriptionId == [] then Some(NoSubscription)
    else if a.resourceGroup == [] then Some(NoResourceGroup)
    else if a.containerAppName == [] then Some(NoAppName)
    else None
  }

  /** `stopContainerApp` on the previous stop time `last`. */
  function StopAzure(a: AzureSettings, last: Option<int>, tick: Tick): (r: StopEnd)
    ensures r.Requested? <==>
      !CoolingDown(last, tick.now, StopCooldown) && a.hasCredential && a.subscriptionId != [] &&
      a.resourceGroup != [] && a.containerAppName != [] && tick.tokenOk
    ensures CoolingDown(last, tick.now, StopCooldown) ==> r == StopCoolingDown
  {
    if CoolingDown(last, tick.now, StopCooldown) then StopCoolingDown
    else if MissingSetting(a).Some? then Invalid(MissingSetting(a).value)
    else if !tick.tokenOk then NoTokenIssued
    else Requested(RetryFrom(tick.respond, false, 0))
  }

  /** The error `stopContainerApp` returns. */
  function StopAzureError(r: StopEnd): Option<MonitorError>
  {
    match r
    case StopCoolingDown => None
    case Invalid(e) => Some(e)
    case NoTokenIssued => Some(TokenError)
    case Requested(end) =>
      match end
      case Succeeded(_, _) => None
      case BuildError(_) => Some(RequestError)
      case ClientError(_, _) => Some(StopFailed)
      case GaveUp => Some(StopFailed)
  }

  /** `lastStopTime` after `stopContainerApp` ended in `r`. */
  function StopTimeAfter(last: Option<int>, r: StopEnd): Option<int>
  {
    if r.Requested? && r.end.Succeeded? then Some(r.end.at) else last
  }

  /**
   * `stopContainerApp` returns nil exactly when it is cooling down or a
   * stop request was accepted; a request that cannot be built ends the loop
   * with that error at once, after only network errors and retryable
   * statuses before it.
   */
  lemma StopAzureErrors(a: AzureSettings, last: Option<int>, tick: Tick)
    ensures var r := StopAzure(a, last, tick);
            StopAzureError(r) == None <==> r == StopCoolingDown || (r.Requested? && r.end.Succeeded?)
    ensures var r := StopAzure(a, last, tick);
            r.Requested? && r.end.BuildError? ==>
              tick.respond(r.end.attempt) == RequestFailed &&
              forall j :: 0 <= j < r.end.attempt ==> tick.respond(j) != RequestFailed && Retries(tick.respond(j), false)
  {
    RetryFromEnds(tick.respond, false, 0);
  }

  /**
   * `lastStopTime` changes only when a stop request is accepted, and then
   * becomes the clock reading of the accepted response.
   */
  lemma StopTimeChangesOnlyOnSuccess(a: AzureSettings, last: Option<int>, tick: Tick)
    requires StopTimeAfter(last, StopAzure(a, last, tick)) != last
    ensures var end := StopAzure(a, last, tick).end;
            end.Succeeded? && end.attempt < MaxAttempts &&
            tick.respond(end.attempt).Response? && Accepted(tick.respond(end.attempt).status) &&
            StopTimeAfter(last, StopAzure(a, last, tick)) == Some(tick.respond(end.attempt).at)
  {
    RetryFromEnds(tick.respond, false, 0);
  }

  /** What one `check` did. */
  datatype CheckOutcome =
    | CheckFailed(error: MonitorError)                  // the RCON session for `list` failed
    | PlayersOnline(count: int64)                       // players seen: the timer restarts
    | StillWaiting                                      // empty, but not long enough
    | StopCalled(how: StopMethod, stopError: Option<MonitorError>)

  /** The settings `main` reads. */
  datatype MonitorConfig = MonitorConfig(
    rconAddr: Bytes,
    rconPassword: Bytes,
    checkInterval: int,
    inactivityTimeout: int,
    stopMethod: Bytes,
    azure: AzureSettings)

  /** `duration(s)`: `time.ParseDuration`, given as `parse`, with 30 s when it fails. */
  function Duration(parse: Bytes -> Option<int>, s: Bytes): (d: int)
    ensures parse(s).None? ==> d == 30 * Second
    ensures parse(s).Some? ==> d == parse(s).value
  {
    match parse(s)
    case None => 30 * Second
    case Some(d) => d
  }

  /** The configuration `main` builds from the environment; `hasCredential` is whether the credential could be made. */
  function LoadConfig(env: Env, parse: Bytes -> Option<int>, hasCredential: bool): (c: MonitorConfig)
    ensures c.rconPassword == LookupEnv(env, Ascii("RCON_PASSWORD"))
    ensures c.azure.hasCredential == hasCredential
    ensures LookupEnv(env, Ascii("STOP_METHOD")) == [] ==> StopMethodOf(c.stopMethod) == RconStop
    ensures LookupEnv(env, Ascii("AZURE_SUBSCRIPTION_ID")) == [] ==> MissingSetting(c.azure) != None
    ensures parse(GetEnv(env, Ascii("CHECK_INTERVAL"), Ascii("30s"))).None? ==> c.checkInterval == 30 * Second
    ensures parse(GetEnv(env, Ascii("INACTIVITY_TIMEOUT"), Ascii("5m"))).None? ==> c.inactivityTimeout == 30 * Second
  {
    MonitorConfig(
      GetEnv(env, Ascii("MINECRAFT_HOST"), Ascii("127.0.0.1")) + Ascii(":") + GetEnv(env, Ascii("RCON_PORT"), Ascii("25575")),
      GetEnv(env, Ascii("RCON_PASSWORD"), []),
      Duration(parse, GetEnv(env, Ascii("CHECK_INTERVAL"), Ascii("30s"))),
      Duration(parse, GetEnv(env, Ascii("INACTIVITY_TIMEOUT"), Ascii("5m"))),
      GetEnv(env, Ascii("STOP_METHOD"), Ascii("rcon")),
      AzureSettings(
        hasCredential,
        GetEnv(env, Ascii("AZURE_SUBSCRIPTION_ID"), []),
        GetEnv(env, Ascii("AZURE_RESOURCE_GROUP"), []),
        GetEnv(env, Ascii("AZURE_CONTAINER_APP_NAME"), [])))
  }

  /** Why `main` refuses to start. */
  datatype StartupError = PasswordMissing | IntervalNotBelowTimeout

  /** `main`'s two fatal checks, in order. */
  function StartupCheck(c: MonitorConfig): (r: Option<StartupError>)
    ensures r == None <==> c.rconPassword != [] && c.checkInterval < c.inactivityTimeout
    ensures c.rconPassword == [] ==> r == Some(PasswordMissing)
  {
    if c.rconPassword == [] then Some(PasswordMissing)
    else if c.checkInterval >= c.inactivityTimeout then Some(IntervalNotBelowTimeout)
    else None
  }

  /**
   * With only a password set, the monitor starts: 30 s checks against a
   * 5 min timeout, stopping through RCON on 127.0.0.1:25575.
   */
  lemma DefaultsStart(env: Env, parse: Bytes -> Option<int>, hasCredential: bool)
    requires LookupEnv(env, Ascii("RCON_PASSWORD")) != []
    requires forall k :: k in env ==> k == Ascii("RCON_PASSWORD")
    requires parse(Ascii("30s")) == Some(30 * Second) && parse(Ascii("5m")) == Some(5 * Minute)
    ensures var c := LoadConfig(env, parse, hasCredential);
            StartupCheck(c) == None && c.checkInterval == 30 * Second && c.inactivityTimeout == 5 * Minute &&
            c.rconAddr == Ascii("127.0.0.1:25575") && StopMethodOf(c.stopMethod) == RconStop
  {
    assert Ascii("127.0.0.1") + Ascii(":") + Ascii("25575") == Ascii("127.0.0.1:25575");
    assert Ascii("CHECK_INTERVAL") != Ascii("RCON_PASSWORD") by {
      assert |Ascii("CHECK_INTERVAL")| != |Ascii("RCON_PASSWORD")|;
    }
    assert Ascii("INACTIVITY_TIMEOUT") != Ascii("RCON_PASSWORD") by {
      assert |Ascii("INACTIVITY_TIMEOUT")| != |Ascii("RCON_PASSWORD")|;
    }
    assert Ascii("MINECRAFT_HOST") !in env by {
      assert Ascii("MINECRAFT_HOST")[0] != Ascii("RCON_PASSWORD")[0];
    }
    assert Ascii("RCON_PORT") !in env by {
      assert |Ascii("RCON_PORT")| != |Ascii("RCON_PASSWORD")|;
    }
    assert Ascii("STOP_METHOD") !in env by {
      assert |Ascii("STOP_METHOD")| != |Ascii("RCON_PASSWORD")|;
    }
  }

  /** Two unparseable durations both fall back to 30 s, and the monitor then refuses to start. */
  lemma BadDurationsRefuseStart(env: Env, parse: Bytes -> Option<int>, hasCredential: bool)
    requires LookupEnv(env, Ascii("RCON_PASSWORD")) != []
    requires parse(GetEnv(env, Ascii("CHECK_INTERVAL"), Ascii("30s"))).None?
    requires parse(GetEnv(env, Ascii("INACTIVITY_TIMEOUT"), Ascii("5m"))).None?
    ensures StartupCheck(LoadConfig(env, parse, hasCredential)) == Some(IntervalNotBelowTimeout)
  {
  }

  /** The monitor: its settings, and the two times it remembers. */
  class Monitor {
    const config: MonitorConfig
    /** When a player was last seen (at start: the start time). */
    var lastPlayerTime: int
    /** When a stop request was last accepted; None is Go's zero time. */
    var lastStopTime: Option<int>

    constructor (config: MonitorConfig, startedAt: int)
      ensures this.config == config && lastPlayerTime == startedAt && lastStopTime == None
    {
      this.config := config;
      lastPlayerTime := startedAt;
      lastStopTime := None;
    }

    /** `stopContainerApp()`; `slept` records the backoff sleeps. */
    method StopContainerApp(tick: Tick) returns (err: Option<MonitorError>, slept: seq<int>)
      modifies this`lastStopTime
      ensures var r := StopAzure(config.azure, old(lastStopTime), tick);
              err == StopAzureError(r) && lastStopTime == StopTimeAfter(old(lastStopTime), r) &&
              slept == if r.Requested? then SleepsBefore(Attempts(r.end)) else []
    {
      slept := [];
      if CoolingDown(lastStopTime, tick.now, StopCooldown) {
        return None, slept;
      }
      var a := config.azure;
      if !a.hasCredential {
        return Some(NoCredential), slept;
      }
      if a.subscriptionId == [] {
        return Some(NoSubscription), slept;
      }
      if a.resourceGroup == [] {
        return Some(NoResourceGroup), slept;
      }
      if a.containerAppName == [] {
        return Some(NoAppName), slept;
      }
      if !tick.tokenOk {
        return Some(TokenError), slept;
      }
      var attempt := 0;
      while attempt < MaxAttempts
        invariant 0 <= attempt <= MaxAttempts
        invariant RetryFrom(tick.respond, false, attempt) == RetryFrom(tick.respond, false, 0)
        invariant slept == SleepsBefore(attempt)
        invariant lastStopTime == old(lastStopTime)
        decreases MaxAttempts - attempt
      {
        if attempt > 0 {
          slept := slept + [Backoff(attempt)];
        }
        assert slept == SleepsBefore(attempt + 1);
        var outcome := tick.respond(attempt);
        if outcome == RequestFailed {
          return Some(RequestError), slept;
        }
        if outcome.Response? && Accepted(outcome.status) {
          lastStopTime := Some(outcome.at);
          return None, slept;
        }
        if outcome.Response? && ClientRejected(outcome.status) {
          break;
        }
        attempt := attempt + 1;
      }
      return Some(StopFailed), slept;
    }

    /** `Monitor.stop()`. */
    method Stop(tick: Tick) returns (how: StopMethod, err: Option<MonitorError>)
      modifies this`lastStopTime
      ensures how == StopMethodOf(config.stopMethod)
      ensures how == AzureStop ==>
                var r := StopAzure(config.azure, old(lastStopTime), tick);
                err == StopAzureError(r) && lastStopTime == StopTimeAfter(old(lastStopTime), r)
      ensures how == RconStop ==> err == RconStopError(tick.stopSession) && lastStopTime == old(lastStopTime)
      ensures how == NoStop ==> err == None && lastStopTime == old(lastStopTime)
    {
      how := StopMethodOf(config.stopMethod);
      match how {
        case AzureStop =>
          var slept;
          err, slept := StopContainerApp(tick);
        case RconStop =>
          err := StopViaRcon(tick.stopSession);
        case NoStop =>
          err := None;
      }
    }

    /** `stopViaRcon()`. */
    static method StopViaRcon(session: StopSession) returns (err: Option<MonitorError>)
      ensures err == RconStopError(session)
    {
      if session == StopDialFailed {
        return Some(RconError);
      }
      if session == StopCommandFailed {
        return Some(RconError);
      }
      return None;
    }

    /**
     * `Monitor.check()`. A failed session changes nothing; players seen
     * restart the inactivity timer; an empty server calls `stop` once
     * `inactivityTimeout` has passed since a player was last seen, and, the
     * timer not being restarted, on every empty check after that too.
     */
    method Check(tick: Tick) returns (r: CheckOutcome)
      modifies this`lastPlayerTime, this`lastStopTime
      ensures !tick.list.ListReply? ==>
                r == CheckFailed(RconError) && lastPlayerTime == old(lastPlayerTime) && lastStopTime == old(lastStopTime)
      ensures tick.list.ListReply? && PlayerCountOf(tick.list.text) > 0 ==>
                r == PlayersOnline(PlayerCountOf(tick.list.text)) && lastPlayerTime == tick.now &&
                lastStopTime == old(lastStopTime)
      ensures tick.list.ListReply? && PlayerCountOf(tick.list.text) <= 0 ==>
                lastPlayerTime == old(lastPlayerTime) &&
                (r.StopCalled? <==> tick.now - old(lastPlayerTime) >= config.inactivityTimeout) &&
                (!r.StopCalled? ==> r == StillWaiting && lastStopTime == old(lastStopTime))
      ensures r.StopCalled? ==> r.how == StopMethodOf(config.stopMethod)
      ensures r.StopCalled? && r.how == AzureStop ==>
                var end := StopAzure(config.azure, old(lastStopTime), tick);
                r.stopError == StopAzureError(end) && lastStopTime == StopTimeAfter(old(lastStopTime), end)
      ensures r.StopCalled? && r.how == RconStop ==>
                r.stopError == RconStopError(tick.stopSession) && lastStopTime == old(lastStopTime)
      ensures r.StopCalled? && r.how == NoStop ==> r.stopError == None && lastStopTime == old(lastStopTime)
    {
      if !tick.list.ListReply? {
        return CheckFailed(RconError);
      }
      var count := PlayerCountOf(tick.list.text);
      if count > 0 {
        lastPlayerTime := tick.now;
        return PlayersOnline(count);
      }
      var empty := tick.now - lastPlayerTime;
      if empty >= config.inactivityTimeout {
        var how, err := Stop(tick);
        return StopCalled(how, err);
      }
      return StillWaiting;
    }
  }
}
