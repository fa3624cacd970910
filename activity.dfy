/**
 * The activity monitor of the container stack: it probes the game server's
 * TCP port every check interval, puts an activity message on a storage
 * queue while the server answers, counts the checks it does not, and clears
 * the queue (so the stack scales down) once the count reaches
 * `inactivityTimeout / checkInterval`.
 *
 * The TCP probe, the queue client and the clock are inputs: each check is
 * an observation of whether the server answered and when.
 */
module ActivityMonitor {
  import opened GoBasics
  import opened GoStrings

  /** `Config`, as `getConfig` fills it; durations in nanoseconds. */
  datatype ActivityConfig = ActivityConfig(
    minecraftHost: Bytes,
    minecraftPort: int64,
    connectionString: Bytes,
    queueName: Bytes,
    checkInterval: int64,
    inactivityTimeout: int64)

  /** `time.Duration(n) * time.Second`, which wraps around on 64 bits. */
  function Seconds(n: int64): int64
  {
    Wrap64(n * Second)
  }

  /** `getConfig()`: every `strconv.Atoi` error is dropped, so its value (0 on a syntax error) is used. */
  function GetConfig(env: Env): (c: ActivityConfig)
    ensures c.connectionString == LookupEnv(env, Ascii("AZURE_STORAGE_CONNECTION_STRING"))
    ensures LookupEnv(env, Ascii("MINECRAFT_HOST")) == [] ==> c.minecraftHost == Ascii("localhost")
    ensures LookupEnv(env, Ascii("QUEUE_NAME")) == [] ==> c.queueName == Ascii("player-activity")
    ensures var n := Atoi(GetEnv(env, Ascii("CHECK_INTERVAL"), Ascii("30"))).value;
            MinInt64 <= n * Second <= MaxInt64 ==> c.checkInterval == n * Second
    ensures var n := Atoi(GetEnv(env, Ascii("INACTIVITY_TIMEOUT"), Ascii("600"))).value;
            MinInt64 <= n * Second <= MaxInt64 ==> c.inactivityTimeout == n * Second
  {
    ActivityConfig(
      GetEnv(env, Ascii("MINECRAFT_HOST"), Ascii("localhost")),
      Atoi(GetEnv(env, Ascii("MINECRAFT_PORT"), Ascii("25565"))).value,
      LookupEnv(env, Ascii("AZURE_STORAGE_CONNECTION_STRING")),
      GetEnv(env, Ascii("QUEUE_NAME"), Ascii("player-activity")),
      Seconds(Atoi(GetEnv(env, Ascii("CHECK_INTERVAL"), Ascii("30"))).value),
      Seconds(Atoi(GetEnv(env, Ascii("INACTIVITY_TIMEOUT"), Ascii("600"))).value))
  }

  /** Go's `/` on int64: truncates toward zero, `MinInt64 / -1` wraps to MinInt64, and a zero divisor panics (None). */
  function Quotient64(a: int64, b: int64): (q: Option<int64>)
    ensures q.None? <==> b == 0
    ensures a >= 0 && b > 0 ==> q == Some(a / b)
  {
    if b == 0 then None
    else if a == MinInt64 && b == -1 then Some(MinInt64)
    else
      var x: nat := if a < 0 then -(a as int) else a as int;
      var y: nat := if b < 0 then -(b as int) else b as int;
      QuotientBound(x, y);
      var n := x / y;
      Some(if (a < 0) != (b < 0) then -n else n)
  }

  /** Local helper of Quotient64: dividing by a positive natural does not make a natural larger. */
  lemma QuotientBound(x: nat, y: nat)
    requires y >= 1
    ensures x / y <= x
  {
  }

  /** `checksUntilShutdown`, or None when the division panics. */
  function ChecksUntilShutdown(c: ActivityConfig): (n: Option<int64>)
    ensures n.None? <==> c.checkInterval == 0
    ensures c.inactivityTimeout >= 0 && c.checkInterval > 0 ==> n == Some(c.inactivityTimeout / c.checkInterval)
  {
    Quotient64(c.inactivityTimeout, c.checkInterval)
  }

  /** `strconv.Atoi` of the three default numbers. */
  lemma DefaultNumbers()
    ensures Atoi(Ascii("25565")).value == 25565
    ensures Atoi(Ascii("30")).value == 30
    ensures Atoi(Ascii("600")).value == 600
  {
    var port := Ascii("25565");
    assert port == [50, 53, 53, 54, 53];
    assert ScanUint(port, 0) == ScanUint([53, 53, 54, 53], 2);
    assert ScanUint([53, 53, 54, 53], 2) == ScanUint([53, 54, 53], 25);
    assert ScanUint([53, 54, 53], 25) == ScanUint([54, 53], 255);
    assert ScanUint([54, 53], 255) == ScanUint([53], 2556);
    assert ScanUint([53], 2556) == Digits(25565);
    var interval := Ascii("30");
    assert interval == [51, 48];
    assert ScanUint(interval, 0) == ScanUint([48], 3);
    var timeout := Ascii("600");
    assert timeout == [54, 48, 48];
    assert ScanUint(timeout, 0) == ScanUint([48, 48], 6);
    assert ScanUint([48, 48], 6) == ScanUint([48], 60);
  }

  /**
   * With nothing set: port 25565, 30 s checks, a 600 s timeout, host
   * `localhost` and queue `player-activity`.
   */
  lemma ConfigDefaults()
    ensures GetConfig(map[]) ==
            ActivityConfig(Ascii("localhost"), 25565, [], Ascii("player-activity"), 30 * Second, 600 * Second)
  {
    DefaultNumbers();
  }

  /** The default configuration shuts down after 20 checks without an answer. */
  lemma DefaultThreshold()
    ensures ChecksUntilShutdown(GetConfig(map[])) == Some(20)
  {
    ConfigDefaults();
    assert Quotient64(600_000_000_000, 30_000_000_000) == Some(20);
  }

  /** A check interval that is not a number becomes 0, and computing the shutdown threshold then panics. */
  lemma NonNumericIntervalPanics(env: Env)
    requires var s := LookupEnv(env, Ascii("CHECK_INTERVAL"));
             s != [] && |s| < 19 && !IsDigit(s[|s| - 1])
    ensures GetConfig(env).checkInterval == 0
    ensures ChecksUntilShutdown(GetConfig(env)) == None
  {
    var s := LookupEnv(env, Ascii("CHECK_INTERVAL"));
    assert GetEnv(env, Ascii("CHECK_INTERVAL"), Ascii("30")) == s;
    var digits := if s[0] == '-' as int || s[0] == '+' as int then s[1..] else s;
    if digits != [] {
      assert !IsDigit(digits[|digits| - 1]);
    }
    AtoiRejectsNonNumeric(s);
  }

  /** `ActivityMessage`: a timestamp, a player count of 1, and the server's `host:port`. */
  datatype ActivityMessage = ActivityMessage(timestamp: int, playerCount: int64, server: Bytes)

  /** `fmt.Sprintf("%s:%d", host, port)`: the host, a colon, and a port that reads back. */
  function ServerAddr(c: ActivityConfig): (a: Bytes)
    ensures HasPrefix(a, c.minecraftHost + Ascii(":"))
    ensures Atoi(a[|c.minecraftHost| + 1..]) == IntParse(c.minecraftPort, true)
  {
    var a := c.minecraftHost + Ascii(":") + Decimal(c.minecraftPort);
    assert a[|c.minecraftHost| + 1..] == Decimal(c.minecraftPort);
    AtoiDecimal(c.minecraftPort);
    a
  }

  /** What one probe saw: whether the server answered, and the clock then. */
  datatype Observation = Observation(up: bool, now: int)

  /** What a check does with the queue; send and clear errors are only logged. */
  datatype QueueAction =
    | Signal(message: ActivityMessage)  // sendActivitySignal
    | Countdown(remaining: int64)       // remaining > 0: only logged
    | ClearQueue(remaining: int64)      // remaining <= 0: clearQueue

  /** The transition a check logs. */
  datatype Transition = NowResponsive | StoppedResponding | Unchanged

  /** The loop's state: `inactiveChecks` and `lastServerUp`. */
  datatype LoopState = LoopState(inactiveChecks: int64, lastServerUp: bool)

  /** What one check reports. */
  datatype Report = Report(action: QueueAction, transition: Transition)

  /** The state before the first check: Go's zero values. */
  const Initial: LoopState := LoopState(0, false)

  /** The transition logged when the previous check saw `last` and this one `up`. */
  function TransitionOf(last: bool, up: bool): (t: Transition)
    ensures t == NowResponsive <==> !last && up
    ensures t == StoppedResponding <==> last && !up
  {
    if !last && up then NowResponsive
    else if last && !up then StoppedResponding
    else Unchanged
  }

  /** The queue action of a down check that brings the count to `inactive`. */
  function DownAction(checks: int64, inactive: int64): (r: QueueAction)
    ensures !r.Signal?
    ensures r.ClearQueue? <==> Wrap64(checks - inactive) <= 0
    ensures MinInt64 <= checks - inactive <= MaxInt64 ==> r.remaining == checks - inactive
  {
    var remaining := Wrap64(checks - inactive);
    if remaining > 0 then Countdown(remaining) else ClearQueue(remaining)
  }

  /** One iteration of `main`'s loop, on values. */
  function StepState(checks: int64, s: LoopState, o: Observation): (t: LoopState)
    ensures t.lastServerUp == o.up
    ensures o.up ==> t.inactiveChecks == 0
    ensures !o.up && s.inactiveChecks < MaxInt64 ==> t.inactiveChecks == s.inactiveChecks + 1
  {
    LoopState(if o.up then 0 else Wrap64(s.inactiveChecks + 1), o.up)
  }

  /**
   * What one check reports: an up server gets a signal stamped with the probe's clock, a
   * down one the countdown for the incremented count; the transition compares with the
   * previous check.
   */
  function StepReport(c: ActivityConfig, checks: int64, s: LoopState, o: Observation): (r: Report)
    ensures r.action.Signal? <==> o.up
    ensures o.up ==> r.action.message.timestamp == o.now && r.action.message.playerCount == 1
    ensures o.up ==> r.action.message.server == ServerAddr(c)
    ensures !o.up ==> r.action == DownAction(checks, StepState(checks, s, o).inactiveChecks)
    ensures r.transition == NowResponsive <==> !s.lastServerUp && o.up
    ensures r.transition == StoppedResponding <==> s.lastServerUp && !o.up
  {
    Report(
      if o.up then Signal(ActivityMessage(o.now, 1, ServerAddr(c)))
      else DownAction(checks, Wrap64(s.inactiveChecks + 1)),
      TransitionOf(s.lastServerUp, o.up))
  }

  /** The state after the checks `obs`. */
  function Run(checks: int64, s: LoopState, obs: seq<Observation>): (t: LoopState)
    ensures obs == [] ==> t == s
    ensures obs != [] ==> t.lastServerUp == obs[|obs| - 1].up
  {
    if obs == [] then s else StepState(checks, Run(checks, s, obs[..|obs| - 1]), obs[|obs| - 1])
  }

  /** The reports of the checks `obs`, one per check. */
  function Reports(c: ActivityConfig, checks: int64, s: LoopState, obs: seq<Observation>): (r: seq<Report>)
    ensures |r| == |obs|
  {
    if obs == [] then []
    else
      var before := obs[..|obs| - 1];
      Reports(c, checks, s, before) + [StepReport(c, checks, Run(checks, s, before), obs[|obs| - 1])]
  }

  /** The reports of a longer run begin with the reports of its prefix. */
  lemma {:induction false} ReportsPrefix(c: ActivityConfig, checks: int64, s: LoopState, obs: seq<Observation>, n: nat)
    requires n <= |obs|
    ensures Reports(c, checks, s, obs[..n]) == Reports(c, checks, s, obs)[..n]
    decreases |obs|
  {
    if n < |obs| {
      var before := obs[..|obs| - 1];
      assert before[..n] == obs[..n];
      ReportsPrefix(c, checks, s, before, n);
    } else {
      assert obs[..n] == obs;
    }
  }

  /** Check number `j` (from 0) reports on the state after checks `0..j`. */
  lemma ReportAt(c: ActivityConfig, checks: int64, s: LoopState, obs: seq<Observation>, j: nat)
    requires j < |obs|
    ensures Reports(c, checks, s, obs)[j] == StepReport(c, checks, Run(checks, s, obs[..j]), obs[j])
  {
    ReportsPrefix(c, checks, s, obs, j + 1);
    assert obs[..j + 1][..j] == obs[..j];
  }

  /**
   * A run of down checks from a count of `c0`, with `checks` not negative:
   * the count rises by exactly one each time, and the queue is cleared on
   * every check whose new count has reached `checks`, not only the first.
   */
  lemma {:induction false} DownRun(conf: ActivityConfig, checks: int64, s: LoopState, obs: seq<Observation>)
    requires checks >= 0 && s.inactiveChecks >= 0 && s.inactiveChecks + |obs| <= MaxInt64
    requires forall j :: 0 <= j < |obs| ==> !obs[j].up
    ensures Run(checks, s, obs).inactiveChecks == s.inactiveChecks + |obs|
    ensures forall j :: 0 <= j < |obs| ==>
              var count := s.inactiveChecks + j + 1;
              Reports(conf, checks, s, obs)[j].action ==
                if count < checks then Countdown(checks - count) else ClearQueue(checks - count)
    decreases |obs|
  {
    if obs != [] {
      var before := obs[..|obs| - 1];
      DownRun(conf, checks, s, before);
    }
  }

  /** With the default threshold of 20, a fresh monitor clears the queue first on the 20th check in a row that finds the server down. */
  lemma TwentiethDownCheckClears(conf: ActivityConfig, obs: seq<Observation>)
    requires |obs| == 20 && forall j :: 0 <= j < |obs| ==> !obs[j].up
    ensures forall j :: 0 <= j < 19 ==> Reports(conf, 20, Initial, obs)[j].action.Countdown?
    ensures Reports(conf, 20, Initial, obs)[19].action == ClearQueue(0)
  {
    DownRun(conf, 20, Initial, obs);
  }

  /** What the check before check `j` saw; before the first check, Go's zero value `false`. */
  function PreviousProbe(obs: seq<Observation>, j: nat): bool
    requires j <= |obs|
  {
    if j == 0 then false else obs[j - 1].up
  }

  /**
   * Starting from `lastServerUp == false`, each check's transition compares
   * its probe with the previous one, and the state remembers the last probe.
   */
  lemma {:induction false} TransitionsFollowProbes(conf: ActivityConfig, checks: int64, obs: seq<Observation>)
    ensures forall j :: 0 <= j < |obs| ==>
              Reports(conf, checks, Initial, obs)[j].transition == TransitionOf(PreviousProbe(obs, j), obs[j].up)
    ensures Run(checks, Initial, obs).lastServerUp == PreviousProbe(obs, |obs|)
    decreases |obs|
  {
    if obs != [] {
      var before := obs[..|obs| - 1];
      TransitionsFollowProbes(conf, checks, before);
      forall j | 0 <= j < |obs|
        ensures Reports(conf, checks, Initial, obs)[j].transition == TransitionOf(PreviousProbe(obs, j), obs[j].up)
      {
        if j < |before| {
          assert Reports(conf, checks, Initial, obs)[j] == Reports(conf, checks, Initial, before)[j];
          assert PreviousProbe(before, j) == PreviousProbe(obs, j);
        }
      }
    }
  }

  /** The loop of `main` once the queue client exists. */
  class ActivityLoop {
    const config: ActivityConfig
    const checksUntilShutdown: int64
    var inactiveChecks: int64
    var lastServerUp: bool

    /** `main` reaches its loop only when the threshold did not divide by zero. */
    constructor (config: ActivityConfig)
      requires ChecksUntilShutdown(config).Some?
      ensures this.config == config && checksUntilShutdown == ChecksUntilShutdown(config).value
      ensures State() == Initial
    {
      this.config := config;
      checksUntilShutdown := ChecksUntilShutdown(config).value;
      inactiveChecks := 0;
      lastServerUp := false;
    }

    function State(): LoopState
      reads this
    {
      LoopState(inactiveChecks, lastServerUp)
    }

    /** One iteration of the loop. */
    method Step(o: Observation) returns (r: Report)
      modifies this
      ensures State() == StepState(checksUntilShutdown, old(State()), o)
      ensures r == StepReport(config, checksUntilShutdown, old(State()), o)
      ensures o.up ==> inactiveChecks == 0 && r.action == Signal(ActivityMessage(o.now, 1, ServerAddr(config)))
      ensures !o.up ==> inactiveChecks == Wrap64(old(inactiveChecks) + 1) &&
                        (r.action.ClearQueue? <==> Wrap64(checksUntilShutdown - inactiveChecks) <= 0)
    {
      var action;
      if o.up {
        action := Signal(ActivityMessage(o.now, 1, ServerAddr(config)));
        inactiveChecks := 0;
      } else {
        inactiveChecks := Wrap64(inactiveChecks + 1);
        var remaining := Wrap64(checksUntilShutdown - inactiveChecks);
        if remaining > 0 {
          action := Countdown(remaining);
        } else {
          action := ClearQueue(remaining);
        }
      }
      var transition := Unchanged;
      if !lastServerUp && o.up {
        transition := NowResponsive;
      } else if lastServerUp && !o.up {
        transition := StoppedResponding;
      }
      lastServerUp := o.up;
      r := Report(action, transition);
    }

    /** The loop over the checks `obs`. */
    method RunChecks(obs: seq<Observation>) returns (reports: seq<Report>)
      modifies this
      ensures State() == Run(checksUntilShutdown, old(State()), obs)
      ensures reports == Reports(config, checksUntilShutdown, old(State()), obs)
    {
      reports := [];
      var i := 0;
      while i < |obs|
        invariant 0 <= i <= |obs|
        invariant State() == Run(checksUntilShutdown, old(State()), obs[..i])
        invariant reports == Reports(config, checksUntilShutdown, old(State()), obs[..i])
      {
        assert obs[..i + 1][..i] == obs[..i];
        var r := Step(obs[i]);
        reports := reports + [r];
        i := i + 1;
      }
      assert obs[..i] == obs;
    }
  }
}
