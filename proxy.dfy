/**
 * The proxy's connection handling: the first packet decides between
 * answering a server-list ping itself and passing the connection to the
 * backend; a backend that cannot be reached, refuses the first packet or
 * closes at once gets the client a disconnect message instead; and a backend
 * that closes at once is woken through the Azure management API, at most
 * once per five minutes.
 *
 * Sockets are inputs: a `Conn` for the client, and a `Backend` value for what
 * dialling, writing to and peeking at the backend give. The full-duplex copy
 * is reduced to the bytes the client receives from the backend.
 */
module Proxy {
  import opened GoBasics
  import opened GoStrings
  import opened Net
  import opened VarIntCodec
  import opened Framing
  import opened Handshake
  import opened Status
  import opened AzureRetry

  /** The JSON documents the proxy marshals. */
  datatype Json = StatusJson(status: StatusRecord) | TextJson(text: Bytes)

  /** Every document the marshaller produces fits in a string packet. */
  ghost predicate Fits(marshal: Json -> Bytes)
  {
    forall j :: |marshal(j)| <= MaxString
  }

  /** The frame of a reply packet carrying `json`: `varint(len(pkt)) ++ pkt`, `pkt = [0x00] ++ varint(len(json)) ++ json`. */
  function Reply(json: Bytes): Bytes
    requires |json| <= MaxString
  {
    Frame(StringPacket(json))
  }

  /** A reply the client's frame reader accepts gives back the packet, and nothing more is consumed. */
  lemma ReplyReadBack(json: Bytes, rest: Bytes, end: IoError)
    requires |json| <= MaxString && |StringPacket(json)| <= MaxPacketLength
    ensures PacketRead(Reply(json) + rest, end) == (Success(StringPacket(json)), |Reply(json)|)
  {
    FrameReadBack(StringPacket(json), rest, end);
  }

  /**
   * Writing a reply as `handleStatusRequest` and `sendDisconnectJSON` do:
   * the packet is built with `appendVarInt`, its length goes out with
   * `writeVarInt`, then the packet itself.
   */
  method SendReply(conn: Conn, json: Bytes)
    requires |json| <= MaxString
    modifies conn`output
    ensures conn.output == old(conn.output) + Reply(json)
  {
    var pkt: Bytes := [0x00];
    pkt := AppendVarInt(pkt, |json|);
    pkt := pkt + json;
    assert pkt == StringPacket(json);
    WriteVarInt(conn, |pkt|);
    conn.Write(pkt);
  }

  /** `sendDisconnectJSON(conn, message)`. */
  method SendDisconnect(conn: Conn, marshal: Json -> Bytes, message: Bytes)
    requires |marshal(TextJson(message))| <= MaxString
    modifies conn`output
    ensures conn.output == old(conn.output) + Reply(marshal(TextJson(message)))
  {
    var b := marshal(TextJson(message));
    SendReply(conn, b);
  }

  /** What follows the status reply: the ping frame, echoed only when the packet's first byte is 0x01. */
  function PingEcho(ping: Result<Bytes, ReadError>): Bytes
  {
    if ping.Success? && |ping.value| > 0 && ping.value[0] == 0x01 then Frame(ping.value) else []
  }

  /** A ping packet comes back with the same length prefix and the same bytes. */
  lemma PingEchoed(p: Bytes, rest: Bytes, end: IoError)
    requires 1 <= |p| <= MaxPacketLength && p[0] == 0x01
    ensures PingEcho(PacketRead(Frame(p) + rest, end).0) == Frame(p)
  {
    FrameReadBack(p, rest, end);
  }

  /** Any other packet is not answered. */
  lemma OtherPacketNotEchoed(p: Bytes, rest: Bytes, end: IoError)
    requires 1 <= |p| <= MaxPacketLength && p[0] != 0x01
    ensures PingEcho(PacketRead(Frame(p) + rest, end).0) == []
  {
    FrameReadBack(p, rest, end);
  }

  /** What reading from the backend right after connecting gave (`n, err := backendConn.Read(buf)`). */
  datatype Peek =
    | PeekTimeout          // the one-second deadline passed: a quiet backend
    | PeekFailed           // closed or reset
    | PeekData(data: Bytes) // `buf[:n]`, possibly empty

  /** What dialling the backend gave, and, once connected, what the backend does. */
  datatype Backend =
    | DialFailed
    | Connected(firstWriteOk: bool, peek: Peek, stream: Bytes) // `stream`: what it sends after the peek

  /** A peek reads into a 2048-byte buffer. */
  predicate PeekFits(backend: Backend)
  {
    backend.Connected? && backend.peek.PeekData? ==> |backend.peek.data| <= 2048
  }

  const DisconnectKey: Bytes := Ascii("DISCONNECT_MESSAGE")
  const StartingKey: Bytes := Ascii("DISCONNECT_MESSAGE_2")
  const DialFailedDefault: Bytes := Ascii("Uhoh spaghetti")
  const WriteFailedDefault: Bytes := Ascii("Uhoh mama-mia")
  /** `§eGet some water and try reconnecting in a minute while the server starts up!` */
  const StartingDefault: Bytes :=
    [0xC2, 0xA7] + Ascii("eGet some water and try reconnecting in a minute while the server starts up!")

  /** What `proxyToBackend` does with the client. */
  datatype BridgeAction =
    | Close                              // return without a word
    | Disconnect(message: Bytes)         // a disconnect packet
    | DisconnectAndWake(message: Bytes)  // a disconnect packet, then the wake-up call
    | Relay(prefix: Bytes)               // copy the backend to the client, `prefix` first

  /** The decision `proxyToBackend` makes from the backend's behaviour. */
  function BridgeDecision(env: Env, backend: Backend, firstPacket: Bytes, nextState: int): (a: BridgeAction)
    ensures backend.DialFailed? ==>
      (a.Disconnect? <==> nextState == 1 || nextState == 2) &&
      (a.Disconnect? ==> a.message == GetEnv(env, DisconnectKey, DialFailedDefault)) &&
      (!a.Disconnect? ==> a == Close)
    ensures backend.Connected? && |firstPacket| > 0 && !backend.firstWriteOk ==>
      a == Disconnect(GetEnv(env, DisconnectKey, WriteFailedDefault))
    ensures a.DisconnectAndWake? <==>
      backend.Connected? && (|firstPacket| == 0 || backend.firstWriteOk) && backend.peek.PeekFailed?
    ensures a.DisconnectAndWake? ==> a.message == GetEnv(env, StartingKey, StartingDefault)
    ensures a.Relay? <==>
      backend.Connected? && (|firstPacket| == 0 || backend.firstWriteOk) && !backend.peek.PeekFailed?
    ensures a.Relay? ==> a.prefix == if backend.peek.PeekData? then backend.peek.data else []
  {
    match backend
    case DialFailed =>
      if nextState == 2 || nextState == 1 then Disconnect(GetEnv(env, DisconnectKey, DialFailedDefault)) else Close
    case Connected(writeOk, peek, _) =>
      if |firstPacket| > 0 && !writeOk then Disconnect(GetEnv(env, DisconnectKey, WriteFailedDefault))
      else match peek
        case PeekTimeout => Relay([])
        case PeekFailed => DisconnectAndWake(GetEnv(env, StartingKey, StartingDefault))
        case PeekData(data) => Relay(data)
  }

  /** Everything the client receives through `proxyToBackend`. */
  function ClientBound(action: BridgeAction, backend: Backend, marshal: Json -> Bytes): (r: Bytes)
    requires Fits(marshal)
    ensures action.Close? ==> r == []
    ensures action.Disconnect? || action.DisconnectAndWake? ==> r != []
    ensures action.Relay? ==> HasPrefix(r, action.prefix)
  {
    match action
    case Close => []
    case Disconnect(m) => Reply(marshal(TextJson(m)))
    case DisconnectAndWake(m) => Reply(marshal(TextJson(m)))
    case Relay(prefix) => prefix + (if backend.Connected? then backend.stream else [])
  }

  /** What the proxy itself writes to the backend before copying: the first packet's frame. */
  function Forwarded(backend: Backend, firstPacket: Bytes): (r: Bytes)
    ensures HasPrefix(Frame(firstPacket), r)
    ensures r == Frame(firstPacket) <==> backend.Connected? && backend.firstWriteOk && firstPacket != []
    ensures backend.DialFailed? ==> r == []
  {
    if backend.DialFailed? || |firstPacket| == 0 then []
    else if backend.firstWriteOk then Frame(firstPacket)
    else VarInt(|firstPacket|)
  }

  /** What getting an Azure token gave. */
  datatype Auth = CredentialFailed | TokenFailed | Authorized

  /** The outside world as the wake-up call meets it: the clock, the token, and each attempt's outcome. */
  datatype Cloud = Cloud(now: int, auth: Auth, respond: nat -> HttpOutcome)

  /** How `startAzureContainerApp` ended. */
  datatype WakeResult =
    | InCooldown
    | ConfigMissing
    | NoCredential
    | NoToken
    | Tried(end: RetryEnd)

  const StartCooldown: int := 5 * Minute
  const SubscriptionKey: Bytes := Ascii("AZURE_SUBSCRIPTION_ID")
  const ResourceGroupKey: Bytes := Ascii("AZURE_RESOURCE_GROUP")
  const AppNameKey: Bytes := Ascii("AZURE_CONTAINER_APP_NAME")

  predicate AzureConfigured(env: Env)
  {
    LookupEnv(env, SubscriptionKey) != [] && LookupEnv(env, ResourceGroupKey) != [] &&
    LookupEnv(env, AppNameKey) != []
  }

  /** `startAzureContainerApp` on the previous start time `last`. */
  function Wake(last: Option<int>, env: Env, cloud: Cloud): (r: WakeResult)
    ensures r.Tried? <==> !CoolingDown(last, cloud.now, StartCooldown) && AzureConfigured(env) && cloud.auth == Authorized
    ensures CoolingDown(last, cloud.now, StartCooldown) ==> r == InCooldown
    ensures r.Tried? ==> r.end == RetryFrom(cloud.respond, true, 0)
  {
    if CoolingDown(last, cloud.now, StartCooldown) then InCooldown
    else if !AzureConfigured(env) then ConfigMissing
    else match cloud.auth
      case CredentialFailed => NoCredential
      case TokenFailed => NoToken
      case Authorized => Tried(RetryFrom(cloud.respond, true, 0))
  }

  /** `lastStartTime` after a wake-up call that ended in `r`. */
  function StartTimeAfter(last: Option<int>, r: WakeResult): Option<int>
  {
    if r.Tried? && r.end.Succeeded? then Some(r.end.at) else last
  }

  /**
   * `lastStartTime` changes only when a start request is accepted: outside
   * the cooldown, with the Azure ids set and a token, and then it becomes the
   * time of the first accepted response, all earlier attempts having been
   * retried.
   */
  lemma StartTimeChangesOnlyOnSuccess(last: Option<int>, env: Env, cloud: Cloud)
    requires StartTimeAfter(last, Wake(last, env, cloud)) != last
    ensures !CoolingDown(last, cloud.now, StartCooldown) && AzureConfigured(env) && cloud.auth == Authorized
    ensures var k := Wake(last, env, cloud).end.attempt;
            k < MaxAttempts && (forall j :: 0 <= j < k ==> Retries(cloud.respond(j), true)) &&
            cloud.respond(k).Response? && Accepted(cloud.respond(k).status) &&
            StartTimeAfter(last, Wake(last, env, cloud)) == Some(cloud.respond(k).at)
  {
    RetryFromEnds(cloud.respond, true, 0);
  }

  /** A second wake-up within five minutes of a successful one sends nothing. */
  lemma WakeDebounced(last: Option<int>, env: Env, cloud: Cloud, later: Cloud)
    requires Wake(last, env, cloud).Tried? && Wake(last, env, cloud).end.Succeeded?
    requires later.now - Wake(last, env, cloud).end.at < StartCooldown
    ensures Wake(StartTimeAfter(last, Wake(last, env, cloud)), env, later) == InCooldown
  {
  }

  /** With the ids set and a token, a start request that keeps failing is sent three times, after sleeps of 1 s and 2 s. */
  lemma WakeGivesUpAfterThree(last: Option<int>, env: Env, cloud: Cloud)
    requires !CoolingDown(last, cloud.now, StartCooldown) && AzureConfigured(env) && cloud.auth == Authorized
    requires forall j :: 0 <= j < MaxAttempts ==> Retries(cloud.respond(j), true)
    ensures Wake(last, env, cloud) == Tried(GaveUp)
    ensures SleepsBefore(Attempts(GaveUp)) == [Second, 2 * Second]
  {
    FirstDecisiveAttempt(cloud.respond, true, 0, MaxAttempts);
    AllAttemptsSleep();
  }

  /** The end of `handleStatusRequest`: read one more frame and echo it if it is a ping. */
  method EchoPing(client: Conn)
    modifies client`input, client`output
    ensures var (ping, used) := PacketRead(old(client.input), client.endError);
            client.output == old(client.output) + PingEcho(ping) && client.input == old(client.input)[used..]
  {
    var ping := ReadPacket(client);
    if ping.Failure? {
      return;
    }
    if |ping.value| > 0 && ping.value[0] == 0x01 {
      WriteVarInt(client, |ping.value|);
      client.Write(ping.value);
    }
  }

  const MotdKey: Bytes := Ascii("MOTD")
  /** `§aMinecraft Server via Proxy` */
  const DefaultMotd: Bytes := [0xC2, 0xA7] + Ascii("aMinecraft Server via Proxy")

  /** The proxy process: its configuration and the `lastStartTime` global. */
  class Proxy {
    const env: Env
    const motd: Bytes
    /** The `faviconData` global. */
    const favicon: Bytes
    const marshal: Json -> Bytes
    var lastStartTime: Option<int>

    /** The configuration `main` reads; `readBase64` reads FAVICON_PATH. */
    constructor (env: Env, readBase64: Bytes -> Option<Bytes>, marshal: Json -> Bytes)
      ensures this.env == env && this.marshal == marshal
      ensures motd == GetEnv(env, MotdKey, DefaultMotd)
      ensures favicon == StartupFavicon(env, readBase64)
      ensures lastStartTime == None
    {
      this.env := env;
      this.marshal := marshal;
      motd := GetEnv(env, MotdKey, DefaultMotd);
      favicon := StartupFavicon(env, readBase64);
      lastStartTime := None;
    }

    /** `startAzureContainerApp()`; `slept` records the backoff sleeps it makes. */
    method StartContainerApp(cloud: Cloud) returns (r: WakeResult, slept: seq<int>)
      modifies this`lastStartTime
      ensures r == Wake(old(lastStartTime), env, cloud)
      ensures lastStartTime == StartTimeAfter(old(lastStartTime), r)
      ensures slept == if r.Tried? then SleepsBefore(Attempts(r.end)) else []
    {
      slept := [];
      if CoolingDown(lastStartTime, cloud.now, StartCooldown) {
        return InCooldown, slept;
      }
      var subscription := GetEnv(env, SubscriptionKey, []);
      var group := GetEnv(env, ResourceGroupKey, []);
      var app := GetEnv(env, AppNameKey, []);
      if subscription == [] || group == [] || app == [] {
        return ConfigMissing, slept;
      }
      if cloud.auth == CredentialFailed {
        return NoCredential, slept;
      }
      if cloud.auth == TokenFailed {
        return NoToken, slept;
      }
      var attempt := 0;
      while attempt < MaxAttempts
        invariant 0 <= attempt <= MaxAttempts
        invariant RetryFrom(cloud.respond, true, attempt) == RetryFrom(cloud.respond, true, 0)
        invariant slept == SleepsBefore(attempt)
        invariant lastStartTime == old(lastStartTime)
        decreases MaxAttempts - attempt
      {
        if attempt > 0 {
          slept := slept + [Backoff(attempt)];
        }
        assert slept == SleepsBefore(attempt + 1);
        var outcome := cloud.respond(attempt);
        if outcome.Response? && Accepted(outcome.status) {
          lastStartTime := Some(outcome.at);
          return Tried(Succeeded(attempt, outcome.at)), slept;
        }
        if outcome.Response? && ClientRejected(outcome.status) {
          return Tried(ClientError(attempt, outcome.status)), slept;
        }
        attempt := attempt + 1;
      }
      return Tried(GaveUp), slept;
    }

    /** `handleStatusRequest(clientConn, motd, protocol)`; `sent` is the record the reply carries. */
    method HandleStatusRequest(client: Conn, protocol: int32, draw: nat -> nat) returns (sent: StatusRecord)
      requires Fits(marshal)
      modifies client`input, client`output
      ensures sent == BuildStatus(motd, env, sent.sample, favicon, protocol)
      ensures SampleFits(LookupEnv(env, PlayerSampleKey), sent.sample)
      ensures var (_, used) := PacketRead(old(client.input), client.endError);
              var (ping, pingUsed) := PacketRead(old(client.input)[used..], client.endError);
              client.output == old(client.output) + Reply(marshal(StatusJson(sent))) + PingEcho(ping) &&
              client.input == old(client.input)[used..][pingUsed..]
    {
      var request := ReadPacket(client);
      var sample := PlayerSample(env, draw);
      sent := BuildStatus(motd, env, sample, favicon, protocol);
      var statusBytes := marshal(StatusJson(sent));
      SendReply(client, statusBytes);
      EchoPing(client);
    }

    /** `proxyToBackend(clientConn, backendAddr, firstPacket, nextState, protocol)`; `toBackend` is what it forwards itself. */
    method ProxyToBackend(client: Conn, backend: Backend, firstPacket: Bytes, nextState: int, cloud: Cloud)
        returns (toBackend: Bytes)
      requires Fits(marshal) && PeekFits(backend) && |firstPacket| <= MaxPacketLength
      modifies client`output, this`lastStartTime
      ensures var action := BridgeDecision(env, backend, firstPacket, nextState);
              client.output == old(client.output) + ClientBound(action, backend, marshal) &&
              lastStartTime == if action.DisconnectAndWake? then StartTimeAfter(old(lastStartTime), Wake(old(lastStartTime), env, cloud))
                               else old(lastStartTime)
      ensures toBackend == Forwarded(backend, firstPacket)
    {
      toBackend := [];
      if backend.DialFailed? {
        if nextState == 2 || nextState == 1 {
          SendDisconnect(client, marshal, GetEnv(env, DisconnectKey, DialFailedDefault));
        }
        return;
      }
      if |firstPacket| > 0 {
        toBackend := VarInt(|firstPacket|);
        if !backend.firstWriteOk {
          SendDisconnect(client, marshal, GetEnv(env, DisconnectKey, WriteFailedDefault));
          return;
        }
        toBackend := toBackend + firstPacket;
      }
      var n := 0;
      match backend.peek {
        case PeekTimeout =>
        case PeekFailed =>
          SendDisconnect(client, marshal, GetEnv(env, StartingKey, StartingDefault));
          var _, _ := StartContainerApp(cloud);
          return;
        case PeekData(data) =>
          n := |data|;
      }
      if n > 0 {
        client.Write(backend.peek.data + backend.stream);
        return;
      }
      client.Write(backend.stream);
    }

    /**
     * `handleConnection` from the first read on; `route` is where the first
     * packet went, and `sent` the status record when it went to the status
     * reply.
     */
    method HandleConnection(client: Conn, backend: Backend, cloud: Cloud, draw: nat -> nat)
        returns (route: Option<Route>, sent: Option<StatusRecord>)
      requires Fits(marshal) && PeekFits(backend)
      modifies client`input, client`output, this`lastStartTime
      ensures var (first, used) := PacketRead(old(client.input), client.endError);
              (first.Failure? ==> route == None && sent == None && client.output == old(client.output) &&
                                  client.input == old(client.input)[used..] && lastStartTime == old(lastStartTime)) &&
              (first.Success? ==> route == Some(Classify(first.value)))
      ensures var (_, used) := PacketRead(old(client.input), client.endError);
              var rest := old(client.input)[used..];
              var (_, requestUsed) := PacketRead(rest, client.endError);
              var (ping, pingUsed) := PacketRead(rest[requestUsed..], client.endError);
              route.Some? && route.value.ToStatus? ==>
                sent.Some? &&
                sent.value == BuildStatus(motd, env, sent.value.sample, favicon, route.value.protocol) &&
                SampleFits(LookupEnv(env, PlayerSampleKey), sent.value.sample) &&
                client.output == old(client.output) + Reply(marshal(StatusJson(sent.value))) + PingEcho(ping) &&
                client.input == rest[requestUsed..][pingUsed..] &&
                lastStartTime == old(lastStartTime)
      ensures var (first, used) := PacketRead(old(client.input), client.endError);
              route.Some? && route.value.ToBackend? ==>
                var action := BridgeDecision(env, backend, first.value, route.value.nextState);
                sent == None &&
                client.output == old(client.output) + ClientBound(action, backend, marshal) &&
                client.input == old(client.input)[used..] &&
                lastStartTime == if action.DisconnectAndWake? then StartTimeAfter(old(lastStartTime), Wake(old(lastStartTime), env, cloud))
                                 else old(lastStartTime)
    {
      sent := None;
      var packet := ReadPacket(client);
      if packet.Failure? {
        return None, None;
      }
      var r := Classify(packet.value);
      route := Some(r);
      match r {
        case ToStatus(protocol) =>
          var record := HandleStatusRequest(client, protocol, draw);
          sent := Some(record);
        case ToBackend(nextState, _) =>
          var _ := ProxyToBackend(client, backend, packet.value, nextState, cloud);
      }
    }
  }
}
