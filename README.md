# Minecraft scale-to-zero proxy and player monitors, modelled in Dafny

The system puts a Minecraft Java Edition server behind a small TCP proxy and
scales it to zero when nobody plays:

- The **proxy** (`images/mc/proxy/main.go`) reads the client's first frame.
  - A status handshake (next state 1) gets a status reply built by the proxy: MOTD, player counts, an optional shuffled player sample, the favicon and `proxy-<protocol>` as the version. The proxy then echoes the ping.
  - Anything else is bridged to the backend server. When the backend is down, the client gets a friendly Disconnect packet. When the backend accepts the connection and then drops it, the proxy also asks the Azure management API to start the container app. That call is rate-limited by a five-minute cooldown and makes at most three attempts with backoff.
- The **RCON player monitor** (`images/mc/player-monitor/main.go`) asks the server for `list` on every check, remembers when a player was last seen, and stops the server once it has been empty for the inactivity timeout. It stops it by RCON `stop`, by an Azure stop request (two-minute cooldown, three attempts) or not at all.
- The **stack's activity monitor** (`stacks/mc/player-monitor/main.go`) probes the game port. While the server answers it posts activity messages to a storage queue. It counts the checks that fail, and it clears the queue on every failed check once the count reaches `inactivityTimeout / checkInterval`.

The model has these modules:

- `GoBasics` (basics.dfy): Go's bytes, 32- and 64-bit integers with their wrap-around, durations, Go's zero time as `None`, and `os.Getenv`.
- `GoStrings` (strings.dfy): `strings.Split`, `strings.TrimSpace` with Go's Unicode white space (ASCII, U+0085, U+00A0, U+1680, U+2000 to U+200A, U+2028, U+2029, U+202F, U+205F and U+3000, matched as their UTF-8 bytes), `%d`, and `strconv.Atoi` with its syntax and range errors.
- `Net` (net.dfy): a connection as a class with the unread input, the error a read meets at its end, and everything written so far.
- `VarIntCodec` (varint.dfy): the VarInt encoders and both decoders.
- `Framing` (framing.dfy): frames and `readPacket`.
- `Handshake` (handshake.dfy): `parseHandshake` and the first-packet classification.
- `Status` (status.dfy): the status record, the player-sample pipeline and the favicon.
- `AzureRetry` (retry.dfy): the cooldown and retry policy that both Azure callers share.
- `Proxy` (proxy.dfy): the disconnect packet, the ping echo, the bridge decision, the wake-up call, and the proxy's handlers as methods of a `Proxy` class that holds `lastStartTime`.
- `PlayerMonitor` (monitor.dfy): the RCON monitor as a `Monitor` class with `lastPlayerTime` and `lastStopTime`.
- `ActivityMonitor` (activity.dfy): the activity loop as an `ActivityLoop` class with `inactiveChecks` and `lastServerUp`, plus its run over a sequence of probes.

Inputs from the outside world enter the model as follows:

- Network reads are the bytes a connection still holds.
- Backend dial, write and peek results are the `Backend` and `Peek` variants.
- HTTP attempts are a function from attempt number to `HttpOutcome`.
- RCON sessions are the `ListSession` and `StopSession` variants.
- Clocks are integers in nanoseconds.
- `json.Marshal` is an abstract function to bytes.
- `math/rand` is a function `draw` that picks each Fisher–Yates swap partner.
- `time.ParseDuration` and the favicon file's base64 read are function parameters.

## Model

| member | source | states |
|---|---|---|
| `GoBasics.GetEnv` | images/mc/proxy/main.go:575-580 | the variable's value when it is set and not empty, otherwise the default |
| `Net.Conn.ReadByte` | images/mc/proxy/main.go:164-168 | a one-byte read returns and consumes the next input byte, or the end-of-input error without consuming anything |
| `Net.Conn.ReadFull` | images/mc/proxy/main.go:145-150 | `io.ReadFull` returns exactly the next n bytes, or consumes everything and reports EOF after 0 bytes and ErrUnexpectedEOF after some |
| `Net.Conn.Write` | images/mc/proxy/main.go:355 | the output grows by exactly the written bytes |
| `VarIntCodec.AppendVarInt` | images/mc/proxy/main.go:388-401 | the result is the input followed by the VarInt encoding of the value (for value ≥ 0) |
| `VarIntCodec.WriteVarInt` | images/mc/proxy/main.go:374-386 | the bytes written are exactly the encoding that `appendVarInt` appends |
| `VarIntCodec.VarIntShape` | images/mc/proxy/main.go:388-401 | the encoding has bit 0x80 on every byte but the last, its 7-bit groups add up to the value, and it has no superfluous group |
| `VarIntCodec.VarIntShortest` | images/mc/proxy/main.go:388-401 | no byte string with the same group value is shorter than the encoding |
| `VarIntCodec.VarIntAtMostFive` | images/mc/proxy/main.go:388-401 | a non-negative int32 takes at most 5 bytes, and exactly 5 from 2^28 on |
| `VarIntCodec.EncoderNeverStopsOnNegative` | images/mc/proxy/main.go:389-399 | with the arithmetic `>>= 7`, a negative value stays negative after every round, so the loop never reaches `value == 0` |
| `VarIntCodec.ReadVarIntFromBytes` | images/mc/proxy/main.go:218-238 | the buffer decoder's loop computes the scan-based specification `VarIntFromBytes` |
| `VarIntCodec.VarIntFromBytes` | images/mc/proxy/main.go:218-238 | `readVarIntFromBytes` panics on an index exactly when the offset is negative; a decoded value consumed 1 to 6 bytes, all inside the buffer |
| `VarIntCodec.DecodeLoop` | images/mc/proxy/main.go:218-238 | the loop indexes out of range exactly when the offset is negative; a decoded value consumed more bytes than the rounds already done, at most six, all inside the buffer |
| `VarIntCodec.VarIntFromBytesCases` | images/mc/proxy/main.go:218-238 | a decoded value is the groups up to the first byte without 0x80, read as int32, and consumed is their count; "unexpected end of buffer" means the offset is at or past the end or fewer than six bytes follow, all with 0x80; "too big" means six bytes with 0x80 |
| `VarIntCodec.BufferRoundTrip` | images/mc/proxy/main.go:218-238 | `readVarIntFromBytes` of an encoding placed at any offset gives back the value and the encoding's length |
| `VarIntCodec.DecodesAt` | images/mc/proxy/main.go:218-238 | the encoding of any 32-bit pattern decodes to that pattern read as int32 |
| `VarIntCodec.BufferAcceptsSixBytes` | images/mc/proxy/main.go:155-180 | five continuation bytes and a sixth without the bit are accepted by the buffer decoder (the sixth group adds nothing) and rejected as too big by the stream decoder |
| `VarIntCodec.SixByteZero` | images/mc/proxy/main.go:218-238 | `80 80 80 80 80 00` decodes to (0, 6) from a buffer and fails "VarInt too big" after 5 bytes on a stream |
| `VarIntCodec.StreamVarInt` | images/mc/proxy/main.go:155-180 | the stream decoder consumes at most 5 bytes and never more than the input holds; a value takes at least one byte, and "too big" comes after exactly 5 |
| `VarIntCodec.ReadVarInt` | images/mc/proxy/main.go:155-180 | the stream decoder reads at most 5 bytes, returns the result of the stream specification and consumes exactly the bytes it read |
| `VarIntCodec.StreamRoundTrip` | images/mc/proxy/main.go:155-180 | `readVarInt` decodes what `writeVarInt` wrote and consumes exactly those bytes |
| `VarIntCodec.StreamDecodes` | images/mc/proxy/main.go:155-180 | bits above 32 are dropped: the stream decoder reads any 32-bit pattern back as int32 |
| `Framing.PacketRead` | images/mc/proxy/main.go:134-153 | a returned packet is 1 to 2097151 bytes, the last bytes consumed; an invalid length is the decoded prefix, ≤ 0 or > 2097151, and nothing after the prefix is consumed |
| `Framing.ReadPacket` | images/mc/proxy/main.go:134-153 | `readPacket` returns what `PacketRead` specifies and consumes exactly what it names |
| `Framing.FrameReadBack` | images/mc/proxy/main.go:134-153 | a framed packet of 1 to 2097151 bytes is read back whole, whatever follows it |
| `Framing.LengthOutOfRangeRejected` | images/mc/proxy/main.go:141-143 | a length prefix ≤ 0 or > 2097151 is rejected before any body byte is read |
| `Framing.EdgeLengthsRejected` | images/mc/proxy/main.go:141-143 | the lengths 0 and 2097152 are rejected |
| `Framing.ShortBodyFails` | images/mc/proxy/main.go:145-150 | a body shorter than its length fails with the read error and consumes the whole input |
| `Framing.StringPacket` | images/mc/proxy/main.go:349-352 | for a string of at most 2^31 − 7 bytes the packet stays below 2^31 bytes, so `int32(len(packet))` does not wrap |
| `Framing.StringPacketReadBack` | images/mc/proxy/main.go:349-355 | when it fits the size cap, the framed string packet is read back whole |
| `Handshake.ParseHandshake` | images/mc/proxy/main.go:183-215 | the corrected parser of the Findings row, which rejects a negative address length instead of indexing before the buffer; otherwise it fails "not a handshake" exactly on an empty packet or a first byte other than 0x00; on success the protocol is the VarInt at offset 1 |
| `Handshake.ParsedFrom` | images/mc/proxy/main.go:187-214 | with the protocol at 1 (n bytes), the address length at 1+n (m bytes) and the next state at 1+n+m+len+2, the result is (next state, protocol) |
| `Handshake.ParseEncodedHandshake` | images/mc/proxy/main.go:183-215 | a handshake with any address and port, followed by any trailing bytes, parses to its next state and protocol |
| `Handshake.ParsedAt` | images/mc/proxy/main.go:187-214 | the same result stated on the byte layout of the handshake |
| `Handshake.LocalhostStatusHandshake` | images/mc/proxy/main.go:183-215 | `[0x00][754][9]"localhost"[port][1]` parses to (1, 754) |
| `Handshake.ParseHandshakeCorrectsPanic` | images/mc/proxy/main.go:197-209 | the corrected parser agrees with the code whenever the code returns, and reports a negative offset exactly where the code panics |
| `Handshake.ParseHandshakeAsWritten` | images/mc/proxy/main.go:183-215 | the parser as written panics exactly when the id is 0x00, the protocol and address-length VarInts decode, and the next-state offset they give is negative; in every other case it returns what `Handshake.ParseHandshake` returns |
| `Handshake.NegativeAddressLengthPanics` | images/mc/proxy/main.go:197-209 | on `00 01 9C FF FF FF 0F` the address length is -100, the next-state offset is -91, and the code indexes out of range |
| `Handshake.Classify` | images/mc/proxy/main.go:114-131 | status iff the packet parses with next state 1 under the corrected parser, carrying its protocol; otherwise the backend, with the parsed next state and protocol, or (0, 0) when parsing failed |
| `Handshake.LoginGoesToBackend` | images/mc/proxy/main.go:114-131 | a login handshake (next state 2) is bridged with next state 2 and its protocol |
| `Status.PlayerCount` | images/mc/proxy/main.go:270-286 | a value Atoi accepts (`+7` and `007` included) is the count; a value Atoi rejects, or none, leaves 0; a count other than 0 is always a value Atoi parsed without error |
| `Status.PlayerCountOverride` | images/mc/proxy/main.go:273-286 | a variable holding the decimal form of n sets the count to n |
| `Status.PlayerCountDefault` | images/mc/proxy/main.go:273-286 | an unset variable, or one of fewer than 19 bytes that is not an optional sign and digits, leaves the count at 0 (a longer digit run can instead be a range error, which `Status.PlayerCount` covers) |
| `Status.SampleParts` | images/mc/proxy/main.go:291-297 | at least one part, and none contains the separator: the pipe character when the string has one, else a comma |
| `Status.SamplePartsJoin` | images/mc/proxy/main.go:291-297 | joining the parts with the separator gives back the string |
| `GoStrings.TrimSpaceShape` | images/mc/proxy/main.go:302 | `strings.TrimSpace` gives a slice of its input that neither starts nor ends with a white-space character (ASCII or Unicode), with only white-space characters before and after it |
| `GoStrings.TrimSpaceEmpty` | images/mc/proxy/main.go:302-305 | a piece trims to the empty string exactly when it is a run of white-space characters |
| `Status.CleanEntryShape` | images/mc/proxy/main.go:301-310 | an entry is empty exactly when the part is all white space, ASCII or Unicode; otherwise it does not start with a white-space character; it is a prefix of the trimmed part, at most 32 bytes, and the whole trimmed part when that fits |
| `Status.CleanedShape` | images/mc/proxy/main.go:299-310 | there are no more entries than parts, and every entry is 1 to 32 bytes long and does not start with a white-space character, ASCII or Unicode |
| `Status.EntriesFromParts` | images/mc/proxy/main.go:299-310 | every entry is the cleaned form of some non-blank part |
| `Status.CleanedAppend` | images/mc/proxy/main.go:299-310 | cleaning distributes over concatenation, so order is kept |
| `Status.PartGivesEntry` | images/mc/proxy/main.go:299-310 | every non-blank part gives an entry, at the position counted by the entries of the parts before it |
| `Status.UnicodeSpaceTrimmed` | images/mc/proxy/main.go:301-302 | a name between a no-break space (U+00A0) and an ideographic space (U+3000) is trimmed to the name |
| `Status.NoBreakSpaceSkipped` | images/mc/proxy/main.go:287-310 | `PLAYER_SAMPLE` set to a lone no-break space leaves no entry, so no sample is sent |
| `Status.CleanEntries` | images/mc/proxy/main.go:299-310 | the loop's entries are exactly the cleaned parts, in order |
| `Status.Shuffle` | images/mc/proxy/main.go:313-315 | the shuffled array is a permutation of the entries |
| `Status.TakeSamples` | images/mc/proxy/main.go:317-333 | min(5, n) samples: the first entries of the shuffled array, each with the dummy id |
| `Status.NoEntriesWhenUnset` | images/mc/proxy/main.go:289-290 | an unset `PLAYER_SAMPLE` gives no entries |
| `Status.SampleEntries` | images/mc/proxy/main.go:312-334 | min(5, n) samples with the dummy id, whose names are a sub-multiset of the entries (distinct positions of a permutation, no dedup) |
| `Status.PlayerSample` | images/mc/proxy/main.go:287-335 | no sample when no entry remains; otherwise min(5, n) entries with the dummy id drawn from a permutation of the cleaned entries |
| `Status.VersionName` | images/mc/proxy/main.go:337 | the version name starts with `proxy-`, and the rest parses back to the protocol |
| `Status.FaviconData` | images/mc/proxy/main.go:40-46 | empty exactly when the input is; otherwise starts with `data:`, and ends with the input (`data:image/png;base64,` is prepended unless the input already starts with `data:`) |
| `Status.FaviconDataIdempotent` | images/mc/proxy/main.go:40-46 | prefixing twice is prefixing once |
| `Status.StartupFavicon` | images/mc/proxy/main.go:40-53 | `FAVICON_BASE64` wins when set; any favicon starts with `data:` |
| `Status.BuildStatus` | images/mc/proxy/main.go:249-341 | the record carries the MOTD, the sample drawn and the protocol; each count is the value Atoi accepts, or 0; the favicon is omitted exactly when it is empty; the version name reads back the protocol |
| `Proxy.ReplyReadBack` | images/mc/proxy/main.go:349-355 | the reply on the wire is `varint(len(pkt)) ++ pkt`, which `readPacket` reads back as `pkt` |
| `Proxy.SendReply` | images/mc/proxy/main.go:349-355 | the client receives exactly the framed string packet |
| `Proxy.SendDisconnect` | images/mc/proxy/main.go:556-573 | the client receives exactly the framed Disconnect packet of the `{"text": message}` JSON |
| `Proxy.PingEchoed` | images/mc/proxy/main.go:362-371 | a frame whose first byte is 0x01 is echoed with the same prefix and bytes |
| `Proxy.OtherPacketNotEchoed` | images/mc/proxy/main.go:362-371 | any other frame sends nothing |
| `Proxy.EchoPing` | images/mc/proxy/main.go:357-371 | reads one frame and sends its echo, or nothing on an error or a non-ping |
| `Proxy.BridgeDecision` | images/mc/proxy/main.go:403-465 | a dial failure disconnects iff next state is 1 or 2; a failed first write always disconnects; after the peek, a timeout relays, another error disconnects with `DISCONNECT_MESSAGE_2` and wakes, and data is relayed first |
| `Proxy.ClientBound` | images/mc/proxy/main.go:403-465 | the client gets nothing on a silent close, a non-empty reply on a disconnect, and a stream that begins with the peeked bytes on a relay |
| `Proxy.Forwarded` | images/mc/proxy/main.go:420-429 | the proxy sends the backend a prefix of the first packet's frame: all of it exactly when the dial and the write succeeded and the packet is not empty, nothing when the dial failed |
| `Proxy.Wake` | images/mc/proxy/main.go:467-553 | a start request is tried exactly outside the cooldown, with all three ids set and a token; within the cooldown nothing is done |
| `Proxy.StartTimeChangesOnlyOnSuccess` | images/mc/proxy/main.go:467-553 | `lastStartTime` changes only outside the cooldown, with the ids set and a token, to the time of the first accepted response, all earlier attempts having been retried |
| `Proxy.WakeDebounced` | images/mc/proxy/main.go:467-473 | within five minutes of a successful start nothing is sent |
| `Proxy.WakeGivesUpAfterThree` | images/mc/proxy/main.go:505-552 | outcomes that are all retried give up after three attempts, with sleeps of 1 s and 2 s |
| `Proxy.Proxy.constructor` | images/mc/proxy/main.go:34-53 | the MOTD and favicon come from the environment, with their defaults, and `lastStartTime` starts at the zero time |
| `Proxy.Proxy.StartContainerApp` | images/mc/proxy/main.go:467-553 | the method's result, new `lastStartTime` and sleeps are those of the wake-up specification |
| `Proxy.Proxy.HandleStatusRequest` | images/mc/proxy/main.go:240-372 | consumes the status request frame, sends the framed status record built from MOTD, counts, sample, favicon and protocol, then echoes a ping |
| `Proxy.Proxy.ProxyToBackend` | images/mc/proxy/main.go:403-465 | the client receives the decision's disconnect packet, or the peeked bytes followed by the backend stream; `lastStartTime` moves only through the wake-up; the backend gets the first packet's frame |
| `Proxy.Proxy.HandleConnection` | images/mc/proxy/main.go:84-132 | a failed first read closes silently; otherwise the route is the classification. A status route sends exactly the framed status record, with a fitting sample and then the ping echo, consumes the request and the ping, and keeps `lastStartTime`. A backend route sends what the bridge decides, consumes only the first frame, and moves `lastStartTime` only through the wake-up |
| `AzureRetry.SleepsBefore` | images/mc/proxy/main.go:505-510 | one sleep before each attempt but the first, of `1<<(attempt-1)` seconds |
| `AzureRetry.AllAttemptsSleep` | images/mc/proxy/main.go:505-510 | three attempts sleep 1 s and then 2 s |
| `AzureRetry.RetryFrom` | images/mc/proxy/main.go:505-550 | the loop ends at an attempt below three, or gives up |
| `AzureRetry.RetryFromEnds` | images/mc/proxy/main.go:505-550 | every attempt before the last was retried; a success is a 2xx or 409, a client error a 4xx other than 409, and a build error ends the loop only where it is not retried |
| `AzureRetry.FirstDecisiveAttempt` | images/mc/proxy/main.go:505-550 | conversely, the first outcome that is not retried ends the loop, and three retried outcomes give up |
| `PlayerMonitor.FirstMatch` | images/mc/player-monitor/main.go:84-102 | the leftmost position where `There are (\d+) of` matches, or none anywhere |
| `PlayerMonitor.ListReplyCount` | images/mc/player-monitor/main.go:84-102 | `There are <n> of ...` gives the count n |
| `PlayerMonitor.NoListPrefixNoPlayers` | images/mc/player-monitor/main.go:98-102 | a reply without `There are ` counts 0 players |
| `PlayerMonitor.PlayerCountOf` | images/mc/player-monitor/main.go:98-102 | the count is never negative |
| `PlayerMonitor.StopMethodOf` | images/mc/player-monitor/main.go:121-134 | `azure` exactly selects the Azure stop, `noop` exactly selects nothing, and everything else, `rcon` included, selects RCON |
| `PlayerMonitor.StopAzure` | images/mc/player-monitor/main.go:158-220 | a request is made iff there is no cooldown, all four settings are present and a token was issued; a cooldown sends nothing |
| `PlayerMonitor.StopAzureErrors` | images/mc/player-monitor/main.go:158-220 | nil exactly on a cooldown or an accepted request; a request-build error returns at once, after network errors and retryable statuses only |
| `PlayerMonitor.StopTimeChangesOnlyOnSuccess` | images/mc/player-monitor/main.go:192-220 | `lastStopTime` changes only on an accepted response, to its time |
| `PlayerMonitor.Duration` | images/mc/player-monitor/main.go:230-237 | the parsed duration, or 30 s when parsing fails |
| `PlayerMonitor.LoadConfig` | images/mc/player-monitor/main.go:47-59 | the password is the variable as set; `STOP_METHOD` unset means the RCON stop, and `AZURE_SUBSCRIPTION_ID` unset means an Azure stop cannot be made; an unparseable duration becomes 30 s |
| `PlayerMonitor.StartupCheck` | images/mc/player-monitor/main.go:61-67 | start iff the password is set and the interval is below the timeout; an empty password is reported first |
| `PlayerMonitor.DefaultsStart` | images/mc/player-monitor/main.go:47-67 | with only a password set: 127.0.0.1:25575, 30 s against 5 min, RCON stop, and the monitor starts |
| `PlayerMonitor.BadDurationsRefuseStart` | images/mc/player-monitor/main.go:50-67 | two unparseable durations both become 30 s and startup is refused |
| `PlayerMonitor.Monitor.constructor` | images/mc/player-monitor/main.go:47-59 | `lastPlayerTime` starts at the start time and `lastStopTime` at the zero time |
| `PlayerMonitor.Monitor.StopContainerApp` | images/mc/player-monitor/main.go:158-221 | the method's error, new `lastStopTime` and sleeps are those of the stop specification |
| `PlayerMonitor.Monitor.Stop` | images/mc/player-monitor/main.go:121-134 | dispatches on the stop method; only the Azure stop can change `lastStopTime` |
| `PlayerMonitor.Monitor.StopViaRcon` | images/mc/player-monitor/main.go:136-156 | nil iff the `stop` command was sent; a failed warning does not matter |
| `PlayerMonitor.Monitor.Check` | images/mc/player-monitor/main.go:86-134 | an RCON error changes nothing; players seen set `lastPlayerTime` to now; an empty server calls stop iff `now − lastPlayerTime ≥ timeout`, without resetting `lastPlayerTime`; a stop call returns the stop's error and moves `lastStopTime` only as the Azure stop does |
| `ActivityMonitor.GetConfig` | stacks/mc/player-monitor/main.go:31-44 | the connection string is the variable as set; host and queue fall back to `localhost` and `player-activity`; interval and timeout are the Atoi values in seconds whenever that fits in 64 bits |
| `ActivityMonitor.ChecksUntilShutdown` | stacks/mc/player-monitor/main.go:123 | the threshold panics exactly on a zero interval, and is the quotient of timeout by interval for a non-negative timeout and a positive interval |
| `ActivityMonitor.Quotient64` | stacks/mc/player-monitor/main.go:123 | Go's int64 division panics exactly on a zero divisor and is the mathematical quotient for non-negative operands |
| `ActivityMonitor.DefaultNumbers` | stacks/mc/player-monitor/main.go:32-34 | the default strings parse to 25565, 30 and 600 |
| `ActivityMonitor.ConfigDefaults` | stacks/mc/player-monitor/main.go:31-44 | with nothing set: localhost, port 25565, an empty connection string, queue `player-activity`, 30 s and 600 s |
| `ActivityMonitor.DefaultThreshold` | stacks/mc/player-monitor/main.go:123 | the default threshold is 20 checks |
| `ActivityMonitor.NonNumericIntervalPanics` | stacks/mc/player-monitor/main.go:33-41 | a CHECK_INTERVAL shorter than 19 bytes that ends in a non-digit becomes 0, and the threshold then divides by zero (a longer value, such as twenty 9s then `x`, can be a range error that clamps instead) |
| `ActivityMonitor.TransitionOf` | stacks/mc/player-monitor/main.go:149-153 | "now responsive" exactly on false→true, "stopped responding" exactly on true→false |
| `ActivityMonitor.StepState` | stacks/mc/player-monitor/main.go:129-155 | `lastServerUp` becomes the probe; an up check resets the count; a down check adds one below the maximum |
| `ActivityMonitor.Run` | stacks/mc/player-monitor/main.go:125-157 | no checks change nothing; after checks, `lastServerUp` is the last probe |
| `ActivityMonitor.ServerAddr` | stacks/mc/player-monitor/main.go:126 | the signal's server is the host, a colon, and the decimal port, which reads back as the configured port |
| `ActivityMonitor.DownAction` | stacks/mc/player-monitor/main.go:135-147 | a down check never signals; it clears the queue exactly when the wrapped `checksUntilShutdown - inactiveChecks` is at most 0, and the remaining count is that difference when it fits in int64 |
| `ActivityMonitor.StepReport` | stacks/mc/player-monitor/main.go:125-155 | a check signals iff the server is up, with the probe's time, a player count of 1 and `ServerAddr`; a down check takes `DownAction` on the incremented count; "now responsive" iff down before and up now, "stopped responding" iff up before and down now |
| `ActivityMonitor.Reports` | stacks/mc/player-monitor/main.go:125-157 | one report per check |
| `ActivityMonitor.ReportAt` | stacks/mc/player-monitor/main.go:125-157 | each check reports on the state left by the checks before it |
| `ActivityMonitor.DownRun` | stacks/mc/player-monitor/main.go:135-147 | each down check raises the count by exactly one; the queue is cleared on every down check whose remaining count is ≤ 0, not only the first |
| `ActivityMonitor.TwentiethDownCheckClears` | stacks/mc/player-monitor/main.go:121-147 | with the threshold 20, the first 19 down checks count down and the 20th clears the queue |
| `ActivityMonitor.TransitionsFollowProbes` | stacks/mc/player-monitor/main.go:121-155 | starting from `false`, each transition compares a probe with the one before, and `lastServerUp` is the last probe |
| `ActivityMonitor.ActivityLoop.constructor` | stacks/mc/player-monitor/main.go:121-123 | the loop starts at zero inactive checks and `lastServerUp == false`, with the computed threshold |
| `ActivityMonitor.ActivityLoop.Step` | stacks/mc/player-monitor/main.go:125-156 | an up check resets the count and signals with player count 1; a down check adds one, wrapping, and clears the queue iff the remaining count is ≤ 0 |
| `ActivityMonitor.ActivityLoop.RunChecks` | stacks/mc/player-monitor/main.go:125-157 | the loop's state and reports after a sequence of probes are those of the run specification |

## Left out

- Sockets, deadlines and the goroutine plus `io.Copy` relaying are not modelled. A bridged client's output is stated as the peeked bytes followed by the backend's stream, in order. The connection's read/write concurrency and what the client sends to the backend during the copy are not modelled.
- The 50 ms EOF probe check in `handleConnection` (images/mc/proxy/main.go:96-108) is wall-clock timing. It only chooses whether to log, and both branches return.
- `json.Marshal` is an abstract function. Its escaping and field order are not modelled, and a marshal error is not modelled either.
- `Proxy.Proxy.HandleStatusRequest`, `Proxy.Proxy.ProxyToBackend` and `Proxy.Proxy.HandleConnection` require every JSON text to be at most 2^31 − 7 bytes (`Fits`). Beyond that, `int32(len(...))` turns negative and `appendVarInt` never stops (see `VarIntCodec.EncoderNeverStopsOnNegative`).
- `VarIntCodec.AppendVarInt` and `VarIntCodec.WriteVarInt` require a non-negative value, because the loop does not terminate otherwise.
- `Proxy.Proxy.ProxyToBackend` requires a first packet within the frame size cap, which `readPacket` guarantees. It also requires a peek of at most 2048 bytes, the size of its buffer.
- `math/rand` is a `draw` function. The model proves a permutation for every `draw`, not the distribution of the shuffle.
- Azure identity, tokens and HTTP transport are inputs: `Auth`, `tokenOk` and `HttpOutcome`. So are the RCON clients (`ListSession`, `StopSession`) and the queue client, whose send and clear errors are only logged. URLs and headers are not modelled.
- Environment lookup is a map. `time.ParseDuration` and the base64 read of `FAVICON_PATH` are function parameters. `getEnvInt` and the three timeouts it configures (images/mc/proxy/main.go:56-61) are not modelled, because they only set deadlines.
- Sleeps are recorded as the list of planned durations (`slept`). The 30 s sleep in `stopViaRcon`, the start-up waits and the ticker are not modelled, and neither is logging.
- `Proxy.Proxy.HandleConnection` and `Proxy.WakeDebounced`: connections are modelled one at a time. The proxy serves each connection in its own goroutine (images/mc/proxy/main.go:80), and they read and write `lastStartTime` (main.go:32, 470, 534) without a lock. The model does not capture that sharing: two overlapping wake-ups can both pass the cooldown test and both send a start request, so `WakeDebounced` holds only for wake-ups that do not overlap.
- `Handshake.Classify` and `Proxy.Proxy.HandleConnection` route with the corrected `Handshake.ParseHandshake`. On a first packet with a negative address length, such as `00 01 9C FF FF FF 0F`, the code as written panics and ends the whole proxy (see Findings). The model bridges that connection to the backend with next state 0.
- `PlayerMonitor.PlayerCountOf` has its properties stated as lemmas for replies of the server's form and for replies without a match. The regexp engine itself is not modelled beyond this one pattern.
- `images/mc/backup-manager/main.go` is not part of this model.
- The infinite loops of the monitors are modelled as a method that runs over a finite sequence of checks (`RunChecks`) and as one check (`Check`, `Step`).
- Go's zero time is `None`. `time.Since` of it saturates at the largest duration, so it is never within a cooldown, and the model says so directly.

A note on the VarInt decoders: the wire format allows at most five bytes. The code's buffer decoder `readVarIntFromBytes` accepts a sixth byte when it clears the continuation bit, while the stream decoder does not. The model follows the code (`VarIntCodec.BufferAcceptsSixBytes`).

## Findings

| source | as written | input that shows it | evidently intended | confidence | as-written member | corrected member |
|---|---|---|---|---|---|---|
| images/mc/proxy/main.go:197-209 | the address length is decoded as int32 and added to the offset without a sign check, so a negative length moves the offset before the start and `readVarIntFromBytes` indexes `b[-91]`, a panic in the connection goroutine that ends the whole proxy | handshake `00 01 9C FF FF FF 0F` (address length −100) | reject a negative address length as a malformed handshake | not executed | `Handshake.ParseHandshakeAsWritten` (`Handshake.NegativeAddressLengthPanics`) | `Handshake.ParseHandshake` |
