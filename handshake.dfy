/**
 * The handshake packet (id 0x00, then the protocol version, the server
 * address as a length-prefixed string, a two-byte port and the next state,
 * all VarInts but the port) and the routing of a connection's first packet.
 *
 * `parseHandshake` moves its offset by the decoded address length without
 * checking its sign. A negative length moves the offset before the start of
 * the packet, and the next index expression panics; an unrecovered panic in
 * the connection's goroutine ends the whole proxy process. The model keeps
 * that version (ParseHandshakeAsWritten) next to the corrected one
 * (ParseHandshake), which reports the negative offset as an error and which
 * the routing uses.
 */
module Handshake {
  import opened GoBasics
  import opened VarIntCodec

  datatype Handshake = Handshake(nextState: int, protocol: int32)

  datatype HandshakeError =
    | NotHandshake      // empty packet, or a packet id other than 0x00
    | UnexpectedEnd     // a VarInt runs past the end of the packet
    | VarIntTooLong     // a VarInt with six continuation bytes
    | NegativeOffset    // the address length moved the offset before the packet

  /** What `parseHandshake` as written does: return, or panic on a negative index. */
  datatype HandshakeRun = Returned(result: Result<Handshake, HandshakeError>) | IndexPanic

  function DecodeError(d: BufDecode): HandshakeError
  {
    if d.TooBig? then VarIntTooLong else if d.EndOfBuffer? then UnexpectedEnd else NegativeOffset
  }

  /** Where the next-state VarInt starts, once the protocol and address length have been read. */
  function NextStateOffset(p: Bytes): int
    requires |p| >= 1
    requires VarIntFromBytes(p, 1).Decoded?
    requires VarIntFromBytes(p, 1 + VarIntFromBytes(p, 1).consumed).Decoded?
  {
    var proto := VarIntFromBytes(p, 1);
    var addr := VarIntFromBytes(p, 1 + proto.consumed);
    1 + proto.consumed + addr.consumed + addr.value + 2
  }

  /**
   * `parseHandshake(packet)` as written: it panics exactly when both leading VarInts
   * decode and the next-state offset they give is negative; otherwise it returns what
   * the corrected parser returns.
   */
  function ParseHandshakeAsWritten(p: Bytes): (r: HandshakeRun)
    ensures r.IndexPanic? <==>
      |p| >= 1 && p[0] == 0x00 && VarIntFromBytes(p, 1).Decoded? &&
      VarIntFromBytes(p, 1 + VarIntFromBytes(p, 1).consumed).Decoded? && NextStateOffset(p) < 0
    ensures r.Returned? ==> r.result == ParseHandshake(p)
  {
    if |p| < 1 || p[0] != 0x00 then Returned(Failure(NotHandshake))
    else
      var proto := VarIntFromBytes(p, 1);
      if !proto.Decoded? then Returned(Failure(DecodeError(proto)))
      else
        var addr := VarIntFromBytes(p, 1 + proto.consumed);
        if !addr.Decoded? then Returned(Failure(DecodeError(addr)))
        else
          var ns := VarIntFromBytes(p, NextStateOffset(p));
          if ns.IndexOutOfRange? then IndexPanic
          else if !ns.Decoded? then Returned(Failure(DecodeError(ns)))
          else Returned(Success(Handshake(ns.value, proto.value)))
  }

  /**
   * `parseHandshake(packet)` with the negative offset reported as an error.
   * It fails on an empty packet or another packet id; a success carries the
   * protocol VarInt that follows the id (see ParseEncodedHandshake for what it
   * reads back).
   */
  function ParseHandshake(p: Bytes): (r: Result<Handshake, HandshakeError>)
    ensures r == Failure(NotHandshake) <==> |p| < 1 || p[0] != 0x00
    ensures r.Success? ==> VarIntFromBytes(p, 1).Decoded? && r.value.protocol == VarIntFromBytes(p, 1).value
  {
    if |p| < 1 || p[0] != 0x00 then Failure(NotHandshake)
    else
      var proto := VarIntFromBytes(p, 1);
      if !proto.Decoded? then Failure(DecodeError(proto))
      else
        var addr := VarIntFromBytes(p, 1 + proto.consumed);
        if !addr.Decoded? then Failure(DecodeError(addr))
        else
          var offset := NextStateOffset(p);
          if offset < 0 then Failure(NegativeOffset)
          else
            var ns := VarIntFromBytes(p, offset);
            if !ns.Decoded? then Failure(DecodeError(ns))
            else Success(Handshake(ns.value, proto.value))
  }

  /** Three decoded VarInts at the offsets the parser computes make a handshake. */
  lemma ParsedFrom(p: Bytes, proto: int32, n: nat, addrLen: int32, m: nat, ns: int32, k: nat)
    requires |p| >= 1 && p[0] == 0x00
    requires VarIntFromBytes(p, 1) == Decoded(proto, n)
    requires VarIntFromBytes(p, 1 + n) == Decoded(addrLen, m)
    requires VarIntFromBytes(p, 1 + n + m + addrLen + 2) == Decoded(ns, k)
    ensures ParseHandshake(p) == Success(Handshake(ns, proto))
  {
    assert NextStateOffset(p) == 1 + n + m + addrLen + 2;
  }

  /** The corrected parser agrees with the code wherever the code does not panic, and reports the panic as an error. */
  lemma ParseHandshakeCorrectsPanic(p: Bytes)
    ensures ParseHandshakeAsWritten(p).Returned? ==> ParseHandshakeAsWritten(p).result == ParseHandshake(p)
    ensures ParseHandshakeAsWritten(p).IndexPanic? <==> ParseHandshake(p) == Failure(NegativeOffset)
  {
  }

  /**
   * A packet that crashes the proxy as written: protocol 1, an address length
   * of -100 (the five bytes 9C FF FF FF 0F) and nothing else; the next state
   * would be read at offset 1 + 1 + 5 - 100 + 2 = -91.
   */
  lemma NegativeAddressLengthPanics(p: Bytes)
    requires p == [0x00, 0x01, 0x9C, 0xFF, 0xFF, 0xFF, 0x0F]
    ensures VarIntFromBytes(p, 2) == Decoded(-100, 5) && NextStateOffset(p) == -91
    ensures ParseHandshakeAsWritten(p) == IndexPanic
    ensures ParseHandshake(p) == Failure(NegativeOffset)
  {
    NegativeLengthFields(p);
  }

  /** The protocol and address-length VarInts of that packet. */
  lemma NegativeLengthFields(p: Bytes)
    requires |p| == 7 && p[1] == 0x01 && p[2] == 0x9C && p[3] == 0xFF && p[4] == 0xFF && p[5] == 0xFF && p[6] == 0x0F
    ensures VarIntFromBytes(p, 1) == Decoded(1, 1)
    ensures VarIntFromBytes(p, 2) == Decoded(-100, 5)
  {
    assert p[1..2] == [0x01] && GroupValue([0x01]) == 1;
    NegativeLength(p);
  }

  lemma NegativeLength(p: Bytes)
    requires |p| == 7 && p[2] == 0x9C && p[3] == 0xFF && p[4] == 0xFF && p[5] == 0xFF && p[6] == 0x0F
    ensures VarIntFromBytes(p, 2) == Decoded(-100, 5)
  {
    NegativeLengthGroups(p[2..7]);
    assert DecodeLoop(p, 2, 4) == Decoded(-100, 5);
    assert DecodeLoop(p, 2, 3) == DecodeLoop(p, 2, 4);
    assert DecodeLoop(p, 2, 2) == DecodeLoop(p, 2, 3);
    assert DecodeLoop(p, 2, 1) == DecodeLoop(p, 2, 2);
  }

  lemma NegativeLengthGroups(g: Bytes)
    requires |g| == 5 && g[0] == 0x9C && g[1] == 0xFF && g[2] == 0xFF && g[3] == 0xFF && g[4] == 0x0F
    ensures GroupValue(g) == TwoTo32 - 100
  {
    assert g == [0x9C, 0xFF, 0xFF, 0xFF, 0x0F];
    assert GroupValue([0x9C, 0xFF, 0xFF, 0xFF, 0x0F]) == TwoTo32 - 100;
  }

  /** The bytes of a handshake packet's body with the given fields. */
  function EncodeHandshake(protocol: int32, address: Bytes, port: Bytes, nextState: int32): Bytes
    requires protocol >= 0 && nextState >= 0 && |address| < TwoTo31 && |port| == 2
  {
    [0x00] + (VarInt(protocol) + (VarInt(|address|) + (address + (port + VarInt(nextState)))))
  }

  /** `parseHandshake` reads back the protocol and next state of an encoded handshake, whatever follows it. */
  lemma ParseEncodedHandshake(protocol: int32, address: Bytes, port: Bytes, nextState: int32, trailing: Bytes)
    requires protocol >= 0 && nextState >= 0 && |address| < TwoTo31 && |port| == 2
    ensures ParseHandshake(EncodeHandshake(protocol, address, port, nextState) + trailing) ==
            Success(Handshake(nextState, protocol))
  {
    var a, b, c := VarInt(protocol), VarInt(|address|), VarInt(nextState);
    Layout(a, b, address, port, c, trailing);
    ParsedAt(EncodeHandshake(protocol, address, port, nextState) + trailing, protocol, |address|, nextState,
             b + (address + (port + c)) + trailing, address + (port + c) + trailing, trailing);
  }

  /** A packet with id 0x00 and the three VarInts where the parser looks for them parses to those fields. */
  lemma ParsedAt(p: Bytes, protocol: nat, addrLen: nat, nextState: nat, r1: Bytes, r2: Bytes, r3: Bytes)
    requires protocol < TwoTo31 && addrLen < TwoTo31 && nextState < TwoTo31
    requires |p| >= 1 && p[0] == 0x00 && p[1..] == VarInt(protocol) + r1
    requires 1 + |VarInt(protocol)| <= |p| && p[1 + |VarInt(protocol)|..] == VarInt(addrLen) + r2
    requires var k := 1 + |VarInt(protocol)| + |VarInt(addrLen)| + addrLen + 2;
      k <= |p| && p[k..] == VarInt(nextState) + r3
    ensures ParseHandshake(p) == Success(Handshake(nextState, protocol))
  {
    var n, m := |VarInt(protocol)|, |VarInt(addrLen)|;
    DecodesAtSlice(p, 1, protocol, r1);
    DecodesAtSlice(p, 1 + n, addrLen, r2);
    DecodesAtSlice(p, 1 + n + m + addrLen + 2, nextState, r3);
    ParsedFrom(p, protocol, n, addrLen, m, nextState, |VarInt(nextState)|);
  }

  lemma Layout(a: Bytes, b: Bytes, address: Bytes, port: Bytes, c: Bytes, trailing: Bytes)
    requires |port| == 2
    ensures var p := [0x00] + (a + (b + (address + (port + c)))) + trailing;
      |p| >= 1 && p[0] == 0x00 &&
      p[1..] == a + (b + (address + (port + c)) + trailing) &&
      p[1 + |a|..] == b + (address + (port + c) + trailing) &&
      p[1 + |a| + |b| + |address| + 2..] == c + trailing
  {
    var p := [0x00] + (a + (b + (address + (port + c)))) + trailing;
    assert p[1..] == a + (b + (address + (port + c)) + trailing);
    assert p[1 + |a|..] == p[1..][|a|..];
    assert p[1 + |a| + |b| + |address| + 2..] == p[1..][|a|..][|b|..][|address|..][2..];
  }

  /** DecodesAt for a packet whose layout is not in view. */
  lemma DecodesAtSlice(p: Bytes, offset: nat, u: nat, rest: Bytes)
    requires u < TwoTo31 && offset <= |p| && p[offset..] == VarInt(u) + rest
    ensures VarIntFromBytes(p, offset) == Decoded(u, |VarInt(u)|)
  {
    DecodesAt(p, offset, u, rest);
  }

  /** The status ping of a 1.16.5 client: protocol 754, "localhost", port 25565, next state 1. */
  lemma LocalhostStatusHandshake()
    ensures ParseHandshake(EncodeHandshake(754, Ascii("localhost"), [0x63, 0xDD], 1)) == Success(Handshake(1, 754))
    ensures EncodeHandshake(754, Ascii("localhost"), [0x63, 0xDD], 1) ==
            [0x00, 0xF2, 0x05, 0x09] + Ascii("localhost") + [0x63, 0xDD, 0x01]
  {
    var p := EncodeHandshake(754, Ascii("localhost"), [0x63, 0xDD], 1);
    ParseEncodedHandshake(754, Ascii("localhost"), [0x63, 0xDD], 1, []);
    assert p + [] == p;
    LocalhostBytes();
  }

  lemma LocalhostBytes()
    ensures EncodeHandshake(754, Ascii("localhost"), [0x63, 0xDD], 1) ==
            [0x00, 0xF2, 0x05, 0x09] + Ascii("localhost") + [0x63, 0xDD, 0x01]
  {
    assert VarInt(754) == [0xF2, 0x05];
    assert VarInt(9) == [0x09];
    assert VarInt(1) == [0x01];
  }

  /** Where `handleConnection` sends a connection after its first packet. */
  datatype Route =
    | ToStatus(protocol: int32)                    // handleStatusRequest
    | ToBackend(nextState: int, protocol: int32)   // proxyToBackend

  /** The branch in `handleConnection` on the first packet. */
  function Classify(packet: Bytes): (r: Route)
    ensures r.ToStatus? <==> ParseHandshake(packet).Success? && ParseHandshake(packet).value.nextState == 1
    ensures r.ToStatus? ==> r.protocol == ParseHandshake(packet).value.protocol
    ensures r.ToBackend? && ParseHandshake(packet).Success? ==>
      r.nextState == ParseHandshake(packet).value.nextState && r.protocol == ParseHandshake(packet).value.protocol
    ensures ParseHandshake(packet).Failure? ==> r == ToBackend(0, 0)
  {
    if |packet| > 0 && packet[0] == 0x00 then
      match ParseHandshake(packet)
      case Success(h) => if h.nextState == 1 then ToStatus(h.protocol) else ToBackend(h.nextState, h.protocol)
      case Failure(_) => ToBackend(0, 0)
    else ToBackend(0, 0)
  }

  /** A login handshake (next state 2) is proxied and keeps its next state for the disconnect decision. */
  lemma LoginGoesToBackend(protocol: int32, address: Bytes, port: Bytes, trailing: Bytes)
    requires protocol >= 0 && |address| < TwoTo31 && |port| == 2
    ensures Classify(EncodeHandshake(protocol, address, port, 2) + trailing) == ToBackend(2, protocol)
  {
    ParseEncodedHandshake(protocol, address, port, 2, trailing);
  }
}
