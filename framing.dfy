/**
 * Packet framing: every packet travels as a VarInt length followed by that
 * many bytes. `readPacket` reads one frame from the client, refusing a
 * length outside 1..2097151 before it reads any of the body; the replies the
 * proxy builds are a packet id 0x00 followed by one length-prefixed string.
 */
module Framing {
  import opened GoBasics
  import opened Net
  import opened VarIntCodec

  /** `readPacket`'s cap on the length prefix. */
  const MaxPacketLength: int := 2097151

  /** The bytes of one frame. */
  function Frame(p: Bytes): Bytes
  {
    VarInt(|p|) + p
  }

  /**
   * `readPacket(conn)` on the bytes `input` the peer delivers before `end`:
   * the result and the number of bytes consumed.
   */
  function PacketRead(input: Bytes, end: IoError): (r: (Result<Bytes, ReadError>, nat))
    ensures r.1 <= |input|
    ensures r.0.Success? ==>
      1 <= |r.0.value| <= MaxPacketLength && |r.0.value| <= r.1 &&
      r.0.value == input[r.1 - |r.0.value|..r.1]
    ensures r.0.Failure? && r.0.error.InvalidLength? ==>
      StreamVarInt(input, end).1 == r.1 && StreamVarInt(input, end).0 == Success(r.0.error.length) &&
      (r.0.error.length <= 0 || r.0.error.length > MaxPacketLength)
  {
    var (length, used) := StreamVarInt(input, end);
    match length
    case Failure(e) => (Failure(e), used)
    case Success(n) =>
      if n <= 0 || n > MaxPacketLength then (Failure(InvalidLength(n)), used)
      else if used + n <= |input| then (Success(input[used..used + n]), used + n)
      else (Failure(Io(ShortReadError(|input| - used, end))), |input|)
  }

  /** `readPacket(conn)`. */
  method ReadPacket(conn: Conn) returns (r: Result<Bytes, ReadError>)
    modifies conn`input
    ensures var (res, used) := PacketRead(old(conn.input), conn.endError);
            r == res && conn.input == old(conn.input)[used..]
  {
    ghost var start := conn.input;
    var length := ReadVarInt(conn);
    ghost var used := StreamVarInt(start, conn.endError).1;
    if length.Failure? {
      return Failure(length.error);
    }
    var n := length.value;
    if n <= 0 || n > MaxPacketLength {
      return Failure(InvalidLength(n));
    }
    var body := conn.ReadFull(n);
    if body.Failure? {
      return Failure(Io(body.error));
    }
    assert start[used..][..n] == start[used..used + n];
    assert start[used..][n..] == start[used + n..];
    return Success(body.value);
  }

  /** `readPacket` returns the body of a well-formed frame and consumes exactly the frame. */
  lemma FrameReadBack(p: Bytes, rest: Bytes, end: IoError)
    requires 1 <= |p| <= MaxPacketLength
    ensures PacketRead(Frame(p) + rest, end) == (Success(p), |Frame(p)|)
  {
    var input := Frame(p) + rest;
    assert input == VarInt(|p|) + (p + rest);
    StreamRoundTrip(|p|, p + rest, end);
    assert input[|VarInt(|p|)|..|VarInt(|p|)| + |p|] == p;
  }

  /**
   * A length prefix that decodes to 0, to a negative int32 or to more than
   * 2097151 is refused with InvalidLength, and nothing after the prefix is consumed.
   */
  lemma LengthOutOfRangeRejected(n: int32, rest: Bytes, end: IoError)
    requires n <= 0 || n > MaxPacketLength
    ensures PacketRead(VarInt(Unsigned32(n)) + rest, end) ==
            (Failure(InvalidLength(n)), |VarInt(Unsigned32(n))|)
  {
    StreamDecodes(Unsigned32(n), rest, end);
  }

  /** The smallest lengths `readPacket` refuses. */
  lemma EdgeLengthsRejected(rest: Bytes, end: IoError)
    ensures PacketRead([0x00] + rest, end) == (Failure(InvalidLength(0)), 1)
    ensures PacketRead(VarInt(MaxPacketLength + 1) + rest, end) == (Failure(InvalidLength(MaxPacketLength + 1)), 4)
  {
    LengthOutOfRangeRejected(0, rest, end);
    LengthOutOfRangeRejected(MaxPacketLength + 1, rest, end);
    assert VarInt(0) == [0x00];
    assert |VarInt(MaxPacketLength + 1)| == 4 by {
      assert VarInt(128) == [0x80, 0x01];
      assert VarInt(16384) == [0x80] + VarInt(128);
      assert VarInt(MaxPacketLength + 1) == [0x80] + VarInt(16384);
    }
  }

  /** A body shorter than its length prefix: the read error, with the short body consumed. */
  lemma ShortBodyFails(n: nat, body: Bytes, end: IoError)
    requires 1 <= n <= MaxPacketLength && |body| < n
    ensures PacketRead(VarInt(n) + body, end) ==
            (Failure(Io(ShortReadError(|body|, end))), |VarInt(n)| + |body|)
  {
    StreamRoundTrip(n, body, end);
  }

  /** The longest string a reply can carry: the packet, prefix included, stays an int32 length. */
  const MaxString: int := TwoTo31 - 7

  /** A packet with id 0x00 whose payload is one string (the status response, the login disconnect). */
  function StringPacket(s: Bytes): (p: Bytes)
    requires |s| <= MaxString
    ensures |p| < TwoTo31
  {
    VarIntAtMostFive(|s|);
    [0x00] + VarInt(|s|) + s
  }

  /**
   * What a client reads back from the reply frame: the frame length, then a
   * packet whose id is 0x00 and whose string decodes to `s`.
   */
  lemma StringPacketReadBack(s: Bytes, rest: Bytes, end: IoError)
    requires |s| <= MaxString
    ensures var p := StringPacket(s);
            StreamVarInt(Frame(p) + rest, end) == (Success(|p|), |VarInt(|p|)|) &&
            p[0] == 0x00 &&
            VarIntFromBytes(p, 1) == Decoded(|s|, |VarInt(|s|)|) &&
            p[1 + |VarInt(|s|)|..] == s
  {
    var p := StringPacket(s);
    assert Frame(p) + rest == VarInt(|p|) + (p + rest);
    StreamRoundTrip(|p|, p + rest, end);
    assert p == [0x00] + VarInt(|s|) + s;
    BufferRoundTrip([0x00], |s|, s);
  }
}
