/**
 * A `net.Conn` as the proxy uses it. The peer's side is an input: the bytes
 * it delivers, in order, and the condition that every read meets once those
 * run out (end of stream, an expired read deadline, a reset). Everything the
 * proxy writes is appended to `output`; the proxy ignores write errors on
 * the client connection, so writes always succeed here.
 */
module Net {
  import opened GoBasics

  /** The errors a read can return. */
  datatype IoError = Eof | UnexpectedEof | Timeout | Reset

  /** Why reading a VarInt or a packet from a connection failed. */
  datatype ReadError =
    | Io(cause: IoError)          // the read itself failed
    | VarIntTooBig                // five bytes, all with the continuation bit
    | InvalidLength(length: int)  // a packet length outside 1..2097151

  class Conn {
    /** Bytes the peer has sent that have not been read yet. */
    var input: Bytes
    /** What a read returns once `input` is exhausted. */
    const endError: IoError
    /** Every byte written to the peer so far. */
    var output: Bytes

    constructor (input: Bytes, endError: IoError)
      ensures this.input == input && this.endError == endError && output == []
    {
      this.input := input;
      this.endError := endError;
      this.output := [];
    }

    /** `conn.Read` into a one-byte buffer. */
    method ReadByte() returns (r: Result<byte, IoError>)
      modifies this`input
      ensures old(input) == [] ==> r == Failure(endError) && input == old(input)
      ensures old(input) != [] ==> r == Success(old(input)[0]) && input == old(input)[1..]
    {
      if input == [] {
        r := Failure(endError);
      } else {
        r := Success(input[0]);
        input := input[1..];
      }
    }

    /**
     * `io.ReadFull(conn, buf)` with `len(buf) == n`. When fewer than `n` bytes
     * arrive, the ones that did are consumed and lost, and the error is
     * `io.ErrUnexpectedEOF` if the stream ended after some of them.
     */
    method ReadFull(n: nat) returns (r: Result<Bytes, IoError>)
      modifies this`input
      ensures n <= |old(input)| ==> r == Success(old(input)[..n]) && input == old(input)[n..]
      ensures |old(input)| < n ==> r == Failure(ShortReadError(|old(input)|, endError)) && input == []
    {
      if n <= |input| {
        r := Success(input[..n]);
        input := input[n..];
      } else {
        r := Failure(ShortReadError(|input|, endError));
        input := [];
      }
    }

    /** `conn.Write(data)`. */
    method Write(data: Bytes)
      modifies this`output
      ensures output == old(output) + data
    {
      output := output + data;
    }
  }

  /** The error `io.ReadFull` reports after reading `got` bytes and then meeting `end`. */
  function ShortReadError(got: nat, end: IoError): IoError
  {
    if end == Eof && got > 0 then UnexpectedEof else end
  }
}
