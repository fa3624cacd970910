/**
 * The protocol's VarInt: 7-bit groups, least significant first, with bit
 * 0x80 set on every byte that is followed by another (unsigned LEB128),
 * held in an int32. The proxy has one encoder that appends to a slice and
 * one that writes to a connection, one decoder on a stream and one on a
 * buffer at an offset.
 *
 * The decoders OR each group into an int32 at shift 7 * position. The groups
 * occupy disjoint bit positions, so the OR is the sum of the shifted groups
 * modulo 2^32; the model accumulates that sum and reads the 32 bits in two's
 * complement at the end. A group at shift 28 loses its bits above bit 31, and
 * the buffer decoder's sixth group, at shift 35, contributes nothing, exactly
 * as Go's int32 shift does.
 */
module VarIntCodec {
  import opened GoBasics
  import opened Net

  /** Bit 0x80: another byte follows. */
  predicate More(b: byte)
  {
    b >= 128
  }

  function Pow128(k: nat): (r: nat)
    ensures r >= 1
  {
    if k == 0 then 1 else 128 * Pow128(k - 1)
  }

  /** The encoding of a non-negative value. */
  function VarInt(v: nat): Bytes
    decreases v
  {
    if v < 128 then [v] else [v % 128 + 128] + VarInt(v / 128)
  }

  /** The value of the 7-bit groups of `s`, least significant first. */
  function GroupValue(s: Bytes): nat
  {
    if s == [] then 0 else s[0] % 128 + 128 * GroupValue(s[1..])
  }

  /** Where a VarInt ends when a decoder may look at no more than `limit` bytes. */
  datatype Scan = Terminated(length: nat) | Exhausted | Overlong

  /**
   * The first byte of `t` without the continuation bit, if it is among the
   * first `limit` bytes; otherwise whether `t` runs out first (Exhausted) or
   * `limit` bytes all carry the bit (Overlong).
   */
  function ScanGroups(t: Bytes, limit: nat): (r: Scan)
    ensures r.Terminated? ==> 1 <= r.length <= limit && r.length <= |t|
    decreases limit
  {
    if limit == 0 then Overlong
    else if t == [] then Exhausted
    else if !More(t[0]) then Terminated(1)
    else match ScanGroups(t[1..], limit - 1)
      case Terminated(n) => Terminated(n + 1)
      case other => other
  }

  /** What each outcome of the scan says about the continuation bits of `t`. */
  lemma {:induction false} ScanGroupsCases(t: Bytes, limit: nat)
    ensures var r := ScanGroups(t, limit);
      (r.Terminated? ==> !More(t[r.length - 1]) && forall i :: 0 <= i < r.length - 1 ==> More(t[i])) &&
      (r.Exhausted? ==> |t| < limit && forall i :: 0 <= i < |t| ==> More(t[i])) &&
      (r.Overlong? ==> limit <= |t| && forall i :: 0 <= i < limit ==> More(t[i]))
    decreases limit
  {
    if limit > 0 && t != [] && More(t[0]) {
      ScanGroupsCases(t[1..], limit - 1);
    }
  }

  /** The stream decoder checks for a sixth byte before reading it. */
  const StreamGroups: nat := 5
  /** The buffer decoder reads a sixth byte before it checks. */
  const BufferGroups: nat := 6

  /** The outcomes of `readVarIntFromBytes`, with Go's index panic made explicit. */
  datatype BufDecode =
    | Decoded(value: int32, consumed: nat)
    | EndOfBuffer       // "unexpected end of buffer"
    | TooBig            // "VarInt too big"
    | IndexOutOfRange   // `b[i]` with a negative `i`: a run-time panic

  /**
   * `readVarIntFromBytes(b, offset)` as its loop runs: `position` bytes from
   * the offset have been read, all with the continuation bit, and the next
   * one is `b[offset + position]`. The value is the groups read, taken as an
   * int32 once a byte without the bit ends the loop.
   */
  function DecodeLoop(b: Bytes, offset: int, position: nat): (r: BufDecode)
    requires position <= 5 && (position > 0 ==> offset >= 0)
    ensures r.IndexOutOfRange? <==> offset < 0
    ensures r.Decoded? ==> 0 <= offset && position < r.consumed <= BufferGroups && offset + r.consumed <= |b|
    decreases 5 - position
  {
    var i := offset + position;
    if i >= |b| then EndOfBuffer
    else if i < 0 then IndexOutOfRange
    else if !More(b[i]) then Decoded(ToInt32(GroupValue(b[offset..i + 1])), position + 1)
    else if position + 1 > 5 then TooBig
    else DecodeLoop(b, offset, position + 1)
  }

  /** `readVarIntFromBytes(b, offset)`: the value and the number of bytes consumed, or the error. */
  function VarIntFromBytes(b: Bytes, offset: int): (r: BufDecode)
    ensures r.IndexOutOfRange? <==> offset < 0
    ensures r.Decoded? ==> 0 <= offset && 1 <= r.consumed <= BufferGroups && offset + r.consumed <= |b|
  {
    DecodeLoop(b, offset, 0)
  }

  /**
   * The buffer decoder's result read off the continuation bits: the groups up
   * to the first byte without the bit, if one comes within six bytes of the
   * offset.
   */
  function BufferScan(b: Bytes, offset: int): BufDecode
  {
    if offset >= |b| then EndOfBuffer
    else if offset < 0 then IndexOutOfRange
    else
      var t := b[offset..];
      match ScanGroups(t, BufferGroups)
      case Terminated(n) =>
        assert t[..n] == b[offset..offset + n];
        Decoded(ToInt32(GroupValue(t[..n])), n)
      case Exhausted => EndOfBuffer
      case Overlong => TooBig
  }

  /** The decoder's loop computes the scan. */
  lemma VarIntFromBytesScans(b: Bytes, offset: int)
    ensures VarIntFromBytes(b, offset) == BufferScan(b, offset)
  {
    LoopScans(b, offset, 0);
  }

  lemma {:induction false} LoopScans(b: Bytes, offset: int, position: nat)
    requires position <= 5
    requires position > 0 ==> 0 <= offset && offset + position <= |b|
    requires forall k :: offset <= k < offset + position ==> More(b[k])
    ensures DecodeLoop(b, offset, position) == BufferScan(b, offset)
    decreases 5 - position
  {
    var i := offset + position;
    if i >= |b| {
      if position > 0 {
        AllMore(b, offset, i);
        ScanExhausted(b[offset..], BufferGroups);
      }
    } else if i >= 0 {
      if !More(b[i]) {
        AllMore(b, offset, i);
        ScanTerminatedAt(b[offset..], BufferGroups, position);
        ScanDecodedAt(b, offset, position + 1);
      } else if position + 1 > 5 {
        AllMore(b, offset, i + 1);
        ScanOverlong(b[offset..], BufferGroups);
      } else {
        LoopScans(b, offset, position + 1);
      }
    }
  }

  /**
   * What each outcome of the buffer decoder means: a value is the groups of
   * the bytes up to the first one without the continuation bit, consumed
   * counts them, the end of the buffer is reached when all bytes from the
   * offset carry the bit, and "too big" means six bytes in a row carry it.
   */
  lemma VarIntFromBytesCases(b: Bytes, offset: int)
    ensures var r := VarIntFromBytes(b, offset);
      (r.Decoded? ==>
        !More(b[offset + r.consumed - 1]) &&
        (forall i :: offset <= i < offset + r.consumed - 1 ==> More(b[i])) &&
        r.value == ToInt32(GroupValue(b[offset..offset + r.consumed]))) &&
      (r.EndOfBuffer? ==>
        offset >= |b| ||
        (0 <= offset && |b| - offset < BufferGroups && forall i :: offset <= i < |b| ==> More(b[i]))) &&
      (r.TooBig? ==>
        0 <= offset && BufferGroups <= |b| - offset &&
        forall i :: offset <= i < offset + BufferGroups ==> More(b[i]))
  {
    VarIntFromBytesScans(b, offset);
    if 0 <= offset < |b| {
      var t := b[offset..];
      ScanGroupsCases(t, BufferGroups);
      match ScanGroups(t, BufferGroups)
      case Terminated(n) =>
        ScanDecodedAt(b, offset, n);
        assert forall i :: offset <= i < offset + n - 1 ==> More(b[i]) by {
          forall i | offset <= i < offset + n - 1 ensures More(b[i]) { assert b[i] == t[i - offset]; }
        }
      case Exhausted =>
        assert forall i :: offset <= i < |b| ==> More(b[i]) by {
          forall i | offset <= i < |b| ensures More(b[i]) { assert b[i] == t[i - offset]; }
        }
      case Overlong =>
        assert forall i :: offset <= i < offset + BufferGroups ==> More(b[i]) by {
          forall i | offset <= i < offset + BufferGroups ensures More(b[i]) { assert b[i] == t[i - offset]; }
        }
    }
  }

  /**
   * `readVarInt(conn)` on the bytes `input` the peer delivers before `end`:
   * the result and the number of bytes consumed.
   */
  function StreamVarInt(input: Bytes, end: IoError): (r: (Result<int32, ReadError>, nat))
    ensures r.1 <= |input| && r.1 <= StreamGroups
    ensures r.0.Success? ==> r.1 >= 1
    ensures r.0 == Failure(VarIntTooBig) ==> r.1 == StreamGroups
  {
    ScanGroupsCases(input, StreamGroups);
    match ScanGroups(input, StreamGroups)
    case Terminated(n) => (Success(ToInt32(GroupValue(input[..n]))), n)
    case Exhausted => (Failure(Io(end)), |input|)
    case Overlong => (Failure(VarIntTooBig), StreamGroups)
  }

  /** `appendVarInt(data, value)`. A negative value never terminates (see EncoderNeverStopsOnNegative). */
  method AppendVarInt(data: Bytes, value: int32) returns (r: Bytes)
    requires value >= 0
    ensures r == data + VarInt(value)
  {
    var v: int32 := value;
    r := data;
    while true
      invariant 0 <= v
      invariant r + VarInt(v) == data + VarInt(value)
      decreases v
    {
      var temp: byte := v % 128;  // byte(value & 0x7F)
      v := v / 128;               // value >>= 7
      if v != 0 {
        temp := temp + 128;       // temp |= 0x80
      }
      r := r + [temp];
      if v == 0 {
        break;
      }
    }
  }

  /** `writeVarInt(conn, value)`: one one-byte write per group. */
  method WriteVarInt(conn: Conn, value: int32)
    requires value >= 0
    modifies conn`output
    ensures conn.output == old(conn.output) + VarInt(value)
  {
    var v: int32 := value;
    while true
      invariant 0 <= v
      invariant conn.output + VarInt(v) == old(conn.output) + VarInt(value)
      decreases v
    {
      var temp: byte := v % 128;
      v := v / 128;
      if v != 0 {
        temp := temp + 128;
      }
      conn.Write([temp]);
      if v == 0 {
        break;
      }
    }
  }

  /** `readVarIntFromBytes(b, offset)`. */
  method ReadVarIntFromBytes(b: Bytes, offset: int) returns (r: BufDecode)
    ensures r == VarIntFromBytes(b, offset)
  {
    var value: nat := 0;  // the 32 bits of the int32 accumulator, read as unsigned
    var position: nat := 0;
    var i := offset;
    while true
      invariant i == offset + position && position <= 5 && (position > 0 ==> 0 <= offset && i <= |b|)
      invariant 0 <= offset <= i <= |b| ==> value == GroupValue(b[offset..i]) % TwoTo32
      invariant DecodeLoop(b, offset, position) == VarIntFromBytes(b, offset)
      decreases 5 - position
    {
      if i >= |b| {
        return EndOfBuffer;
      }
      if i < 0 {
        return IndexOutOfRange;
      }
      var current := b[i];
      AccumulateAt(b, offset, i, value);
      value := (value + (current % 128) * Pow128(position)) % TwoTo32;
      i := i + 1;
      position := position + 1;
      if !More(current) {
        ToInt32Mod(GroupValue(b[offset..i]));
        return Decoded(ToInt32(value), i - offset);
      }
      if position > 5 {
        return TooBig;
      }
    }
  }

  /** One round of the buffer decoder's loop folds `b[i]` into the accumulator. */
  lemma AccumulateAt(b: Bytes, offset: int, i: int, value: nat)
    requires 0 <= offset <= i < |b| && value == GroupValue(b[offset..i]) % TwoTo32
    ensures (value + (b[i] % 128) * Pow128(i - offset)) % TwoTo32 == GroupValue(b[offset..i + 1]) % TwoTo32
  {
    AccumulateGroup(b[offset..i], b[i], value);
    assert b[offset..i + 1] == b[offset..i] + [b[i]];
  }

  /** `readVarInt(conn)`: at most five one-byte reads. */
  method ReadVarInt(conn: Conn) returns (r: Result<int32, ReadError>)
    modifies conn`input
    ensures var (res, used) := StreamVarInt(old(conn.input), conn.endError);
            r == res && conn.input == old(conn.input)[used..]
  {
    ghost var start := conn.input;
    var value: nat := 0;
    var position: nat := 0;
    while true
      invariant position <= 5 && position <= |start| && conn.input == start[position..]
      invariant forall k :: 0 <= k < position ==> More(start[k])
      invariant value == GroupValue(start[..position]) % TwoTo32
      decreases 5 - position
    {
      if position >= 5 {
        ScanOverlong(start, StreamGroups);
        return Failure(VarIntTooBig);
      }
      var read := conn.ReadByte();
      if read.Failure? {
        ScanExhausted(start, StreamGroups);
        return Failure(Io(read.error));
      }
      var current := read.value;
      AccumulateGroup(start[..position], current, value);
      assert start[..position + 1] == start[..position] + [current];
      value := (value + (current % 128) * Pow128(position)) % TwoTo32;
      if !More(current) {
        ScanTerminatedAt(start, StreamGroups, position);
        ToInt32Mod(GroupValue(start[..position + 1]));
        return Success(ToInt32(value));
      }
      position := position + 1;
    }
  }

  lemma ScanTerminatedAt(t: Bytes, limit: nat, k: nat)
    requires k < limit && k < |t| && !More(t[k])
    requires forall i :: 0 <= i < k ==> More(t[i])
    ensures ScanGroups(t, limit) == Terminated(k + 1)
  {
    ScanGroupsCases(t, limit);
  }

  lemma ScanExhausted(t: Bytes, limit: nat)
    requires |t| < limit
    requires forall i :: 0 <= i < |t| ==> More(t[i])
    ensures ScanGroups(t, limit) == Exhausted
  {
    ScanGroupsCases(t, limit);
  }

  lemma ScanOverlong(t: Bytes, limit: nat)
    requires limit <= |t|
    requires forall i :: 0 <= i < limit ==> More(t[i])
    ensures ScanGroups(t, limit) == Overlong
  {
    ScanGroupsCases(t, limit);
  }

  /** The continuation bits of `b[offset..end]`, re-indexed from the start of the slice. */
  lemma AllMore(b: Bytes, offset: int, end: int)
    requires 0 <= offset <= end <= |b|
    requires forall k :: offset <= k < end ==> More(b[k])
    ensures forall k :: 0 <= k < end - offset ==> More(b[offset..][k])
  {
    forall k | 0 <= k < end - offset ensures More(b[offset..][k]) {
      assert b[offset..][k] == b[offset + k];
    }
  }

  /** The truncated accumulator reads as the same int32 as the full group value. */
  lemma ToInt32Mod(x: nat)
    ensures ToInt32(x % TwoTo32) == ToInt32(x)
  {
  }

  /** The buffer decoder's result once the scan has found the last byte. */
  lemma DecodedAt(b: Bytes, offset: int, n: nat)
    requires 0 <= offset < |b| && ScanGroups(b[offset..], BufferGroups) == Terminated(n)
    ensures offset + n <= |b|
    ensures VarIntFromBytes(b, offset) == Decoded(ToInt32(GroupValue(b[offset..offset + n])), n)
  {
    VarIntFromBytesScans(b, offset);
    ScanDecodedAt(b, offset, n);
  }

  lemma ScanDecodedAt(b: Bytes, offset: int, n: nat)
    requires 0 <= offset < |b| && ScanGroups(b[offset..], BufferGroups) == Terminated(n)
    ensures offset + n <= |b|
    ensures BufferScan(b, offset) == Decoded(ToInt32(GroupValue(b[offset..offset + n])), n)
  {
    assert b[offset..][..n] == b[offset..offset + n];
  }

  // ---------------------------------------------------------------------
  // Arithmetic the decoders rest on

  lemma {:induction false} GroupValueSnoc(s: Bytes, c: byte)
    ensures GroupValue(s + [c]) == GroupValue(s) + (c % 128) * Pow128(|s|)
    decreases |s|
  {
    if s != [] {
      var t := s[1..];
      assert (s + [c])[1..] == t + [c];
      GroupValueSnoc(t, c);
      var x, w := c % 128, Pow128(|t|);
      assert GroupValue(s + [c]) == s[0] % 128 + 128 * GroupValue(t) + 128 * (x * w);
      ShiftWeight(x, w);
    }
  }

  /** Local arithmetic helpers of the decoder loop invariants. */
  lemma ShiftWeight(x: int, w: int)
    ensures 128 * (x * w) == x * (128 * w)
  {
  }

  lemma ModAdd(a: int, x: int)
    ensures (a % TwoTo32 + x) % TwoTo32 == (a + x) % TwoTo32
  {
  }

  lemma ModMultiple(y: int, q: int)
    ensures (q * TwoTo32 + y) % TwoTo32 == y % TwoTo32
  {
  }

  /** One step of either decoder: folding the next group into the truncated accumulator. */
  lemma AccumulateGroup(s: Bytes, c: byte, value: nat)
    requires value == GroupValue(s) % TwoTo32
    ensures (value + (c % 128) * Pow128(|s|)) % TwoTo32 == GroupValue(s + [c]) % TwoTo32
  {
    var x := (c % 128) * Pow128(|s|);
    GroupValueSnoc(s, c);
    ModAdd(GroupValue(s), x);
  }

  /** Local helper: the group weights up to 2^28. */
  lemma Pow128Values()
    ensures Pow128(0) == 1 && Pow128(1) == 128 && Pow128(2) == 16384 && Pow128(3) == 2097152
    ensures Pow128(4) == 0x1000_0000
  {
  }

  lemma Pow128Five()
    ensures Pow128(5) == 8 * TwoTo32
  {
    Pow128Values();
  }

  lemma {:induction false} Pow128Monotone(j: nat, k: nat)
    ensures j <= k ==> Pow128(j) <= Pow128(k)
    decreases k
  {
    if j < k { Pow128Monotone(j, k - 1); }
  }

  lemma {:induction false} GroupValueBound(s: Bytes)
    ensures GroupValue(s) < Pow128(|s|)
    decreases |s|
  {
    if s != [] { GroupValueBound(s[1..]); }
  }

  // ---------------------------------------------------------------------
  // Properties of the encoding

  /**
   * `appendVarInt` emits 7-bit groups least significant first, with bit 0x80
   * on every byte but the last, whose groups add up to the value, and no
   * more groups than the value needs.
   */
  lemma VarIntShape(v: nat)
    ensures |VarInt(v)| >= 1
    ensures forall i :: 0 <= i < |VarInt(v)| - 1 ==> More(VarInt(v)[i])
    ensures !More(VarInt(v)[|VarInt(v)| - 1])
    ensures GroupValue(VarInt(v)) == v
    ensures v < Pow128(|VarInt(v)|)
    ensures |VarInt(v)| > 1 ==> Pow128(|VarInt(v)| - 1) <= v
  {
    VarIntBits(v);
    VarIntValue(v);
    VarIntLength(v);
  }

  lemma {:induction false} VarIntBits(v: nat)
    ensures forall i :: 0 <= i < |VarInt(v)| - 1 ==> More(VarInt(v)[i])
    ensures !More(VarInt(v)[|VarInt(v)| - 1])
    decreases v
  {
    if v >= 128 {
      VarIntBits(v / 128);
      var r := VarInt(v);
      assert r[1..] == VarInt(v / 128);
      forall i | 0 <= i < |r| - 1 ensures More(r[i]) {
        if i > 0 { assert r[i] == VarInt(v / 128)[i - 1]; }
      }
    }
  }

  lemma {:induction false} VarIntValue(v: nat)
    ensures GroupValue(VarInt(v)) == v
    decreases v
  {
    if v >= 128 {
      VarIntValue(v / 128);
      assert VarInt(v)[1..] == VarInt(v / 128);
    }
  }

  lemma {:induction false} VarIntLength(v: nat)
    ensures v < Pow128(|VarInt(v)|)
    ensures |VarInt(v)| > 1 ==> Pow128(|VarInt(v)| - 1) <= v
    decreases v
  {
    if v >= 128 {
      VarIntLength(v / 128);
      assert |VarInt(v)| == 1 + |VarInt(v / 128)|;
    }
  }

  /** No byte string whose groups add up to `v` is shorter than `VarInt(v)`. */
  lemma VarIntShortest(v: nat, s: Bytes)
    requires |s| >= 1 && GroupValue(s) == v
    ensures |VarInt(v)| <= |s|
  {
    VarIntShape(v);
    GroupValueBound(s);
    Pow128Monotone(|s|, |VarInt(v)| - 1);
  }

  /** An int32 that is not negative takes at most five bytes, and exactly five from 2^28 on. */
  lemma VarIntAtMostFive(v: int32)
    requires v >= 0
    ensures |VarInt(v)| <= 5
    ensures v >= Pow128(4) ==> |VarInt(v)| == 5
  {
    VarIntUnsignedLength(v);
  }

  /** The same bounds for the unsigned view of a 32-bit pattern. */
  lemma VarIntUnsignedLength(u: nat)
    requires u < TwoTo32
    ensures |VarInt(u)| <= 5
    ensures u >= Pow128(4) ==> |VarInt(u)| == 5
  {
    VarIntShape(u);
    Pow128Five();
    var n := |VarInt(u)|;
    Pow128Monotone(5, n - 1);
    Pow128Monotone(n, 4);
  }

  /** The `>>= 7` of the encoder's loop: an arithmetic shift, i.e. division rounding down. */
  function ShiftRight7(v: int): int
  {
    v / 128
  }

  /** The encoder's `value` after `k` rounds of its loop. */
  function ShiftedTimes(v: int, k: nat): int
  {
    if k == 0 then v else ShiftRight7(ShiftedTimes(v, k - 1))
  }

  /**
   * On a negative value the encoder's exit test `value == 0` never holds:
   * the arithmetic shift keeps the value negative (it settles at -1), so the
   * loop appends forever. Hence `value >= 0` on both encoders.
   */
  lemma {:induction false} EncoderNeverStopsOnNegative(v: int, k: nat)
    requires v < 0
    ensures ShiftedTimes(v, k) < 0
  {
    if k > 0 {
      EncoderNeverStopsOnNegative(v, k - 1);
    }
  }

  // ---------------------------------------------------------------------
  // Round trips

  lemma ScanEncoded(v: nat, rest: Bytes, limit: nat)
    requires |VarInt(v)| <= limit
    ensures ScanGroups(VarInt(v) + rest, limit) == Terminated(|VarInt(v)|)
  {
    VarIntShape(v);
    var t := VarInt(v) + rest;
    var n := |VarInt(v)|;
    assert !More(t[n - 1]);
    assert forall i :: 0 <= i < n - 1 ==> More(t[i]) by {
      forall i | 0 <= i < n - 1 ensures More(t[i]) { assert t[i] == VarInt(v)[i]; }
    }
    ScanTerminatedAt(t, limit, n - 1);
  }

  /** `readVarIntFromBytes` decodes what `appendVarInt` wrote, wherever it sits in the buffer. */
  lemma BufferRoundTrip(pre: Bytes, v: int32, rest: Bytes)
    requires v >= 0
    ensures VarIntFromBytes(pre + VarInt(v) + rest, |pre|) == Decoded(v, |VarInt(v)|)
  {
    var b := pre + VarInt(v) + rest;
    assert b[|pre|..] == VarInt(v) + rest;
    DecodesAt(b, |pre|, v, rest);
  }

  /**
   * The buffer decoder on the encoding of any 32-bit pattern `u` (the
   * unsigned view of an int32): the int32 with those bits.
   */
  lemma DecodesAt(b: Bytes, offset: nat, u: nat, rest: Bytes)
    requires u < TwoTo32 && offset <= |b| && b[offset..] == VarInt(u) + rest
    ensures VarIntFromBytes(b, offset) == Decoded(ToInt32(u), |VarInt(u)|)
  {
    var n := |VarInt(u)|;
    assert ScanGroups(b[offset..], BufferGroups) == Terminated(n) by {
      VarIntUnsignedLength(u);
      ScanEncoded(u, rest, BufferGroups);
    }
    DecodedAt(b, offset, n);
    assert b[offset..offset + n] == VarInt(u) by {
      assert b[offset..offset + n] == b[offset..][..n];
    }
    VarIntValue(u);
  }

  /** `readVarInt` decodes what `writeVarInt` wrote, and consumes exactly those bytes. */
  lemma StreamRoundTrip(v: int32, rest: Bytes, end: IoError)
    requires v >= 0
    ensures StreamVarInt(VarInt(v) + rest, end) == (Success(v), |VarInt(v)|)
  {
    StreamDecodes(v, rest, end);
  }

  /** The stream decoder on the encoding of any 32-bit pattern `u`. */
  lemma StreamDecodes(u: nat, rest: Bytes, end: IoError)
    requires u < TwoTo32
    ensures StreamVarInt(VarInt(u) + rest, end) == (Success(ToInt32(u)), |VarInt(u)|)
  {
    var t := VarInt(u) + rest;
    assert ScanGroups(t, StreamGroups) == Terminated(|VarInt(u)|) by {
      VarIntUnsignedLength(u);
      ScanEncoded(u, rest, StreamGroups);
    }
    assert t[..|VarInt(u)|] == VarInt(u);
    VarIntValue(u);
  }

  /** The bits of an int32, read as unsigned: what the encoders would emit for it if they stopped. */
  function Unsigned32(x: int32): (u: nat)
    ensures u < TwoTo32 && ToInt32(u) == x
  {
    if x < 0 then x + TwoTo32 else x
  }

  /**
   * The buffer decoder accepts one byte more than the stream decoder: when
   * five continuation bytes are followed by a sixth without the bit, the
   * buffer decoder returns the value of the first five groups (the sixth,
   * at shift 35, adds nothing) and consumes six bytes, while the stream
   * decoder fails "VarInt too big" after five.
   */
  lemma BufferAcceptsSixBytes(t: Bytes, end: IoError)
    requires |t| >= 6
    requires forall i :: 0 <= i < 5 ==> More(t[i])
    requires !More(t[5])
    ensures VarIntFromBytes(t, 0) == Decoded(ToInt32(GroupValue(t[..5])), 6)
    ensures StreamVarInt(t, end) == (Failure(VarIntTooBig), 5)
  {
    ScanTerminatedAt(t, BufferGroups, 5);
    VarIntFromBytesScans(t, 0);
    assert t[..6] == t[..5] + [t[5]];
    GroupValueSnoc(t[..5], t[5]);
    Pow128Five();
    var g := t[5] % 128;
    assert GroupValue(t[..6]) == GroupValue(t[..5]) + (8 * g) * TwoTo32;
    ModMultiple(GroupValue(t[..5]), 8 * g);
    assert t[0..] == t;
  }

  /** A concrete instance: 80 80 80 80 80 00 is zero to the buffer decoder and too big for the stream. */
  lemma SixByteZero()
    ensures VarIntFromBytes([0x80, 0x80, 0x80, 0x80, 0x80, 0x00], 0) == Decoded(0, 6)
    ensures StreamVarInt([0x80, 0x80, 0x80, 0x80, 0x80, 0x00], Eof) == (Failure(VarIntTooBig), 5)
  {
    var t: Bytes := [0x80, 0x80, 0x80, 0x80, 0x80, 0x00];
    assert t[0..6] == t;
    assert DecodeLoop(t, 0, 5) == Decoded(0, 6);
    assert DecodeLoop(t, 0, 4) == DecodeLoop(t, 0, 5);
    assert DecodeLoop(t, 0, 3) == DecodeLoop(t, 0, 4);
    assert DecodeLoop(t, 0, 2) == DecodeLoop(t, 0, 3);
    assert DecodeLoop(t, 0, 1) == DecodeLoop(t, 0, 2);
    assert StreamVarInt(t, Eof) == (Failure(VarIntTooBig), 5) by {
      ScanOverlong(t, StreamGroups);
    }
  }
}
