/**
 * Go's value types as the rest of the model sees them: bytes and byte
 * strings, 32- and 64-bit integers with their wrap-around, durations in
 * nanoseconds, and the process environment.
 */
module GoBasics {

  /** A Go `byte`. */
  type byte = b: int | 0 <= b < 256

  /** A Go `string` or `[]byte`: Go strings are byte strings. */
  type Bytes = seq<byte>

  const TwoTo31: int := 0x8000_0000
  const TwoTo32: int := 0x1_0000_0000
  const TwoTo63: int := 0x8000_0000_0000_0000
  const TwoTo64: int := 0x1_0000_0000_0000_0000

  const MaxInt64: int := TwoTo63 - 1
  const MinInt64: int := -TwoTo63
  const MaxUint64: int := TwoTo64 - 1

  /** A Go `int32`. */
  type int32 = x: int | -TwoTo31 <= x < TwoTo31

  /** A Go `int` or `int64` (the platform is 64-bit). */
  type int64 = x: int | MinInt64 <= x <= MaxInt64

  /** Go's conversion of an integer to int32: keep the low 32 bits and read them in two's complement. */
  function ToInt32(x: int): (r: int32)
    ensures -TwoTo31 <= x < TwoTo31 ==> r == x
    ensures TwoTo31 <= x < TwoTo32 ==> r == x - TwoTo32
  {
    var w := x % TwoTo32;
    if w < TwoTo31 then w else w - TwoTo32
  }

  /** Go's wrap-around of a 64-bit signed result. */
  function Wrap64(x: int): (r: int64)
    ensures (r - x) % TwoTo64 == 0
    ensures MinInt64 <= x <= MaxInt64 ==> r == x
  {
    var w := x % TwoTo64;
    if w < TwoTo63 then w else w - TwoTo64
  }

  /** The bytes of an ASCII string literal. */
  function Ascii(s: string): (r: Bytes)
    ensures |r| == |s|
  {
    seq(|s|, i requires 0 <= i < |s| => (s[i] as int) % 256)
  }

  /** The smaller of two integers. */
  function Min(a: int, b: int): (m: int)
    ensures m <= a && m <= b && (m == a || m == b)
  {
    if a < b then a else b
  }

  datatype Option<+T> = None | Some(value: T)

  datatype Result<+T, +E> = Success(value: T) | Failure(error: E)

  /** Durations and clock readings are Go `time.Duration` values: nanoseconds. */
  const Millisecond: int := 1_000_000
  const Second: int := 1000 * Millisecond
  const Minute: int := 60 * Second

  /** The process environment, as `os.Getenv` sees it. */
  type Env = map<Bytes, Bytes>

  /** `os.Getenv(key)`: the empty string when the variable is unset. */
  function LookupEnv(env: Env, key: Bytes): Bytes
  {
    if key in env then env[key] else []
  }

  /** The `getEnv(key, default)` helper: the variable's value unless it is unset or empty. */
  function GetEnv(env: Env, key: Bytes, default: Bytes): (r: Bytes)
    ensures r == default <==> (LookupEnv(env, key) == [] || LookupEnv(env, key) == default)
    ensures r != default ==> r == LookupEnv(env, key) && r != []
  {
    var v := LookupEnv(env, key);
    if v != [] then v else default
  }
}
