/**
 * The parts of Go's `strings` and `strconv` packages that the three
 * programs rely on, on byte strings: prefix test, single-byte split,
 * Unicode white-space trimming, decimal formatting (`%d`) and `strconv.Atoi`.
 */
module GoStrings {
  import opened GoBasics

  /** `strings.HasPrefix`. */
  predicate HasPrefix(s: Bytes, prefix: Bytes)
  {
    |prefix| <= |s| && s[..|prefix|] == prefix
  }

  /** Index of the first occurrence of `b` in `s`. */
  function IndexOf(s: Bytes, b: byte): (i: nat)
    requires b in s
    ensures i < |s| && s[i] == b && b !in s[..i]
  {
    if s[0] == b then 0 else 1 + IndexOf(s[1..], b)
  }

  /**
   * `strings.Split(s, sep)` for a one-byte separator: the pieces between the
   * separators, so a string without the separator gives itself and the empty
   * string gives one empty piece.
   */
  function Split(s: Bytes, sep: byte): (r: seq<Bytes>)
    ensures |r| >= 1
    ensures forall k :: 0 <= k < |r| ==> sep !in r[k]
    decreases |s|
  {
    if sep !in s then [s]
    else
      var i := IndexOf(s, sep);
      [s[..i]] + Split(s[i + 1..], sep)
  }

  /** `strings.Join(parts, sep)`. */
  function Join(parts: seq<Bytes>, sep: byte): Bytes
    requires |parts| >= 1
  {
    if |parts| == 1 then parts[0] else parts[0] + [sep] + Join(parts[1..], sep)
  }

  /** Joining the pieces of a split with the separator gives back the string. */
  lemma {:induction false} SplitJoin(s: Bytes, sep: byte)
    ensures Join(Split(s, sep), sep) == s
    decreases |s|
  {
    if sep in s {
      var i := IndexOf(s, sep);
      var rest := Split(s[i + 1..], sep);
      assert Split(s, sep) == [s[..i]] + rest;
      SplitJoin(s[i + 1..], sep);
      assert Join([s[..i]] + rest, sep) == s[..i] + [sep] + Join(rest, sep) by {
        assert ([s[..i]] + rest)[1..] == rest;
      }
      assert s == s[..i] + [sep] + s[i + 1..];
    }
  }

  /** The ASCII white space: tab, line feed, vertical tab, form feed, carriage return and space. */
  predicate IsSpace(b: byte)
  {
    b == 9 || b == 10 || b == 11 || b == 12 || b == 13 || b == 32
  }

  /** The two-byte UTF-8 encodings of white space: U+0085 and U+00A0. */
  predicate IsLatinSpace(a: byte, b: byte)
  {
    a == 0xC2 && (b == 0x85 || b == 0xA0)
  }

  /**
   * The three-byte UTF-8 encodings of white space: U+1680, U+2000 to
   * U+200A, U+2028, U+2029, U+202F, U+205F and U+3000.
   */
  predicate IsWideSpace(a: byte, b: byte, c: byte)
  {
    (a == 0xE1 && b == 0x9A && c == 0x80) ||
    (a == 0xE2 && b == 0x80 && (0x80 <= c <= 0x8A || c == 0xA8 || c == 0xA9 || c == 0xAF)) ||
    (a == 0xE2 && b == 0x81 && c == 0x9F) ||
    (a == 0xE3 && b == 0x80 && c == 0x80)
  }

  /**
   * The length of the white-space character (`unicode.IsSpace`) that `s`
   * starts with, as `utf8.DecodeRune` reads it, or 0 when `s` starts with
   * anything else; an invalid sequence decodes to U+FFFD, which is not white
   * space. UTF-8 has no encoding that is a prefix of another, so comparing
   * bytes is decoding.
   */
  function LeadingSpace(s: Bytes): (n: nat)
    ensures n <= 3 && n <= |s|
  {
    if s == [] then 0
    else if IsSpace(s[0]) then 1
    else if |s| >= 2 && IsLatinSpace(s[0], s[1]) then 2
    else if |s| >= 3 && IsWideSpace(s[0], s[1], s[2]) then 3
    else 0
  }

  /** The length of the white-space character `s` ends with, as `utf8.DecodeLastRune` reads it, or 0. */
  function TrailingSpace(s: Bytes): (n: nat)
    ensures n <= 3 && n <= |s|
  {
    var k := |s|;
    if s == [] then 0
    else if IsSpace(s[k - 1]) then 1
    else if k >= 2 && IsLatinSpace(s[k - 2], s[k - 1]) then 2
    else if k >= 3 && IsWideSpace(s[k - 3], s[k - 2], s[k - 1]) then 3
    else 0
  }

  /** The white-space character at the front of `s`, or its absence, is seen by any prefix long enough to hold it. */
  lemma LeadingSpaceOfPrefix(s: Bytes, k: nat)
    requires k <= |s|
    ensures LeadingSpace(s[..k]) > 0 ==> LeadingSpace(s) == LeadingSpace(s[..k])
    ensures LeadingSpace(s) <= k ==> LeadingSpace(s[..k]) == LeadingSpace(s)
  {
    var p := s[..k];
    if k >= 1 { assert p[0] == s[0]; }
    if k >= 2 { assert p[1] == s[1]; }
    if k >= 3 { assert p[2] == s[2]; }
  }

  /** The white-space character at the back of `s`, or its absence, is seen by any suffix long enough to hold it. */
  lemma TrailingSpaceOfSuffix(s: Bytes, k: nat)
    requires k <= |s|
    ensures TrailingSpace(s[k..]) > 0 ==> TrailingSpace(s) == TrailingSpace(s[k..])
    ensures TrailingSpace(s) <= |s| - k ==> TrailingSpace(s[k..]) == TrailingSpace(s)
  {
    var t := s[k..];
    if |t| >= 1 { assert t[|t| - 1] == s[|s| - 1]; }
    if |t| >= 2 { assert t[|t| - 2] == s[|s| - 2]; }
    if |t| >= 3 { assert t[|t| - 3] == s[|s| - 3]; }
  }

  /** A string that is one white-space character, read from the back, is that character read from the front. */
  lemma OneSpace(s: Bytes)
    requires TrailingSpace(s) == |s| > 0
    ensures LeadingSpace(s) == |s|
  {
  }

  /** `s` is a run of white-space characters, read from the front. */
  predicate Blank(s: Bytes)
    decreases |s|
  {
    s == [] || (LeadingSpace(s) > 0 && Blank(s[LeadingSpace(s)..]))
  }

  /** `s` is a run of white-space characters, read from the back. */
  predicate BlankFromBack(s: Bytes)
    decreases |s|
  {
    s == [] || (TrailingSpace(s) > 0 && BlankFromBack(s[..|s| - TrailingSpace(s)]))
  }

  /** A non-empty run read from the back also starts with a white-space character. */
  lemma {:induction false} BlankFromBackStarts(s: Bytes)
    requires s != [] && BlankFromBack(s)
    ensures LeadingSpace(s) > 0
    decreases |s|
  {
    var init := s[..|s| - TrailingSpace(s)];
    if init == [] {
      OneSpace(s);
    } else {
      BlankFromBackStarts(init);
      LeadingSpaceOfPrefix(s, |init|);
    }
  }

  /** `strings.TrimLeftFunc(s, unicode.IsSpace)`. */
  function TrimLeft(s: Bytes): (r: Bytes)
    ensures |r| <= |s|
    decreases |s|
  {
    if LeadingSpace(s) > 0 then TrimLeft(s[LeadingSpace(s)..]) else s
  }

  /** TrimLeft drops a run of white space and stops at the first other character. */
  lemma {:induction false} TrimLeftShape(s: Bytes)
    ensures |TrimLeft(s)| <= |s| && TrimLeft(s) == s[|s| - |TrimLeft(s)|..]
    ensures Blank(s[..|s| - |TrimLeft(s)|])
    ensures LeadingSpace(TrimLeft(s)) == 0
    decreases |s|
  {
    var n := LeadingSpace(s);
    if n > 0 {
      var t := s[n..];
      TrimLeftShape(t);
      assert TrimLeft(s) == TrimLeft(t);
      var k := |s| - |TrimLeft(s)|;
      LeadingSpaceOfPrefix(s, k);
      assert s[..k][n..] == t[..|t| - |TrimLeft(t)|];
    } else {
      assert s[..0] == [];
    }
  }

  /** `strings.TrimRightFunc(s, unicode.IsSpace)`. */
  function TrimRight(s: Bytes): (r: Bytes)
    ensures |r| <= |s|
    decreases |s|
  {
    if TrailingSpace(s) > 0 then TrimRight(s[..|s| - TrailingSpace(s)]) else s
  }

  /** TrimRight drops a run of white space and stops at the last other character. */
  lemma {:induction false} TrimRightShape(s: Bytes)
    ensures |TrimRight(s)| <= |s| && TrimRight(s) == s[..|TrimRight(s)|]
    ensures BlankFromBack(s[|TrimRight(s)|..])
    ensures TrailingSpace(TrimRight(s)) == 0
    decreases |s|
  {
    var n := TrailingSpace(s);
    if n > 0 {
      var t := s[..|s| - n];
      TrimRightShape(t);
      assert TrimRight(s) == TrimRight(t);
      var k := |TrimRight(s)|;
      TrailingSpaceOfSuffix(s, k);
      assert s[k..][..|s| - k - n] == t[|TrimRight(t)|..];
    } else {
      assert s[|s|..] == [];
    }
  }

  /** Where `TrimSpace(s)` starts in `s`. */
  function TrimStart(s: Bytes): nat
  {
    |s| - |TrimLeft(s)|
  }

  /**
   * `strings.TrimSpace`: leading and trailing white space removed, where
   * white space is what `unicode.IsSpace` accepts, ASCII or not.
   */
  function TrimSpace(s: Bytes): Bytes
  {
    TrimRight(TrimLeft(s))
  }

  /**
   * TrimSpace gives the slice of `s` that neither starts nor ends with a
   * white-space character, with a run of white space before it and another
   * after it.
   */
  lemma TrimSpaceShape(s: Bytes)
    ensures TrimStart(s) + |TrimSpace(s)| <= |s|
    ensures TrimSpace(s) == s[TrimStart(s)..TrimStart(s) + |TrimSpace(s)|]
    ensures Blank(s[..TrimStart(s)])
    ensures BlankFromBack(s[TrimStart(s) + |TrimSpace(s)|..])
    ensures LeadingSpace(TrimSpace(s)) == 0 && TrailingSpace(TrimSpace(s)) == 0
  {
    TrimLeftShape(s);
    TrimSpaceTail(s, TrimLeft(s), TrimStart(s));
  }

  /** The right-hand half of TrimSpaceShape, on the left-trimmed string `l` that starts at `k`. */
  lemma TrimSpaceTail(s: Bytes, l: Bytes, k: nat)
    requires k <= |s| && l == s[k..] && LeadingSpace(l) == 0
    ensures var r := TrimRight(l);
            k + |r| <= |s| && r == s[k..k + |r|] && BlankFromBack(s[k + |r|..]) &&
            LeadingSpace(r) == 0 && TrailingSpace(r) == 0
  {
    TrimRightShape(l);
    var r := TrimRight(l);
    assert s[k + |r|..] == l[|r|..];
    NoLeadingSpaceInPrefix(l, |r|);
  }

  /** A prefix of a string that does not start with white space does not either. */
  lemma NoLeadingSpaceInPrefix(s: Bytes, k: nat)
    requires k <= |s| && LeadingSpace(s) == 0
    ensures LeadingSpace(s[..k]) == 0
  {
    if LeadingSpace(s[..k]) > 0 {
      LeadingSpaceOfPrefix(s, k);
    }
  }

  /** TrimSpace leaves nothing exactly when the string is all white space. */
  lemma TrimSpaceEmpty(s: Bytes)
    ensures TrimSpace(s) == [] <==> Blank(s)
  {
    var l := TrimLeft(s);
    TrimLeftShape(s);
    TrimRightShape(l);
    if l == [] {
      assert s[..|s|] == s;
    } else {
      if TrimSpace(s) == [] {
        assert l[0..] == l;
        BlankFromBackStarts(l);
      }
      BlankTrimsLeft(s);
    }
  }

  /** A blank string is trimmed to nothing from the left. */
  lemma {:induction false} BlankTrimsLeft(s: Bytes)
    ensures Blank(s) ==> TrimLeft(s) == []
    decreases |s|
  {
    if LeadingSpace(s) > 0 {
      BlankTrimsLeft(s[LeadingSpace(s)..]);
    }
  }

  predicate IsDigit(b: byte)
  {
    '0' as int <= b <= '9' as int
  }

  /** The decimal digits of `n`, most significant first. */
  function DigitsOf(n: nat): (r: Bytes)
    ensures |r| >= 1
    ensures forall i :: 0 <= i < |r| ==> IsDigit(r[i])
    decreases n
  {
    if n < 10 then ['0' as int + n] else DigitsOf(n / 10) + ['0' as int + n % 10]
  }

  /** Go's `%d`: decimal digits with a leading `-` for negative numbers. */
  function Decimal(n: int): Bytes
  {
    if n < 0 then ['-' as int] + DigitsOf(-n) else DigitsOf(n)
  }

  /** What `strconv.ParseUint`'s base-10 digit loop ends with. */
  datatype UintScan = Digits(value: nat) | SyntaxError | RangeError

  /**
   * `strconv.ParseUint(s, 10, 64)`'s loop, from accumulated value `n`: a
   * non-digit is a syntax error, and a value that passes 2^64 - 1 is a range
   * error at once, whatever follows it.
   */
  function ScanUint(s: Bytes, n: nat): UintScan
    requires n <= MaxUint64
    decreases |s|
  {
    if s == [] then Digits(n)
    else if !IsDigit(s[0]) then SyntaxError
    else if n * 10 + (s[0] - '0' as int) > MaxUint64 then RangeError
    else ScanUint(s[1..], n * 10 + (s[0] - '0' as int))
  }

  /** `strconv.Atoi`'s results: the value, and whether the error was nil. */
  datatype IntParse = IntParse(value: int64, ok: bool)

  /**
   * `strconv.Atoi` on a 64-bit platform: an optional sign and at least one
   * ASCII digit. A syntax error gives 0; an out-of-range value gives the
   * clamped value, both with a non-nil error. (Atoi's fast path for strings
   * shorter than 19 bytes gives the same results, since no such string can
   * overflow.)
   */
  function Atoi(s: Bytes): IntParse
  {
    if s == [] then IntParse(0, false)
    else
      var neg := s[0] == '-' as int;
      var digits := if s[0] == '-' as int || s[0] == '+' as int then s[1..] else s;
      if digits == [] then IntParse(0, false)
      else match ScanUint(digits, 0)
        case SyntaxError => IntParse(0, false)
        case RangeError => IntParse(if neg then MinInt64 else MaxInt64, false)
        case Digits(u) =>
          if !neg && u > MaxInt64 then IntParse(MaxInt64, false)
          else if neg && u > TwoTo63 then IntParse(MinInt64, false)
          else
            var v: int := if neg then -(u as int) else u;
            IntParse(v, true)
  }

  lemma {:induction false} ScanUintSnoc(s: Bytes, d: byte, n: nat, m: nat)
    requires n <= MaxUint64 && IsDigit(d)
    requires ScanUint(s, n) == Digits(m)
    requires m * 10 + (d - '0' as int) <= MaxUint64
    ensures ScanUint(s + [d], n) == Digits(m * 10 + (d - '0' as int))
    decreases |s|
  {
    if s == [] {
      assert [d][1..] == [];
    } else {
      assert (s + [d])[1..] == s[1..] + [d];
      ScanUintSnoc(s[1..], d, n * 10 + (s[0] - '0' as int), m);
    }
  }

  lemma {:induction false} ScanDigitsOf(n: nat)
    requires n <= MaxUint64
    ensures ScanUint(DigitsOf(n), 0) == Digits(n)
    decreases n
  {
    if n >= 10 {
      ScanDigitsOf(n / 10);
      ScanUintSnoc(DigitsOf(n / 10), '0' as int + n % 10, 0, n / 10);
    }
  }

  /** `strconv.Atoi` reads back every 64-bit integer that `%d` prints. */
  lemma AtoiDecimal(n: int64)
    ensures Atoi(Decimal(n)) == IntParse(n, true)
  {
    if n < 0 {
      var m: nat := -(n as int);
      ScanDigitsOf(m);
      assert (['-' as int] + DigitsOf(m))[1..] == DigitsOf(m);
    } else {
      ScanDigitsOf(n);
    }
  }

  /**
   * A string short enough for Atoi's fast path that is not an optional sign
   * followed by digits only parses to 0 with a non-nil error.
   */
  lemma AtoiRejectsNonNumeric(s: Bytes)
    requires |s| < 19
    requires var digits := if s != [] && (s[0] == '-' as int || s[0] == '+' as int) then s[1..] else s;
             digits == [] || exists i :: 0 <= i < |digits| && !IsDigit(digits[i])
    ensures Atoi(s) == IntParse(0, false)
  {
    if s != [] {
      var digits := if s[0] == '-' as int || s[0] == '+' as int then s[1..] else s;
      if digits != [] {
        var i :| 0 <= i < |digits| && !IsDigit(digits[i]);
        ScanStopsAtNonDigit(digits, 0, 0, i);
      }
    }
  }

  function Pow10(k: nat): (r: nat)
    ensures r >= 1
  {
    if k == 0 then 1 else 10 * Pow10(k - 1)
  }

  lemma {:induction false} Pow10Monotone(j: nat, k: nat)
    requires j <= k
    ensures Pow10(j) <= Pow10(k)
    decreases k - j
  {
    if j < k { Pow10Monotone(j, k - 1); }
  }

  lemma Pow10Bound(k: nat)
    requires k <= 18
    ensures Pow10(k) <= 1_000_000_000_000_000_000
  {
    Pow10Monotone(k, 18);
    assert Pow10(1) == 10;
    assert Pow10(2) == 100;
    assert Pow10(3) == 1000;
    assert Pow10(4) == 10000;
    assert Pow10(5) == 100000;
    assert Pow10(6) == 1000000;
    assert Pow10(7) == 10000000;
    assert Pow10(8) == 100000000;
    assert Pow10(9) == 1000000000;
    assert Pow10(10) == 10000000000;
    assert Pow10(11) == 100000000000;
    assert Pow10(12) == 1000000000000;
    assert Pow10(13) == 10000000000000;
    assert Pow10(14) == 100000000000000;
    assert Pow10(15) == 1000000000000000;
    assert Pow10(16) == 10000000000000000;
    assert Pow10(17) == 100000000000000000;
    assert Pow10(18) == 1000000000000000000;
  }

  /** With at most 18 digits in all, the loop never overflows, so a non-digit ends it in a syntax error. */
  lemma {:induction false} ScanStopsAtNonDigit(s: Bytes, n: nat, c: nat, i: nat)
    requires i < |s| && !IsDigit(s[i])
    requires c + |s| <= 18 && n < Pow10(c)
    ensures n <= MaxUint64 && ScanUint(s, n) == SyntaxError
    decreases |s|
  {
    Pow10Bound(c);
    if IsDigit(s[0]) {
      var d := s[0] - '0' as int;
      assert n * 10 + d < Pow10(c + 1);
      ScanStopsAtNonDigit(s[1..], n * 10 + d, c + 1, i - 1);
    }
  }
}
