/**
 * The status reply the proxy gives in place of the server: the record that
 * the launcher shows in its server list (message of the day, player counts,
 * an optional hover list of player names, favicon, version), and the rules by
 * which the environment fills it in.
 */
module Status {
  import opened GoBasics
  import opened GoStrings

  /** One entry of `players.sample`. */
  datatype Sample = Sample(name: Bytes, id: Bytes)

  /**
   * The status object before `json.Marshal`. `sample` and `favicon` are
   * `omitempty` fields: None is an omitted field.
   */
  datatype StatusRecord = StatusRecord(
    description: Bytes,
    max: int64,
    online: int64,
    sample: Option<seq<Sample>>,
    favicon: Option<Bytes>,
    versionName: Bytes,
    versionProtocol: int32)

  /** The id every sample entry carries. */
  const DummyId: Bytes := Ascii("00000000-0000-0000-0000-000000000000")
  const MaxSamples: nat := 5
  const MaxNameLength: nat := 32

  const PlayersMaxKey: Bytes := Ascii("PLAYERS_MAX")
  const PlayersOnlineKey: Bytes := Ascii("PLAYERS_ONLINE")
  const PlayerSampleKey: Bytes := Ascii("PLAYER_SAMPLE")

  /**
   * `players.max` or `players.online`: 0 unless the variable is set to a
   * value `strconv.Atoi` accepts. A value it refuses (out of range
   * included) leaves the 0 in place.
   */
  function PlayerCount(env: Env, key: Bytes): (n: int64)
    ensures n != 0 ==> Atoi(LookupEnv(env, key)) == IntParse(n, true)
    ensures Atoi(LookupEnv(env, key)).ok ==> n == Atoi(LookupEnv(env, key)).value
    ensures !Atoi(LookupEnv(env, key)).ok ==> n == 0
  {
    var v := GetEnv(env, key, []);
    if v != [] && Atoi(v).ok then Atoi(v).value else 0
  }

  /** A count written in decimal overrides the default. */
  lemma PlayerCountOverride(env: Env, key: Bytes, n: int64)
    requires key in env && env[key] == Decimal(n)
    ensures PlayerCount(env, key) == n
  {
    AtoiDecimal(n);
  }

  /** An unset variable, or one that is not an optional sign and digits, keeps the default 0. */
  lemma PlayerCountDefault(env: Env, key: Bytes)
    requires var v := LookupEnv(env, key);
             var digits := if v != [] && (v[0] == '-' as int || v[0] == '+' as int) then v[1..] else v;
             |v| < 19 && (digits == [] || exists i :: 0 <= i < |digits| && !IsDigit(digits[i]))
    ensures PlayerCount(env, key) == 0
  {
    AtoiRejectsNonNumeric(LookupEnv(env, key));
  }

  /** The separator of the PLAYER_SAMPLE list: `|` if there is one, else `,`. */
  function SampleSeparator(s: Bytes): byte
  {
    if '|' as int in s then '|' as int else ',' as int
  }

  /** The raw pieces of the PLAYER_SAMPLE list. */
  function SampleParts(s: Bytes): (parts: seq<Bytes>)
    ensures |parts| >= 1
    ensures forall k :: 0 <= k < |parts| ==> SampleSeparator(s) !in parts[k]
  {
    Split(s, SampleSeparator(s))
  }

  /** The pieces, joined with the separator chosen, give back the list. */
  lemma SamplePartsJoin(s: Bytes)
    ensures Join(SampleParts(s), SampleSeparator(s)) == s
  {
    SplitJoin(s, SampleSeparator(s));
  }

  /** One piece, trimmed and cut to its first 32 bytes. */
  function CleanEntry(p: Bytes): Bytes
  {
    var t := TrimSpace(p);
    if |t| > MaxNameLength then t[..MaxNameLength] else t
  }

  /**
   * A cleaned piece is empty exactly when the piece is all white space;
   * otherwise it does not start with a white-space character, and it is the
   * trimmed piece or, when that is longer than 32 bytes, its first 32 bytes.
   */
  lemma CleanEntryShape(p: Bytes)
    ensures |CleanEntry(p)| <= MaxNameLength
    ensures CleanEntry(p) == [] <==> TrimSpace(p) == []
    ensures CleanEntry(p) == [] <==> Blank(p)
    ensures LeadingSpace(CleanEntry(p)) == 0
    ensures HasPrefix(TrimSpace(p), CleanEntry(p))
    ensures |TrimSpace(p)| <= MaxNameLength ==> CleanEntry(p) == TrimSpace(p)
  {
    TrimSpaceShape(p);
    TrimSpaceEmpty(p);
    var t := TrimSpace(p);
    if |t| > MaxNameLength && LeadingSpace(t[..MaxNameLength]) > 0 {
      LeadingSpaceOfPrefix(t, MaxNameLength);
    }
  }

  /** The entries the cleaning loop collects from `parts`, in order: every piece that is not blank. */
  function Cleaned(parts: seq<Bytes>): seq<Bytes>
  {
    if parts == [] then []
    else
      var last := parts[|parts| - 1];
      Cleaned(parts[..|parts| - 1]) + (if TrimSpace(last) == [] then [] else [CleanEntry(last)])
  }

  /** No more entries than pieces, each of 1 to 32 bytes and not starting with a white-space character. */
  lemma {:induction false} CleanedShape(parts: seq<Bytes>)
    ensures |Cleaned(parts)| <= |parts|
    ensures forall k :: 0 <= k < |Cleaned(parts)| ==>
              1 <= |Cleaned(parts)[k]| <= MaxNameLength && LeadingSpace(Cleaned(parts)[k]) == 0
    decreases |parts|
  {
    if parts != [] {
      var init := parts[..|parts| - 1];
      var last := parts[|parts| - 1];
      var tail := if TrimSpace(last) == [] then [] else [CleanEntry(last)];
      assert Cleaned(parts) == Cleaned(init) + tail;
      CleanedShape(init);
      CleanEntryShape(last);
    }
  }

  /** Every entry comes from a piece that is not blank. */
  lemma {:induction false} EntriesFromParts(parts: seq<Bytes>)
    ensures forall e :: e in Cleaned(parts) ==>
              exists j :: 0 <= j < |parts| && TrimSpace(parts[j]) != [] && e == CleanEntry(parts[j])
    decreases |parts|
  {
    if parts != [] {
      var init := parts[..|parts| - 1];
      var last := parts[|parts| - 1];
      var tail := if TrimSpace(last) == [] then [] else [CleanEntry(last)];
      assert Cleaned(parts) == Cleaned(init) + tail;
      EntriesFromParts(init);
      forall e | e in Cleaned(parts)
        ensures exists j :: 0 <= j < |parts| && TrimSpace(parts[j]) != [] && e == CleanEntry(parts[j])
      {
        if e in Cleaned(init) {
          var j :| 0 <= j < |init| && TrimSpace(init[j]) != [] && e == CleanEntry(init[j]);
          assert parts[j] == init[j];
        } else {
          assert TrimSpace(parts[|init|]) != [] && e == CleanEntry(parts[|init|]);
        }
      }
    }
  }

  /** Cleaning works piece by piece: the entries of two lists of pieces are the entries of each. */
  lemma {:induction false} CleanedAppend(a: seq<Bytes>, b: seq<Bytes>)
    ensures Cleaned(a + b) == Cleaned(a) + Cleaned(b)
    decreases |b|
  {
    if b == [] {
      assert a + b == a;
    } else {
      var front := b[..|b| - 1];
      var last := b[|b| - 1];
      assert (a + b)[..|a + b| - 1] == a + front;
      assert (a + b)[|a + b| - 1] == last;
      CleanedAppend(a, front);
    }
  }

  /**
   * A piece that is not blank gives an entry, and keeps its place: it is the
   * entry after those of the pieces before it.
   */
  lemma PartGivesEntry(parts: seq<Bytes>, j: nat)
    requires j < |parts| && TrimSpace(parts[j]) != []
    ensures |Cleaned(parts[..j])| < |Cleaned(parts)|
    ensures Cleaned(parts)[|Cleaned(parts[..j])|] == CleanEntry(parts[j])
  {
    assert parts == parts[..j + 1] + parts[j + 1..];
    CleanedAppend(parts[..j + 1], parts[j + 1..]);
    assert parts[..j + 1][..j] == parts[..j];
  }

  /** A name between a no-break space and an ideographic space is trimmed to the name. */
  lemma UnicodeSpaceTrimmed()
    ensures CleanEntry([0xC2, 0xA0, 0x41, 0xE3, 0x80, 0x80]) == [0x41]
  {
    var p: Bytes := [0xC2, 0xA0, 0x41, 0xE3, 0x80, 0x80];
    var q: Bytes := [0x41, 0xE3, 0x80, 0x80];
    assert LeadingSpace(p) == 2 && p[2..] == q;
    assert LeadingSpace(q) == 0;
    assert TrimLeft(p) == q;
    assert TrailingSpace(q) == 3 && q[..1] == [0x41];
    assert TrailingSpace([0x41]) == 0;
    assert TrimSpace(p) == [0x41];
  }

  /** A `PLAYER_SAMPLE` of only a no-break space leaves no entry, so no sample is sent. */
  lemma NoBreakSpaceSkipped()
    ensures Cleaned(SampleParts([0xC2, 0xA0])) == []
  {
    var nbsp: Bytes := [0xC2, 0xA0];
    assert '|' as int !in nbsp && ',' as int !in nbsp;
    assert SampleParts(nbsp) == [nbsp];
    assert LeadingSpace(nbsp) == 2 && nbsp[2..] == [];
    assert TrimSpace(nbsp) == [];
    assert [nbsp][..0] == [];
  }

  /** The cleaning loop: one pass over the pieces, appending each non-blank one. */
  method CleanEntries(parts: seq<Bytes>) returns (entries: seq<Bytes>)
    ensures entries == Cleaned(parts)
  {
    entries := [];
    for i := 0 to |parts|
      invariant entries == Cleaned(parts[..i])
    {
      var p := TrimSpace(parts[i]);
      assert parts[..i + 1][..i] == parts[..i];
      if p == [] {
        continue;
      }
      if |p| > MaxNameLength {
        p := p[..MaxNameLength];
      }
      entries := entries + [p];
    }
    assert parts[..|parts|] == parts;
  }

  /**
   * `r.Shuffle(len(entries), swap)`: for i from n-1 down to 1, swap entry i
   * with entry `j` in 0..i, where `draw(i)` stands in for the random source.
   */
  method Shuffle(a: array<Bytes>, draw: nat -> nat)
    modifies a
    ensures multiset(a[..]) == multiset(old(a[..]))
  {
    var i := a.Length - 1;
    while i > 0
      invariant i < a.Length
      invariant multiset(a[..]) == multiset(old(a[..]))
    {
      var j := draw(i) % (i + 1);
      a[i], a[j] := a[j], a[i];
      i := i - 1;
    }
  }

  /** The names shown by a sample list. */
  function Names(samples: seq<Sample>): (names: seq<Bytes>)
    ensures |names| == |samples| && forall k :: 0 <= k < |samples| ==> names[k] == samples[k].name
  {
    if samples == [] then [] else Names(samples[..|samples| - 1]) + [samples[|samples| - 1].name]
  }

  /** The first `min(5, n)` shuffled entries, each with the dummy id. */
  method TakeSamples(a: array<Bytes>) returns (samples: seq<Sample>)
    ensures |samples| == Min(MaxSamples, a.Length)
    ensures forall k :: 0 <= k < |samples| ==> samples[k] == Sample(a[k], DummyId)
  {
    var count := MaxSamples;
    if a.Length < count {
      count := a.Length;
    }
    samples := [];
    for i := 0 to count
      invariant |samples| == i
      invariant forall k :: 0 <= k < i ==> samples[k] == Sample(a[k], DummyId)
    {
      samples := samples + [Sample(a[i], DummyId)];
    }
  }

  /**
   * What the sample list promises for a PLAYER_SAMPLE value `v`: no list
   * when no entry survives cleaning; otherwise `min(5, n)` entries, all with
   * the dummy id, whose names are distinct positions of the cleaned entries
   * (a sub-multiset; duplicates in the list are kept).
   */
  predicate SampleFits(v: Bytes, sample: Option<seq<Sample>>)
  {
    var entries := Cleaned(SampleParts(v));
    (sample.None? <==> entries == []) &&
    (sample.Some? ==>
      |sample.value| == Min(MaxSamples, |entries|) &&
      (forall k :: 0 <= k < |sample.value| ==> sample.value[k].id == DummyId) &&
      multiset(Names(sample.value)) <= multiset(entries))
  }

  /** A blank PLAYER_SAMPLE leaves no entries. */
  lemma NoEntriesWhenUnset()
    ensures Cleaned(SampleParts([])) == []
  {
    assert SampleParts([]) == [[]];
    assert Cleaned([[]]) == Cleaned([]) + [];
  }

  /** The first `n` elements of a permutation of `entries` are distinct positions of `entries`. */
  lemma PrefixOfPermutation<T>(entries: seq<T>, shuffled: seq<T>, n: nat)
    requires multiset(shuffled) == multiset(entries) && n <= |shuffled|
    ensures multiset(shuffled[..n]) <= multiset(entries)
  {
    assert shuffled == shuffled[..n] + shuffled[n..];
  }

  /**
   * Shuffling the entries and keeping the first five: `min(5, n)` samples
   * with the dummy id, whose names are distinct positions of `entries`.
   */
  method SampleEntries(entries: seq<Bytes>, draw: nat -> nat) returns (samples: seq<Sample>)
    ensures |samples| == Min(MaxSamples, |entries|)
    ensures forall k :: 0 <= k < |samples| ==> samples[k].id == DummyId
    ensures multiset(Names(samples)) <= multiset(entries)
  {
    var a := new Bytes[|entries|](k requires 0 <= k < |entries| => entries[k]);
    assert a[..] == entries;
    Shuffle(a, draw);
    samples := TakeSamples(a);
    PrefixOfPermutation(entries, a[..], |samples|);
    assert Names(samples) == a[..][..|samples|];
  }

  /** Local helper of PlayerSample: no entries means no sample list. */
  lemma FitsNone(v: Bytes)
    requires Cleaned(SampleParts(v)) == []
    ensures SampleFits(v, None)
  {
  }

  /** Local helper of PlayerSample: the drawn samples make a fitting sample list. */
  lemma FitsSome(v: Bytes, samples: seq<Sample>)
    requires Cleaned(SampleParts(v)) != []
    requires |samples| == Min(MaxSamples, |Cleaned(SampleParts(v))|)
    requires forall k :: 0 <= k < |samples| ==> samples[k].id == DummyId
    requires multiset(Names(samples)) <= multiset(Cleaned(SampleParts(v)))
    ensures SampleFits(v, Some(samples))
  {
  }

  /** The sampling part of `handleStatusRequest`. */
  method PlayerSample(env: Env, draw: nat -> nat) returns (sample: Option<seq<Sample>>)
    ensures SampleFits(LookupEnv(env, PlayerSampleKey), sample)
  {
    var v := GetEnv(env, PlayerSampleKey, []);
    assert v == LookupEnv(env, PlayerSampleKey);
    if v == [] {
      NoEntriesWhenUnset();
      FitsNone(v);
      return None;
    }
    var entries := CleanEntries(SampleParts(v));
    if |entries| == 0 {
      FitsNone(v);
      return None;
    }
    var samples := SampleEntries(entries, draw);
    FitsSome(v, samples);
    sample := Some(samples);
  }

  /** `fmt.Sprintf("proxy-%d", protocol)`: the protocol number reads back from the version name. */
  function VersionName(protocol: int32): (name: Bytes)
    ensures HasPrefix(name, Ascii("proxy-"))
    ensures Atoi(name[6..]) == IntParse(protocol, true)
  {
    var name := Ascii("proxy-") + Decimal(protocol);
    assert name[6..] == Decimal(protocol);
    AtoiDecimal(protocol);
    name
  }

  const DataPrefix: Bytes := Ascii("data:")
  const PngPrefix: Bytes := Ascii("data:image/png;base64,")

  /**
   * The favicon from FAVICON_BASE64: kept as it is when it is already a
   * `data:` URL, otherwise made a PNG data URL.
   */
  function FaviconData(fb: Bytes): (r: Bytes)
    ensures r == [] <==> fb == []
    ensures r != [] ==> HasPrefix(r, DataPrefix)
    ensures |fb| <= |r| && r[|r| - |fb|..] == fb
  {
    if fb == [] then []
    else if HasPrefix(fb, DataPrefix) then fb
    else PngPrefix + fb
  }

  /** Prefixing is idempotent: a data URL is not prefixed again. */
  lemma FaviconDataIdempotent(fb: Bytes)
    ensures FaviconData(FaviconData(fb)) == FaviconData(fb)
  {
    if fb != [] && !HasPrefix(fb, DataPrefix) {
      assert (PngPrefix + fb)[..|DataPrefix|] == PngPrefix[..|DataPrefix|];
    }
  }

  /**
   * The favicon chosen at startup: FAVICON_BASE64 if set, else the file at
   * FAVICON_PATH, where `readBase64(path)` is the base64 text of the file or
   * None when it cannot be read.
   */
  function StartupFavicon(env: Env, readBase64: Bytes -> Option<Bytes>): (r: Bytes)
    ensures LookupEnv(env, Ascii("FAVICON_BASE64")) != [] ==> r == FaviconData(LookupEnv(env, Ascii("FAVICON_BASE64")))
    ensures r != [] ==> HasPrefix(r, DataPrefix)
  {
    var fb := GetEnv(env, Ascii("FAVICON_BASE64"), []);
    var fp := GetEnv(env, Ascii("FAVICON_PATH"), []);
    if fb != [] then FaviconData(fb)
    else if fp != [] then
      match readBase64(fp)
      case Some(data) => PngPrefix + data
      case None => []
    else []
  }

  /** The record `handleStatusRequest` marshals, given the sample list it drew. */
  function BuildStatus(motd: Bytes, env: Env, sample: Option<seq<Sample>>, favicon: Bytes, protocol: int32): (r: StatusRecord)
    ensures r.description == motd && r.sample == sample && r.versionProtocol == protocol
    ensures Atoi(LookupEnv(env, PlayersMaxKey)).ok ==> r.max == Atoi(LookupEnv(env, PlayersMaxKey)).value
    ensures !Atoi(LookupEnv(env, PlayersMaxKey)).ok ==> r.max == 0
    ensures Atoi(LookupEnv(env, PlayersOnlineKey)).ok ==> r.online == Atoi(LookupEnv(env, PlayersOnlineKey)).value
    ensures !Atoi(LookupEnv(env, PlayersOnlineKey)).ok ==> r.online == 0
    ensures r.favicon.None? <==> favicon == []
    ensures r.favicon.Some? ==> r.favicon.value == favicon
    ensures HasPrefix(r.versionName, Ascii("proxy-")) && Atoi(r.versionName[6..]) == IntParse(protocol, true)
  {
    StatusRecord(
      motd,
      PlayerCount(env, PlayersMaxKey),
      PlayerCount(env, PlayersOnlineKey),
      sample,
      if favicon != [] then Some(favicon) else None,
      VersionName(protocol),
      protocol)
  }
}
