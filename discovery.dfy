/**
 * Program details from the course-discovery service: the cached lookup of
 * `DiscoveryProgram` in registrar/apps/core/data.py (and its twin in
 * registrar/apps/core/proxies.py, which adds the cache flush
 * `clear_cached_program_details`, registrar/apps/core/proxies.py:97-109) and
 * the properties derived from the details.  The HTTP response is a parameter of
 * the lookup: None stands for an HTTPError, Some(j) for a decoded body.
 * Cache entries are keyed by program uuid and do not expire here.
 */
module Discovery {
  import opened Wrappers
  import opened Json
  import Filestore
  import Text

  const ProgramApiPrefix: string := "api/v1/programs/"

  /** `urljoin(DISCOVERY_BASE_URL, 'api/v1/programs/{}/'.format(uuid))` with posixpath's join. */
  function ProgramUrl(baseUrl: string, programUuid: string): string
  {
    Filestore.PosixJoin(baseUrl, ProgramApiPrefix + programUuid + "/")
  }

  /** What the lookup caches after fetching: the body if it is a dict, else an empty dict. */
  function CacheValue(fetched: Option<Json>): (v: Json)
    ensures v.JObject?
    ensures fetched.Some? && fetched.value.JObject? ==> v == fetched.value
    ensures !(fetched.Some? && fetched.value.JObject?) ==> v == JObject(map[])
  {
    if fetched.Some? && fetched.value.JObject? then fetched.value else JObject(map[])
  }

  /** The Python value of a fetch result: the body, or None after an HTTPError. */
  function FetchedValue(fetched: Option<Json>): Json
  {
    if fetched.Some? then fetched.value else JNull
  }

  class ProgramDetailsCache {
    var entries: map<string, Json>
    var fetchedUrls: seq<string>
    var exceptionsLogged: nat
    const discoveryBaseUrl: string

    constructor (discoveryBaseUrl: string)
      ensures entries == map[] && fetchedUrls == [] && exceptionsLogged == 0
      ensures this.discoveryBaseUrl == discoveryBaseUrl
    {
      entries := map[];
      fetchedUrls := [];
      exceptionsLogged := 0;
      this.discoveryBaseUrl := discoveryBaseUrl;
    }

    /** A lookup is answered from the cache when it holds a dict for the uuid. */
    predicate IsCached(programUuid: string)
      reads this
    {
      programUuid in entries && entries[programUuid].JObject?
    }

    /** `_fetch_discovery_program_data`: one request; an HTTPError is logged and gives None. */
    method Fetch(programUuid: string, fetched: Option<Json>) returns (r: Json)
      modifies this
      ensures r == FetchedValue(fetched)
      ensures fetchedUrls == old(fetchedUrls) + [ProgramUrl(discoveryBaseUrl, programUuid)]
      ensures exceptionsLogged == old(exceptionsLogged) + (if fetched.None? then 1 else 0)
      ensures entries == old(entries)
    {
      fetchedUrls := fetchedUrls + [ProgramUrl(discoveryBaseUrl, programUuid)];
      if fetched.None? {
        exceptionsLogged := exceptionsLogged + 1;
      }
      r := FetchedValue(fetched);
    }

    /**
     * `get_program_data` as written: a cached dict is returned without a
     * request; on a miss the fetched value is cached if it is a dict (else
     * `{}` is cached) and the fetched value itself is returned.
     */
    method GetProgramDataAsWritten(programUuid: string, fetched: Option<Json>) returns (r: Json)
      modifies this
      ensures old(IsCached(programUuid)) ==> r == old(entries[programUuid]) && unchanged(this)
      ensures !old(IsCached(programUuid)) ==>
        && r == FetchedValue(fetched)
        && entries == old(entries)[programUuid := CacheValue(fetched)]
        && fetchedUrls == old(fetchedUrls) + [ProgramUrl(discoveryBaseUrl, programUuid)]
    {
      if IsCached(programUuid) {
        return entries[programUuid];
      }
      r := Fetch(programUuid, fetched);
      entries := entries[programUuid := CacheValue(fetched)];
    }

    /** `get_program_data` returning what it caches, so the result is always a dict. */
    method GetProgramData(programUuid: string, fetched: Option<Json>) returns (r: Json)
      modifies this
      ensures r.JObject?
      ensures old(IsCached(programUuid)) ==> r == old(entries[programUuid]) && unchanged(this)
      ensures !old(IsCached(programUuid)) ==>
        && r == CacheValue(fetched)
        && entries == old(entries)[programUuid := r]
        && fetchedUrls == old(fetchedUrls) + [ProgramUrl(discoveryBaseUrl, programUuid)]
      ensures IsCached(programUuid) && entries[programUuid] == r
    {
      if IsCached(programUuid) {
        return entries[programUuid];
      }
      var _ := Fetch(programUuid, fetched);
      r := CacheValue(fetched);
      entries := entries[programUuid := r];
    }

    /** `clear_cached_program_details`: exactly the given uuids are dropped. */
    method ClearCachedProgramDetails(programUuids: seq<string>)
      modifies this
      ensures entries == old(entries) - set u | u in programUuids
      ensures forall u :: u in old(entries) && u !in programUuids ==> u in entries && entries[u] == old(entries)[u]
      ensures fetchedUrls == old(fetchedUrls) && exceptionsLogged == old(exceptionsLogged)
    {
      entries := entries - set u | u in programUuids;
    }
  }

  /**
   * On a miss whose request fails, the lookup as written answers None (not
   * the `{}` it caches), and so does a miss whose body is not a dict; the
   * corrected lookup answers `{}` in both cases.
   */
  lemma FailedMissAnswersNone(body: Json)
    requires !body.JObject?
    ensures FetchedValue(None) == JNull && FetchedValue(Some(body)) == body
    ensures !FetchedValue(None).JObject? && !FetchedValue(Some(body)).JObject?
    ensures CacheValue(None) == CacheValue(Some(body)) == JObject(map[])
  {
  }

  /** A second lookup after any first one is a cache hit, so there is at most one request per uuid. */
  lemma SecondLookupIsCached(entries: map<string, Json>, programUuid: string, fetched: Option<Json>)
    ensures var e := entries[programUuid := CacheValue(fetched)];
      programUuid in e && e[programUuid].JObject?
  {
  }

  // Derived properties.

  /** `title`: `details.get('title', key)`. */
  function Title(details: Json, key: string): (r: Result<Json, PyError>)
    ensures details.JObject? && "title" !in details.fields ==> r == Ok(JStr(key))
    ensures details.JObject? && "title" in details.fields ==> r == Ok(details.fields["title"])
    ensures !details.JObject? ==> r.Err?
  {
    Get(details, "title", JStr(key))
  }

  /** `url`: the 'marketing_url' field, or None. */
  function Url(details: Json): (r: Result<Json, PyError>)
    ensures details.JObject? && "marketing_url" in details.fields ==> r == Ok(details.fields["marketing_url"])
    ensures details.JObject? && "marketing_url" !in details.fields ==> r == Ok(JNull)
    ensures !details.JObject? ==> r == Err(AttributeError)
  {
    Get(details, "marketing_url", JNull)
  }

  /** `is_enrollment_enabled`: the discovery 'type' is 'Masters'. */
  function IsEnrollmentEnabled(details: Json): (r: Result<bool, PyError>)
    ensures r.Ok? <==> details.JObject?
    ensures r.Ok? ==> (r.value <==> "type" in details.fields && details.fields["type"] == JStr("Masters"))
  {
    GetEquals(details, "type", JStr("Masters"))
  }

  /** Every element before `n` is a dict whose 'is_active' is falsy. */
  predicate InactiveBefore(curricula: seq<Json>, n: int)
    requires n <= |curricula|
  {
    forall k :: 0 <= k < n ==> curricula[k].JObject? && !Truthy(Get(curricula[k], "is_active", JNull).value)
  }

  /**
   * `next(c for c in curricula if c.get('is_active'))`, falling back to `{}`
   * on StopIteration; a non-dict element met first raises AttributeError.
   */
  function FirstActive(curricula: seq<Json>): (r: Result<Json, PyError>)
    ensures r.Ok? ==> r.value.JObject?
    ensures r.Err? <==> exists i :: 0 <= i < |curricula| && !curricula[i].JObject? && InactiveBefore(curricula, i)
    ensures r.Err? ==> r.error == AttributeError
    ensures r == Ok(JObject(map[])) <==> InactiveBefore(curricula, |curricula|)
    ensures r.Ok? && r.value != JObject(map[]) ==>
      exists i :: (0 <= i < |curricula| && curricula[i] == r.value && curricula[i].JObject? &&
                   Truthy(Get(curricula[i], "is_active", JNull).value) && InactiveBefore(curricula, i))
  {
    if curricula == [] then Ok(JObject(map[]))
    else
      var c := curricula[0];
      match Get(c, "is_active", JNull)
      case Err(e) => Err(e)
      case Ok(active) =>
        if Truthy(active) then Ok(c)
        else
          var r := FirstActive(curricula[1..]);
          assert forall i :: 0 <= i < |curricula| - 1 ==> curricula[1..][i] == curricula[i + 1];
          assert forall n :: 0 <= n < |curricula| ==> (InactiveBefore(curricula[1..], n) <==> InactiveBefore(curricula, n + 1));
          if r.Ok? && r.value != JObject(map[]) then
            var i :| (0 <= i < |curricula[1..]| && curricula[1..][i] == r.value && curricula[1..][i].JObject? &&
                      Truthy(Get(curricula[1..][i], "is_active", JNull).value) && InactiveBefore(curricula[1..], i));
            assert InactiveBefore(curricula, i + 1);
            r
          else if r.Err? then
            var i :| 0 <= i < |curricula[1..]| && !curricula[1..][i].JObject? && InactiveBefore(curricula[1..], i);
            assert InactiveBefore(curricula, i + 1);
            r
          else r
  }

  /** `active_curriculum_data`: the first active curriculum of the details, or `{}`. */
  function ActiveCurriculum(details: Json): (r: Result<Json, PyError>)
    ensures r.Ok? ==> r.value.JObject?
    ensures !details.JObject? ==> r == Err(AttributeError)
    ensures r == Err(TypeError) <==>
      details.JObject? && "curricula" in details.fields &&
      (details.fields["curricula"].JNull? || details.fields["curricula"].JBool? || details.fields["curricula"].JNum?)
    ensures r.Err? ==> r.error == TypeError || r.error == AttributeError
  {
    match Get(details, "curricula", JList([]))
    case Err(e) => Err(e)
    case Ok(curricula) =>
      match Elements(curricula)
      case Err(e) => Err(e)
      case Ok(items) => FirstActive(items)
  }

  /** Details without curricula have no active curriculum. */
  lemma NoCurriculaNoActive(details: Json)
    requires details.JObject? && "curricula" !in details.fields
    ensures ActiveCurriculum(details) == Ok(JObject(map[]))
  {
  }

  /** The first active curriculum wins, whatever comes after it. */
  lemma {:induction false} FirstActiveWins(curricula: seq<Json>, i: nat)
    requires i < |curricula|
    requires curricula[i].JObject? && Truthy(Get(curricula[i], "is_active", JNull).value)
    requires InactiveBefore(curricula, i)
    ensures FirstActive(curricula) == Ok(curricula[i])
  {
    if i > 0 {
      assert InactiveBefore(curricula[1..], i - 1);
      FirstActiveWins(curricula[1..], i - 1);
    }
  }

  predicate IsHexDigit(c: char)
  {
    ('0' <= c <= '9') || ('a' <= c <= 'f') || ('A' <= c <= 'F')
  }

  function LowerHex(c: char): (d: char)
    requires IsHexDigit(c)
    ensures ('0' <= d <= '9') || ('a' <= d <= 'f')
  {
    if 'A' <= c <= 'F' then (c as int - 'A' as int + 'a' as int) as char else c
  }

  /** A string of hex digits, lower-cased. */
  function LowerHexString(h: string): (r: string)
    requires forall i :: 0 <= i < |h| ==> IsHexDigit(h[i])
    ensures |r| == |h| && forall i :: 0 <= i < |h| ==> r[i] == LowerHex(h[i])
  {
    seq(|h|, i requires 0 <= i < |h| => LowerHex(h[i]))
  }

  /** `s.replace(pat, '')`: every non-overlapping occurrence, left to right, removed. */
  function RemoveAll(s: string, pat: string): (r: string)
    requires |pat| > 0
    ensures |r| <= |s|
    decreases |s|
  {
    if |s| < |pat| then s
    else if s[..|pat|] == pat then RemoveAll(s[|pat|..], pat)
    else [s[0]] + RemoveAll(s[1..], pat)
  }

  /** Removing a character that does not occur changes nothing. */
  lemma {:induction false} RemoveAbsent(s: string, c: char)
    requires c !in s
    ensures RemoveAll(s, [c]) == s
    decreases |s|
  {
    if |s| >= 1 {
      assert s[..1] == [s[0]];
      RemoveAbsent(s[1..], c);
      assert [s[0]] + s[1..] == s;
    }
  }

  predicate IsBrace(c: char)
  {
    c == '{' || c == '}'
  }

  /** `s.strip('{}')`. */
  function StripBraces(s: string): (r: string)
    ensures |r| <= |s|
    ensures |s| > 0 && !IsBrace(s[0]) && !IsBrace(s[|s| - 1]) ==> r == s
    decreases |s|
  {
    if |s| > 0 && IsBrace(s[0]) then StripBraces(s[1..])
    else if |s| > 0 && IsBrace(s[|s| - 1]) then StripBraces(s[..|s| - 1])
    else s
  }

  /** The hex digits `UUID(s)` reads: prefixes, braces and hyphens removed. */
  function UuidHex(s: string): string
  {
    RemoveAll(StripBraces(RemoveAll(RemoveAll(s, "urn:"), "uuid:")), "-")
  }

  predicate IsUuidHex(h: string)
  {
    |h| == 32 && forall i :: 0 <= i < |h| ==> IsHexDigit(h[i])
  }

  predicate IsLowerHexDigit(c: char)
  {
    ('0' <= c <= '9') || ('a' <= c <= 'f')
  }

  function DigitValue(c: char): (d: nat)
    requires IsHexDigit(c)
    ensures d < 16
  {
    if '0' <= c <= '9' then c as int - '0' as int
    else if 'a' <= c <= 'f' then c as int - 'a' as int + 10
    else c as int - 'A' as int + 10
  }

  function HexChar(d: nat): (c: char)
    requires d < 16
    ensures IsLowerHexDigit(c)
  {
    if d < 10 then ('0' as int + d) as char else ('a' as int + d - 10) as char
  }

  function Pow16(n: nat): (p: nat)
    ensures p >= 1
  {
    if n == 0 then 1 else 16 * Pow16(n - 1)
  }

  /** The number a string of hex digits denotes, most significant digit first. */
  function HexValue(s: string): nat
    requires forall i :: 0 <= i < |s| ==> IsHexDigit(s[i])
  {
    if s == [] then 0 else HexValue(s[..|s| - 1]) * 16 + DigitValue(s[|s| - 1])
  }

  /** `'%0*x' % (n, v)` for a value below `16 ** n`: exactly n lower-case hex digits of v. */
  function Format(n: nat, v: nat): (r: string)
    ensures |r| == n
    ensures forall i :: 0 <= i < n ==> IsLowerHexDigit(r[i])
  {
    if n == 0 then "" else Format(n - 1, v / 16) + [HexChar(v % 16)]
  }

  /**
   * The digit part of a Python integer literal: hex digits with single
   * underscores between them, none first and none last.
   */
  predicate IsUnderscoredHex(u: string)
  {
    && |u| > 0 && IsHexDigit(u[0]) && IsHexDigit(u[|u| - 1])
    && (forall i :: 0 <= i < |u| ==> IsHexDigit(u[i]) || u[i] == '_')
    && (forall i :: 0 <= i < |u| - 1 ==> u[i] == '_' ==> u[i + 1] != '_')
  }

  /** The digits of a literal with its underscores dropped. */
  function DigitsOf(u: string): (d: string)
    requires forall i :: 0 <= i < |u| ==> IsHexDigit(u[i]) || u[i] == '_'
    ensures |d| <= |u|
    ensures forall i :: 0 <= i < |d| ==> IsHexDigit(d[i])
    ensures (forall i :: 0 <= i < |u| ==> IsHexDigit(u[i])) ==> d == u
  {
    if u == [] then [] else (if u[0] == '_' then [] else [u[0]]) + DigitsOf(u[1..])
  }

  /** The literal `int(t, 16)` reads once the whitespace and the sign are gone: after an optional `0x`, and one `_` after it. */
  function LiteralBody(unsigned: string): (body: string)
    ensures |body| <= |unsigned|
  {
    if |unsigned| >= 2 && unsigned[0] == '0' && (unsigned[1] == 'x' || unsigned[1] == 'X') then
      if |unsigned| >= 3 && unsigned[2] == '_' then unsigned[3..] else unsigned[2..]
    else unsigned
  }

  /**
   * `int(h, 16)` on a string: surrounding whitespace, a `+` sign, a `0x`
   * prefix and single underscores between digits are accepted; anything
   * else raises ValueError (None).  A `-` sign cannot reach it here, since
   * `UUID` has removed every hyphen.
   */
  function HexInt(h: string): (r: Option<nat>)
    ensures r.Some? <==> IsUnderscoredHex(LiteralBody(var t := Text.Strip(h); if |t| > 0 && t[0] == '+' then t[1..] else t))
    ensures r.Some? ==> r.value < Pow16(|h|)
  {
    var t := Text.Strip(h);
    var body := LiteralBody(if |t| > 0 && t[0] == '+' then t[1..] else t);
    if IsUnderscoredHex(body) then
      var d := DigitsOf(body);
      HexValueBound(d);
      Pow16Monotone(|d|, |h|);
      Some(HexValue(d))
    else None
  }

  /** `UUID(s)` for a string: its 32 lower-case hex digits, or None where it raises ValueError. */
  function ParseUuid(s: string): (r: Option<string>)
    ensures r.Some? <==> |UuidHex(s)| == 32 && HexInt(UuidHex(s)).Some?
    ensures r.Some? ==> Format(32, HexInt(UuidHex(s)).value) == r.value
    ensures r.Some? ==> |r.value| == 32 && forall i :: 0 <= i < 32 ==> IsLowerHexDigit(r.value[i])
  {
    var h := UuidHex(s);
    if |h| != 32 then None
    else match HexInt(h)
      case None => None
      case Some(v) => if v < Pow16(32) then Some(Format(32, v)) else None
  }

  /** A uuid string whose digits, once prefixes, braces and hyphens are removed, are 32 plain hex digits reads as those digits lower-cased. */
  lemma ParseUuidPlain(s: string)
    requires IsUuidHex(UuidHex(s))
    ensures ParseUuid(s) == Some(LowerHexString(UuidHex(s)))
  {
    var h := UuidHex(s);
    PlainHexValue(h);
    HexValueBound(h);
    ParseUuidOfValue(s, HexValue(h));
  }

  /** 32 plain hex digits are read as themselves: `int(h, 16)` is their value, formatted back as the digits lower-cased. */
  lemma PlainHexValue(h: string)
    requires IsUuidHex(h)
    ensures HexInt(h) == Some(HexValue(h))
    ensures Format(32, HexValue(h)) == LowerHexString(h)
  {
    assert !Text.IsPySpace(h[0]) && !Text.IsPySpace(h[|h| - 1]) by { assert IsHexDigit(h[0]) && IsHexDigit(h[|h| - 1]); }
    assert Text.Strip(h) == h && h[0] != '+';
    assert IsHexDigit(h[0]) && IsHexDigit(h[1]);
    assert LiteralBody(h) == h;
    HexIntOfDigits(h, h);
    FormatPadded(0, h);
    assert seq(0, i => '0') + LowerHexString(h) == LowerHexString(h);
  }

  lemma {:induction false} HexValueBound(s: string)
    requires forall i :: 0 <= i < |s| ==> IsHexDigit(s[i])
    ensures HexValue(s) < Pow16(|s|)
  {
    if s != [] {
      var p := s[..|s| - 1];
      HexValueBound(p);
      assert HexValue(s) <= (Pow16(|p|) - 1) * 16 + 15;
    }
  }

  lemma {:induction false} Pow16Monotone(m: nat, n: nat)
    requires m <= n
    ensures Pow16(m) <= Pow16(n)
    decreases n
  {
    if m < n { Pow16Monotone(m, n - 1); }
  }

  lemma HexCharOfDigit(c: char)
    requires IsHexDigit(c)
    ensures HexChar(DigitValue(c)) == LowerHex(c)
  {
  }

  /** Formatting the value of k + |s| digits' worth gives k zeros and then the digits lower-cased. */
  lemma {:induction false} FormatPadded(k: nat, s: string)
    requires forall i :: 0 <= i < |s| ==> IsHexDigit(s[i])
    ensures Format(k + |s|, HexValue(s)) == seq(k, i => '0') + LowerHexString(s)
    decreases |s| + k
  {
    if s == [] {
      if k > 0 {
        FormatPadded(k - 1, s);
        assert seq(k, i => '0') == seq(k - 1, i => '0') + ['0'];
      }
    } else {
      var p := s[..|s| - 1];
      var c := s[|s| - 1];
      var v := HexValue(s);
      assert v == HexValue(p) * 16 + DigitValue(c);
      assert v / 16 == HexValue(p) && v % 16 == DigitValue(c);
      FormatPadded(k, p);
      HexCharOfDigit(c);
      assert LowerHexString(s) == LowerHexString(p) + [LowerHex(c)];
    }
  }

  /** Thirty-two hex digits with nothing around them are read as they are. */
  lemma ParsePlainHex(s: string)
    requires IsUuidHex(s)
    ensures ParseUuid(s) == Some(LowerHexString(s))
  {
    UuidHexOfDigits(s);
    ParseUuidPlain(s);
  }

  /** Hex digits, possibly after a blank or `0x`, pass the prefix, brace and hyphen removal unchanged. */
  lemma UuidHexOfDigits(s: string)
    requires |s| > 0 && forall i :: 0 <= i < |s| ==> IsHexDigit(s[i]) || s[i] == ' ' || s[i] == 'x'
    requires !IsBrace(s[0])
    ensures UuidHex(s) == s
  {
    assert ':' !in s by {
      forall i | 0 <= i < |s| ensures s[i] != ':' { assert IsHexDigit(s[i]) || s[i] == ' ' || s[i] == 'x'; }
    }
    RemoveNoColon(s, "urn:");
    RemoveNoColon(s, "uuid:");
    assert !IsBrace(s[|s| - 1]) by { assert IsHexDigit(s[|s| - 1]) || s[|s| - 1] == ' ' || s[|s| - 1] == 'x'; }
    assert '-' !in s by {
      forall i | 0 <= i < |s| ensures s[i] != '-' { assert IsHexDigit(s[i]) || s[i] == ' ' || s[i] == 'x'; }
    }
    RemoveAbsent(s, '-');
  }

  /** `int()` skips whitespace, so a blank and 31 digits read as a uuid whose first digit is 0. */
  lemma ParseUuidSkipsBlank(d: string)
    requires |d| == 31 && forall i :: 0 <= i < |d| ==> IsHexDigit(d[i])
    ensures ParseUuid(" " + d) == Some("0" + LowerHexString(d))
  {
    var s := " " + d;
    UuidHexOfDigits(s);
    BlankHexInt(d);
    HexValueBound(d);
    Pow16Monotone(31, 32);
    ParseUuidOfValue(s, HexValue(d));
    FormatOneZero(d);
  }

  /** A uuid whose digits read as the value `v` is `v` formatted in 32 digits. */
  lemma ParseUuidOfValue(s: string, v: nat)
    requires |UuidHex(s)| == 32 && HexInt(UuidHex(s)) == Some(v) && v < Pow16(32)
    ensures ParseUuid(s) == Some(Format(32, v))
  {
  }

  lemma FormatOneZero(d: string)
    requires |d| == 31 && forall i :: 0 <= i < |d| ==> IsHexDigit(d[i])
    ensures Format(32, HexValue(d)) == "0" + LowerHexString(d)
  {
    FormatPadded(1, d);
    assert seq(1, i => '0') == "0";
  }

  lemma FormatTwoZeros(d: string)
    requires |d| == 30 && forall i :: 0 <= i < |d| ==> IsHexDigit(d[i])
    ensures Format(32, HexValue(d)) == "00" + LowerHexString(d)
  {
    FormatPadded(2, d);
    assert seq(2, i => '0') == "00";
  }

  lemma BlankHexInt(d: string)
    requires |d| == 31 && forall i :: 0 <= i < |d| ==> IsHexDigit(d[i])
    ensures HexInt(" " + d) == Some(HexValue(d))
  {
    assert IsHexDigit(d[0]) && IsHexDigit(d[30]);
    Text.StripOneBlank(d);
    PlainLiteralBody(d);
    HexIntOfDigits(" " + d, d);
  }

  /** Digits with no `0x` marker are their own literal body. */
  lemma PlainLiteralBody(d: string)
    requires |d| >= 2 && IsHexDigit(d[0]) && IsHexDigit(d[1])
    ensures d[0] != '+' && LiteralBody(d) == d
  {
  }

  /** When `int(h, 16)`'s literal body is plain hex digits, the value read is theirs. */
  lemma HexIntOfDigits(h: string, d: string)
    requires |d| > 0 && forall i :: 0 <= i < |d| ==> IsHexDigit(d[i])
    requires LiteralBody(var t := Text.Strip(h); if |t| > 0 && t[0] == '+' then t[1..] else t) == d
    ensures HexInt(h) == Some(HexValue(d))
  {
    assert IsUnderscoredHex(d) by { assert IsHexDigit(d[0]) && IsHexDigit(d[|d| - 1]); }
  }

  /** `int(h, 16)` accepts a `0x` prefix, so "0x" and 30 digits read as a uuid whose first two digits are 0. */
  lemma ParseUuidSkipsPrefix(d: string)
    requires |d| == 30 && forall i :: 0 <= i < |d| ==> IsHexDigit(d[i])
    ensures ParseUuid("0x" + d) == Some("00" + LowerHexString(d))
  {
    var s := "0x" + d;
    UuidHexOfDigits(s);
    PrefixHexInt(d);
    HexValueBound(d);
    Pow16Monotone(30, 32);
    ParseUuidOfValue(s, HexValue(d));
    FormatTwoZeros(d);
  }

  lemma PrefixHexInt(d: string)
    requires |d| == 30 && forall i :: 0 <= i < |d| ==> IsHexDigit(d[i])
    ensures HexInt("0x" + d) == Some(HexValue(d))
  {
    var s := "0x" + d;
    assert !Text.IsPySpace(s[0]) && !Text.IsPySpace(s[|s| - 1]) by { assert IsHexDigit(d[29]); }
    assert Text.Strip(s) == s && s[0] != '+';
    assert s[2..] == d;
    assert IsHexDigit(d[0]) && IsHexDigit(d[29]);
    assert LiteralBody(s) == d;
    HexIntOfDigits(s, d);
  }

  /** A pattern ending in ':' never occurs in a string without ':'. */
  lemma {:induction false} RemoveNoColon(s: string, pat: string)
    requires |pat| > 0 && pat[|pat| - 1] == ':'
    requires ':' !in s
    ensures RemoveAll(s, pat) == s
    decreases |s|
  {
    if |s| >= |pat| {
      assert s[..|pat|] != pat by { assert s[..|pat|][|pat| - 1] == s[|pat| - 1]; }
      RemoveNoColon(s[1..], pat);
      assert [s[0]] + s[1..] == s;
    }
  }

  /**
   * `active_curriculum_uuid` (data.py and proxies.py):
   * `UUID(curriculum.get('uuid'))` inside `except (TypeError, ValueError)`.
   * A missing or null uuid (`UUID(None)` raises TypeError) and a malformed
   * one give None, and so do curricula that cannot be iterated, whose
   * TypeError escapes the curriculum lookup into the same `except`.  A uuid
   * that is neither null nor a string makes `UUID` raise AttributeError,
   * which is not caught.
   */
  function ActiveCurriculumUuid(details: Json): (r: Result<Option<string>, PyError>)
    ensures ActiveCurriculum(details) == Err(TypeError) ==> r == Ok(None)
    ensures ActiveCurriculum(details).Err? && ActiveCurriculum(details).error != TypeError ==>
      r == Err(ActiveCurriculum(details).error)
    ensures ActiveCurriculum(details).Ok? ==>
      var c := ActiveCurriculum(details).value;
      ("uuid" !in c.fields || c.fields["uuid"] == JNull ==> r == Ok(None)) &&
      (forall s :: "uuid" in c.fields && c.fields["uuid"] == JStr(s) ==> r == Ok(ParseUuid(s))) &&
      ("uuid" in c.fields && !c.fields["uuid"].JNull? && !c.fields["uuid"].JStr? ==> r == Err(AttributeError))
  {
    match ActiveCurriculum(details)
    case Err(TypeError) => Ok(None)
    case Err(e) => Err(e)
    case Ok(curriculum) =>
      match Get(curriculum, "uuid", JNull)
      case Err(e) => Err(e)
      case Ok(JNull) => Ok(None)
      case Ok(JStr(s)) => Ok(ParseUuid(s))
      case Ok(_) => Err(AttributeError)
  }

  /** Curricula that are null, a number or a boolean cannot be iterated: the uuid is None. */
  lemma UniterableCurriculaNoUuid(details: Json)
    requires details.JObject? && "curricula" in details.fields
    requires var c := details.fields["curricula"]; c.JNull? || c.JBool? || c.JNum?
    ensures ActiveCurriculum(details) == Err(TypeError)
    ensures ActiveCurriculumUuid(details) == Ok(None)
  {
  }

  /** `DiscoveryCourseRun(key, external_key, title, marketing_url)`. */
  datatype CourseRun = CourseRun(key: Json, externalKey: Json, title: Json, marketingUrl: Json)

  /** One course run, each field read with `.get`, so a missing field is None. */
  function RunOf(raw: Json): (r: Result<CourseRun, PyError>)
    ensures r.Ok? <==> raw.JObject?
    ensures raw.JObject? ==> r.value == CourseRun(
      Get(raw, "key", JNull).value, Get(raw, "external_key", JNull).value,
      Get(raw, "title", JNull).value, Get(raw, "marketing_url", JNull).value)
  {
    if !raw.JObject? then Err(AttributeError)
    else Ok(CourseRun(
      Get(raw, "key", JNull).value, Get(raw, "external_key", JNull).value,
      Get(raw, "title", JNull).value, Get(raw, "marketing_url", JNull).value))
  }

  /** The runs of a list of raw course runs, in order. */
  function RunsOf(raws: seq<Json>): (r: Result<seq<CourseRun>, PyError>)
    ensures r.Ok? <==> forall i :: 0 <= i < |raws| ==> raws[i].JObject?
    ensures r.Ok? ==> |r.value| == |raws| && forall i :: 0 <= i < |raws| ==> Ok(r.value[i]) == RunOf(raws[i])
  {
    if raws == [] then Ok([])
    else
      match RunOf(raws[0])
      case Err(e) => Err(e)
      case Ok(run) =>
        match RunsOf(raws[1..])
        case Err(e) =>
          assert !raws[1..][0].JObject? || exists i :: 0 <= i < |raws[1..]| && !raws[1..][i].JObject?;
          Err(e)
        case Ok(rest) => Ok([run] + rest)
  }

  /** The runs one course lists under 'course_runs'. */
  function RunsOfCourse(course: Json): Result<seq<CourseRun>, PyError>
  {
    match Get(course, "course_runs", JList([]))
    case Err(e) => Err(e)
    case Ok(rawRuns) =>
      match Elements(rawRuns)
      case Err(e) => Err(e)
      case Ok(raws) => RunsOf(raws)
  }

  /** The runs of each course, concatenated in course order. */
  function CoursesRuns(courses: seq<Json>): (r: Result<seq<CourseRun>, PyError>)
  {
    if courses == [] then Ok([])
    else
      match RunsOfCourse(courses[0])
      case Err(e) => Err(e)
      case Ok(runs) =>
        match CoursesRuns(courses[1..])
        case Err(e) => Err(e)
        case Ok(rest) => Ok(runs + rest)
  }

  /** A course that lists no runs, or has no 'course_runs' at all, contributes nothing. */
  lemma {:induction false} EmptyCourseContributesNothing(course: Json, courses: seq<Json>)
    requires course.JObject?
    requires "course_runs" !in course.fields || course.fields["course_runs"] == JList([])
    ensures CoursesRuns([course] + courses) == CoursesRuns(courses)
  {
    assert ([course] + courses)[0] == course;
    assert ([course] + courses)[1..] == courses;
    var raws := Elements(Get(course, "course_runs", JList([])).value).value;
    assert raws == [];
    assert RunsOf(raws) == Ok([]);
    if CoursesRuns(courses).Ok? {
      assert [] + CoursesRuns(courses).value == CoursesRuns(courses).value;
    }
  }

  /** Concatenating course lists concatenates their runs. */
  lemma {:induction false} CoursesRunsAppend(a: seq<Json>, b: seq<Json>)
    requires CoursesRuns(a).Ok? && CoursesRuns(b).Ok?
    ensures CoursesRuns(a + b) == Ok(CoursesRuns(a).value + CoursesRuns(b).value)
  {
    if a == [] {
      assert a + b == b;
      assert CoursesRuns(a).value == [];
      assert [] + CoursesRuns(b).value == CoursesRuns(b).value;
    } else {
      assert (a + b)[0] == a[0];
      assert (a + b)[1..] == a[1..] + b;
      CoursesRunsAppend(a[1..], b);
      var runs, tail, other := RunsOfCourse(a[0]).value, CoursesRuns(a[1..]).value, CoursesRuns(b).value;
      assert CoursesRuns(a).value == runs + tail;
      assert CoursesRuns(a + b) == Ok(runs + (tail + other));
      RunsConcatAssoc(runs, tail, other);
    }
  }

  lemma RunsConcatAssoc(x: seq<CourseRun>, y: seq<CourseRun>, z: seq<CourseRun>)
    ensures x + (y + z) == (x + y) + z
  {
  }

  /** `course_runs`: the runs of the active curriculum's courses, flattened in order. */
  function CourseRuns(details: Json): Result<seq<CourseRun>, PyError>
  {
    match ActiveCurriculum(details)
    case Err(e) => Err(e)
    case Ok(curriculum) =>
      match Get(curriculum, "courses", JList([]))
      case Err(e) => Err(e)
      case Ok(courses) =>
        match Elements(courses)
        case Err(e) => Err(e)
        case Ok(items) => CoursesRuns(items)
  }

  /** Details without curricula give no course runs. */
  lemma NoCurriculaNoRuns(details: Json)
    requires details.JObject? && "curricula" !in details.fields
    ensures CourseRuns(details) == Ok([])
    ensures ActiveCurriculumUuid(details) == Ok(None)
  {
    NoCurriculaNoActive(details);
  }

  /** A value Python can put in a set: not a list or a dict. */
  predicate Hashable(j: Json)
  {
    !j.JList? && !j.JObject?
  }

  /** `course_id in {run.key, run.external_key}`. */
  predicate Matches(run: CourseRun, courseId: string)
  {
    run.key == JStr(courseId) || run.externalKey == JStr(courseId)
  }

  predicate NoMatchBefore(runs: seq<CourseRun>, courseId: string, n: int)
    requires n <= |runs|
  {
    forall k :: 0 <= k < n ==> Hashable(runs[k].key) && Hashable(runs[k].externalKey) && !Matches(runs[k], courseId)
  }

  /**
   * `find_course_run`: the first run whose key or external key is the id, or
   * None; building the set raises TypeError on an unhashable key.
   */
  function FindCourseRun(runs: seq<CourseRun>, courseId: string): (r: Result<Option<CourseRun>, PyError>)
    ensures r == Ok(None) <==> NoMatchBefore(runs, courseId, |runs|)
    ensures r.Ok? && r.value.Some? ==>
      exists i :: 0 <= i < |runs| && runs[i] == r.value.value && Matches(runs[i], courseId) && NoMatchBefore(runs, courseId, i)
  {
    if runs == [] then Ok(None)
    else if !Hashable(runs[0].key) || !Hashable(runs[0].externalKey) then Err(TypeError)
    else if Matches(runs[0], courseId) then Ok(Some(runs[0]))
    else
      var r := FindCourseRun(runs[1..], courseId);
      assert forall n :: 0 <= n < |runs| ==> (NoMatchBefore(runs[1..], courseId, n) <==> NoMatchBefore(runs, courseId, n + 1));
      if r.Ok? && r.value.Some? then
        var i :| 0 <= i < |runs[1..]| && runs[1..][i] == r.value.value && Matches(runs[1..][i], courseId) && NoMatchBefore(runs[1..], courseId, i);
        assert runs[i + 1] == runs[1..][i];
        r
      else r
  }

  /** `get_course_key`: the internal key of the found run, or None. */
  function GetCourseKey(runs: seq<CourseRun>, courseId: string): Result<Json, PyError>
  {
    match FindCourseRun(runs, courseId)
    case Err(e) => Err(e)
    case Ok(None) => Ok(JNull)
    case Ok(Some(run)) => Ok(run.key)
  }

  /** `get_external_course_key`: the external key of the found run, or None. */
  function GetExternalCourseKey(runs: seq<CourseRun>, courseId: string): Result<Json, PyError>
  {
    match FindCourseRun(runs, courseId)
    case Err(e) => Err(e)
    case Ok(None) => Ok(JNull)
    case Ok(Some(run)) => Ok(run.externalKey)
  }

  /** Looking a run up by either of its keys gives back both keys, when no earlier run matches. */
  lemma LookupByEitherKey(runs: seq<CourseRun>, i: nat, courseId: string)
    requires i < |runs| && Matches(runs[i], courseId) && NoMatchBefore(runs, courseId, i)
    requires Hashable(runs[i].key) && Hashable(runs[i].externalKey)
    ensures GetCourseKey(runs, courseId) == Ok(runs[i].key)
    ensures GetExternalCourseKey(runs, courseId) == Ok(runs[i].externalKey)
  {
    FindFirst(runs, i, courseId);
  }

  lemma {:induction false} FindFirst(runs: seq<CourseRun>, i: nat, courseId: string)
    requires i < |runs| && Matches(runs[i], courseId) && NoMatchBefore(runs, courseId, i)
    requires Hashable(runs[i].key) && Hashable(runs[i].externalKey)
    ensures FindCourseRun(runs, courseId) == Ok(Some(runs[i]))
  {
    if i > 0 {
      assert NoMatchBefore(runs[1..], courseId, i - 1);
      FindFirst(runs[1..], i - 1, courseId);
    }
  }

  /** An id no run carries finds nothing. */
  lemma UnknownIdFindsNothing(runs: seq<CourseRun>, courseId: string)
    requires forall k :: 0 <= k < |runs| ==> Hashable(runs[k].key) && Hashable(runs[k].externalKey) && !Matches(runs[k], courseId)
    ensures GetCourseKey(runs, courseId) == Ok(JNull)
    ensures GetExternalCourseKey(runs, courseId) == Ok(JNull)
  {
  }
}
