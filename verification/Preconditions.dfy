/** Conditional-write preconditions: If-Match and If-None-Match as in sections 13.1.1 and 13.1.2
    of RFC 9110, over strong validators compared character by character (section 8.8.3.2). */
module Preconditions {
  import opened Wrappers

  function DigitChar(d: nat): char
    requires d < 10
  {
    ('0' as int + d) as char
  }

  function Decimal(n: nat): string {
    if n < 10 then [DigitChar(n)] else Decimal(n / 10) + [DigitChar(n % 10)]
  }

  lemma {:induction false} DecimalInjective(a: nat, b: nat)
    requires Decimal(a) == Decimal(b)
    ensures a == b
  {
    var s, t := Decimal(a), Decimal(b);
    assert |s| > 0 && s[|s| - 1] == DigitChar(a % 10);
    assert |t| > 0 && t[|t| - 1] == DigitChar(b % 10);
    DecimalLength(a);
    DecimalLength(b);
    if a >= 10 {
      assert Decimal(a / 10) == s[..|s| - 1];
      assert Decimal(b / 10) == t[..|t| - 1];
      DecimalInjective(a / 10, b / 10);
    }
  }

  lemma DecimalLength(n: nat)
    ensures |Decimal(n)| >= 1
    ensures |Decimal(n)| == 1 <==> n < 10
  {
  }

  function FormatEtag(version: nat): string {
    "\"" + Decimal(version) + "\""
  }

  /** A strong validator names one version: equal ETags mean equal versions. */
  lemma FormatEtagInjective(a: nat, b: nat)
    ensures FormatEtag(a) == FormatEtag(b) <==> a == b
  {
    if FormatEtag(a) == FormatEtag(b) {
      var s, t := FormatEtag(a), FormatEtag(b);
      assert s[1..|s| - 1] == Decimal(a);
      assert t[1..|t| - 1] == Decimal(b);
      DecimalInjective(a, b);
    }
  }

  /** The number a string of decimal digits writes. */
  function Denotes(digits: string): int {
    if digits == "" then 0 else 10 * Denotes(digits[..|digits| - 1]) + (digits[|digits| - 1] as int - '0' as int)
  }

  lemma {:induction false} DecimalDenotes(n: nat)
    ensures Denotes(Decimal(n)) == n && (forall c :: c in Decimal(n) ==> '0' <= c <= '9') && (n > 0 ==> Decimal(n)[0] != '0')
  {
    var s := Decimal(n);
    if n >= 10 {
      DecimalDenotes(n / 10);
      assert s[..|s| - 1] == Decimal(n / 10);
    } else {
      assert s[..0] == "";
    }
  }

  /** An ETag is the version in decimal, without leading zeros, between double quotes. */
  lemma FormatEtagQuotesDecimal(version: nat)
    ensures var etag := FormatEtag(version);
            && |etag| >= 3 && etag[0] == '"' && etag[|etag| - 1] == '"'
            && var digits := etag[1..|etag| - 1];
               (forall c :: c in digits ==> '0' <= c <= '9') && Denotes(digits) == version && (version > 0 ==> digits[0] != '0')
  {
    DecimalDenotes(version);
    DecimalLength(version);
    assert FormatEtag(version)[1..|FormatEtag(version)| - 1] == Decimal(version);
  }

  /** The preconditions a request carries: an optional quoted ETag, and create-if-absent. */
  datatype Guard = Guard(ifMatch: Option<string>, ifNoneMatch: bool)

  const UNCONDITIONAL := Guard(None, false)

  /** Whether a content write or delete may proceed. A tombstone counts as not existing. */
  predicate WriteAllowed(live: bool, currentVersion: nat, guard: Guard) {
    if guard.ifNoneMatch then !live
    else if guard.ifMatch.None? then true
    else live && FormatEtag(currentVersion) == guard.ifMatch.value
  }

  /** Whether a metadata write may proceed; an unwritten metadata object compares as version 0. */
  predicate MetaWriteAllowed(metaVersion: Option<nat>, guard: Guard) {
    if guard.ifNoneMatch then metaVersion.None?
    else guard.ifMatch.None? || FormatEtag(metaVersion.GetOr(0)) == guard.ifMatch.value
  }

  /** One If-Match value admits one version: a request guarded by the ETag of version `seen`
      is admitted against a live item exactly while that version is current. */
  lemma IfMatchPinsVersion(live: bool, current: nat, seen: nat)
    ensures WriteAllowed(live, current, Guard(Some(FormatEtag(seen)), false)) <==> live && current == seen
  {
    FormatEtagInjective(current, seen);
  }

  /** Create-if-absent asks for nothing there, whatever ETag comes with it; an ETag alone asks for a live item whose
      ETag it is, character by character; and without either every write may proceed. */
  lemma WriteAllowedIff(live: bool, current: nat, ifMatch: string)
    ensures WriteAllowed(live, current, Guard(Some(ifMatch), false)) <==> live && ifMatch == FormatEtag(current)
    ensures forall etag :: WriteAllowed(live, current, Guard(etag, true)) <==> !live
    ensures WriteAllowed(live, current, UNCONDITIONAL)
  {
  }

  /** A metadata write is conditional on the metadata's own version: an ETag admits exactly the version it names, 0
      before the first write, and create-if-absent exactly the first. */
  lemma MetaWriteAllowedIff(metaVersion: Option<nat>, ifMatch: string, seen: nat)
    ensures MetaWriteAllowed(metaVersion, Guard(Some(ifMatch), false)) <==>
            ifMatch == FormatEtag(if metaVersion.Some? then metaVersion.value else 0)
    ensures MetaWriteAllowed(metaVersion, Guard(Some(FormatEtag(seen)), false)) <==>
            metaVersion == Some(seen) || (metaVersion.None? && seen == 0)
    ensures forall etag :: MetaWriteAllowed(metaVersion, Guard(etag, true)) <==> metaVersion.None?
    ensures MetaWriteAllowed(metaVersion, UNCONDITIONAL)
  {
    FormatEtagInjective(metaVersion.GetOr(0), seen);
  }
}
