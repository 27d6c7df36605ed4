/**
 * The part of PEP 440 versions the `>=,<` pinning rule needs: a release of one
 * to three numbers, an optional pre-release tag (`a`, `b`, `rc`) and an
 * optional `.devN` suffix; `next_patch` of the stable version; and the text
 * of the result.
 */
module Versions {
  import opened Values

  datatype Pre = Alpha(n: nat) | Beta(n: nat) | Candidate(n: nat)

  datatype Version = Version(release: seq<nat>, pre: Option<Pre>, dev: Option<nat>)

  predicate WellFormed(v: Version)
  {
    1 <= |v.release| <= 3
  }

  // ---- decimal numbers ----

  predicate IsDigit(c: char)
  {
    '0' <= c <= '9'
  }

  function DigitChar(d: nat): char
    requires d < 10
  {
    "0123456789"[d]
  }

  function DigitValue(c: char): nat
    requires IsDigit(c)
  {
    c as int - '0' as int
  }

  function NatValue(ds: string): nat
    requires forall i :: 0 <= i < |ds| ==> IsDigit(ds[i])
  {
    if ds == [] then 0
    else NatValue(ds[..|ds| - 1]) * 10 + DigitValue(ds[|ds| - 1])
  }

  /** The decimal text of a number, without leading zeros. */
  function NatText(n: nat): (t: string)
    ensures t != [] && forall i :: 0 <= i < |t| ==> IsDigit(t[i])
  {
    if n < 10 then [DigitChar(n)] else NatText(n / 10) + [DigitChar(n % 10)]
  }

  /** Reading the decimal text of a number gives the number back. */
  lemma {:induction false} NatTextValue(n: nat)
    ensures NatValue(NatText(n)) == n
  {
    var t := NatText(n);
    if n >= 10 {
      NatTextValue(n / 10);
      assert t[..|t| - 1] == NatText(n / 10);
    }
  }

  /** The number of digits at the start of a string. */
  function DigitRun(s: string): (k: nat)
    ensures k <= |s|
    ensures forall i :: 0 <= i < k ==> IsDigit(s[i])
  {
    if s == [] || !IsDigit(s[0]) then 0 else 1 + DigitRun(s[1..])
  }

  /** A maximal run of digits at the start of `s`, read as a number, and what follows it. */
  function Number(s: string): Option<(nat, string)>
  {
    var k := DigitRun(s);
    if k == 0 then None else Some((NatValue(s[..k]), s[k..]))
  }

  lemma {:induction false} DigitRunOf(ds: string, rest: string)
    requires forall i :: 0 <= i < |ds| ==> IsDigit(ds[i])
    requires rest == [] || !IsDigit(rest[0])
    ensures DigitRun(ds + rest) == |ds|
  {
    if ds != [] {
      assert (ds + rest)[1..] == ds[1..] + rest;
      DigitRunOf(ds[1..], rest);
    } else {
      assert ds + rest == rest;
    }
  }

  /** A number's text followed by a non-digit is read back as that number. */
  lemma NumberOfText(n: nat, rest: string)
    requires rest == [] || !IsDigit(rest[0])
    ensures Number(NatText(n) + rest) == Some((n, rest))
  {
    var t := NatText(n);
    DigitRunOf(t, rest);
    assert (t + rest)[..|t|] == t && (t + rest)[|t|..] == rest;
    NatTextValue(n);
  }

  // ---- parsing ----

  /** `.N` at the start of `s`. */
  function DotNumber(s: string): Option<(nat, string)>
  {
    if |s| >= 2 && s[0] == '.' && IsDigit(s[1]) then Number(s[1..]) else None
  }

  function ParseRelease(s: string): Option<(seq<nat>, string)>
  {
    match Number(s)
    case None => None
    case Some((a, r1)) =>
      match DotNumber(r1)
      case None => Some(([a], r1))
      case Some((b, r2)) =>
        match DotNumber(r2)
        case None => Some(([a, b], r2))
        case Some((c, r3)) => Some(([a, b, c], r3))
  }

  function ParsePre(s: string): (Option<Pre>, string)
  {
    if |s| >= 2 && s[..2] == "rc" && Number(s[2..]).Some? then
      (Some(Candidate(Number(s[2..]).value.0)), Number(s[2..]).value.1)
    else if |s| >= 1 && s[0] == 'a' && Number(s[1..]).Some? then
      (Some(Alpha(Number(s[1..]).value.0)), Number(s[1..]).value.1)
    else if |s| >= 1 && s[0] == 'b' && Number(s[1..]).Some? then
      (Some(Beta(Number(s[1..]).value.0)), Number(s[1..]).value.1)
    else (None, s)
  }

  function ParseDev(s: string): (Option<nat>, string)
  {
    if |s| >= 4 && s[..4] == ".dev" && Number(s[4..]).Some? then
      (Some(Number(s[4..]).value.0), Number(s[4..]).value.1)
    else (None, s)
  }

  /** `Version.parse(text)`; `None` where it raises `InvalidVersion` (a `ValueError`). */
  function ParseVersion(s: string): (r: Option<Version>)
    ensures r.Some? ==> WellFormed(r.value)
  {
    match ParseRelease(s)
    case None => None
    case Some((release, r1)) =>
      var (pre, r2) := ParsePre(r1);
      var (dev, r3) := ParseDev(r2);
      if r3 == [] then Some(Version(release, pre, dev)) else None
  }

  // ---- next_patch and its text ----

  function Part(v: Version, i: nat): nat
  {
    if i < |v.release| then v.release[i] else 0
  }

  /**
   * `v.replace(dev=None, pre=None).next_patch()`: the same major and minor
   * (0 when missing), the patch number plus one, nothing else.
   */
  function NextPatch(v: Version): Version
  {
    Version([Part(v, 0), Part(v, 1), Part(v, 2) + 1], None, None)
  }

  /** `str(v)` for a final release of three numbers. */
  function Text(v: Version): string
    requires |v.release| == 3 && v.pre.None? && v.dev.None?
  {
    NatText(v.release[0]) + (['.'] + NatText(v.release[1]) + (['.'] + NatText(v.release[2])))
  }

  /** `.N` followed by a non-digit is read back as N. */
  lemma DotNumberOfText(n: nat, rest: string)
    requires rest == [] || !IsDigit(rest[0])
    ensures DotNumber(['.'] + NatText(n) + rest) == Some((n, rest))
  {
    var s := ['.'] + NatText(n) + rest;
    assert s[1..] == NatText(n) + rest;
    NumberOfText(n, rest);
  }

  lemma ReleaseOfText(a: nat, b: nat, c: nat)
    ensures ParseRelease(NatText(a) + (['.'] + NatText(b) + (['.'] + NatText(c)))) == Some(([a, b, c], []))
  {
    var tc := ['.'] + NatText(c);
    assert tc + [] == tc;
    var tb := ['.'] + NatText(b) + tc;
    DotNumberOfText(c, []);
    DotNumberOfText(b, tc);
    NumberOfText(a, tb);
  }

  /** A release followed by nothing is a final release. */
  lemma ParseFinal(s: string, release: seq<nat>)
    requires ParseRelease(s) == Some((release, []))
    ensures ParseVersion(s) == Some(Version(release, None, None))
  {
    assert ParsePre([]) == (None, []);
    assert ParseDev([]) == (None, []);
  }

  /** The text of a final three-number release parses back to that release. */
  lemma TextParses(v: Version)
    requires |v.release| == 3 && v.pre.None? && v.dev.None?
    ensures ParseVersion(Text(v)) == Some(v)
  {
    var a, b, c := v.release[0], v.release[1], v.release[2];
    var t := Text(v);
    assert t == NatText(a) + (['.'] + NatText(b) + (['.'] + NatText(c)));
    ReleaseOfText(a, b, c);
    ParseFinal(t, [a, b, c]);
    assert v.release == [a, b, c];
  }

  // ---- PEP 440 order on this subset ----

  /** Where a pre-release or development tag puts a version among those of its release. */
  function Phase(v: Version): int
  {
    match v.pre
    case None => if v.dev.Some? then 0 else 4
    case Some(Alpha(_)) => 1
    case Some(Beta(_)) => 2
    case Some(Candidate(_)) => 3
  }

  /** Releases compare number by number, missing numbers counting as 0. */
  predicate ReleaseLess(v: Version, w: Version)
  {
    || Part(v, 0) < Part(w, 0)
    || (Part(v, 0) == Part(w, 0) && Part(v, 1) < Part(w, 1))
    || (Part(v, 0) == Part(w, 0) && Part(v, 1) == Part(w, 1) && Part(v, 2) < Part(w, 2))
  }

  /**
   * The upper bound of the `>=,<` rule lies strictly above the version it is
   * built from, shares its major and minor numbers, and is a final release.
   */
  lemma NextPatchAbove(v: Version)
    requires WellFormed(v)
    ensures ReleaseLess(v, NextPatch(v))
    ensures Part(NextPatch(v), 0) == Part(v, 0) && Part(NextPatch(v), 1) == Part(v, 1)
    ensures Phase(NextPatch(v)) == 4
  {
  }
}
