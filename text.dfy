/** The parts of Go's `strings` and `fmt` packages the SDK relies on, over
    strings modelled as sequences of bytes (one `char` per byte). */
module Text {
  import opened Wrappers

  predicate HasPrefix(s: string, p: string) {
    |p| <= |s| && s[..|p|] == p
  }

  predicate HasSuffix(s: string, p: string) {
    |p| <= |s| && s[|s| - |p|..] == p
  }

  /** strings.TrimPrefix: removes `p` once, if `s` starts with it. */
  function TrimPrefix(s: string, p: string): (r: string)
    ensures HasPrefix(s, p) ==> s == p + r
    ensures !HasPrefix(s, p) ==> r == s
  {
    if HasPrefix(s, p) then s[|p|..] else s
  }

  /** strings.TrimSuffix: removes `p` once, if `s` ends with it. */
  function TrimSuffix(s: string, p: string): (r: string)
    ensures HasSuffix(s, p) ==> s == r + p
    ensures !HasSuffix(s, p) ==> r == s
  {
    if HasSuffix(s, p) then s[..|s| - |p|] else s
  }

  /** strings.Index: the first position at which `sub` occurs in `s`. */
  function Index(s: string, sub: string): (r: Option<nat>)
    ensures r.Some? ==> r.value + |sub| <= |s| && s[r.value..r.value + |sub|] == sub
    ensures r.Some? ==> forall j :: 0 <= j < r.value ==> !HasPrefix(s[j..], sub)
    ensures r.None? ==> forall j :: 0 <= j <= |s| ==> !HasPrefix(s[j..], sub)
    decreases |s|
  {
    if HasPrefix(s, sub) then Some(0)
    else if |s| == 0 then None
    else
      match Index(s[1..], sub)
      case None => NoMatchExtends(s, sub); None
      case Some(i) => MatchShifts(s, sub, i); Some(i + 1)
  }

  /** No match in the tail and none at 0: no match anywhere. */
  lemma NoMatchExtends(s: string, sub: string)
    requires |s| > 0 && !HasPrefix(s, sub)
    requires forall j :: 0 <= j <= |s[1..]| ==> !HasPrefix(s[1..][j..], sub)
    ensures forall j :: 0 <= j <= |s| ==> !HasPrefix(s[j..], sub)
  {
    forall j | 1 <= j <= |s|
      ensures !HasPrefix(s[j..], sub)
    {
      assert s[j..] == s[1..][j - 1..];
    }
  }

  /** The first match in the tail, at `i`, is the first in `s` at i + 1. */
  lemma MatchShifts(s: string, sub: string, i: nat)
    requires |s| > 0 && !HasPrefix(s, sub)
    requires i + |sub| <= |s[1..]| && s[1..][i..i + |sub|] == sub
    requires forall j :: 0 <= j < i ==> !HasPrefix(s[1..][j..], sub)
    ensures i + 1 + |sub| <= |s| && s[i + 1..i + 1 + |sub|] == sub
    ensures forall j :: 0 <= j < i + 1 ==> !HasPrefix(s[j..], sub)
  {
    assert s[i + 1..i + 1 + |sub|] == s[1..][i..i + |sub|];
    forall j | 1 <= j < i + 1
      ensures !HasPrefix(s[j..], sub)
    {
      assert s[j..] == s[1..][j - 1..];
    }
  }

  predicate Contains(s: string, sub: string) {
    Index(s, sub).Some?
  }

  /** strings.Replace(s, old, new, 1): only the first occurrence is replaced. */
  function ReplaceFirst(s: string, pat: string, rep: string): (r: string)
    ensures Index(s, pat).None? ==> r == s
    ensures Index(s, pat).Some? ==>
              var i := Index(s, pat).value;
              r == s[..i] + rep + s[i + |pat|..] && s == s[..i] + pat + s[i + |pat|..]
  {
    match Index(s, pat)
    case None => s
    case Some(i) => s[..i] + rep + s[i + |pat|..]
  }

  /** strings.Join. */
  function Join(parts: seq<string>, sep: string): string {
    if |parts| == 0 then ""
    else if |parts| == 1 then parts[0]
    else parts[0] + sep + Join(parts[1..], sep)
  }

  lemma JoinCons(head: string, parts: seq<string>, sep: string)
    requires |parts| > 0
    ensures Join([head] + parts, sep) == head + sep + Join(parts, sep)
  {
    assert ([head] + parts)[1..] == parts;
  }

  /** The first element of strings.Split(s, string([c])): the text before the
      first `c`, or all of `s` if there is none. */
  function BeforeFirst(s: string, c: char): (r: string)
    ensures c !in r
    ensures HasPrefix(s, r)
    ensures |r| < |s| ==> s[|r|] == c
  {
    if |s| == 0 then ""
    else if s[0] == c then ""
    else [s[0]] + BeforeFirst(s[1..], c)
  }

  function DigitChar(d: nat): char
    requires d < 10
  {
    ('0' as int + d) as char
  }

  predicate IsDigit(c: char) {
    '0' <= c <= '9'
  }

  /** fmt's %d of a non-negative integer. */
  function NatToString(n: nat): (r: string)
    ensures |r| > 0
    ensures forall i :: 0 <= i < |r| ==> IsDigit(r[i])
    decreases n
  {
    if n < 10 then [DigitChar(n)] else NatToString(n / 10) + [DigitChar(n % 10)]
  }

  /** fmt's %d of any integer. */
  function IntToString(n: int): (r: string)
    ensures |r| > 0
  {
    if n < 0 then "-" + NatToString(-n) else NatToString(n)
  }

  /** The value of a string of decimal digits. */
  function DigitsValue(s: string): int
    requires forall i :: 0 <= i < |s| ==> IsDigit(s[i])
  {
    if |s| == 0 then 0 else DigitsValue(s[..|s| - 1]) * 10 + (s[|s| - 1] as int - '0' as int)
  }

  /** The decimal text of `n` reads back as `n`. */
  lemma {:induction false} NatToStringRoundTrip(n: nat)
    ensures DigitsValue(NatToString(n)) == n
    decreases n
  {
    var r := NatToString(n);
    if n >= 10 {
      NatToStringRoundTrip(n / 10);
      assert r[..|r| - 1] == NatToString(n / 10);
    }
  }

  /** os.Getenv: a variable that is not set reads as "". */
  function Getenv(env: map<string, string>, name: string): (r: string)
    ensures name in env ==> r == env[name]
    ensures name !in env ==> r == ""
  {
    if name in env then env[name] else ""
  }
}
