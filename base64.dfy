/** Padded standard base64 (section 4 of RFC 4648) as Go's
    `base64.StdEncoding.DecodeString` reads it: carriage returns and line
    feeds are skipped wherever they occur, the remaining text must be whole
    four-character groups, `=` may only pad the last group (one or two of
    them), and the unused low bits of a padded group are ignored (the
    decoder is not in strict mode). Encoding is modelled as well, so that
    decoding can be proved to invert it. */
module Base64 {
  import opened Wrappers

  type byte = x: int | 0 <= x < 256
  type sextet = x: int | 0 <= x < 64

  predicate IsAlphabetChar(c: char) {
    ('A' <= c <= 'Z') || ('a' <= c <= 'z') || ('0' <= c <= '9') || c == '+' || c == '/'
  }

  /** The 6-bit value of an alphabet character. */
  function SextetOf(c: char): (v: sextet)
    requires IsAlphabetChar(c)
  {
    if 'A' <= c <= 'Z' then c as int - 'A' as int
    else if 'a' <= c <= 'z' then c as int - 'a' as int + 26
    else if '0' <= c <= '9' then c as int - '0' as int + 52
    else if c == '+' then 62
    else 63
  }

  /** The alphabet character of a 6-bit value. */
  function CharOf(v: sextet): (c: char)
    ensures IsAlphabetChar(c) && SextetOf(c) == v
  {
    if v < 26 then ('A' as int + v) as char
    else if v < 52 then ('a' as int + v - 26) as char
    else if v < 62 then ('0' as int + v - 52) as char
    else if v == 62 then '+'
    else '/'
  }

  /** The input with every '\r' and '\n' removed. */
  function StripNewlines(s: string): (r: string)
    ensures '\r' !in r && '\n' !in r
    ensures |r| <= |s|
  {
    if |s| == 0 then ""
    else if s[0] == '\r' || s[0] == '\n' then StripNewlines(s[1..])
    else [s[0]] + StripNewlines(s[1..])
  }

  predicate AllAlphabet(q: string) {
    forall i :: 0 <= i < |q| ==> IsAlphabetChar(q[i])
  }

  /** Three bytes from four alphabet characters. */
  function DecodeFull(q: string): (r: Option<seq<byte>>)
    requires |q| == 4
    ensures r.Some? <==> AllAlphabet(q)
    ensures r.Some? ==> |r.value| == 3
  {
    if AllAlphabet(q) then
      var a, b, c, d := SextetOf(q[0]), SextetOf(q[1]), SextetOf(q[2]), SextetOf(q[3]);
      Some([a * 4 + b / 16, (b % 16) * 16 + c / 4, (c % 4) * 64 + d])
    else None
  }

  /** The last group, which may end in "==" (one byte) or "=" (two bytes). */
  function DecodeLast(q: string): (r: Option<seq<byte>>)
    requires |q| == 4
    ensures r.Some? ==> 1 <= |r.value| <= 3
  {
    if AllAlphabet(q) then DecodeFull(q)
    else if IsAlphabetChar(q[0]) && IsAlphabetChar(q[1]) && q[2] == '=' && q[3] == '=' then
      var a, b := SextetOf(q[0]), SextetOf(q[1]);
      Some([a * 4 + b / 16])
    else if IsAlphabetChar(q[0]) && IsAlphabetChar(q[1]) && IsAlphabetChar(q[2]) && q[3] == '=' then
      var a, b, c := SextetOf(q[0]), SextetOf(q[1]), SextetOf(q[2]);
      Some([a * 4 + b / 16, (b % 16) * 16 + c / 4])
    else None
  }

  /** Decoding of newline-free text made of whole groups. */
  function DecodeGroups(t: string): (r: Option<seq<byte>>)
    requires |t| % 4 == 0
    decreases |t|
  {
    if |t| == 0 then Some([])
    else if |t| == 4 then DecodeLast(t)
    else
      match DecodeFull(t[..4])
      case None => None
      case Some(head) =>
        match DecodeGroups(t[4..])
        case None => None
        case Some(tail) => Some(head + tail)
  }

  /** base64.StdEncoding.DecodeString; None stands for the returned error. */
  function Decode(s: string): (r: Option<seq<byte>>)
    ensures |StripNewlines(s)| % 4 != 0 ==> r.None?
  {
    var t := StripNewlines(s);
    if |t| % 4 != 0 then None else DecodeGroups(t)
  }

  /** Four characters for three bytes. */
  function EncodeGroup(b0: byte, b1: byte, b2: byte): (r: string)
    ensures |r| == 4 && AllAlphabet(r)
  {
    [CharOf(b0 / 4), CharOf((b0 % 4) * 16 + b1 / 16), CharOf((b1 % 16) * 4 + b2 / 64), CharOf(b2 % 64)]
  }

  /** base64.StdEncoding.EncodeToString. */
  function Encode(bs: seq<byte>): (r: string)
    ensures |r| % 4 == 0
    ensures '\r' !in r && '\n' !in r
    decreases |bs|
  {
    if |bs| == 0 then ""
    else if |bs| == 1 then
      [CharOf(bs[0] / 4), CharOf((bs[0] % 4) * 16), '=', '=']
    else if |bs| == 2 then
      [CharOf(bs[0] / 4), CharOf((bs[0] % 4) * 16 + bs[1] / 16), CharOf((bs[1] % 16) * 4), '=']
    else
      EncodeGroup(bs[0], bs[1], bs[2]) + Encode(bs[3..])
  }

  lemma StripNewlinesOfClean(s: string)
    requires '\r' !in s && '\n' !in s
    ensures StripNewlines(s) == s
  {
    if |s| > 0 {
      StripNewlinesOfClean(s[1..]);
      assert s == [s[0]] + s[1..];
    }
  }

  lemma GroupRoundTrip(b0: byte, b1: byte, b2: byte)
    ensures DecodeFull(EncodeGroup(b0, b1, b2)) == Some([b0, b1, b2])
  {
    var a, b, c, d := b0 / 4, (b0 % 4) * 16 + b1 / 16, (b1 % 16) * 4 + b2 / 64, b2 % 64;
    var e := EncodeGroup(b0, b1, b2);
    assert SextetOf(e[0]) == a && SextetOf(e[1]) == b && SextetOf(e[2]) == c && SextetOf(e[3]) == d;
    assert b / 16 == b0 % 4 && b % 16 == b1 / 16;
    assert c / 4 == b1 % 16 && c % 4 == b2 / 64;
  }

  lemma OnePaddedRoundTrip(b0: byte)
    ensures DecodeGroups(Encode([b0])) == Some([b0])
  {
    var e := Encode([b0]);
    var b := (b0 % 4) * 16;
    assert b / 16 == b0 % 4;
    assert SextetOf(e[0]) == b0 / 4 && SextetOf(e[1]) == b;
    assert !IsAlphabetChar(e[3]);
  }

  lemma TwoPaddedRoundTrip(b0: byte, b1: byte)
    ensures DecodeGroups(Encode([b0, b1])) == Some([b0, b1])
  {
    var e := Encode([b0, b1]);
    var b := (b0 % 4) * 16 + b1 / 16;
    var c := (b1 % 16) * 4;
    assert b / 16 == b0 % 4 && b % 16 == b1 / 16 && c / 4 == b1 % 16;
    assert SextetOf(e[0]) == b0 / 4 && SextetOf(e[1]) == b && SextetOf(e[2]) == c;
    assert !IsAlphabetChar(e[3]) && IsAlphabetChar(e[2]);
  }

  /** A full group in front of more groups decodes to its bytes in front. */
  lemma DecodeGroupsCons(g: string, rest: string, head: seq<byte>, tail: seq<byte>)
    requires |g| == 4 && |rest| % 4 == 0 && |rest| > 0
    requires DecodeFull(g) == Some(head) && DecodeGroups(rest) == Some(tail)
    ensures DecodeGroups(g + rest) == Some(head + tail)
  {
    assert (g + rest)[..4] == g && (g + rest)[4..] == rest;
  }

  /** Three bytes make one group that the last-group decoder also reads. */
  lemma ThreeRoundTrip(bs: seq<byte>)
    requires |bs| == 3
    ensures DecodeGroups(Encode(bs)) == Some(bs)
  {
    var g := EncodeGroup(bs[0], bs[1], bs[2]);
    GroupRoundTrip(bs[0], bs[1], bs[2]);
    assert Encode(bs) == g + Encode(bs[3..]);
    assert Encode(bs[3..]) == "";
    assert Encode(bs) == g;
    assert bs == [bs[0], bs[1], bs[2]];
  }

  /** Three or more bytes encode as their first group followed by the
      encoding of the rest. */
  lemma EncodeCons(bs: seq<byte>, g: string, rest: string)
    requires |bs| >= 3 && EncodeGroup(bs[0], bs[1], bs[2]) == g && Encode(bs[3..]) == rest
    ensures Encode(bs) == g + rest
  {
  }

  /** Decoding inverts encoding: every byte string survives the round trip. */
  lemma {:induction false} DecodeEncode(bs: seq<byte>)
    ensures DecodeGroups(Encode(bs)) == Some(bs)
    decreases |bs|
  {
    if |bs| == 1 {
      OnePaddedRoundTrip(bs[0]);
      assert bs == [bs[0]];
    } else if |bs| == 2 {
      TwoPaddedRoundTrip(bs[0], bs[1]);
      assert bs == [bs[0], bs[1]];
    } else if |bs| == 3 {
      ThreeRoundTrip(bs);
    } else if |bs| > 3 {
      var g := EncodeGroup(bs[0], bs[1], bs[2]);
      GroupRoundTrip(bs[0], bs[1], bs[2]);
      DecodeEncode(bs[3..]);
      DecodeGroupsCons(g, Encode(bs[3..]), [bs[0], bs[1], bs[2]], bs[3..]);
      assert bs == [bs[0], bs[1], bs[2]] + bs[3..];
    }
  }

  /** The round trip through the full decoder, newline stripping included. */
  lemma RoundTrip(bs: seq<byte>)
    ensures Decode(Encode(bs)) == Some(bs)
  {
    StripNewlinesOfClean(Encode(bs));
    DecodeEncode(bs);
  }
}
