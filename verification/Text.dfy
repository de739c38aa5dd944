/** Go strings as texts and as bytes, hexadecimal (section 8 of RFC 4648), splitting at a separator, and the
    text form of UUIDs (section 4 of RFC 9562). */
module Text {
  import opened Basics
  import opened Base64

  // ---- bytes and characters ----

  /** A Go string, with one character per byte. */
  function Chars(b: Bytes): string {
    if b == [] then "" else [b[0] as char] + Chars(b[1..])
  }

  predicate Narrow(s: string) {
    forall i | 0 <= i < |s| :: s[i] as int < 256
  }

  function Octets(s: string): Bytes
    requires Narrow(s)
  {
    if s == "" then [] else var b: Byte := s[0] as int; [b] + Octets(s[1..])
  }

  lemma {:induction false} CharsOfOctets(s: string)
    requires Narrow(s)
    ensures Chars(Octets(s)) == s
  {
    if s != "" {
      CharsOfOctets(s[1..]);
      assert Octets(s)[1..] == Octets(s[1..]);
    }
  }

  lemma NarrowIf(s: string)
    requires forall c | c in s :: c as int < 256
    ensures Narrow(s)
  {
    forall i | 0 <= i < |s| ensures s[i] as int < 256 { assert s[i] in s; }
  }

  // ---- hexadecimal ----

  type Nibble = v: int | 0 <= v < 16

  function HexDigit(v: Nibble): char {
    if v < 10 then ('0' as int + v) as char else ('a' as int + v - 10) as char
  }

  function HexValue(c: char): Option<Nibble> {
    if '0' <= c <= '9' then Some(c as int - '0' as int)
    else if 'a' <= c <= 'f' then Some(c as int - 'a' as int + 10)
    else if 'A' <= c <= 'F' then Some(c as int - 'A' as int + 10)
    else None
  }

  function HexText(b: Bytes): string {
    if b == [] then "" else [HexDigit(b[0] / 16), HexDigit(b[0] % 16)] + HexText(b[1..])
  }

  function Pair(h: Nibble, l: Nibble): Byte {
    (h as int) * 16 + l
  }

  function HexParse(s: string): Option<Bytes>
    decreases |s|
  {
    if s == "" then Some([])
    else if |s| == 1 then None
    else match (HexValue(s[0]), HexValue(s[1]), HexParse(s[2..]))
         case (Some(h), Some(l), Some(rest)) => Some([Pair(h, l)] + rest)
         case _ => None
  }

  lemma {:induction false} HexRoundTrip(b: Bytes)
    ensures |HexText(b)| == 2 * |b| && HexParse(HexText(b)) == Some(b)
  {
    if b != [] {
      HexRoundTrip(b[1..]);
      var t := HexText(b);
      assert t[2..] == HexText(b[1..]);
      assert HexValue(t[0]) == Some(b[0] / 16) && HexValue(t[1]) == Some(b[0] % 16);
      assert Pair(b[0] / 16, b[0] % 16) == b[0];
      assert b == [b[0]] + b[1..];
    }
  }

  predicate IsHex(c: char) {
    '0' <= c <= '9' || 'a' <= c <= 'f'
  }

  lemma {:induction false} HexChars(b: Bytes)
    ensures forall c | c in HexText(b) :: IsHex(c)
  {
    if b != [] { HexChars(b[1..]); }
  }

  // ---- splitting ----

  /** strings.Split: the pieces between the separators. */
  function SplitAt(s: string, sep: char): seq<string> {
    if s == "" then [""]
    else
      var rest := SplitAt(s[1..], sep);
      if s[0] == sep then [""] + rest else [[s[0]] + rest[0]] + rest[1..]
  }

  function Rejoin(parts: seq<string>, sep: char): string
    requires parts != []
  {
    if |parts| == 1 then parts[0] else parts[0] + [sep] + Rejoin(parts[1..], sep)
  }

  /** No piece contains the separator, and joining the pieces gives the text back. */
  lemma {:induction false} SplitRejoins(s: string, sep: char)
    ensures SplitAt(s, sep) != [] && Rejoin(SplitAt(s, sep), sep) == s
    ensures forall p | p in SplitAt(s, sep) :: sep !in p
  {
    if s != "" {
      var rest := SplitAt(s[1..], sep);
      SplitRejoins(s[1..], sep);
      if s[0] == sep {
        assert ([""] + rest)[1..] == rest;
      } else {
        var parts := [[s[0]] + rest[0]] + rest[1..];
        assert parts[1..] == rest[1..];
        assert Rejoin(parts, sep) == [s[0]] + Rejoin(rest, sep);
      }
    }
  }

  lemma {:induction false} SplitWhole(a: string, sep: char)
    requires sep !in a
    ensures SplitAt(a, sep) == [a]
  {
    if a != "" {
      SplitWhole(a[1..], sep);
      assert a == [a[0]] + a[1..];
    }
  }

  lemma {:induction false} SplitFirst(a: string, rest: string, sep: char)
    requires sep !in a
    ensures SplitAt(a + [sep] + rest, sep) == [a] + SplitAt(rest, sep)
    decreases |a|
  {
    var s := a + [sep] + rest;
    if a == "" {
      assert s[1..] == rest;
    } else {
      SplitFirst(a[1..], rest, sep);
      assert s[1..] == a[1..] + [sep] + rest;
      assert a == [a[0]] + a[1..];
    }
  }

  // ---- UUIDs ----

  type Uuid = u: Bytes | |u| == 16 witness [0, 0, 0, 0, 0, 0, 0, 0, 0, 0, 0, 0, 0, 0, 0, 0]

  function UuidText(u: Uuid): string {
    HexText(u[..4]) + "-" + HexText(u[4..6]) + "-" + HexText(u[6..8]) + "-" + HexText(u[8..10]) + "-" + HexText(u[10..])
  }

  /** The dashed form: dashes in place, and hexadecimal digits of either case between them. */
  function ParseDashed(s: string): Option<Uuid>
    requires |s| == 36
  {
    if s[8] != '-' || s[13] != '-' || s[18] != '-' || s[23] != '-' then None
    else match HexParse(s[..8] + s[9..13] + s[14..18] + s[19..23] + s[24..])
         case Some(b) => if |b| == 16 then Some(b) else None
         case None => None
  }

  function Lower(c: char): char {
    if 'A' <= c <= 'Z' then (c as int + 32) as char else c
  }

  predicate IsUrnPrefix(s: string) {
    |s| == 9 && forall i | 0 <= i < 9 :: Lower(s[i]) == "urn:uuid:"[i]
  }

  /** The library also reads the URN form, the form in braces (whatever the braces are), and bare digits. */
  function ParseUuid(s: string): Option<Uuid> {
    if |s| == 36 then ParseDashed(s)
    else if |s| == 45 then (if IsUrnPrefix(s[..9]) then ParseDashed(s[9..]) else None)
    else if |s| == 38 then ParseDashed(s[1..37])
    else if |s| == 32 then
      (match HexParse(s) case Some(b) => if |b| == 16 then Some(b) else None case None => None)
    else None
  }

  lemma {:induction false} HexConcat(a: Bytes, b: Bytes)
    ensures HexText(a + b) == HexText(a) + HexText(b)
  {
    if a == [] {
      assert a + b == b;
    } else {
      HexConcat(a[1..], b);
      assert (a + b)[0] == a[0] && (a + b)[1..] == a[1..] + b;
      var first := [HexDigit(a[0] / 16), HexDigit(a[0] % 16)];
      assert HexText(a + b) == first + (HexText(a[1..]) + HexText(b));
      assert HexText(a) == first + HexText(a[1..]);
    }
  }

  lemma HexSegments(u: Uuid)
    ensures HexText(u[..4]) + HexText(u[4..6]) + HexText(u[6..8]) + HexText(u[8..10]) + HexText(u[10..]) == HexText(u)
  {
    HexConcat(u[..4], u[4..6]);
    HexConcat(u[..6], u[6..8]);
    HexConcat(u[..8], u[8..10]);
    HexConcat(u[..10], u[10..]);
    assert u[..4] + u[4..6] == u[..6] && u[..6] + u[6..8] == u[..8] && u[..8] + u[8..10] == u[..10] && u[..10] + u[10..] == u;
  }

  /** Dashing five segments of the right lengths and cutting them out again. */
  lemma Segments(a: string, b: string, c: string, d: string, e: string)
    requires |a| == 8 && |b| == 4 && |c| == 4 && |d| == 4 && |e| == 12
    ensures var s := a + "-" + b + "-" + c + "-" + d + "-" + e;
            && |s| == 36 && s[8] == '-' && s[13] == '-' && s[18] == '-' && s[23] == '-'
            && s[..8] == a && s[9..13] == b && s[14..18] == c && s[19..23] == d && s[24..] == e
  {
  }

  lemma UuidRoundTrip(u: Uuid)
    ensures |UuidText(u)| == 36 && ParseUuid(UuidText(u)) == Some(u)
  {
    HexRoundTrip(u[..4]);
    HexRoundTrip(u[4..6]);
    HexRoundTrip(u[6..8]);
    HexRoundTrip(u[8..10]);
    HexRoundTrip(u[10..]);
    Segments(HexText(u[..4]), HexText(u[4..6]), HexText(u[6..8]), HexText(u[8..10]), HexText(u[10..]));
    HexSegments(u);
    HexRoundTrip(u);
  }

  lemma UrnForm(t: string)
    requires |t| == 36
    ensures ParseUuid("urn:uuid:" + t) == ParseUuid(t)
  {
    var s := "urn:uuid:" + t;
    assert s[..9] == "urn:uuid:" && s[9..] == t;
    assert forall i | 0 <= i < 9 :: Lower("urn:uuid:"[i]) == "urn:uuid:"[i];
  }

  lemma BracedForm(t: string)
    requires |t| == 36
    ensures ParseUuid("{" + t + "}") == ParseUuid(t)
  {
    assert ("{" + t + "}")[1..37] == t;
  }

  lemma BareForm(u: Uuid)
    ensures ParseUuid(HexText(u)) == Some(u)
  {
    HexRoundTrip(u);
  }

  /** The URN form, the form in braces and the bare digits parse to the same id. */
  lemma UuidForms(u: Uuid)
    ensures ParseUuid("urn:uuid:" + UuidText(u)) == Some(u)
    ensures ParseUuid("{" + UuidText(u) + "}") == Some(u)
    ensures ParseUuid(HexText(u)) == Some(u)
  {
    UuidRoundTrip(u);
    UrnForm(UuidText(u));
    BracedForm(UuidText(u));
    BareForm(u);
  }

  lemma UuidChars(u: Uuid)
    ensures forall c | c in UuidText(u) :: IsHex(c) || c == '-'
  {
    HexChars(u[..4]);
    HexChars(u[4..6]);
    HexChars(u[6..8]);
    HexChars(u[8..10]);
    HexChars(u[10..]);
  }

  // ---- the digits and the layout ----

  const HEX_DIGITS: string := "0123456789abcdef"

  /** Each byte is two digits, the high half first. */
  lemma {:induction false} HexTextAt(b: Bytes, i: nat)
    requires i < |b|
    ensures |HexText(b)| == 2 * |b| && |HEX_DIGITS| == 16
    ensures HexText(b)[2 * i] == HEX_DIGITS[b[i] / 16] && HexText(b)[2 * i + 1] == HEX_DIGITS[b[i] % 16]
    decreases i
  {
    HexRoundTrip(b);
    if i > 0 {
      HexTextAt(b[1..], i - 1);
      assert HexText(b)[2 * i] == HexText(b[1..])[2 * (i - 1)];
      assert HexText(b)[2 * i + 1] == HexText(b[1..])[2 * (i - 1) + 1];
    }
  }

  function LowerText(s: string): string {
    if s == "" then "" else [Lower(s[0])] + LowerText(s[1..])
  }

  lemma DigitOfHex(c: char, v: Nibble)
    ensures HexValue(c) == Some(v) <==> Lower(c) == HexDigit(v)
  {
  }

  lemma {:induction false} LowerLength(s: string)
    ensures |LowerText(s)| == |s|
  {
    if s != "" { LowerLength(s[1..]); }
  }

  lemma SameFronts(a: char, b: char, r: string, c: char, d: char, q: string)
    ensures [a, b] + r == [c, d] + q <==> a == c && b == d && r == q
  {
    var s, t := [a, b] + r, [c, d] + q;
    assert s[0] == a && s[1] == b && s[2..] == r && t[0] == c && t[1] == d && t[2..] == q;
  }

  lemma LowerTextPair(s: string)
    requires |s| >= 2
    ensures LowerText(s) == [Lower(s[0]), Lower(s[1])] + LowerText(s[2..])
  {
    assert s[1..][1..] == s[2..];
  }

  lemma PairIs(h: Nibble, l: Nibble, b: Byte)
    ensures Pair(h, l) == b <==> h == b / 16 && l == b % 16
  {
  }

  lemma ParsePair(s: string, b: Bytes)
    requires |s| >= 2 && b != []
    ensures HexParse(s) == Some(b) <==>
              HexValue(s[0]) == Some(b[0] / 16) && HexValue(s[1]) == Some(b[0] % 16) && HexParse(s[2..]) == Some(b[1..])
  {
    match (HexValue(s[0]), HexValue(s[1]), HexParse(s[2..]))
    case (Some(h), Some(l), Some(rest)) =>
      var all := [Pair(h, l)] + rest;
      PairIs(h, l, b[0]);
      assert all[0] == Pair(h, l) && all[1..] == rest && b == [b[0]] + b[1..];
    case _ =>
  }

  /** Digits of either case are read, and nothing else. */
  lemma {:induction false} HexParseIff(s: string, b: Bytes)
    ensures HexParse(s) == Some(b) <==> LowerText(s) == HexText(b)
    decreases |s|
  {
    LowerLength(s);
    HexRoundTrip(b);
    if |s| >= 2 && b != [] {
      HexParseIff(s[2..], b[1..]);
      ParsePair(s, b);
      DigitOfHex(s[0], b[0] / 16);
      DigitOfHex(s[1], b[0] % 16);
      LowerTextPair(s);
      SameFronts(Lower(s[0]), Lower(s[1]), LowerText(s[2..]), HexDigit(b[0] / 16), HexDigit(b[0] % 16), HexText(b[1..]));
    }
  }

  /** The text of a UUID: 36 characters, dashes at 8, 13, 18 and 23, the 32 digits of its bytes around them. */
  lemma UuidLayout(u: Uuid)
    ensures var t := UuidText(u);
            && |t| == 36 && t[8] == '-' && t[13] == '-' && t[18] == '-' && t[23] == '-'
            && t[..8] + t[9..13] + t[14..18] + t[19..23] + t[24..] == HexText(u)
  {
    HexRoundTrip(u[..4]);
    HexRoundTrip(u[4..6]);
    HexRoundTrip(u[6..8]);
    HexRoundTrip(u[8..10]);
    HexRoundTrip(u[10..]);
    Segments(HexText(u[..4]), HexText(u[4..6]), HexText(u[6..8]), HexText(u[8..10]), HexText(u[10..]));
    HexSegments(u);
  }

  /** A dashed text of 36 characters is accepted exactly when it has its dashes, and its digits, case aside, are
      those of the id. */
  lemma DashedIff(s: string, u: Uuid)
    requires |s| == 36
    ensures ParseUuid(s) == Some(u) <==>
              && s[8] == '-' && s[13] == '-' && s[18] == '-' && s[23] == '-'
              && LowerText(s[..8] + s[9..13] + s[14..18] + s[19..23] + s[24..]) == HexText(u)
  {
    HexParseIff(s[..8] + s[9..13] + s[14..18] + s[19..23] + s[24..], u);
  }
}
