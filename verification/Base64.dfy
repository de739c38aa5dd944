/** Unpadded base64 as Go's encoding/base64 has it: section 4 of RFC 4648 for the standard alphabet, section 5
    for the URL-safe one, section 3.5 for canonical (strict) decoding. */
module Base64 {
  import opened Basics

  type Byte = b: int | 0 <= b < 256

  type Bytes = seq<Byte>

  /** A six-bit value. */
  type Sextet = v: int | 0 <= v < 64

  // ---- bytes and sextets ----

  /** Three bytes make four sextets; one or two left over make two or three, filled up with zero bits. */
  function Split(s: Bytes): seq<Sextet>
    decreases |s|
  {
    if |s| == 0 then []
    else if |s| == 1 then [s[0] / 4, s[0] % 4 * 16]
    else if |s| == 2 then [s[0] / 4, s[0] % 4 * 16 + s[1] / 16, s[1] % 16 * 4]
    else [s[0] / 4, s[0] % 4 * 16 + s[1] / 16, s[1] % 16 * 4 + s[2] / 64, s[2] % 64] + Split(s[3..])
  }

  // The bytes of four sextets u, v, w, t.

  function Byte0(u: Sextet, v: Sextet): Byte { (u as int) * 4 + v / 16 }
  function Byte1(v: Sextet, w: Sextet): Byte { (v as int) % 16 * 16 + w / 4 }
  function Byte2(w: Sextet, t: Sextet): Byte { (w as int) % 4 * 64 + t }

  /** The inverse; strict decoding refuses fill bits that are not zero, and a single sextet is no byte. */
  function Join(strict: bool, v: seq<Sextet>): Option<Bytes>
    decreases |v|
  {
    if |v| == 0 then Some([])
    else if |v| == 1 then None
    else if |v| == 2 then (if strict && v[1] % 16 != 0 then None else Some([Byte0(v[0], v[1])]))
    else if |v| == 3 then (if strict && v[2] % 4 != 0 then None else Some([Byte0(v[0], v[1]), Byte1(v[1], v[2])]))
    else match Join(strict, v[4..])
         case Some(rest) => Some([Byte0(v[0], v[1]), Byte1(v[1], v[2]), Byte2(v[2], v[3])] + rest)
         case None => None
  }

  lemma FirstByte(x: Byte, y: Byte)
    ensures x / 4 * 4 + (x % 4 * 16 + y / 16) / 16 == x && (x % 4 * 16 + y / 16) % 16 == y / 16
  {
  }

  lemma SecondByte(y: Byte, z: Byte)
    ensures y / 16 * 16 + (y % 16 * 4 + z / 64) / 4 == y && (y % 16 * 4 + z / 64) % 4 == z / 64
  {
  }

  lemma JoinOfTail(strict: bool, s: Bytes)
    requires |s| < 3
    ensures Join(strict, Split(s)) == Some(s)
  {
    if |s| == 1 {
      FirstByte(s[0], 0);
      assert s == [s[0]];
    } else if |s| == 2 {
      FirstByte(s[0], s[1]);
      SecondByte(s[1], 0);
      assert s == [s[0], s[1]];
    }
  }

  /** Four sextets in front are joined on their own. */
  lemma JoinFront(strict: bool, v: seq<Sextet>)
    requires |v| >= 4
    ensures Join(strict, v).None? <==> Join(strict, v[4..]).None?
    ensures Join(strict, v).Some? ==>
              Join(strict, v).value == [Byte0(v[0], v[1]), Byte1(v[1], v[2]), Byte2(v[2], v[3])] + Join(strict, v[4..]).value
  {
  }

  lemma SplitFront(s: Bytes)
    requires |s| >= 3
    ensures |Split(s)| >= 4 && Split(s)[4..] == Split(s[3..])
    ensures Byte0(Split(s)[0], Split(s)[1]) == s[0] && Byte1(Split(s)[1], Split(s)[2]) == s[1] && Byte2(Split(s)[2], Split(s)[3]) == s[2]
  {
    FirstByte(s[0], s[1]);
    SecondByte(s[1], s[2]);
  }

  lemma {:induction false} JoinOfSplit(strict: bool, s: Bytes)
    ensures Join(strict, Split(s)) == Some(s)
    decreases |s|
  {
    if |s| < 3 {
      JoinOfTail(strict, s);
    } else {
      SplitFront(s);
      JoinOfSplit(strict, s[3..]);
      JoinFront(strict, Split(s));
      assert s == [s[0], s[1], s[2]] + s[3..];
    }
  }

  lemma FirstSextets(u: Sextet, v: Sextet, w: Sextet)
    ensures var x, y := Byte0(u, v), Byte1(v, w);
            x / 4 == u && x % 4 * 16 + y / 16 == v && y % 16 == w / 4 && (v % 16 == 0 ==> x % 4 * 16 == v)
  {
    assert Byte1(v, w) / 16 == v % 16;
  }

  lemma LastSextets(v: Sextet, w: Sextet, t: Sextet)
    ensures var y, z := Byte1(v, w), Byte2(w, t);
            y % 16 * 4 + z / 64 == w && z % 64 == t && (w % 4 == 0 ==> y % 16 * 4 == w)
  {
    assert Byte1(v, w) % 16 == w / 4 && Byte2(w, t) / 64 == w % 4;
  }

  lemma {:induction false} SplitOfJoin(v: seq<Sextet>)
    requires Join(true, v).Some?
    ensures Split(Join(true, v).value) == v
    decreases |v|
  {
    if |v| == 2 {
      FirstSextets(v[0], v[1], 0);
    } else if |v| == 3 {
      FirstSextets(v[0], v[1], v[2]);
      LastSextets(v[1], v[2], 0);
    } else if |v| > 3 {
      FirstSextets(v[0], v[1], v[2]);
      LastSextets(v[1], v[2], v[3]);
      SplitOfJoin(v[4..]);
      assert Join(true, v).value[3..] == Join(true, v[4..]).value;
      assert v == [v[0], v[1], v[2], v[3]] + v[4..];
    }
  }

  // ---- sextets and digits ----

  datatype Alphabet = Standard | UrlSafe

  function Digit(a: Alphabet, v: Sextet): char {
    if v < 26 then ('A' as int + v) as char
    else if v < 52 then ('a' as int + v - 26) as char
    else if v < 62 then ('0' as int + v - 52) as char
    else if v == 62 then (if a == Standard then '+' else '-')
    else (if a == Standard then '/' else '_')
  }

  function Value(a: Alphabet, c: char): Option<Sextet> {
    if 'A' <= c <= 'Z' then Some(c as int - 'A' as int)
    else if 'a' <= c <= 'z' then Some(c as int - 'a' as int + 26)
    else if '0' <= c <= '9' then Some(c as int - '0' as int + 52)
    else if c == Digit(a, 62) then Some(62)
    else if c == Digit(a, 63) then Some(63)
    else None
  }

  function Digits(a: Alphabet, v: seq<Sextet>): string {
    if v == [] then "" else [Digit(a, v[0])] + Digits(a, v[1..])
  }

  function Values(a: Alphabet, s: string): Option<seq<Sextet>> {
    if s == "" then Some([])
    else match (Value(a, s[0]), Values(a, s[1..]))
         case (Some(v), Some(rest)) => Some([v] + rest)
         case _ => None
  }

  lemma ValueOfDigit(a: Alphabet, v: Sextet)
    ensures Value(a, Digit(a, v)) == Some(v)
  {
  }

  lemma DigitOfValue(a: Alphabet, c: char)
    requires Value(a, c).Some?
    ensures Digit(a, Value(a, c).value) == c
  {
  }

  lemma {:induction false} ValuesOfDigits(a: Alphabet, v: seq<Sextet>)
    ensures Values(a, Digits(a, v)) == Some(v)
  {
    if v != [] {
      ValueOfDigit(a, v[0]);
      ValuesOfDigits(a, v[1..]);
      assert Digits(a, v)[1..] == Digits(a, v[1..]) && v == [v[0]] + v[1..];
    }
  }

  lemma {:induction false} DigitsOfValues(a: Alphabet, s: string)
    requires Values(a, s).Some?
    ensures Digits(a, Values(a, s).value) == s
  {
    if s != "" {
      DigitOfValue(a, s[0]);
      DigitsOfValues(a, s[1..]);
      assert Values(a, s).value[1..] == Values(a, s[1..]).value;
    }
  }

  // ---- the codec ----

  predicate LineEnd(c: char) {
    c == '\r' || c == '\n'
  }

  /** The decoder skips line ends wherever they are. */
  function Skip(s: string): string {
    if s == "" then "" else if LineEnd(s[0]) then Skip(s[1..]) else [s[0]] + Skip(s[1..])
  }

  function Encode(a: Alphabet, s: Bytes): string {
    Digits(a, Split(s))
  }

  function Decode(a: Alphabet, strict: bool, s: string): Option<Bytes> {
    match Values(a, Skip(s)) case Some(v) => Join(strict, v) case None => None
  }

  /** An encoding is made of digits of its alphabet; a line end is none. */
  lemma {:induction false} DigitsHaveValues(a: Alphabet, v: seq<Sextet>)
    ensures forall c | c in Digits(a, v) :: Value(a, c).Some? && !LineEnd(c)
  {
    if v != [] {
      ValueOfDigit(a, v[0]);
      DigitsHaveValues(a, v[1..]);
    }
  }

  lemma {:induction false} SkipNothing(s: string)
    requires forall c | c in s :: !LineEnd(c)
    ensures Skip(s) == s
  {
    if s != "" { SkipNothing(s[1..]); }
  }

  /** Decoding undoes encoding, strictly or not. */
  lemma DecodeOfEncode(a: Alphabet, strict: bool, s: Bytes)
    ensures Decode(a, strict, Encode(a, s)) == Some(s)
  {
    DigitsHaveValues(a, Split(s));
    SkipNothing(Encode(a, s));
    ValuesOfDigits(a, Split(s));
    JoinOfSplit(strict, s);
  }

  /** A text without line ends is accepted by strict decoding exactly when it is what encoding produces. */
  lemma StrictIffCanonical(a: Alphabet, t: string, s: Bytes)
    requires forall c | c in t :: !LineEnd(c)
    ensures Decode(a, true, t) == Some(s) <==> t == Encode(a, s)
  {
    SkipNothing(t);
    if Decode(a, true, t) == Some(s) {
      DigitsOfValues(a, t);
      SplitOfJoin(Values(a, t).value);
    }
    if t == Encode(a, s) { DecodeOfEncode(a, true, s); }
  }

  lemma EncodeInjective(a: Alphabet, s: Bytes, t: Bytes)
    requires Encode(a, s) == Encode(a, t)
    ensures s == t
  {
    DecodeOfEncode(a, true, s);
    DecodeOfEncode(a, true, t);
  }

  // ---- the alphabets and the grouping of RFC 4648 ----

  const UPPER: string := "ABCDEFGHIJKLMNOPQRSTUVWXYZ"
  const LOWER: string := "abcdefghijklmnopqrstuvwxyz"
  const FIGURES: string := "0123456789"

  lemma UpperAt(v: int)
    requires 0 <= v < 26
    ensures |UPPER| == 26 && UPPER[v] as int == 'A' as int + v
  {
  }

  lemma LowerAt(v: int)
    requires 0 <= v < 26
    ensures |LOWER| == 26 && LOWER[v] as int == 'a' as int + v
  {
  }

  lemma FigureAt(v: int)
    requires 0 <= v < 10
    ensures |FIGURES| == 10 && FIGURES[v] as int == '0' as int + v
  {
  }

  lemma AtClass(upper: string, lower: string, figures: string, rest: string, v: Sextet)
    requires |upper| == 26 && |lower| == 26 && |figures| == 10 && |rest| == 2
    ensures (upper + lower + figures + rest)[v] ==
              if v < 26 then upper[v] else if v < 52 then lower[v - 26] else if v < 62 then figures[v - 52] else rest[v - 62]
  {
  }

  /** Tables 1 and 2 of RFC 4648. */
  lemma DigitsAre(v: Sextet)
    ensures |UPPER| == 26 && |LOWER| == 26 && |FIGURES| == 10
    ensures Digit(Standard, v) == (UPPER + LOWER + FIGURES + "+/")[v]
    ensures Digit(UrlSafe, v) == (UPPER + LOWER + FIGURES + "-_")[v]
  {
    UpperAt(if v < 26 then v else 0);
    LowerAt(if 26 <= v < 52 then v - 26 else 0);
    FigureAt(if 52 <= v < 62 then v - 52 else 0);
    AtClass(UPPER, LOWER, FIGURES, "+/", v);
    AtClass(UPPER, LOWER, FIGURES, "-_", v);
  }

  /** Three bytes and their four sextets are the same 24 bits, most significant first; one or two bytes left over are
      followed by zero bits. */
  lemma SameBits(s: Bytes)
    ensures var v: seq<int> := Split(s);
            && (|s| >= 3 ==>
                  && |v| >= 4 && v[4..] == Split(s[3..])
                  && v[0] * 262144 + v[1] * 4096 + v[2] * 64 + v[3] == (s[0] as int) * 65536 + (s[1] as int) * 256 + s[2])
            && (|s| == 2 ==> |v| == 3 && v[0] * 4096 + v[1] * 64 + v[2] == (s[0] as int) * 1024 + (s[1] as int) * 4)
            && (|s| == 1 ==> |v| == 2 && v[0] * 64 + v[1] == (s[0] as int) * 16)
            && (|s| == 0 ==> v == [])
  {
    if |s| >= 3 { assert Split(s)[4..] == Split(s[3..]); }
  }

  // ---- what decoding ignores ----

  lemma {:induction false} SkipConcat(s: string, t: string)
    ensures Skip(s + t) == Skip(s) + Skip(t)
  {
    if s == "" {
      assert s + t == t;
    } else {
      SkipConcat(s[1..], t);
      assert (s + t)[0] == s[0] && (s + t)[1..] == s[1..] + t;
    }
  }

  lemma SkipOne(s: string, c: char, t: string)
    requires LineEnd(c)
    ensures Skip(s + [c] + t) == Skip(s + t)
  {
    assert [c][1..] == "" && Skip([c]) == "";
    SkipConcat(s, t);
    SkipConcat(s, [c]);
    SkipConcat(s + [c], t);
    assert Skip(s) + "" == Skip(s);
  }

  /** A carriage return or a line feed anywhere makes no difference. */
  lemma LineEndsIgnored(a: Alphabet, strict: bool, s: string, t: string)
    ensures Decode(a, strict, s + "\n" + t) == Decode(a, strict, s + t)
    ensures Decode(a, strict, s + "\r" + t) == Decode(a, strict, s + t)
  {
    SkipOne(s, '\n', t);
    SkipOne(s, '\r', t);
  }

  /** The sextets with the fill bits of the last one cleared. */
  function Cleared(v: seq<Sextet>): seq<Sextet>
    decreases |v|
  {
    if |v| == 2 then [v[0], v[1] / 16 * 16]
    else if |v| == 3 then [v[0], v[1], v[2] / 4 * 4]
    else if |v| < 2 then v
    else v[..4] + Cleared(v[4..])
  }

  lemma SameBytes(u: Sextet, v: Sextet, w: Sextet)
    ensures Byte0(u, v / 16 * 16) == Byte0(u, v) && v / 16 * 16 % 16 == 0
    ensures Byte1(v, w / 4 * 4) == Byte1(v, w) && w / 4 * 4 % 4 == 0
  {
    var a, b: int := v / 16, w / 4;
    assert a * 16 / 16 == a && b * 4 / 4 == b;
  }

  lemma LenientTail(v: seq<Sextet>)
    requires |v| < 4
    ensures Join(false, v) == Join(true, Cleared(v))
  {
    if |v| == 2 {
      SameBytes(v[0], v[1], 0);
    } else if |v| == 3 {
      SameBytes(0, v[1], v[2]);
    }
  }

  /** Lenient decoding takes any fill bits, as if they were zero. */
  lemma {:induction false} LenientIgnoresFill(v: seq<Sextet>)
    ensures Join(false, v) == Join(true, Cleared(v))
    decreases |v|
  {
    if |v| < 4 {
      LenientTail(v);
    } else {
      LenientIgnoresFill(v[4..]);
      var c := Cleared(v);
      assert c[0] == v[0] && c[1] == v[1] && c[2] == v[2] && c[3] == v[3] && c[4..] == Cleared(v[4..]);
    }
  }

  lemma FourFewer(n: nat)
    requires n >= 4
    ensures n % 4 == (n - 4) % 4
  {
  }

  /** It refuses a single sextet over, and nothing else. */
  lemma {:induction false} LenientRefuses(v: seq<Sextet>)
    ensures Join(false, v).None? <==> |v| % 4 == 1
    decreases |v|
  {
    if |v| >= 4 {
      LenientRefuses(v[4..]);
      JoinFront(false, v);
      FourFewer(|v|);
    }
  }
}
