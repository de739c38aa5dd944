/** Argon2id hash strings: fmt.Sprintf one way, fmt.Fscanf and strict base64 the other. */
module Password {
  import opened Basics
  import B = Base64

  type Bytes = B.Bytes
  type Uint32 = n: int | 0 <= n < 0x1_0000_0000
  type Uint8 = n: int | 0 <= n < 256

  datatype HashParams =
    HashParams(memory: Uint32, iterations: Uint32, threads: Uint8, saltLength: Uint32, keyLength: Uint32)

  datatype Hash = Hash(params: HashParams, salt: Bytes, key: Bytes)

  /** The three errors of the package, and every error of the scanner and the base64 decoder. */
  datatype Error = IncompatibleVariant | IncompatibleVersion | InvalidHash | Malformed

  const ARGON2_VERSION: int := 0x13

  // ---- printing ----

  function DigitChar(d: int): char
    requires 0 <= d < 10
  {
    ('0' as int + d) as char
  }

  /** %d of a non-negative number. */
  function Decimal(n: nat): string {
    if n < 10 then [DigitChar(n)] else Decimal(n / 10) + [DigitChar(n % 10)]
  }

  function Segments(salt: Bytes, key: Bytes): string {
    B.Encode(B.Standard, salt) + "$" + B.Encode(B.Standard, key)
  }

  function Format(params: HashParams, salt: Bytes, key: Bytes): string {
    "$argon2id$" + "v=" + Decimal(ARGON2_VERSION) + "$" + "m=" + Decimal(params.memory) +
    ",t=" + Decimal(params.iterations) + ",p=" + Decimal(params.threads) + "$" + Segments(salt, key)
  }

  // ---- scanning ----

  predicate IsDigit(c: char) {
    '0' <= c <= '9'
  }

  /** White space to the scanner, except the newline, which it refuses. */
  predicate IsBlank(c: char) {
    var r := c as int;
    || (0x9 <= r <= 0xD && r != 0xA) || r == 0x20 || r == 0x85 || r == 0xA0 || r == 0x1680
    || 0x2000 <= r <= 0x200A || 0x2028 <= r <= 0x2029 || r == 0x202F || r == 0x205F || r == 0x3000
  }

  function DigitOf(c: char): nat
    requires IsDigit(c)
  {
    c as int - '0' as int
  }

  /** The number a run of digits denotes. */
  function NumberOf(ds: string): nat
    requires forall c | c in ds :: IsDigit(c)
  {
    if ds == "" then 0 else 10 * NumberOf(ds[..|ds| - 1]) + DigitOf(ds[|ds| - 1])
  }

  const BLANKS: string :=
    "\t\U{B}\U{C}\r \U{85}\U{A0}\U{1680}\U{2000}\U{2001}\U{2002}\U{2003}" +
    "\U{2004}\U{2005}\U{2006}\U{2007}\U{2008}\U{2009}\U{200A}\U{2028}\U{2029}\U{202F}\U{205F}\U{3000}"

  /** These are all the blanks there are. */
  lemma BlanksAre(c: char)
    ensures IsBlank(c) <==> c in BLANKS
  {
  }

  /** How many characters in front satisfy p. */
  function Leading(s: string, p: char -> bool): nat {
    if s == "" || !p(s[0]) then 0 else 1 + Leading(s[1..], p)
  }

  lemma {:induction false} LeadingRun(s: string, p: char -> bool)
    ensures var k := Leading(s, p);
            k <= |s| && (forall c | c in s[..k] :: p(c)) && (k < |s| ==> !p(s[k]))
  {
    if s != "" && p(s[0]) {
      LeadingRun(s[1..], p);
      var k := Leading(s, p);
      assert s[..k] == [s[0]] + s[1..][..k - 1];
    }
  }

  lemma {:induction false} LeadingUnique(s: string, p: char -> bool, k: nat)
    requires k <= |s| && (forall i | 0 <= i < k :: p(s[i])) && (k < |s| ==> !p(s[k]))
    ensures Leading(s, p) == k
  {
    if k > 0 { LeadingUnique(s[1..], p, k - 1); }
  }

  /** Literal text of a format: it is there and is consumed, or the scan fails. */
  function AfterLiteral(lit: string, s: string): Option<string> {
    if lit <= s then Some(s[|lit|..]) else None
  }

  /** A run of digits whose value is in range; the rest is left unread. */
  function ScanDigits(s: string, negative: bool, low: int, high: int): (r: Option<(int, string)>)
    ensures r.Some? ==> low <= r.value.0 <= high
  {
    LeadingRun(s, IsDigit);
    var k := Leading(s, IsDigit);
    if k == 0 then None else
    var n := if negative then -(NumberOf(s[..k]) as int) else NumberOf(s[..k]);
    if low <= n <= high then Some((n, s[k..])) else None
  }

  predicate SignFirst(s: string) {
    s != "" && (s[0] == '+' || s[0] == '-')
  }

  /** A sign where one may be, then digits. */
  function ScanSigned(s: string, signed: bool, low: int, high: int): (r: Option<(int, string)>)
    ensures r.Some? ==> low <= r.value.0 <= high
  {
    if signed && SignFirst(s) then ScanDigits(s[1..], s[0] == '-', low, high) else ScanDigits(s, false, low, high)
  }

  /** Blanks in front are skipped. */
  function ScanInt(s: string, signed: bool, low: int, high: int): (r: Option<(int, string)>)
    ensures r.Some? ==> low <= r.value.0 <= high
  {
    LeadingRun(s, IsBlank);
    ScanSigned(s[Leading(s, IsBlank)..], signed, low, high)
  }

  const MAX_INT64: int := 0x7FFF_FFFF_FFFF_FFFF

  /** "v=%d$" into an int. */
  function ScanVersion(s: string): Option<(int, string)> {
    match AfterLiteral("v=", s)
    case None => None
    case Some(a) =>
      match ScanInt(a, true, -MAX_INT64 - 1, MAX_INT64)
      case None => None
      case Some((v, b)) =>
        match AfterLiteral("$", b) case Some(c) => Some((v, c)) case None => None
  }

  /** A literal and an unsigned integer. */
  function ScanField(lit: string, high: int, s: string): (r: Option<(int, string)>)
    ensures r.Some? ==> 0 <= r.value.0 <= high
  {
    match AfterLiteral(lit, s) case Some(a) => ScanInt(a, false, 0, high) case None => None
  }

  /** "m=%d,t=%d,p=%d$" into two uint32 and a uint8. */
  function ScanParams(s: string): Option<(HashParams, string)> {
    match ScanField("m=", 0xFFFF_FFFF, s)
    case None => None
    case Some((m, a)) =>
      match ScanField(",t=", 0xFFFF_FFFF, a)
      case None => None
      case Some((t, b)) =>
        match ScanField(",p=", 255, b)
        case None => None
        case Some((p, c)) =>
          match AfterLiteral("$", c)
          case None => None
          case Some(d) => Some((HashParams(m, t, p, 0, 0), d))
  }

  predicate NotDollar(c: char) {
    c != '$'
  }

  /** The two base64 segments behind the parameters. */
  function DecodeRest(params: HashParams, rest: string): Result<Hash, Error> {
    if exists c | c in rest :: B.LineEnd(c) then Err(InvalidHash) else
    var i := Leading(rest, NotDollar);
    LeadingRun(rest, NotDollar);
    if i == |rest| then Err(InvalidHash) else
    match (B.Decode(B.Standard, true, rest[..i]), B.Decode(B.Standard, true, rest[i + 1..]))
    case (Some(salt), Some(key)) => Ok(Hash(WithLengths(params, salt, key), salt, key))
    case _ => Err(Malformed)
  }

  function WithLengths(params: HashParams, salt: Bytes, key: Bytes): HashParams {
    params.(saltLength := |salt| % 0x1_0000_0000, keyLength := |key| % 0x1_0000_0000)
  }

  function Decoded(hash: string): Result<Hash, Error> {
    match AfterLiteral("$argon2id$", hash)
    case None => Err(IncompatibleVariant)
    case Some(a) =>
      match ScanVersion(a)
      case None => Err(Malformed)
      case Some((version, b)) =>
        if version != ARGON2_VERSION then Err(IncompatibleVersion) else
        match ScanParams(b)
        case None => Err(Malformed)
        case Some((params, rest)) => DecodeRest(params, rest)
  }

  // ---- what is accepted ----

  /** A number as the scanner reads it: blanks, perhaps a sign, digits with any number of leading zeros. */
  datatype Field = Field(blanks: string, sign: string, digits: string)

  /** The number written in front of a text. */
  function Before(f: Field, rest: string): string {
    f.blanks + (f.sign + (f.digits + rest))
  }

  predicate Spells(f: Field, signed: bool, n: int) {
    && (forall c | c in f.blanks :: IsBlank(c))
    && (f.sign == "" || (signed && (f.sign == "+" || f.sign == "-")))
    && f.digits != "" && (forall c | c in f.digits :: IsDigit(c))
    && n == if f.sign == "-" then -(NumberOf(f.digits) as int) else NumberOf(f.digits)
  }

  predicate NoDigitFirst(s: string) {
    s != "" ==> !IsDigit(s[0])
  }

  lemma LeadingOf(a: string, b: string, p: char -> bool)
    requires (forall c | c in a :: p(c)) && (b != "" ==> !p(b[0]))
    ensures Leading(a + b, p) == |a| && (a + b)[..|a|] == a && (a + b)[|a|..] == b
  {
    var s := a + b;
    forall i | 0 <= i < |a| ensures p(s[i]) { assert s[i] == a[i] && a[i] in a; }
    LeadingUnique(s, p, |a|);
  }

  lemma DigitsOf(ds: string, negative: bool, low: int, high: int, rest: string)
    requires ds != "" && (forall c | c in ds :: IsDigit(c)) && NoDigitFirst(rest)
    ensures ScanDigits(ds + rest, negative, low, high) ==
              var n := if negative then -(NumberOf(ds) as int) else NumberOf(ds);
              if low <= n <= high then Some((n, rest)) else None
  {
    LeadingOf(ds, rest, IsDigit);
  }

  lemma SignedOf(sign: string, ds: string, signed: bool, low: int, high: int, rest: string)
    requires sign == "" || (signed && (sign == "+" || sign == "-"))
    requires ds != "" && (forall c | c in ds :: IsDigit(c)) && NoDigitFirst(rest)
    ensures ScanSigned(sign + (ds + rest), signed, low, high) == ScanDigits(ds + rest, sign == "-", low, high)
    ensures !IsBlank((sign + (ds + rest))[0])
  {
    assert ds[0] in ds;
    var t := sign + (ds + rest);
    if sign == "" {
      assert t == ds + rest && t[0] == ds[0];
    } else {
      assert t[0] == sign[0] && t[1..] == ds + rest;
    }
  }

  /** Scanning a spelled number in front of anything but another digit. */
  lemma ScanOf(f: Field, signed: bool, low: int, high: int, n: int, rest: string)
    requires Spells(f, signed, n) && low <= n <= high && NoDigitFirst(rest)
    ensures ScanInt(Before(f, rest), signed, low, high) == Some((n, rest))
  {
    var t := f.sign + (f.digits + rest);
    SignedOf(f.sign, f.digits, signed, low, high, rest);
    DigitsOf(f.digits, f.sign == "-", low, high, rest);
    BlanksOf(f.blanks, t, signed, low, high);
  }

  lemma BlanksOf(blanks: string, t: string, signed: bool, low: int, high: int)
    requires (forall c | c in blanks :: IsBlank(c)) && (t != "" ==> !IsBlank(t[0]))
    ensures ScanInt(blanks + t, signed, low, high) == ScanSigned(t, signed, low, high)
  {
    LeadingOf(blanks, t, IsBlank);
  }

  lemma DigitsIs(s: string, negative: bool, low: int, high: int) returns (ds: string)
    requires ScanDigits(s, negative, low, high).Some?
    ensures var (n, rest) := ScanDigits(s, negative, low, high).value;
            && s == ds + rest && ds != "" && NoDigitFirst(rest) && (forall c | c in ds :: IsDigit(c))
            && n == if negative then -(NumberOf(ds) as int) else NumberOf(ds)
  {
    LeadingRun(s, IsDigit);
    ds := s[..Leading(s, IsDigit)];
  }

  lemma SignedIs(s: string, signed: bool, low: int, high: int) returns (sign: string, ds: string)
    requires ScanSigned(s, signed, low, high).Some?
    ensures var (n, rest) := ScanSigned(s, signed, low, high).value;
            s == sign + (ds + rest) && Spells(Field("", sign, ds), signed, n) && NoDigitFirst(rest)
  {
    if signed && SignFirst(s) {
      sign := s[..1];
      ds := DigitsIs(s[1..], s[0] == '-', low, high);
    } else {
      sign := "";
      ds := DigitsIs(s, false, low, high);
    }
  }

  /** Whatever is scanned is a spelled number. */
  lemma ScanIs(s: string, signed: bool, low: int, high: int) returns (f: Field)
    requires ScanInt(s, signed, low, high).Some?
    ensures var (n, rest) := ScanInt(s, signed, low, high).value;
            s == Before(f, rest) && Spells(f, signed, n) && NoDigitFirst(rest)
  {
    LeadingRun(s, IsBlank);
    var i := Leading(s, IsBlank);
    var sign, ds := SignedIs(s[i..], signed, low, high);
    f := Field(s[..i], sign, ds);
    assert s == s[..i] + s[i..];
  }

  /** A hash string with its numbers spelled by v, m, t and p. */
  function Spelled(v: Field, m: Field, t: Field, p: Field, rest: string): string {
    "$argon2id$" + ("v=" + Before(v, "$" + SpelledParams(m, t, p, rest)))
  }

  function SpelledParams(m: Field, t: Field, p: Field, rest: string): string {
    "m=" + Before(m, ",t=" + Before(t, ",p=" + Before(p, "$" + rest)))
  }

  lemma SegmentsShape(salt: Bytes, key: Bytes)
    ensures var rest := Segments(salt, key);
            var i := Leading(rest, NotDollar);
            && i < |rest| && rest[..i] == B.Encode(B.Standard, salt) && rest[i + 1..] == B.Encode(B.Standard, key)
            && forall c | c in rest :: !B.LineEnd(c)
  {
    var a, b := B.Encode(B.Standard, salt), B.Encode(B.Standard, key);
    B.DigitsHaveValues(B.Standard, B.Split(salt));
    B.DigitsHaveValues(B.Standard, B.Split(key));
    assert Segments(salt, key) == a + (['$'] + b);
    LeadingOf(a, ['$'] + b, NotDollar);
  }

  /** The last two segments are decoded exactly when they are what encoding produces. */
  lemma RestIff(params: HashParams, rest: string, h: Hash)
    ensures DecodeRest(params, rest) == Ok(h) <==>
              rest == Segments(h.salt, h.key) && h.params == WithLengths(params, h.salt, h.key)
  {
    if rest == Segments(h.salt, h.key) {
      SegmentsShape(h.salt, h.key);
      B.DecodeOfEncode(B.Standard, true, h.salt);
      B.DecodeOfEncode(B.Standard, true, h.key);
    }
    if DecodeRest(params, rest) == Ok(h) {
      LeadingRun(rest, NotDollar);
      var i := Leading(rest, NotDollar);
      B.StrictIffCanonical(B.Standard, rest[..i], h.salt);
      B.StrictIffCanonical(B.Standard, rest[i + 1..], h.key);
      assert rest == rest[..i] + "$" + rest[i + 1..];
    }
  }

  lemma LiteralOf(lit: string, rest: string)
    ensures AfterLiteral(lit, lit + rest) == Some(rest)
  {
  }

  lemma LiteralIs(lit: string, s: string)
    requires AfterLiteral(lit, s).Some?
    ensures s == lit + AfterLiteral(lit, s).value
  {
  }

  lemma VersionOf(v: Field, rest: string)
    requires Spells(v, true, ARGON2_VERSION)
    ensures ScanVersion("v=" + Before(v, "$" + rest)) == Some((ARGON2_VERSION, rest))
  {
    LiteralOf("v=", Before(v, "$" + rest));
    ScanOf(v, true, -MAX_INT64 - 1, MAX_INT64, ARGON2_VERSION, "$" + rest);
    LiteralOf("$", rest);
  }

  lemma VersionIs(s: string) returns (v: Field)
    requires ScanVersion(s).Some?
    ensures Spells(v, true, ScanVersion(s).value.0) && s == "v=" + Before(v, "$" + ScanVersion(s).value.1)
  {
    var a := AfterLiteral("v=", s).value;
    LiteralIs("v=", s);
    v := ScanIs(a, true, -MAX_INT64 - 1, MAX_INT64);
    LiteralIs("$", ScanInt(a, true, -MAX_INT64 - 1, MAX_INT64).value.1);
  }

  lemma FieldOf(lit: string, f: Field, high: int, n: int, rest: string)
    requires Spells(f, false, n) && 0 <= n <= high && NoDigitFirst(rest)
    ensures ScanField(lit, high, lit + Before(f, rest)) == Some((n, rest))
  {
    LiteralOf(lit, Before(f, rest));
    ScanOf(f, false, 0, high, n, rest);
  }

  lemma FieldIs(lit: string, high: int, s: string) returns (f: Field)
    requires ScanField(lit, high, s).Some?
    ensures Spells(f, false, ScanField(lit, high, s).value.0) && s == lit + Before(f, ScanField(lit, high, s).value.1)
  {
    LiteralIs(lit, s);
    f := ScanIs(AfterLiteral(lit, s).value, false, 0, high);
  }

  predicate SpellsParams(m: Field, t: Field, p: Field, params: HashParams) {
    Spells(m, false, params.memory) && Spells(t, false, params.iterations) && Spells(p, false, params.threads)
  }

  lemma ParamsOf(m: Field, t: Field, p: Field, params: HashParams, rest: string)
    requires SpellsParams(m, t, p, params)
    ensures ScanParams(SpelledParams(m, t, p, rest)) == Some((params.(saltLength := 0, keyLength := 0), rest))
  {
    var c := "$" + rest;
    var b := ",p=" + Before(p, c);
    var a := ",t=" + Before(t, b);
    FieldOf("m=", m, 0xFFFF_FFFF, params.memory, a);
    FieldOf(",t=", t, 0xFFFF_FFFF, params.iterations, b);
    FieldOf(",p=", p, 255, params.threads, c);
    LiteralOf("$", rest);
  }

  lemma ParamsIs(s: string) returns (m: Field, t: Field, p: Field)
    requires ScanParams(s).Some?
    ensures var (params, rest) := ScanParams(s).value;
            && SpellsParams(m, t, p, params) && params.saltLength == params.keyLength == 0
            && s == SpelledParams(m, t, p, rest)
  {
    m := FieldIs("m=", 0xFFFF_FFFF, s);
    var a := ScanField("m=", 0xFFFF_FFFF, s).value.1;
    t := FieldIs(",t=", 0xFFFF_FFFF, a);
    var b := ScanField(",t=", 0xFFFF_FFFF, a).value.1;
    p := FieldIs(",p=", 255, b);
    LiteralIs("$", ScanField(",p=", 255, b).value.1);
  }

  /** hash writes h, with its four numbers spelled by v, m, t and p. */
  predicate Writes(hash: string, h: Hash, v: Field, m: Field, t: Field, p: Field) {
    && hash == Spelled(v, m, t, p, Segments(h.salt, h.key))
    && Spells(v, true, ARGON2_VERSION) && SpellsParams(m, t, p, h.params)
    && h.params == WithLengths(h.params, h.salt, h.key)
  }

  lemma WrittenDecodes(hash: string, h: Hash, v: Field, m: Field, t: Field, p: Field)
    requires Writes(hash, h, v, m, t, p)
    ensures Decoded(hash) == Ok(h)
  {
    var rest := Segments(h.salt, h.key);
    LiteralOf("$argon2id$", "v=" + Before(v, "$" + SpelledParams(m, t, p, rest)));
    VersionOf(v, SpelledParams(m, t, p, rest));
    ParamsOf(m, t, p, h.params, rest);
    RestIff(h.params.(saltLength := 0, keyLength := 0), rest, h);
  }

  lemma DecodedIsWritten(hash: string, h: Hash) returns (v: Field, m: Field, t: Field, p: Field)
    requires Decoded(hash) == Ok(h)
    ensures Writes(hash, h, v, m, t, p)
  {
    var a := AfterLiteral("$argon2id$", hash).value;
    var b := ScanVersion(a).value.1;
    var (params, rest) := ScanParams(b).value;
    LiteralIs("$argon2id$", hash);
    v := VersionIs(a);
    m, t, p := ParamsIs(b);
    RestIff(params, rest, h);
  }

  /** A hash string is accepted exactly when it writes the parameters, and its last two segments are the
      encodings of the salt and the key that come out: nothing but the spelling of the numbers is free. */
  lemma AcceptedIff(hash: string, h: Hash)
    ensures Decoded(hash) == Ok(h) <==> exists v, m, t, p :: Writes(hash, h, v, m, t, p)
  {
    if Decoded(hash) == Ok(h) {
      var v, m, t, p := DecodedIsWritten(hash, h);
    }
    if v, m, t, p :| Writes(hash, h, v, m, t, p) {
      WrittenDecodes(hash, h, v, m, t, p);
    }
  }

  // ---- hashing and verifying ----

  lemma {:induction false} NumberOfDecimal(n: nat)
    ensures Decimal(n) != "" && (forall c | c in Decimal(n) :: IsDigit(c)) && NumberOf(Decimal(n)) == n
  {
    var s := Decimal(n);
    if n < 10 {
      assert s[..0] == "";
    } else {
      NumberOfDecimal(n / 10);
      assert s[..|s| - 1] == Decimal(n / 10);
      assert DigitOf(s[|s| - 1]) == n % 10;
    }
  }

  function Plain(n: nat): Field {
    Field("", "", Decimal(n))
  }

  lemma PlainBefore(n: nat, rest: string)
    ensures Before(Plain(n), rest) == Decimal(n) + rest && Spells(Plain(n), true, n) && Spells(Plain(n), false, n)
  {
    NumberOfDecimal(n);
  }

  lemma Regroup(a: string, b: string, c: string)
    ensures a + b + c == a + (b + c)
  {
  }

  lemma Regroup5(a: string, b: string, c: string, d: string, e: string)
    ensures a + b + c + d + e == a + (b + (c + (d + e)))
  {
    Regroup(a, b, c);
    Regroup(a, b + c, d);
    Regroup(a, b + c + d, e);
    Regroup(b, c, d);
    Regroup(b, c + d, e);
    Regroup(c, d, e);
  }

  lemma FormatIsSpelled(params: HashParams, salt: Bytes, key: Bytes)
    ensures Format(params, salt, key) ==
              Spelled(Plain(ARGON2_VERSION), Plain(params.memory), Plain(params.iterations), Plain(params.threads), Segments(salt, key))
  {
    var v, m, t, p := Decimal(ARGON2_VERSION), Decimal(params.memory), Decimal(params.iterations), Decimal(params.threads);
    var rest := Segments(salt, key);
    PlainBefore(params.threads, "$" + rest);
    PlainBefore(params.iterations, ",p=" + (p + ("$" + rest)));
    PlainBefore(params.memory, ",t=" + (t + (",p=" + (p + ("$" + rest)))));
    PlainBefore(ARGON2_VERSION, "$" + ("m=" + (m + (",t=" + (t + (",p=" + (p + ("$" + rest))))))));
    Regroup5("$argon2id$", "v=", v, "$", "m=" + (m + (",t=" + (t + (",p=" + (p + ("$" + rest)))))));
    Regroup5("$argon2id$" + "v=" + v + "$", "m=", m, ",t=", t + (",p=" + (p + ("$" + rest))));
    Regroup5("$argon2id$" + "v=" + v + "$" + "m=" + m + ",t=", t, ",p=", p, "$" + rest);
    Regroup("$argon2id$" + "v=" + v + "$" + "m=" + m + ",t=" + t + ",p=" + p, "$", rest);
  }

  /** Decoding gives back every parameter, salt and key that was formatted. */
  lemma DecodeOfFormat(params: HashParams, salt: Bytes, key: Bytes)
    ensures Decoded(Format(params, salt, key)) ==
              Ok(Hash(WithLengths(params, salt, key), salt, key))
  {
    var m, t, p := Plain(params.memory), Plain(params.iterations), Plain(params.threads);
    var hash := Format(params, salt, key);
    var h := Hash(WithLengths(params, salt, key), salt, key);
    FormatIsSpelled(params, salt, key);
    PlainBefore(ARGON2_VERSION, "");
    PlainBefore(params.memory, "");
    PlainBefore(params.iterations, "");
    PlainBefore(params.threads, "");
    WrittenDecodes(hash, h, Plain(ARGON2_VERSION), m, t, p);
  }

  /** argon2.IDKey(password, salt, iterations, memory, threads, key length); None where the library panics. */
  type Argon2 = (string, Bytes, Uint32, Uint32, Uint8, Uint32) -> Option<Bytes>

  /** All that is used of it: the key has the length asked for. */
  ghost predicate Sound(idKey: Argon2) {
    forall w, s, t, m, p, n :: idKey(w, s, t, m, p, n).Some? ==> |idKey(w, s, t, m, p, n).value| == n
  }

  const DEFAULT_PARAMS: HashParams := HashParams(64 * 1024, 3, 4, 16, 32)

  function Chosen(params: Option<HashParams>): HashParams {
    if params.Some? then params.value else DEFAULT_PARAMS
  }

  function KeyOf(idKey: Argon2, password: string, salt: Bytes, params: HashParams): Option<Bytes> {
    idKey(password, salt, params.iterations, params.memory, params.threads, params.keyLength)
  }

  /** The random salt is a parameter. */
  function HashPassword(idKey: Argon2, password: string, params: Option<HashParams>, salt: Bytes): Option<string>
    requires |salt| == Chosen(params).saltLength
  {
    match KeyOf(idKey, password, salt, Chosen(params))
    case Some(key) => Some(Format(Chosen(params), salt, key))
    case None => None
  }

  datatype Verdict = Accepted | Rejected | Failed(error: Error) | Panics

  /** The lengths are compared as int32, then the keys. */
  function VerifyPassword(idKey: Argon2, password: string, hash: string): Verdict {
    match Decoded(hash)
    case Err(e) => Failed(e)
    case Ok(h) =>
      match KeyOf(idKey, password, h.salt, h.params)
      case None => Panics
      case Some(other) =>
        if |h.key| % 0x1_0000_0000 == |other| % 0x1_0000_0000 && h.key == other then Accepted else Rejected
  }

  lemma HashDecodes(idKey: Argon2, password: string, params: Option<HashParams>, salt: Bytes)
    requires Sound(idKey) && |salt| == Chosen(params).saltLength
    requires HashPassword(idKey, password, params, salt).Some?
    ensures Decoded(HashPassword(idKey, password, params, salt).value) ==
              Ok(Hash(Chosen(params), salt, KeyOf(idKey, password, salt, Chosen(params)).value))
  {
    var key := KeyOf(idKey, password, salt, Chosen(params)).value;
    assert |key| == Chosen(params).keyLength;
    assert WithLengths(Chosen(params), salt, key) == Chosen(params);
    DecodeOfFormat(Chosen(params), salt, key);
  }

  /** The hash of a password is the formatted key that Argon2 derives with these iterations, this memory, these
      threads and this key length, in the order its signature has them. */
  lemma HashIff(idKey: Argon2, w: string, params: HashParams, salt: Bytes, key: Bytes)
    requires |salt| == params.saltLength
    ensures HashPassword(idKey, w, Some(params), salt) == Some(Format(params, salt, key)) <==>
              idKey(w, salt, params.iterations, params.memory, params.threads, params.keyLength) == Some(key)
    ensures HashPassword(idKey, w, Some(params), salt) == None <==>
              idKey(w, salt, params.iterations, params.memory, params.threads, params.keyLength) == None
  {
    if HashPassword(idKey, w, Some(params), salt) == Some(Format(params, salt, key)) {
      DecodeOfFormat(params, salt, key);
      DecodeOfFormat(params, salt, KeyOf(idKey, w, salt, params).value);
    }
  }

  lemma NumbersAre()
    ensures Decimal(19) == "19" && Decimal(65536) == "65536" && Decimal(3) == "3" && Decimal(4) == "4"
  {
    assert Decimal(6) == "6" && Decimal(65) == "65" && Decimal(655) == "655" && Decimal(6553) == "6553";
    assert Decimal(1) == "1";
  }

  /** Without parameters: three passes over 64 MiB on four threads, a salt of 16 bytes and a key of 32, and the text
      says so. */
  lemma DefaultHashIff(idKey: Argon2, w: string, salt: Bytes, key: Bytes)
    requires |salt| == 16
    ensures Chosen(None).saltLength == 16
    ensures HashPassword(idKey, w, None, salt) ==
              Some("$argon2id$v=19$m=65536,t=3,p=4$" + B.Encode(B.Standard, salt) + "$" + B.Encode(B.Standard, key)) <==>
              idKey(w, salt, 3, 65536, 4, 32) == Some(key)
  {
    HashIff(idKey, w, DEFAULT_PARAMS, salt, key);
    DefaultText(salt, key);
  }

  lemma DefaultText(salt: Bytes, key: Bytes)
    ensures Format(DEFAULT_PARAMS, salt, key) ==
              "$argon2id$v=19$m=65536,t=3,p=4$" + B.Encode(B.Standard, salt) + "$" + B.Encode(B.Standard, key)
  {
    NumbersAre();
    var front := "$argon2id$" + "v=" + "19" + "$" + "m=" + "65536" + ",t=" + "3" + ",p=" + "4" + "$";
    assert front == "$argon2id$v=19$m=65536,t=3,p=4$";
    Regroup(front, B.Encode(B.Standard, salt), "$" + B.Encode(B.Standard, key));
    Regroup(B.Encode(B.Standard, salt), "$", B.Encode(B.Standard, key));
    Regroup(front + B.Encode(B.Standard, salt), "$", B.Encode(B.Standard, key));
  }

  /** A hash accepts the password it was made from, and another password only if Argon2 gives both the same key. */
  lemma VerifyOfHash(idKey: Argon2, password: string, attempt: string, params: HashParams, salt: Bytes)
    requires Sound(idKey) && |salt| == params.saltLength
    requires HashPassword(idKey, password, Some(params), salt).Some?
    ensures var hash := HashPassword(idKey, password, Some(params), salt).value;
            && VerifyPassword(idKey, password, hash) == Accepted
            && (VerifyPassword(idKey, attempt, hash) == Accepted <==>
                  idKey(attempt, salt, params.iterations, params.memory, params.threads, params.keyLength)
                    == idKey(password, salt, params.iterations, params.memory, params.threads, params.keyLength))
  {
    HashDecodes(idKey, password, Some(params), salt);
  }

  /** The same without parameters. */
  lemma VerifyOfDefaultHash(idKey: Argon2, password: string, attempt: string, salt: Bytes)
    requires Sound(idKey) && |salt| == 16
    requires HashPassword(idKey, password, None, salt).Some?
    ensures var hash := HashPassword(idKey, password, None, salt).value;
            && VerifyPassword(idKey, password, hash) == Accepted
            && (VerifyPassword(idKey, attempt, hash) == Accepted <==>
                  idKey(attempt, salt, 3, 65536, 4, 32) == idKey(password, salt, 3, 65536, 4, 32))
  {
    VerifyOfHash(idKey, password, attempt, DEFAULT_PARAMS, salt);
  }

  /** Of all strings, exactly those accept a password that write parameters, a salt and the key that Argon2 derives
      from the password with them. */
  lemma AcceptsIff(idKey: Argon2, password: string, hash: string)
    ensures VerifyPassword(idKey, password, hash) == Accepted <==>
              exists h, v, m, t, p ::
                && Writes(hash, h, v, m, t, p)
                && idKey(password, h.salt, h.params.iterations, h.params.memory, h.params.threads, h.params.keyLength) == Some(h.key)
  {
    if VerifyPassword(idKey, password, hash) == Accepted {
      var h := Decoded(hash).value;
      var v, m, t, p := DecodedIsWritten(hash, h);
    }
    if h, v, m, t, p :| Writes(hash, h, v, m, t, p)
                        && idKey(password, h.salt, h.params.iterations, h.params.memory, h.params.threads, h.params.keyLength) == Some(h.key) {
      WrittenDecodes(hash, h, v, m, t, p);
    }
  }

  /** What verifying answers: the decoder's error, nothing if Argon2 panics, and otherwise whether the keys are equal. */
  lemma VerifyAnswers(idKey: Argon2, password: string, hash: string)
    ensures Decoded(hash).Err? <==> VerifyPassword(idKey, password, hash).Failed?
    ensures Decoded(hash).Err? ==> VerifyPassword(idKey, password, hash) == Failed(Decoded(hash).error)
    ensures Decoded(hash).Ok? ==>
              var h := Decoded(hash).value;
              var other := idKey(password, h.salt, h.params.iterations, h.params.memory, h.params.threads, h.params.keyLength);
              && (VerifyPassword(idKey, password, hash) == Panics <==> other == None)
              && (VerifyPassword(idKey, password, hash) == Accepted <==> other == Some(h.key))
  {
  }

  /** Which error the decoder answers: another variant, another version, or a tail that is not two segments on one
      line. */
  lemma DecodeRefuses(hash: string)
    ensures Decoded(hash) == Err(IncompatibleVariant) <==> !("$argon2id$" <= hash)
  {
    if "$argon2id$" <= hash {
      var a := hash[|"$argon2id$"|..];
      assert AfterLiteral("$argon2id$", hash) == Some(a);
    }
  }

  lemma OtherVersionRefused(v: Field, n: int, rest: string)
    requires Spells(v, true, n) && n != 19 && -0x8000_0000_0000_0000 <= n <= 0x7FFF_FFFF_FFFF_FFFF
    ensures Decoded("$argon2id$" + ("v=" + Before(v, "$" + rest))) == Err(IncompatibleVersion)
  {
    LiteralOf("$argon2id$", "v=" + Before(v, "$" + rest));
    LiteralOf("v=", Before(v, "$" + rest));
    ScanOf(v, true, -MAX_INT64 - 1, MAX_INT64, n, "$" + rest);
    LiteralOf("$", rest);
  }

  lemma BrokenTailRefused(v: Field, m: Field, t: Field, p: Field, params: HashParams, rest: string)
    requires Spells(v, true, 19) && SpellsParams(m, t, p, params)
    requires (exists c | c in rest :: c == '\r' || c == '\n') || '$' !in rest
    ensures Decoded(Spelled(v, m, t, p, rest)) == Err(InvalidHash)
  {
    LiteralOf("$argon2id$", "v=" + Before(v, "$" + SpelledParams(m, t, p, rest)));
    VersionOf(v, SpelledParams(m, t, p, rest));
    ParamsOf(m, t, p, params, rest);
    if '$' !in rest {
      forall i | 0 <= i < |rest| ensures NotDollar(rest[i]) { assert rest[i] in rest; }
      LeadingUnique(rest, NotDollar, |rest|);
    }
  }

  // ---- in place ----

  /** The strings.Reader that the three Fscanf calls and ReadAll consume. */
  class Reader {
    var unread: string

    constructor (text: string)
      ensures unread == text
    {
      unread := text;
    }

    /** Literal text of a format, rune by rune; after a mismatch the reader is not used again. */
    method Literal(lit: string) returns (ok: bool)
      modifies this
      ensures ok == AfterLiteral(lit, old(unread)).Some?
      ensures ok ==> unread == AfterLiteral(lit, old(unread)).value
    {
      var i := 0;
      while i < |lit|
        invariant 0 <= i <= |lit| && i <= |old(unread)|
        invariant lit[..i] == old(unread)[..i] && unread == old(unread)[i..]
      {
        if unread == "" || unread[0] != lit[i] {
          return false;
        }
        unread := unread[1..];
        i := i + 1;
      }
      assert lit == lit[..i];
      return true;
    }

    /** Everything in front that satisfies p. */
    method Take(p: char -> bool) returns (taken: string)
      modifies this
      ensures Leading(old(unread), p) <= |old(unread)|
      ensures taken == old(unread)[..Leading(old(unread), p)] && unread == old(unread)[Leading(old(unread), p)..]
    {
      taken := "";
      while unread != "" && p(unread[0])
        invariant |taken| <= |old(unread)| && taken == old(unread)[..|taken|] && unread == old(unread)[|taken|..]
        invariant forall i | 0 <= i < |taken| :: p(old(unread)[i])
        decreases |unread|
      {
        taken := taken + [unread[0]];
        unread := unread[1..];
      }
      LeadingUnique(old(unread), p, |taken|);
    }

    /** %d: after a failure the reader is not used again. */
    method Integer(signed: bool, low: int, high: int) returns (r: Option<int>)
      modifies this
      ensures r.Some? == ScanInt(old(unread), signed, low, high).Some?
      ensures r.Some? ==> ScanInt(old(unread), signed, low, high) == Some((r.value, unread))
    {
      var _ := Take(IsBlank);
      var negative := false;
      if signed && SignFirst(unread) {
        negative := unread[0] == '-';
        unread := unread[1..];
      }
      label Digits:
      LeadingRun(unread, IsDigit);
      var digits := Take(IsDigit);
      if digits == "" { return None; }
      var n: int := 0;
      for i := 0 to |digits|
        invariant n == NumberOf(digits[..i])
      {
        assert digits[..i + 1][..i] == digits[..i];
        n := 10 * n + DigitOf(digits[i]);
      }
      assert digits[..|digits|] == digits;
      if negative { n := -n; }
      return if low <= n <= high then Some(n) else None;
    }

    /** Literal text and an unsigned %d. */
    method Field(lit: string, high: int) returns (r: Option<int>)
      modifies this
      ensures r.Some? == ScanField(lit, high, old(unread)).Some?
      ensures r.Some? ==> ScanField(lit, high, old(unread)) == Some((r.value, unread))
    {
      var ok := Literal(lit);
      if !ok { return None; }
      r := Integer(false, 0, high);
    }
  }

  method DecodeSegments(start: HashParams, rest: string) returns (r: Result<Hash, Error>)
    ensures r == DecodeRest(start, rest)
  {
    if exists c | c in rest :: B.LineEnd(c) { return Err(InvalidHash); }
    var i := 0;
    while i < |rest| && rest[i] != '$'
      invariant 0 <= i <= |rest| && forall j | 0 <= j < i :: NotDollar(rest[j])
    {
      i := i + 1;
    }
    LeadingUnique(rest, NotDollar, i);
    if i == |rest| { return Err(InvalidHash); }
    var params := start;
    var salt := B.Decode(B.Standard, true, rest[..i]);
    if salt.None? { return Err(Malformed); }
    params := params.(saltLength := |salt.value| % 0x1_0000_0000);
    var key := B.Decode(B.Standard, true, rest[i + 1..]);
    if key.None? { return Err(Malformed); }
    params := params.(keyLength := |key.value| % 0x1_0000_0000);
    return Ok(Hash(params, salt.value, key.value));
  }

  /** The scan, with params filled in as the parts of the text come by. */
  method DecodeHash(hash: string) returns (r: Result<Hash, Error>)
    ensures r == Decoded(hash)
  {
    var reader := new Reader(hash);
    var ok := reader.Literal("$argon2id$");
    if !ok { return Err(IncompatibleVariant); }
    ok := reader.Literal("v=");
    if !ok { return Err(Malformed); }
    var version := reader.Integer(true, -MAX_INT64 - 1, MAX_INT64);
    if version.None? { return Err(Malformed); }
    ok := reader.Literal("$");
    if !ok { return Err(Malformed); }
    if version.value != ARGON2_VERSION { return Err(IncompatibleVersion); }
    var params := HashParams(0, 0, 0, 0, 0);
    var n := reader.Field("m=", 0xFFFF_FFFF);
    if n.None? { return Err(Malformed); }
    params := params.(memory := n.value);
    n := reader.Field(",t=", 0xFFFF_FFFF);
    if n.None? { return Err(Malformed); }
    params := params.(iterations := n.value);
    n := reader.Field(",p=", 255);
    if n.None? { return Err(Malformed); }
    params := params.(threads := n.value);
    ok := reader.Literal("$");
    if !ok { return Err(Malformed); }
    r := DecodeSegments(params, reader.unread);
  }
}
