/** Ticket tokens: three ids and an HMAC over them, in URL-safe base64. */
module Qr {
  import opened Basics
  import opened Base64
  import opened Text

  /** HMAC-SHA256 of a payload under a secret; nothing about it is assumed. */
  type Mac = (string, string) -> Bytes

  function Payload(ticket: Uuid, purchase: Uuid, tier: Uuid): string {
    UuidText(ticket) + ":" + UuidText(purchase) + ":" + UuidText(tier)
  }

  function Signed(mac: Mac, payload: string, secret: string): string {
    payload + "." + HexText(mac(payload, secret))
  }

  function GenerateToken(mac: Mac, ticket: Uuid, purchase: Uuid, tier: Uuid, secret: string): string
    requires Narrow(Signed(mac, Payload(ticket, purchase, tier), secret))
  {
    Encode(UrlSafe, Octets(Signed(mac, Payload(ticket, purchase, tier), secret)))
  }

  /** The ticket id of a token, or None for ErrInvalidToken. */
  function VerifyToken(mac: Mac, token: string, secret: string): Option<Uuid> {
    match Decode(UrlSafe, false, token)
    case None => None
    case Some(decoded) =>
      var parts := SplitAt(Chars(decoded), '.');
      if |parts| != 2 then None else
      var payload, sigHex := parts[0], parts[1];
      match HexParse(sigHex)
      case None => None
      case Some(sig) =>
        if sig != mac(payload, secret) then None else
        var ids := SplitAt(payload, ':');
        if |ids| != 3 then None else ParseUuid(ids[0])
  }

  lemma PayloadSplits(ticket: Uuid, purchase: Uuid, tier: Uuid)
    ensures var p := Payload(ticket, purchase, tier);
            '.' !in p && SplitAt(p, ':') == [UuidText(ticket), UuidText(purchase), UuidText(tier)]
  {
    var a, b, c := UuidText(ticket), UuidText(purchase), UuidText(tier);
    UuidChars(ticket);
    UuidChars(purchase);
    UuidChars(tier);
    assert Payload(ticket, purchase, tier) == a + [':'] + (b + [':'] + c);
    SplitFirst(a, b + [':'] + c, ':');
    SplitFirst(b, c, ':');
    SplitWhole(c, ':');
  }

  lemma PayloadFields(ticket: Uuid, purchase: Uuid, tier: Uuid)
    ensures var p := Payload(ticket, purchase, tier);
            && |p| == 110 && p[..36] == UuidText(ticket) && p[37..73] == UuidText(purchase) && p[74..] == UuidText(tier)
  {
    UuidRoundTrip(ticket);
    UuidRoundTrip(purchase);
    UuidRoundTrip(tier);
  }

  lemma SignedShape(mac: Mac, payload: string, secret: string)
    requires '.' !in payload
    ensures SplitAt(Signed(mac, payload, secret), '.') == [payload, HexText(mac(payload, secret))]
  {
    var sig := HexText(mac(payload, secret));
    HexChars(mac(payload, secret));
    assert Signed(mac, payload, secret) == payload + ['.'] + sig;
    SplitFirst(payload, sig, '.');
    SplitWhole(sig, '.');
  }

  lemma SignedIsNarrow(mac: Mac, ticket: Uuid, purchase: Uuid, tier: Uuid, secret: string)
    ensures Narrow(Signed(mac, Payload(ticket, purchase, tier), secret))
  {
    UuidChars(ticket);
    UuidChars(purchase);
    UuidChars(tier);
    HexChars(mac(Payload(ticket, purchase, tier), secret));
    NarrowIf(Signed(mac, Payload(ticket, purchase, tier), secret));
  }

  /** A token verifies under the secret it was made with, and yields its ticket. */
  lemma VerifyOfGenerate(mac: Mac, ticket: Uuid, purchase: Uuid, tier: Uuid, secret: string)
    ensures Narrow(Signed(mac, Payload(ticket, purchase, tier), secret))
    ensures VerifyToken(mac, GenerateToken(mac, ticket, purchase, tier, secret), secret) == Some(ticket)
  {
    var payload := Payload(ticket, purchase, tier);
    SignedIsNarrow(mac, ticket, purchase, tier, secret);
    var signed := Signed(mac, payload, secret);
    DecodeOfEncode(UrlSafe, false, Octets(signed));
    CharsOfOctets(signed);
    PayloadSplits(ticket, purchase, tier);
    SignedShape(mac, payload, secret);
    HexRoundTrip(mac(payload, secret));
    UuidRoundTrip(ticket);
  }

  /** Different id triples never share a token, whatever the secrets: the UNIQUE column never rejects one. */
  lemma TokensDiffer(mac: Mac, a: Uuid, b: Uuid, c: Uuid, secret: string, a': Uuid, b': Uuid, c': Uuid, secret': string)
    requires Narrow(Signed(mac, Payload(a, b, c), secret)) && Narrow(Signed(mac, Payload(a', b', c'), secret'))
    requires GenerateToken(mac, a, b, c, secret) == GenerateToken(mac, a', b', c', secret')
    ensures a == a' && b == b' && c == c'
  {
    var s, s' := Signed(mac, Payload(a, b, c), secret), Signed(mac, Payload(a', b', c'), secret');
    EncodeInjective(UrlSafe, Octets(s), Octets(s'));
    CharsOfOctets(s);
    CharsOfOctets(s');
    PayloadFields(a, b, c);
    PayloadFields(a', b', c');
    assert Payload(a, b, c) == s[..110] && Payload(a', b', c') == s'[..110];
    UuidRoundTrip(a);
    UuidRoundTrip(a');
    UuidRoundTrip(b);
    UuidRoundTrip(b');
    UuidRoundTrip(c);
    UuidRoundTrip(c');
  }

  /** The text inside an accepted token: three fields without separators, then the hexadecimal HMAC of them. */
  predicate Carries(mac: Mac, text: string, secret: string, ticket: Uuid, x: string, y: string, z: string, sig: string) {
    && text == x + ":" + y + ":" + z + "." + sig
    && (forall f | f in [x, y, z] :: ':' !in f && '.' !in f) && '.' !in sig
    && HexParse(sig) == Some(mac(x + ":" + y + ":" + z, secret))
    && ParseUuid(x) == Some(ticket)
  }

  /** A token is accepted exactly when it decodes to three fields and the HMAC of those fields. */
  lemma AcceptedIff(mac: Mac, token: string, secret: string, ticket: Uuid)
    ensures VerifyToken(mac, token, secret) == Some(ticket) <==>
              Decode(UrlSafe, false, token).Some? &&
              exists x, y, z, sig :: Carries(mac, Chars(Decode(UrlSafe, false, token).value), secret, ticket, x, y, z, sig)
  {
    if Decode(UrlSafe, false, token).Some? {
      var text := Chars(Decode(UrlSafe, false, token).value);
      if VerifyToken(mac, token, secret) == Some(ticket) {
        AcceptedCarries(mac, token, secret, ticket);
      }
      if x, y, z, sig :| Carries(mac, text, secret, ticket, x, y, z, sig) {
        CarriedSplits(mac, text, secret, ticket, x, y, z, sig);
      }
    }
  }

  lemma RejoinFields(x: string, y: string, z: string, sep: char)
    ensures Rejoin([x, y, z], sep) == x + [sep] + y + [sep] + z
  {
    assert [x, y, z][1..] == [y, z] && [y, z][1..] == [z];
    assert Rejoin([y, z], sep) == y + [sep] + z;
  }

  lemma AcceptedCarries(mac: Mac, token: string, secret: string, ticket: Uuid)
    requires VerifyToken(mac, token, secret) == Some(ticket)
    ensures exists x, y, z, sig :: Carries(mac, Chars(Decode(UrlSafe, false, token).value), secret, ticket, x, y, z, sig)
  {
    var text := Chars(Decode(UrlSafe, false, token).value);
    SplitRejoins(text, '.');
    var payload, sig := SplitAt(text, '.')[0], SplitAt(text, '.')[1];
    SplitRejoins(payload, ':');
    var ids := SplitAt(payload, ':');
    var x, y, z := ids[0], ids[1], ids[2];
    assert ids == [x, y, z] && payload in SplitAt(text, '.') && sig in SplitAt(text, '.');
    RejoinFields(x, y, z, ':');
    assert SplitAt(text, '.') == [payload, sig] && SplitAt(text, '.')[1..] == [sig];
    assert text == payload + "." + sig;
    assert Carries(mac, text, secret, ticket, x, y, z, sig);
  }

  lemma CarriedSplits(mac: Mac, text: string, secret: string, ticket: Uuid, x: string, y: string, z: string, sig: string)
    requires Carries(mac, text, secret, ticket, x, y, z, sig)
    ensures SplitAt(text, '.') == [x + ":" + y + ":" + z, sig] && SplitAt(x + ":" + y + ":" + z, ':') == [x, y, z]
  {
    var payload := x + ":" + y + ":" + z;
    assert x in [x, y, z] && y in [x, y, z] && z in [x, y, z];
    assert text == payload + ['.'] + sig && payload == x + [':'] + (y + [':'] + z);
    SplitFirst(payload, sig, '.');
    SplitWhole(sig, '.');
    SplitFirst(x, y + [':'] + z, ':');
    SplitFirst(y, z, ':');
    SplitWhole(z, ':');
  }

  /** What a token is: the URL-safe base64 of the three ids in order, a dot, and the hexadecimal HMAC of them. */
  lemma TokenText(mac: Mac, ticket: Uuid, purchase: Uuid, tier: Uuid, secret: string)
    ensures Narrow(Signed(mac, Payload(ticket, purchase, tier), secret))
    ensures var ids := UuidText(ticket) + ":" + UuidText(purchase) + ":" + UuidText(tier);
            var decoded := Decode(UrlSafe, false, GenerateToken(mac, ticket, purchase, tier, secret));
            decoded.Some? && Chars(decoded.value) == ids + "." + HexText(mac(ids, secret))
  {
    SignedIsNarrow(mac, ticket, purchase, tier, secret);
    var signed := Signed(mac, Payload(ticket, purchase, tier), secret);
    DecodeOfEncode(UrlSafe, false, Octets(signed));
    CharsOfOctets(signed);
  }
}
