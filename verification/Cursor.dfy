/** The page cursor as text: the timestamp, a comma and the id, in URL-safe base64. */
module Cursor {
  import opened Basics
  import opened Base64
  import opened Text

  datatype Cursor = Cursor(timestamp: Time, id: Uuid)

  /** The RFC 3339 text of an instant, and reading one. */
  datatype Clock = Clock(format: Time -> string, parse: string -> Option<Time>)

  /** What the cursor needs of that format: it reads back, it is a byte string, and it has no comma. */
  ghost predicate Sound(k: Clock) {
    forall t :: k.parse(k.format(t)) == Some(t) && Narrow(k.format(t)) && ',' !in k.format(t)
  }

  function Raw(k: Clock, c: Cursor): string {
    k.format(c.timestamp) + "," + UuidText(c.id)
  }

  function EncodeCursor(k: Clock, c: Cursor): string
    requires Narrow(Raw(k, c))
  {
    Encode(UrlSafe, Octets(Raw(k, c)))
  }

  /** strings.SplitN(s, sep, 2): the text before the first separator and everything behind it. */
  function CutFirst(s: string, sep: char): Option<(string, string)> {
    if s == "" then None
    else if s[0] == sep then Some(("", s[1..]))
    else match CutFirst(s[1..], sep) case Some((a, b)) => Some(([s[0]] + a, b)) case None => None
  }

  function DecodeCursor(k: Clock, text: string): Option<Cursor> {
    match Decode(UrlSafe, false, text)
    case None => None
    case Some(raw) =>
      match CutFirst(Chars(raw), ',')
      case None => None
      case Some((time, id)) =>
        match (k.parse(time), ParseUuid(id))
        case (Some(t), Some(u)) => Some(Cursor(t, u))
        case _ => None
  }

  lemma {:induction false} CutFirstOf(a: string, b: string, sep: char)
    requires sep !in a
    ensures CutFirst(a + [sep] + b, sep) == Some((a, b))
    decreases |a|
  {
    var s := a + [sep] + b;
    if a == "" {
      assert s[1..] == b;
    } else {
      CutFirstOf(a[1..], b, sep);
      assert s[1..] == a[1..] + [sep] + b && a == [a[0]] + a[1..];
    }
  }

  lemma RawIsNarrow(k: Clock, c: Cursor)
    requires Sound(k)
    ensures Narrow(Raw(k, c))
  {
    assert Narrow(k.format(c.timestamp));
    UuidChars(c.id);
    NarrowIf(Raw(k, c));
  }

  /** The next page starts from exactly the cursor the last one handed out. */
  lemma DecodeOfEncodeCursor(k: Clock, c: Cursor)
    requires Sound(k)
    ensures Narrow(Raw(k, c)) && DecodeCursor(k, EncodeCursor(k, c)) == Some(c)
  {
    RawIsNarrow(k, c);
    var raw := Raw(k, c);
    DecodeOfEncode(UrlSafe, false, Octets(raw));
    CharsOfOctets(raw);
    assert raw == k.format(c.timestamp) + [','] + UuidText(c.id);
    assert ',' !in k.format(c.timestamp);
    CutFirstOf(k.format(c.timestamp), UuidText(c.id), ',');
    UuidRoundTrip(c.id);
  }

  lemma {:induction false} CutFirstIs(s: string, sep: char)
    requires CutFirst(s, sep).Some?
    ensures var (a, b) := CutFirst(s, sep).value; s == a + [sep] + b && sep !in a
  {
    if s[0] != sep {
      CutFirstIs(s[1..], sep);
      assert s == [s[0]] + s[1..];
    }
  }

  /** The text inside a cursor: a time without a comma, a comma, and an id. */
  predicate Holds(k: Clock, raw: string, c: Cursor, time: string, id: string) {
    raw == time + [','] + id && ',' !in time && k.parse(time) == Some(c.timestamp) && ParseUuid(id) == Some(c.id)
  }

  lemma HeldDecodes(k: Clock, text: string, c: Cursor, time: string, id: string)
    requires Decode(UrlSafe, false, text).Some? && Holds(k, Chars(Decode(UrlSafe, false, text).value), c, time, id)
    ensures DecodeCursor(k, text) == Some(c)
  {
    CutFirstOf(time, id, ',');
    assert CutFirst(Chars(Decode(UrlSafe, false, text).value), ',') == Some((time, id));
  }

  lemma DecodedHolds(k: Clock, text: string, c: Cursor) returns (time: string, id: string)
    requires DecodeCursor(k, text) == Some(c)
    ensures Decode(UrlSafe, false, text).Some? && Holds(k, Chars(Decode(UrlSafe, false, text).value), c, time, id)
  {
    var raw := Chars(Decode(UrlSafe, false, text).value);
    CutFirstIs(raw, ',');
    time, id := CutFirst(raw, ',').value.0, CutFirst(raw, ',').value.1;
  }

  /** A cursor is accepted exactly when it decodes to a time and an id with the first comma between them. */
  lemma DecodesIff(k: Clock, text: string, c: Cursor)
    ensures DecodeCursor(k, text) == Some(c) <==>
              Decode(UrlSafe, false, text).Some? &&
              exists time, id :: Holds(k, Chars(Decode(UrlSafe, false, text).value), c, time, id)
  {
    if DecodeCursor(k, text) == Some(c) {
      var time, id := DecodedHolds(k, text, c);
      assert exists time, id :: Holds(k, Chars(Decode(UrlSafe, false, text).value), c, time, id);
    } else if Decode(UrlSafe, false, text).Some? {
      forall time, id | Holds(k, Chars(Decode(UrlSafe, false, text).value), c, time, id) ensures false {
        HeldDecodes(k, text, c, time, id);
      }
    }
  }

  /** What a cursor is: the URL-safe base64 of the time, a comma and the id. */
  lemma CursorText(k: Clock, c: Cursor)
    requires Sound(k)
    ensures Narrow(Raw(k, c))
    ensures var decoded := Decode(UrlSafe, false, EncodeCursor(k, c));
            decoded.Some? && Chars(decoded.value) == k.format(c.timestamp) + "," + UuidText(c.id)
  {
    RawIsNarrow(k, c);
    DecodeOfEncode(UrlSafe, false, Octets(Raw(k, c)));
    CharsOfOctets(Raw(k, c));
  }
}
