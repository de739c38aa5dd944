/** From the token at the door to the ticket row: the token names a ticket id, read as a number. */
module Door {
  import opened Basics
  import opened Model
  import opened Text
  import Base64
  import Inventory
  import Purchases
  import Qr
  import Tickets

  /** The number of a byte string, most significant byte first. */
  function Number(b: Base64.Bytes): nat {
    if b == [] then 0 else 256 * Number(b[..|b| - 1]) + b[|b| - 1]
  }

  function NumberOf(u: Uuid): Id {
    Number(u)
  }

  /** Ids of the same length are the same when their numbers are. */
  lemma {:induction false} NumberInjective(a: Base64.Bytes, b: Base64.Bytes)
    requires |a| == |b| && Number(a) == Number(b)
    ensures a == b
  {
    if a != [] {
      var n := |a| - 1;
      assert a[n] == Number(a) % 256 && b[n] == Number(b) % 256;
      NumberInjective(a[..n], b[..n]);
      assert a == a[..n] + [a[n]] && b == b[..n] + [b[n]];
    }
  }

  /** The ticket a token names under a secret, if the token is valid. */
  function Named(mac: Qr.Mac, token: string, secret: string): Option<Id> {
    match Qr.VerifyToken(mac, token, secret) case Some(u) => Some(NumberOf(u)) case None => None
  }

  /** Scanning the token made for a ticket succeeds exactly when that ticket is unused and for this event. */
  lemma GeneratedScansIff(db: Db, mac: Qr.Mac, ticket: Uuid, purchase: Uuid, tier: Uuid, secret: string, eventId: Id, now: Time)
    requires Inventory.Linked(db)
    ensures Narrow(Qr.Signed(mac, Qr.Payload(ticket, purchase, tier), secret))
    ensures var k := NumberOf(ticket);
            var token := Qr.GenerateToken(mac, ticket, purchase, tier, secret);
            Tickets.Door(db, Named(mac, token, secret), eventId, now).Ok? <==>
              k in db.tickets && db.tickets[k].status == Unused && Purchases.TicketOf(db, db.tickets[k], eventId)
  {
    Qr.VerifyOfGenerate(mac, ticket, purchase, tier, secret);
  }

  /** A scan only ever succeeds for a ticket whose id the token carries with a matching HMAC. */
  lemma ScanNeedsToken(db: Db, mac: Qr.Mac, token: string, secret: string, eventId: Id, now: Time) returns (ticket: Uuid)
    requires Tickets.Door(db, Named(mac, token, secret), eventId, now).Ok?
    ensures Named(mac, token, secret) == Some(NumberOf(ticket)) && Base64.Decode(Base64.UrlSafe, false, token).Some?
    ensures exists x, y, z, sig ::
              Qr.Carries(mac, Chars(Base64.Decode(Base64.UrlSafe, false, token).value), secret, ticket, x, y, z, sig)
  {
    ticket := Qr.VerifyToken(mac, token, secret).value;
    Qr.AcceptedIff(mac, token, secret, ticket);
  }
}
