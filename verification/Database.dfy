/** The store: the five tables as fields, and the statements and transactions that update them in place. */
module Database {
  import opened Basics
  import opened Sums
  import opened Model
  import W = Waitlist
  import Purchases
  import Tickets
  import Tiers
  import Events

  /** The tables after an operation: its result, or unchanged when it was refused or rolled back. */
  function After(before: Db, result: Result<Db, Error>): Db {
    match result case Ok(db) => db case Err(_) => before
  }

  /** The answer of an operation that reports no row. */
  function Verdict(result: Result<Db, Error>): Result<(), Error> {
    match result case Ok(_) => Ok(()) case Err(e) => Err(e)
  }

  class Tables {
    var events: map<Id, Event>
    var tiers: map<Id, Tier>
    var purchases: map<Id, Purchase>
    var tickets: map<Id, Ticket>
    var entries: W.Entries

    ghost function Rows(): Db
      reads this
    {
      Db(events, tiers, purchases, tickets)
    }

    constructor ()
      ensures Rows() == Db(map[], map[], map[], map[]) && entries == map[]
    {
      events, tiers, purchases, tickets, entries := map[], map[], map[], map[], map[];
    }

    // ---- aggregate queries ----

    method SumConfirmedQuantityByEvent(eventId: Id) returns (sum: int)
      ensures sum == EventSold(Rows(), eventId)
    {
      ghost var units := EventUnits(Rows(), eventId);
      var rest := purchases.Keys;
      sum := 0;
      SumAmongEnds(units, rest);
      while rest != {}
        invariant rest <= purchases.Keys && sum + Sum(Among(units, rest)) == Sum(units)
        decreases |rest|
      {
        var p :| p in rest;
        SumAmongOne(units, rest, p);
        if PurchaseOf(tiers, purchases[p], eventId) && purchases[p].status == Confirmed { sum := sum + purchases[p].quantity; }
        rest := rest - {p};
      }
    }

    method SumQuantityByEvent(eventId: Id) returns (sum: int)
      ensures sum == TierTotal(tiers, eventId)
    {
      ghost var units := TierQuantities(tiers, eventId);
      var rest := tiers.Keys;
      sum := 0;
      SumAmongEnds(units, rest);
      while rest != {}
        invariant rest <= tiers.Keys && sum + Sum(Among(units, rest)) == Sum(units)
        decreases |rest|
      {
        var t :| t in rest;
        SumAmongOne(units, rest, t);
        if tiers[t].eventId == eventId { sum := sum + tiers[t].quantity; }
        rest := rest - {t};
      }
    }

    method CountByEvent(eventId: Id) returns (count: nat)
      ensures count == |Events.TiersOf(tiers, eventId)|
      ensures count > 0 <==> Events.HasTier(Rows(), eventId)
    {
      var mine := set t | t in tiers && tiers[t].eventId == eventId;
      count := |mine|;
      assert mine == Events.TiersOf(tiers, eventId);
      if Events.HasTier(Rows(), eventId) {
        ghost var t :| t in tiers && tiers[t].eventId == eventId;
        assert t in mine;
      } else {
        assert mine == {};
      }
    }

    // ---- purchases ----

    /** The batch of ticket inserts, which fails on the first key that is taken. */
    method InsertTickets(purchaseId: Id, tierId: Id, ticketIds: seq<Id>) returns (ok: bool, after: map<Id, Ticket>)
      ensures ok <==> Distinct(ticketIds) && forall k | k in ticketIds :: k !in tickets
      ensures ok ==> after == tickets + Purchases.Minted(purchaseId, tierId, ticketIds)
    {
      after := tickets;
      var i := 0;
      while i < |ticketIds|
        invariant 0 <= i <= |ticketIds|
        invariant Distinct(ticketIds[..i]) && forall k | k in ticketIds[..i] :: k !in tickets
        invariant after == tickets + Purchases.Minted(purchaseId, tierId, ticketIds[..i])
      {
        if ticketIds[i] in after { return false, after; }
        after := after[ticketIds[i] := Ticket(purchaseId, tierId, Unused, None)];
        assert ticketIds[..i + 1] == ticketIds[..i] + [ticketIds[i]];
        i := i + 1;
      }
      assert ticketIds[..i] == ticketIds;
      ok := true;
    }

    /** One transaction: lock and check, take stock, insert the purchase, insert the tickets one by one,
        sell the event out if nothing is left, commit. Any failure leaves the tables as they were. */
    method Create(id: Id, userId: Id, tierId: Id, quantity: int, ticketIds: seq<Id>) returns (r: Result<Purchase, Error>)
      modifies this
      ensures entries == old(entries)
      ensures Rows() == After(old(Rows()), Purchases.Create(old(Rows()), id, userId, tierId, quantity, ticketIds))
      ensures match Purchases.Create(old(Rows()), id, userId, tierId, quantity, ticketIds)
              case Ok(db) => id in db.purchases && r == Ok(db.purchases[id])
              case Err(e) => r == Err(e)
    {
      if tierId !in tiers { return Err(NotFound); }
      var tier := tiers[tierId];
      if tier.eventId !in events { return Err(Database); }
      var event := events[tier.eventId];
      if event.status != Published { return Err(EventNotPublished); }
      if quantity > event.maxPerPurchase { return Err(ExceedsMaxPerPurchase); }
      if tier.status != Available || tier.remaining < quantity { return Err(InsufficientRemaining); }

      var row := Purchases.Take(tier, quantity);
      if !TierChecks(row) { return Err(Database); }
      var newTiers := tiers[tierId := row];

      var total := tier.price * quantity;
      var purchase := Purchase(userId, tierId, quantity, total, Confirmed);
      if !PurchaseChecks(purchase) || id in purchases { return Err(Database); }
      var newPurchases := purchases[id := purchase];

      var inserted, newTickets := InsertTickets(id, tierId, ticketIds);
      if !inserted { return Err(Database); }

      var newEvents := events;
      if !AnyStock(newTiers, tier.eventId) {
        newEvents := FlipStatus(newEvents, tier.eventId, Published, SoldOut);
      }
      events, tiers, purchases, tickets := newEvents, newTiers, newPurchases, newTickets;
      r := Ok(purchase);
    }

    /** One transaction: lock and check the purchase, check the policy, flip purchase and tickets, give the
        stock back, reopen a sold-out event, commit. */
    method Cancel(id: Id, userId: Id, now: Time) returns (r: Result<Purchase, Error>, wasSoldOut: bool)
      modifies this
      ensures entries == old(entries)
      ensures Rows() == After(old(Rows()), Purchases.Cancel(old(Rows()), id, userId, now))
      ensures match Purchases.Cancel(old(Rows()), id, userId, now)
              case Ok(db) => id in db.purchases && r == Ok(db.purchases[id]) && wasSoldOut == Purchases.WasSoldOut(old(Rows()), id)
              case Err(e) => r == Err(e)
    {
      wasSoldOut := false;
      if id !in purchases || purchases[id].userId != userId { return Err(NotFound), wasSoldOut; }
      var purchase := purchases[id];
      if purchase.status != Confirmed { return Err(AlreadyCancelled), wasSoldOut; }
      if purchase.tierId !in tiers { return Err(Database), wasSoldOut; }
      var tier := tiers[purchase.tierId];
      if tier.eventId !in events { return Err(Database), wasSoldOut; }
      var event := events[tier.eventId];
      if tier.status == TierSoldOut { wasSoldOut := true; }
      if now >= event.startsAt { return Err(EventStarted), wasSoldOut; }
      if !event.cancellationAllowed { return Err(CancellationNotAllowed), wasSoldOut; }
      var windowClosed := Purchases.WindowClosed(event, now);
      var graceOpen := Purchases.GraceOpen(event, now);
      if windowClosed && !graceOpen { return Err(OutsideCancellationWindow), wasSoldOut; }

      purchase := purchase.(status := PurchaseCancelled);
      var newTickets := Purchases.VoidTickets(tickets, id);
      var row := Purchases.Restock(tier, purchase.quantity);
      if !TierChecks(row) { return Err(Database), wasSoldOut; }
      var newEvents := FlipStatus(events, tier.eventId, SoldOut, Published);

      events, tiers, purchases, tickets := newEvents, tiers[purchase.tierId := row], purchases[id := purchase], newTickets;
      r := Ok(purchase);
    }

    /** Two bulk updates: the confirmed purchases of the event, then every ticket of any purchase of it. */
    method CancelByEvent(eventId: Id)
      modifies this
      ensures Rows() == Purchases.CancelByEvent(old(Rows()), eventId) && entries == old(entries)
    {
      ghost var before := Rows();
      purchases := map p | p in purchases ::
        if PurchaseOf(tiers, purchases[p], eventId) && purchases[p].status == Confirmed
        then purchases[p].(status := PurchaseCancelled) else purchases[p];
      tickets := map k | k in tickets ::
        if Purchases.TicketOf(Db(events, tiers, purchases, tickets), tickets[k], eventId) && tickets[k].status != TicketCancelled
        then tickets[k].(status := TicketCancelled) else tickets[k];
      assert forall k | k in before.tickets ::
        Purchases.TicketOf(before, before.tickets[k], eventId)
        <==> Purchases.TicketOf(before.(purchases := purchases), before.tickets[k], eventId);
    }

    // ---- tickets ----

    method CheckIn(ticketId: Id, eventId: Id, now: Time) returns (r: Result<Ticket, Error>)
      modifies this
      ensures entries == old(entries)
      ensures Rows() == After(old(Rows()), Tickets.CheckIn(old(Rows()), ticketId, eventId, now))
      ensures match Tickets.CheckIn(old(Rows()), ticketId, eventId, now)
              case Ok(db) => ticketId in db.tickets && r == Ok(db.tickets[ticketId])
              case Err(e) => r == Err(e)
    {
      if ticketId !in tickets { return Err(NotFound); }
      var ticket := tickets[ticketId];
      if ticket.tierId !in tiers || ticket.purchaseId !in purchases { return Err(NotFound); }
      if ticket.status == Used { return Err(AlreadyCheckedIn); }
      if ticket.status == TicketCancelled { return Err(VoidTicket); }
      if tiers[ticket.tierId].eventId != eventId { return Err(WrongEvent); }
      ticket := ticket.(status := Used, checkedInAt := Some(now));
      tickets := tickets[ticketId := ticket];
      r := Ok(ticket);
    }

    // ---- tiers and events ----

    /** Deletes tiers and, by cascade, their purchases, tickets and waitlist entries. */
    method DropTiers(doomed: set<Id>)
      modifies this
      ensures Rows() == Tiers.DropTiers(old(Rows()), doomed) && entries == W.DropTiers(old(entries), doomed)
    {
      tiers := tiers - doomed;
      purchases := map p | p in purchases && purchases[p].tierId !in doomed :: purchases[p];
      tickets := map k | k in tickets && tickets[k].tierId !in doomed && tickets[k].purchaseId in purchases :: tickets[k];
      entries := W.DropTiers(entries, doomed);
    }

    method SetStatus(eventId: Id, from: EventStatus, to: EventStatus)
      modifies this`events
      ensures events == FlipStatus(old(events), eventId, from, to)
    {
      if eventId in events && events[eventId].status == from {
        events := events[eventId := events[eventId].(status := to)];
      }
    }

    method EndAllExpired(now: Time) returns (ended: set<Id>)
      modifies this`events
      ensures Rows() == Events.EndAllExpired(old(Rows()), now)
      ensures forall e :: e in ended <==> e in old(events) && events[e] != old(events)[e]
    {
      ended := set e | e in events && Live(events[e].status) && events[e].endsAt < now;
      events := map e | e in events :: if e in ended then events[e].(status := Ended) else events[e];
    }

    // ---- the waitlist ----

    method WaitlistCreate(id: Id, userId: Id, tierId: Id, now: Time) returns (r: Result<(), Error>)
      modifies this`entries
      ensures match W.Insert(old(entries), id, userId, tierId, now)
              case Ok(es) => r == Ok(()) && entries == es
              case Err(e) => r == Err(e) && entries == old(entries)
    {
      if exists w | w in entries :: entries[w].userId == userId && entries[w].tierId == tierId { return Err(Conflict); }
      if id in entries { return Err(Database); }
      entries := entries[id := W.Entry(userId, tierId, W.Waiting, None, None, now)];
      r := Ok(());
    }

    method DeleteByUserAndTier(userId: Id, tierId: Id) returns (r: Result<(), Error>)
      modifies this`entries
      ensures match W.Leave(old(entries), userId, tierId)
              case Ok(es) => r == Ok(()) && entries == es
              case Err(e) => r == Err(e) && entries == old(entries)
    {
      var mine := set w | w in entries && entries[w].userId == userId && entries[w].tierId == tierId;
      if mine == {} {
        assert forall w | w in entries :: w !in mine;
        return Err(NotFound);
      }
      var w0 :| w0 in mine;
      entries := map w | w in entries && w !in mine :: entries[w];
      r := Ok(());
    }

    /** Searches the waiting rows of the tier for the one that joined first, and offers it the place. */
    method NotifyNextWaiting(tierId: Id, now: Time) returns (r: Option<Id>)
      modifies this`entries
      ensures r.None? <==> !W.AnyWaiting(old(entries), tierId)
      ensures r.None? ==> entries == old(entries)
      ensures r.Some? ==> W.IsNext(old(entries), tierId, r.value) && entries == W.Notify(old(entries), r.value, now)
    {
      r := None;
      var rest := entries.Keys;
      while rest != {}
        invariant rest <= entries.Keys && entries == old(entries)
        invariant r.None? ==> forall v | v in entries && v !in rest :: !W.IsWaiting(entries, tierId, v)
        invariant r.Some? ==> W.IsWaiting(entries, tierId, r.value)
        invariant r.Some? ==> forall v | v in entries && v !in rest && W.IsWaiting(entries, tierId, v) ::
                                entries[r.value].createdAt <= entries[v].createdAt
        decreases |rest|
      {
        var v :| v in rest;
        if W.IsWaiting(entries, tierId, v) && (r.None? || entries[v].createdAt < entries[r.value].createdAt) { r := Some(v); }
        rest := rest - {v};
      }
      if r.Some? {
        entries := entries[r.value := entries[r.value].(status := W.Notified, notifiedAt := Some(now), expiresAt := Some(now + W.OFFER))];
      }
    }

    method ExpireReservations(now: Time) returns (expired: set<Id>)
      modifies this`entries
      ensures entries == W.ExpireOffers(old(entries), now) && expired == W.DueIds(old(entries), now)
    {
      expired := set w | w in entries && W.Due(entries[w], now);
      entries := map w | w in entries :: if w in expired then entries[w].(status := W.Expired) else entries[w];
    }
  }
}
