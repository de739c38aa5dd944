/** What every sale, cancellation and scan keeps true of tiers, purchases and tickets, whatever the
    statuses of events do between published and sold out. */
module Inventory {
  import opened Basics
  import opened Model
  import opened Purchases
  import opened Tickets

  /** Foreign keys resolve, and a ticket names the tier of its purchase. */
  ghost predicate Linked(db: Db) {
    && (forall t | t in db.tiers :: db.tiers[t].eventId in db.events)
    && (forall p | p in db.purchases :: db.purchases[p].tierId in db.tiers)
    && (forall k | k in db.tickets ::
          && db.tickets[k].purchaseId in db.purchases
          && db.tickets[k].tierId == db.purchases[db.tickets[k].purchaseId].tierId)
  }

  ghost predicate RowsChecked(db: Db) {
    && (forall t | t in db.tiers :: TierChecks(db.tiers[t]))
    && (forall p | p in db.purchases :: PurchaseChecks(db.purchases[p]))
  }

  /** Stock plus confirmed sales never exceed the quantity, and equal it unless the event is cancelled. */
  ghost predicate TierConserved(db: Db, t: Id)
    requires t in db.tiers && db.tiers[t].eventId in db.events
  {
    var tier := db.tiers[t];
    && tier.remaining + Sold(db.purchases, t) <= tier.quantity
    && (db.events[tier.eventId].status != Cancelled ==> tier.remaining + Sold(db.purchases, t) == tier.quantity)
  }

  ghost predicate Conserved(db: Db)
    requires Linked(db)
  {
    forall t | t in db.tiers :: TierConserved(db, t)
  }

  ghost predicate StatusFollowsStock(db: Db) {
    forall t | t in db.tiers :: db.tiers[t].status == TierSoldOut <==> db.tiers[t].remaining == 0
  }

  /** One ticket per unit; none cancelled while the purchase is confirmed, all cancelled afterwards. */
  ghost predicate TicketsMatch(purchases: map<Id, Purchase>, tickets: map<Id, Ticket>) {
    && (forall p | p in purchases :: |TicketsOf(tickets, p)| == purchases[p].quantity)
    && (forall k | k in tickets && tickets[k].purchaseId in purchases ::
          tickets[k].status == TicketCancelled <==> purchases[tickets[k].purchaseId].status == PurchaseCancelled)
  }

  ghost predicate Valid(db: Db) {
    Linked(db) && RowsChecked(db) && Conserved(db) && StatusFollowsStock(db) && TicketsMatch(db.purchases, db.tickets)
  }

  /** A purchase is cancelled exactly when all of its tickets are, and confirmed exactly when none is. */
  lemma TicketsFollowPurchase(db: Db, p: Id)
    requires Valid(db) && p in db.purchases
    ensures var mine := TicketsOf(db.tickets, p);
            && |mine| == db.purchases[p].quantity > 0
            && (forall k | k in mine :: db.tickets[k].tierId == db.purchases[p].tierId)
            && (db.purchases[p].status == PurchaseCancelled <==> forall k | k in mine :: db.tickets[k].status == TicketCancelled)
            && (db.purchases[p].status == Confirmed <==> forall k | k in mine :: db.tickets[k].status != TicketCancelled)
  {
    var k :| k in TicketsOf(db.tickets, p);
  }

  /** Nothing is oversold, and no cancellation can push a tier above its quantity. */
  lemma NeverOversold(db: Db, t: Id)
    requires Valid(db) && t in db.tiers
    ensures 0 <= db.tiers[t].remaining <= db.tiers[t].quantity
    ensures 0 <= Sold(db.purchases, t) <= db.tiers[t].quantity - db.tiers[t].remaining
  {
    SoldBounds(db.purchases, t, t);
    assert TierConserved(db, t);
  }

  /** Event rows matter to the inventory only through their keys and whether they are cancelled. */
  ghost predicate SameCancelled(a: map<Id, Event>, b: map<Id, Event>) {
    a.Keys == b.Keys && forall e | e in a :: a[e].status == Cancelled <==> b[e].status == Cancelled
  }

  lemma EventsMayFlip(db: Db, events: map<Id, Event>)
    requires Valid(db) && SameCancelled(db.events, events)
    ensures Valid(db.(events := events))
  {
    var after := db.(events := events);
    forall t | t in after.tiers ensures TierConserved(after, t) { assert TierConserved(db, t); }
  }

  // ---- sales ----

  /** The conditions on the locked tier row and the inserted rows under which the transaction sells. */
  ghost predicate CanSell(db: Db, id: Id, userId: Id, tierId: Id, quantity: int, ticketIds: seq<Id>) {
    && tierId in db.tiers
    && db.tiers[tierId].status == Available && quantity <= db.tiers[tierId].remaining
    && PurchaseChecks(Purchase(userId, tierId, quantity, db.tiers[tierId].price * quantity, Confirmed))
    && FreshKeys(db, id, ticketIds) && |ticketIds| == quantity
  }

  lemma MintedMatch(db: Db, row: Purchase, id: Id, tierId: Id, ticketIds: seq<Id>)
    requires Linked(db) && TicketsMatch(db.purchases, db.tickets)
    requires FreshKeys(db, id, ticketIds) && |ticketIds| == row.quantity && row.status == Confirmed
    ensures TicketsMatch(db.purchases[id := row], db.tickets + Minted(id, tierId, ticketIds))
  {
    var tickets := db.tickets + Minted(id, tierId, ticketIds);
    DistinctCount(ticketIds);
    assert TicketsOf(tickets, id) == Elements(ticketIds);
    forall p | p in db.purchases ensures TicketsOf(tickets, p) == TicketsOf(db.tickets, p) {}
  }

  lemma SellLinks(db: Db, id: Id, userId: Id, tierId: Id, quantity: int, ticketIds: seq<Id>)
    requires Linked(db) && RowsChecked(db) && StatusFollowsStock(db) && CanSell(db, id, userId, tierId, quantity, ticketIds)
    ensures var after := Sell(db, id, userId, tierId, quantity, ticketIds);
            Linked(after) && RowsChecked(after) && StatusFollowsStock(after) && SameCancelled(db.events, after.events)
  {
  }

  /** One written purchase row and one written tier row balance when their changes do. */
  lemma WriteConserves(db: Db, after: Db, id: Id, tierId: Id, t: Id)
    requires t in db.tiers && db.tiers[t].eventId in db.events && TierConserved(db, t)
    requires tierId in db.tiers && tierId in after.tiers && t in after.tiers && SameCancelled(db.events, after.events)
    requires id in after.purchases && after.purchases == db.purchases[id := after.purchases[id]]
    requires after.purchases[id].tierId == tierId && (id in db.purchases ==> db.purchases[id].tierId == tierId)
    requires after.tiers == db.tiers[tierId := after.tiers[tierId]]
    requires after.tiers[tierId].quantity == db.tiers[tierId].quantity && after.tiers[t].eventId == db.tiers[t].eventId
    requires after.tiers[tierId].remaining + Share(after.purchases, id, tierId)
          == db.tiers[tierId].remaining + Share(db.purchases, id, tierId)
    ensures TierConserved(after, t)
  {
    SoldWrite(db.purchases, id, after.purchases[id], t);
  }

  lemma SellTier(db: Db, id: Id, userId: Id, tierId: Id, quantity: int, ticketIds: seq<Id>, t: Id)
    requires CanSell(db, id, userId, tierId, quantity, ticketIds)
    requires t in db.tiers && db.tiers[t].eventId in db.events && TierConserved(db, t)
    requires SameCancelled(db.events, Sell(db, id, userId, tierId, quantity, ticketIds).events)
    ensures TierConserved(Sell(db, id, userId, tierId, quantity, ticketIds), t)
  {
    WriteConserves(db, Sell(db, id, userId, tierId, quantity, ticketIds), id, tierId, t);
  }

  lemma SellKeeps(db: Db, id: Id, userId: Id, tierId: Id, quantity: int, ticketIds: seq<Id>)
    requires Valid(db) && CanSell(db, id, userId, tierId, quantity, ticketIds)
    ensures Valid(Sell(db, id, userId, tierId, quantity, ticketIds))
    ensures SameCancelled(db.events, Sell(db, id, userId, tierId, quantity, ticketIds).events)
  {
    var after := Sell(db, id, userId, tierId, quantity, ticketIds);
    SellLinks(db, id, userId, tierId, quantity, ticketIds);
    MintedMatch(db, after.purchases[id], id, tierId, ticketIds);
    forall t | t in after.tiers ensures TierConserved(after, t) { SellTier(db, id, userId, tierId, quantity, ticketIds, t); }
  }

  // ---- cancellations ----

  ghost predicate CanRefund(db: Db, id: Id) {
    id in db.purchases && db.purchases[id].status == Confirmed && db.purchases[id].tierId in db.tiers
  }

  /** The CHECK on `remaining` never fires on a restore. */
  lemma RestockFits(db: Db, id: Id)
    requires Valid(db) && CanRefund(db, id)
    ensures TierChecks(Restock(db.tiers[db.purchases[id].tierId], db.purchases[id].quantity))
  {
    var t := db.purchases[id].tierId;
    assert TierConserved(db, t);
    SoldBounds(db.purchases, id, t);
  }

  lemma VoidedMatch(db: Db, id: Id)
    requires TicketsMatch(db.purchases, db.tickets) && id in db.purchases
    ensures TicketsMatch(db.purchases[id := db.purchases[id].(status := PurchaseCancelled)], VoidTickets(db.tickets, id))
  {
    forall p ensures TicketsOf(VoidTickets(db.tickets, id), p) == TicketsOf(db.tickets, p) {}
  }

  lemma RefundLinks(db: Db, id: Id)
    requires Linked(db) && RowsChecked(db) && StatusFollowsStock(db) && CanRefund(db, id)
    requires TierChecks(Restock(db.tiers[db.purchases[id].tierId], db.purchases[id].quantity))
    ensures var after := Refund(db, id);
            Linked(after) && RowsChecked(after) && StatusFollowsStock(after) && SameCancelled(db.events, after.events)
  {
  }

  lemma RefundTier(db: Db, id: Id, t: Id)
    requires CanRefund(db, id) && t in db.tiers && db.tiers[t].eventId in db.events && TierConserved(db, t)
    requires SameCancelled(db.events, Refund(db, id).events)
    ensures TierConserved(Refund(db, id), t)
  {
    WriteConserves(db, Refund(db, id), id, db.purchases[id].tierId, t);
  }

  lemma RefundKeeps(db: Db, id: Id)
    requires Valid(db) && CanRefund(db, id)
    ensures Valid(Refund(db, id))
    ensures SameCancelled(db.events, Refund(db, id).events)
  {
    var after := Refund(db, id);
    RestockFits(db, id);
    RefundLinks(db, id);
    VoidedMatch(db, id);
    forall t | t in after.tiers ensures TierConserved(after, t) { RefundTier(db, id, t); }
  }

  // ---- scans ----

  lemma ScannedMatch(purchases: map<Id, Purchase>, tickets: map<Id, Ticket>, k: Id, now: Time)
    requires TicketsMatch(purchases, tickets) && k in tickets && tickets[k].status == Unused
    ensures TicketsMatch(purchases, tickets[k := Scan(tickets[k], now)])
  {
    forall p ensures TicketsOf(tickets[k := Scan(tickets[k], now)], p) == TicketsOf(tickets, p) {}
  }

  lemma ScanKeeps(db: Db, k: Id, now: Time)
    requires Valid(db) && k in db.tickets && db.tickets[k].status == Unused
    ensures Valid(db.(tickets := db.tickets[k := Scan(db.tickets[k], now)]))
  {
    ScannedMatch(db.purchases, db.tickets, k, now);
    TicketsOnly(db, db.tickets[k := Scan(db.tickets[k], now)]);
  }

  /** The tiers' balance does not look at tickets. */
  lemma TicketsOnly(db: Db, tickets: map<Id, Ticket>)
    requires Linked(db) && RowsChecked(db) && Conserved(db) && StatusFollowsStock(db) && TicketsMatch(db.purchases, tickets)
    requires forall k | k in tickets ::
               k in db.tickets && tickets[k].purchaseId == db.tickets[k].purchaseId && tickets[k].tierId == db.tickets[k].tierId
    ensures Valid(db.(tickets := tickets))
  {
    forall t | t in db.tiers ensures TierConserved(db.(tickets := tickets), t) { assert TierConserved(db, t); }
  }

  // ---- cancelled events ----

  lemma CancelByEventMatch(db: Db, eventId: Id)
    requires TicketsMatch(db.purchases, db.tickets)
    ensures TicketsMatch(CancelByEvent(db, eventId).purchases, CancelByEvent(db, eventId).tickets)
  {
    forall p ensures TicketsOf(CancelByEvent(db, eventId).tickets, p) == TicketsOf(db.tickets, p) {}
  }

  lemma CancelByEventLinks(db: Db, eventId: Id)
    requires Linked(db) && RowsChecked(db)
    ensures Linked(CancelByEvent(db, eventId)) && RowsChecked(CancelByEvent(db, eventId))
  {
  }

  lemma CancelByEventConserves(db: Db, eventId: Id, t: Id)
    requires t in db.tiers && db.tiers[t].eventId in db.events && TierConserved(db, t)
    requires RowsChecked(db) && eventId in db.events && db.events[eventId].status == Cancelled
    ensures TierConserved(CancelByEvent(db, eventId), t)
  {
    var after := CancelByEvent(db, eventId);
    if db.tiers[t].eventId == eventId {
      SoldBounds(db.purchases, t, t);
      SoldNothing(after.purchases, t);
    } else {
      assert ConfirmedUnits(after.purchases, t) == ConfirmedUnits(db.purchases, t);
    }
  }

  lemma CancelByEventKeeps(db: Db, eventId: Id)
    requires Valid(db) && eventId in db.events && db.events[eventId].status == Cancelled
    ensures Valid(CancelByEvent(db, eventId))
  {
    CancelByEventMatch(db, eventId);
    CancelByEventLinks(db, eventId);
    forall t | t in db.tiers ensures TierConserved(CancelByEvent(db, eventId), t) {
      CancelByEventConserves(db, eventId, t);
    }
  }
}
