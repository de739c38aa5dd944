/** Buying and cancelling, each as the one state change its transaction commits. */
module Purchases {
  import opened Basics
  import opened Model

  // ---- buying ----

  function Take(tier: Tier, quantity: int): Tier {
    tier.(remaining := tier.remaining - quantity,
          status := if tier.remaining - quantity == 0 then TierSoldOut else Available)
  }

  function Minted(purchaseId: Id, tierId: Id, ticketIds: seq<Id>): map<Id, Ticket> {
    map k | k in ticketIds :: Ticket(purchaseId, tierId, Unused, None)
  }

  /** The committed effect of a sale: stock taken, purchase and tickets inserted, and the event sold out
      when no tier of it has stock left. */
  function Sell(db: Db, id: Id, userId: Id, tierId: Id, quantity: int, ticketIds: seq<Id>): Db
    requires tierId in db.tiers
  {
    var tier := db.tiers[tierId];
    var tiers := db.tiers[tierId := Take(tier, quantity)];
    Db(if AnyStock(tiers, tier.eventId) then db.events else FlipStatus(db.events, tier.eventId, Published, SoldOut),
       tiers,
       db.purchases[id := Purchase(userId, tierId, quantity, tier.price * quantity, Confirmed)],
       db.tickets + Minted(id, tierId, ticketIds))
  }

  /** The primary keys of the inserted rows are all new. */
  predicate FreshKeys(db: Db, id: Id, ticketIds: seq<Id>) {
    id !in db.purchases && Distinct(ticketIds) && forall k | k in ticketIds :: k !in db.tickets
  }

  function Create(db: Db, id: Id, userId: Id, tierId: Id, quantity: int, ticketIds: seq<Id>): Result<Db, Error> {
    if tierId !in db.tiers then Err(NotFound) else
    var tier := db.tiers[tierId];
    if tier.eventId !in db.events then Err(Database) else
    var event := db.events[tier.eventId];
    if event.status != Published then Err(EventNotPublished)
    else if quantity > event.maxPerPurchase then Err(ExceedsMaxPerPurchase)
    else if tier.status != Available || tier.remaining < quantity then Err(InsufficientRemaining)
    else if !TierChecks(Take(tier, quantity)) then Err(Database)
    else if !PurchaseChecks(Purchase(userId, tierId, quantity, tier.price * quantity, Confirmed)) then Err(Database)
    else if !FreshKeys(db, id, ticketIds) then Err(Database)
    else Ok(Sell(db, id, userId, tierId, quantity, ticketIds))
  }

  /** The ids the handler draws, one per unit. */
  function Drawn(quantity: int, draw: nat -> Id): seq<Id> {
    if quantity <= 0 then [] else seq(quantity, i requires i >= 0 => draw(i))
  }

  /** The purchase handler: validate, look the tier and its event up, draw one ticket id per unit, and run
      the transaction. */
  function Buy(db: Db, id: Id, userId: Id, tierId: Id, quantity: int, draw: nat -> Id): Result<Db, Error> {
    if quantity < 1 then Err(Invalid)
    else if tierId !in db.tiers || db.tiers[tierId].eventId !in db.events then Err(NotFound)
    else if db.events[db.tiers[tierId].eventId].status != Published then Err(EventNotPublished)
    else Create(db, id, userId, tierId, quantity, Drawn(quantity, draw))
  }

  // ---- cancelling ----

  /** A 64-bit two's complement product, as Go computes one. */
  function Wrap64(n: int): int {
    (n + 0x8000_0000_0000_0000) % 0x1_0000_0000_0000_0000 - 0x8000_0000_0000_0000
  }

  const GRACE: Time := 72 * HOUR

  function WindowEnd(e: Event): Time {
    e.startsAt + Wrap64(-e.cancellationHours * HOUR)
  }

  predicate WindowClosed(e: Event, now: Time) {
    now > WindowEnd(e)
  }

  predicate GraceOpen(e: Event, now: Time) {
    e.materialChangedAt.Some? && now < e.materialChangedAt.value + GRACE
  }

  /** The first policy check that refuses a cancellation, if any. */
  function Refusal(e: Event, now: Time): Option<Error> {
    if now >= e.startsAt then Some(EventStarted)
    else if !e.cancellationAllowed then Some(CancellationNotAllowed)
    else if WindowClosed(e, now) && !GraceOpen(e, now) then Some(OutsideCancellationWindow)
    else None
  }

  function Restock(tier: Tier, quantity: int): Tier {
    tier.(remaining := tier.remaining + quantity, status := Available)
  }

  function VoidTickets(tickets: map<Id, Ticket>, purchaseId: Id): map<Id, Ticket> {
    map k | k in tickets ::
      if tickets[k].purchaseId == purchaseId then tickets[k].(status := TicketCancelled) else tickets[k]
  }

  /** The committed effect of a cancellation: purchase and tickets cancelled, stock given back, and a
      sold-out event reopened. */
  function Refund(db: Db, id: Id): Db
    requires id in db.purchases && db.purchases[id].tierId in db.tiers
  {
    var p := db.purchases[id];
    var tier := db.tiers[p.tierId];
    Db(FlipStatus(db.events, tier.eventId, SoldOut, Published),
       db.tiers[p.tierId := Restock(tier, p.quantity)],
       db.purchases[id := p.(status := PurchaseCancelled)],
       VoidTickets(db.tickets, id))
  }

  function Cancel(db: Db, id: Id, userId: Id, now: Time): Result<Db, Error> {
    if id !in db.purchases || db.purchases[id].userId != userId then Err(NotFound) else
    var p := db.purchases[id];
    if p.status != Confirmed then Err(AlreadyCancelled)
    else if p.tierId !in db.tiers || db.tiers[p.tierId].eventId !in db.events then Err(Database) else
    var tier := db.tiers[p.tierId];
    match Refusal(db.events[tier.eventId], now)
    case Some(e) => Err(e)
    case None =>
      if !TierChecks(Restock(tier, p.quantity)) then Err(Database) else Ok(Refund(db, id))
  }

  /** True if the tier of a purchase is marked sold out. */
  predicate WasSoldOut(db: Db, id: Id) {
    && id in db.purchases && db.purchases[id].tierId in db.tiers
    && db.tiers[db.purchases[id].tierId].status == TierSoldOut
  }

  // ---- cancelling a whole event ----

  /** Every confirmed purchase of the event, and every ticket of any purchase of it, becomes cancelled. */
  function CancelByEvent(db: Db, eventId: Id): Db {
    db.(purchases := map p | p in db.purchases ::
          if PurchaseOf(db.tiers, db.purchases[p], eventId) && db.purchases[p].status == Confirmed
          then db.purchases[p].(status := PurchaseCancelled) else db.purchases[p],
        tickets := map k | k in db.tickets ::
          if TicketOf(db, db.tickets[k], eventId) then db.tickets[k].(status := TicketCancelled) else db.tickets[k])
  }

  predicate TicketOf(db: Db, t: Ticket, eventId: Id) {
    t.purchaseId in db.purchases && PurchaseOf(db.tiers, db.purchases[t.purchaseId], eventId)
  }
}
