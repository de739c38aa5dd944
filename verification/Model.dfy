/** The rows of the ticketing database, the errors its operations report, and the sums its queries take. */
module Model {
  import opened Basics
  import opened Sums

  datatype EventStatus = Draft | Published | SoldOut | Cancelled | Ended

  datatype Event = Event(
    organizerId: Id,
    status: EventStatus,
    startsAt: Time,
    endsAt: Time,
    capacity: Option<int>,
    cancellationAllowed: bool,
    cancellationHours: int,
    maxPerPurchase: int,
    materialChangedAt: Option<Time>)

  datatype TierStatus = Available | TierSoldOut

  datatype Tier = Tier(eventId: Id, price: int, quantity: int, remaining: int, status: TierStatus)

  /** No operation ever stores the third status of the schema, 'refunded'. */
  datatype PurchaseStatus = Confirmed | PurchaseCancelled

  datatype Purchase = Purchase(userId: Id, tierId: Id, quantity: int, total: int, status: PurchaseStatus)

  datatype TicketStatus = Unused | Used | TicketCancelled

  datatype Ticket = Ticket(purchaseId: Id, tierId: Id, status: TicketStatus, checkedInAt: Option<Time>)

  datatype Db = Db(
    events: map<Id, Event>,
    tiers: map<Id, Tier>,
    purchases: map<Id, Purchase>,
    tickets: map<Id, Ticket>)

  /** `Conflict` and `Invalid` are the 409 and the 400/422 answers of the handlers; `Database` is an
      error of PostgreSQL (a CHECK, a primary key or an INTEGER range), which rolls the transaction back. */
  datatype Error =
    | NotFound | Conflict | Invalid | Database
    | EventNotPublished | ExceedsMaxPerPurchase | InsufficientRemaining
    | AlreadyCancelled | EventStarted | CancellationNotAllowed | OutsideCancellationWindow
    | AlreadyCheckedIn | VoidTicket | WrongEvent

  predicate Live(s: EventStatus) {
    s == Published || s == SoldOut
  }

  /** UPDATE events SET status = to WHERE id = id AND status = from. */
  function FlipStatus(events: map<Id, Event>, id: Id, from: EventStatus, to: EventStatus): map<Id, Event> {
    if id in events && events[id].status == from then events[id := events[id].(status := to)] else events
  }

  /** CHECK (remaining >= 0 AND remaining <= quantity), CHECK (quantity > 0), CHECK (price >= 0), and the column range. */
  predicate TierChecks(t: Tier) {
    0 <= t.remaining <= t.quantity && 0 < t.quantity <= MAX_INT4 && 0 <= t.price <= MAX_INT4
  }

  /** The CHECK constraints and the column ranges of an event row. */
  predicate EventChecks(e: Event) {
    && e.startsAt < e.endsAt
    && (e.capacity.Some? ==> 0 < e.capacity.value <= MAX_INT4)
    && 0 < e.maxPerPurchase <= MAX_INT4
    && 0 <= e.cancellationHours <= MAX_INT4
  }

  /** CHECK (quantity > 0), CHECK (total >= 0), and the column ranges. */
  predicate PurchaseChecks(p: Purchase) {
    0 < p.quantity <= MAX_INT4 && 0 <= p.total <= MAX_INT4
  }

  /** True if some tier of the event still has stock. */
  predicate AnyStock(tiers: map<Id, Tier>, eventId: Id) {
    exists t | t in tiers :: tiers[t].eventId == eventId && tiers[t].remaining > 0
  }

  /** The event a purchase is for, through its tier. */
  predicate PurchaseOf(tiers: map<Id, Tier>, p: Purchase, eventId: Id) {
    p.tierId in tiers && tiers[p.tierId].eventId == eventId
  }

  /** The tickets minted for one purchase. */
  function TicketsOf(tickets: map<Id, Ticket>, purchaseId: Id): set<Id> {
    set k | k in tickets && tickets[k].purchaseId == purchaseId
  }

  // ---- what the aggregate queries sum ----

  function ConfirmedUnits(purchases: map<Id, Purchase>, tierId: Id): map<Id, int> {
    map p | p in purchases && purchases[p].tierId == tierId && purchases[p].status == Confirmed
      :: purchases[p].quantity
  }

  /** The confirmed quantity of one tier. */
  ghost function Sold(purchases: map<Id, Purchase>, tierId: Id): int {
    Sum(ConfirmedUnits(purchases, tierId))
  }

  function EventUnits(db: Db, eventId: Id): map<Id, int> {
    map p | p in db.purchases && PurchaseOf(db.tiers, db.purchases[p], eventId) && db.purchases[p].status == Confirmed
      :: db.purchases[p].quantity
  }

  /** SumConfirmedQuantityByEvent: the confirmed quantity of a whole event, summed over purchases. */
  ghost function EventSold(db: Db, eventId: Id): int {
    Sum(EventUnits(db, eventId))
  }

  function TierQuantities(tiers: map<Id, Tier>, eventId: Id): map<Id, int> {
    map t | t in tiers && tiers[t].eventId == eventId :: tiers[t].quantity
  }

  /** SumQuantityByEvent: the total inventory of an event, summed over tiers. */
  ghost function TierTotal(tiers: map<Id, Tier>, eventId: Id): int {
    Sum(TierQuantities(tiers, eventId))
  }

  // ---- how the sums move with one row ----

  /** What one purchase row adds to the confirmed quantity of a tier. */
  function Share(purchases: map<Id, Purchase>, id: Id, tierId: Id): int {
    var units := ConfirmedUnits(purchases, tierId);
    if id in units then units[id] else 0
  }

  lemma SoldWrite(purchases: map<Id, Purchase>, id: Id, row: Purchase, tierId: Id)
    ensures var after := purchases[id := row];
            Sold(after, tierId) == Sold(purchases, tierId) - Share(purchases, id, tierId) + Share(after, id, tierId)
  {
    var after := purchases[id := row];
    var before', after' := ConfirmedUnits(purchases, tierId), ConfirmedUnits(after, tierId);
    var rest := before' - {id};
    assert after' - {id} == rest;
    if id in before' { SumRemove(before', id); } else { assert rest == before'; }
    if id in after' { SumRemove(after', id); } else { assert rest == after'; }
  }

  lemma SoldBounds(purchases: map<Id, Purchase>, id: Id, tierId: Id)
    requires forall p | p in purchases :: purchases[p].quantity > 0
    ensures Sold(purchases, tierId) >= 0
    ensures Share(purchases, id, tierId) <= Sold(purchases, tierId)
  {
    SumBounds(ConfirmedUnits(purchases, tierId), id);
  }

  /** A tier none of whose purchases are confirmed has sold nothing. */
  lemma SoldNothing(purchases: map<Id, Purchase>, tierId: Id)
    requires forall p | p in purchases && purchases[p].tierId == tierId :: purchases[p].status != Confirmed
    ensures Sold(purchases, tierId) == 0
  {
    assert ConfirmedUnits(purchases, tierId) == map[];
  }

  /** Tables that agree on the purchases of a tier agree on what it sold. */
  lemma SoldSame(a: map<Id, Purchase>, b: map<Id, Purchase>, tierId: Id)
    requires ConfirmedUnits(a, tierId) == ConfirmedUnits(b, tierId)
    ensures Sold(a, tierId) == Sold(b, tierId)
  {
  }
}
