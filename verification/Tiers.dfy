/** The organizer's handlers for ticket tiers. */
module Tiers {
  import opened Basics
  import opened Model

  /** A new tier's quantity fits under the event's capacity, if it has one. */
  ghost predicate Fits(db: Db, event: Event, eventId: Id, oldQuantity: int, newQuantity: int) {
    event.capacity.Some? ==> TierTotal(db.tiers, eventId) - oldQuantity + newQuantity <= event.capacity.value
  }

  ghost function CreateTier(db: Db, id: Id, eventId: Id, price: Option<int>, quantity: Option<int>): Result<Db, Error> {
    if eventId !in db.events then Err(NotFound) else
    var event := db.events[eventId];
    if (price.Some? && price.value < 0) || (quantity.Some? && quantity.value <= 0) then Err(Invalid)
    else if event.status != Draft then Err(Conflict)
    else if price.None? || quantity.None? then Err(Invalid)
    else if !Fits(db, event, eventId, 0, quantity.value) then Err(Invalid) else
    var row := Tier(eventId, price.value, quantity.value, quantity.value, Available);
    if !TierChecks(row) || id in db.tiers then Err(Database)
    else Ok(db.(tiers := db.tiers[id := row]))
  }

  /** The row after the payload is merged in: sold units stay sold, and the status follows the stock. */
  function Merge(tier: Tier, price: Option<int>, quantity: Option<int>): Tier {
    var priced := if price.Some? then tier.(price := price.value) else tier;
    if quantity.None? then priced else
    var remaining := quantity.value - (tier.quantity - tier.remaining);
    priced.(quantity := quantity.value, remaining := remaining,
            status := if remaining > 0 then Available else TierSoldOut)
  }

  /** A sold-out event goes back on sale once one of its tiers has stock. */
  predicate Reopens(event: Event, row: Tier) {
    event.status == SoldOut && row.remaining > 0
  }

  /** What the handler commits. The tier row and the event row are two statements outside a transaction; `flipOk`
      says whether the second, which reopens a sold-out event, succeeds. */
  ghost function UpdateTier(db: Db, eventId: Id, tierId: Id, price: Option<int>, quantity: Option<int>, flipOk: bool): Result<Db, Error> {
    if eventId !in db.events then Err(NotFound) else
    var event := db.events[eventId];
    if event.status == Cancelled || event.status == Ended then Err(Conflict)
    else if tierId !in db.tiers || db.tiers[tierId].eventId != eventId then Err(NotFound)
    else if (price.Some? && price.value < 0) || (quantity.Some? && quantity.value < 1) then Err(Invalid) else
    var tier := db.tiers[tierId];
    if quantity.Some? && quantity.value < tier.quantity - tier.remaining then Err(Invalid)
    else if quantity.Some? && !Fits(db, event, eventId, tier.quantity, quantity.value) then Err(Invalid) else
    var row := Merge(tier, price, quantity);
    if !TierChecks(row) then Err(Database)
    else Ok(db.(tiers := db.tiers[tierId := row],
                events := if Reopens(event, row) && flipOk then FlipStatus(db.events, eventId, SoldOut, Published) else db.events))
  }

  /** The answer: an error also when the tier was written and the event could not be reopened. */
  ghost function UpdateAnswer(db: Db, eventId: Id, tierId: Id, price: Option<int>, quantity: Option<int>, flipOk: bool): Result<(), Error> {
    match UpdateTier(db, eventId, tierId, price, quantity, flipOk)
    case Err(e) => Err(e)
    case Ok(after) =>
      if !flipOk && Reopens(db.events[eventId], after.tiers[tierId]) then Err(Database) else Ok(())
  }

  /** What a caller can check beforehand: the event is open, the tier is its own, the payload is valid, the units
      sold stay covered and the tiers fit the capacity. */
  ghost predicate Accepts(db: Db, eventId: Id, tierId: Id, price: Option<int>, quantity: Option<int>) {
    && eventId in db.events && db.events[eventId].status != Cancelled && db.events[eventId].status != Ended
    && tierId in db.tiers && db.tiers[tierId].eventId == eventId
    && (price.Some? ==> 0 <= price.value <= MAX_INT4)
    && (quantity.Some? ==>
          && 1 <= quantity.value <= MAX_INT4 && SoldUnits(db.tiers[tierId]) <= quantity.value
          && Fits(db, db.events[eventId], eventId, db.tiers[tierId].quantity, quantity.value))
  }

  function SoldUnits(tier: Tier): int {
    tier.quantity - tier.remaining
  }

  lemma AcceptsIff(db: Db, eventId: Id, tierId: Id, price: Option<int>, quantity: Option<int>, flipOk: bool)
    requires tierId in db.tiers ==> TierChecks(db.tiers[tierId])
    ensures UpdateTier(db, eventId, tierId, price, quantity, flipOk).Ok? <==> Accepts(db, eventId, tierId, price, quantity)
  {
  }

  /** ON DELETE CASCADE from tiers to purchases to tickets. */
  function DropTiers(db: Db, doomed: set<Id>): Db {
    var purchases := map p | p in db.purchases && db.purchases[p].tierId !in doomed :: db.purchases[p];
    db.(tiers := db.tiers - doomed,
        purchases := purchases,
        tickets := map k | k in db.tickets && db.tickets[k].tierId !in doomed && db.tickets[k].purchaseId in purchases
                     :: db.tickets[k])
  }

  function DeleteTier(db: Db, eventId: Id, tierId: Id): Result<Db, Error> {
    if eventId !in db.events then Err(NotFound)
    else if db.events[eventId].status != Draft then Err(Conflict)
    else if tierId !in db.tiers || db.tiers[tierId].eventId != eventId then Err(NotFound)
    else Ok(DropTiers(db, {tierId}))
  }
}
