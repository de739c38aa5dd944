/** What the transactions and handlers answer and what they write, row by row and column by column, without the
    helper functions they are made of. */
module Effects {
  import opened Basics
  import opened Model
  import Inventory
  import Purchases
  import Tickets
  import Tiers
  import Events
  import L = Lifecycle

  // ---- a purchase ----

  /** Which error a purchase answers, and when it succeeds. */
  lemma CreateAnswers(db: Db, id: Id, u: Id, t: Id, quantity: int, ks: seq<Id>)
    requires Inventory.Linked(db) && Inventory.RowsChecked(db)
    ensures Purchases.Create(db, id, u, t, quantity, ks) == Err(NotFound) <==> t !in db.tiers
    ensures t in db.tiers ==>
              var r, tier, event := Purchases.Create(db, id, u, t, quantity, ks), db.tiers[t], db.events[db.tiers[t].eventId];
              && (r == Err(EventNotPublished) <==> event.status != Published)
              && (r == Err(ExceedsMaxPerPurchase) <==> event.status == Published && quantity > event.maxPerPurchase)
              && (r == Err(InsufficientRemaining) <==>
                    event.status == Published && quantity <= event.maxPerPurchase && (tier.status != Available || tier.remaining < quantity))
              && (r.Ok? <==>
                    && event.status == Published && quantity <= event.maxPerPurchase
                    && tier.status == Available && quantity <= tier.remaining
                    && 1 <= quantity <= 2147483647 && tier.price * quantity <= 2147483647
                    && id !in db.purchases && (forall k | k in ks :: k !in db.tickets)
                    && forall i, j | 0 <= i < j < |ks| :: ks[i] != ks[j])
              && (r.Err? ==> r.error in {EventNotPublished, ExceedsMaxPerPurchase, InsufficientRemaining, Database})
  {
    if t in db.tiers && 1 <= quantity {
      assert 0 <= db.tiers[t].price * quantity;
    }
  }

  /** The tier gives up the units and is sold out exactly at zero; the purchase costs price times quantity. */
  lemma CreateWritesRows(db: Db, id: Id, u: Id, t: Id, quantity: int, ks: seq<Id>, after: Db)
    requires Purchases.Create(db, id, u, t, quantity, ks) == Ok(after)
    ensures t in db.tiers && after.purchases == db.purchases[id := Purchase(u, t, quantity, db.tiers[t].price * quantity, Confirmed)]
    ensures var a, b := db.tiers[t], after.tiers[t];
            && b.eventId == a.eventId && b.price == a.price && b.quantity == a.quantity && b.remaining == a.remaining - quantity
            && (b.status == TierSoldOut <==> a.remaining == quantity)
    ensures after.tiers.Keys == db.tiers.Keys && forall x | x in db.tiers && x != t :: after.tiers[x] == db.tiers[x]
  {
  }

  /** One unused ticket per id is added, and no other ticket changes. */
  lemma CreateWritesTickets(db: Db, id: Id, u: Id, t: Id, quantity: int, ks: seq<Id>, after: Db)
    requires Purchases.Create(db, id, u, t, quantity, ks) == Ok(after)
    ensures forall k :: k in after.tickets <==> k in db.tickets || k in ks
    ensures forall k | k in ks :: after.tickets[k] == Ticket(id, t, Unused, None)
    ensures forall k | k in db.tickets :: after.tickets[k] == db.tickets[k]
  {
  }

  /** The event is sold out exactly when no tier of it has a unit left; no other event changes. */
  lemma CreateWritesEvents(db: Db, id: Id, u: Id, t: Id, quantity: int, ks: seq<Id>, after: Db)
    requires Purchases.Create(db, id, u, t, quantity, ks) == Ok(after)
    ensures t in db.tiers && after.events.Keys == db.events.Keys && db.tiers[t].eventId in db.events
    ensures forall e | e in db.events && e != db.tiers[t].eventId :: after.events[e] == db.events[e]
    ensures var e := db.tiers[t].eventId;
            var left := exists x | x in after.tiers :: after.tiers[x].eventId == e && after.tiers[x].remaining > 0;
            after.events[e] == db.events[e].(status := if left then Published else SoldOut)
  {
  }

  /** The handler refuses fewer than one unit, an unknown tier and an event that is not on sale before it opens the
      transaction, and mints exactly as many tickets as units. */
  lemma BuyAnswers(db: Db, id: Id, u: Id, t: Id, units: int, draw: nat -> Id)
    requires Inventory.Linked(db)
    ensures var r := Purchases.Buy(db, id, u, t, units, draw);
            && (r == Err(Invalid) <==> units < 1)
            && (units >= 1 && t !in db.tiers ==> r == Err(NotFound))
            && (units >= 1 && t in db.tiers && db.events[db.tiers[t].eventId].status != Published ==> r == Err(EventNotPublished))
            && (units >= 1 && t in db.tiers && db.events[db.tiers[t].eventId].status == Published ==>
                  r == Purchases.Create(db, id, u, t, units, seq(units, i requires i >= 0 => draw(i))))
  {
    if units >= 1 { assert Purchases.Drawn(units, draw) == seq(units, i requires i >= 0 => draw(i)); }
  }

  // ---- a cancellation ----

  /** Which error a cancellation answers before the window is looked at. */
  lemma CancelAnswers(db: Db, id: Id, u: Id, now: Time)
    requires L.Inv(db)
    ensures Purchases.Cancel(db, id, u, now) == Err(NotFound) <==> id !in db.purchases || db.purchases[id].userId != u
    ensures id in db.purchases && db.purchases[id].userId == u ==>
              var r, event := Purchases.Cancel(db, id, u, now), db.events[db.tiers[db.purchases[id].tierId].eventId];
              var confirmed := db.purchases[id].status == Confirmed;
              && (r == Err(AlreadyCancelled) <==> !confirmed)
              && (r == Err(EventStarted) <==> confirmed && now >= event.startsAt)
              && (r == Err(CancellationNotAllowed) <==> confirmed && now < event.startsAt && !event.cancellationAllowed)
              && (r == Err(OutsideCancellationWindow) <==>
                    confirmed && now < event.startsAt && event.cancellationAllowed && r.Err?)
  {
    L.CancelNeverRejected(db, id, u, now);
    CancelRefusals(db, id, u, now);
  }

  lemma CancelRefusals(db: Db, id: Id, u: Id, now: Time)
    requires Inventory.Linked(db) && Purchases.Cancel(db, id, u, now) != Err(Database)
    ensures Purchases.Cancel(db, id, u, now) == Err(NotFound) <==> id !in db.purchases || db.purchases[id].userId != u
    ensures id in db.purchases && db.purchases[id].userId == u ==>
              var r, event := Purchases.Cancel(db, id, u, now), db.events[db.tiers[db.purchases[id].tierId].eventId];
              var confirmed := db.purchases[id].status == Confirmed;
              && (r == Err(AlreadyCancelled) <==> !confirmed)
              && (r == Err(EventStarted) <==> confirmed && now >= event.startsAt)
              && (r == Err(CancellationNotAllowed) <==> confirmed && now < event.startsAt && !event.cancellationAllowed)
              && (r == Err(OutsideCancellationWindow) <==>
                    confirmed && now < event.startsAt && event.cancellationAllowed && r.Err?)
  {
  }

  /** The purchase and its tickets are cancelled, the tier has its units back, a sold-out event is on sale again. */
  lemma CancelWrites(db: Db, id: Id, u: Id, now: Time, after: Db)
    requires Purchases.Cancel(db, id, u, now) == Ok(after)
    ensures id in db.purchases && db.purchases[id].tierId in db.tiers
    ensures after.purchases == db.purchases[id := db.purchases[id].(status := PurchaseCancelled)]
    ensures var p := db.purchases[id]; var tier := db.tiers[p.tierId];
            after.tiers == db.tiers[p.tierId := Tier(tier.eventId, tier.price, tier.quantity, tier.remaining + p.quantity, Available)]
    ensures after.tickets.Keys == db.tickets.Keys && forall k | k in db.tickets ::
              after.tickets[k] == if db.tickets[k].purchaseId == id then db.tickets[k].(status := TicketCancelled) else db.tickets[k]
    ensures after.events.Keys == db.events.Keys && forall e | e in db.events ::
              after.events[e] == if e == db.tiers[db.purchases[id].tierId].eventId && db.events[e].status == SoldOut
                                 then db.events[e].(status := Published) else db.events[e]
  {
  }

  // ---- a scan ----

  /** Which answer a scan gets, in order of precedence. */
  lemma ScanAnswers(db: Db, k: Id, eventId: Id, now: Time)
    requires Inventory.Linked(db)
    ensures Tickets.CheckIn(db, k, eventId, now) == Err(NotFound) <==> k !in db.tickets
    ensures k in db.tickets ==>
              var r, ticket := Tickets.CheckIn(db, k, eventId, now), db.tickets[k];
              && (r == Err(AlreadyCheckedIn) <==> ticket.status == Used)
              && (r == Err(VoidTicket) <==> ticket.status == TicketCancelled)
              && (r == Err(WrongEvent) <==> ticket.status == Unused && db.tiers[ticket.tierId].eventId != eventId)
              && (r.Ok? <==> ticket.status == Unused && db.tiers[ticket.tierId].eventId == eventId)
  {
  }

  /** The ticket is used, at the time of the scan; nothing else changes. */
  lemma ScanWrites(db: Db, k: Id, eventId: Id, now: Time, after: Db)
    requires Tickets.CheckIn(db, k, eventId, now) == Ok(after)
    ensures k in db.tickets
    ensures after == db.(tickets := db.tickets[k := Ticket(db.tickets[k].purchaseId, db.tickets[k].tierId, Used, Some(now))])
  {
  }

  /** A token that names no ticket is refused like an unknown ticket. */
  lemma NoTicketNoEntry(db: Db, eventId: Id, now: Time)
    ensures Tickets.Door(db, None, eventId, now) == Err(NotFound)
    ensures forall k :: Tickets.Door(db, Some(k), eventId, now) == Tickets.CheckIn(db, k, eventId, now)
  {
  }

  // ---- tiers ----

  /** When a tier is accepted, and the row it becomes. */
  lemma CreateTierWrites(db: Db, id: Id, eventId: Id, price: Option<int>, quantity: Option<int>)
    ensures Tiers.CreateTier(db, id, eventId, price, quantity).Ok? <==>
              && eventId in db.events && db.events[eventId].status == Draft && id !in db.tiers
              && price.Some? && 0 <= price.value <= 2147483647 && quantity.Some? && 1 <= quantity.value <= 2147483647
              && (db.events[eventId].capacity.Some? ==>
                    TierTotal(db.tiers, eventId) + quantity.value <= db.events[eventId].capacity.value)
    ensures Tiers.CreateTier(db, id, eventId, price, quantity).Ok? ==>
              Tiers.CreateTier(db, id, eventId, price, quantity).value ==
                db.(tiers := db.tiers[id := Tier(eventId, price.value, quantity.value, quantity.value, Available)])
  {
  }

  /** A resize: a given price and quantity replace the stored ones, the units sold stay sold, the status follows the
      stock, and a sold-out event is reopened if stock appears and the second write succeeds. */
  lemma UpdateTierWrites(db: Db, eventId: Id, t: Id, price: Option<int>, quantity: Option<int>, flipOk: bool, after: Db)
    requires Tiers.UpdateTier(db, eventId, t, price, quantity, flipOk) == Ok(after)
    ensures t in db.tiers && eventId in db.events && after.purchases == db.purchases && after.tickets == db.tickets
    ensures after.tiers.Keys == db.tiers.Keys && forall x | x in db.tiers && x != t :: after.tiers[x] == db.tiers[x]
    ensures var a, b := db.tiers[t], after.tiers[t];
            && b.eventId == a.eventId && (price == Some(b.price) || (price == None && b.price == a.price))
            && (quantity == None ==> b.quantity == a.quantity && b.remaining == a.remaining && b.status == a.status)
            && (quantity.Some? ==>
                  && b.quantity == quantity.value && b.quantity - b.remaining == a.quantity - a.remaining
                  && (b.status == Available <==> b.remaining > 0))
    ensures after.events.Keys == db.events.Keys && forall e | e in db.events ::
              after.events[e] == if e == eventId && db.events[e].status == SoldOut && after.tiers[t].remaining > 0 && flipOk
                                 then db.events[e].(status := Published) else db.events[e]
  {
  }

  /** A resize is committed under exactly these conditions. */
  lemma UpdateTierAnswers(db: Db, eventId: Id, t: Id, price: Option<int>, quantity: Option<int>, flipOk: bool)
    requires Inventory.RowsChecked(db)
    ensures Tiers.UpdateTier(db, eventId, t, price, quantity, flipOk).Ok? <==>
              && eventId in db.events && db.events[eventId].status in {Draft, Published, SoldOut}
              && t in db.tiers && db.tiers[t].eventId == eventId
              && (price.Some? ==> 0 <= price.value <= 2147483647)
              && (quantity.Some? ==>
                    && 1 <= quantity.value <= 2147483647 && db.tiers[t].quantity - db.tiers[t].remaining <= quantity.value
                    && (db.events[eventId].capacity.Some? ==>
                          TierTotal(db.tiers, eventId) - db.tiers[t].quantity + quantity.value <= db.events[eventId].capacity.value))
  {
  }

  /** Deleting a tier: drafts only, its own event's only; the row goes, and with it what hangs on it. */
  lemma DeleteTierWrites(db: Db, eventId: Id, t: Id)
    ensures Tiers.DeleteTier(db, eventId, t).Ok? <==>
              eventId in db.events && db.events[eventId].status == Draft && t in db.tiers && db.tiers[t].eventId == eventId
    ensures Tiers.DeleteTier(db, eventId, t).Ok? ==>
              var after := Tiers.DeleteTier(db, eventId, t).value;
              && after.events == db.events && after.tiers == db.tiers - {t}
              && (forall p :: p in after.purchases <==> p in db.purchases && db.purchases[p].tierId != t)
              && (forall k :: k in after.tickets <==>
                    k in db.tickets && db.tickets[k].tierId != t && db.tickets[k].purchaseId in after.purchases)
  {
  }

  // ---- events ----

  /** When an event is created, and its row: a draft with the given columns, cancellable and limited to ten tickets
      a purchase unless the payload says otherwise, and never stamped. */
  lemma CreateEventWrites(db: Db, id: Id, p: Events.NewEvent)
    ensures Events.CreateEvent(db, id, p).Ok? <==>
              && id !in db.events && p.startsAt < p.endsAt && 0 <= p.cancellationHours <= 2147483647
              && (p.capacity.Some? ==> 1 <= p.capacity.value <= 2147483647)
              && (p.maxPerPurchase.Some? ==> 1 <= p.maxPerPurchase.value <= 2147483647)
    ensures Events.CreateEvent(db, id, p).Ok? ==>
              var after := Events.CreateEvent(db, id, p).value;
              && id in after.events && after == db.(events := db.events[id := after.events[id]])
              && var e := after.events[id];
                 && e.organizerId == p.organizerId && e.status == Draft && e.startsAt == p.startsAt && e.endsAt == p.endsAt
                 && e.capacity == p.capacity && e.cancellationHours == p.cancellationHours && e.materialChangedAt == None
                 && (e.cancellationAllowed <==> p.cancellationAllowed != Some(false))
                 && (p.maxPerPurchase == Some(e.maxPerPurchase) || (p.maxPerPurchase == None && e.maxPerPurchase == 10))
  {
  }

  /** An update is accepted under exactly these conditions. */
  lemma UpdateEventAnswers(db: Db, id: Id, p: Events.Patch, now: Time)
    requires id in db.events ==> db.events[id].startsAt < db.events[id].endsAt && EventChecks(db.events[id])
    ensures Events.UpdateEvent(db, id, p, now).Ok? <==>
              && id in db.events && db.events[id].status in {Draft, Published, SoldOut}
              && (p.capacity.Some? ==> 1 <= p.capacity.value <= 2147483647 && EventSold(db, id) <= p.capacity.value)
              && (p.cancellationHours.Some? ==> 0 <= p.cancellationHours.value <= 2147483647)
              && (p.maxPerPurchase.Some? ==> 1 <= p.maxPerPurchase.value <= 2147483647)
              && (var starts := if p.startsAt.Some? then p.startsAt.value else db.events[id].startsAt;
                  var ends := if p.endsAt.Some? then p.endsAt.value else db.events[id].endsAt;
                  starts < ends)
              && (db.events[id].status != Draft
                  && (p.locationGiven || p.startsAt.Some? || p.endsAt.Some? || p.cancellationAllowed.Some? || p.cancellationHours.Some?)
                  ==> p.confirm == Some(true))
  {
  }

  /** The stored row: every column the payload gives has its value, every other one is as it was; the organizer and
      the status never change; the stamp is the time of the update exactly when the event is published or sold out
      and the payload has a location, a date or a cancellation term. No other row changes. */
  lemma UpdateEventWrites(db: Db, id: Id, p: Events.Patch, now: Time, after: Db)
    requires Events.UpdateEvent(db, id, p, now) == Ok(after)
    ensures id in db.events && id in after.events && after == db.(events := db.events[id := after.events[id]])
    ensures var a, b := db.events[id], after.events[id];
            && b.organizerId == a.organizerId && b.status == a.status
            && (p.startsAt == Some(b.startsAt) || (p.startsAt == None && b.startsAt == a.startsAt))
            && (p.endsAt == Some(b.endsAt) || (p.endsAt == None && b.endsAt == a.endsAt))
            && (p.capacity == b.capacity || (p.capacity == None && b.capacity == a.capacity))
            && (p.cancellationAllowed == Some(b.cancellationAllowed)
                || (p.cancellationAllowed == None && b.cancellationAllowed == a.cancellationAllowed))
            && (p.cancellationHours == Some(b.cancellationHours)
                || (p.cancellationHours == None && b.cancellationHours == a.cancellationHours))
            && (p.maxPerPurchase == Some(b.maxPerPurchase) || (p.maxPerPurchase == None && b.maxPerPurchase == a.maxPerPurchase))
    ensures var a, b := db.events[id], after.events[id];
            b.materialChangedAt ==
              if (a.status == Published || a.status == SoldOut)
                 && (p.locationGiven || p.startsAt.Some? || p.endsAt.Some? || p.cancellationAllowed.Some? || p.cancellationHours.Some?)
              then Some(now) else a.materialChangedAt
  {
  }

  /** Buyers are told of an accepted update exactly when the event is on sale and one of the columns they rely on
      was given. */
  lemma UpdateEventTells(db: Db, id: Id, p: Events.Patch, now: Time)
    requires L.Inv(db) && Events.UpdateEvent(db, id, p, now).Ok?
    ensures Events.Notifies(db.events[id], p, now) <==>
              && (db.events[id].status == Published || db.events[id].status == SoldOut)
              && (p.locationGiven || p.startsAt.Some? || p.endsAt.Some? || p.cancellationAllowed.Some? || p.cancellationHours.Some?)
  {
  }

  /** Publishing: a draft with a tier becomes published, and nothing else changes. */
  lemma PublishWrites(db: Db, id: Id)
    ensures Events.PublishEvent(db, id).Ok? <==>
              id in db.events && db.events[id].status == Draft && exists t | t in db.tiers :: db.tiers[t].eventId == id
    ensures Events.PublishEvent(db, id).Ok? ==>
              Events.PublishEvent(db, id).value == db.(events := db.events[id := db.events[id].(status := Published)])
  {
  }

  /** Cancelling an event: from draft, published or sold out; its confirmed purchases and all its tickets become
      cancelled if the bulk update succeeds; tiers keep their stock. */
  lemma CancelEventWrites(db: Db, id: Id, bulkOk: bool)
    ensures Events.CancelEvent(db, id, bulkOk).Ok? <==> id in db.events && db.events[id].status in {Draft, Published, SoldOut}
    ensures Events.CancelEvent(db, id, bulkOk).Ok? ==>
              var after := Events.CancelEvent(db, id, bulkOk).value;
              && after.events == db.events[id := db.events[id].(status := Cancelled)] && after.tiers == db.tiers
              && after.purchases.Keys == db.purchases.Keys && after.tickets.Keys == db.tickets.Keys
              && (!bulkOk ==> after.purchases == db.purchases && after.tickets == db.tickets)
  {
  }

  lemma CancelByEventWrites(db: Db, id: Id)
    requires Inventory.Linked(db)
    ensures var after := Purchases.CancelByEvent(db, id);
            && after.events == db.events && after.tiers == db.tiers
            && after.purchases.Keys == db.purchases.Keys && after.tickets.Keys == db.tickets.Keys
            && (forall p | p in db.purchases :: after.purchases[p] ==
                  if db.tiers[db.purchases[p].tierId].eventId == id
                  then db.purchases[p].(status := PurchaseCancelled) else db.purchases[p])
            && (forall k | k in db.tickets :: after.tickets[k] ==
                  if db.tiers[db.purchases[db.tickets[k].purchaseId].tierId].eventId == id
                  then db.tickets[k].(status := TicketCancelled) else db.tickets[k])
  {
  }

  /** Deleting an event: drafts only; its row and its tiers go. */
  lemma DeleteEventWrites(db: Db, id: Id)
    ensures Events.DeleteEvent(db, id).Ok? <==> id in db.events && db.events[id].status == Draft
    ensures Events.DeleteEvent(db, id).Ok? ==>
              var after := Events.DeleteEvent(db, id).value;
              && after.events == db.events - {id}
              && (forall t :: t in after.tiers <==> t in db.tiers && db.tiers[t].eventId != id)
              && (forall t | t in after.tiers :: after.tiers[t] == db.tiers[t])
  {
  }

  /** The sweep: an event is ended afterwards exactly when it was, or when it was published or sold out and its end
      has passed; no other column and no other table changes. */
  lemma SweepWrites(db: Db, now: Time)
    ensures var after := Events.EndAllExpired(db, now);
            && after == db.(events := after.events) && after.events.Keys == db.events.Keys
            && forall e | e in db.events ::
                 && after.events[e] == db.events[e].(status := after.events[e].status)
                 && (after.events[e].status == Ended <==>
                       || db.events[e].status == Ended
                       || ((db.events[e].status == Published || db.events[e].status == SoldOut) && db.events[e].endsAt < now))
                 && (after.events[e].status != Ended ==> after.events[e].status == db.events[e].status)
  {
  }

  // ---- which error an organizer gets ----

  lemma EventRefusals(db: Db, id: Id, bulkOk: bool)
    ensures Events.PublishEvent(db, id).Err? ==> Events.PublishEvent(db, id).error == if id in db.events then Conflict else NotFound
    ensures Events.CancelEvent(db, id, bulkOk).Err? ==> Events.CancelEvent(db, id, bulkOk).error == if id in db.events then Conflict else NotFound
    ensures Events.DeleteEvent(db, id).Err? ==> Events.DeleteEvent(db, id).error == if id in db.events then Conflict else NotFound
  {
  }

  /** An invalid event is told apart from one whose columns do not fit the database. */
  lemma CreateEventRefuses(db: Db, id: Id, p: Events.NewEvent)
    ensures Events.CreateEvent(db, id, p) == Err(Invalid) <==>
              || (p.capacity.Some? && p.capacity.value < 1) || p.cancellationHours < 0
              || (p.maxPerPurchase.Some? && p.maxPerPurchase.value < 1) || p.endsAt <= p.startsAt
    ensures Events.CreateEvent(db, id, p).Err? ==> Events.CreateEvent(db, id, p).error in {Invalid, Database}
  {
  }

  /** The payload is looked at first, then the event: a closed event and an unconfirmed material change conflict. */
  lemma UpdateEventRefuses(db: Db, id: Id, p: Events.Patch, now: Time)
    ensures Events.UpdateEvent(db, id, p, now) == Err(NotFound) <==> id !in db.events
    ensures id in db.events ==>
              var r := Events.UpdateEvent(db, id, p, now);
              var starts := if p.startsAt.Some? then p.startsAt.value else db.events[id].startsAt;
              var ends := if p.endsAt.Some? then p.endsAt.value else db.events[id].endsAt;
              var wrong := || (p.capacity.Some? && (p.capacity.value < 1 || p.capacity.value < EventSold(db, id)))
                           || (p.cancellationHours.Some? && p.cancellationHours.value < 0)
                           || (p.maxPerPurchase.Some? && p.maxPerPurchase.value < 1) || ends <= starts;
              var closed := db.events[id].status == Cancelled || db.events[id].status == Ended;
              var material := p.locationGiven || p.startsAt.Some? || p.endsAt.Some? || p.cancellationAllowed.Some? || p.cancellationHours.Some?;
              && (r == Err(Invalid) <==> wrong)
              && (r == Err(Conflict) <==> !wrong && (closed || (db.events[id].status != Draft && material && p.confirm != Some(true))))
              && (r.Err? ==> r.error in {Invalid, Conflict, Database})
  {
  }

  lemma CreateTierRefuses(db: Db, id: Id, eventId: Id, price: Option<int>, quantity: Option<int>)
    ensures Tiers.CreateTier(db, id, eventId, price, quantity) == Err(NotFound) <==> eventId !in db.events
    ensures eventId in db.events ==>
              var r := Tiers.CreateTier(db, id, eventId, price, quantity);
              var wrong := (price.Some? && price.value < 0) || (quantity.Some? && quantity.value <= 0);
              && (r == Err(Conflict) <==> !wrong && db.events[eventId].status != Draft)
              && (wrong ==> r == Err(Invalid))
              && (db.events[eventId].status == Draft && (price.None? || quantity.None?) ==> r == Err(Invalid))
              && (r.Err? ==> r.error in {Invalid, Conflict, Database})
  {
  }

  lemma UpdateTierRefuses(db: Db, eventId: Id, t: Id, price: Option<int>, quantity: Option<int>, flipOk: bool)
    requires Inventory.RowsChecked(db)
    ensures var r := Tiers.UpdateTier(db, eventId, t, price, quantity, flipOk);
            && (r == Err(Conflict) <==> eventId in db.events && (db.events[eventId].status == Cancelled || db.events[eventId].status == Ended))
            && (r == Err(NotFound) <==>
                  || eventId !in db.events
                  || (db.events[eventId].status in {Draft, Published, SoldOut} && (t !in db.tiers || db.tiers[t].eventId != eventId)))
            && (r.Err? ==> r.error in {NotFound, Conflict, Invalid, Database})
            && (r == Err(Database) ==> (price.Some? && price.value > 2147483647) || (quantity.Some? && quantity.value > 2147483647))
  {
  }

  /** The answer is an error too when the tier was written and a sold-out event with new stock was not reopened. */
  lemma UpdateTierAnswer(db: Db, eventId: Id, t: Id, price: Option<int>, quantity: Option<int>, flipOk: bool)
    ensures var r := Tiers.UpdateTier(db, eventId, t, price, quantity, flipOk);
            var answer := Tiers.UpdateAnswer(db, eventId, t, price, quantity, flipOk);
            && (r.Err? ==> answer == Err(r.error))
            && (r.Ok? ==> eventId in db.events && t in r.value.tiers
                          && answer == if db.events[eventId].status == SoldOut && r.value.tiers[t].remaining > 0 && !flipOk
                                       then Err(Database) else Ok(()))
  {
  }

  lemma DeleteTierRefuses(db: Db, eventId: Id, t: Id)
    ensures Tiers.DeleteTier(db, eventId, t) == Err(Conflict) <==> eventId in db.events && db.events[eventId].status != Draft
    ensures Tiers.DeleteTier(db, eventId, t).Err? ==> Tiers.DeleteTier(db, eventId, t).error in {NotFound, Conflict}
  {
  }
}
