/** The whole-state invariant of serial runs, and the status transitions every step stays within. */
module Lifecycle {
  import opened Basics
  import opened Sums
  import opened Model
  import opened Inventory
  import Purchases
  import Tickets
  import Tiers
  import Events

  ghost predicate EventsChecked(db: Db) {
    forall e | e in db.events :: EventChecks(db.events[e])
  }

  /** A draft was never stamped, its tiers are full, and nothing was ever bought for it. */
  ghost predicate DraftsClean(db: Db)
    requires Linked(db)
  {
    && (forall e | e in db.events && db.events[e].status == Draft :: db.events[e].materialChangedAt == None)
    && (forall t | t in db.tiers && db.events[db.tiers[t].eventId].status == Draft ::
          db.tiers[t].remaining == db.tiers[t].quantity)
    && (forall p | p in db.purchases :: db.events[db.tiers[db.purchases[p].tierId].eventId].status != Draft)
  }

  ghost predicate Inv(db: Db) {
    Valid(db) && EventsChecked(db) && DraftsClean(db)
  }

  /** The part of the invariant that looks at rows one by one, without sums or ticket counts. */
  ghost predicate RowsInv(db: Db) {
    Linked(db) && RowsChecked(db) && StatusFollowsStock(db) && EventsChecked(db) && DraftsClean(db)
  }

  /** The sums and the ticket counts of a state whose purchases and tickets did not change. */
  ghost predicate Balanced(db: Db, after: Db)
    requires Linked(after)
  {
    after.purchases == db.purchases && after.tickets == db.tickets && forall t | t in after.tiers :: TierConserved(after, t)
  }

  lemma Assemble(db: Db, after: Db)
    requires Inv(db) && RowsInv(after) && Balanced(db, after)
    ensures Inv(after)
  {
  }

  lemma TierKept(db: Db, after: Db, t: Id)
    requires t in db.tiers && db.tiers[t].eventId in db.events && TierConserved(db, t)
    requires t in after.tiers && after.tiers[t] == db.tiers[t] && after.purchases == db.purchases
    requires db.tiers[t].eventId in after.events
    requires after.events[db.tiers[t].eventId].status == db.events[db.tiers[t].eventId].status
          || after.events[db.tiers[t].eventId].status == Cancelled
    ensures TierConserved(after, t)
  {
  }

  /** The transitions the design lists. */
  predicate Allowed(from: EventStatus, to: EventStatus) {
    || (from == Draft && to in {Published, Cancelled})
    || (from == Published && to in {SoldOut, Cancelled, Ended})
    || (from == SoldOut && to in {Published, Cancelled, Ended})
  }

  /** Rows keep their status or make an allowed move; only drafts appear and disappear. */
  ghost predicate Moves(a: Db, b: Db) {
    && (forall e | e in a.events && e in b.events ::
          a.events[e].status == b.events[e].status || Allowed(a.events[e].status, b.events[e].status))
    && (forall e | e in a.events && e !in b.events :: a.events[e].status == Draft)
    && (forall e | e in b.events && e !in a.events :: b.events[e].status == Draft)
  }

  /** A change of event rows that leaves drafts alone. */
  lemma EventRowsKeep(db: Db, events: map<Id, Event>)
    requires Inv(db) && SameCancelled(db.events, events)
    requires forall e | e in events :: EventChecks(events[e])
    requires forall e | e in events :: events[e].status == Draft ==> db.events[e].status == Draft && events[e].materialChangedAt == None
    ensures Inv(db.(events := events))
  {
    EventsMayFlip(db, events);
  }

  // ---- purchases and tickets ----

  lemma SellMoves(db: Db, id: Id, userId: Id, tierId: Id, quantity: int, ticketIds: seq<Id>)
    requires EventsChecked(db) && tierId in db.tiers
    ensures var after := Purchases.Sell(db, id, userId, tierId, quantity, ticketIds); EventsChecked(after) && Moves(db, after)
  {
  }

  lemma SellRows(db: Db, id: Id, userId: Id, tierId: Id, quantity: int, ticketIds: seq<Id>)
    requires Linked(db) && DraftsClean(db)
    requires CanSell(db, id, userId, tierId, quantity, ticketIds) && db.events[db.tiers[tierId].eventId].status == Published
    ensures var after := Purchases.Sell(db, id, userId, tierId, quantity, ticketIds); Linked(after) ==> DraftsClean(after)
  {
  }

  lemma CreateKeeps(db: Db, id: Id, userId: Id, tierId: Id, quantity: int, ticketIds: seq<Id>)
    requires Inv(db) && |ticketIds| == quantity
    requires Purchases.Create(db, id, userId, tierId, quantity, ticketIds).Ok?
    ensures var after := Purchases.Create(db, id, userId, tierId, quantity, ticketIds).value;
            Inv(after) && Moves(db, after)
  {
    SellKeeps(db, id, userId, tierId, quantity, ticketIds);
    SellMoves(db, id, userId, tierId, quantity, ticketIds);
    SellRows(db, id, userId, tierId, quantity, ticketIds);
  }

  lemma RefundLifecycle(db: Db, id: Id)
    requires Linked(db) && EventsChecked(db) && DraftsClean(db) && CanRefund(db, id)
    ensures var after := Purchases.Refund(db, id);
            Linked(after) ==> EventsChecked(after) && DraftsClean(after) && Moves(db, after)
  {
  }

  lemma CancelRefunds(db: Db, id: Id, userId: Id, now: Time)
    requires Purchases.Cancel(db, id, userId, now).Ok?
    ensures CanRefund(db, id) && Purchases.Cancel(db, id, userId, now).value == Purchases.Refund(db, id)
  {
  }

  lemma CancelKeeps(db: Db, id: Id, userId: Id, now: Time)
    requires Inv(db) && Purchases.Cancel(db, id, userId, now).Ok?
    ensures var after := Purchases.Cancel(db, id, userId, now).value; Inv(after) && Moves(db, after)
  {
    CancelRefunds(db, id, userId, now);
    RefundKeeps(db, id);
    RefundLifecycle(db, id);
  }

  lemma RejectedOnlyByCheck(db: Db, id: Id, userId: Id, now: Time)
    requires Linked(db)
    requires CanRefund(db, id) ==> TierChecks(Purchases.Restock(db.tiers[db.purchases[id].tierId], db.purchases[id].quantity))
    ensures Purchases.Cancel(db, id, userId, now) != Err(Database)
  {
  }

  /** A cancellation is refused for the listed reasons only: the database never rejects it. */
  lemma CancelNeverRejected(db: Db, id: Id, userId: Id, now: Time)
    requires Valid(db)
    ensures Purchases.Cancel(db, id, userId, now) != Err(Database)
  {
    if CanRefund(db, id) { RestockFits(db, id); }
    RejectedOnlyByCheck(db, id, userId, now);
  }

  lemma CheckInScans(db: Db, ticketId: Id, eventId: Id, now: Time)
    requires Tickets.CheckIn(db, ticketId, eventId, now).Ok?
    ensures ticketId in db.tickets && db.tickets[ticketId].status == Unused
    ensures Tickets.CheckIn(db, ticketId, eventId, now).value == db.(tickets := db.tickets[ticketId := Tickets.Scan(db.tickets[ticketId], now)])
  {
  }

  lemma CheckInKeeps(db: Db, ticketId: Id, eventId: Id, now: Time)
    requires Inv(db) && Tickets.CheckIn(db, ticketId, eventId, now).Ok?
    ensures var after := Tickets.CheckIn(db, ticketId, eventId, now).value; Inv(after) && Moves(db, after)
  {
    CheckInScans(db, ticketId, eventId, now);
    ScanKeeps(db, ticketId, now);
  }

  // ---- tiers ----

  lemma CreateTierRows(db: Db, id: Id, eventId: Id, price: Option<int>, quantity: Option<int>)
    requires RowsInv(db) && Tiers.CreateTier(db, id, eventId, price, quantity).Ok?
    ensures RowsInv(Tiers.CreateTier(db, id, eventId, price, quantity).value)
  {
  }

  lemma CreateTierKeeps(db: Db, id: Id, eventId: Id, price: Option<int>, quantity: Option<int>)
    requires Inv(db) && Tiers.CreateTier(db, id, eventId, price, quantity).Ok?
    ensures var after := Tiers.CreateTier(db, id, eventId, price, quantity).value; Inv(after) && Moves(db, after)
  {
    var after := Tiers.CreateTier(db, id, eventId, price, quantity).value;
    CreateTierRows(db, id, eventId, price, quantity);
    SoldNothing(db.purchases, id);
    forall t | t in after.tiers ensures TierConserved(after, t) {
      if t != id { TierKept(db, after, t); }
    }
    Assemble(db, after);
  }

  lemma UpdateTierLinks(db: Db, eventId: Id, tierId: Id, price: Option<int>, quantity: Option<int>, flipOk: bool)
    requires Linked(db) && RowsChecked(db) && StatusFollowsStock(db) && EventsChecked(db)
    requires Tiers.UpdateTier(db, eventId, tierId, price, quantity, flipOk).Ok?
    ensures var after := Tiers.UpdateTier(db, eventId, tierId, price, quantity, flipOk).value;
            Linked(after) && RowsChecked(after) && StatusFollowsStock(after) && EventsChecked(after)
  {
  }

  lemma UpdateTierRows(db: Db, eventId: Id, tierId: Id, price: Option<int>, quantity: Option<int>, flipOk: bool)
    requires RowsInv(db) && Tiers.UpdateTier(db, eventId, tierId, price, quantity, flipOk).Ok?
    ensures RowsInv(Tiers.UpdateTier(db, eventId, tierId, price, quantity, flipOk).value)
  {
    UpdateTierLinks(db, eventId, tierId, price, quantity, flipOk);
  }

  lemma UpdateTierMoves(db: Db, eventId: Id, tierId: Id, price: Option<int>, quantity: Option<int>, flipOk: bool)
    requires Tiers.UpdateTier(db, eventId, tierId, price, quantity, flipOk).Ok?
    ensures Moves(db, Tiers.UpdateTier(db, eventId, tierId, price, quantity, flipOk).value)
  {
  }

  lemma UpdateTierConserves(db: Db, eventId: Id, tierId: Id, price: Option<int>, quantity: Option<int>, flipOk: bool, t: Id)
    requires t in db.tiers && db.tiers[t].eventId in db.events && TierConserved(db, t)
    requires Tiers.UpdateTier(db, eventId, tierId, price, quantity, flipOk).Ok?
    ensures TierConserved(Tiers.UpdateTier(db, eventId, tierId, price, quantity, flipOk).value, t)
  {
  }

  lemma UpdateTierKeeps(db: Db, eventId: Id, tierId: Id, price: Option<int>, quantity: Option<int>, flipOk: bool)
    requires Inv(db) && Tiers.UpdateTier(db, eventId, tierId, price, quantity, flipOk).Ok?
    ensures var after := Tiers.UpdateTier(db, eventId, tierId, price, quantity, flipOk).value; Inv(after) && Moves(db, after)
  {
    var after := Tiers.UpdateTier(db, eventId, tierId, price, quantity, flipOk).value;
    UpdateTierRows(db, eventId, tierId, price, quantity, flipOk);
    UpdateTierMoves(db, eventId, tierId, price, quantity, flipOk);
    forall t | t in after.tiers ensures TierConserved(after, t) {
      UpdateTierConserves(db, eventId, tierId, price, quantity, flipOk, t);
    }
    Assemble(db, after);
  }

  /** Dropping tiers nobody bought from takes no purchase and no ticket with it. */
  lemma DropCleanTiers(db: Db, doomed: set<Id>)
    requires Linked(db) && forall p | p in db.purchases :: db.purchases[p].tierId !in doomed
    ensures Tiers.DropTiers(db, doomed) == db.(tiers := db.tiers - doomed)
  {
  }

  lemma DropTiersRows(db: Db, events: map<Id, Event>, doomed: set<Id>)
    requires RowsInv(db)
    requires forall p | p in db.purchases :: db.purchases[p].tierId !in doomed
    requires forall e | e in events :: e in db.events && events[e] == db.events[e]
    requires forall t | t in db.tiers && db.tiers[t].eventId !in events :: t in doomed
    ensures RowsInv(db.(events := events, tiers := db.tiers - doomed))
  {
  }

  lemma DropTiersKeeps(db: Db, events: map<Id, Event>, doomed: set<Id>)
    requires Inv(db)
    requires forall p | p in db.purchases :: db.purchases[p].tierId !in doomed
    requires forall e | e in events :: e in db.events && events[e] == db.events[e]
    requires forall t | t in db.tiers && db.tiers[t].eventId !in events :: t in doomed
    ensures Inv(db.(events := events, tiers := db.tiers - doomed))
  {
    var after := db.(events := events, tiers := db.tiers - doomed);
    DropTiersRows(db, events, doomed);
    forall t | t in after.tiers ensures TierConserved(after, t) { TierKept(db, after, t); }
    Assemble(db, after);
  }

  lemma DeleteTierKeeps(db: Db, eventId: Id, tierId: Id)
    requires Inv(db) && Tiers.DeleteTier(db, eventId, tierId).Ok?
    ensures var after := Tiers.DeleteTier(db, eventId, tierId).value;
            Inv(after) && Moves(db, after) && after == db.(tiers := db.tiers - {tierId})
  {
    DropCleanTiers(db, {tierId});
    DropTiersKeeps(db, db.events, {tierId});
  }

  // ---- events ----

  lemma CreateEventRows(db: Db, id: Id, p: Events.NewEvent)
    requires RowsInv(db) && Events.CreateEvent(db, id, p).Ok?
    ensures RowsInv(Events.CreateEvent(db, id, p).value)
  {
  }

  lemma CreateEventKeeps(db: Db, id: Id, p: Events.NewEvent)
    requires Inv(db) && Events.CreateEvent(db, id, p).Ok?
    ensures var after := Events.CreateEvent(db, id, p).value; Inv(after) && Moves(db, after)
  {
    var after := Events.CreateEvent(db, id, p).value;
    CreateEventRows(db, id, p);
    forall t | t in after.tiers ensures TierConserved(after, t) { TierKept(db, after, t); }
    Assemble(db, after);
  }

  lemma UpdateEventKeeps(db: Db, id: Id, p: Events.Patch, now: Time)
    requires Inv(db) && Events.UpdateEvent(db, id, p, now).Ok?
    ensures var after := Events.UpdateEvent(db, id, p, now).value; Inv(after) && Moves(db, after)
  {
    EventRowsKeep(db, Events.UpdateEvent(db, id, p, now).value.events);
  }

  lemma PublishEventKeeps(db: Db, id: Id)
    requires Inv(db) && Events.PublishEvent(db, id).Ok?
    ensures var after := Events.PublishEvent(db, id).value; Inv(after) && Moves(db, after)
  {
    EventRowsKeep(db, Events.PublishEvent(db, id).value.events);
  }

  lemma MarkedRows(db: Db, id: Id)
    requires RowsInv(db) && id in db.events
    ensures RowsInv(Events.Marked(db, id))
  {
  }

  lemma MarkedKeeps(db: Db, id: Id)
    requires Inv(db) && id in db.events
    ensures Inv(Events.Marked(db, id))
  {
    var after := Events.Marked(db, id);
    MarkedRows(db, id);
    forall t | t in after.tiers ensures TierConserved(after, t) { TierKept(db, after, t); }
    Assemble(db, after);
  }

  lemma BulkRows(db: Db, id: Id)
    requires RowsInv(db)
    ensures RowsInv(Purchases.CancelByEvent(db, id))
  {
  }

  lemma BulkKeeps(db: Db, id: Id)
    requires Inv(db) && id in db.events && db.events[id].status == Cancelled
    ensures Inv(Purchases.CancelByEvent(db, id))
  {
    BulkRows(db, id);
    CancelByEventKeeps(db, id);
  }

  lemma CancelEventMoves(db: Db, id: Id, bulkOk: bool)
    requires Events.CancelEvent(db, id, bulkOk).Ok?
    ensures Moves(db, Events.CancelEvent(db, id, bulkOk).value)
  {
  }

  lemma CancelEventKeeps(db: Db, id: Id, bulkOk: bool)
    requires Inv(db) && Events.CancelEvent(db, id, bulkOk).Ok?
    ensures var after := Events.CancelEvent(db, id, bulkOk).value; Inv(after) && Moves(db, after)
  {
    CancelEventMoves(db, id, bulkOk);
    MarkedKeeps(db, id);
    if bulkOk { BulkKeeps(Events.Marked(db, id), id); }
  }

  lemma DeleteEventKeeps(db: Db, id: Id)
    requires Inv(db) && Events.DeleteEvent(db, id).Ok?
    ensures var after := Events.DeleteEvent(db, id).value;
            && Inv(after) && Moves(db, after)
            && after == db.(events := db.events - {id}, tiers := db.tiers - Events.TiersOf(db.tiers, id))
  {
    DropCleanTiers(db, Events.TiersOf(db.tiers, id));
    DropTiersKeeps(db, db.events - {id}, Events.TiersOf(db.tiers, id));
  }

  lemma EndAllExpiredKeeps(db: Db, now: Time)
    requires Inv(db)
    ensures Inv(Events.EndAllExpired(db, now)) && Moves(db, Events.EndAllExpired(db, now))
  {
    EventRowsKeep(db, Events.EndAllExpired(db, now).events);
  }

  // ---- what the invariant says about the aggregate queries and the notification guard ----

  function UnitsOf(purchases: map<Id, Purchase>, ts: set<Id>): map<Id, int> {
    map p | p in purchases && purchases[p].tierId in ts && purchases[p].status == Confirmed :: purchases[p].quantity
  }

  ghost function SoldBy(purchases: map<Id, Purchase>, ts: set<Id>): map<Id, int> {
    map t | t in ts :: Sold(purchases, t)
  }

  lemma UnitsOfOne(purchases: map<Id, Purchase>, ts: set<Id>, t: Id)
    requires t in ts
    ensures Sum(UnitsOf(purchases, ts)) == Sold(purchases, t) + Sum(UnitsOf(purchases, ts - {t}))
  {
    var units, own := UnitsOf(purchases, ts), ConfirmedUnits(purchases, t);
    SumSplit(units, own.Keys);
    assert Among(units, own.Keys) == own;
    assert units - own.Keys == UnitsOf(purchases, ts - {t});
  }

  /** Summing over the purchases of a set of tiers is summing over the tiers what each sold. */
  lemma {:induction false} UnitsByTier(purchases: map<Id, Purchase>, ts: set<Id>)
    ensures Sum(UnitsOf(purchases, ts)) == Sum(SoldBy(purchases, ts))
    decreases |ts|
  {
    var sold := SoldBy(purchases, ts);
    if ts == {} {
      assert UnitsOf(purchases, ts) == map[] && sold == map[];
    } else {
      var t :| t in ts;
      var rest := ts - {t};
      UnitsByTier(purchases, rest);
      SumRemove(sold, t);
      assert sold - {t} == SoldBy(purchases, rest);
      UnitsOfOne(purchases, ts, t);
    }
  }

  /** The units gone from each tier of an event. */
  function TakenUnits(db: Db, eventId: Id): map<Id, int> {
    map t | t in db.tiers && db.tiers[t].eventId == eventId :: db.tiers[t].quantity - db.tiers[t].remaining
  }

  lemma TakenIsSold(db: Db, eventId: Id)
    requires Linked(db) && Conserved(db) && eventId in db.events && db.events[eventId].status != Cancelled
    ensures TakenUnits(db, eventId) == SoldBy(db.purchases, Events.TiersOf(db.tiers, eventId))
  {
    forall t | t in Events.TiersOf(db.tiers, eventId)
      ensures Sold(db.purchases, t) == db.tiers[t].quantity - db.tiers[t].remaining { assert TierConserved(db, t); }
  }

  /** The purchase-side count of tickets sold and the tier-side one agree. */
  lemma SoldCountsAgree(db: Db, eventId: Id)
    requires Inv(db) && eventId in db.events && db.events[eventId].status != Cancelled
    ensures EventSold(db, eventId) == Sum(TakenUnits(db, eventId))
  {
    var ts := Events.TiersOf(db.tiers, eventId);
    UnitsByTier(db.purchases, ts);
    assert EventUnits(db, eventId) == UnitsOf(db.purchases, ts);
    TakenIsSold(db, eventId);
  }

  /** Buyers are notified exactly when a material change lands on a live event. */
  lemma NotifiesOnlyLive(db: Db, id: Id, p: Events.Patch, now: Time)
    requires Inv(db) && Events.UpdateEvent(db, id, p, now).Ok?
    ensures Events.Notifies(db.events[id], p, now) <==> Events.Material(p) && Live(db.events[id].status)
  {
  }
}
