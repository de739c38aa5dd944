/** How one step may change each single row. */
module Changes {
  import opened Basics
  import opened Model
  import opened System
  import Tickets
  import Events
  import L = Lifecycle

  /** How one step may change an event row: not at all, in its status while it is not frozen, or by an update. */
  ghost predicate Touch(a: Event, b: Event, s: Step, e: Id) {
    || a == b
    || (&& a.status != Ended && a.status != Cancelled && b == a.(status := b.status)
        && (b.status == Ended ==> s.op.EndExpired? && a.endsAt < s.now))
    || (&& s.op.UpdateEvent? && s.op.eventId == e && a.status != Ended && a.status != Cancelled
        && b == Events.Stamped(a, s.op.patch, s.now))
  }

  ghost predicate SaleOp(s: Step) {
    s.op.Buy? || s.op.CancelPurchase?
  }

  lemma EventTouchSale(w: World, s: Step, e: Id)
    requires SaleOp(s) && e in w.db.events && e in DbAfter(w, s).events
    ensures Touch(w.db.events[e], DbAfter(w, s).events[e], s, e)
  {
  }

  ghost predicate EventOp(s: Step) {
    s.op.UpdateEvent? || s.op.CancelEvent? || s.op.PublishEvent? || s.op.EndExpired?
  }

  lemma EventTouchUpdate(w: World, s: Step, e: Id)
    requires s.op.UpdateEvent? && e in w.db.events && e in DbAfter(w, s).events
    ensures Touch(w.db.events[e], DbAfter(w, s).events[e], s, e)
  {
  }

  lemma EventTouchStatus(w: World, s: Step, e: Id)
    requires (s.op.CancelEvent? || s.op.PublishEvent?) && e in w.db.events && e in DbAfter(w, s).events
    ensures Touch(w.db.events[e], DbAfter(w, s).events[e], s, e)
  {
  }

  lemma EventTouchSweep(w: World, s: Step, e: Id)
    requires s.op.EndExpired? && e in w.db.events && e in DbAfter(w, s).events
    ensures Touch(w.db.events[e], DbAfter(w, s).events[e], s, e)
  {
  }

  lemma EventTouchOther(w: World, s: Step, e: Id)
    requires !SaleOp(s) && !EventOp(s) && e in w.db.events && e in DbAfter(w, s).events
    ensures Touch(w.db.events[e], DbAfter(w, s).events[e], s, e)
  {
  }

  lemma EventTouch(w: World, s: Step, e: Id)
    requires e in w.db.events && e in DbAfter(w, s).events
    ensures Touch(w.db.events[e], DbAfter(w, s).events[e], s, e)
  {
    if SaleOp(s) { EventTouchSale(w, s, e); }
    else if s.op.UpdateEvent? { EventTouchUpdate(w, s, e); }
    else if s.op.EndExpired? { EventTouchSweep(w, s, e); }
    else if EventOp(s) { EventTouchStatus(w, s, e); }
    else { EventTouchOther(w, s, e); }
  }

  lemma NoNewEventOfSale(w: World, s: Step, e: Id)
    requires SaleOp(s) && e !in w.db.events
    ensures e !in DbAfter(w, s).events
  {
  }

  lemma NoNewEventOfEvent(w: World, s: Step, e: Id)
    requires EventOp(s) && e !in w.db.events
    ensures e !in DbAfter(w, s).events
  {
  }

  lemma NoNewEventOfOther(w: World, s: Step, e: Id)
    requires !SaleOp(s) && !EventOp(s) && !s.op.CreateEvent? && e !in w.db.events
    ensures e !in DbAfter(w, s).events
  {
  }

  lemma NewEventRow(w: World, s: Step, e: Id)
    requires e !in w.db.events && e in DbAfter(w, s).events
    ensures s.op.CreateEvent? && DbAfter(w, s).events[e].status == Draft && DbAfter(w, s).events[e].materialChangedAt == None
    ensures Answer(w, s).Ok?
  {
    if SaleOp(s) { NoNewEventOfSale(w, s, e); }
    else if EventOp(s) { NoNewEventOfEvent(w, s, e); }
    else if !s.op.CreateEvent? { NoNewEventOfOther(w, s, e); }
  }

  /** Deleting drafts and their tiers never reaches a purchase or a ticket. */
  lemma DeletesSpareSales(w: World, s: Step)
    requires L.Inv(w.db) && (s.op.DeleteEvent? || s.op.DeleteTier?)
    ensures DbAfter(w, s).purchases == w.db.purchases && DbAfter(w, s).tickets == w.db.tickets
    ensures forall t | t in w.db.tiers && w.db.events[w.db.tiers[t].eventId].status != Draft ::
              t in DbAfter(w, s).tiers && DbAfter(w, s).tiers[t] == w.db.tiers[t]
    ensures forall t | t in DbAfter(w, s).tiers :: t in w.db.tiers
  {
    if Answer(w, s).Ok? {
      match s.op
      case DeleteEvent(e) => L.DeleteEventKeeps(w.db, e);
      case DeleteTier(e, t) => L.DeleteTierKeeps(w.db, e, t);
    }
  }

  lemma DeletesKeepTiers(w: World, s: Step, t: Id)
    requires L.Inv(w.db) && Deletes(s) && t in w.db.tiers && t in DbAfter(w, s).tiers
    ensures DbAfter(w, s).tiers[t] == w.db.tiers[t]
  {
    if Answer(w, s).Ok? {
      match s.op
      case DeleteEvent(e) => L.DeleteEventKeeps(w.db, e);
      case DeleteTier(e, t) => L.DeleteTierKeeps(w.db, e, t);
    }
  }

  /** The purchase a successful cancellation step names. */
  ghost predicate Cancels(w: World, s: Step, p: Id) {
    s.op.CancelPurchase? && s.op.purchaseId == p && Answer(w, s).Ok?
  }

  ghost predicate CancelsEventOf(w: World, s: Step, p: Id) {
    && s.op.CancelEvent? && s.op.bulkOk && Answer(w, s).Ok? && p in w.db.purchases
    && PurchaseOf(w.db.tiers, w.db.purchases[p], s.op.eventId)
  }

  ghost predicate Deletes(s: Step) {
    s.op.DeleteEvent? || s.op.DeleteTier?
  }

  /** A purchase row stays for good, and only its status changes, to cancelled, for one of two reasons. */
  ghost predicate PurchaseTouched(w: World, s: Step, p: Id)
    requires p in w.db.purchases
  {
    && p in DbAfter(w, s).purchases
    && var a, b := w.db.purchases[p], DbAfter(w, s).purchases[p];
    && (a == b || (a.status == Confirmed && b == a.(status := PurchaseCancelled) && (Cancels(w, s, p) || CancelsEventOf(w, s, p))))
    && (Cancels(w, s, p) || CancelsEventOf(w, s, p) ==> b.status == PurchaseCancelled)
  }

  lemma PurchaseSaleStep(w: World, s: Step, p: Id)
    requires p in w.db.purchases && SaleOp(s)
    ensures PurchaseTouched(w, s, p)
  {
  }

  lemma PurchaseBulkStep(w: World, s: Step, p: Id)
    requires p in w.db.purchases && s.op.CancelEvent?
    ensures PurchaseTouched(w, s, p)
  {
  }

  lemma PurchaseOtherStep(w: World, s: Step, p: Id)
    requires p in w.db.purchases && !Deletes(s) && !SaleOp(s) && !s.op.CancelEvent?
    ensures PurchaseTouched(w, s, p)
  {
  }

  lemma PurchaseStep(w: World, s: Step, p: Id)
    requires p in w.db.purchases && !Deletes(s)
    ensures PurchaseTouched(w, s, p)
  {
    if SaleOp(s) { PurchaseSaleStep(w, s, p); }
    else if s.op.CancelEvent? { PurchaseBulkStep(w, s, p); }
    else { PurchaseOtherStep(w, s, p); }
  }

  lemma PurchaseTouch(w: World, s: Step, p: Id)
    requires L.Inv(w.db) && p in w.db.purchases
    ensures PurchaseTouched(w, s, p)
  {
    if Deletes(s) { DeletesSpareSales(w, s); } else { PurchaseStep(w, s, p); }
  }

  ghost predicate Bought(w: World, s: Step, p: Id) {
    && s.op.Buy? && s.op.purchaseId == p && Answer(w, s).Ok?
    && p in DbAfter(w, s).purchases && DbAfter(w, s).purchases[p].tierId == s.op.tierId
    && s.op.tierId in w.db.tiers && w.db.tiers[s.op.tierId].eventId in w.db.events
    && w.db.events[w.db.tiers[s.op.tierId].eventId].status == Published
  }

  lemma NoNewPurchase(w: World, s: Step, p: Id)
    requires !Deletes(s) && !SaleOp(s) && p !in w.db.purchases
    ensures p !in DbAfter(w, s).purchases
  {
  }

  lemma NewPurchaseOfSale(w: World, s: Step, p: Id)
    requires SaleOp(s) && p !in w.db.purchases && p in DbAfter(w, s).purchases
    ensures Bought(w, s, p)
  {
  }

  lemma NewPurchaseStep(w: World, s: Step, p: Id)
    requires !Deletes(s) && p !in w.db.purchases && p in DbAfter(w, s).purchases
    ensures Bought(w, s, p)
  {
    if SaleOp(s) { NewPurchaseOfSale(w, s, p); } else { NoNewPurchase(w, s, p); }
  }

  lemma NewPurchaseRow(w: World, s: Step, p: Id)
    requires L.Inv(w.db) && p !in w.db.purchases && p in DbAfter(w, s).purchases
    ensures Bought(w, s, p)
  {
    if Deletes(s) { DeletesSpareSales(w, s); } else { NewPurchaseStep(w, s, p); }
  }

  /** Who writes a tier row. */
  ghost predicate WritesTier(w: World, s: Step, t: Id) {
    && Answer(w, s).Ok?
    && (|| (s.op.Buy? && s.op.tierId == t)
        || (s.op.UpdateTier? && s.op.tierId == t)
        || (s.op.CancelPurchase? && s.op.purchaseId in w.db.purchases && w.db.purchases[s.op.purchaseId].tierId == t))
  }

  /** A tier stays with its event, and only three steps write it. */
  ghost predicate TierTouched(w: World, s: Step, t: Id)
    requires t in w.db.tiers
  {
    && t in DbAfter(w, s).tiers && DbAfter(w, s).tiers[t].eventId == w.db.tiers[t].eventId
    && (DbAfter(w, s).tiers[t] != w.db.tiers[t] ==> WritesTier(w, s, t))
  }

  lemma TierSaleStep(w: World, s: Step, t: Id)
    requires t in w.db.tiers && SaleOp(s)
    ensures TierTouched(w, s, t)
  {
  }

  lemma TierOtherStep(w: World, s: Step, t: Id)
    requires t in w.db.tiers && !Deletes(s) && !SaleOp(s)
    ensures TierTouched(w, s, t)
  {
  }

  lemma TierStep(w: World, s: Step, t: Id)
    requires t in w.db.tiers && !Deletes(s)
    ensures TierTouched(w, s, t)
  {
    if SaleOp(s) { TierSaleStep(w, s, t); } else { TierOtherStep(w, s, t); }
  }

  lemma TierTouch(w: World, s: Step, t: Id)
    requires L.Inv(w.db) && t in w.db.tiers && w.db.events[w.db.tiers[t].eventId].status != Draft
    ensures TierTouched(w, s, t)
  {
    if Deletes(s) { DeletesSpareSales(w, s); } else { TierStep(w, s, t); }
  }

  ghost predicate TierCreated(w: World, s: Step, t: Id) {
    && s.op.CreateTier? && s.op.tierId == t && t in DbAfter(w, s).tiers && DbAfter(w, s).tiers[t].eventId in w.db.events
    && w.db.events[DbAfter(w, s).tiers[t].eventId].status == Draft
  }

  lemma NoNewTierOfSale(w: World, s: Step, t: Id)
    requires SaleOp(s) && t !in w.db.tiers
    ensures t !in DbAfter(w, s).tiers
  {
  }

  lemma NewTierOfOther(w: World, s: Step, t: Id)
    requires !Deletes(s) && !SaleOp(s) && t !in w.db.tiers && t in DbAfter(w, s).tiers
    ensures TierCreated(w, s, t)
  {
  }

  lemma NewTierStep(w: World, s: Step, t: Id)
    requires !Deletes(s) && t !in w.db.tiers && t in DbAfter(w, s).tiers
    ensures TierCreated(w, s, t)
  {
    if SaleOp(s) { NoNewTierOfSale(w, s, t); } else { NewTierOfOther(w, s, t); }
  }

  lemma NewTierRow(w: World, s: Step, t: Id)
    requires L.Inv(w.db) && t !in w.db.tiers && t in DbAfter(w, s).tiers
    ensures TierCreated(w, s, t)
  {
    if Deletes(s) { DeletesSpareSales(w, s); } else { NewTierStep(w, s, t); }
  }

  /** A ticket row stays, and is only scanned or cancelled. */
  ghost predicate TicketTouched(w: World, s: Step, k: Id)
    requires k in w.db.tickets
  {
    && k in DbAfter(w, s).tickets
    && var a, b := w.db.tickets[k], DbAfter(w, s).tickets[k];
       || a == b
       || b == a.(status := TicketCancelled)
       || (s.op.CheckIn? && s.op.ticket == Some(k) && a.status == Unused && b == Tickets.Scan(a, s.now))
  }

  lemma TicketSaleStep(w: World, s: Step, k: Id)
    requires k in w.db.tickets && SaleOp(s)
    ensures TicketTouched(w, s, k)
  {
  }

  lemma TicketOtherStep(w: World, s: Step, k: Id)
    requires k in w.db.tickets && !Deletes(s) && !SaleOp(s)
    ensures TicketTouched(w, s, k)
  {
  }

  lemma TicketStep(w: World, s: Step, k: Id)
    requires k in w.db.tickets && !Deletes(s)
    ensures TicketTouched(w, s, k)
  {
    if SaleOp(s) { TicketSaleStep(w, s, k); } else { TicketOtherStep(w, s, k); }
  }

  lemma TicketTouch(w: World, s: Step, k: Id)
    requires L.Inv(w.db) && k in w.db.tickets
    ensures TicketTouched(w, s, k)
  {
    if Deletes(s) { DeletesSpareSales(w, s); } else { TicketStep(w, s, k); }
  }
}
