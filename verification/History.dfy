/** Properties of whole runs: what never comes back, what never changes again, and what happens at most once. */
module History {
  import opened Basics
  import opened Model
  import opened System
  import opened Reachable
  import opened Changes
  import Inventory
  import Purchases
  import Tickets
  import Events
  import L = Lifecycle

  // ---- drafts ----

  /** An event that left the draft stage is never deleted and never a draft again. */
  lemma {:induction false} DraftNeverAgain(w: World, run: seq<Step>, e: Id)
    requires Good(w) && Timely(w, run) && e in w.db.events && w.db.events[e].status != Draft
    ensures e in Run(w, run).db.events && Run(w, run).db.events[e].status != Draft
    decreases |run|
  {
    if run != [] {
      StepKeeps(w, run[0]);
      DbKeeps(w, run[0]);
      DraftNeverAgain(Next(w, run[0]), run[1..], e);
    }
  }

  // ---- ended events ----

  function TierRows(db: Db, e: Id): map<Id, Tier> {
    map t | t in db.tiers && db.tiers[t].eventId == e :: db.tiers[t]
  }

  function PurchaseRows(db: Db, e: Id): map<Id, Purchase> {
    map p | p in db.purchases && PurchaseOf(db.tiers, db.purchases[p], e) :: db.purchases[p]
  }

  ghost predicate SameRows(a: Db, b: Db, e: Id) {
    && e in a.events && e in b.events && a.events[e] == b.events[e]
    && TierRows(a, e) == TierRows(b, e) && PurchaseRows(a, e) == PurchaseRows(b, e)
  }

  lemma StartedRefuses(db: Db, p: Id, u: Id, now: Time)
    requires p in db.purchases && db.purchases[p].tierId in db.tiers && db.tiers[db.purchases[p].tierId].eventId in db.events
    requires db.events[db.tiers[db.purchases[p].tierId].eventId].startsAt <= now
    ensures Purchases.Cancel(db, p, u, now).Err?
  {
  }

  lemma EndedHasStarted(w: World, e: Id, now: Time)
    requires L.EventsChecked(w.db) && Clocked(w.db, w.clock) && w.clock <= now && e in w.db.events && w.db.events[e].status == Ended
    ensures w.db.events[e].startsAt <= now
  {
  }

  /** The purchases of an ended event can no longer be cancelled: its start has passed. */
  lemma EndedRefuses(w: World, s: Step, p: Id, e: Id)
    requires p in w.db.purchases && w.db.purchases[p].tierId in w.db.tiers && w.db.tiers[w.db.purchases[p].tierId].eventId == e
    requires e in w.db.events && w.db.events[e].status == Ended && w.db.events[e].startsAt <= s.now
    ensures !Cancels(w, s, p) && !CancelsEventOf(w, s, p)
  {
    if s.op.CancelPurchase? && s.op.purchaseId == p { StartedRefuses(w.db, p, s.op.userId, s.now); }
  }

  lemma EndedRefusesSale(w: World, s: Step, t: Id)
    requires s.op.Buy? && s.op.tierId == t && t in w.db.tiers && w.db.tiers[t].eventId in w.db.events
    requires w.db.events[w.db.tiers[t].eventId].status == Ended
    ensures Answer(w, s).Err?
  {
  }

  lemma EndedRefusesResize(w: World, s: Step, t: Id)
    requires s.op.UpdateTier? && s.op.tierId == t && t in w.db.tiers && w.db.tiers[t].eventId in w.db.events
    requires w.db.events[w.db.tiers[t].eventId].status == Ended
    ensures Answer(w, s).Err?
  {
  }

  /** No step writes a tier of an ended event. */
  lemma EndedTierUnwritten(w: World, s: Step, t: Id)
    requires t in w.db.tiers && w.db.tiers[t].eventId in w.db.events
    requires w.db.events[w.db.tiers[t].eventId].status == Ended && w.db.events[w.db.tiers[t].eventId].startsAt <= s.now
    ensures !WritesTier(w, s, t)
  {
    if s.op.Buy? && s.op.tierId == t {
      EndedRefusesSale(w, s, t);
    } else if s.op.UpdateTier? && s.op.tierId == t {
      EndedRefusesResize(w, s, t);
    } else if s.op.CancelPurchase? && s.op.purchaseId in w.db.purchases && w.db.purchases[s.op.purchaseId].tierId == t {
      EndedRefuses(w, s, s.op.purchaseId, w.db.tiers[t].eventId);
    }
  }

  lemma EndedTier(w: World, s: Step, t: Id)
    requires Good(w) && w.clock <= s.now && t in w.db.tiers && w.db.events[w.db.tiers[t].eventId].status == Ended
    ensures t in DbAfter(w, s).tiers && DbAfter(w, s).tiers[t] == w.db.tiers[t]
  {
    EndedHasStarted(w, w.db.tiers[t].eventId, s.now);
    EndedTierUnwritten(w, s, t);
    TierTouch(w, s, t);
  }

  /** A tier an event past the draft stage has after a step, it had before. */
  lemma TierKnown(w: World, s: Step, t: Id, e: Id)
    requires L.Inv(w.db) && e in w.db.events && w.db.events[e].status != Draft
    requires t in DbAfter(w, s).tiers && DbAfter(w, s).tiers[t].eventId == e
    ensures t in w.db.tiers && w.db.tiers[t].eventId == e
  {
    if t !in w.db.tiers { NewTierRow(w, s, t); }
    else if Deletes(s) { DeletesKeepTiers(w, s, t); }
    else { TierStep(w, s, t); }
  }

  lemma EndedTiers(w: World, s: Step, e: Id)
    requires Good(w) && w.clock <= s.now && e in w.db.events && w.db.events[e].status == Ended
    ensures TierRows(w.db, e) == TierRows(DbAfter(w, s), e)
  {
    forall t | t in w.db.tiers && w.db.tiers[t].eventId == e
      ensures t in DbAfter(w, s).tiers && DbAfter(w, s).tiers[t] == w.db.tiers[t] { EndedTier(w, s, t); }
    forall t | t in DbAfter(w, s).tiers && DbAfter(w, s).tiers[t].eventId == e
      ensures t in w.db.tiers && w.db.tiers[t].eventId == e { TierKnown(w, s, t, e); }
  }

  lemma EndedPurchase(w: World, s: Step, p: Id, e: Id)
    requires Good(w) && w.clock <= s.now && e in w.db.events && w.db.events[e].status == Ended
    requires p in w.db.purchases && PurchaseOf(w.db.tiers, w.db.purchases[p], e)
    ensures p in DbAfter(w, s).purchases && DbAfter(w, s).purchases[p] == w.db.purchases[p]
    ensures PurchaseOf(DbAfter(w, s).tiers, DbAfter(w, s).purchases[p], e)
  {
    EndedHasStarted(w, e, s.now);
    EndedRefuses(w, s, p, e);
    PurchaseTouch(w, s, p);
    EndedTier(w, s, w.db.purchases[p].tierId);
  }

  /** A purchase of an event that is not on sale was there before. */
  lemma PurchaseKnown(w: World, s: Step, p: Id, e: Id)
    requires L.Inv(w.db) && e in w.db.events && w.db.events[e].status != Draft && w.db.events[e].status != Published
    requires p in PurchaseRows(DbAfter(w, s), e)
    ensures p in PurchaseRows(w.db, e)
  {
    TierKnown(w, s, DbAfter(w, s).purchases[p].tierId, e);
    if p in w.db.purchases { PurchaseTouch(w, s, p); } else { NewPurchaseRow(w, s, p); }
  }

  lemma EndedPurchasesStay(w: World, s: Step, e: Id)
    requires Good(w) && w.clock <= s.now && e in w.db.events && w.db.events[e].status == Ended
    ensures forall p | p in PurchaseRows(w.db, e) ::
              p in PurchaseRows(DbAfter(w, s), e) && PurchaseRows(DbAfter(w, s), e)[p] == PurchaseRows(w.db, e)[p]
  {
    forall p | p in PurchaseRows(w.db, e)
      ensures p in PurchaseRows(DbAfter(w, s), e) && PurchaseRows(DbAfter(w, s), e)[p] == PurchaseRows(w.db, e)[p]
    {
      EndedPurchase(w, s, p, e);
    }
  }

  lemma EndedPurchases(w: World, s: Step, e: Id)
    requires Good(w) && w.clock <= s.now && e in w.db.events && w.db.events[e].status == Ended
    ensures PurchaseRows(w.db, e) == PurchaseRows(DbAfter(w, s), e)
  {
    var before, after := PurchaseRows(w.db, e), PurchaseRows(DbAfter(w, s), e);
    EndedPurchasesStay(w, s, e);
    assert forall p | p in after :: p in before by {
      forall p | p in after ensures p in before { PurchaseKnown(w, s, p, e); }
    }
    SameMap(before, after);
  }

  lemma SameMap(a: map<Id, Purchase>, b: map<Id, Purchase>)
    requires (forall p | p in a :: p in b && b[p] == a[p]) && forall p | p in b :: p in a
    ensures a == b
  {
  }

  lemma EndedStep(w: World, s: Step, e: Id)
    requires Good(w) && w.clock <= s.now && e in w.db.events && w.db.events[e].status == Ended
    ensures SameRows(w.db, DbAfter(w, s), e)
  {
    DbKeeps(w, s);
    EventTouch(w, s, e);
    EndedTiers(w, s, e);
    EndedPurchases(w, s, e);
  }

  /** Once the sweep has ended an event, no later run changes its row, its tiers or its purchases. */
  lemma {:induction false} EndedIsFrozen(w: World, run: seq<Step>, e: Id)
    requires Good(w) && Timely(w, run) && e in w.db.events && w.db.events[e].status == Ended
    ensures SameRows(w.db, Run(w, run).db, e)
    decreases |run|
  {
    if run != [] {
      StepKeeps(w, run[0]);
      EndedStep(w, run[0], e);
      EndedIsFrozen(Next(w, run[0]), run[1..], e);
    }
  }

  // ---- cancelled events ----

  /** The event is cancelled, and so are all of its purchases and tickets. */
  ghost predicate Dead(db: Db, e: Id) {
    && e in db.events && db.events[e].status == Cancelled
    && (forall p | p in db.purchases && PurchaseOf(db.tiers, db.purchases[p], e) :: db.purchases[p].status == PurchaseCancelled)
    && (forall k | k in db.tickets && Purchases.TicketOf(db, db.tickets[k], e) :: db.tickets[k].status == TicketCancelled)
  }

  /** Rows that belong to other events are as they were. */
  ghost predicate OthersUntouched(a: Db, b: Db, e: Id) {
    && a.events - {e} == b.events - {e} && a.tiers == b.tiers
    && a.purchases.Keys == b.purchases.Keys && a.tickets.Keys == b.tickets.Keys
    && (forall p | p in a.purchases && !PurchaseOf(a.tiers, a.purchases[p], e) :: a.purchases[p] == b.purchases[p])
    && (forall k | k in a.tickets && !Purchases.TicketOf(a, a.tickets[k], e) :: a.tickets[k] == b.tickets[k])
  }

  lemma BulkKills(db: Db, e: Id)
    requires Inventory.Linked(db) && e in db.events && db.events[e].status == Cancelled
    ensures Dead(Purchases.CancelByEvent(db, e), e) && OthersUntouched(db, Purchases.CancelByEvent(db, e), e)
  {
  }

  lemma OthersThrough(a: Db, b: Db, c: Db, e: Id)
    requires a.events - {e} == b.events - {e} && a.tiers == b.tiers && a.purchases == b.purchases && a.tickets == b.tickets
    requires OthersUntouched(b, c, e)
    ensures OthersUntouched(a, c, e)
  {
    forall k | k in a.tickets ensures Purchases.TicketOf(a, a.tickets[k], e) == Purchases.TicketOf(b, b.tickets[k], e) {}
  }

  /** Cancelling an event cancels every purchase and ticket of it and touches no row of any other event. */
  lemma CancelEventKills(db: Db, e: Id)
    requires L.Inv(db) && Events.CancelEvent(db, e, true).Ok?
    ensures Dead(Events.CancelEvent(db, e, true).value, e)
    ensures OthersUntouched(db, Events.CancelEvent(db, e, true).value, e)
  {
    var marked := Events.Marked(db, e);
    L.MarkedKeeps(db, e);
    BulkKills(marked, e);
    OthersThrough(db, marked, Purchases.CancelByEvent(marked, e), e);
  }

  /** The bulk update changes nothing the second time. */
  lemma CancelByEventTwice(db: Db, e: Id)
    ensures var once := Purchases.CancelByEvent(db, e); Purchases.CancelByEvent(once, e) == once
  {
    var once := Purchases.CancelByEvent(db, e);
    forall k | k in once.tickets
      ensures Purchases.TicketOf(once, once.tickets[k], e) == Purchases.TicketOf(db, db.tickets[k], e) {}
  }

  lemma DeadPurchases(w: World, s: Step, e: Id)
    requires Good(w) && Dead(w.db, e)
    ensures forall p | p in PurchaseRows(DbAfter(w, s), e) :: DbAfter(w, s).purchases[p].status == PurchaseCancelled
  {
    var after := DbAfter(w, s);
    forall p | p in PurchaseRows(after, e) ensures after.purchases[p].status == PurchaseCancelled {
      PurchaseKnown(w, s, p, e);
      PurchaseTouch(w, s, p);
    }
  }

  lemma DeadStep(w: World, s: Step, e: Id)
    requires Good(w) && Dead(w.db, e)
    ensures Dead(DbAfter(w, s), e)
  {
    var after := DbAfter(w, s);
    DbKeeps(w, s);
    EventTouch(w, s, e);
    DeadPurchases(w, s, e);
    TicketsFollow(after, e);
  }

  lemma TicketsFollow(db: Db, e: Id)
    requires Inventory.Valid(db) && forall p | p in PurchaseRows(db, e) :: db.purchases[p].status == PurchaseCancelled
    ensures forall k | k in db.tickets && Purchases.TicketOf(db, db.tickets[k], e) :: db.tickets[k].status == TicketCancelled
  {
    forall k | k in db.tickets && Purchases.TicketOf(db, db.tickets[k], e) ensures db.tickets[k].status == TicketCancelled {
      assert db.tickets[k].purchaseId in PurchaseRows(db, e);
    }
  }

  lemma DeadRefuses(db: Db, e: Id, k: Id, now: Time)
    requires L.Inv(db) && Dead(db, e)
    ensures Tickets.CheckIn(db, k, e, now).Err?
  {
    if k in db.tickets && db.tickets[k].tierId in db.tiers && db.tiers[db.tickets[k].tierId].eventId == e {
      assert Purchases.TicketOf(db, db.tickets[k], e);
    }
  }

  /** No later run confirms a purchase of a cancelled event again or lets anyone in at its door. */
  lemma {:induction false} DeadForGood(w: World, run: seq<Step>, e: Id)
    requires Good(w) && Timely(w, run) && Dead(w.db, e)
    ensures Dead(Run(w, run).db, e)
    decreases |run|
  {
    if run != [] {
      StepKeeps(w, run[0]);
      DeadStep(w, run[0], e);
      DeadForGood(Next(w, run[0]), run[1..], e);
    }
  }

  lemma NobodyEntersDeadEvent(w: World, run: seq<Step>, e: Id, k: Id, now: Time)
    requires Good(w) && Timely(w, run) && Dead(w.db, e)
    ensures Tickets.CheckIn(Run(w, run).db, k, e, now).Err?
  {
    RunKeeps(w, run);
    DeadForGood(w, run, e);
    DeadRefuses(Run(w, run).db, e, k, now);
  }

  // ---- tickets ----

  lemma TouchedIsForward(w: World, s: Step, k: Id)
    requires k in w.db.tickets && TicketTouched(w, s, k)
    ensures Tickets.Forward(w.db, DbAfter(w, s), k)
  {
  }

  lemma TicketForward(w: World, s: Step, k: Id)
    requires L.Inv(w.db) && k in w.db.tickets
    ensures Tickets.Forward(w.db, DbAfter(w, s), k)
  {
    TicketTouch(w, s, k);
    TouchedIsForward(w, s, k);
  }

  lemma {:induction false} TicketsGoForward(w: World, run: seq<Step>, k: Id)
    requires Good(w) && Timely(w, run) && k in w.db.tickets
    ensures Tickets.Forward(w.db, Run(w, run).db, k)
    decreases |run|
  {
    if run != [] {
      StepKeeps(w, run[0]);
      TicketForward(w, run[0], k);
      TicketsGoForward(Next(w, run[0]), run[1..], k);
    }
  }

  /** A successful scan uses the ticket up. */
  lemma ScanUses(w: World, s: Step)
    requires s.op.CheckIn? && Answer(w, s).Ok?
    ensures s.op.ticket.Some? && s.op.ticket.value in Next(w, s).db.tickets && Next(w, s).db.tickets[s.op.ticket.value].status == Used
  {
  }

  lemma SpentRefuses(db: Db, k: Id, e: Id, now: Time)
    requires k in db.tickets && db.tickets[k].status != Unused
    ensures Tickets.CheckIn(db, k, e, now).Err?
  {
  }

  lemma SpentForGood(w: World, run: seq<Step>, k: Id, e: Id, now: Time)
    requires Good(w) && Timely(w, run) && k in w.db.tickets && w.db.tickets[k].status != Unused
    ensures Tickets.CheckIn(Run(w, run).db, k, e, now).Err?
  {
    TicketsGoForward(w, run, k);
    SpentRefuses(Run(w, run).db, k, e, now);
  }

  /** After a successful scan, and whatever runs in between, no scan of the same ticket succeeds again. */
  lemma CheckedInOnce(w: World, first: Step, run: seq<Step>, e: Id, now: Time)
    requires Good(w) && w.clock <= first.now && Timely(Next(w, first), run)
    requires first.op.CheckIn? && Answer(w, first).Ok?
    ensures first.op.ticket.Some? && Tickets.CheckIn(Run(Next(w, first), run).db, first.op.ticket.value, e, now).Err?
  {
    StepKeeps(w, first);
    ScanUses(w, first);
    SpentForGood(Next(w, first), run, first.op.ticket.value, e, now);
  }
}
