/** What holds in every state of every schedule of interleaved transactions. */
module Isolation {
  import opened Basics
  import opened Model
  import opened Interleaving
  import opened Inventory
  import Purchases
  import Tickets

  // ---- what each transaction knows at each point ----

  /** The sale rules the transaction has read still hold, except that the event may be sold out by now. */
  ghost predicate WithinRules(db: Db, tx: Tx)
    requires tx.Buying?
  {
    && tx.tierId in db.tiers && db.tiers[tx.tierId].status == Available && tx.quantity <= db.tiers[tx.tierId].remaining
    && var e := db.tiers[tx.tierId].eventId;
       e in db.events && Live(db.events[e].status) && tx.quantity <= db.events[e].maxPerPurchase
  }

  ghost predicate HasTaken(db: Db, tx: Tx, row: Tier)
    requires tx.Buying?
  {
    WithinRules(db, tx) && row == Purchases.Take(db.tiers[tx.tierId], tx.quantity) && TierChecks(row)
  }

  ghost predicate HasSold(db: Db, tx: Tx, row: Tier, purchase: Purchase)
    requires tx.Buying?
  {
    && HasTaken(db, tx, row) && PurchaseChecks(purchase)
    && purchase == Purchase(tx.userId, tx.tierId, tx.quantity, db.tiers[tx.tierId].price * tx.quantity, Confirmed)
  }

  ghost predicate SaleKnows(db: Db, tx: Tx)
    requires tx.Buying?
  {
    && |tx.ticketIds| == tx.quantity
    && (!tx.sale.SaleOver? ==> Purchases.FreshKeys(db, tx.id, tx.ticketIds))
    && match tx.sale
       case LockTier => true
       case LoadRules(tier) => tx.tierId in db.tiers && tier == db.tiers[tx.tierId]
       case TakeStock(tier) => WithinRules(db, tx) && tier == db.tiers[tx.tierId]
       case InsertPurchase(tier, row) => HasTaken(db, tx, row) && tier == db.tiers[tx.tierId]
       case InsertTickets(row, p) => HasSold(db, tx, row, p)
       case CheckStock(row, p) => HasSold(db, tx, row, p)
       case SellOutEvent(row, p) => HasSold(db, tx, row, p)
       case CommitSale(row, p, sellsOut) => HasSold(db, tx, row, p) && (sellsOut ==> StatusIs(db, row.eventId, Published))
       case SaleOver(_) => true
  }

  ghost predicate Owns(db: Db, tx: Tx, p: Purchase)
    requires tx.Cancelling?
  {
    tx.id in db.purchases && db.purchases[tx.id] == p && p.userId == tx.userId && p.status == Confirmed
  }

  /** The cancellation policy the transaction has read still lets it through. */
  ghost predicate WithinPolicy(db: Db, tx: Tx, p: Purchase)
    requires tx.Cancelling?
  {
    && Owns(db, tx, p) && p.tierId in db.tiers && db.tiers[p.tierId].eventId in db.events
    && Purchases.Refusal(db.events[db.tiers[p.tierId].eventId], tx.now) == None
  }

  ghost predicate Restored(db: Db, tx: Tx, p: Purchase, ks: set<Id>, row: Tier)
    requires tx.Cancelling?
  {
    && WithinPolicy(db, tx, p) && ks == TicketsOf(db.tickets, tx.id)
    && row == Purchases.Restock(db.tiers[p.tierId], p.quantity) && TierChecks(row)
  }

  ghost predicate CancelKnows(db: Db, tx: Tx)
    requires tx.Cancelling?
  {
    match tx.cancel
    case LockPurchase => true
    case LoadTerms(p) => Owns(db, tx, p)
    case FlipPurchase(p) => WithinPolicy(db, tx, p)
    case FlipTickets(p, ks) => WithinPolicy(db, tx, p) && ks <= TicketsOf(db.tickets, tx.id)
    case RestoreStock(p, ks) => WithinPolicy(db, tx, p) && ks == TicketsOf(db.tickets, tx.id)
    case ReopenEvent(p, ks, row) => Restored(db, tx, p, ks, row)
    case CommitCancel(p, ks, row, reopens) => Restored(db, tx, p, ks, row) && (reopens ==> StatusIs(db, row.eventId, SoldOut))
    case CancelOver(c) => c ==> tx.id in db.purchases && db.purchases[tx.id].status == PurchaseCancelled
  }

  ghost predicate Clean(db: Db, tx: Tx, t: Ticket)
    requires tx.Scanning?
  {
    && tx.ticketId in db.tickets && db.tickets[tx.ticketId] == t && t.status == Unused
    && t.tierId in db.tiers && db.tiers[t.tierId].eventId == tx.eventId
  }

  ghost predicate ScanKnows(db: Db, tx: Tx)
    requires tx.Scanning?
  {
    match tx.scan
    case LockTicket => true
    case FlipTicket(t) => Clean(db, tx, t)
    case CommitScan(t) => Clean(db, tx, t)
    case ScanOver(c) => c ==> tx.ticketId in db.tickets && db.tickets[tx.ticketId].status != Unused
  }

  ghost predicate Knows(db: Db, tx: Tx) {
    match tx
    case Buying(_, _, _, _, _, _) => SaleKnows(db, tx)
    case Cancelling(_, _, _, _) => CancelKnows(db, tx)
    case Scanning(_, _, _, _) => ScanKnows(db, tx)
  }

  // ---- between transactions ----

  /** Two purchases in flight drew different identifiers. */
  predicate Apart(a: Tx, b: Tx) {
    a.Buying? && b.Buying? ==> a.id != b.id && forall k | k in a.ticketIds :: k !in b.ticketIds
  }

  /** No ticket was let in by two scans, and no purchase given back by two cancellations. */
  predicate NotTwice(a: Tx, b: Tx) {
    && (a.Scanning? && b.Scanning? && a.scan == ScanOver(true) && b.scan == ScanOver(true) ==> a.ticketId != b.ticketId)
    && (a.Cancelling? && b.Cancelling? && a.cancel == CancelOver(true) && b.cancel == CancelOver(true) ==> a.id != b.id)
  }

  ghost predicate Compatible(a: Tx, b: Tx) {
    Held(a) !! Held(b) && Apart(a, b) && NotTwice(a, b)
  }

  ghost predicate Safe(s: Sys) {
    && Valid(s.db)
    && (forall i | 0 <= i < |s.txs| :: Knows(s.db, s.txs[i]))
    && (forall i, j | 0 <= i < |s.txs| && 0 <= j < |s.txs| && i != j :: Compatible(s.txs[i], s.txs[j]))
  }

  /** Transactions that have not begun. */
  predicate Idle(tx: Tx) {
    match tx
    case Buying(_, _, _, _, _, at) => at.LockTier?
    case Cancelling(_, _, _, at) => at.LockPurchase?
    case Scanning(_, _, _, at) => at.LockTicket?
  }

  /** Before anything runs: a sound database, and identifiers drawn fresh for every purchase. */
  ghost predicate Fresh(s: Sys) {
    && Valid(s.db) && (forall i | 0 <= i < |s.txs| :: Idle(s.txs[i]))
    && (forall i | 0 <= i < |s.txs| && s.txs[i].Buying? ::
          && |s.txs[i].ticketIds| == s.txs[i].quantity
          && Purchases.FreshKeys(s.db, s.txs[i].id, s.txs[i].ticketIds))
    && (forall i, j | 0 <= i < |s.txs| && 0 <= j < |s.txs| && i != j :: Apart(s.txs[i], s.txs[j]))
  }

  lemma FreshIsSafe(s: Sys)
    requires Fresh(s)
    ensures Safe(s)
  {
  }

  // ---- a commit is one atomic effect of the serial model ----

  /** The tables after a sale commits: the serial purchase is accepted, with the event on sale, and they are the
      tables it leaves, up to the status of the one event. */
  ghost predicate IsSale(a: Db, b: Db, tx: Tx) {
    && tx.Buying? && CanSell(a, tx.id, tx.userId, tx.tierId, tx.quantity, tx.ticketIds)
    && Purchases.Create(Opened(a), tx.id, tx.userId, tx.tierId, tx.quantity, tx.ticketIds)
         == Ok(Purchases.Sell(Opened(a), tx.id, tx.userId, tx.tierId, tx.quantity, tx.ticketIds))
    && var atomic := Purchases.Sell(a, tx.id, tx.userId, tx.tierId, tx.quantity, tx.ticketIds);
    && b == atomic.(events := b.events)
    && (b.events == a.events || (StatusIs(a, a.tiers[tx.tierId].eventId, Published)
                                 && b.events == SetStatus(a.events, a.tiers[tx.tierId].eventId, SoldOut)))
  }

  /** The tables after a cancellation commits: the serial cancellation is accepted, and they are the tables it
      leaves, up to the status of the one event. */
  ghost predicate IsRefund(a: Db, b: Db, tx: Tx) {
    && tx.Cancelling? && CanRefund(a, tx.id)
    && var atomic := Purchases.Refund(a, tx.id);
    && Purchases.Cancel(a, tx.id, tx.userId, tx.now) == Ok(atomic)
    && var e := a.tiers[a.purchases[tx.id].tierId].eventId;
    && b == atomic.(events := b.events)
    && (b.events == a.events || (StatusIs(a, e, SoldOut) && b.events == SetStatus(a.events, e, Published)))
  }

  ghost predicate IsScan(a: Db, b: Db, tx: Tx) {
    tx.Scanning? && Tickets.CheckIn(a, tx.ticketId, tx.eventId, tx.now) == Ok(b)
  }

  /** The serial purchase accepts what the transaction has checked. */
  lemma SaleIsAccepted(db: Db, tx: Tx)
    requires tx.Buying? && tx.sale.CommitSale? && SaleKnows(db, tx)
    ensures tx.tierId in db.tiers
    ensures Purchases.Create(Opened(db), tx.id, tx.userId, tx.tierId, tx.quantity, tx.ticketIds)
         == Ok(Purchases.Sell(Opened(db), tx.id, tx.userId, tx.tierId, tx.quantity, tx.ticketIds))
  {
  }

  lemma SaleCommits(db: Db, tx: Tx)
    requires Linked(db) && tx.Buying? && tx.sale.CommitSale? && SaleKnows(db, tx)
    ensures IsSale(db, Committed(db, tx), tx)
  {
    SaleIsAccepted(db, tx);
  }

  lemma RefundCommits(db: Db, tx: Tx)
    requires Linked(db) && tx.Cancelling? && tx.cancel.CommitCancel? && CancelKnows(db, tx)
    ensures IsRefund(db, Committed(db, tx), tx)
  {
    assert Committed(db, tx).tickets == Purchases.VoidTickets(db.tickets, tx.id);
  }

  lemma ScanCommits(db: Db, tx: Tx)
    requires Linked(db) && tx.Scanning? && tx.scan.CommitScan? && ScanKnows(db, tx)
    ensures IsScan(db, Committed(db, tx), tx)
  {
  }

  /** Every statement either leaves the committed tables alone or commits exactly one atomic sale,
      cancellation or scan. */
  lemma StepIsAtomic(s: Sys, i: nat, pick: Id)
    requires Safe(s) && i < |s.txs|
    ensures var a, b, tx := s.db, Step(s, i, pick).db, s.txs[i]; b == a || IsSale(a, b, tx) || IsRefund(a, b, tx) || IsScan(a, b, tx)
  {
    var tx := s.txs[i];
    assert Knows(s.db, tx);
    match tx
    case Buying(_, _, _, _, _, at) => if at.CommitSale? { SaleCommits(s.db, tx); }
    case Cancelling(_, _, _, at) => if at.CommitCancel? { RefundCommits(s.db, tx); }
    case Scanning(_, _, _, at) => if at.CommitScan? { ScanCommits(s.db, tx); }
  }

  lemma SaleFlips(a: Db, b: Db, tx: Tx)
    requires IsSale(a, b, tx)
    ensures SameCancelled(Purchases.Sell(a, tx.id, tx.userId, tx.tierId, tx.quantity, tx.ticketIds).events, b.events)
  {
  }

  lemma SaleKeepsValid(a: Db, b: Db, tx: Tx)
    requires Valid(a) && IsSale(a, b, tx)
    ensures Valid(b)
  {
    SellKeeps(a, tx.id, tx.userId, tx.tierId, tx.quantity, tx.ticketIds);
    SaleFlips(a, b, tx);
    EventsMayFlip(Purchases.Sell(a, tx.id, tx.userId, tx.tierId, tx.quantity, tx.ticketIds), b.events);
  }

  lemma RefundKeepsValid(a: Db, b: Db, tx: Tx)
    requires Valid(a) && IsRefund(a, b, tx)
    ensures Valid(b)
  {
    RefundKeeps(a, tx.id);
    EventsMayFlip(Purchases.Refund(a, tx.id), b.events);
  }

  lemma ScanKeepsValid(a: Db, b: Db, tx: Tx)
    requires Valid(a) && IsScan(a, b, tx)
    ensures Valid(b)
  {
    ScanKeeps(a, tx.ticketId, tx.now);
  }

  lemma CommitKeepsValid(s: Sys, i: nat, pick: Id)
    requires Safe(s) && i < |s.txs|
    ensures Valid(Step(s, i, pick).db)
  {
    var a, b, tx := s.db, Step(s, i, pick).db, s.txs[i];
    StepIsAtomic(s, i, pick);
    if IsSale(a, b, tx) { SaleKeepsValid(a, b, tx); }
    else if IsRefund(a, b, tx) { RefundKeepsValid(a, b, tx); }
    else if IsScan(a, b, tx) { ScanKeepsValid(a, b, tx); }
  }

  // ---- a commit respects what the others have locked ----

  /** Rows outside `held` are unchanged, nothing disappears, and new rows carry the given identifiers. */
  ghost predicate Respects(a: Db, b: Db, held: set<Row>, tx: Tx) {
    && (forall t | t in a.tiers :: t in b.tiers && b.tiers[t].eventId == a.tiers[t].eventId && (TierRow(t) !in held ==> b.tiers[t] == a.tiers[t]))
    && (forall p | p in a.purchases :: p in b.purchases && (PurchaseRow(p) !in held ==> b.purchases[p] == a.purchases[p]))
    && (forall k | k in a.tickets ::
          && k in b.tickets && b.tickets[k].purchaseId == a.tickets[k].purchaseId
          && (TicketRow(k) !in held ==> b.tickets[k] == a.tickets[k]))
    && (forall e | e in a.events ::
          && e in b.events && (EventRow(e) !in held ==> b.events[e] == a.events[e])
          && b.events[e] == a.events[e].(status := b.events[e].status)
          && (b.events[e].status == a.events[e].status || (Live(a.events[e].status) && Live(b.events[e].status))))
    && (forall p | p in b.purchases && p !in a.purchases :: tx.Buying? && p == tx.id)
    && (forall k | k in b.tickets && k !in a.tickets :: tx.Buying? && k in tx.ticketIds && b.tickets[k].purchaseId == tx.id)
  }

  /** What is spent stays spent. */
  ghost predicate Spends(a: Db, b: Db) {
    && (forall p | p in a.purchases && a.purchases[p].status == PurchaseCancelled :: p in b.purchases && b.purchases[p].status == PurchaseCancelled)
    && (forall k | k in a.tickets && a.tickets[k].status != Unused :: k in b.tickets && b.tickets[k].status != Unused)
  }

  lemma SaleRespects(db: Db, tx: Tx)
    requires tx.Buying? && SaleKnows(db, tx)
    ensures Respects(db, Committed(db, tx), Held(tx), tx)
  {
  }

  lemma CancelRespects(db: Db, tx: Tx)
    requires tx.Cancelling? && CancelKnows(db, tx)
    ensures Respects(db, Committed(db, tx), Held(tx), tx)
  {
  }

  lemma ScanRespects(db: Db, tx: Tx)
    requires tx.Scanning? && ScanKnows(db, tx)
    ensures Respects(db, Committed(db, tx), Held(tx), tx)
  {
  }

  lemma CommitRespects(db: Db, tx: Tx)
    requires Knows(db, tx)
    ensures Respects(db, Committed(db, tx), Held(tx), tx)
  {
    match tx
    case Buying(_, _, _, _, _, _) => SaleRespects(db, tx);
    case Cancelling(_, _, _, _) => CancelRespects(db, tx);
    case Scanning(_, _, _, _) => ScanRespects(db, tx);
  }

  lemma CommitSpends(db: Db, tx: Tx)
    requires Knows(db, tx)
    ensures Spends(db, Committed(db, tx))
  {
  }

  lemma SaleKeepsKnowing(a: Db, b: Db, other: Tx, tx: Tx)
    requires Respects(a, b, Held(other), other) && tx.Buying? && SaleKnows(a, tx) && Held(other) !! Held(tx) && Apart(other, tx)
    ensures SaleKnows(b, tx)
  {
  }

  /** The policy does not look at the status of the event. */
  lemma RefusalIgnoresStatus(a: Event, b: Event, now: Time)
    requires b == a.(status := b.status)
    ensures Purchases.Refusal(b, now) == Purchases.Refusal(a, now)
  {
  }

  lemma TicketsStay(a: Db, b: Db, other: Tx, id: Id)
    requires Respects(a, b, Held(other), other) && (other.Buying? ==> other.id != id)
    ensures TicketsOf(b.tickets, id) == TicketsOf(a.tickets, id)
  {
  }

  lemma PolicyStays(a: Db, b: Db, other: Tx, tx: Tx, p: Purchase)
    requires Respects(a, b, Held(other), other) && tx.Cancelling? && WithinPolicy(a, tx, p) && PurchaseRow(tx.id) !in Held(other)
    requires other.Buying? ==> other.id !in a.purchases || a == b
    ensures WithinPolicy(b, tx, p) && TicketsOf(b.tickets, tx.id) == TicketsOf(a.tickets, tx.id)
  {
    if a != b {
      var e := a.tiers[p.tierId].eventId;
      assert b.tiers[p.tierId].eventId == e && e in b.events;
      RefusalIgnoresStatus(a.events[e], b.events[e], tx.now);
      TicketsStay(a, b, other, tx.id);
    }
  }

  lemma CancelKeepsKnowing(a: Db, b: Db, other: Tx, tx: Tx)
    requires Respects(a, b, Held(other), other) && Spends(a, b) && tx.Cancelling? && CancelKnows(a, tx) && Held(other) !! Held(tx)
    requires other.Buying? ==> other.id !in a.purchases || a == b
    ensures CancelKnows(b, tx)
  {
    match tx.cancel
    case FlipPurchase(p) => PolicyStays(a, b, other, tx, p);
    case FlipTickets(p, _) => PolicyStays(a, b, other, tx, p);
    case RestoreStock(p, _) => PolicyStays(a, b, other, tx, p);
    case ReopenEvent(p, _, _) => PolicyStays(a, b, other, tx, p);
    case CommitCancel(p, _, _, _) => PolicyStays(a, b, other, tx, p);
    case _ =>
  }

  lemma ScanKeepsKnowing(a: Db, b: Db, other: Tx, tx: Tx)
    requires Respects(a, b, Held(other), other) && Spends(a, b) && tx.Scanning? && ScanKnows(a, tx) && Held(other) !! Held(tx)
    ensures ScanKnows(b, tx)
  {
  }

  /** What one transaction knows survives the commit of another. */
  lemma OthersKeepKnowing(a: Db, b: Db, other: Tx, tx: Tx)
    requires Respects(a, b, Held(other), other) && Spends(a, b) && Knows(a, tx) && Held(other) !! Held(tx) && Apart(other, tx)
    requires other.Buying? ==> other.id !in a.purchases || a == b
    ensures Knows(b, tx)
  {
    match tx
    case Buying(_, _, _, _, _, _) => SaleKeepsKnowing(a, b, other, tx);
    case Cancelling(_, _, _, _) => CancelKeepsKnowing(a, b, other, tx);
    case Scanning(_, _, _, _) => ScanKeepsKnowing(a, b, other, tx);
  }

  // ---- every step keeps all of it ----

  lemma SaleStepKnows(db: Db, tx: Tx)
    requires tx.Buying? && SaleKnows(db, tx) && !Over(tx)
    ensures SaleKnows(Committed(db, tx), tx.(sale := AdvanceSale(db, tx)))
  {
  }

  lemma CancelStepKnows(db: Db, tx: Tx, pick: Id)
    requires tx.Cancelling? && CancelKnows(db, tx) && !Over(tx) && PickFits(db, tx, pick)
    ensures CancelKnows(Committed(db, tx), tx.(cancel := AdvanceCancel(db, tx, pick)))
  {
  }

  lemma ScanStepKnows(db: Db, tx: Tx)
    requires tx.Scanning? && ScanKnows(db, tx) && !Over(tx)
    ensures ScanKnows(Committed(db, tx), tx.(scan := AdvanceScan(db, tx)))
  {
  }

  lemma StepKnows(s: Sys, i: nat, pick: Id)
    requires i < |s.txs| && Knows(s.db, s.txs[i]) && PickFits(s.db, s.txs[i], pick) && !Over(s.txs[i])
    ensures Knows(Step(s, i, pick).db, Step(s, i, pick).txs[i])
  {
    match s.txs[i]
    case Buying(_, _, _, _, _, _) => SaleStepKnows(s.db, s.txs[i]);
    case Cancelling(_, _, _, _) => CancelStepKnows(s.db, s.txs[i], pick);
    case Scanning(_, _, _, _) => ScanStepKnows(s.db, s.txs[i]);
  }

  /** A statement locks at most the row it wanted. */
  lemma LocksOnlyWanted(db: Db, tx: Tx, pick: Id)
    requires Knows(db, tx) && !Over(tx)
    ensures var want := Wanted(db, tx, pick);
            Held(Advance(db, tx, pick)) <= Held(tx) + (if want.Some? then {want.value} else {})
  {
    match tx
    case Buying(_, _, _, _, _, at) =>
    case Cancelling(_, _, _, at) =>
    case Scanning(_, _, _, at) =>
  }

  /** A commit finds the ticket unused, or the purchase confirmed, so no other commit can have spent it. */
  lemma CommitIsFirst(db: Db, tx: Tx, other: Tx, pick: Id)
    requires Knows(db, tx) && Knows(db, other) && !Over(tx) && NotTwice(tx, other)
    ensures NotTwice(Advance(db, tx, pick), other) && NotTwice(other, Advance(db, tx, pick))
  {
  }

  lemma StepCompatible(s: Sys, i: nat, pick: Id, j: nat)
    requires Safe(s) && Enabled(s, i, pick) && j < |s.txs| && j != i
    ensures Compatible(Advance(s.db, s.txs[i], pick), s.txs[j])
  {
    assert Knows(s.db, s.txs[i]) && Knows(s.db, s.txs[j]) && Compatible(s.txs[i], s.txs[j]);
    LocksOnlyWanted(s.db, s.txs[i], pick);
    CommitIsFirst(s.db, s.txs[i], s.txs[j], pick);
  }

  lemma OthersKnow(s: Sys, i: nat, pick: Id, j: nat)
    requires Safe(s) && i < |s.txs| && j < |s.txs| && j != i
    ensures Knows(Step(s, i, pick).db, s.txs[j])
  {
    assert Knows(s.db, s.txs[i]) && Knows(s.db, s.txs[j]) && Compatible(s.txs[i], s.txs[j]);
    CommitRespects(s.db, s.txs[i]);
    CommitSpends(s.db, s.txs[i]);
    OthersKeepKnowing(s.db, Step(s, i, pick).db, s.txs[i], s.txs[j]);
  }

  lemma CompatibleFlips(a: Tx, b: Tx)
    requires Compatible(a, b)
    ensures Compatible(b, a)
  {
  }

  lemma StepKeepsSafe(s: Sys, i: nat, pick: Id)
    requires Safe(s) && Enabled(s, i, pick)
    ensures Safe(Step(s, i, pick))
  {
    var next := Step(s, i, pick);
    CommitKeepsValid(s, i, pick);
    forall j | 0 <= j < |s.txs| ensures Knows(next.db, next.txs[j]) {
      if j == i { StepKnows(s, i, pick); } else { OthersKnow(s, i, pick, j); }
    }
    forall j, k | 0 <= j < |s.txs| && 0 <= k < |s.txs| && j != k ensures Compatible(next.txs[j], next.txs[k]) {
      if j == i { StepCompatible(s, i, pick, k); }
      else if k == i { StepCompatible(s, i, pick, j); CompatibleFlips(next.txs[i], s.txs[j]); }
    }
  }

  lemma {:induction false} RunKeepsSafe(s: Sys, moves: seq<Move>)
    requires Safe(s) && Runs(s, moves)
    ensures Safe(Exec(s, moves))
    decreases |moves|
  {
    if moves != [] {
      StepKeepsSafe(s, moves[0].tx, moves[0].pick);
      RunKeepsSafe(Step(s, moves[0].tx, moves[0].pick), moves[1..]);
    }
  }

  /** However the transactions interleave: no tier is oversold, and none of a live event loses count. */
  lemma NothingOversold(s: Sys, moves: seq<Move>, t: Id)
    requires Fresh(s) && Runs(s, moves) && t in Exec(s, moves).db.tiers
    ensures var db := Exec(s, moves).db; var tier := db.tiers[t];
            && tier.eventId in db.events
            && 0 <= tier.remaining <= tier.quantity
            && Sold(db.purchases, t) <= tier.quantity - tier.remaining
            && (db.events[tier.eventId].status != Cancelled ==> Sold(db.purchases, t) == tier.quantity - tier.remaining)
  {
    FreshIsSafe(s);
    RunKeepsSafe(s, moves);
    assert TierConserved(Exec(s, moves).db, t);
  }

  /** Of any number of scans of one ticket at most one succeeds, and of any number of cancellations of one
      purchase at most one gives its stock back. */
  lemma NothingSpentTwice(s: Sys, moves: seq<Move>, i: nat, j: nat)
    requires Fresh(s) && Runs(s, moves) && i < |s.txs| && j < |s.txs| && i != j
    ensures var txs := Exec(s, moves).txs;
            && |txs| == |s.txs| && SameRequest(s.txs[i], txs[i]) && SameRequest(s.txs[j], txs[j]) && NotTwice(txs[i], txs[j])
  {
    FreshIsSafe(s);
    RunKeepsSafe(s, moves);
    SameCrowd(s, moves);
    assert Compatible(Exec(s, moves).txs[i], Exec(s, moves).txs[j]);
  }

  lemma {:induction false} SameCrowd(s: Sys, moves: seq<Move>)
    requires Runs(s, moves)
    ensures |Exec(s, moves).txs| == |s.txs| && forall i | 0 <= i < |s.txs| :: SameRequest(s.txs[i], Exec(s, moves).txs[i])
    decreases |moves|
  {
    if moves != [] {
      var next := Step(s, moves[0].tx, moves[0].pick);
      SameCrowd(next, moves[1..]);
      forall i | 0 <= i < |s.txs| ensures SameRequest(s.txs[i], Exec(s, moves).txs[i]) {
        assert SameRequest(s.txs[i], next.txs[i]);
      }
    }
  }
}
