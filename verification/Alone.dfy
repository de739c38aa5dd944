/** A transaction that nothing interrupts does exactly what the serial model says: the statements of the
    interleaved model, put together, are its operations, refusals included. */
module Alone {
  import opened Basics
  import opened Model
  import opened Interleaving
  import opened Isolation
  import Purchases

  /** The outcome of the serial operation. */
  ghost predicate Done(start: Db, db: Db, tx: Tx) {
    match Serial(start, tx) case Ok(after) => HasCommitted(tx) && db == after case Err(_) => !HasCommitted(tx) && db == start
  }

  // ---- what has been checked on the way ----

  predicate RulesPass(db: Db, tx: Tx, tier: Tier)
    requires tx.Buying?
  {
    && tier.eventId in db.events && db.events[tier.eventId].status == Published
    && tx.quantity <= db.events[tier.eventId].maxPerPurchase && tier.status == Available && tx.quantity <= tier.remaining
  }

  predicate TakePasses(db: Db, tx: Tx, row: Tier)
    requires tx.Buying?
  {
    && tx.tierId in db.tiers && RulesPass(db, tx, db.tiers[tx.tierId])
    && row == Purchases.Take(db.tiers[tx.tierId], tx.quantity) && TierChecks(row)
  }

  predicate InsertPasses(db: Db, tx: Tx, row: Tier, purchase: Purchase)
    requires tx.Buying?
  {
    && TakePasses(db, tx, row) && PurchaseChecks(purchase) && tx.id !in db.purchases
    && purchase == Purchase(tx.userId, tx.tierId, tx.quantity, db.tiers[tx.tierId].price * tx.quantity, Confirmed)
  }

  predicate SalePasses(db: Db, tx: Tx, row: Tier, purchase: Purchase)
    requires tx.Buying?
  {
    InsertPasses(db, tx, row, purchase) && Purchases.FreshKeys(db, tx.id, tx.ticketIds)
  }

  ghost predicate SaleOnWay(db: Db, tx: Tx)
    requires tx.Buying? && !tx.sale.SaleOver?
  {
    match tx.sale
    case LockTier => true
    case LoadRules(tier) => tx.tierId in db.tiers && tier == db.tiers[tx.tierId]
    case TakeStock(tier) => tx.tierId in db.tiers && tier == db.tiers[tx.tierId] && RulesPass(db, tx, tier)
    case InsertPurchase(tier, row) => TakePasses(db, tx, row) && tier == db.tiers[tx.tierId]
    case InsertTickets(row, p) => InsertPasses(db, tx, row, p)
    case CheckStock(row, p) => SalePasses(db, tx, row, p)
    case SellOutEvent(row, p) => SalePasses(db, tx, row, p) && !AnyStock(db.tiers[tx.tierId := row], row.eventId)
    case CommitSale(row, p, sellsOut) =>
      SalePasses(db, tx, row, p) && sellsOut == !AnyStock(db.tiers[tx.tierId := row], row.eventId)
  }

  predicate TermsPass(db: Db, tx: Tx, p: Purchase)
    requires tx.Cancelling?
  {
    && tx.id in db.purchases && db.purchases[tx.id] == p && p.userId == tx.userId && p.status == Confirmed
    && p.tierId in db.tiers && db.tiers[p.tierId].eventId in db.events
    && Purchases.Refusal(db.events[db.tiers[p.tierId].eventId], tx.now) == None
  }

  predicate RestorePasses(db: Db, tx: Tx, p: Purchase, ks: set<Id>, row: Tier)
    requires tx.Cancelling?
  {
    && TermsPass(db, tx, p) && ks == TicketsOf(db.tickets, tx.id)
    && row == Purchases.Restock(db.tiers[p.tierId], p.quantity) && TierChecks(row)
  }

  ghost predicate CancelOnWay(db: Db, tx: Tx)
    requires tx.Cancelling? && !tx.cancel.CancelOver?
  {
    match tx.cancel
    case LockPurchase => true
    case LoadTerms(p) => tx.id in db.purchases && db.purchases[tx.id] == p && p.userId == tx.userId && p.status == Confirmed
    case FlipPurchase(p) => TermsPass(db, tx, p)
    case FlipTickets(p, ks) => TermsPass(db, tx, p)
    case RestoreStock(p, ks) => TermsPass(db, tx, p) && ks == TicketsOf(db.tickets, tx.id)
    case ReopenEvent(p, ks, row) => RestorePasses(db, tx, p, ks, row)
    case CommitCancel(p, ks, row, reopens) => RestorePasses(db, tx, p, ks, row) && reopens == StatusIs(db, row.eventId, SoldOut)
  }

  ghost predicate ScanOnWay(db: Db, tx: Tx)
    requires tx.Scanning? && !tx.scan.ScanOver?
  {
    match tx.scan
    case LockTicket => true
    case FlipTicket(t) => Clean(db, tx, t) && t.purchaseId in db.purchases
    case CommitScan(t) => Clean(db, tx, t) && t.purchaseId in db.purchases
  }

  /** Either the transaction is over with the serial outcome, or the tables are untouched and what it has
      passed so far is what the serial operation checks. */
  ghost predicate OnWay(start: Db, db: Db, tx: Tx) {
    if Over(tx) then Done(start, db, tx)
    else db == start && match tx
                        case Buying(_, _, _, _, _, _) => SaleOnWay(db, tx)
                        case Cancelling(_, _, _, _) => CancelOnWay(db, tx)
                        case Scanning(_, _, _, _) => ScanOnWay(db, tx)
  }

  lemma SaleCommitDone(db: Db, tx: Tx)
    requires tx.Buying? && tx.sale.CommitSale? && SaleOnWay(db, tx)
    ensures Serial(db, tx) == Ok(Committed(db, tx))
  {
  }

  lemma SaleMoves(db: Db, tx: Tx, pick: Id)
    requires tx.Buying? && !Over(tx) && SaleOnWay(db, tx)
    ensures OnWay(db, Committed(db, tx), Advance(db, tx, pick))
  {
    if tx.sale.CommitSale? { SaleCommitDone(db, tx); }
  }

  lemma CancelCommitDone(db: Db, tx: Tx)
    requires tx.Cancelling? && tx.cancel.CommitCancel? && CancelOnWay(db, tx)
    ensures Serial(db, tx) == Ok(Committed(db, tx))
  {
    assert Committed(db, tx).tickets == Purchases.VoidTickets(db.tickets, tx.id);
  }

  lemma CancelMoves(db: Db, tx: Tx, pick: Id)
    requires tx.Cancelling? && !Over(tx) && CancelOnWay(db, tx)
    ensures OnWay(db, Committed(db, tx), Advance(db, tx, pick))
  {
    if tx.cancel.CommitCancel? { CancelCommitDone(db, tx); }
  }

  lemma ScanMoves(db: Db, tx: Tx, pick: Id)
    requires tx.Scanning? && !Over(tx) && ScanOnWay(db, tx)
    ensures OnWay(db, Committed(db, tx), Advance(db, tx, pick))
  {
  }

  lemma {:induction false} StaysOnWay(start: Db, db: Db, tx: Tx, moves: seq<Move>)
    requires OnWay(start, db, tx) && Runs(Sys(db, [tx]), moves)
    ensures var s := Exec(Sys(db, [tx]), moves); |s.txs| == 1 && OnWay(start, s.db, s.txs[0])
    decreases |moves|
  {
    if moves != [] {
      var s := Sys(db, [tx]);
      var pick := moves[0].pick;
      assert Enabled(s, moves[0].tx, pick) && moves[0].tx == 0;
      match tx {
        case Buying(_, _, _, _, _, _) => SaleMoves(db, tx, pick);
        case Cancelling(_, _, _, _) => CancelMoves(db, tx, pick);
        case Scanning(_, _, _, _) => ScanMoves(db, tx, pick);
      }
      assert Step(s, 0, pick) == Sys(Committed(db, tx), [Advance(db, tx, pick)]);
      StaysOnWay(start, Committed(db, tx), Advance(db, tx, pick), moves[1..]);
    }
  }

  /** Run by itself, whatever order it flips its tickets in, a transaction that is over has committed exactly
      when the serial operation succeeds, and then its tables are those of the serial operation. */
  lemma AloneIsSerial(db: Db, tx: Tx, moves: seq<Move>)
    requires Idle(tx) && Runs(Sys(db, [tx]), moves)
    ensures |Exec(Sys(db, [tx]), moves).txs| == 1
    ensures var end := Exec(Sys(db, [tx]), moves);
            Over(end.txs[0]) ==>
              match Serial(db, tx)
              case Ok(after) => HasCommitted(end.txs[0]) && end.db == after
              case Err(_) => !HasCommitted(end.txs[0]) && end.db == db
  {
    var end := Exec(Sys(db, [tx]), moves);
    StaysOnWay(db, db, tx, moves);
    SameCrowd(Sys(db, [tx]), moves);
    assert SameRequest([tx][0], end.txs[0]);
    SameSerial(db, tx, end.txs[0]);
  }
}
