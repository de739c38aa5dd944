/** Purchases, cancellations and scans cut at their SQL statements, any number of them in flight at once.
    Row locks are held until the transaction ends; a read sees the last committed row; what a transaction
    wrote reaches the tables when it commits. Which locks are held follows from the program points. */
module Interleaving {
  import opened Basics
  import opened Model
  import Purchases
  import Tickets

  datatype Row = PurchaseRow(id: Id) | TicketRow(id: Id) | TierRow(id: Id) | EventRow(id: Id)

  /** The next statement of a purchase, with what the transaction has read (`tier`) and written (`row`, `purchase`). */
  datatype BuyPoint =
    | LockTier
    | LoadRules(tier: Tier)
    | TakeStock(tier: Tier)
    | InsertPurchase(tier: Tier, row: Tier)
    | InsertTickets(row: Tier, purchase: Purchase)
    | CheckStock(row: Tier, purchase: Purchase)
    | SellOutEvent(row: Tier, purchase: Purchase)
    | CommitSale(row: Tier, purchase: Purchase, sellsOut: bool)
    | SaleOver(committed: bool)

  /** The next statement of a cancellation; `flipped` are the ticket rows locked and written so far. */
  datatype CancelPoint =
    | LockPurchase
    | LoadTerms(purchase: Purchase)
    | FlipPurchase(purchase: Purchase)
    | FlipTickets(purchase: Purchase, flipped: set<Id>)
    | RestoreStock(purchase: Purchase, flipped: set<Id>)
    | ReopenEvent(purchase: Purchase, flipped: set<Id>, row: Tier)
    | CommitCancel(purchase: Purchase, flipped: set<Id>, row: Tier, reopens: bool)
    | CancelOver(committed: bool)

  datatype ScanPoint =
    | LockTicket
    | FlipTicket(ticket: Ticket)
    | CommitScan(ticket: Ticket)
    | ScanOver(committed: bool)

  datatype Tx =
    | Buying(id: Id, userId: Id, tierId: Id, quantity: int, ticketIds: seq<Id>, sale: BuyPoint)
    | Cancelling(id: Id, userId: Id, now: Time, cancel: CancelPoint)
    | Scanning(ticketId: Id, eventId: Id, now: Time, scan: ScanPoint)

  datatype Sys = Sys(db: Db, txs: seq<Tx>)

  // ---- what a transaction is for ----

  /** The serial operation of a transaction. */
  function Serial(db: Db, tx: Tx): Result<Db, Error> {
    match tx
    case Buying(p, u, t, quantity, ks, _) => Purchases.Create(db, p, u, t, quantity, ks)
    case Cancelling(p, u, now, _) => Purchases.Cancel(db, p, u, now)
    case Scanning(k, e, now, _) => Tickets.CheckIn(db, k, e, now)
  }

  /** The same transaction, possibly at another statement. */
  predicate SameRequest(a: Tx, b: Tx) {
    match a
    case Buying(_, _, _, _, _, _) => b.Buying? && b == a.(sale := b.sale)
    case Cancelling(_, _, _, _) => b.Cancelling? && b == a.(cancel := b.cancel)
    case Scanning(_, _, _, _) => b.Scanning? && b == a.(scan := b.scan)
  }

  lemma SameSerial(db: Db, a: Tx, b: Tx)
    requires SameRequest(a, b)
    ensures Serial(db, a) == Serial(db, b)
  {
  }

  /** The tables with every sold-out event read as published: the mark is all that a transaction may see late. */
  function Opened(db: Db): Db {
    db.(events := map e | e in db.events ::
          if db.events[e].status == SoldOut then db.events[e].(status := Published) else db.events[e])
  }

  predicate Over(tx: Tx) {
    match tx
    case Buying(_, _, _, _, _, at) => at.SaleOver?
    case Cancelling(_, _, _, at) => at.CancelOver?
    case Scanning(_, _, _, at) => at.ScanOver?
  }

  predicate HasCommitted(tx: Tx) {
    match tx
    case Buying(_, _, _, _, _, at) => at == SaleOver(true)
    case Cancelling(_, _, _, at) => at == CancelOver(true)
    case Scanning(_, _, _, at) => at == ScanOver(true)
  }

  /** The next statement of the transaction is its COMMIT. */
  predicate Commits(tx: Tx) {
    match tx
    case Buying(_, _, _, _, _, at) => at.CommitSale?
    case Cancelling(_, _, _, at) => at.CommitCancel?
    case Scanning(_, _, _, at) => at.CommitScan?
  }

  function TicketRows(ks: set<Id>): set<Row> {
    set k | k in ks :: TicketRow(k)
  }

  /** The rows a transaction has locked at its program point. */
  function Held(tx: Tx): set<Row> {
    match tx
    case Buying(_, _, t, _, _, at) =>
      if at.LockTier? || at.SaleOver? then {}
      else if at.CommitSale? && at.sellsOut then {TierRow(t), EventRow(at.row.eventId)}
      else {TierRow(t)}
    case Cancelling(p, _, _, at) =>
      (match at
       case LockPurchase => {}
       case LoadTerms(_) => {PurchaseRow(p)}
       case FlipPurchase(_) => {PurchaseRow(p)}
       case FlipTickets(_, ks) => {PurchaseRow(p)} + TicketRows(ks)
       case RestoreStock(_, ks) => {PurchaseRow(p)} + TicketRows(ks)
       case ReopenEvent(row, ks, _) => {PurchaseRow(p), TierRow(row.tierId)} + TicketRows(ks)
       case CommitCancel(row, ks, tier, reopens) =>
         {PurchaseRow(p), TierRow(row.tierId)} + TicketRows(ks) + (if reopens then {EventRow(tier.eventId)} else {})
       case CancelOver(_) => {})
    case Scanning(k, _, _, at) => if at.LockTicket? || at.ScanOver? then {} else {TicketRow(k)}
  }

  predicate StatusIs(db: Db, e: Id, s: EventStatus) {
    e in db.events && db.events[e].status == s
  }

  /** The row the next statement has to lock first, if any. `pick` is the ticket an UPDATE of all tickets of a
      purchase comes to next, in whatever order it scans them. */
  function Wanted(db: Db, tx: Tx, pick: Id): Option<Row> {
    match tx
    case Buying(_, _, t, _, _, at) =>
      if at.LockTier? && t in db.tiers then Some(TierRow(t))
      else if at.SellOutEvent? && StatusIs(db, at.row.eventId, Published) then Some(EventRow(at.row.eventId))
      else None
    case Cancelling(p, _, _, at) =>
      if at.LockPurchase? && p in db.purchases then Some(PurchaseRow(p))
      else if at.FlipTickets? && at.flipped != TicketsOf(db.tickets, p) then Some(TicketRow(pick))
      else if at.RestoreStock? && at.purchase.tierId in db.tiers then Some(TierRow(at.purchase.tierId))
      else if at.ReopenEvent? && StatusIs(db, at.row.eventId, SoldOut) then Some(EventRow(at.row.eventId))
      else None
    case Scanning(k, _, _, at) => if at.LockTicket? && k in db.tickets then Some(TicketRow(k)) else None
  }

  /** `pick` is one of the tickets the UPDATE still has to reach; elsewhere it does not matter. */
  predicate PickFits(db: Db, tx: Tx, pick: Id) {
    (tx.Cancelling? && tx.cancel.FlipTickets? && tx.cancel.flipped != TicketsOf(db.tickets, tx.id))
    ==> pick in TicketsOf(db.tickets, tx.id) - tx.cancel.flipped
  }

  predicate Free(s: Sys, i: nat, row: Row) {
    forall j | 0 <= j < |s.txs| && j != i :: row !in Held(s.txs[j])
  }

  predicate Enabled(s: Sys, i: nat, pick: Id) {
    && i < |s.txs| && !Over(s.txs[i]) && PickFits(s.db, s.txs[i], pick)
    && (Wanted(s.db, s.txs[i], pick).Some? ==> Free(s, i, Wanted(s.db, s.txs[i], pick).value))
  }

  // ---- one statement ----

  function AdvanceSale(db: Db, tx: Tx): BuyPoint
    requires tx.Buying?
  {
    match tx.sale
    case LockTier => if tx.tierId !in db.tiers then SaleOver(false) else LoadRules(db.tiers[tx.tierId])
    case LoadRules(tier) =>
      if tier.eventId !in db.events then SaleOver(false) else
      var e := db.events[tier.eventId];
      if e.status != Published || tx.quantity > e.maxPerPurchase || tier.status != Available || tier.remaining < tx.quantity
      then SaleOver(false) else TakeStock(tier)
    case TakeStock(tier) =>
      if TierChecks(Purchases.Take(tier, tx.quantity)) then InsertPurchase(tier, Purchases.Take(tier, tx.quantity)) else SaleOver(false)
    case InsertPurchase(tier, row) =>
      var purchase := Purchase(tx.userId, tx.tierId, tx.quantity, tier.price * tx.quantity, Confirmed);
      if PurchaseChecks(purchase) && tx.id !in db.purchases then InsertTickets(row, purchase) else SaleOver(false)
    case InsertTickets(row, purchase) =>
      if Purchases.FreshKeys(db, tx.id, tx.ticketIds) then CheckStock(row, purchase) else SaleOver(false)
    case CheckStock(row, purchase) =>
      if AnyStock(db.tiers[tx.tierId := row], row.eventId) then CommitSale(row, purchase, false) else SellOutEvent(row, purchase)
    case SellOutEvent(row, purchase) => CommitSale(row, purchase, StatusIs(db, row.eventId, Published))
    case CommitSale(_, _, _) => SaleOver(true)
    case SaleOver(c) => SaleOver(c)
  }

  function AdvanceCancel(db: Db, tx: Tx, pick: Id): CancelPoint
    requires tx.Cancelling?
  {
    match tx.cancel
    case LockPurchase =>
      if tx.id !in db.purchases || db.purchases[tx.id].userId != tx.userId || db.purchases[tx.id].status != Confirmed
      then CancelOver(false) else LoadTerms(db.purchases[tx.id])
    case LoadTerms(p) =>
      if p.tierId !in db.tiers || db.tiers[p.tierId].eventId !in db.events then CancelOver(false)
      else if Purchases.Refusal(db.events[db.tiers[p.tierId].eventId], tx.now).Some? then CancelOver(false)
      else FlipPurchase(p)
    case FlipPurchase(p) => FlipTickets(p, {})
    case FlipTickets(p, ks) =>
      if ks == TicketsOf(db.tickets, tx.id) then RestoreStock(p, ks) else FlipTickets(p, ks + {pick})
    case RestoreStock(p, ks) =>
      if p.tierId !in db.tiers || !TierChecks(Purchases.Restock(db.tiers[p.tierId], p.quantity)) then CancelOver(false)
      else ReopenEvent(p, ks, Purchases.Restock(db.tiers[p.tierId], p.quantity))
    case ReopenEvent(p, ks, row) => CommitCancel(p, ks, row, StatusIs(db, row.eventId, SoldOut))
    case CommitCancel(_, _, _, _) => CancelOver(true)
    case CancelOver(c) => CancelOver(c)
  }

  function AdvanceScan(db: Db, tx: Tx): ScanPoint
    requires tx.Scanning?
  {
    match tx.scan
    case LockTicket =>
      if tx.ticketId !in db.tickets then ScanOver(false) else
      var t := db.tickets[tx.ticketId];
      if t.tierId !in db.tiers || t.purchaseId !in db.purchases || t.status != Unused || db.tiers[t.tierId].eventId != tx.eventId
      then ScanOver(false) else FlipTicket(t)
    case FlipTicket(t) => CommitScan(t)
    case CommitScan(_) => ScanOver(true)
    case ScanOver(c) => ScanOver(c)
  }

  function Advance(db: Db, tx: Tx, pick: Id): Tx {
    match tx
    case Buying(_, _, _, _, _, _) => tx.(sale := AdvanceSale(db, tx))
    case Cancelling(_, _, _, _) => tx.(cancel := AdvanceCancel(db, tx, pick))
    case Scanning(_, _, _, _) => tx.(scan := AdvanceScan(db, tx))
  }

  function SetStatus(events: map<Id, Event>, e: Id, s: EventStatus): map<Id, Event> {
    if e in events then events[e := events[e].(status := s)] else events
  }

  /** What a commit writes to the tables: the rows as the transaction left them. */
  function Committed(db: Db, tx: Tx): Db {
    match tx
    case Buying(p, _, t, _, ks, at) =>
      if !at.CommitSale? then db
      else Db(if at.sellsOut then SetStatus(db.events, at.row.eventId, SoldOut) else db.events,
              db.tiers[t := at.row], db.purchases[p := at.purchase], db.tickets + Purchases.Minted(p, t, ks))
    case Cancelling(p, _, _, at) =>
      if !at.CommitCancel? then db
      else Db(if at.reopens then SetStatus(db.events, at.row.eventId, Published) else db.events,
              db.tiers[at.purchase.tierId := at.row],
              db.purchases[p := at.purchase.(status := PurchaseCancelled)],
              map k | k in db.tickets :: if k in at.flipped then db.tickets[k].(status := TicketCancelled) else db.tickets[k])
    case Scanning(k, _, now, at) =>
      if !at.CommitScan? then db else db.(tickets := db.tickets[k := Tickets.Scan(at.ticket, now)])
  }

  /** Transaction i runs its next statement. */
  function Step(s: Sys, i: nat, pick: Id): Sys
    requires i < |s.txs|
  {
    Sys(Committed(s.db, s.txs[i]), s.txs[i := Advance(s.db, s.txs[i], pick)])
  }

  datatype Move = Move(tx: nat, pick: Id)

  /** Every move of the schedule is enabled when its turn comes. */
  predicate Runs(s: Sys, moves: seq<Move>)
    decreases |moves|
  {
    moves != [] ==> Enabled(s, moves[0].tx, moves[0].pick) && Runs(Step(s, moves[0].tx, moves[0].pick), moves[1..])
  }

  function Exec(s: Sys, moves: seq<Move>): Sys
    requires Runs(s, moves)
    decreases |moves|
  {
    if moves == [] then s else Exec(Step(s, moves[0].tx, moves[0].pick), moves[1..])
  }
}
