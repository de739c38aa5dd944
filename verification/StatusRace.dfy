/** What row locks and READ COMMITTED do not give: the status of an event can miss stock that a concurrent
    cancellation brings back, or units that a concurrent sale takes away. Exactly which commits do that, and a
    condition on schedules under which none does. */
module StatusRace {
  import opened Basics
  import opened Model
  import opened Interleaving
  import opened Inventory
  import opened Isolation
  import opened Stock

  /** A commit that leaves a sold-out event with stock: a sale that sells out an event which has stock again, or a
      cancellation that did not reopen an event which is sold out by now. */
  ghost predicate LeavesStock(db: Db, tx: Tx) {
    || (tx.Buying? && tx.sale.CommitSale? && tx.sale.sellsOut && AnyStock(db.tiers[tx.tierId := tx.sale.row], tx.sale.row.eventId))
    || (tx.Cancelling? && tx.cancel.CommitCancel? && !tx.cancel.reopens && StatusIs(db, tx.cancel.row.eventId, SoldOut))
  }

  /** A commit that leaves a published event without stock: a sale that found stock elsewhere in the event, or the
      event no longer published, where now nothing is left and the event is published. */
  ghost predicate LeavesNone(db: Db, tx: Tx) {
    && tx.Buying? && tx.sale.CommitSale? && !tx.sale.sellsOut && StatusIs(db, tx.sale.row.eventId, Published)
    && !AnyStock(db.tiers[tx.tierId := tx.sale.row], tx.sale.row.eventId)
  }

  // ---- the commit of one transaction, at its event and at the others ----

  lemma SaleAtOwn(db: Db, tx: Tx, e: Id)
    requires tx.Buying? && tx.sale.CommitSale? && SaleKnows(db, tx) && e == tx.sale.row.eventId
    ensures EmptyIfSoldOut(db, e) ==> (EmptyIfSoldOut(Committed(db, tx), e) <==> !LeavesStock(db, tx))
    ensures StockedIfPublished(db, e) ==> (StockedIfPublished(Committed(db, tx), e) <==> !LeavesNone(db, tx))
  {
    assert db.tiers[tx.tierId].remaining > 0;
  }

  lemma SaleElsewhere(db: Db, tx: Tx, e: Id)
    requires tx.Buying? && tx.sale.CommitSale? && SaleKnows(db, tx) && e != tx.sale.row.eventId
    ensures Kept(db, Committed(db, tx), e)
  {
    QuietKeeps(db, Committed(db, tx), e);
  }

  lemma CancelAtOwn(db: Db, tx: Tx, e: Id)
    requires RowsChecked(db) && tx.Cancelling? && tx.cancel.CommitCancel? && CancelKnows(db, tx) && e == tx.cancel.row.eventId
    ensures EmptyIfSoldOut(db, e) ==> (EmptyIfSoldOut(Committed(db, tx), e) <==> !LeavesStock(db, tx))
    ensures StockedIfPublished(Committed(db, tx), e)
  {
    assert Committed(db, tx).tiers[tx.cancel.purchase.tierId].remaining > 0;
  }

  lemma CancelElsewhere(db: Db, tx: Tx, e: Id)
    requires tx.Cancelling? && tx.cancel.CommitCancel? && CancelKnows(db, tx) && e != tx.cancel.row.eventId
    ensures Kept(db, Committed(db, tx), e)
  {
    QuietKeeps(db, Committed(db, tx), e);
  }

  lemma SaleStays(db: Db, tx: Tx)
    requires tx.Buying? && tx.sale.CommitSale? && SaleKnows(db, tx)
    ensures SoldOutEmpty(db) ==> (SoldOutEmpty(Committed(db, tx)) <==> !LeavesStock(db, tx))
    ensures PublishedStocked(db) ==> (PublishedStocked(Committed(db, tx)) <==> !LeavesNone(db, tx))
  {
    var own, after := tx.sale.row.eventId, Committed(db, tx);
    SaleAtOwn(db, tx, own);
    forall e | e in db.events && e != own ensures Kept(db, after, e) { SaleElsewhere(db, tx, e); }
    assert own in after.events && after.events.Keys == db.events.Keys;
  }

  lemma CancelStays(db: Db, tx: Tx)
    requires RowsChecked(db) && tx.Cancelling? && tx.cancel.CommitCancel? && CancelKnows(db, tx)
    ensures SoldOutEmpty(db) ==> (SoldOutEmpty(Committed(db, tx)) <==> !LeavesStock(db, tx))
    ensures PublishedStocked(db) ==> PublishedStocked(Committed(db, tx))
  {
    var own, after := tx.cancel.row.eventId, Committed(db, tx);
    CancelAtOwn(db, tx, own);
    forall e | e in db.events && e != own ensures Kept(db, after, e) { CancelElsewhere(db, tx, e); }
    assert own in after.events && after.events.Keys == db.events.Keys;
  }

  /** A commit that writes tiers and events; scans write neither. */
  predicate WritesStock(tx: Tx) {
    (tx.Buying? && tx.sale.CommitSale?) || (tx.Cancelling? && tx.cancel.CommitCancel?)
  }

  lemma OtherStays(db: Db, tx: Tx)
    requires !WritesStock(tx)
    ensures Committed(db, tx).tiers == db.tiers && Committed(db, tx).events == db.events
    ensures !LeavesStock(db, tx) && !LeavesNone(db, tx)
  {
  }

  /** Interleaved, a statement leaves a sold-out event with stock exactly when it is such a commit. */
  lemma StaysEmptyIff(s: Sys, i: nat, pick: Id)
    requires Safe(s) && SoldOutEmpty(s.db) && i < |s.txs|
    ensures SoldOutEmpty(Step(s, i, pick).db) <==> !LeavesStock(s.db, s.txs[i])
  {
    var tx := s.txs[i];
    assert Knows(s.db, tx);
    if !WritesStock(tx) { OtherStays(s.db, tx); } else if tx.Buying? { SaleStays(s.db, tx); } else { CancelStays(s.db, tx); }
  }

  /** Interleaved, a statement leaves a published event without stock exactly when it is such a commit. */
  lemma StaysStockedIff(s: Sys, i: nat, pick: Id)
    requires Safe(s) && PublishedStocked(s.db) && i < |s.txs|
    ensures PublishedStocked(Step(s, i, pick).db) <==> !LeavesNone(s.db, s.txs[i])
  {
    var tx := s.txs[i];
    assert Knows(s.db, tx);
    if !WritesStock(tx) { OtherStays(s.db, tx); } else if tx.Buying? { SaleStays(s.db, tx); } else { CancelStays(s.db, tx); }
  }

  // ---- schedules in which neither happens ----

  /** The event whose stock or status the transaction has read, and will act on when it commits. */
  function ReliesOn(tx: Tx): Option<Id> {
    match tx
    case Buying(_, _, _, _, _, at) => if at.SellOutEvent? || at.CommitSale? then Some(at.row.eventId) else None
    case Cancelling(_, _, _, at) => if at.CommitCancel? then Some(at.row.eventId) else None
    case Scanning(_, _, _, _) => None
  }

  /** No commit of a sale or cancellation falls between another transaction's read of the same event and its commit. */
  predicate Undisturbed(s: Sys, i: nat)
    requires i < |s.txs|
  {
    WritesStock(s.txs[i]) ==> forall j | 0 <= j < |s.txs| && j != i :: ReliesOn(s.txs[j]) != ReliesOn(s.txs[i])
  }

  predicate Unhurried(s: Sys, moves: seq<Move>)
    requires Runs(s, moves)
    decreases |moves|
  {
    moves != [] ==> Undisturbed(s, moves[0].tx) && Unhurried(Step(s, moves[0].tx, moves[0].pick), moves[1..])
  }

  /** What the transaction has read is still so. */
  ghost predicate Current(db: Db, tx: Tx) {
    match tx
    case Buying(_, _, t, _, _, at) =>
      && (at.SellOutEvent? ==> !AnyStock(db.tiers[t := at.row], at.row.eventId))
      && (at.CommitSale? ==>
            (at.sellsOut <==> !AnyStock(db.tiers[t := at.row], at.row.eventId) && StatusIs(db, at.row.eventId, Published)))
    case Cancelling(_, _, _, at) => at.CommitCancel? ==> (at.reopens <==> StatusIs(db, at.row.eventId, SoldOut))
    case Scanning(_, _, _, _) => true
  }

  ghost predicate AllCurrent(s: Sys) {
    forall i | 0 <= i < |s.txs| :: Current(s.db, s.txs[i])
  }

  lemma OwnStaysCurrent(db: Db, tx: Tx, pick: Id)
    requires Current(db, tx) && !Over(tx)
    ensures Current(Committed(db, tx), Advance(db, tx, pick))
  {
  }

  /** Tables that agree on an event's row and its stock. */
  ghost predicate SameAt(a: Db, b: Db, e: Id) {
    && (e in a.events <==> e in b.events) && (e in a.events ==> a.events[e] == b.events[e])
    && (forall t | t in a.tiers && a.tiers[t].eventId == e :: t in b.tiers && b.tiers[t] == a.tiers[t])
    && (forall t | t in b.tiers && b.tiers[t].eventId == e :: t in a.tiers && a.tiers[t] == b.tiers[t])
  }

  lemma SameAtKeepsCurrent(a: Db, b: Db, tx: Tx)
    requires Current(a, tx) && (ReliesOn(tx).Some? ==> SameAt(a, b, ReliesOn(tx).value))
    ensures Current(b, tx)
  {
    if tx.Buying? && (tx.sale.SellOutEvent? || tx.sale.CommitSale?) {
      SameStock(a.tiers[tx.tierId := tx.sale.row], b.tiers[tx.tierId := tx.sale.row], tx.sale.row.eventId);
    }
  }

  lemma CommitElsewhere(db: Db, tx: Tx, e: Id)
    requires Knows(db, tx) && (WritesStock(tx) ==> ReliesOn(tx) != Some(e))
    ensures SameAt(db, Committed(db, tx), e)
  {
    if !WritesStock(tx) { OtherStays(db, tx); }
  }

  lemma StepCurrent(s: Sys, i: nat, pick: Id)
    requires Safe(s) && Enabled(s, i, pick) && AllCurrent(s) && Undisturbed(s, i)
    ensures AllCurrent(Step(s, i, pick))
  {
    var next := Step(s, i, pick);
    forall j | 0 <= j < |next.txs| ensures Current(next.db, next.txs[j]) {
      assert Current(s.db, s.txs[j]) && Knows(s.db, s.txs[i]);
      if j == i {
        OwnStaysCurrent(s.db, s.txs[i], pick);
      } else {
        if ReliesOn(s.txs[j]).Some? { CommitElsewhere(s.db, s.txs[i], ReliesOn(s.txs[j]).value); }
        SameAtKeepsCurrent(s.db, next.db, s.txs[j]);
      }
    }
  }

  lemma CurrentIsHarmless(db: Db, tx: Tx)
    requires Current(db, tx)
    ensures !LeavesStock(db, tx) && !LeavesNone(db, tx)
  {
  }

  lemma {:induction false} UnhurriedKeeps(s: Sys, moves: seq<Move>)
    requires Safe(s) && AllCurrent(s) && Runs(s, moves) && Unhurried(s, moves)
    requires SoldOutEmpty(s.db) && PublishedStocked(s.db)
    ensures SoldOutEmpty(Exec(s, moves).db) && PublishedStocked(Exec(s, moves).db)
    decreases |moves|
  {
    if moves != [] {
      var i, pick := moves[0].tx, moves[0].pick;
      assert Current(s.db, s.txs[i]);
      CurrentIsHarmless(s.db, s.txs[i]);
      StepKeepsSafe(s, i, pick);
      StepCurrent(s, i, pick);
      StaysEmptyIff(s, i, pick);
      StaysStockedIff(s, i, pick);
      UnhurriedKeeps(Step(s, i, pick), moves[1..]);
    }
  }

  lemma IdleIsCurrent(db: Db, tx: Tx)
    requires Idle(tx)
    ensures Current(db, tx)
  {
  }

  /** If no sale or cancellation of an event commits between another's read of that event and its commit, an event
      on sale is sold out exactly when it has no stock, after the schedule as before it. */
  lemma UnhurriedStatusIsStock(s: Sys, moves: seq<Move>, e: Id)
    requires Fresh(s) && SoldOutEmpty(s.db) && PublishedStocked(s.db) && Runs(s, moves) && Unhurried(s, moves)
    requires e in Exec(s, moves).db.events && Live(Exec(s, moves).db.events[e].status)
    ensures Exec(s, moves).db.events[e].status == SoldOut <==> !AnyStock(Exec(s, moves).db.tiers, e)
  {
    FreshIsSafe(s);
    forall i | 0 <= i < |s.txs| ensures Current(s.db, s.txs[i]) { IdleIsCurrent(s.db, s.txs[i]); }
    UnhurriedKeeps(s, moves);
    StatusIsStock(Exec(s, moves).db, e);
  }
}
