/** Two schedules of two transactions each, from sound tables: one ends with an event sold out that has stock,
    the other with an event published that has none. */
module Schedules {
  import opened Basics
  import opened Sums
  import opened Model
  import opened Interleaving
  import opened Inventory
  import opened Isolation
  import opened Stock
  import opened StatusRace
  import Purchases

  // ---- building a schedule move by move ----

  ghost predicate Leads(s: Sys, moves: seq<Move>, t: Sys) {
    Runs(s, moves) && Exec(s, moves) == t
  }

  lemma {:induction false} LeadsOn(s: Sys, moves: seq<Move>, t: Sys, more: seq<Move>, u: Sys)
    requires Leads(s, moves, t) && Leads(t, more, u)
    ensures Leads(s, moves + more, u)
    decreases |moves|
  {
    if moves == [] {
      assert moves + more == more;
    } else {
      assert (moves + more)[0] == moves[0] && (moves + more)[1..] == moves[1..] + more;
      LeadsOn(Step(s, moves[0].tx, moves[0].pick), moves[1..], t, more, u);
    }
  }

  ghost predicate Reaches(s: Sys, t: Sys) {
    exists moves :: Leads(s, moves, t)
  }

  lemma ReachesSelf(s: Sys)
    ensures Reaches(s, s)
  {
    assert Leads(s, [], s);
  }

  lemma ThenStep(s: Sys, t: Sys, i: nat, pick: Id)
    requires Reaches(s, t) && Enabled(t, i, pick)
    ensures Reaches(s, Step(t, i, pick))
  {
    var moves :| Leads(s, moves, t);
    var more := [Move(i, pick)];
    assert more[1..] == [];
    LeadsOn(s, moves, t, more, Step(t, i, pick));
  }

  function Two(db: Db, a: Tx, b: Tx): Sys {
    Sys(db, [a, b])
  }

  predicate CanMove(db: Db, a: Tx, b: Tx, pick: Id) {
    && !Over(a) && PickFits(db, a, pick)
    && (Wanted(db, a, pick).Some? ==> Wanted(db, a, pick).value !in Held(b))
  }

  lemma FirstMoves(start: Sys, db: Db, a: Tx, b: Tx, pick: Id, to: Tx)
    requires Reaches(start, Two(db, a, b)) && CanMove(db, a, b, pick) && Advance(db, a, pick) == to
    ensures Reaches(start, Two(Committed(db, a), to, b))
  {
    assert Enabled(Two(db, a, b), 0, pick);
    ThenStep(start, Two(db, a, b), 0, pick);
    assert Step(Two(db, a, b), 0, pick) == Two(Committed(db, a), to, b);
  }

  lemma SecondMoves(start: Sys, db: Db, a: Tx, b: Tx, pick: Id, to: Tx)
    requires Reaches(start, Two(db, a, b)) && CanMove(db, b, a, pick) && Advance(db, b, pick) == to
    ensures Reaches(start, Two(Committed(db, b), a, to))
  {
    assert Enabled(Two(db, a, b), 1, pick);
    ThenStep(start, Two(db, a, b), 1, pick);
    assert Step(Two(db, a, b), 1, pick) == Two(Committed(db, b), a, to);
  }

  lemma ReachesSafe(start: Sys, s: Sys)
    requires Fresh(start) && Reaches(start, s)
    ensures Safe(s)
  {
    var moves :| Leads(start, moves, s);
    FreshIsSafe(start);
    RunKeepsSafe(start, moves);
  }

  ghost predicate KeysFree(db: Db, tx: Tx) {
    tx.Buying? ==> |tx.ticketIds| == tx.quantity && Purchases.FreshKeys(db, tx.id, tx.ticketIds)
  }

  lemma PairIsFresh(db: Db, a: Tx, b: Tx)
    requires Valid(db) && Idle(a) && Idle(b) && KeysFree(db, a) && KeysFree(db, b) && Apart(a, b)
    ensures Fresh(Two(db, a, b))
  {
  }

  // ---- a buyer of the last unit, and its statements ----

  function Buyer(id: Id, tierId: Id, at: BuyPoint): Tx {
    Buying(id, 8, tierId, 1, [id + 1], at)
  }

  const UNIT: Tier := Tier(1, 5, 1, 1, Available)
  const TAKEN: Tier := Tier(1, 5, 1, 0, TierSoldOut)

  function Bought(tierId: Id): Purchase {
    Purchase(8, tierId, 1, 5, Confirmed)
  }

  /** The tier has one unit, the event is on sale, and the buyer's keys are free. */
  predicate LastUnitOf(db: Db, id: Id, tierId: Id) {
    && tierId in db.tiers && db.tiers[tierId] == UNIT
    && 1 in db.events && db.events[1] == Event(0, Published, 10, 20, None, true, 0, 10, None)
    && id !in db.purchases && id + 1 !in db.tickets
  }

  lemma BuyerSteps(db: Db, id: Id, tierId: Id)
    requires LastUnitOf(db, id, tierId)
    ensures AdvanceSale(db, Buyer(id, tierId, LockTier)) == LoadRules(UNIT)
    ensures AdvanceSale(db, Buyer(id, tierId, LoadRules(UNIT))) == TakeStock(UNIT)
    ensures AdvanceSale(db, Buyer(id, tierId, TakeStock(UNIT))) == InsertPurchase(UNIT, TAKEN)
    ensures AdvanceSale(db, Buyer(id, tierId, InsertPurchase(UNIT, TAKEN))) == InsertTickets(TAKEN, Bought(tierId))
    ensures AdvanceSale(db, Buyer(id, tierId, InsertTickets(TAKEN, Bought(tierId)))) == CheckStock(TAKEN, Bought(tierId))
  {
  }

  /** The first transaction, a buyer, runs up to its stock check. */
  lemma FirstTakes(start: Sys, db: Db, id: Id, tierId: Id, b: Tx)
    requires LastUnitOf(db, id, tierId) && TierRow(tierId) !in Held(b)
    requires Reaches(start, Two(db, Buyer(id, tierId, LockTier), b))
    ensures Reaches(start, Two(db, Buyer(id, tierId, CheckStock(TAKEN, Bought(tierId))), b))
  {
    BuyerSteps(db, id, tierId);
    FirstMoves(start, db, Buyer(id, tierId, LockTier), b, 0, Buyer(id, tierId, LoadRules(UNIT)));
    FirstMoves(start, db, Buyer(id, tierId, LoadRules(UNIT)), b, 0, Buyer(id, tierId, TakeStock(UNIT)));
    FirstMoves(start, db, Buyer(id, tierId, TakeStock(UNIT)), b, 0, Buyer(id, tierId, InsertPurchase(UNIT, TAKEN)));
    FirstMoves(start, db, Buyer(id, tierId, InsertPurchase(UNIT, TAKEN)), b, 0, Buyer(id, tierId, InsertTickets(TAKEN, Bought(tierId))));
    FirstMoves(start, db, Buyer(id, tierId, InsertTickets(TAKEN, Bought(tierId))), b, 0,
               Buyer(id, tierId, CheckStock(TAKEN, Bought(tierId))));
  }

  /** The second transaction, a buyer, does the same. */
  lemma SecondTakes(start: Sys, db: Db, id: Id, tierId: Id, a: Tx)
    requires LastUnitOf(db, id, tierId) && TierRow(tierId) !in Held(a)
    requires Reaches(start, Two(db, a, Buyer(id, tierId, LockTier)))
    ensures Reaches(start, Two(db, a, Buyer(id, tierId, CheckStock(TAKEN, Bought(tierId)))))
  {
    BuyerSteps(db, id, tierId);
    SecondMoves(start, db, a, Buyer(id, tierId, LockTier), 0, Buyer(id, tierId, LoadRules(UNIT)));
    SecondMoves(start, db, a, Buyer(id, tierId, LoadRules(UNIT)), 0, Buyer(id, tierId, TakeStock(UNIT)));
    SecondMoves(start, db, a, Buyer(id, tierId, TakeStock(UNIT)), 0, Buyer(id, tierId, InsertPurchase(UNIT, TAKEN)));
    SecondMoves(start, db, a, Buyer(id, tierId, InsertPurchase(UNIT, TAKEN)), 0, Buyer(id, tierId, InsertTickets(TAKEN, Bought(tierId))));
    SecondMoves(start, db, a, Buyer(id, tierId, InsertTickets(TAKEN, Bought(tierId))), 0,
                Buyer(id, tierId, CheckStock(TAKEN, Bought(tierId))));
  }

  // ---- two buyers: the event stays published with nothing left ----

  /** A published event with one unit left in each of its two tiers. */
  function TwoUnits(): Db {
    Db(map[1 := Event(0, Published, 10, 20, None, true, 0, 10, None)], map[2 := UNIT, 3 := UNIT], map[], map[])
  }

  function TwoBuyers(): Sys {
    Two(TwoUnits(), Buyer(6, 2, LockTier), Buyer(16, 3, LockTier))
  }

  lemma TwoUnitsAreSound()
    ensures Valid(TwoUnits())
  {
    var db := TwoUnits();
    SoldNothing(db.purchases, 2);
    SoldNothing(db.purchases, 3);
    assert TierConserved(db, 2) && TierConserved(db, 3);
  }

  lemma TwoUnitsAreOnSale()
    ensures SoldOutEmpty(TwoUnits()) && PublishedStocked(TwoUnits())
  {
    assert TwoUnits().tiers[2].remaining == 1;
  }

  lemma TwoBuyersAreFresh()
    ensures Fresh(TwoBuyers())
  {
    TwoUnitsAreSound();
    PairIsFresh(TwoUnits(), Buyer(6, 2, LockTier), Buyer(16, 3, LockTier));
  }

  /** Each buyer sees the unit the other has not yet committed to taking. */
  lemma BothSeeStock()
    ensures AdvanceSale(TwoUnits(), Buyer(6, 2, CheckStock(TAKEN, Bought(2)))) == CommitSale(TAKEN, Bought(2), false)
    ensures AdvanceSale(TwoUnits(), Buyer(16, 3, CheckStock(TAKEN, Bought(3)))) == CommitSale(TAKEN, Bought(3), false)
  {
    assert TwoUnits().tiers[2 := TAKEN][3].remaining == 1;
    assert TwoUnits().tiers[3 := TAKEN][2].remaining == 1;
  }

  lemma BothPass(start: Sys)
    requires start == TwoBuyers()
    ensures Reaches(start, Two(TwoUnits(), Buyer(6, 2, CommitSale(TAKEN, Bought(2), false)), Buyer(16, 3, CommitSale(TAKEN, Bought(3), false))))
  {
    var db := TwoUnits();
    var a := Buyer(6, 2, CheckStock(TAKEN, Bought(2)));
    var b := Buyer(16, 3, CheckStock(TAKEN, Bought(3)));
    ReachesSelf(start);
    FirstTakes(start, db, 6, 2, Buyer(16, 3, LockTier));
    SecondTakes(start, db, 16, 3, a);
    BothSeeStock();
    FirstMoves(start, db, a, b, 0, Buyer(6, 2, CommitSale(TAKEN, Bought(2), false)));
    SecondMoves(start, db, Buyer(6, 2, CommitSale(TAKEN, Bought(2), false)), b, 0, Buyer(16, 3, CommitSale(TAKEN, Bought(3), false)));
  }

  function OneUnit(): Db {
    Committed(TwoUnits(), Buyer(6, 2, CommitSale(TAKEN, Bought(2), false)))
  }

  lemma OneUnitIsStocked()
    ensures PublishedStocked(OneUnit()) && LeavesNone(OneUnit(), Buyer(16, 3, CommitSale(TAKEN, Bought(3), false)))
  {
    assert OneUnit().tiers[3].remaining == 1;
    assert OneUnit().tiers[3 := TAKEN] == map[2 := TAKEN, 3 := TAKEN];
  }

  lemma FirstCommits(start: Sys)
    requires start == TwoBuyers()
    ensures Reaches(start, Two(OneUnit(), Buyer(6, 2, SaleOver(true)), Buyer(16, 3, CommitSale(TAKEN, Bought(3), false))))
  {
    BothPass(start);
    FirstMoves(start, TwoUnits(), Buyer(6, 2, CommitSale(TAKEN, Bought(2), false)), Buyer(16, 3, CommitSale(TAKEN, Bought(3), false)),
               0, Buyer(6, 2, SaleOver(true)));
  }

  lemma SecondClears(start: Sys, s: Sys)
    requires Fresh(start) && Reaches(start, s) && |s.txs| == 2 && CanMove(s.db, s.txs[1], s.txs[0], 0)
    requires PublishedStocked(s.db) && LeavesNone(s.db, s.txs[1])
    ensures exists t :: Reaches(start, t) && Valid(t.db) && !PublishedStocked(t.db)
  {
    ReachesSafe(start, s);
    StatusRace.StaysStockedIff(s, 1, 0);
    CommitKeepsValid(s, 1, 0);
    assert Enabled(s, 1, 0);
    ThenStep(start, s, 1, 0);
  }

  /** Two sales, each of the last unit of its tier, can interleave so that neither sells the event out and it stays
      published with nothing left. */
  lemma StockCanVanish(start: Sys)
    requires start == TwoBuyers()
    ensures Fresh(start) && PublishedStocked(start.db)
    ensures exists t :: Reaches(start, t) && Valid(t.db) && !PublishedStocked(t.db)
  {
    TwoUnitsAreOnSale();
    TwoBuyersAreFresh();
    FirstCommits(start);
    OneUnitIsStocked();
    SecondClears(start, Two(OneUnit(), Buyer(6, 2, SaleOver(true)), Buyer(16, 3, CommitSale(TAKEN, Bought(3), false))));
  }

  // ---- a buyer and a canceller: the event ends up sold out with a unit left ----

  /** A published event with one unit left in tier 2 and none in tier 3, whose only purchase is 4. */
  function LastUnit(): Db {
    Db(map[1 := Event(0, Published, 10, 20, None, true, 0, 10, None)],
       map[2 := UNIT, 3 := TAKEN],
       map[4 := REFUNDED],
       map[5 := Ticket(4, 3, Unused, None)])
  }

  const REFUNDED: Purchase := Purchase(9, 3, 1, 5, Confirmed)

  function Canceller(at: CancelPoint): Tx {
    Cancelling(4, 9, 0, at)
  }

  function BuyerAndCanceller(): Sys {
    Two(LastUnit(), Buyer(6, 2, LockTier), Canceller(LockPurchase))
  }

  lemma LastUnitTickets()
    ensures TicketsOf(LastUnit().tickets, 4) == {5} && TicketsMatch(LastUnit().purchases, LastUnit().tickets)
  {
    assert TicketsOf(LastUnit().tickets, 4) == {5};
  }

  lemma LastUnitBalance()
    ensures TierConserved(LastUnit(), 2) && TierConserved(LastUnit(), 3)
  {
    var db := LastUnit();
    SoldNothing(db.purchases, 2);
    assert ConfirmedUnits(db.purchases, 3) == map[][4 := 1];
    SumInsert(map[], 4, 1);
  }

  lemma LastUnitIsSound()
    ensures Valid(LastUnit())
  {
    LastUnitTickets();
    LastUnitBalance();
  }

  lemma BuyerAndCancellerAreFresh()
    ensures Fresh(BuyerAndCanceller())
  {
    LastUnitIsSound();
    PairIsFresh(LastUnit(), Buyer(6, 2, LockTier), Canceller(LockPurchase));
  }

  lemma LastUnitIsOnSale()
    ensures SoldOutEmpty(LastUnit()) && PublishedStocked(LastUnit())
  {
    assert LastUnit().tiers[2].remaining == 1;
  }

  /** The buyer finds no stock left beside its own unit, and is about to sell the event out. */
  lemma BuyerFindsNothing(start: Sys)
    requires start == BuyerAndCanceller()
    ensures Reaches(start, Two(LastUnit(), Buyer(6, 2, SellOutEvent(TAKEN, Bought(2))), Canceller(LockPurchase)))
  {
    var at := CheckStock(TAKEN, Bought(2));
    ReachesSelf(start);
    FirstTakes(start, LastUnit(), 6, 2, Canceller(LockPurchase));
    assert AdvanceSale(LastUnit(), Buyer(6, 2, at)) == SellOutEvent(TAKEN, Bought(2));
    FirstMoves(start, LastUnit(), Buyer(6, 2, at), Canceller(LockPurchase), 0, Buyer(6, 2, SellOutEvent(TAKEN, Bought(2))));
  }

  lemma FirstSteps()
    ensures var db := LastUnit();
            && AdvanceCancel(db, Canceller(LockPurchase), 0) == LoadTerms(REFUNDED)
            && AdvanceCancel(db, Canceller(LoadTerms(REFUNDED)), 0) == FlipPurchase(REFUNDED)
            && AdvanceCancel(db, Canceller(FlipPurchase(REFUNDED)), 0) == FlipTickets(REFUNDED, {})
  {
  }

  lemma FlipSteps()
    ensures AdvanceCancel(LastUnit(), Canceller(FlipTickets(REFUNDED, {})), 5) == FlipTickets(REFUNDED, {5})
    ensures AdvanceCancel(LastUnit(), Canceller(FlipTickets(REFUNDED, {5})), 0) == RestoreStock(REFUNDED, {5})
  {
    LastUnitTickets();
  }

  lemma LastSteps()
    ensures var db := LastUnit();
            && AdvanceCancel(db, Canceller(RestoreStock(REFUNDED, {5})), 0) == ReopenEvent(REFUNDED, {5}, UNIT)
            && AdvanceCancel(db, Canceller(ReopenEvent(REFUNDED, {5}, UNIT)), 0) == CommitCancel(REFUNDED, {5}, UNIT, false)
  {
  }

  /** A buyer that holds no more than tier 2 leaves the canceller alone. */
  predicate HoldsTier2(a: Tx) {
    Held(a) <= {TierRow(2)}
  }

  lemma CancellerBegins(start: Sys, a: Tx)
    requires HoldsTier2(a) && Reaches(start, Two(LastUnit(), a, Canceller(LockPurchase)))
    ensures Reaches(start, Two(LastUnit(), a, Canceller(FlipTickets(REFUNDED, {}))))
  {
    var db := LastUnit();
    FirstSteps();
    SecondMoves(start, db, a, Canceller(LockPurchase), 0, Canceller(LoadTerms(REFUNDED)));
    SecondMoves(start, db, a, Canceller(LoadTerms(REFUNDED)), 0, Canceller(FlipPurchase(REFUNDED)));
    SecondMoves(start, db, a, Canceller(FlipPurchase(REFUNDED)), 0, Canceller(FlipTickets(REFUNDED, {})));
  }

  lemma FlipsFit()
    ensures PickFits(LastUnit(), Canceller(FlipTickets(REFUNDED, {})), 5) && PickFits(LastUnit(), Canceller(FlipTickets(REFUNDED, {5})), 0)
    ensures Wanted(LastUnit(), Canceller(FlipTickets(REFUNDED, {})), 5) == Some(TicketRow(5))
    ensures Wanted(LastUnit(), Canceller(FlipTickets(REFUNDED, {5})), 0) == None
  {
    LastUnitTickets();
  }

  lemma CancellerFlips(start: Sys, a: Tx)
    requires HoldsTier2(a) && Reaches(start, Two(LastUnit(), a, Canceller(FlipTickets(REFUNDED, {}))))
    ensures Reaches(start, Two(LastUnit(), a, Canceller(RestoreStock(REFUNDED, {5}))))
  {
    FlipSteps();
    FlipsFit();
    SecondMoves(start, LastUnit(), a, Canceller(FlipTickets(REFUNDED, {})), 5, Canceller(FlipTickets(REFUNDED, {5})));
    SecondMoves(start, LastUnit(), a, Canceller(FlipTickets(REFUNDED, {5})), 0, Canceller(RestoreStock(REFUNDED, {5})));
  }

  lemma CancellerSkipsReopening(start: Sys, a: Tx)
    requires HoldsTier2(a) && Reaches(start, Two(LastUnit(), a, Canceller(RestoreStock(REFUNDED, {5}))))
    ensures Reaches(start, Two(LastUnit(), a, Canceller(CommitCancel(REFUNDED, {5}, UNIT, false))))
  {
    var db := LastUnit();
    LastSteps();
    SecondMoves(start, db, a, Canceller(RestoreStock(REFUNDED, {5})), 0, Canceller(ReopenEvent(REFUNDED, {5}, UNIT)));
    SecondMoves(start, db, a, Canceller(ReopenEvent(REFUNDED, {5}, UNIT)), 0, Canceller(CommitCancel(REFUNDED, {5}, UNIT, false)));
  }

  function GivenBack(): Db {
    Committed(LastUnit(), Canceller(CommitCancel(REFUNDED, {5}, UNIT, false)))
  }

  /** The canceller gives the unit of the other tier back, and leaves the event, which is still published, alone. */
  lemma CancellerGivesBack(start: Sys, a: Tx)
    requires HoldsTier2(a) && Reaches(start, Two(LastUnit(), a, Canceller(LockPurchase)))
    ensures Reaches(start, Two(GivenBack(), a, Canceller(CancelOver(true))))
  {
    CancellerBegins(start, a);
    CancellerFlips(start, a);
    CancellerSkipsReopening(start, a);
    SecondMoves(start, LastUnit(), a, Canceller(CommitCancel(REFUNDED, {5}, UNIT, false)), 0, Canceller(CancelOver(true)));
  }

  lemma BuyerStillSellsOut(start: Sys)
    requires Reaches(start, Two(GivenBack(), Buyer(6, 2, SellOutEvent(TAKEN, Bought(2))), Canceller(CancelOver(true))))
    ensures Reaches(start, Two(GivenBack(), Buyer(6, 2, CommitSale(TAKEN, Bought(2), true)), Canceller(CancelOver(true))))
    ensures LeavesStock(GivenBack(), Buyer(6, 2, CommitSale(TAKEN, Bought(2), true)))
  {
    var db := GivenBack();
    assert db.tiers[2 := TAKEN][3].remaining == 1;
    FirstMoves(start, db, Buyer(6, 2, SellOutEvent(TAKEN, Bought(2))), Canceller(CancelOver(true)), 0,
               Buyer(6, 2, CommitSale(TAKEN, Bought(2), true)));
  }

  lemma GivenBackIsOnSale()
    ensures SoldOutEmpty(GivenBack())
  {
    assert GivenBack().events == LastUnit().events;
  }

  lemma FirstStrands(start: Sys, s: Sys)
    requires Fresh(start) && Reaches(start, s) && |s.txs| == 2 && CanMove(s.db, s.txs[0], s.txs[1], 0)
    requires SoldOutEmpty(s.db) && LeavesStock(s.db, s.txs[0])
    ensures exists t :: Reaches(start, t) && Valid(t.db) && !SoldOutEmpty(t.db)
  {
    ReachesSafe(start, s);
    StatusRace.StaysEmptyIff(s, 0, 0);
    CommitKeepsValid(s, 0, 0);
    assert Enabled(s, 0, 0);
    ThenStep(start, s, 0, 0);
  }

  lemma SellOutIsReached(start: Sys)
    requires start == BuyerAndCanceller()
    ensures Reaches(start, Two(GivenBack(), Buyer(6, 2, CommitSale(TAKEN, Bought(2), true)), Canceller(CancelOver(true))))
    ensures LeavesStock(GivenBack(), Buyer(6, 2, CommitSale(TAKEN, Bought(2), true)))
  {
    BuyerFindsNothing(start);
    CancellerGivesBack(start, Buyer(6, 2, SellOutEvent(TAKEN, Bought(2))));
    BuyerStillSellsOut(start);
  }

  lemma SellOutCanCommit(db: Db)
    ensures CanMove(db, Buyer(6, 2, CommitSale(TAKEN, Bought(2), true)), Canceller(CancelOver(true)), 0)
  {
  }

  lemma SellOutStrands(start: Sys, s: Sys)
    requires Fresh(start) && Reaches(start, s) && s.db == GivenBack() && |s.txs| == 2 && CanMove(s.db, s.txs[0], s.txs[1], 0)
    requires LeavesStock(s.db, s.txs[0])
    ensures exists t :: Reaches(start, t) && Valid(t.db) && !SoldOutEmpty(t.db)
  {
    GivenBackIsOnSale();
    FirstStrands(start, s);
  }

  /** A sale of the last unit of a tier and a cancellation in another tier of the event can interleave so that the
      event ends up sold out with stock left. */
  lemma StatusCanLag(start: Sys)
    requires start == BuyerAndCanceller()
    ensures Fresh(start) && SoldOutEmpty(start.db)
    ensures exists t :: Reaches(start, t) && Valid(t.db) && !SoldOutEmpty(t.db)
  {
    LastUnitIsOnSale();
    BuyerAndCancellerAreFresh();
    SellOutIsReached(start);
    SellOutCanCommit(GivenBack());
    SellOutStrands(start, Two(GivenBack(), Buyer(6, 2, CommitSale(TAKEN, Bought(2), true)), Canceller(CancelOver(true))));
  }
}
