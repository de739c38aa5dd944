/** Cancelling what was bought, in whatever order, puts the stock and the statuses back. */
module Undo {
  import opened Basics
  import opened Model
  import opened Inventory
  import opened Purchases
  import L = Lifecycle

  datatype Sale = Sale(id: Id, userId: Id, tierId: Id, quantity: int, ticketIds: seq<Id>)

  datatype Withdrawal = Withdrawal(id: Id, userId: Id, now: Time)

  function SaleOf(db: Db, s: Sale): Result<Db, Error> {
    Create(db, s.id, s.userId, s.tierId, s.quantity, s.ticketIds)
  }

  function WithdrawalOf(db: Db, c: Withdrawal): Result<Db, Error> {
    Cancel(db, c.id, c.userId, c.now)
  }

  /** The state after a list of sales that all succeed. */
  function SellAll(db: Db, sales: seq<Sale>): Result<Db, Error>
    decreases |sales|
  {
    if sales == [] then Ok(db)
    else match SaleOf(db, sales[0]) case Ok(next) => SellAll(next, sales[1..]) case Err(e) => Err(e)
  }

  function WithdrawAll(db: Db, cs: seq<Withdrawal>): Result<Db, Error>
    decreases |cs|
  {
    if cs == [] then Ok(db)
    else match WithdrawalOf(db, cs[0]) case Ok(next) => WithdrawAll(next, cs[1..]) case Err(e) => Err(e)
  }

  function SaleIds(sales: seq<Sale>): set<Id> {
    if sales == [] then {} else {sales[0].id} + SaleIds(sales[1..])
  }

  function SaleTiers(sales: seq<Sale>): set<Id> {
    if sales == [] then {} else {sales[0].tierId} + SaleTiers(sales[1..])
  }

  function WithdrawalIds(cs: seq<Withdrawal>): set<Id> {
    if cs == [] then {} else {cs[0].id} + WithdrawalIds(cs[1..])
  }

  /** Stock and confirmed sales together; sales and cancellations only move units between the two. */
  ghost function Units(db: Db, t: Id): int
    requires t in db.tiers
  {
    db.tiers[t].remaining + Sold(db.purchases, t)
  }

  /** The parts of tiers and events that neither sales nor cancellations write. */
  ghost predicate SameFrame(a: Db, b: Db) {
    && a.tiers.Keys == b.tiers.Keys && a.events.Keys == b.events.Keys
    && (forall t | t in a.tiers ::
          && b.tiers[t] == a.tiers[t].(remaining := b.tiers[t].remaining, status := b.tiers[t].status)
          && Units(a, t) == Units(b, t))
    && (forall e | e in a.events ::
          && b.events[e] == a.events[e].(status := b.events[e].status)
          && (Live(a.events[e].status) <==> Live(b.events[e].status)))
  }

  /** What a sale of stock found: a published event and a tier with stock. */
  ghost predicate OnSale(db: Db, t: Id) {
    && t in db.tiers && db.tiers[t].remaining > 0
    && db.tiers[t].eventId in db.events && db.events[db.tiers[t].eventId].status == Published
  }

  /** Events none of whose tiers are listed are the same rows in both states. */
  ghost predicate SameElsewhere(a: Db, b: Db, ts: set<Id>) {
    forall e | e in a.events && e in b.events && (forall t | t in ts && t in a.tiers :: a.tiers[t].eventId != e) ::
      a.events[e] == b.events[e]
  }

  lemma UnitsStay(a: Db, b: Db, id: Id, t: Id)
    requires id in b.purchases && b.purchases == a.purchases[id := b.purchases[id]]
    requires var s := b.purchases[id].tierId;
             && s in a.tiers && s in b.tiers && b.tiers == a.tiers[s := b.tiers[s]]
             && (id in a.purchases ==> a.purchases[id].tierId == s)
             && b.tiers[s].remaining + Share(b.purchases, id, s) == a.tiers[s].remaining + Share(a.purchases, id, s)
    requires t in a.tiers
    ensures t in b.tiers && Units(a, t) == Units(b, t)
  {
    SoldWrite(a.purchases, id, b.purchases[id], t);
  }

  lemma FrameTrans(a: Db, b: Db, c: Db)
    requires SameFrame(a, b) && SameFrame(b, c)
    ensures SameFrame(a, c)
  {
  }

  lemma ElsewhereTrans(a: Db, b: Db, c: Db, ts: set<Id>, us: set<Id>)
    requires SameFrame(a, b) && SameElsewhere(a, b, ts) && SameElsewhere(b, c, us)
    ensures SameElsewhere(a, c, ts + us)
  {
    forall e | e in a.events && e in c.events && (forall t | t in ts + us && t in a.tiers :: a.tiers[t].eventId != e)
      ensures a.events[e] == c.events[e]
    {
      assert forall t | t in us && t in b.tiers :: b.tiers[t].eventId != e;
    }
  }

  // ---- sales ----

  lemma SaleUnits(db: Db, s: Sale, t: Id)
    requires SaleOf(db, s).Ok? && t in db.tiers
    ensures t in SaleOf(db, s).value.tiers && Units(db, t) == Units(SaleOf(db, s).value, t)
  {
    UnitsStay(db, SaleOf(db, s).value, s.id, t);
  }

  lemma SaleElsewhere(db: Db, s: Sale)
    requires SaleOf(db, s).Ok?
    ensures SameElsewhere(db, SaleOf(db, s).value, {s.tierId})
  {
  }

  lemma SaleFrame(db: Db, s: Sale)
    requires SaleOf(db, s).Ok?
    ensures SameFrame(db, SaleOf(db, s).value)
  {
    forall t | t in db.tiers
      ensures t in SaleOf(db, s).value.tiers && Units(db, t) == Units(SaleOf(db, s).value, t) { SaleUnits(db, s, t); }
  }

  lemma SaleFindsStock(db: Db, s: Sale, t: Id)
    requires SaleOf(db, s).Ok? && (t == s.tierId || OnSale(SaleOf(db, s).value, t))
    ensures OnSale(db, t)
  {
  }

  /** The purchases a list of sales added are those with the listed ids; the others are as they were. */
  ghost predicate Added(a: map<Id, Purchase>, b: map<Id, Purchase>, ids: set<Id>, ts: set<Id>) {
    && (forall p | p in a :: p in b && b[p] == a[p] && p !in ids)
    && (forall p | p in b && p !in a :: p in ids && b[p].tierId in ts)
  }

  lemma AddedTrans(a: map<Id, Purchase>, b: map<Id, Purchase>, c: map<Id, Purchase>, ids: set<Id>, ts: set<Id>, ids': set<Id>, ts': set<Id>)
    requires Added(a, b, ids, ts) && Added(b, c, ids', ts')
    ensures Added(a, c, ids + ids', ts + ts')
  {
  }

  lemma SaleAdds(db: Db, s: Sale)
    requires SaleOf(db, s).Ok?
    ensures Added(db.purchases, SaleOf(db, s).value.purchases, {s.id}, {s.tierId})
  {
  }

  /** After sales: the same frame, new purchases of tiers that were on sale, and no other change. */
  ghost predicate SalesMade(a: Db, b: Db, ids: set<Id>, ts: set<Id>) {
    && SameFrame(a, b) && SameElsewhere(a, b, ts)
    && (forall t | t in ts || OnSale(b, t) :: OnSale(a, t))
    && Added(a.purchases, b.purchases, ids, ts)
  }

  lemma SalesCompose(a: Db, b: Db, c: Db, ids: set<Id>, ts: set<Id>, ids': set<Id>, ts': set<Id>)
    requires SalesMade(a, b, ids, ts) && SalesMade(b, c, ids', ts')
    ensures SalesMade(a, c, ids + ids', ts + ts')
  {
    FrameTrans(a, b, c);
    ElsewhereTrans(a, b, c, ts, ts');
    AddedTrans(a.purchases, b.purchases, c.purchases, ids, ts, ids', ts');
  }

  lemma OneSale(db: Db, s: Sale)
    requires SaleOf(db, s).Ok?
    ensures SalesMade(db, SaleOf(db, s).value, {s.id}, {s.tierId})
  {
    SaleFrame(db, s);
    SaleElsewhere(db, s);
    SaleAdds(db, s);
    forall t | t in {s.tierId} || OnSale(SaleOf(db, s).value, t) ensures OnSale(db, t) { SaleFindsStock(db, s, t); }
  }

  lemma NoSale(db: Db)
    ensures SalesMade(db, db, {}, {})
  {
  }

  lemma {:induction false} SalesEffect(db: Db, sales: seq<Sale>)
    requires L.Inv(db) && SellAll(db, sales).Ok? && forall s | s in sales :: |s.ticketIds| == s.quantity
    ensures L.Inv(SellAll(db, sales).value) && SalesMade(db, SellAll(db, sales).value, SaleIds(sales), SaleTiers(sales))
    decreases |sales|
  {
    if sales == [] {
      NoSale(db);
    } else {
      var s, rest := sales[0], sales[1..];
      var next := SaleOf(db, s).value;
      L.CreateKeeps(db, s.id, s.userId, s.tierId, s.quantity, s.ticketIds);
      OneSale(db, s);
      SalesEffect(next, rest);
      SalesCompose(db, next, SellAll(next, rest).value, {s.id}, {s.tierId}, SaleIds(rest), SaleTiers(rest));
    }
  }

  // ---- cancellations ----

  lemma WithdrawalUnits(db: Db, c: Withdrawal, t: Id)
    requires WithdrawalOf(db, c).Ok? && t in db.tiers
    ensures t in WithdrawalOf(db, c).value.tiers && Units(db, t) == Units(WithdrawalOf(db, c).value, t)
  {
    UnitsStay(db, WithdrawalOf(db, c).value, c.id, t);
  }

  lemma WithdrawalElsewhere(db: Db, c: Withdrawal)
    requires WithdrawalOf(db, c).Ok?
    ensures c.id in db.purchases && SameElsewhere(db, WithdrawalOf(db, c).value, {db.purchases[c.id].tierId})
  {
  }

  lemma WithdrawalFrame(db: Db, c: Withdrawal)
    requires WithdrawalOf(db, c).Ok?
    ensures SameFrame(db, WithdrawalOf(db, c).value)
  {
    forall t | t in db.tiers
      ensures t in WithdrawalOf(db, c).value.tiers && Units(db, t) == Units(WithdrawalOf(db, c).value, t) { WithdrawalUnits(db, c, t); }
  }

  /** Exactly the listed purchases became cancelled. */
  ghost predicate Struck(a: map<Id, Purchase>, b: map<Id, Purchase>, ids: set<Id>) {
    a.Keys == b.Keys && forall p | p in a :: b[p] == if p in ids then a[p].(status := PurchaseCancelled) else a[p]
  }

  lemma WithdrawalStrikes(db: Db, c: Withdrawal)
    requires WithdrawalOf(db, c).Ok?
    ensures Struck(db.purchases, WithdrawalOf(db, c).value.purchases, {c.id})
  {
  }

  /** The tiers of a set of purchases. */
  function TiersOf(purchases: map<Id, Purchase>, ids: set<Id>): set<Id> {
    set p | p in ids && p in purchases :: purchases[p].tierId
  }

  ghost predicate WithdrawalsMade(a: Db, b: Db, ids: set<Id>) {
    SameFrame(a, b) && SameElsewhere(a, b, TiersOf(a.purchases, ids)) && Struck(a.purchases, b.purchases, ids)
  }

  lemma StruckTrans(a: map<Id, Purchase>, b: map<Id, Purchase>, c: map<Id, Purchase>, ids: set<Id>, ids': set<Id>)
    requires Struck(a, b, ids) && Struck(b, c, ids')
    ensures Struck(a, c, ids + ids')
    ensures TiersOf(a, ids + ids') == TiersOf(a, ids) + TiersOf(b, ids')
  {
  }

  lemma WithdrawalsCompose(a: Db, b: Db, c: Db, ids: set<Id>, ids': set<Id>)
    requires WithdrawalsMade(a, b, ids) && WithdrawalsMade(b, c, ids')
    ensures WithdrawalsMade(a, c, ids + ids')
  {
    FrameTrans(a, b, c);
    StruckTrans(a.purchases, b.purchases, c.purchases, ids, ids');
    ElsewhereTrans(a, b, c, TiersOf(a.purchases, ids), TiersOf(b.purchases, ids'));
  }

  lemma OneWithdrawal(db: Db, c: Withdrawal)
    requires WithdrawalOf(db, c).Ok?
    ensures WithdrawalsMade(db, WithdrawalOf(db, c).value, {c.id})
  {
    WithdrawalFrame(db, c);
    WithdrawalElsewhere(db, c);
    WithdrawalStrikes(db, c);
    assert TiersOf(db.purchases, {c.id}) == {db.purchases[c.id].tierId};
  }

  lemma NoWithdrawal(db: Db)
    ensures WithdrawalsMade(db, db, {})
  {
  }

  lemma {:induction false} WithdrawalsEffect(db: Db, cs: seq<Withdrawal>)
    requires L.Inv(db) && WithdrawAll(db, cs).Ok?
    ensures L.Inv(WithdrawAll(db, cs).value) && WithdrawalsMade(db, WithdrawAll(db, cs).value, WithdrawalIds(cs))
    decreases |cs|
  {
    if cs == [] {
      NoWithdrawal(db);
    } else {
      var c, rest := cs[0], cs[1..];
      var next := WithdrawalOf(db, c).value;
      L.CancelKeeps(db, c.id, c.userId, c.now);
      OneWithdrawal(db, c);
      WithdrawalsEffect(next, rest);
      WithdrawalsCompose(db, next, WithdrawAll(next, rest).value, {c.id}, WithdrawalIds(rest));
    }
  }

  // ---- what sells out is empty ----

  /** An event that was published at the start and is sold out now has no tier with stock. */
  ghost predicate EmptyOnceSoldOut(start: Db, db: Db) {
    forall t | t in db.tiers ::
      var e := db.tiers[t].eventId;
      e in start.events && start.events[e].status == Published && e in db.events && db.events[e].status == SoldOut ==>
        db.tiers[t].remaining <= 0
  }

  lemma SaleEmpties(start: Db, db: Db, s: Sale)
    requires EmptyOnceSoldOut(start, db) && SaleOf(db, s).Ok?
    ensures EmptyOnceSoldOut(start, SaleOf(db, s).value)
  {
    var next := SaleOf(db, s).value;
    forall t | t in next.tiers && next.tiers[t].eventId in next.events && next.events[next.tiers[t].eventId].status == SoldOut
               && next.tiers[t].eventId in start.events && start.events[next.tiers[t].eventId].status == Published
      ensures next.tiers[t].remaining <= 0
    {
      var e := next.tiers[t].eventId;
      if db.events[e].status == SoldOut {
        assert t != s.tierId && db.tiers[t] == next.tiers[t];
      } else {
        assert e == db.tiers[s.tierId].eventId && !AnyStock(next.tiers, e);
      }
    }
  }

  lemma WithdrawalEmpties(start: Db, db: Db, c: Withdrawal)
    requires EmptyOnceSoldOut(start, db) && WithdrawalOf(db, c).Ok?
    ensures EmptyOnceSoldOut(start, WithdrawalOf(db, c).value)
  {
  }

  lemma {:induction false} SalesEmpty(start: Db, db: Db, sales: seq<Sale>)
    requires EmptyOnceSoldOut(start, db) && SellAll(db, sales).Ok?
    ensures EmptyOnceSoldOut(start, SellAll(db, sales).value)
    decreases |sales|
  {
    if sales != [] {
      SaleEmpties(start, db, sales[0]);
      SalesEmpty(start, SaleOf(db, sales[0]).value, sales[1..]);
    }
  }

  lemma {:induction false} WithdrawalsEmpty(start: Db, db: Db, cs: seq<Withdrawal>)
    requires EmptyOnceSoldOut(start, db) && WithdrawAll(db, cs).Ok?
    ensures EmptyOnceSoldOut(start, WithdrawAll(db, cs).value)
    decreases |cs|
  {
    if cs != [] {
      WithdrawalEmpties(start, db, cs[0]);
      WithdrawalsEmpty(start, WithdrawalOf(db, cs[0]).value, cs[1..]);
    }
  }

  // ---- both ----

  /** With the same confirmed sales and the same frame, a tier is back to its row. */
  lemma TierRestored(a: Db, b: Db, t: Id)
    requires StatusFollowsStock(a) && StatusFollowsStock(b) && SameFrame(a, b) && t in a.tiers
    requires ConfirmedUnits(a.purchases, t) == ConfirmedUnits(b.purchases, t)
    ensures t in b.tiers && b.tiers[t] == a.tiers[t]
  {
    SoldSame(a.purchases, b.purchases, t);
    assert Units(a, t) == Units(b, t);
  }

  lemma SameSales(a: Db, mid: Db, b: Db, ids: set<Id>, ts: set<Id>, t: Id)
    requires Added(a.purchases, mid.purchases, ids, ts) && Struck(mid.purchases, b.purchases, ids)
    ensures ConfirmedUnits(a.purchases, t) == ConfirmedUnits(b.purchases, t)
  {
    forall p ensures p in ConfirmedUnits(a.purchases, t) <==> p in ConfirmedUnits(b.purchases, t) {
      if p in b.purchases && p !in a.purchases { assert p in ids; }
    }
  }

  /** An event that was on sale is not left sold out: its tiers have their stock back. */
  lemma EventRestored(a: Db, mid: Db, b: Db, ts: set<Id>, us: set<Id>, e: Id)
    requires EmptyOnceSoldOut(a, b) && SameFrame(a, mid) && SameFrame(mid, b) && b.tiers == a.tiers && us <= ts
    requires SameElsewhere(a, mid, ts) && SameElsewhere(mid, b, us) && forall t | t in ts :: OnSale(a, t)
    requires e in a.events
    ensures e in b.events && b.events[e] == a.events[e]
  {
    FrameTrans(a, mid, b);
    if t :| t in ts && a.tiers[t].eventId == e {
      assert OnSale(a, t) && t in b.tiers && b.events[e].status != SoldOut;
    } else {
      ElsewhereTrans(a, mid, b, ts, us);
      assert ts + us == ts;
    }
  }

  lemma TiersRestored(a: Db, mid: Db, b: Db, ids: set<Id>, ts: set<Id>)
    requires StatusFollowsStock(a) && StatusFollowsStock(b) && SameFrame(a, b)
    requires Added(a.purchases, mid.purchases, ids, ts) && Struck(mid.purchases, b.purchases, ids)
    ensures a.tiers == b.tiers
  {
    forall t | t in a.tiers ensures t in b.tiers && b.tiers[t] == a.tiers[t] {
      SameSales(a, mid, b, ids, ts, t);
      TierRestored(a, b, t);
    }
  }

  lemma RestoredBoth(a: Db, mid: Db, b: Db, ids: set<Id>, ts: set<Id>)
    requires L.Inv(a) && L.Inv(b) && SalesMade(a, mid, ids, ts) && WithdrawalsMade(mid, b, ids) && EmptyOnceSoldOut(a, b)
    ensures a.tiers == b.tiers && a.events == b.events
  {
    FrameTrans(a, mid, b);
    TiersRestored(a, mid, b, ids, ts);
    var us := TiersOf(mid.purchases, ids);
    assert us <= ts;
    forall e | e in a.events ensures e in b.events && b.events[e] == a.events[e] { EventRestored(a, mid, b, ts, us, e); }
  }

  /** Any list of successful sales followed by successful cancellations of exactly those purchases, in any
      order and at any times, restores every tier row and every event row. */
  lemma UndoneInAnyOrder(db: Db, sales: seq<Sale>, cs: seq<Withdrawal>)
    requires L.Inv(db) && SellAll(db, sales).Ok? && forall s | s in sales :: |s.ticketIds| == s.quantity
    requires WithdrawAll(SellAll(db, sales).value, cs).Ok? && WithdrawalIds(cs) == SaleIds(sales)
    ensures var end := WithdrawAll(SellAll(db, sales).value, cs).value; end.tiers == db.tiers && end.events == db.events
  {
    var mid := SellAll(db, sales).value;
    SalesEffect(db, sales);
    WithdrawalsEffect(mid, cs);
    SalesEmpty(db, db, sales);
    WithdrawalsEmpty(db, mid, cs);
    RestoredBoth(db, mid, WithdrawAll(mid, cs).value, SaleIds(sales), SaleTiers(sales));
  }
}
