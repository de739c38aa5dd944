/** The status of a live event against its stock: a sold-out event has none, a published one has some. Resizing a
    tier is the one step that can break either, and exactly when is something its caller could check. */
module Stock {
  import opened Basics
  import opened Sums
  import opened Model
  import opened System
  import opened Reachable
  import Inventory
  import Purchases
  import Tickets
  import Tiers
  import Events
  import L = Lifecycle

  predicate EmptyIfSoldOut(db: Db, e: Id) {
    e in db.events && db.events[e].status == SoldOut ==> !AnyStock(db.tiers, e)
  }

  predicate StockedIfPublished(db: Db, e: Id) {
    e in db.events && db.events[e].status == Published ==> AnyStock(db.tiers, e)
  }

  ghost predicate SoldOutEmpty(db: Db) {
    forall e | e in db.events :: EmptyIfSoldOut(db, e)
  }

  ghost predicate PublishedStocked(db: Db) {
    forall e | e in db.events :: StockedIfPublished(db, e)
  }

  /** With both, the status of an event on sale is exactly whether it has stock. */
  lemma StatusIsStock(db: Db, e: Id)
    requires SoldOutEmpty(db) && PublishedStocked(db) && e in db.events && Live(db.events[e].status)
    ensures db.events[e].status == SoldOut <==> !AnyStock(db.tiers, e)
  {
    assert EmptyIfSoldOut(db, e) && StockedIfPublished(db, e);
  }

  // ---- the steps that break it ----

  /** A tier of a sold-out event grows beyond what it sold, and reopening the event fails. */
  ghost predicate Strands(db: Db, s: Step) {
    && s.op.UpdateTier? && !s.op.flipOk && Tiers.Accepts(db, s.op.eventId, s.op.tierId, s.op.price, s.op.quantity)
    && db.events[s.op.eventId].status == SoldOut
    && s.op.quantity.Some? && s.op.quantity.value > Tiers.SoldUnits(db.tiers[s.op.tierId])
  }

  /** A tier of a published event shrinks to what it sold, and no other tier of the event has stock. */
  ghost predicate Clears(db: Db, s: Step) {
    && s.op.UpdateTier? && Tiers.Accepts(db, s.op.eventId, s.op.tierId, s.op.price, s.op.quantity)
    && db.events[s.op.eventId].status == Published
    && s.op.quantity == Some(Tiers.SoldUnits(db.tiers[s.op.tierId]))
    && forall t | t in db.tiers && t != s.op.tierId && db.tiers[t].eventId == s.op.eventId :: db.tiers[t].remaining == 0
  }

  // ---- one event through one step ----

  ghost predicate Kept(db: Db, after: Db, e: Id) {
    && (EmptyIfSoldOut(db, e) ==> EmptyIfSoldOut(after, e))
    && (StockedIfPublished(db, e) ==> StockedIfPublished(after, e))
  }

  /** Stock looks at nothing but the tiers of the event. */
  lemma SameStock(a: map<Id, Tier>, b: map<Id, Tier>, e: Id)
    requires forall t | t in a && a[t].eventId == e && a[t].remaining > 0 :: t in b && b[t].eventId == e && b[t].remaining > 0
    requires forall t | t in b && b[t].eventId == e && b[t].remaining > 0 :: t in a && a[t].eventId == e && a[t].remaining > 0
    ensures AnyStock(a, e) <==> AnyStock(b, e)
  {
  }

  lemma SaleKeeps(db: Db, id: Id, u: Id, t: Id, quantity: int, ks: seq<Id>, e: Id)
    requires Purchases.Create(db, id, u, t, quantity, ks).Ok?
    ensures Kept(db, Purchases.Create(db, id, u, t, quantity, ks).value, e)
  {
    var after := Purchases.Create(db, id, u, t, quantity, ks).value;
    if e != db.tiers[t].eventId { SameStock(db.tiers, after.tiers, e); }
  }

  lemma CancelKeeps(db: Db, id: Id, u: Id, now: Time, e: Id)
    requires Inventory.RowsChecked(db) && Purchases.Cancel(db, id, u, now).Ok?
    ensures Kept(db, Purchases.Cancel(db, id, u, now).value, e)
  {
    var after := Purchases.Cancel(db, id, u, now).value;
    var t := db.purchases[id].tierId;
    if e == db.tiers[t].eventId { assert after.tiers[t].remaining > 0; } else { SameStock(db.tiers, after.tiers, e); }
  }

  /** A step that leaves the tiers of an event as they are, and neither publishes nor sells it out. */
  lemma QuietKeeps(db: Db, after: Db, e: Id)
    requires forall t | t in db.tiers && db.tiers[t].eventId == e :: t in after.tiers && after.tiers[t] == db.tiers[t]
    requires forall t | t in after.tiers && after.tiers[t].eventId == e :: t in db.tiers && db.tiers[t].eventId == e
    requires e in after.events && Live(after.events[e].status) ==> e in db.events && db.events[e].status == after.events[e].status
    ensures Kept(db, after, e)
  {
    SameStock(db.tiers, after.tiers, e);
  }

  lemma PublishKeeps(db: Db, id: Id, e: Id)
    requires L.Inv(db) && Events.PublishEvent(db, id).Ok?
    ensures Kept(db, Events.PublishEvent(db, id).value, e)
  {
    if e == id {
      var t :| t in db.tiers && db.tiers[t].eventId == id;
      assert db.tiers[t].remaining > 0;
    }
  }

  lemma ResizeKeeps(db: Db, s: Step, after: Db, e: Id)
    requires s.op.UpdateTier? && Tiers.UpdateTier(db, s.op.eventId, s.op.tierId, s.op.price, s.op.quantity, s.op.flipOk) == Ok(after)
    requires e != s.op.eventId
    ensures Kept(db, after, e)
  {
    QuietKeeps(db, after, e);
  }

  lemma ResizeStrandsIff(db: Db, s: Step, after: Db)
    requires s.op.UpdateTier? && Tiers.UpdateTier(db, s.op.eventId, s.op.tierId, s.op.price, s.op.quantity, s.op.flipOk) == Ok(after)
    requires Inventory.RowsChecked(db) && Tiers.Accepts(db, s.op.eventId, s.op.tierId, s.op.price, s.op.quantity)
    requires EmptyIfSoldOut(db, s.op.eventId)
    ensures EmptyIfSoldOut(after, s.op.eventId) <==> !Strands(db, s)
  {
    var e, t := s.op.eventId, s.op.tierId;
    if db.events[e].status == SoldOut {
      assert db.tiers[t].remaining <= 0;
      if after.tiers[t].remaining <= 0 { SameStock(db.tiers, after.tiers, e); }
    }
  }

  lemma ResizeClearsIff(db: Db, s: Step, after: Db)
    requires s.op.UpdateTier? && Tiers.UpdateTier(db, s.op.eventId, s.op.tierId, s.op.price, s.op.quantity, s.op.flipOk) == Ok(after)
    requires Inventory.RowsChecked(db) && Tiers.Accepts(db, s.op.eventId, s.op.tierId, s.op.price, s.op.quantity)
    requires StockedIfPublished(db, s.op.eventId)
    ensures StockedIfPublished(after, s.op.eventId) <==> !Clears(db, s)
  {
    var e, t := s.op.eventId, s.op.tierId;
    if db.events[e].status == Published {
      if s.op.quantity.None? {
        SameStock(db.tiers, after.tiers, e);
      } else if after.tiers[t].remaining <= 0 && !Clears(db, s) {
        var x :| x in db.tiers && x != t && db.tiers[x].eventId == e && db.tiers[x].remaining != 0;
        assert after.tiers[x].remaining > 0;
      }
    } else if after.events[e].status == Published {
      assert after.tiers[t].remaining > 0;
    }
  }

  /** Tiers of a draft may come and go. */
  lemma DraftTiersKeep(db: Db, after: Db, draft: Id, e: Id)
    requires draft in db.events && db.events[draft].status == Draft && after.events == db.events
    requires forall t | t in db.tiers && db.tiers[t].eventId != draft :: t in after.tiers && after.tiers[t] == db.tiers[t]
    requires forall t | t in after.tiers && after.tiers[t].eventId != draft :: t in db.tiers && db.tiers[t] == after.tiers[t]
    ensures Kept(db, after, e)
  {
    if e != draft { QuietKeeps(db, after, e); }
  }

  lemma CreateTierKeeps(db: Db, after: Db, id: Id, t: Id, price: Option<int>, quantity: Option<int>, e: Id)
    requires Tiers.CreateTier(db, t, id, price, quantity) == Ok(after)
    ensures Kept(db, after, e)
  {
    DraftTiersKeep(db, after, id, e);
  }

  lemma CancelEventKeeps(db: Db, id: Id, bulkOk: bool, e: Id)
    requires Events.CancelEvent(db, id, bulkOk).Ok?
    ensures Kept(db, Events.CancelEvent(db, id, bulkOk).value, e)
  {
  }

  lemma CreateEventKeeps(db: Db, after: Db, id: Id, p: Events.NewEvent, e: Id)
    requires Events.CreateEvent(db, id, p) == Ok(after)
    ensures Kept(db, after, e)
  {
    QuietKeeps(db, after, e);
  }

  lemma DeleteEventKeeps(db: Db, id: Id, e: Id)
    requires L.Inv(db) && Events.DeleteEvent(db, id).Ok?
    ensures Kept(db, Events.DeleteEvent(db, id).value, e)
  {
    L.DeleteEventKeeps(db, id);
    if e != id { QuietKeeps(db, Events.DeleteEvent(db, id).value, e); }
  }

  lemma DeleteTierKeeps(db: Db, id: Id, t: Id, e: Id)
    requires L.Inv(db) && Tiers.DeleteTier(db, id, t).Ok?
    ensures Kept(db, Tiers.DeleteTier(db, id, t).value, e)
  {
    L.DeleteTierKeeps(db, id, t);
    DraftTiersKeep(db, Tiers.DeleteTier(db, id, t).value, id, e);
  }

  lemma UpdateEventKeeps(db: Db, id: Id, p: Events.Patch, now: Time, e: Id)
    requires Events.UpdateEvent(db, id, p, now).Ok?
    ensures Kept(db, Events.UpdateEvent(db, id, p, now).value, e)
  {
  }

  lemma EndKeeps(db: Db, now: Time, e: Id)
    ensures Kept(db, Events.EndAllExpired(db, now), e)
  {
  }

  lemma ScanKeeps(db: Db, ticket: Option<Id>, eventId: Id, now: Time, e: Id)
    requires Tickets.Door(db, ticket, eventId, now).Ok?
    ensures Kept(db, Tickets.Door(db, ticket, eventId, now).value, e)
  {
  }

  lemma BuyKeeps(db: Db, id: Id, u: Id, t: Id, units: int, draw: nat -> Id, e: Id)
    requires Purchases.Buy(db, id, u, t, units, draw).Ok?
    ensures Kept(db, Purchases.Buy(db, id, u, t, units, draw).value, e)
  {
    SaleKeeps(db, id, u, t, units, Purchases.Drawn(units, draw), e);
  }

  predicate OrganizerOp(s: Step) {
    || s.op.CreateEvent? || s.op.UpdateEvent? || s.op.PublishEvent? || s.op.CancelEvent? || s.op.DeleteEvent?
    || s.op.CreateTier? || s.op.DeleteTier?
  }

  lemma OrganizerKeeps(w: World, s: Step, e: Id)
    requires L.Inv(w.db) && Answer(w, s).Ok? && OrganizerOp(s)
    ensures Kept(w.db, DbAfter(w, s), e)
  {
    var db := w.db;
    match s.op
    case CreateEvent(id, p) => CreateEventKeeps(db, DbAfter(w, s), id, p, e);
    case UpdateEvent(id, p) => UpdateEventKeeps(db, id, p, s.now, e);
    case PublishEvent(id) => PublishKeeps(db, id, e);
    case CancelEvent(id, bulkOk, _) => CancelEventKeeps(db, id, bulkOk, e);
    case DeleteEvent(id) => DeleteEventKeeps(db, id, e);
    case CreateTier(id, t, price, quantity) => CreateTierKeeps(db, DbAfter(w, s), id, t, price, quantity, e);
    case DeleteTier(id, t) => DeleteTierKeeps(db, id, t, e);
  }

  /** Every step but resizing keeps both, event by event. */
  lemma OtherKeeps(w: World, s: Step, e: Id)
    requires L.Inv(w.db) && Answer(w, s).Ok? && !s.op.UpdateTier?
    ensures Kept(w.db, DbAfter(w, s), e)
  {
    if OrganizerOp(s) {
      OrganizerKeeps(w, s, e);
    } else {
      match s.op
      case Buy(p, u, t, units, draw) => BuyKeeps(w.db, p, u, t, units, draw, e);
      case CancelPurchase(p, u, _) => CancelKeeps(w.db, p, u, s.now, e);
      case CheckIn(id, ticket) => ScanKeeps(w.db, ticket, id, s.now, e);
      case EndExpired => EndKeeps(w.db, s.now, e);
      case _ =>
    }
  }

  lemma ResizeStep(w: World, s: Step)
    requires L.Inv(w.db) && s.op.UpdateTier? && Answer(w, s).Ok?
    ensures Tiers.Accepts(w.db, s.op.eventId, s.op.tierId, s.op.price, s.op.quantity)
    ensures forall e | e in DbAfter(w, s).events && e != s.op.eventId :: Kept(w.db, DbAfter(w, s), e)
    ensures EmptyIfSoldOut(w.db, s.op.eventId) ==> (EmptyIfSoldOut(DbAfter(w, s), s.op.eventId) <==> !Strands(w.db, s))
    ensures StockedIfPublished(w.db, s.op.eventId) ==> (StockedIfPublished(DbAfter(w, s), s.op.eventId) <==> !Clears(w.db, s))
    ensures DbAfter(w, s).events.Keys == w.db.events.Keys
  {
    var db, after := w.db, DbAfter(w, s);
    Tiers.AcceptsIff(db, s.op.eventId, s.op.tierId, s.op.price, s.op.quantity, s.op.flipOk);
    forall e | e in after.events && e != s.op.eventId ensures Kept(db, after, e) { ResizeKeeps(db, s, after, e); }
    if EmptyIfSoldOut(db, s.op.eventId) { ResizeStrandsIff(db, s, after); }
    if StockedIfPublished(db, s.op.eventId) { ResizeClearsIff(db, s, after); }
  }

  lemma RefusedResize(w: World, s: Step)
    requires L.Inv(w.db) && s.op.UpdateTier? && Answer(w, s).Err?
    ensures !Strands(w.db, s) && !Clears(w.db, s)
  {
    Tiers.AcceptsIff(w.db, s.op.eventId, s.op.tierId, s.op.price, s.op.quantity, s.op.flipOk);
  }

  // ---- every step, every run ----

  /** A new event is a draft. */
  lemma NewEventKept(db: Db, e: Id)
    requires e !in db.events
    ensures EmptyIfSoldOut(db, e) && StockedIfPublished(db, e)
  {
  }

  /** A step leaves a sold-out event with stock exactly when it strands one. */
  lemma StaysEmptyIff(w: World, s: Step)
    requires L.Inv(w.db) && SoldOutEmpty(w.db)
    ensures SoldOutEmpty(DbAfter(w, s)) <==> !Strands(w.db, s)
  {
    var after := DbAfter(w, s);
    if s.op.UpdateTier? {
      if Answer(w, s).Ok? { ResizeStep(w, s); } else { RefusedResize(w, s); }
    } else if Answer(w, s).Ok? {
      forall e | e in after.events ensures EmptyIfSoldOut(after, e) {
        OtherKeeps(w, s, e);
        if e !in w.db.events { NewEventKept(w.db, e); }
      }
    }
  }

  /** A step leaves a published event without stock exactly when it clears one. */
  lemma StaysStockedIff(w: World, s: Step)
    requires L.Inv(w.db) && PublishedStocked(w.db)
    ensures PublishedStocked(DbAfter(w, s)) <==> !Clears(w.db, s)
  {
    var after := DbAfter(w, s);
    if s.op.UpdateTier? {
      if Answer(w, s).Ok? { ResizeStep(w, s); } else { RefusedResize(w, s); }
    } else if Answer(w, s).Ok? {
      forall e | e in after.events ensures StockedIfPublished(after, e) {
        OtherKeeps(w, s, e);
        if e !in w.db.events { NewEventKept(w.db, e); }
      }
    }
  }

  ghost predicate NeverStrands(w: World, run: seq<Step>)
    decreases |run|
  {
    run != [] ==> !Strands(w.db, run[0]) && NeverStrands(Next(w, run[0]), run[1..])
  }

  ghost predicate NeverClears(w: World, run: seq<Step>)
    decreases |run|
  {
    run != [] ==> !Clears(w.db, run[0]) && NeverClears(Next(w, run[0]), run[1..])
  }

  lemma {:induction false} RunStaysEmpty(w: World, run: seq<Step>)
    requires Good(w) && Timely(w, run) && SoldOutEmpty(w.db) && NeverStrands(w, run)
    ensures SoldOutEmpty(Run(w, run).db)
    decreases |run|
  {
    if run != [] {
      StepKeeps(w, run[0]);
      StaysEmptyIff(w, run[0]);
      RunStaysEmpty(Next(w, run[0]), run[1..]);
    }
  }

  lemma {:induction false} RunStaysStocked(w: World, run: seq<Step>)
    requires Good(w) && Timely(w, run) && PublishedStocked(w.db) && NeverClears(w, run)
    ensures PublishedStocked(Run(w, run).db)
    decreases |run|
  {
    if run != [] {
      StepKeeps(w, run[0]);
      StaysStockedIff(w, run[0]);
      RunStaysStocked(Next(w, run[0]), run[1..]);
    }
  }

  /** From the empty system on, unless a step strands or clears an event, an event on sale is sold out exactly
      when none of its tiers has stock. */
  lemma SoldOutIffEmpty(clock: Time, run: seq<Step>, e: Id)
    requires Timely(Empty(clock), run) && NeverStrands(Empty(clock), run) && NeverClears(Empty(clock), run)
    requires var db := Run(Empty(clock), run).db; e in db.events && Live(db.events[e].status)
    ensures var db := Run(Empty(clock), run).db; db.events[e].status == SoldOut <==> !AnyStock(db.tiers, e)
  {
    StartsGood(clock);
    RunStaysEmpty(Empty(clock), run);
    RunStaysStocked(Empty(clock), run);
    StatusIsStock(Run(Empty(clock), run).db, e);
  }

  // ---- an event of each kind ----

  /** One event with one tier, of which one unit is sold. */
  function OneSold(status: EventStatus, quantity: int): Db {
    Db(map[1 := Event(0, status, 10, 20, None, true, 0, 10, None)],
       map[2 := Tier(1, 5, quantity, quantity - 1, if quantity == 1 then TierSoldOut else Available)],
       map[4 := Purchase(9, 2, 1, 5, Confirmed)],
       map[5 := Ticket(4, 2, Unused, None)])
  }

  lemma OneSoldTickets(status: EventStatus, quantity: int)
    ensures Inventory.TicketsMatch(OneSold(status, quantity).purchases, OneSold(status, quantity).tickets)
  {
    assert TicketsOf(OneSold(status, quantity).tickets, 4) == {5};
  }

  lemma OneSoldIsGood(status: EventStatus, quantity: int)
    requires Live(status) && 0 < quantity <= MAX_INT4
    ensures Good(World(OneSold(status, quantity), map[], multiset{}, 0))
  {
    var db := OneSold(status, quantity);
    OneSoldTickets(status, quantity);
    assert ConfirmedUnits(db.purchases, 2) == map[][4 := 1];
    SumInsert(map[], 4, 1);
    assert Inventory.TierConserved(db, 2);
  }

  function Resized(status: EventStatus, quantity: int, resized: int): Db {
    OneSold(status, quantity).(
      tiers := map[2 := Tier(1, 5, resized, resized - 1, if resized == 1 then TierSoldOut else Available)])
  }

  lemma ResizeOneSold(status: EventStatus, quantity: int, resized: int)
    requires Live(status) && 1 <= quantity <= MAX_INT4 && 1 <= resized <= MAX_INT4
    ensures Tiers.UpdateTier(OneSold(status, quantity), 1, 2, None, Some(resized), false) == Ok(Resized(status, quantity, resized))
  {
    var row := Resized(status, quantity, resized).tiers[2];
    assert OneSold(status, quantity).tiers[2 := row] == map[2 := row];
  }

  lemma OnlyTier(tiers: map<Id, Tier>, t: Id)
    requires tiers.Keys == {t}
    ensures AnyStock(tiers, tiers[t].eventId) <==> tiers[t].remaining > 0
  {
    forall x | x in tiers ensures x == t { assert x in tiers.Keys; }
    assert t in tiers.Keys;
    if tiers[t].remaining > 0 { assert t in tiers && tiers[t].eventId == tiers[t].eventId; }
  }

  lemma ResizeAnswer(w: World, s: Step, status: EventStatus, quantity: int, resized: int)
    requires Live(status) && 1 <= quantity <= MAX_INT4 && 1 <= resized <= MAX_INT4
    requires w.db == OneSold(status, quantity) && s.op == UpdateTier(1, 2, None, Some(resized), false)
    ensures Answer(w, s) == Ok(Resized(status, quantity, resized))
  {
    ResizeOneSold(status, quantity, resized);
  }

  lemma OneSoldStatus(status: EventStatus, quantity: int)
    requires quantity > 0
    ensures SoldOutEmpty(OneSold(status, quantity)) <==> status != SoldOut || quantity == 1
    ensures PublishedStocked(OneSold(status, quantity)) <==> status != Published || quantity > 1
  {
    OnlyTier(OneSold(status, quantity).tiers, 2);
    assert 1 in OneSold(status, quantity).events;
  }

  lemma ResizedStatus(status: EventStatus, quantity: int, resized: int)
    requires resized > 0
    ensures SoldOutEmpty(Resized(status, quantity, resized)) <==> status != SoldOut || resized == 1
    ensures PublishedStocked(Resized(status, quantity, resized)) <==> status != Published || resized > 1
  {
    OnlyTier(Resized(status, quantity, resized).tiers, 2);
    assert 1 in Resized(status, quantity, resized).events;
  }

  /** A published event whose only tier offers two units and sold one: shrinking the tier to one unit is accepted,
      and leaves the event published with nothing left to sell. */
  lemma PublishedCanBeCleared(w: World, s: Step)
    requires w == World(OneSold(Published, 2), map[], multiset{}, 0) && s == Step(UpdateTier(1, 2, None, Some(1), false), 0)
    ensures Good(w) && PublishedStocked(w.db)
    ensures Answer(w, s).Ok? && !PublishedStocked(Answer(w, s).value)
  {
    OneSoldIsGood(Published, 2);
    ResizeAnswer(w, s, Published, 2, 1);
    OneSoldStatus(Published, 2);
    ResizedStatus(Published, 2, 1);
  }

  /** A sold-out event whose only tier sold its one unit: growing the tier is committed, and if reopening the event
      then fails, the event stays sold out with a unit left. */
  lemma SoldOutCanBeStranded(w: World, s: Step)
    requires w == World(OneSold(SoldOut, 1), map[], multiset{}, 0) && s == Step(UpdateTier(1, 2, None, Some(2), false), 0)
    ensures Good(w) && SoldOutEmpty(w.db)
    ensures Answer(w, s).Ok? && !SoldOutEmpty(Answer(w, s).value)
  {
    OneSoldIsGood(SoldOut, 1);
    ResizeAnswer(w, s, SoldOut, 1, 2);
    OneSoldStatus(SoldOut, 1);
    ResizedStatus(SoldOut, 1, 2);
  }
}
