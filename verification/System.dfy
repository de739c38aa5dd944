/** The whole system as one machine: the database, the waitlist, the queue of promotion tasks and a clock.
    Every handler call and every worker run is one step. */
module System {
  import opened Basics
  import opened Model
  import opened Waitlist
  import Purchases
  import Tickets
  import Tiers
  import Events

  datatype World = World(db: Db, entries: Entries, queue: multiset<Id>, clock: Time)

  /** Identifiers are the random ones the step draws. `flipOk`, `bulkOk`, `clearOk`, `enqueued`, `mailed` and
      `retried` say how the calls went that can fail after something was committed; a scan carries the ticket its
      token names, if it names one; `lost` are the
      expired entries whose replacement task could not be enqueued. */
  datatype Op =
    | CreateEvent(eventId: Id, event: Events.NewEvent)
    | UpdateEvent(eventId: Id, patch: Events.Patch)
    | DeleteEvent(eventId: Id)
    | PublishEvent(eventId: Id)
    | CancelEvent(eventId: Id, bulkOk: bool, clearOk: bool)
    | CreateTier(eventId: Id, tierId: Id, price: Option<int>, quantity: Option<int>)
    | UpdateTier(eventId: Id, tierId: Id, price: Option<int>, quantity: Option<int>, flipOk: bool)
    | DeleteTier(eventId: Id, tierId: Id)
    | Buy(purchaseId: Id, userId: Id, tierId: Id, units: int, draw: nat -> Id)
    | CancelPurchase(purchaseId: Id, userId: Id, enqueued: bool)
    | CheckIn(eventId: Id, ticket: Option<Id>)
    | EndExpired
    | Join(entryId: Id, eventId: Id, tierId: Id, userId: Id)
    | Leave(userId: Id, tierId: Id)
    | Promote(tierId: Id, pick: Id, mailed: bool, retried: bool)
    | ExpireReservations(lost: set<Id>)

  datatype Step = Step(op: Op, now: Time)

  /** What a step commits, or why it commits nothing; waitlist steps leave the database as it is. */
  ghost function Answer(w: World, s: Step): Result<Db, Error> {
    var db := w.db;
    match s.op
    case CreateEvent(e, p) => Events.CreateEvent(db, e, p)
    case UpdateEvent(e, p) => Events.UpdateEvent(db, e, p, s.now)
    case DeleteEvent(e) => Events.DeleteEvent(db, e)
    case PublishEvent(e) => Events.PublishEvent(db, e)
    case CancelEvent(e, bulkOk, _) => Events.CancelEvent(db, e, bulkOk)
    case CreateTier(e, t, price, quantity) => Tiers.CreateTier(db, t, e, price, quantity)
    case UpdateTier(e, t, price, quantity, flipOk) => Tiers.UpdateTier(db, e, t, price, quantity, flipOk)
    case DeleteTier(e, t) => Tiers.DeleteTier(db, e, t)
    case Buy(p, u, t, units, draw) => Purchases.Buy(db, p, u, t, units, draw)
    case CancelPurchase(p, u, _) => Purchases.Cancel(db, p, u, s.now)
    case CheckIn(e, ticket) => Tickets.Door(db, ticket, e, s.now)
    case EndExpired => Ok(Events.EndAllExpired(db, s.now))
    case _ => Ok(db)
  }

  ghost function DbAfter(w: World, s: Step): Db {
    match Answer(w, s) case Ok(db) => db case Err(_) => w.db
  }

  /** The task is there and the row the worker locked is the longest waiting one. */
  predicate Promotes(w: World, tierId: Id, pick: Id) {
    tierId in w.queue && IsNext(w.entries, tierId, pick)
  }

  ghost function EntriesAfter(w: World, s: Step): Entries {
    match s.op
    case DeleteEvent(e) => if Answer(w, s).Ok? then DropTiers(w.entries, Events.TiersOf(w.db.tiers, e)) else w.entries
    case DeleteTier(_, t) => if Answer(w, s).Ok? then DropTiers(w.entries, {t}) else w.entries
    case CancelEvent(e, _, clearOk) =>
      if Answer(w, s).Ok? && clearOk then DropTiers(w.entries, Events.TiersOf(w.db.tiers, e)) else w.entries
    case Join(id, e, t, u) =>
      (match Waitlist.Join(w.db, w.entries, id, e, t, u, s.now) case Ok(es) => es case Err(_) => w.entries)
    case Leave(u, t) => (match Waitlist.Leave(w.entries, u, t) case Ok(es) => es case Err(_) => w.entries)
    case Promote(t, pick, _, _) => if Promotes(w, t, pick) then Notify(w.entries, pick, s.now) else w.entries
    case ExpireReservations(_) => ExpireOffers(w.entries, s.now)
    case _ => w.entries
  }

  /** One task per entry, for the tier of the entry. */
  ghost function TasksFor(entries: Entries, ids: set<Id>): multiset<Id>
    requires forall i | i in ids :: i in entries
  {
    if ids == {} then multiset{} else var i :| i in ids; TasksFor(entries, ids - {i}) + multiset{entries[i].tierId}
  }

  /** A cancellation of a purchase whose tier was sold out; the handler enqueues one task for each. */
  ghost predicate Frees(w: World, s: Step) {
    s.op.CancelPurchase? && Answer(w, s).Ok? && Purchases.WasSoldOut(w.db, s.op.purchaseId)
  }

  ghost function QueueAfter(w: World, s: Step): multiset<Id> {
    match s.op
    case CancelPurchase(p, _, enqueued) =>
      if Frees(w, s) && enqueued && p in w.db.purchases then w.queue + multiset{w.db.purchases[p].tierId} else w.queue
    case Promote(t, pick, mailed, retried) =>
      if t !in w.queue || (AnyWaiting(w.entries, t) && !IsNext(w.entries, t, pick)) then w.queue
      else if IsNext(w.entries, t, pick) && !mailed && retried then w.queue
      else w.queue - multiset{t}
    case ExpireReservations(lost) => w.queue + TasksFor(w.entries, DueIds(w.entries, s.now) - lost)
    case _ => w.queue
  }

  ghost function Next(w: World, s: Step): World {
    World(DbAfter(w, s), EntriesAfter(w, s), QueueAfter(w, s), s.now)
  }

  ghost function Run(w: World, run: seq<Step>): World
    decreases |run|
  {
    if run == [] then w else Run(Next(w, run[0]), run[1..])
  }

  /** The clock never goes back. */
  ghost predicate Timely(w: World, run: seq<Step>)
    decreases |run|
  {
    run != [] ==> w.clock <= run[0].now && Timely(Next(w, run[0]), run[1..])
  }

  function Empty(clock: Time): World {
    World(Db(map[], map[], map[], map[]), map[], multiset{}, clock)
  }
}
