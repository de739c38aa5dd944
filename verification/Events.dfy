/** The organizer's handlers for events, and the sweep that ends expired ones. */
module Events {
  import opened Basics
  import opened Model
  import Purchases
  import Tiers

  datatype NewEvent = NewEvent(
    organizerId: Id, startsAt: Time, endsAt: Time, capacity: Option<int>,
    cancellationAllowed: Option<bool>, cancellationHours: int, maxPerPurchase: Option<int>)

  predicate AtLeast(v: Option<int>, least: int) {
    v.Some? ==> v.value >= least
  }

  function GetOr<T>(v: Option<T>, default: T): T {
    if v.Some? then v.value else default
  }

  function CreateEvent(db: Db, id: Id, p: NewEvent): Result<Db, Error> {
    if !AtLeast(p.capacity, 1) || p.cancellationHours < 0 || !AtLeast(p.maxPerPurchase, 1) then Err(Invalid)
    else if p.endsAt <= p.startsAt then Err(Invalid) else
    var row := Event(p.organizerId, Draft, p.startsAt, p.endsAt, p.capacity, GetOr(p.cancellationAllowed, true),
                     p.cancellationHours, GetOr(p.maxPerPurchase, 10), None);
    if !EventChecks(row) || id in db.events then Err(Database)
    else Ok(db.(events := db.events[id := row]))
  }

  /** The update payload; only whether a location was given matters, not its text. */
  datatype Patch = Patch(
    locationGiven: bool, startsAt: Option<Time>, endsAt: Option<Time>, capacity: Option<int>,
    cancellationAllowed: Option<bool>, cancellationHours: Option<int>, maxPerPurchase: Option<int>,
    confirm: Option<bool>)

  /** A field buyers rely on is in the payload. */
  predicate Material(p: Patch) {
    p.locationGiven || p.startsAt.Some? || p.endsAt.Some? || p.cancellationAllowed.Some? || p.cancellationHours.Some?
  }

  function Merge(e: Event, p: Patch): Event {
    e.(startsAt := GetOr(p.startsAt, e.startsAt), endsAt := GetOr(p.endsAt, e.endsAt),
       capacity := if p.capacity.Some? then p.capacity else e.capacity,
       cancellationAllowed := GetOr(p.cancellationAllowed, e.cancellationAllowed),
       cancellationHours := GetOr(p.cancellationHours, e.cancellationHours),
       maxPerPurchase := GetOr(p.maxPerPurchase, e.maxPerPurchase))
  }

  /** The stored row: COALESCE keeps the old stamp unless a material change lands on a live event. */
  function Stamped(e: Event, p: Patch, now: Time): Event {
    Merge(e, p).(materialChangedAt := if Live(e.status) && Material(p) then Some(now) else e.materialChangedAt)
  }

  ghost function UpdateEvent(db: Db, id: Id, p: Patch, now: Time): Result<Db, Error> {
    if id !in db.events then Err(NotFound) else
    var e := db.events[id];
    if !AtLeast(p.capacity, 1) || !AtLeast(p.cancellationHours, 0) || !AtLeast(p.maxPerPurchase, 1) then Err(Invalid)
    else if p.capacity.Some? && p.capacity.value < EventSold(db, id) then Err(Invalid)
    else if Merge(e, p).endsAt <= Merge(e, p).startsAt then Err(Invalid)
    else if e.status == Cancelled || e.status == Ended then Err(Conflict)
    else if Live(e.status) && Material(p) && p.confirm != Some(true) then Err(Conflict)
    else if !EventChecks(Stamped(e, p, now)) then Err(Database)
    else Ok(db.(events := db.events[id := Stamped(e, p, now)]))
  }

  /** What a caller can check beforehand: the payload is valid, the capacity covers the tickets sold, the merged
      dates are in order, the event is open, and a material change of a live event is confirmed. */
  ghost predicate Accepts(db: Db, id: Id, p: Patch) {
    && id in db.events && db.events[id].status != Cancelled && db.events[id].status != Ended
    && (p.capacity.Some? ==> 1 <= p.capacity.value <= MAX_INT4 && EventSold(db, id) <= p.capacity.value)
    && (p.cancellationHours.Some? ==> 0 <= p.cancellationHours.value <= MAX_INT4)
    && (p.maxPerPurchase.Some? ==> 1 <= p.maxPerPurchase.value <= MAX_INT4)
    && GetOr(p.startsAt, db.events[id].startsAt) < GetOr(p.endsAt, db.events[id].endsAt)
    && (Live(db.events[id].status) && Material(p) ==> p.confirm == Some(true))
  }

  lemma AcceptsIff(db: Db, id: Id, p: Patch, now: Time)
    requires id in db.events ==> EventChecks(db.events[id])
    ensures UpdateEvent(db, id, p, now).Ok? <==> Accepts(db, id, p)
  {
  }

  /** The handler notifies buyers when the payload was material and the stored row carries a stamp. */
  predicate Notifies(e: Event, p: Patch, now: Time) {
    Material(p) && Stamped(e, p, now).materialChangedAt.Some?
  }

  predicate HasTier(db: Db, eventId: Id) {
    exists t | t in db.tiers :: db.tiers[t].eventId == eventId
  }

  function PublishEvent(db: Db, id: Id): Result<Db, Error> {
    if id !in db.events then Err(NotFound)
    else if db.events[id].status != Draft then Err(Conflict)
    else if !HasTier(db, id) then Err(Conflict)
    else Ok(db.(events := FlipStatus(db.events, id, Draft, Published)))
  }

  function Marked(db: Db, id: Id): Db
    requires id in db.events
  {
    db.(events := db.events[id := db.events[id].(status := Cancelled)])
  }

  /** The handler logs a failed bulk update of the purchases and goes on; `bulkOk` says whether it succeeded. */
  function CancelEvent(db: Db, id: Id, bulkOk: bool): Result<Db, Error> {
    if id !in db.events then Err(NotFound) else
    var e := db.events[id];
    if e.status != Draft && !Live(e.status) then Err(Conflict)
    else Ok(if bulkOk then Purchases.CancelByEvent(Marked(db, id), id) else Marked(db, id))
  }

  function TiersOf(tiers: map<Id, Tier>, eventId: Id): set<Id> {
    set t | t in tiers && tiers[t].eventId == eventId
  }

  function DeleteEvent(db: Db, id: Id): Result<Db, Error> {
    if id !in db.events then Err(NotFound)
    else if db.events[id].status != Draft then Err(Conflict)
    else Ok(Tiers.DropTiers(db.(events := db.events - {id}), TiersOf(db.tiers, id)))
  }

  function EndAllExpired(db: Db, now: Time): Db {
    db.(events := map e | e in db.events ::
          if Live(db.events[e].status) && db.events[e].endsAt < now
          then db.events[e].(status := Ended) else db.events[e])
  }
}
