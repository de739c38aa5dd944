/** The waitlist rows of sold-out tiers: joining, leaving, being offered a place, and offers running out. */
module Waitlist {
  import opened Basics
  import opened Model

  /** No operation ever stores the fourth status of the schema, 'purchased'. */
  datatype EntryStatus = Waiting | Notified | Expired

  datatype Entry = Entry(
    userId: Id, tierId: Id, status: EntryStatus, notifiedAt: Option<Time>, expiresAt: Option<Time>, createdAt: Time)

  type Entries = map<Id, Entry>

  /** How long an offer stands. */
  const OFFER: Time := 24 * HOUR

  function Insert(entries: Entries, id: Id, userId: Id, tierId: Id, now: Time): Result<Entries, Error> {
    if exists w | w in entries :: entries[w].userId == userId && entries[w].tierId == tierId then Err(Conflict)
    else if id in entries then Err(Database)
    else Ok(entries[id := Entry(userId, tierId, Waiting, None, None, now)])
  }

  /** Everyone may look at a live or ended event; a draft or cancelled one is shown to its organizer only. */
  predicate Visible(e: Event, userId: Id) {
    Live(e.status) || e.status == Ended || userId == e.organizerId
  }

  predicate HoldsTickets(db: Db, userId: Id, tierId: Id) {
    exists p | p in db.purchases ::
      db.purchases[p].userId == userId && db.purchases[p].tierId == tierId && db.purchases[p].status == Confirmed
  }

  function Join(db: Db, entries: Entries, id: Id, eventId: Id, tierId: Id, userId: Id, now: Time): Result<Entries, Error> {
    if eventId !in db.events || !Visible(db.events[eventId], userId) then Err(NotFound)
    else if db.events[eventId].status == Ended then Err(Conflict)
    else if tierId !in db.tiers || db.tiers[tierId].eventId != eventId then Err(NotFound)
    else if db.tiers[tierId].status != TierSoldOut then Err(Conflict)
    else if HoldsTickets(db, userId, tierId) then Err(Conflict)
    else Insert(entries, id, userId, tierId, now)
  }

  function Leave(entries: Entries, userId: Id, tierId: Id): Result<Entries, Error> {
    if forall w | w in entries :: entries[w].userId != userId || entries[w].tierId != tierId then Err(NotFound)
    else Ok(map w | w in entries && !(entries[w].userId == userId && entries[w].tierId == tierId) :: entries[w])
  }

  /** Entries go with their tiers. */
  function DropTiers(entries: Entries, doomed: set<Id>): Entries {
    map w | w in entries && entries[w].tierId !in doomed :: entries[w]
  }

  predicate IsWaiting(entries: Entries, tierId: Id, w: Id) {
    w in entries && entries[w].tierId == tierId && entries[w].status == Waiting
  }

  predicate AnyWaiting(entries: Entries, tierId: Id) {
    exists w | w in entries :: IsWaiting(entries, tierId, w)
  }

  /** A row ORDER BY created_at LIMIT 1 may return: nobody in the tier has waited longer. */
  predicate IsNext(entries: Entries, tierId: Id, w: Id) {
    && IsWaiting(entries, tierId, w)
    && forall v | v in entries :: IsWaiting(entries, tierId, v) ==> entries[w].createdAt <= entries[v].createdAt
  }

  function Notify(entries: Entries, w: Id, now: Time): Entries
    requires w in entries
  {
    entries[w := entries[w].(status := Notified, notifiedAt := Some(now), expiresAt := Some(now + OFFER))]
  }

  /** An offer that was not taken up in time. */
  predicate Due(e: Entry, now: Time) {
    e.status == Notified && e.expiresAt.Some? && e.expiresAt.value < now
  }

  function DueIds(entries: Entries, now: Time): set<Id> {
    set w | w in entries && Due(entries[w], now)
  }

  function ExpireOffers(entries: Entries, now: Time): Entries {
    map w | w in entries :: if Due(entries[w], now) then entries[w].(status := Expired) else entries[w]
  }
}
