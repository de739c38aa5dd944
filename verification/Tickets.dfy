/** Scanning a ticket at the door. */
module Tickets {
  import opened Basics
  import opened Model

  function Scan(t: Ticket, now: Time): Ticket {
    t.(status := Used, checkedInAt := Some(now))
  }

  /** The lookup joins the ticket with its tier and its purchase, then the first matching refusal wins. */
  function CheckIn(db: Db, ticketId: Id, eventId: Id, now: Time): Result<Db, Error> {
    if ticketId !in db.tickets then Err(NotFound) else
    var t := db.tickets[ticketId];
    if t.tierId !in db.tiers || t.purchaseId !in db.purchases then Err(NotFound)
    else if t.status == Used then Err(AlreadyCheckedIn)
    else if t.status == TicketCancelled then Err(VoidTicket)
    else if db.tiers[t.tierId].eventId != eventId then Err(WrongEvent)
    else Ok(db.(tickets := db.tickets[ticketId := Scan(t, now)]))
  }

  /** The scan of a token: one that names no ticket is answered like a ticket that does not exist. */
  function Door(db: Db, ticket: Option<Id>, eventId: Id, now: Time): Result<Db, Error> {
    match ticket case Some(id) => CheckIn(db, id, eventId, now) case None => Err(NotFound)
  }

  // ---- the life of a ticket ----

  function Stage(s: TicketStatus): nat {
    match s case Unused => 0 case Used => 1 case TicketCancelled => 2
  }

  /** A ticket row stays, keeps its purchase and tier, and only moves from unused to used to cancelled. */
  ghost predicate Forward(a: Db, b: Db, k: Id) {
    && k in a.tickets && k in b.tickets
    && a.tickets[k].purchaseId == b.tickets[k].purchaseId && a.tickets[k].tierId == b.tickets[k].tierId
    && Stage(a.tickets[k].status) <= Stage(b.tickets[k].status)
  }
}
