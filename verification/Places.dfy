/** The waitlist and its tasks, written out: who may join, who is offered a place and until when, which offers
    expire, and which tasks are queued. */
module Places {
  import opened Basics
  import opened Model
  import opened Waitlist
  import opened System
  import opened Reachable
  import Events
  import Offers
  import Purchases

  // ---- joining and leaving ----

  /** Joining works on a sold-out tier of a published or sold-out event, or of the organizer's own draft or cancelled
      one, for somebody without confirmed tickets of the tier and not yet on its list. */
  lemma JoinAnswers(db: Db, entries: Entries, id: Id, e: Id, t: Id, u: Id, now: Time)
    ensures Waitlist.Join(db, entries, id, e, t, u, now).Ok? <==>
              && e in db.events
              && (|| db.events[e].status == Published || db.events[e].status == SoldOut
                  || (db.events[e].status != Ended && db.events[e].organizerId == u))
              && t in db.tiers && db.tiers[t].eventId == e && db.tiers[t].status == TierSoldOut
              && (forall p | p in db.purchases :: db.purchases[p].userId == u && db.purchases[p].tierId == t ==> db.purchases[p].status != Confirmed)
              && (forall w | w in entries :: entries[w].userId == u ==> entries[w].tierId != t)
              && id !in entries
    ensures Waitlist.Join(db, entries, id, e, t, u, now).Ok? ==>
              Waitlist.Join(db, entries, id, e, t, u, now).value == entries[id := Entry(u, t, Waiting, None, None, now)]
  {
  }

  /** Which error a refused join answers. */
  lemma JoinRefuses(db: Db, entries: Entries, id: Id, e: Id, t: Id, u: Id, now: Time)
    ensures var r := Waitlist.Join(db, entries, id, e, t, u, now);
            && ((e !in db.events
                 || ((db.events[e].status == Draft || db.events[e].status == Cancelled) && db.events[e].organizerId != u)) ==> r == Err(NotFound))
            && (e in db.events && db.events[e].status == Ended ==> r == Err(Conflict))
            && (e in db.events && (db.events[e].status == Published || db.events[e].status == SoldOut) ==>
                  && (t !in db.tiers || db.tiers[t].eventId != e ==> r == Err(NotFound))
                  && (t in db.tiers && db.tiers[t].eventId == e && db.tiers[t].status == Available ==> r == Err(Conflict)))
  {
  }

  /** Leaving removes the entry of this user and tier, and only that; there must be one. */
  lemma LeaveWrites(entries: Entries, u: Id, t: Id)
    ensures Waitlist.Leave(entries, u, t).Ok? <==> exists w | w in entries :: entries[w].userId == u && entries[w].tierId == t
    ensures Waitlist.Leave(entries, u, t).Err? ==> Waitlist.Leave(entries, u, t) == Err(NotFound)
    ensures Waitlist.Leave(entries, u, t).Ok? ==>
              var after := Waitlist.Leave(entries, u, t).value;
              && (forall w :: w in after <==> w in entries && (entries[w].userId != u || entries[w].tierId != t))
              && (forall w | w in after :: after[w] == entries[w])
  {
  }

  /** Deleting or cancelling an event, or deleting a tier, clears exactly the entries of its tiers. */
  lemma ClearingSteps(w: World, s: Step)
    requires (s.op.DeleteEvent? || s.op.DeleteTier? || (s.op.CancelEvent? && s.op.clearOk)) && Answer(w, s).Ok?
    ensures forall v :: v in EntriesAfter(w, s) <==>
              v in w.entries && if s.op.DeleteTier? then w.entries[v].tierId != s.op.tierId
                                else w.entries[v].tierId !in w.db.tiers || w.db.tiers[w.entries[v].tierId].eventId != s.op.eventId
    ensures forall v | v in EntriesAfter(w, s) :: EntriesAfter(w, s)[v] == w.entries[v]
  {
  }

  // ---- offers ----

  /** The next one is waiting for the tier, and nobody waiting for it joined earlier. */
  lemma NextMeans(entries: Entries, t: Id, w: Id)
    ensures IsNext(entries, t, w) <==>
              && w in entries && entries[w].tierId == t && entries[w].status == Waiting
              && forall v | v in entries && entries[v].tierId == t && entries[v].status == Waiting :: entries[w].createdAt <= entries[v].createdAt
  {
    if w in entries && entries[w].tierId == t && entries[w].status == Waiting
       && forall v | v in entries && entries[v].tierId == t && entries[v].status == Waiting :: entries[w].createdAt <= entries[v].createdAt {
      forall v | v in entries ensures IsWaiting(entries, t, v) ==> entries[w].createdAt <= entries[v].createdAt {}
    }
  }

  /** The offer is made now and stands for 24 hours; no other entry changes. */
  lemma NotifyWrites(entries: Entries, w: Id, now: Time)
    requires w in entries
    ensures Notify(entries, w, now) ==
              entries[w := Entry(entries[w].userId, entries[w].tierId, Notified, Some(now), Some(now + 86_400_000_000_000), entries[w].createdAt)]
  {
  }

  /** A sweep turns an offer into an expired one exactly when its time has passed; nothing else changes. */
  lemma ExpireWrites(entries: Entries, now: Time)
    ensures ExpireOffers(entries, now).Keys == entries.Keys
    ensures forall w | w in entries ::
              var passed := entries[w].status == Notified && entries[w].expiresAt.Some? && entries[w].expiresAt.value < now;
              && ExpireOffers(entries, now)[w] == (if passed then entries[w].(status := Expired) else entries[w])
              && (w in DueIds(entries, now) <==> passed)
  {
  }

  /** After a sweep no offer is older than its 24 hours. */
  lemma NoOverdueOffer(w: World, s: Step, id: Id)
    requires Good(w) && w.clock <= s.now && s.op.ExpireReservations? && id in EntriesAfter(w, s)
    ensures EntriesAfter(w, s)[id].status == Notified ==>
              EntriesAfter(w, s)[id].notifiedAt.Some? && s.now <= EntriesAfter(w, s)[id].notifiedAt.value + 86_400_000_000_000
  {
    assert Dated(w.entries[id], w.clock);
  }

  // ---- tasks ----

  /** The tier's offers whose time has passed. */
  function Overdue(entries: Entries, t: Id, now: Time): set<Id> {
    set w | w in entries && entries[w].tierId == t && entries[w].status == Notified
            && entries[w].expiresAt.Some? && entries[w].expiresAt.value < now
  }

  lemma TasksAreOverdue(entries: Entries, lost: set<Id>, t: Id, now: Time)
    ensures forall i | i in DueIds(entries, now) - lost :: i in entries
    ensures TasksFor(entries, DueIds(entries, now) - lost)[t] == |Overdue(entries, t, now) - lost|
  {
    var ids := DueIds(entries, now) - lost;
    Offers.TaskCount(entries, ids, t);
    assert Offers.ForTier(entries, ids, t) == Overdue(entries, t, now) - lost;
  }

  /** A sweep queues one task for each of a tier's expired offers, except those that could not be enqueued. */
  lemma SweepQueues(w: World, s: Step, t: Id)
    requires s.op.ExpireReservations?
    ensures QueueAfter(w, s)[t] == w.queue[t] + |Overdue(w.entries, t, s.now) - s.op.lost|
  {
    TasksAreOverdue(w.entries, s.op.lost, t, s.now);
  }

  /** When every task can be enqueued, the tier's queue grows by exactly the number of its overdue offers. */
  lemma SweepQueuesAll(w: World, s: Step, t: Id)
    requires s.op.ExpireReservations? && s.op.lost == {}
    ensures QueueAfter(w, s)[t] == w.queue[t] + |Overdue(w.entries, t, s.now)|
  {
    SweepQueues(w, s, t);
    assert Overdue(w.entries, t, s.now) - {} == Overdue(w.entries, t, s.now);
  }

  /** A successful cancellation queues one task for its tier exactly when the tier was sold out, if the task can be
      enqueued; a refused one queues none. */
  lemma CancelQueues(w: World, s: Step)
    requires s.op.CancelPurchase?
    ensures var ok := Purchases.Cancel(w.db, s.op.purchaseId, s.op.userId, s.now).Ok?;
            && (ok ==> s.op.purchaseId in w.db.purchases && w.db.purchases[s.op.purchaseId].tierId in w.db.tiers)
            && (ok && s.op.enqueued && w.db.tiers[w.db.purchases[s.op.purchaseId].tierId].status == TierSoldOut ==>
                  QueueAfter(w, s) == w.queue + multiset{w.db.purchases[s.op.purchaseId].tierId})
            && (!ok || !s.op.enqueued || w.db.tiers[w.db.purchases[s.op.purchaseId].tierId].status == Available ==>
                  QueueAfter(w, s) == w.queue)
  {
  }

  /** A task that is run leaves the queue, unless it promoted somebody, the mail failed and it is retried. */
  lemma PromoteQueues(w: World, s: Step)
    requires s.op.Promote? && s.op.tierId in w.queue
    requires AnyWaiting(w.entries, s.op.tierId) ==> IsNext(w.entries, s.op.tierId, s.op.pick)
    ensures QueueAfter(w, s) ==
              if AnyWaiting(w.entries, s.op.tierId) && !s.op.mailed && s.op.retried then w.queue else w.queue - multiset{s.op.tierId}
    ensures EntriesAfter(w, s) ==
              if AnyWaiting(w.entries, s.op.tierId) then Notify(w.entries, s.op.pick, s.now) else w.entries
  {
    if !AnyWaiting(w.entries, s.op.tierId) { assert !IsWaiting(w.entries, s.op.tierId, s.op.pick); }
  }

  /** No other step touches the queue. */
  lemma OtherStepsQueueNothing(w: World, s: Step)
    requires !s.op.CancelPurchase? && !s.op.Promote? && !s.op.ExpireReservations?
    ensures QueueAfter(w, s) == w.queue
  {
  }

  // ---- one entry per user and tier, over runs ----

  ghost predicate OnePerPair(entries: Entries) {
    forall v, w | v in entries && w in entries && v != w ::
      entries[v].userId != entries[w].userId || entries[v].tierId != entries[w].tierId
  }

  lemma FewerPairs(entries: Entries, after: Entries)
    requires OnePerPair(entries)
    requires forall w | w in after :: w in entries && after[w].userId == entries[w].userId && after[w].tierId == entries[w].tierId
    ensures OnePerPair(after)
  {
  }

  lemma StepKeepsPairs(w: World, s: Step)
    requires OnePerPair(w.entries)
    ensures OnePerPair(EntriesAfter(w, s))
  {
    match s.op
    case Join(id, e, t, u) => JoinAnswers(w.db, w.entries, id, e, t, u, s.now);
    case _ => FewerPairs(w.entries, EntriesAfter(w, s));
  }

  /** Nobody is ever twice on the list of a tier. */
  lemma {:induction false} RunKeepsPairs(w: World, run: seq<Step>)
    requires OnePerPair(w.entries)
    ensures OnePerPair(Run(w, run).entries)
    decreases |run|
  {
    if run != [] {
      StepKeepsPairs(w, run[0]);
      RunKeepsPairs(Next(w, run[0]), run[1..]);
    }
  }
}
