/** What holds in every state a run of the whole system reaches. */
module Reachable {
  import opened Basics
  import opened Model
  import opened Waitlist
  import opened System
  import opened Changes
  import Purchases
  import L = Lifecycle

  /** An event ended after its end, and no stamp lies in the future. */
  ghost predicate Clocked(db: Db, clock: Time) {
    forall e | e in db.events ::
      && (db.events[e].status == Ended ==> db.events[e].endsAt < clock)
      && (db.events[e].materialChangedAt.Some? ==> db.events[e].materialChangedAt.value <= clock)
  }

  /** The times of one waitlist row agree with its status. */
  ghost predicate Dated(e: Entry, clock: Time) {
    && e.createdAt <= clock
    && (e.status == Waiting <==> e.notifiedAt.None?)
    && (e.notifiedAt.Some? ==>
          && e.createdAt <= e.notifiedAt.value <= clock
          && e.expiresAt == Some(e.notifiedAt.value + OFFER)
          && (e.status == Expired ==> e.notifiedAt.value + OFFER < clock))
  }

  /** Offers go out in join order: whoever was notified joined no later than anyone of the tier still
      waiting, and of two notified entries the earlier one was notified first. */
  ghost predicate InTurn(a: Entry, b: Entry) {
    a.tierId == b.tierId ==>
      && (a.status != Waiting && b.status == Waiting ==> a.createdAt <= b.createdAt)
      && (a.notifiedAt.Some? && b.notifiedAt.Some? && a.createdAt < b.createdAt ==> a.notifiedAt.value <= b.notifiedAt.value)
  }

  ghost predicate Orderly(entries: Entries, clock: Time) {
    && (forall w | w in entries :: Dated(entries[w], clock))
    && (forall v, w | v in entries && w in entries :: InTurn(entries[v], entries[w]))
  }

  ghost predicate Good(w: World) {
    L.Inv(w.db) && Clocked(w.db, w.clock) && Orderly(w.entries, w.clock)
  }

  lemma StartsGood(clock: Time)
    ensures Good(Empty(clock))
  {
  }

  lemma BuyKeeps(db: Db, p: Id, u: Id, t: Id, units: int, draw: nat -> Id)
    requires L.Inv(db) && Purchases.Buy(db, p, u, t, units, draw).Ok?
    ensures var after := Purchases.Buy(db, p, u, t, units, draw).value; L.Inv(after) && L.Moves(db, after)
  {
    L.CreateKeeps(db, p, u, t, units, Purchases.Drawn(units, draw));
  }

  lemma DbKeeps(w: World, s: Step)
    requires L.Inv(w.db)
    ensures L.Inv(DbAfter(w, s)) && L.Moves(w.db, DbAfter(w, s))
  {
    var db := w.db;
    if Answer(w, s).Ok? {
      match s.op
      case CreateEvent(e, p) => L.CreateEventKeeps(db, e, p);
      case UpdateEvent(e, p) => L.UpdateEventKeeps(db, e, p, s.now);
      case DeleteEvent(e) => L.DeleteEventKeeps(db, e);
      case PublishEvent(e) => L.PublishEventKeeps(db, e);
      case CancelEvent(e, bulkOk, _) => L.CancelEventKeeps(db, e, bulkOk);
      case CreateTier(e, t, price, quantity) => L.CreateTierKeeps(db, t, e, price, quantity);
      case UpdateTier(e, t, price, quantity, flipOk) => L.UpdateTierKeeps(db, e, t, price, quantity, flipOk);
      case DeleteTier(e, t) => L.DeleteTierKeeps(db, e, t);
      case Buy(p, u, t, units, draw) => BuyKeeps(db, p, u, t, units, draw);
      case CancelPurchase(p, u, _) => L.CancelKeeps(db, p, u, s.now);
      case CheckIn(e, ticket) => L.CheckInKeeps(db, ticket.value, e, s.now);
      case EndExpired => L.EndAllExpiredKeeps(db, s.now);
      case _ =>
    }
  }

  lemma ClockKeeps(w: World, s: Step)
    requires Clocked(w.db, w.clock) && w.clock <= s.now
    ensures Clocked(DbAfter(w, s), s.now)
  {
    forall e | e in DbAfter(w, s).events
      ensures DbAfter(w, s).events[e].status == Ended ==> DbAfter(w, s).events[e].endsAt < s.now
      ensures var stamp := DbAfter(w, s).events[e].materialChangedAt; stamp.Some? ==> stamp.value <= s.now
    {
      if e in w.db.events { EventTouch(w, s, e); } else { NewEventRow(w, s, e); }
    }
  }

  lemma NotifyOrderly(entries: Entries, t: Id, pick: Id, clock: Time, now: Time)
    requires Orderly(entries, clock) && clock <= now && IsNext(entries, t, pick)
    ensures Orderly(Notify(entries, pick, now), now)
  {
  }

  lemma JoinOrderly(entries: Entries, id: Id, u: Id, t: Id, clock: Time, now: Time)
    requires Orderly(entries, clock) && clock <= now && id !in entries
    ensures Orderly(entries[id := Entry(u, t, Waiting, None, None, now)], now)
  {
  }

  /** Dropping rows and letting due offers expire cannot break the order. */
  lemma FewerOrderly(entries: Entries, after: Entries, clock: Time, now: Time)
    requires Orderly(entries, clock) && clock <= now
    requires forall w | w in after ::
          && w in entries
          && (after[w] == entries[w] || (Due(entries[w], now) && after[w] == entries[w].(status := Expired)))
    ensures Orderly(after, now)
  {
    forall v, w | v in after && w in after ensures InTurn(after[v], after[w]) {
      assert InTurn(entries[v], entries[w]);
    }
  }

  lemma EntriesKeep(w: World, s: Step)
    requires Orderly(w.entries, w.clock) && w.clock <= s.now
    ensures Orderly(EntriesAfter(w, s), s.now)
  {
    match s.op
    case Join(id, e, t, u) =>
      if Waitlist.Join(w.db, w.entries, id, e, t, u, s.now).Ok? { JoinOrderly(w.entries, id, u, t, w.clock, s.now); }
      else { FewerOrderly(w.entries, EntriesAfter(w, s), w.clock, s.now); }
    case Promote(t, pick, _, _) =>
      if Promotes(w, t, pick) { NotifyOrderly(w.entries, t, pick, w.clock, s.now); }
      else { FewerOrderly(w.entries, EntriesAfter(w, s), w.clock, s.now); }
    case _ => FewerOrderly(w.entries, EntriesAfter(w, s), w.clock, s.now);
  }

  lemma StepKeeps(w: World, s: Step)
    requires Good(w) && w.clock <= s.now
    ensures Good(Next(w, s))
  {
    DbKeeps(w, s);
    ClockKeeps(w, s);
    EntriesKeep(w, s);
  }

  /** Conservation, status agreement, tickets in step, clean drafts and the waitlist order hold in every
      state of every run. */
  lemma {:induction false} RunKeeps(w: World, run: seq<Step>)
    requires Good(w) && Timely(w, run)
    ensures Good(Run(w, run))
    decreases |run|
  {
    if run != [] {
      StepKeeps(w, run[0]);
      RunKeeps(Next(w, run[0]), run[1..]);
    }
  }
}
