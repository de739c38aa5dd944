/** The handlers and workers: each call makes exactly the step of the system model that names it. */
module App {
  import opened Basics
  import opened Model
  import opened Database
  import S = System
  import W = Waitlist
  import Purchases
  import Tickets
  import Tiers
  import Events
  import Door
  import Qr

  /** Any task may be taken out first. */
  lemma {:induction false} TasksRemove(entries: W.Entries, ids: set<Id>, i: Id)
    requires i in ids && forall j | j in ids :: j in entries
    ensures S.TasksFor(entries, ids) == S.TasksFor(entries, ids - {i}) + multiset{entries[i].tierId}
    decreases |ids|
  {
    var c :| c in ids && S.TasksFor(entries, ids) == S.TasksFor(entries, ids - {c}) + multiset{entries[c].tierId};
    if c != i {
      TasksRemove(entries, ids - {c}, i);
      TasksRemove(entries, ids - {i}, c);
      assert ids - {c} - {i} == ids - {i} - {c};
    }
  }

  lemma TasksAdd(entries: W.Entries, queue: multiset<Id>, ids: set<Id>, i: Id)
    requires i !in ids && i in entries && forall j | j in ids :: j in entries
    ensures queue + S.TasksFor(entries, ids) + multiset{entries[i].tierId} == queue + S.TasksFor(entries, ids + {i})
  {
    TasksRemove(entries, ids + {i}, i);
    assert ids + {i} - {i} == ids;
  }

  /** A promotion step, spelled out. */
  lemma PromoteIs(w: S.World, t: Id, picked: Option<Id>, mailed: bool, retried: bool, now: Time)
    requires t in w.queue && (picked.None? <==> !W.AnyWaiting(w.entries, t)) && (picked.Some? ==> W.IsNext(w.entries, t, picked.value))
    ensures var pick := if picked.Some? then picked.value else 0;
            var next := S.Next(w, S.Step(S.Promote(t, pick, mailed, retried), now));
            && next.db == w.db && next.clock == now
            && next.entries == (if picked.Some? then W.Notify(w.entries, picked.value, now) else w.entries)
            && next.queue == (if picked.None? || mailed || !retried then w.queue - multiset{t} else w.queue)
  {
  }

  class Service {
    const store: Tables
    const mac: Qr.Mac
    const secret: string
    var queue: multiset<Id>

    constructor (store: Tables, mac: Qr.Mac, secret: string)
      ensures this.store == store && this.mac == mac && this.secret == secret && queue == multiset{}
    {
      this.store := store;
      this.mac := mac;
      this.secret := secret;
      queue := multiset{};
    }

    ghost function State(clock: Time): S.World
      reads this, store
    {
      S.World(store.Rows(), store.entries, queue, clock)
    }

    // ---- purchases ----

    method CreatePurchase(id: Id, userId: Id, tierId: Id, quantity: int, draw: nat -> Id, now: Time) returns (r: Result<Purchase, Error>)
      modifies this, store
      ensures State(now) == S.Next(old(State(now)), S.Step(S.Buy(id, userId, tierId, quantity, draw), now))
      ensures match Purchases.Buy(old(store.Rows()), id, userId, tierId, quantity, draw)
              case Ok(db) => id in db.purchases && r == Ok(db.purchases[id])
              case Err(e) => r == Err(e)
    {
      if quantity < 1 { return Err(Invalid); }
      if tierId !in store.tiers { return Err(NotFound); }
      var eventId := store.tiers[tierId].eventId;
      if eventId !in store.events { return Err(NotFound); }
      if store.events[eventId].status != Published { return Err(EventNotPublished); }
      var ticketIds: seq<Id> := [];
      for i := 0 to quantity
        invariant ticketIds == Purchases.Drawn(i, draw)
      {
        ticketIds := ticketIds + [draw(i)];
      }
      r := store.Create(id, userId, tierId, quantity, ticketIds);
    }

    method CancelPurchase(id: Id, userId: Id, enqueued: bool, now: Time) returns (r: Result<Purchase, Error>)
      modifies this, store
      ensures State(now) == S.Next(old(State(now)), S.Step(S.CancelPurchase(id, userId, enqueued), now))
      ensures match Purchases.Cancel(old(store.Rows()), id, userId, now)
              case Ok(db) => id in db.purchases && r == Ok(db.purchases[id])
              case Err(e) => r == Err(e)
    {
      var wasSoldOut;
      r, wasSoldOut := store.Cancel(id, userId, now);
      if r.Ok? && wasSoldOut && enqueued { queue := queue + multiset{r.value.tierId}; }
    }

    method CheckIn(eventId: Id, token: string, now: Time) returns (r: Result<Ticket, Error>)
      modifies this, store
      ensures State(now) == S.Next(old(State(now)), S.Step(S.CheckIn(eventId, Door.Named(mac, token, secret)), now))
      ensures match Tickets.Door(old(store.Rows()), Door.Named(mac, token, secret), eventId, now)
              case Ok(db) => Door.Named(mac, token, secret).Some? && Door.Named(mac, token, secret).value in db.tickets
                             && r == Ok(db.tickets[Door.Named(mac, token, secret).value])
              case Err(e) => r == Err(e)
    {
      var ticket := Qr.VerifyToken(mac, token, secret);
      if ticket.None? { return Err(NotFound); }
      r := store.CheckIn(Door.NumberOf(ticket.value), eventId, now);
    }

    // ---- tiers ----

    method CreateTier(eventId: Id, id: Id, price: Option<int>, quantity: Option<int>, now: Time) returns (r: Result<(), Error>)
      modifies this, store
      ensures State(now) == S.Next(old(State(now)), S.Step(S.CreateTier(eventId, id, price, quantity), now))
      ensures r == Verdict(Tiers.CreateTier(old(store.Rows()), id, eventId, price, quantity))
    {
      if eventId !in store.events { return Err(NotFound); }
      var event := store.events[eventId];
      if (price.Some? && price.value < 0) || (quantity.Some? && quantity.value <= 0) { return Err(Invalid); }
      if event.status != Draft { return Err(Conflict); }
      if price.None? { return Err(Invalid); }
      if quantity.None? { return Err(Invalid); }
      if event.capacity.Some? {
        var existingTotal := store.SumQuantityByEvent(eventId);
        if existingTotal + quantity.value > event.capacity.value { return Err(Invalid); }
      }
      var tier := Tier(eventId, price.value, quantity.value, quantity.value, Available);
      if !TierChecks(tier) || id in store.tiers { return Err(Database); }
      store.tiers := store.tiers[id := tier];
      r := Ok(());
    }

    /** Merges the payload into the tier row; a quantity below the units sold or beyond the capacity is refused. */
    method MergeTier(event: Event, stored: Tier, price: Option<int>, quantity: Option<int>) returns (ok: bool, tier: Tier)
      ensures ok <==> (quantity.Some? ==>
                         && stored.quantity - stored.remaining <= quantity.value
                         && Tiers.Fits(store.Rows(), event, stored.eventId, stored.quantity, quantity.value))
      ensures ok ==> tier == Tiers.Merge(stored, price, quantity)
    {
      tier := stored;
      if price.Some? { tier := tier.(price := price.value); }
      if quantity.Some? {
        var sold := tier.quantity - tier.remaining;
        if quantity.value < sold { return false, tier; }
        if event.capacity.Some? {
          var existingTotal := store.SumQuantityByEvent(stored.eventId);
          var newTotal := existingTotal - tier.quantity + quantity.value;
          if newTotal > event.capacity.value { return false, tier; }
        }
        tier := tier.(quantity := quantity.value);
        tier := tier.(remaining := tier.quantity - sold);
        if tier.remaining > 0 { tier := tier.(status := Available); } else { tier := tier.(status := TierSoldOut); }
      }
      ok := true;
    }

    /** The tier row and the event row are written one after the other; the second write may fail. */
    method UpdateTier(eventId: Id, tierId: Id, price: Option<int>, quantity: Option<int>, flipOk: bool, now: Time)
      returns (r: Result<(), Error>)
      modifies this, store
      ensures State(now) == S.Next(old(State(now)), S.Step(S.UpdateTier(eventId, tierId, price, quantity, flipOk), now))
      ensures r == Tiers.UpdateAnswer(old(store.Rows()), eventId, tierId, price, quantity, flipOk)
    {
      if eventId !in store.events { return Err(NotFound); }
      var event := store.events[eventId];
      if event.status == Cancelled || event.status == Ended { return Err(Conflict); }
      if tierId !in store.tiers || store.tiers[tierId].eventId != eventId { return Err(NotFound); }
      if (price.Some? && price.value < 0) || (quantity.Some? && quantity.value < 1) { return Err(Invalid); }
      var ok, tier := MergeTier(event, store.tiers[tierId], price, quantity);
      if !ok { return Err(Invalid); }
      if !TierChecks(tier) { return Err(Database); }
      store.tiers := store.tiers[tierId := tier];
      if event.status == SoldOut && tier.remaining > 0 {
        if !flipOk { return Err(Database); }
        store.SetStatus(eventId, SoldOut, Published);
      }
      r := Ok(());
    }

    method DeleteTier(eventId: Id, tierId: Id, now: Time) returns (r: Result<(), Error>)
      modifies this, store
      ensures State(now) == S.Next(old(State(now)), S.Step(S.DeleteTier(eventId, tierId), now))
      ensures r == Verdict(Tiers.DeleteTier(old(store.Rows()), eventId, tierId))
    {
      if eventId !in store.events { return Err(NotFound); }
      if store.events[eventId].status != Draft { return Err(Conflict); }
      if tierId !in store.tiers || store.tiers[tierId].eventId != eventId { return Err(NotFound); }
      store.DropTiers({tierId});
      r := Ok(());
    }

    // ---- events ----

    method CreateEvent(id: Id, p: Events.NewEvent, now: Time) returns (r: Result<(), Error>)
      modifies this, store
      ensures State(now) == S.Next(old(State(now)), S.Step(S.CreateEvent(id, p), now))
      ensures r == Verdict(Events.CreateEvent(old(store.Rows()), id, p))
    {
      if (p.capacity.Some? && p.capacity.value < 1) || p.cancellationHours < 0 || (p.maxPerPurchase.Some? && p.maxPerPurchase.value < 1) {
        return Err(Invalid);
      }
      if p.endsAt <= p.startsAt { return Err(Invalid); }
      var allowed := true;
      if p.cancellationAllowed.Some? { allowed := p.cancellationAllowed.value; }
      var most := 10;
      if p.maxPerPurchase.Some? { most := p.maxPerPurchase.value; }
      var event := Event(p.organizerId, Draft, p.startsAt, p.endsAt, p.capacity, allowed, p.cancellationHours, most, None);
      if !EventChecks(event) || id in store.events { return Err(Database); }
      store.events := store.events[id := event];
      r := Ok(());
    }

    /** Merges the payload field by field, remembering whether a field buyers rely on was among them; a
        capacity below the tickets already sold is refused. */
    method MergePatch(id: Id, event: Event, p: Events.Patch) returns (ok: bool, merged: Event, changedMaterial: bool)
      ensures ok <==> !(p.capacity.Some? && p.capacity.value < EventSold(store.Rows(), id))
      ensures ok ==> merged == Events.Merge(event, p) && changedMaterial == Events.Material(p)
    {
      merged, changedMaterial := event, false;
      if p.locationGiven { changedMaterial := true; }
      if p.startsAt.Some? { changedMaterial := true; merged := merged.(startsAt := p.startsAt.value); }
      if p.endsAt.Some? { changedMaterial := true; merged := merged.(endsAt := p.endsAt.value); }
      if p.capacity.Some? {
        var sold := store.SumConfirmedQuantityByEvent(id);
        if p.capacity.value < sold { return false, merged, changedMaterial; }
        merged := merged.(capacity := p.capacity);
      }
      if p.cancellationAllowed.Some? { changedMaterial := true; merged := merged.(cancellationAllowed := p.cancellationAllowed.value); }
      if p.cancellationHours.Some? { changedMaterial := true; merged := merged.(cancellationHours := p.cancellationHours.value); }
      if p.maxPerPurchase.Some? { merged := merged.(maxPerPurchase := p.maxPerPurchase.value); }
      ok := true;
    }

    method UpdateEvent(id: Id, p: Events.Patch, now: Time) returns (r: Result<(), Error>, notified: bool)
      modifies this, store
      ensures State(now) == S.Next(old(State(now)), S.Step(S.UpdateEvent(id, p), now))
      ensures r == Verdict(Events.UpdateEvent(old(store.Rows()), id, p, now))
      ensures notified <==> r.Ok? && Events.Notifies(old(store.events)[id], p, now)
    {
      notified := false;
      if id !in store.events { return Err(NotFound), false; }
      var stored := store.events[id];
      if !Events.AtLeast(p.capacity, 1) || !Events.AtLeast(p.cancellationHours, 0) || !Events.AtLeast(p.maxPerPurchase, 1) {
        return Err(Invalid), false;
      }
      var ok, event, changedMaterial := MergePatch(id, stored, p);
      if !ok { return Err(Invalid), false; }
      if event.endsAt <= event.startsAt { return Err(Invalid), false; }
      match event.status {
        case Draft =>
        case Published | SoldOut =>
          if changedMaterial && (p.confirm.None? || !p.confirm.value) { return Err(Conflict), false; }
          if changedMaterial { event := event.(materialChangedAt := Some(now)); }
        case Cancelled | Ended => return Err(Conflict), false;
      }
      assert event == Events.Stamped(stored, p, now);
      if !EventChecks(event) { return Err(Database), false; }
      store.events := store.events[id := event];
      r, notified := Ok(()), changedMaterial && event.materialChangedAt.Some?;
    }

    method PublishEvent(id: Id, now: Time) returns (r: Result<(), Error>)
      modifies this, store
      ensures State(now) == S.Next(old(State(now)), S.Step(S.PublishEvent(id), now))
      ensures r == Verdict(Events.PublishEvent(old(store.Rows()), id))
    {
      if id !in store.events { return Err(NotFound); }
      if store.events[id].status != Draft { return Err(Conflict); }
      var count := store.CountByEvent(id);
      if count == 0 { return Err(Conflict); }
      store.SetStatus(id, Draft, Published);
      r := Ok(());
    }

    method CancelEvent(id: Id, bulkOk: bool, clearOk: bool, now: Time) returns (r: Result<(), Error>)
      modifies this, store
      ensures State(now) == S.Next(old(State(now)), S.Step(S.CancelEvent(id, bulkOk, clearOk), now))
      ensures r == Verdict(Events.CancelEvent(old(store.Rows()), id, bulkOk))
    {
      if id !in store.events { return Err(NotFound); }
      var event := store.events[id];
      if event.status != Draft && event.status != Published && event.status != SoldOut { return Err(Conflict); }
      store.events := store.events[id := event.(status := Cancelled)];
      if bulkOk { store.CancelByEvent(id); }
      if clearOk { store.entries := W.DropTiers(store.entries, Events.TiersOf(store.tiers, id)); }
      r := Ok(());
    }

    method DeleteEvent(id: Id, now: Time) returns (r: Result<(), Error>)
      modifies this, store
      ensures State(now) == S.Next(old(State(now)), S.Step(S.DeleteEvent(id), now))
      ensures r == Verdict(Events.DeleteEvent(old(store.Rows()), id))
    {
      if id !in store.events { return Err(NotFound); }
      if store.events[id].status != Draft { return Err(Conflict); }
      store.events := store.events - {id};
      store.DropTiers(Events.TiersOf(store.tiers, id));
      r := Ok(());
    }

    method HandleEndExpiredEvents(now: Time)
      modifies this, store
      ensures State(now) == S.Next(old(State(now)), S.Step(S.EndExpired, now))
    {
      var ended := store.EndAllExpired(now);
    }

    // ---- the waitlist and its worker ----

    method JoinWaitlist(entryId: Id, eventId: Id, tierId: Id, userId: Id, now: Time) returns (r: Result<(), Error>)
      modifies this, store
      ensures State(now) == S.Next(old(State(now)), S.Step(S.Join(entryId, eventId, tierId, userId), now))
      ensures match W.Join(old(store.Rows()), old(store.entries), entryId, eventId, tierId, userId, now)
              case Ok(_) => r == Ok(()) case Err(e) => r == Err(e)
    {
      if eventId !in store.events { return Err(NotFound); }
      var event := store.events[eventId];
      if !W.Visible(event, userId) { return Err(NotFound); }
      if event.status == Ended { return Err(Conflict); }
      if tierId !in store.tiers || store.tiers[tierId].eventId != eventId { return Err(NotFound); }
      if store.tiers[tierId].status != TierSoldOut { return Err(Conflict); }
      if exists p | p in store.purchases ::
           store.purchases[p].userId == userId && store.purchases[p].tierId == tierId && store.purchases[p].status == Confirmed {
        return Err(Conflict);
      }
      r := store.WaitlistCreate(entryId, userId, tierId, now);
    }

    method LeaveWaitlist(userId: Id, tierId: Id, now: Time) returns (r: Result<(), Error>)
      modifies this, store
      ensures State(now) == S.Next(old(State(now)), S.Step(S.Leave(userId, tierId), now))
      ensures match W.Leave(old(store.entries), userId, tierId) case Ok(_) => r == Ok(()) case Err(e) => r == Err(e)
    {
      r := store.DeleteByUserAndTier(userId, tierId);
    }

    /** Runs one queued task: the queue forgets it unless its mail failed and it will be retried. */
    method HandleNotifyNextWaiting(tierId: Id, mailed: bool, retried: bool, now: Time) returns (picked: Option<Id>)
      requires tierId in queue
      modifies this, store
      ensures picked.Some? <==> W.AnyWaiting(old(store.entries), tierId)
      ensures var pick := if picked.Some? then picked.value else 0;
              State(now) == S.Next(old(State(now)), S.Step(S.Promote(tierId, pick, mailed, retried), now))
    {
      picked := store.NotifyNextWaiting(tierId, now);
      if picked.None? || mailed || !retried { queue := queue - multiset{tierId}; }
      ghost var pick := if picked.Some? then picked.value else 0;
      PromoteIs(old(State(now)), tierId, picked, mailed, retried, now);
    }

    /** Enqueues one task for each expired entry, skipping those that cannot be enqueued. */
    method EnqueueReplacements(expired: set<Id>, lost: set<Id>, ghost before: W.Entries)
      requires forall i | i in expired :: i in store.entries && i in before && store.entries[i].tierId == before[i].tierId
      modifies this`queue
      ensures queue == old(queue) + S.TasksFor(before, expired - lost)
    {
      var rest := expired;
      ghost var done: set<Id> := {};
      while rest != {}
        invariant rest <= expired && done <= expired && forall i | i in expired :: i in done <==> i !in lost && i !in rest
        invariant queue == old(queue) + S.TasksFor(before, done)
        decreases |rest|
      {
        var w :| w in rest;
        if w !in lost {
          TasksAdd(before, old(queue), done, w);
          queue := queue + multiset{store.entries[w].tierId};
          done := done + {w};
        }
        rest := rest - {w};
      }
      assert done == expired - lost;
    }

    method HandleExpireWaitlistReservations(lost: set<Id>, now: Time)
      modifies this, store
      ensures State(now) == S.Next(old(State(now)), S.Step(S.ExpireReservations(lost), now))
    {
      ghost var before := store.entries;
      var expired := store.ExpireReservations(now);
      EnqueueReplacements(expired, lost, before);
    }
  }
}
