/** The buyers' right to cancel, over runs: what a material change opens stays open for its 72 hours, and
    what has closed stays closed unless a material change lands. */
module Grace {
  import opened Basics
  import opened Model
  import opened System
  import opened Reachable
  import opened Changes
  import opened Purchases
  import Inventory
  import Events
  import L = Lifecycle

  /** The step is an update of the event that lands a material change on it while it is live. */
  ghost predicate Lands(w: World, s: Step, e: Id) {
    && s.op.UpdateEvent? && s.op.eventId == e && Events.Material(s.op.patch) && Answer(w, s).Ok?
    && e in w.db.events && Live(w.db.events[e].status)
  }

  ghost predicate StampedSince(db: Db, e: Id, t: Time) {
    && e in db.events && db.events[e].status != Draft
    && db.events[e].materialChangedAt.Some? && t <= db.events[e].materialChangedAt.value
  }

  lemma LandingStamps(w: World, s: Step, e: Id)
    requires Lands(w, s, e)
    ensures StampedSince(DbAfter(w, s), e, s.now)
  {
  }

  lemma StampStep(w: World, s: Step, e: Id, t: Time)
    requires L.Inv(w.db) && StampedSince(w.db, e, t) && t <= s.now
    ensures StampedSince(DbAfter(w, s), e, t)
  {
    DbKeeps(w, s);
    EventTouch(w, s, e);
  }

  /** The stamp never moves back. */
  lemma {:induction false} StampHolds(w: World, run: seq<Step>, e: Id, t: Time)
    requires Good(w) && Timely(w, run) && StampedSince(w.db, e, t) && t <= w.clock
    ensures StampedSince(Run(w, run).db, e, t)
    decreases |run|
  {
    if run != [] {
      StepKeeps(w, run[0]);
      StampStep(w, run[0], e, t);
      StampHolds(Next(w, run[0]), run[1..], e, t);
    }
  }

  lemma SucceedsIff(db: Db, p: Id, u: Id, now: Time)
    requires Inventory.Linked(db)
    requires Inventory.CanRefund(db, p) ==> TierChecks(Restock(db.tiers[db.purchases[p].tierId], db.purchases[p].quantity))
    ensures Cancel(db, p, u, now).Ok? <==>
              && p in db.purchases && db.purchases[p].userId == u && db.purchases[p].status == Confirmed
              && Refusal(db.events[db.tiers[db.purchases[p].tierId].eventId], now) == None
  {
  }

  /** A cancellation succeeds exactly when the owner asks for a confirmed purchase and no policy refuses. */
  lemma CancelSucceedsIff(db: Db, p: Id, u: Id, now: Time)
    requires L.Inv(db)
    ensures Cancel(db, p, u, now).Ok? <==>
              && p in db.purchases && db.purchases[p].userId == u && db.purchases[p].status == Confirmed
              && Refusal(db.events[db.tiers[db.purchases[p].tierId].eventId], now) == None
  {
    if p in db.purchases && db.purchases[p].status == Confirmed { Inventory.RestockFits(db, p); }
    SucceedsIff(db, p, u, now);
  }

  lemma GraceAdmits(db: Db, p: Id, e: Id, t: Time, now: Time)
    requires L.Inv(db) && StampedSince(db, e, t) && now < t + GRACE
    requires p in db.purchases && PurchaseOf(db.tiers, db.purchases[p], e) && db.purchases[p].status == Confirmed
    requires db.events[e].cancellationAllowed && now < db.events[e].startsAt
    ensures Cancel(db, p, db.purchases[p].userId, now).Ok?
  {
    CancelSucceedsIff(db, p, db.purchases[p].userId, now);
  }

  /** After a material change lands, every purchase of the event that is still confirmed can be cancelled
      for 72 hours, whatever runs in between, while the event allows it and has not started. */
  lemma GraceLasts(w: World, s: Step, run: seq<Step>, e: Id, p: Id, now: Time)
    requires Good(w) && w.clock <= s.now && Lands(w, s, e) && Timely(Next(w, s), run) && now < s.now + GRACE
    requires var db := Run(Next(w, s), run).db;
             && p in db.purchases && PurchaseOf(db.tiers, db.purchases[p], e) && db.purchases[p].status == Confirmed
             && e in db.events && db.events[e].cancellationAllowed && now < db.events[e].startsAt
    ensures var db := Run(Next(w, s), run).db; Cancel(db, p, db.purchases[p].userId, now).Ok?
  {
    StepKeeps(w, s);
    LandingStamps(w, s, e);
    StampHolds(Next(w, s), run, e, s.now);
    RunKeeps(Next(w, s), run);
    GraceAdmits(Run(Next(w, s), run).db, p, e, s.now, now);
  }

  // ---- without a material change ----

  ghost predicate NothingLands(w: World, run: seq<Step>, e: Id)
    decreases |run|
  {
    run != [] ==> !Lands(w, run[0], e) && NothingLands(Next(w, run[0]), run[1..], e)
  }

  /** The fields the cancellation policy looks at. */
  predicate SameTerms(a: Event, b: Event) {
    && a.startsAt == b.startsAt && a.cancellationAllowed == b.cancellationAllowed
    && a.cancellationHours == b.cancellationHours && a.materialChangedAt == b.materialChangedAt
  }

  ghost predicate KeepsTerms(a: Db, b: Db, e: Id) {
    e in a.events && e in b.events && b.events[e].status != Draft && SameTerms(a.events[e], b.events[e])
  }

  lemma TermsStep(w: World, s: Step, e: Id)
    requires L.Inv(w.db) && e in w.db.events && w.db.events[e].status != Draft && !Lands(w, s, e)
    ensures KeepsTerms(w.db, DbAfter(w, s), e)
  {
    DbKeeps(w, s);
    EventTouch(w, s, e);
  }

  lemma {:induction false} TermsHold(w: World, run: seq<Step>, e: Id)
    requires Good(w) && Timely(w, run) && e in w.db.events && w.db.events[e].status != Draft && NothingLands(w, run, e)
    ensures KeepsTerms(w.db, Run(w, run).db, e)
    decreases |run|
  {
    if run != [] {
      StepKeeps(w, run[0]);
      TermsStep(w, run[0], e);
      TermsHold(Next(w, run[0]), run[1..], e);
    }
  }

  lemma RefusalStays(a: Event, b: Event, t: Time, later: Time)
    requires SameTerms(a, b) && t <= later && Refusal(a, t).Some?
    ensures Refusal(b, later).Some?
  {
  }

  /** A purchase row keeps its buyer and its tier, and a cancelled one stays cancelled. */
  ghost predicate Sticks(a: Db, b: Db, p: Id, e: Id) {
    && p in a.purchases && p in b.purchases && b.purchases[p].userId == a.purchases[p].userId
    && PurchaseOf(a.tiers, a.purchases[p], e) && PurchaseOf(b.tiers, b.purchases[p], e)
    && (a.purchases[p].status == PurchaseCancelled ==> b.purchases[p].status == PurchaseCancelled)
  }

  lemma SticksStep(w: World, s: Step, p: Id, e: Id)
    requires L.Inv(w.db) && p in w.db.purchases && PurchaseOf(w.db.tiers, w.db.purchases[p], e)
    ensures Sticks(w.db, DbAfter(w, s), p, e)
  {
    PurchaseTouch(w, s, p);
    TierTouch(w, s, w.db.purchases[p].tierId);
  }

  lemma {:induction false} SticksHolds(w: World, run: seq<Step>, p: Id, e: Id)
    requires Good(w) && Timely(w, run) && p in w.db.purchases && PurchaseOf(w.db.tiers, w.db.purchases[p], e)
    ensures Sticks(w.db, Run(w, run).db, p, e)
    decreases |run|
  {
    if run != [] {
      StepKeeps(w, run[0]);
      SticksStep(w, run[0], p, e);
      SticksHolds(Next(w, run[0]), run[1..], p, e);
    }
  }

  lemma RefusedAlike(a: Db, b: Db, p: Id, e: Id, u: Id, t: Time, later: Time)
    requires L.Inv(a) && L.Inv(b) && Sticks(a, b, p, e) && KeepsTerms(a, b, e) && t <= later
    requires Cancel(a, p, u, t).Err?
    ensures Cancel(b, p, u, later).Err?
  {
    CancelSucceedsIff(a, p, u, t);
    CancelSucceedsIff(b, p, u, later);
    if Refusal(a.events[e], t).Some? { RefusalStays(a.events[e], b.events[e], t, later); }
  }

  /** Unless a material change lands, a cancellation refused once is refused ever after. */
  lemma ClosedStaysClosed(w: World, run: seq<Step>, p: Id, e: Id, u: Id, t: Time, later: Time)
    requires Good(w) && Timely(w, run) && p in w.db.purchases && PurchaseOf(w.db.tiers, w.db.purchases[p], e)
    requires NothingLands(w, run, e) && t <= later && Cancel(w.db, p, u, t).Err?
    ensures Cancel(Run(w, run).db, p, u, later).Err?
  {
    SticksHolds(w, run, p, e);
    TermsHold(w, run, e);
    RunKeeps(w, run);
    RefusedAlike(w.db, Run(w, run).db, p, e, u, t, later);
  }

  /** The window closes the stated number of hours before the start exactly when the 64-bit product of
      hours and nanoseconds does not wrap. */
  lemma WindowIsExact(e: Event)
    requires 0 <= e.cancellationHours <= MAX_INT4
    ensures WindowEnd(e) == e.startsAt - e.cancellationHours * HOUR <==> e.cancellationHours <= 2_562_047
  {
    assert Wrap64(-2_562_047 * HOUR) == -2_562_047 * HOUR;
  }

  // ---- the deadline, in nanoseconds ----

  /** The cutoff is the start minus the hours before it, where the product of hours and nanoseconds is the one of
      64-bit arithmetic: off by the multiple k of 2^64 that brings it into range. */
  lemma CutoffIs(e: Event, k: int)
    requires -0x8000_0000_0000_0000 <= -e.cancellationHours * 3_600_000_000_000 + k * 0x1_0000_0000_0000_0000 < 0x8000_0000_0000_0000
    ensures WindowEnd(e) == e.startsAt - e.cancellationHours * 3_600_000_000_000 + k * 0x1_0000_0000_0000_0000
  {
    WrapIs(-e.cancellationHours * 3_600_000_000_000, k);
  }

  lemma WrapIs(n: int, k: int)
    requires -0x8000_0000_0000_0000 <= n + k * 0x1_0000_0000_0000_0000 < 0x8000_0000_0000_0000
    ensures Wrap64(n) == n + k * 0x1_0000_0000_0000_0000
  {
    var m := n + 0x8000_0000_0000_0000;
    var r := m + k * 0x1_0000_0000_0000_0000;
    assert 0 <= r < 0x1_0000_0000_0000_0000;
    if k >= 0 { ModUp(m, k); } else { ModUp(r, -k); }
  }

  lemma {:induction false} ModUp(m: int, k: nat)
    ensures (m + k * 0x1_0000_0000_0000_0000) % 0x1_0000_0000_0000_0000 == m % 0x1_0000_0000_0000_0000
    decreases k
  {
    if k > 0 {
      ModUp(m, k - 1);
      assert m + k * 0x1_0000_0000_0000_0000 == (m + (k - 1) * 0x1_0000_0000_0000_0000) + 0x1_0000_0000_0000_0000;
    }
  }

  /** A confirmed purchase can be cancelled by its owner exactly when the event has not started and allows it, and
      the cutoff has not passed or a material change is less than 72 hours old. */
  lemma CancelsUntil(db: Db, p: Id, now: Time, k: int)
    requires L.Inv(db) && p in db.purchases && db.purchases[p].status == Confirmed
    requires var e := db.events[db.tiers[db.purchases[p].tierId].eventId];
             -0x8000_0000_0000_0000 <= -e.cancellationHours * 3_600_000_000_000 + k * 0x1_0000_0000_0000_0000 < 0x8000_0000_0000_0000
    ensures var e := db.events[db.tiers[db.purchases[p].tierId].eventId];
            Cancel(db, p, db.purchases[p].userId, now).Ok? <==>
              && now < e.startsAt && e.cancellationAllowed
              && (|| now <= e.startsAt - e.cancellationHours * 3_600_000_000_000 + k * 0x1_0000_0000_0000_0000
                  || (e.materialChangedAt.Some? && now < e.materialChangedAt.value + 259_200_000_000_000))
  {
    CancelSucceedsIff(db, p, db.purchases[p].userId, now);
    CutoffIs(db.events[db.tiers[db.purchases[p].tierId].eventId], k);
  }

  /** With a cutoff of at most 2562047 hours the product is exact. */
  lemma CancelsUntilCutoff(db: Db, p: Id, u: Id, now: Time)
    requires L.Inv(db) && p in db.purchases && db.purchases[p].userId == u && db.purchases[p].status == Confirmed
    requires db.events[db.tiers[db.purchases[p].tierId].eventId].cancellationHours <= 2_562_047
    ensures var e := db.events[db.tiers[db.purchases[p].tierId].eventId];
            Cancel(db, p, u, now).Ok? <==>
              && now < e.startsAt && e.cancellationAllowed
              && (|| now <= e.startsAt - e.cancellationHours * 3_600_000_000_000
                  || (e.materialChangedAt.Some? && now < e.materialChangedAt.value + 259_200_000_000_000))
  {
    assert L.EventsChecked(db);
    CancelsUntil(db, p, now, 0);
  }
}
