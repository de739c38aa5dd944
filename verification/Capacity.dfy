/** The capacity of an event against the sum of its tier quantities. */
module Capacity {
  import opened Basics
  import opened Sums
  import opened Model
  import opened System
  import opened Reachable
  import opened Changes
  import Events
  import Inventory
  import L = Lifecycle

  ghost predicate Within(db: Db, e: Id) {
    e in db.events && db.events[e].capacity.Some? ==> TierTotal(db.tiers, e) <= db.events[e].capacity.value
  }

  ghost predicate AllWithin(db: Db) {
    forall e | e in db.events :: Within(db, e)
  }

  /** An accepted update that sets the capacity below what the tiers already offer. */
  ghost predicate Undercuts(w: World, s: Step) {
    && s.op.UpdateEvent? && Events.Accepts(w.db, s.op.eventId, s.op.patch) && s.op.patch.capacity.Some?
    && s.op.patch.capacity.value < TierTotal(w.db.tiers, s.op.eventId)
  }

  lemma TotalWrite(tiers: map<Id, Tier>, t: Id, row: Tier, e: Id)
    ensures var was := if t in tiers && tiers[t].eventId == e then tiers[t].quantity else 0;
            var becomes := if row.eventId == e then row.quantity else 0;
            TierTotal(tiers[t := row], e) == TierTotal(tiers, e) - was + becomes
  {
    var before, after := TierQuantities(tiers, e), TierQuantities(tiers[t := row], e);
    var rest := before - {t};
    assert after - {t} == rest;
    if t in before { SumRemove(before, t); } else { assert rest == before; }
    if t in after { SumRemove(after, t); } else { assert rest == after; }
  }

  lemma TotalDrop(tiers: map<Id, Tier>, doomed: set<Id>, e: Id)
    requires forall t | t in tiers :: tiers[t].quantity > 0
    ensures TierTotal(tiers - doomed, e) <= TierTotal(tiers, e)
  {
    var all := TierQuantities(tiers, e);
    SumSplit(all, doomed);
    SumBounds(Among(all, doomed), 0);
    assert all - doomed == TierQuantities(tiers - doomed, e);
  }

  lemma TotalNone(tiers: map<Id, Tier>, e: Id)
    requires forall t | t in tiers :: tiers[t].eventId != e
    ensures TierTotal(tiers, e) == 0
  {
    assert TierQuantities(tiers, e) == map[];
  }

  /** Tables with the same tiers in the same events at the same quantities have the same totals. */
  lemma TotalSame(a: map<Id, Tier>, b: map<Id, Tier>, e: Id)
    requires a.Keys == b.Keys && forall t | t in a :: a[t].eventId == b[t].eventId && a[t].quantity == b[t].quantity
    ensures TierTotal(a, e) == TierTotal(b, e)
  {
    assert TierQuantities(a, e) == TierQuantities(b, e);
  }

  ghost predicate SameOffer(a: map<Id, Tier>, b: map<Id, Tier>) {
    a.Keys == b.Keys && forall t | t in a :: a[t].eventId == b[t].eventId && a[t].quantity == b[t].quantity
  }

  /** Steps other than the four that manage tiers leave every offer as it is. */
  lemma OfferStep(w: World, s: Step)
    requires !(s.op.CreateTier? || s.op.UpdateTier? || s.op.DeleteTier? || s.op.DeleteEvent?)
    ensures SameOffer(w.db.tiers, DbAfter(w, s).tiers)
  {
  }

  /** One tier row written: the total moves with its quantity, and the handler checked it. */
  lemma TierWriteStaysWithin(w: World, s: Step, e: Id)
    requires AllWithin(w.db) && Answer(w, s).Ok? && (s.op.CreateTier? || s.op.UpdateTier?)
    requires e in w.db.events && e in DbAfter(w, s).events && DbAfter(w, s).events[e].capacity == w.db.events[e].capacity
    ensures Within(DbAfter(w, s), e)
  {
    assert Within(w.db, e);
    TotalWrite(w.db.tiers, s.op.tierId, DbAfter(w, s).tiers[s.op.tierId], e);
  }

  lemma TierDropStaysWithin(db: Db, after: Db, doomed: set<Id>, e: Id)
    requires Within(db, e) && e in db.events && e in after.events && after.events[e] == db.events[e]
    requires after.tiers == db.tiers - doomed && Inventory.RowsChecked(db)
    ensures Within(after, e)
  {
    TotalDrop(db.tiers, doomed, e);
  }

  lemma TierOpsStayWithin(w: World, s: Step, e: Id)
    requires L.Inv(w.db) && AllWithin(w.db) && Answer(w, s).Ok?
    requires s.op.CreateTier? || s.op.UpdateTier? || s.op.DeleteTier? || s.op.DeleteEvent?
    requires e in DbAfter(w, s).events
    ensures Within(DbAfter(w, s), e)
  {
    EventTouched(w, s, e);
    assert Within(w.db, e);
    match s.op
    case CreateTier(_, _, _, _) => TierWriteStaysWithin(w, s, e);
    case UpdateTier(_, _, _, _, _) => TierWriteStaysWithin(w, s, e);
    case DeleteTier(x, t) => L.DeleteTierKeeps(w.db, x, t); TierDropStaysWithin(w.db, DbAfter(w, s), {t}, e);
    case DeleteEvent(x) =>
      L.DeleteEventKeeps(w.db, x);
      TierDropStaysWithin(w.db, DbAfter(w, s), Events.TiersOf(w.db.tiers, x), e);
  }

  lemma EventTouched(w: World, s: Step, e: Id)
    requires s.op.CreateTier? || s.op.UpdateTier? || s.op.DeleteTier? || s.op.DeleteEvent?
    requires e in DbAfter(w, s).events
    ensures e in w.db.events && DbAfter(w, s).events[e].capacity == w.db.events[e].capacity
  {
  }

  /** A capacity is only ever changed by an update that sets it. */
  lemma CapacityStep(w: World, s: Step, e: Id)
    requires e in w.db.events && e in DbAfter(w, s).events
    ensures DbAfter(w, s).events[e].capacity == w.db.events[e].capacity
         || (s.op.UpdateEvent? && s.op.eventId == e && Answer(w, s).Ok? && DbAfter(w, s).events[e].capacity == s.op.patch.capacity)
  {
    EventTouch(w, s, e);
  }

  lemma NewEventCapacity(w: World, s: Step, e: Id)
    requires e !in w.db.events && e in DbAfter(w, s).events
    ensures EventChecks(DbAfter(w, s).events[e])
  {
    NewEventRow(w, s, e);
  }

  lemma OtherOpsStayWithin(w: World, s: Step, e: Id)
    requires Inventory.Linked(w.db) && AllWithin(w.db) && !Undercuts(w, s)
    requires SameOffer(w.db.tiers, DbAfter(w, s).tiers)
    requires e in DbAfter(w, s).events
    ensures Within(DbAfter(w, s), e)
  {
    TotalSame(w.db.tiers, DbAfter(w, s).tiers, e);
    if e in w.db.events {
      assert Within(w.db, e);
      CapacityStep(w, s, e);
    } else {
      TotalNone(w.db.tiers, e);
      NewEventCapacity(w, s, e);
    }
  }

  /** Tier totals leave the capacity in exactly one way: an update of the event sets it below them. */
  lemma StaysWithinIff(w: World, s: Step)
    requires L.Inv(w.db) && AllWithin(w.db)
    ensures AllWithin(DbAfter(w, s)) <==> !Undercuts(w, s)
  {
    if s.op.UpdateEvent? { Events.AcceptsIff(w.db, s.op.eventId, s.op.patch, s.now); }
    if Undercuts(w, s) {
      assert !Within(DbAfter(w, s), s.op.eventId);
    } else {
      forall e | e in DbAfter(w, s).events ensures Within(DbAfter(w, s), e) {
        if Answer(w, s).Err? { assert Within(w.db, e); }
        else if s.op.CreateTier? || s.op.UpdateTier? || s.op.DeleteTier? || s.op.DeleteEvent? { TierOpsStayWithin(w, s, e); }
        else { OfferStep(w, s); OtherOpsStayWithin(w, s, e); }
      }
    }
  }

  ghost predicate NeverUndercuts(w: World, run: seq<Step>)
    decreases |run|
  {
    run != [] ==> !Undercuts(w, run[0]) && NeverUndercuts(Next(w, run[0]), run[1..])
  }

  lemma {:induction false} RunStaysWithin(w: World, run: seq<Step>)
    requires Good(w) && Timely(w, run) && AllWithin(w.db) && NeverUndercuts(w, run)
    ensures AllWithin(Run(w, run).db)
    decreases |run|
  {
    if run != [] {
      StepKeeps(w, run[0]);
      StaysWithinIff(w, run[0]);
      RunStaysWithin(Next(w, run[0]), run[1..]);
    }
  }

  function NoPatch(): Events.Patch {
    Events.Patch(false, None, None, None, None, None, None, None)
  }

  /** A draft with capacity 10 and one tier of 10. */
  function FullDraft(): Db {
    Db(map[7 := Event(0, Draft, 1, 2, Some(10), true, 0, 10, None)], map[8 := Tier(7, 0, 10, 10, Available)], map[], map[])
  }

  lemma FullDraftIsSound()
    ensures L.Inv(FullDraft()) && AllWithin(FullDraft()) && TierTotal(FullDraft().tiers, 7) == 10 && EventSold(FullDraft(), 7) == 0
  {
    var db := FullDraft();
    TotalNone(map[], 7);
    TotalWrite(map[], 8, db.tiers[8], 7);
    assert map[][8 := db.tiers[8]] == db.tiers;
    SoldNothing(db.purchases, 8);
    assert Inventory.TierConserved(db, 8);
    assert EventUnits(db, 7) == map[];
  }

  /** The design promises that tier totals never exceed the capacity. Updating that draft to capacity 1 is
      accepted, and breaks the promise. */
  lemma CapacityCanBeUndercut()
    ensures var w := World(FullDraft(), map[], multiset{}, 0);
            var s := Step(UpdateEvent(7, NoPatch().(capacity := Some(1))), 0);
            Good(w) && AllWithin(w.db) && Answer(w, s).Ok? && !AllWithin(DbAfter(w, s))
  {
    var w := World(FullDraft(), map[], multiset{}, 0);
    FullDraftIsSound();
    StaysWithinIff(w, Step(UpdateEvent(7, NoPatch().(capacity := Some(1))), 0));
  }
}
