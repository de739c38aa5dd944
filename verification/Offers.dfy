/** Waitlist offers over runs: nobody is overtaken, nobody is offered a place twice or loses it early, and
    there are never more offers out than places freed. */
module Offers {
  import opened Basics
  import opened Waitlist
  import opened System
  import opened Reachable

  /** Whoever joined a tier's waitlist before someone who was notified has been notified too, and no later. */
  lemma NobodyOvertaken(w: World, first: Id, other: Id)
    requires Good(w) && first in w.entries && other in w.entries
    requires w.entries[first].tierId == w.entries[other].tierId && w.entries[first].createdAt < w.entries[other].createdAt
    requires w.entries[other].status != Waiting
    ensures w.entries[first].status != Waiting
    ensures w.entries[first].notifiedAt.Some? && w.entries[other].notifiedAt.Some?
    ensures w.entries[first].notifiedAt.value <= w.entries[other].notifiedAt.value
  {
    assert InTurn(w.entries[other], w.entries[first]) && InTurn(w.entries[first], w.entries[other]);
    assert Dated(w.entries[other], w.clock) && Dated(w.entries[first], w.clock);
  }

  // ---- one offer per row, for a whole day ----

  /** Until a new row draws the same id, an entry that was notified keeps its offer's dates, and can only
      have expired after the day was over. */
  ghost predicate OfferKept(a: Entry, b: Entry) {
    b.notifiedAt == a.notifiedAt && b.expiresAt == a.expiresAt && b.status != Waiting
  }

  lemma OfferStep(w: World, s: Step, id: Id)
    requires Orderly(w.entries, w.clock) && id in w.entries && w.entries[id].status != Waiting
    requires id in EntriesAfter(w, s)
    ensures OfferKept(w.entries[id], EntriesAfter(w, s)[id])
    ensures EntriesAfter(w, s)[id].status == Expired && w.entries[id].status == Notified ==>
              w.entries[id].notifiedAt.value + OFFER < s.now
  {
    assert Dated(w.entries[id], w.clock);
  }

  ghost predicate NeverJoins(run: seq<Step>, id: Id) {
    forall s | s in run :: !(s.op.Join? && s.op.entryId == id)
  }

  lemma AbsentStep(w: World, s: Step, id: Id)
    requires id !in w.entries && !(s.op.Join? && s.op.entryId == id)
    ensures id !in EntriesAfter(w, s)
  {
  }

  lemma {:induction false} AbsentStays(w: World, run: seq<Step>, id: Id)
    requires id !in w.entries && NeverJoins(run, id)
    ensures id !in Run(w, run).entries
    decreases |run|
  {
    if run != [] {
      AbsentStep(w, run[0], id);
      AbsentStays(Next(w, run[0]), run[1..], id);
    }
  }

  lemma {:induction false} OfferedOnce(w: World, run: seq<Step>, id: Id, t: Id)
    requires Good(w) && Timely(w, run) && id in w.entries && w.entries[id].status != Waiting && NeverJoins(run, id)
    ensures !IsNext(Run(w, run).entries, t, id)
    ensures id in Run(w, run).entries ==> OfferKept(w.entries[id], Run(w, run).entries[id])
    decreases |run|
  {
    if run != [] {
      var next := Next(w, run[0]);
      StepKeeps(w, run[0]);
      if id in next.entries {
        OfferStep(w, run[0], id);
        OfferedOnce(next, run[1..], id, t);
      } else {
        AbsentStays(next, run[1..], id);
      }
    }
  }

  // ---- offers against freed places ----

  /** The tier's offers that stand, and those a queued task may still make. */
  function Standing(entries: Entries, t: Id): set<Id> {
    set w | w in entries && entries[w].tierId == t && entries[w].status == Notified
  }

  ghost function Outstanding(w: World, t: Id): nat {
    |Standing(w.entries, t)| + w.queue[t]
  }

  /** A cancellation that frees a place of the tier while it is sold out. */
  ghost predicate FreesTier(w: World, s: Step, t: Id) {
    Frees(w, s) && s.op.purchaseId in w.db.purchases && w.db.purchases[s.op.purchaseId].tierId == t
  }

  /** A promotion whose mail failed and which the task queue will run again. */
  ghost predicate Repeats(w: World, s: Step, t: Id) {
    s.op.Promote? && s.op.tierId == t && Promotes(w, t, s.op.pick) && !s.op.mailed && s.op.retried
  }

  ghost function Freed(w: World, run: seq<Step>, t: Id): nat
    decreases |run|
  {
    if run == [] then 0 else (if FreesTier(w, run[0], t) then 1 else 0) + Freed(Next(w, run[0]), run[1..], t)
  }

  ghost function Repeated(w: World, run: seq<Step>, t: Id): nat
    decreases |run|
  {
    if run == [] then 0 else (if Repeats(w, run[0], t) then 1 else 0) + Repeated(Next(w, run[0]), run[1..], t)
  }

  function ForTier(entries: Entries, ids: set<Id>, t: Id): set<Id> {
    set i | i in ids && i in entries && entries[i].tierId == t
  }

  lemma {:induction false} TaskCount(entries: Entries, ids: set<Id>, t: Id)
    requires forall i | i in ids :: i in entries
    ensures TasksFor(entries, ids)[t] == |ForTier(entries, ids, t)|
    decreases |ids|
  {
    var mine := ForTier(entries, ids, t);
    if ids == {} {
      assert mine == {};
    } else {
      var i :| i in ids && TasksFor(entries, ids) == TasksFor(entries, ids - {i}) + multiset{entries[i].tierId};
      TaskCount(entries, ids - {i}, t);
      var rest := ForTier(entries, ids - {i}, t);
      assert mine == if entries[i].tierId == t then rest + {i} else rest;
    }
  }

  /** Every offer that expires makes room for at most one task. */
  lemma ExpiryTrades(entries: Entries, now: Time, lost: set<Id>, t: Id)
    ensures |Standing(ExpireOffers(entries, now), t)| + TasksFor(entries, DueIds(entries, now) - lost)[t] <= |Standing(entries, t)|
  {
    var ids := DueIds(entries, now) - lost;
    TaskCount(entries, ids, t);
    var mine := ForTier(entries, ids, t);
    var left := Standing(ExpireOffers(entries, now), t);
    assert left !! mine;
    SubsetCount(left + mine, Standing(entries, t));
  }

  lemma NotifyTrades(entries: Entries, tier: Id, pick: Id, now: Time, t: Id)
    requires IsNext(entries, tier, pick)
    ensures |Standing(Notify(entries, pick, now), t)| == |Standing(entries, t)| + (if tier == t then 1 else 0)
  {
    var after := Standing(Notify(entries, pick, now), t);
    assert after == if tier == t then Standing(entries, t) + {pick} else Standing(entries, t);
  }

  /** Steps that neither notify nor expire anyone can only lose offers. */
  lemma OtherEntries(w: World, s: Step, t: Id)
    requires !s.op.Promote? && !s.op.ExpireReservations?
    ensures |Standing(EntriesAfter(w, s), t)| <= |Standing(w.entries, t)|
  {
    SubsetCount(Standing(EntriesAfter(w, s), t), Standing(w.entries, t));
  }

  lemma PromoteStep(w: World, s: Step, t: Id)
    requires s.op.Promote?
    ensures Outstanding(Next(w, s), t) <= Outstanding(w, t) + (if Repeats(w, s, t) then 1 else 0)
  {
    if Promotes(w, s.op.tierId, s.op.pick) { NotifyTrades(w.entries, s.op.tierId, s.op.pick, s.now, t); }
  }

  lemma ExpireStep(w: World, s: Step, t: Id)
    requires s.op.ExpireReservations?
    ensures Outstanding(Next(w, s), t) <= Outstanding(w, t)
  {
    ExpiryTrades(w.entries, s.now, s.op.lost, t);
  }

  lemma OtherStep(w: World, s: Step, t: Id)
    requires !s.op.Promote? && !s.op.ExpireReservations?
    ensures Outstanding(Next(w, s), t) <= Outstanding(w, t) + (if FreesTier(w, s, t) then 1 else 0)
  {
    OtherEntries(w, s, t);
  }

  lemma OffersStep(w: World, s: Step, t: Id)
    ensures Outstanding(Next(w, s), t) <= Outstanding(w, t) + (if FreesTier(w, s, t) then 1 else 0) + (if Repeats(w, s, t) then 1 else 0)
  {
    if s.op.Promote? { PromoteStep(w, s, t); }
    else if s.op.ExpireReservations? { ExpireStep(w, s, t); }
    else { OtherStep(w, s, t); }
  }

  /** Over any run, the offers that stand for a tier never outnumber the cancellations made while it was sold
      out, counting what was outstanding before and every promotion repeated because its mail failed. */
  lemma {:induction false} OffersConserved(w: World, run: seq<Step>, t: Id)
    ensures |Standing(Run(w, run).entries, t)| <= Outstanding(Run(w, run), t)
    ensures Outstanding(Run(w, run), t) <= Outstanding(w, t) + Freed(w, run, t) + Repeated(w, run, t)
    decreases |run|
  {
    if run != [] {
      OffersStep(w, run[0], t);
      OffersConserved(Next(w, run[0]), run[1..], t);
    }
  }

  /** From the empty system, when every mail goes out: at most one standing offer per freed place. */
  lemma OnePlacePerOffer(clock: Time, run: seq<Step>, t: Id)
    requires Repeated(Empty(clock), run, t) == 0
    ensures |Standing(Run(Empty(clock), run).entries, t)| <= Freed(Empty(clock), run, t)
  {
    OffersConserved(Empty(clock), run, t);
    assert Standing(Empty(clock).entries, t) == {};
  }
}
