/** Interleaved transactions never block each other for good: rows are locked in the order purchase,
    tickets, tier, event, so some transaction can always run on, and no schedule goes on for ever. */
module Progress {
  import opened Basics
  import opened Model
  import opened Interleaving
  import opened Isolation
  import Purchases

  // ---- no deadlock ----

  /** How far up the lock order the next statement waits; a scan waits holding nothing, a cancellation may
      hold other tickets of its purchase. */
  function Level(db: Db, tx: Tx, pick: Id): nat {
    if Wanted(db, tx, pick).None? then 5
    else match tx
         case Buying(_, _, _, _, _, at) => if at.LockTier? then 3 else 4
         case Cancelling(_, _, _, at) => if at.LockPurchase? then 0 else if at.FlipTickets? then 2 else if at.RestoreStock? then 3 else 4
         case Scanning(_, _, _, _) => 1
  }

  /** Whoever holds the row a transaction waits for is unfinished, and waits for something higher up or for nothing. */
  lemma HolderIsHigher(db: Db, a: Tx, pick: Id, b: Tx, pick': Id)
    requires Knows(db, a) && Knows(db, b) && Held(a) !! Held(b) && PickFits(db, a, pick)
    requires Wanted(db, a, pick).Some? && Wanted(db, a, pick).value in Held(b)
    ensures !Over(b) && Level(db, a, pick) < Level(db, b, pick')
  {
  }

  lemma SomePickFits(db: Db, tx: Tx) returns (pick: Id)
    requires Knows(db, tx)
    ensures PickFits(db, tx, pick)
  {
    pick := 0;
    if !PickFits(db, tx, 0) {
      var all, done := TicketsOf(db.tickets, tx.id), tx.cancel.flipped;
      assert all == done + (all - done);
      pick :| pick in all - done;
    }
  }

  lemma {:induction false} Unblocked(s: Sys, i: nat, pick: Id) returns (move: Move)
    requires Safe(s) && i < |s.txs| && !Over(s.txs[i]) && PickFits(s.db, s.txs[i], pick)
    ensures Enabled(s, move.tx, move.pick)
    decreases 5 - Level(s.db, s.txs[i], pick)
  {
    if Enabled(s, i, pick) { return Move(i, pick); }
    var j :| 0 <= j < |s.txs| && j != i && Wanted(s.db, s.txs[i], pick).value in Held(s.txs[j]);
    assert Knows(s.db, s.txs[i]) && Knows(s.db, s.txs[j]) && Compatible(s.txs[i], s.txs[j]);
    var pick' := SomePickFits(s.db, s.txs[j]);
    HolderIsHigher(s.db, s.txs[i], pick, s.txs[j], pick');
    move := Unblocked(s, j, pick');
  }

  /** While any transaction is unfinished, some transaction can run its next statement. */
  lemma NoDeadlock(s: Sys, i: nat) returns (move: Move)
    requires Safe(s) && i < |s.txs| && !Over(s.txs[i])
    ensures Enabled(s, move.tx, move.pick)
  {
    assert Knows(s.db, s.txs[i]);
    var pick := SomePickFits(s.db, s.txs[i]);
    move := Unblocked(s, i, pick);
  }

  // ---- no endless schedule ----

  /** Statements left, a statement over all tickets counted once. */
  function Left(tx: Tx): nat {
    match tx
    case Buying(_, _, _, _, _, at) =>
      (match at
       case LockTier => 8 case LoadRules(_) => 7 case TakeStock(_) => 6 case InsertPurchase(_, _) => 5
       case InsertTickets(_, _) => 4 case CheckStock(_, _) => 3 case SellOutEvent(_, _) => 2
       case CommitSale(_, _, _) => 1 case SaleOver(_) => 0)
    case Cancelling(_, _, _, at) =>
      (match at
       case LockPurchase => 7 case LoadTerms(_) => 6 case FlipPurchase(_) => 5 case FlipTickets(_, _) => 4
       case RestoreStock(_, _) => 3 case ReopenEvent(_, _, _) => 2 case CommitCancel(_, _, _, _) => 1 case CancelOver(_) => 0)
    case Scanning(_, _, _, at) =>
      (match at case LockTicket => 3 case FlipTicket(_) => 2 case CommitScan(_) => 1 case ScanOver(_) => 0)
  }

  /** Work left, with room for flipping up to `most` tickets one by one. */
  function Work(tx: Tx, most: nat): int {
    Left(tx) +
    if !tx.Cancelling? then 0
    else if tx.cancel.FlipTickets? then most - |tx.cancel.flipped|
    else if Left(tx) > 4 then most
    else 0
  }

  function TotalWork(txs: seq<Tx>, most: nat): int {
    if txs == [] then 0 else Work(txs[0], most) + TotalWork(txs[1..], most)
  }

  lemma {:induction false} WorkWrite(txs: seq<Tx>, i: nat, tx: Tx, most: nat)
    requires i < |txs|
    ensures TotalWork(txs[i := tx], most) == TotalWork(txs, most) - Work(txs[i], most) + Work(tx, most)
  {
    if i == 0 {
      assert txs[0 := tx][1..] == txs[1..];
    } else {
      assert txs[i := tx][1..] == txs[1..][i - 1 := tx];
      WorkWrite(txs[1..], i - 1, tx, most);
    }
  }

  /** The tickets there are, and those the unfinished purchases may still add. */
  function Coming(tx: Tx): nat {
    if tx.Buying? && !Over(tx) then |tx.ticketIds| else 0
  }

  function AllComing(txs: seq<Tx>): nat {
    if txs == [] then 0 else Coming(txs[0]) + AllComing(txs[1..])
  }

  lemma {:induction false} ComingWrite(txs: seq<Tx>, i: nat, tx: Tx)
    requires i < |txs|
    ensures AllComing(txs[i := tx]) == AllComing(txs) - Coming(txs[i]) + Coming(tx)
  {
    if i == 0 {
      assert txs[0 := tx][1..] == txs[1..];
    } else {
      assert txs[i := tx][1..] == txs[1..][i - 1 := tx];
      ComingWrite(txs[1..], i - 1, tx);
    }
  }

  function Room(s: Sys): nat {
    |s.db.tickets| + AllComing(s.txs)
  }

  lemma {:induction false} FewElements(s: seq<Id>)
    ensures |Elements(s)| <= |s|
  {
    if s != [] {
      FewElements(s[..|s| - 1]);
      assert Elements(s) == Elements(s[..|s| - 1]) + {s[|s| - 1]};
    }
  }

  lemma MintedCount(tickets: map<Id, Ticket>, p: Id, t: Id, ks: seq<Id>)
    ensures |tickets + Purchases.Minted(p, t, ks)| <= |tickets| + |ks|
  {
    FewElements(ks);
    var after := tickets + Purchases.Minted(p, t, ks);
    assert after.Keys == tickets.Keys + Elements(ks);
    assert |after.Keys| <= |tickets.Keys| + |Elements(ks)|;
  }

  lemma StepRoom(s: Sys, i: nat, pick: Id)
    requires i < |s.txs| && Knows(s.db, s.txs[i])
    ensures Room(Step(s, i, pick)) <= Room(s)
  {
    var tx := s.txs[i];
    ComingWrite(s.txs, i, Advance(s.db, tx, pick));
    match tx
    case Buying(p, _, t, _, ks, _) => MintedCount(s.db.tickets, p, t, ks);
    case Cancelling(_, _, _, at) => assert Committed(s.db, tx).tickets.Keys == s.db.tickets.Keys;
    case Scanning(k, _, _, at) =>
      if at.CommitScan? { assert Committed(s.db, tx).tickets.Keys == s.db.tickets.Keys; }
  }

  lemma WorkShrinks(db: Db, tx: Tx, pick: Id, most: nat)
    requires Knows(db, tx) && !Over(tx) && PickFits(db, tx, pick)
    requires tx.Cancelling? && tx.cancel.FlipTickets? ==> |tx.cancel.flipped| <= most
    ensures Work(Advance(db, tx, pick), most) < Work(tx, most)
  {
    match tx
    case Buying(_, _, _, _, _, at) =>
    case Cancelling(_, _, _, at) =>
    case Scanning(_, _, _, at) =>
  }

  lemma StepWorks(s: Sys, i: nat, pick: Id, most: nat)
    requires i < |s.txs| && Knows(s.db, s.txs[i]) && Enabled(s, i, pick) && Room(s) <= most
    ensures TotalWork(Step(s, i, pick).txs, most) < TotalWork(s.txs, most)
  {
    var tx := s.txs[i];
    if tx.Cancelling? && tx.cancel.FlipTickets? { FlippedFit(s, i); }
    WorkShrinks(s.db, tx, pick, most);
    WorkWrite(s.txs, i, Advance(s.db, tx, pick), most);
  }

  lemma FlippedFit(s: Sys, i: nat)
    requires i < |s.txs| && Knows(s.db, s.txs[i]) && s.txs[i].Cancelling? && s.txs[i].cancel.FlipTickets?
    ensures |s.txs[i].cancel.flipped| <= Room(s)
  {
    SubsetCount(s.txs[i].cancel.flipped, s.db.tickets.Keys);
  }

  lemma {:induction false} WorkIsLeft(s: Sys, n: nat, most: nat)
    requires Safe(s) && Room(s) <= most && n <= |s.txs|
    ensures TotalWork(s.txs[n..], most) >= 0
    decreases |s.txs| - n
  {
    if n < |s.txs| {
      assert Knows(s.db, s.txs[n]);
      if s.txs[n].Cancelling? && s.txs[n].cancel.FlipTickets? { FlippedFit(s, n); }
      assert s.txs[n..][0] == s.txs[n] && s.txs[n..][1..] == s.txs[n + 1..];
      WorkIsLeft(s, n + 1, most);
    }
  }

  /** No schedule has more steps than the work there was at its start. */
  lemma {:induction false} SchedulesEnd(s: Sys, moves: seq<Move>, most: nat)
    requires Safe(s) && Runs(s, moves) && Room(s) <= most
    ensures |moves| <= TotalWork(s.txs, most)
    decreases |moves|
  {
    if moves == [] {
      WorkIsLeft(s, 0, most);
      assert s.txs[0..] == s.txs;
    } else {
      var i, pick := moves[0].tx, moves[0].pick;
      assert Knows(s.db, s.txs[i]);
      StepRoom(s, i, pick);
      StepWorks(s, i, pick, most);
      StepKeepsSafe(s, i, pick);
      SchedulesEnd(Step(s, i, pick), moves[1..], most);
    }
  }

  /** From every state some schedule, whatever came before, finishes every transaction. */
  lemma {:induction false} AllFinish(s: Sys, most: nat) returns (moves: seq<Move>)
    requires Safe(s) && Room(s) <= most
    ensures Runs(s, moves) && |Exec(s, moves).txs| == |s.txs|
    ensures forall tx | tx in Exec(s, moves).txs :: Over(tx)
    decreases TotalWork(s.txs, most) + 1
  {
    if i :| 0 <= i < |s.txs| && !Over(s.txs[i]) {
      var move := NoDeadlock(s, i);
      assert Knows(s.db, s.txs[move.tx]);
      WorkIsLeft(s, 0, most);
      assert s.txs[0..] == s.txs;
      StepRoom(s, move.tx, move.pick);
      StepWorks(s, move.tx, move.pick, most);
      StepKeepsSafe(s, move.tx, move.pick);
      var rest := AllFinish(Step(s, move.tx, move.pick), most);
      moves := [move] + rest;
      assert moves[0] == move && moves[1..] == rest;
    } else {
      moves := [];
    }
  }
}
