/** Serializability: whatever the schedule, the committed tables are those of running the committed transactions
    one after another in commit order, each accepted by its serial operation; only which live events are marked
    sold out is left open. */
module Replay {
  import opened Basics
  import opened Model
  import opened Interleaving
  import opened Isolation
  import Purchases
  import Tickets

  /** The transactions a schedule commits, in commit order. */
  function Log(s: Sys, moves: seq<Move>): seq<nat>
    requires Runs(s, moves)
    decreases |moves|
  {
    if moves == [] then []
    else
      var i := moves[0].tx;
      (if Commits(s.txs[i]) then [i] else []) + Log(Step(s, i, moves[0].pick), moves[1..])
  }

  predicate InRange(log: seq<nat>, n: nat) {
    forall j | 0 <= j < |log| :: log[j] < n
  }

  /** Running the logged transactions one after another, sold-out events read as published. */
  function Serially(db: Db, txs: seq<Tx>, log: seq<nat>): Result<Db, Error>
    requires InRange(log, |txs|)
    decreases |log|
  {
    if log == [] then Ok(db)
    else match Serial(db, txs[log[0]])
         case Ok(next) => Serially(Opened(next), txs, log[1..])
         case Err(e) => Err(e)
  }

  lemma {:induction false} LogInRange(s: Sys, moves: seq<Move>)
    requires Runs(s, moves)
    ensures InRange(Log(s, moves), |s.txs|)
    decreases |moves|
  {
    if moves != [] { LogInRange(Step(s, moves[0].tx, moves[0].pick), moves[1..]); }
  }

  /** Only the requests matter, not the program points. */
  lemma {:induction false} SameRequests(db: Db, a: seq<Tx>, b: seq<Tx>, log: seq<nat>)
    requires |a| == |b| && (forall i | 0 <= i < |a| :: SameRequest(a[i], b[i])) && InRange(log, |a|)
    ensures Serially(db, a, log) == Serially(db, b, log)
    decreases |log|
  {
    if log != [] {
      SameSerial(db, a[log[0]], b[log[0]]);
      match Serial(db, a[log[0]])
      case Ok(next) => SameRequests(Opened(next), a, b, log[1..]);
      case Err(_) =>
    }
  }

  // ---- one commit ----

  lemma SaleIsSerial(a: Db, b: Db, tx: Tx)
    requires IsSale(a, b, tx)
    ensures Serial(Opened(a), tx).Ok? && Opened(Serial(Opened(a), tx).value) == Opened(b)
  {
    assert Opened(Purchases.Sell(Opened(a), tx.id, tx.userId, tx.tierId, tx.quantity, tx.ticketIds)).events == Opened(b).events;
  }

  lemma RefundIsSerial(a: Db, b: Db, tx: Tx)
    requires IsRefund(a, b, tx)
    ensures Serial(Opened(a), tx).Ok? && Opened(Serial(Opened(a), tx).value) == Opened(b)
  {
    assert Serial(Opened(a), tx) == Ok(Purchases.Refund(Opened(a), tx.id));
    assert Opened(Purchases.Refund(Opened(a), tx.id)).events == Opened(b).events;
  }

  lemma ScanIsSerial(a: Db, b: Db, tx: Tx)
    requires IsScan(a, b, tx)
    ensures Serial(Opened(a), tx).Ok? && Opened(Serial(Opened(a), tx).value) == Opened(b)
  {
    assert Opened(Serial(Opened(a), tx).value).events == Opened(b).events;
  }

  /** A commit is the serial operation; any other statement changes no table. */
  lemma CommitIsSerial(s: Sys, i: nat, pick: Id)
    requires Safe(s) && i < |s.txs|
    ensures if Commits(s.txs[i])
            then Serial(Opened(s.db), s.txs[i]).Ok?
                 && Opened(Serial(Opened(s.db), s.txs[i]).value) == Opened(Step(s, i, pick).db)
            else Step(s, i, pick).db == s.db
  {
    var tx := s.txs[i];
    assert Knows(s.db, tx);
    if Commits(tx) {
      match tx
      case Buying(_, _, _, _, _, _) => SaleCommits(s.db, tx); SaleIsSerial(s.db, Committed(s.db, tx), tx);
      case Cancelling(_, _, _, _) => RefundCommits(s.db, tx); RefundIsSerial(s.db, Committed(s.db, tx), tx);
      case Scanning(_, _, _, _) => ScanCommits(s.db, tx); ScanIsSerial(s.db, Committed(s.db, tx), tx);
    }
  }

  // ---- whole schedules ----

  lemma StepCrowd(s: Sys, i: nat, pick: Id)
    requires i < |s.txs|
    ensures forall j | 0 <= j < |s.txs| :: SameRequest(s.txs[j], Step(s, i, pick).txs[j])
  {
  }

  lemma RunFirst(a: Db, b: Db, txs: seq<Tx>, i: nat, log: seq<nat>)
    requires i < |txs| && InRange(log, |txs|)
    requires Serial(a, txs[i]).Ok? && Opened(Serial(a, txs[i]).value) == b
    ensures InRange([i] + log, |txs|) && Serially(a, txs, [i] + log) == Serially(b, txs, log)
  {
    assert ([i] + log)[0] == i && ([i] + log)[1..] == log;
  }

  /** One statement, then the rest. */
  lemma StepSerially(s: Sys, i: nat, pick: Id, log: seq<nat>)
    requires Safe(s) && i < |s.txs| && InRange(log, |s.txs|)
    ensures var next := Step(s, i, pick);
            var all := (if Commits(s.txs[i]) then [i] else []) + log;
            InRange(all, |s.txs|) && Serially(Opened(s.db), s.txs, all) == Serially(Opened(next.db), next.txs, log)
  {
    var next := Step(s, i, pick);
    StepCrowd(s, i, pick);
    SameRequests(Opened(next.db), s.txs, next.txs, log);
    CommitIsSerial(s, i, pick);
    if Commits(s.txs[i]) { RunFirst(Opened(s.db), Opened(next.db), s.txs, i, log); } else { assert [] + log == log; }
  }

  /** The committed tables are those of the committed transactions run one after another, none refused. */
  lemma {:induction false} Serializable(s: Sys, moves: seq<Move>)
    requires Safe(s) && Runs(s, moves)
    ensures InRange(Log(s, moves), |s.txs|)
    ensures Serially(Opened(s.db), s.txs, Log(s, moves)) == Ok(Opened(Exec(s, moves).db))
    decreases |moves|
  {
    if moves != [] {
      var i, pick := moves[0].tx, moves[0].pick;
      StepKeepsSafe(s, i, pick);
      Serializable(Step(s, i, pick), moves[1..]);
      StepSerially(s, i, pick, Log(Step(s, i, pick), moves[1..]));
    }
  }

  function Bit(tx: Tx): nat {
    if HasCommitted(tx) then 1 else 0
  }

  lemma AdvanceBit(db: Db, tx: Tx, pick: Id)
    requires !Over(tx)
    ensures Bit(tx) == 0 && Bit(Advance(db, tx, pick)) == if Commits(tx) then 1 else 0
  {
  }

  /** The log has every transaction the schedule committed, once. */
  lemma {:induction false} LoggedOnce(s: Sys, moves: seq<Move>, i: nat)
    requires Runs(s, moves) && i < |s.txs|
    ensures |Exec(s, moves).txs| == |s.txs|
    ensures multiset(Log(s, moves))[i] == Bit(Exec(s, moves).txs[i]) - Bit(s.txs[i])
    decreases |moves|
  {
    if moves != [] {
      var j, pick := moves[0].tx, moves[0].pick;
      var next := Step(s, j, pick);
      AdvanceBit(s.db, s.txs[j], pick);
      LoggedOnce(next, moves[1..], i);
    }
  }

  // ---- tickets ----

  lemma SellForward(db: Db, tx: Tx, k: Id)
    requires tx.Buying? && tx.sale.CommitSale? && SaleKnows(db, tx) && k in db.tickets
    ensures Tickets.Forward(db, Committed(db, tx), k)
  {
    assert k !in tx.ticketIds;
  }

  lemma RefundForward(db: Db, tx: Tx, k: Id)
    requires tx.Cancelling? && k in db.tickets
    ensures Tickets.Forward(db, Committed(db, tx), k)
  {
  }

  lemma ScanForward(db: Db, tx: Tx, k: Id)
    requires tx.Scanning? && ScanKnows(db, tx) && k in db.tickets
    ensures Tickets.Forward(db, Committed(db, tx), k)
  {
  }

  lemma StepForward(s: Sys, i: nat, pick: Id, k: Id)
    requires i < |s.txs| && Knows(s.db, s.txs[i]) && k in s.db.tickets
    ensures Tickets.Forward(s.db, Step(s, i, pick).db, k)
  {
    match s.txs[i]
    case Buying(_, _, _, _, _, at) => if at.CommitSale? { SellForward(s.db, s.txs[i], k); }
    case Cancelling(_, _, _, _) => RefundForward(s.db, s.txs[i], k);
    case Scanning(_, _, _, _) => ScanForward(s.db, s.txs[i], k);
  }

  /** Over any schedule a ticket only moves from unused to used to cancelled. */
  lemma {:induction false} TicketsGoForward(s: Sys, moves: seq<Move>, k: Id)
    requires Safe(s) && Runs(s, moves) && k in s.db.tickets
    ensures Tickets.Forward(s.db, Exec(s, moves).db, k)
    decreases |moves|
  {
    if moves != [] {
      StepKeepsSafe(s, moves[0].tx, moves[0].pick);
      assert Knows(s.db, s.txs[moves[0].tx]);
      StepForward(s, moves[0].tx, moves[0].pick, k);
      TicketsGoForward(Step(s, moves[0].tx, moves[0].pick), moves[1..], k);
    }
  }
}
