/** The router and the worker mux: every request and every task goes to its handler, one at a time. Whatever
    comes in, the program makes a run of the system model, so what is proved of runs holds of the program. */
module Server {
  import opened Basics
  import opened App
  import S = System
  import R = Reachable
  import Door
  import Events
  import Qr

  datatype Request =
    | CreateEvent(eventId: Id, event: Events.NewEvent)
    | UpdateEvent(eventId: Id, patch: Events.Patch)
    | DeleteEvent(eventId: Id)
    | PublishEvent(eventId: Id)
    | CancelEvent(eventId: Id, bulkOk: bool, clearOk: bool)
    | CreateTier(eventId: Id, tierId: Id, price: Option<int>, quantity: Option<int>)
    | UpdateTier(eventId: Id, tierId: Id, price: Option<int>, quantity: Option<int>, flipOk: bool)
    | DeleteTier(eventId: Id, tierId: Id)
    | CreatePurchase(purchaseId: Id, userId: Id, tierId: Id, units: int, draw: nat -> Id)
    | CancelPurchase(purchaseId: Id, userId: Id, enqueued: bool)
    | CheckIn(eventId: Id, token: string)
    | JoinWaitlist(entryId: Id, eventId: Id, tierId: Id, userId: Id)
    | LeaveWaitlist(userId: Id, tierId: Id)
    | EndExpiredEvents
    | ExpireReservations(lost: set<Id>)
    | NotifyNextWaiting(tierId: Id, mailed: bool, retried: bool)

  /** The step a request makes; `pick` is the entry a promotion found. */
  function OpOf(r: Request, mac: Qr.Mac, secret: string, pick: Id): S.Op {
    match r
    case CreateEvent(e, p) => S.CreateEvent(e, p)
    case UpdateEvent(e, p) => S.UpdateEvent(e, p)
    case DeleteEvent(e) => S.DeleteEvent(e)
    case PublishEvent(e) => S.PublishEvent(e)
    case CancelEvent(e, bulkOk, clearOk) => S.CancelEvent(e, bulkOk, clearOk)
    case CreateTier(e, t, price, quantity) => S.CreateTier(e, t, price, quantity)
    case UpdateTier(e, t, price, quantity, flipOk) => S.UpdateTier(e, t, price, quantity, flipOk)
    case DeleteTier(e, t) => S.DeleteTier(e, t)
    case CreatePurchase(p, u, t, units, draw) => S.Buy(p, u, t, units, draw)
    case CancelPurchase(p, u, enqueued) => S.CancelPurchase(p, u, enqueued)
    case CheckIn(e, token) => S.CheckIn(e, Door.Named(mac, token, secret))
    case JoinWaitlist(id, e, t, u) => S.Join(id, e, t, u)
    case LeaveWaitlist(u, t) => S.Leave(u, t)
    case EndExpiredEvents => S.EndExpired
    case ExpireReservations(lost) => S.ExpireReservations(lost)
    case NotifyNextWaiting(t, mailed, retried) => S.Promote(t, pick, mailed, retried)
  }

  /** A task that is not queued is not run. */
  lemma NoTask(w: S.World, t: Id, mailed: bool, retried: bool, now: Time)
    requires t !in w.queue && w.clock == now
    ensures S.Next(w, S.Step(S.Promote(t, 0, mailed, retried), now)) == w
  {
  }

  method HandleTask(service: Service, t: Id, mailed: bool, retried: bool, now: Time) returns (ghost pick: Id)
    modifies service, service.store
    ensures service.State(now) == S.Next(old(service.State(now)), S.Step(S.Promote(t, pick, mailed, retried), now))
  {
    pick := 0;
    if t in service.queue {
      var picked := service.HandleNotifyNextWaiting(t, mailed, retried, now);
      pick := if picked.Some? then picked.value else 0;
    } else {
      NoTask(service.State(now), t, mailed, retried, now);
    }
  }

  method HandleOrganizer(service: Service, r: Request, now: Time)
    requires r.CreateEvent? || r.UpdateEvent? || r.DeleteEvent? || r.PublishEvent? || r.CancelEvent?
          || r.CreateTier? || r.UpdateTier? || r.DeleteTier?
    modifies service, service.store
    ensures service.State(now) == S.Next(old(service.State(now)), S.Step(OpOf(r, service.mac, service.secret, 0), now))
  {
    match r
    case CreateEvent(e, p) => var _ := service.CreateEvent(e, p, now);
    case UpdateEvent(e, p) => var _, _ := service.UpdateEvent(e, p, now);
    case DeleteEvent(e) => var _ := service.DeleteEvent(e, now);
    case PublishEvent(e) => var _ := service.PublishEvent(e, now);
    case CancelEvent(e, bulkOk, clearOk) => var _ := service.CancelEvent(e, bulkOk, clearOk, now);
    case CreateTier(e, t, price, quantity) => var _ := service.CreateTier(e, t, price, quantity, now);
    case UpdateTier(e, t, price, quantity, flipOk) => var _ := service.UpdateTier(e, t, price, quantity, flipOk, now);
    case DeleteTier(e, t) => var _ := service.DeleteTier(e, t, now);
  }

  method HandleAttendee(service: Service, r: Request, now: Time)
    requires r.CreatePurchase? || r.CancelPurchase? || r.CheckIn? || r.JoinWaitlist? || r.LeaveWaitlist?
    modifies service, service.store
    ensures service.State(now) == S.Next(old(service.State(now)), S.Step(OpOf(r, service.mac, service.secret, 0), now))
  {
    match r
    case CreatePurchase(p, u, t, units, draw) => var _ := service.CreatePurchase(p, u, t, units, draw, now);
    case CancelPurchase(p, u, enqueued) => var _ := service.CancelPurchase(p, u, enqueued, now);
    case CheckIn(e, token) => var _ := service.CheckIn(e, token, now);
    case JoinWaitlist(id, e, t, u) => var _ := service.JoinWaitlist(id, e, t, u, now);
    case LeaveWaitlist(u, t) => var _ := service.LeaveWaitlist(u, t, now);
  }

  method Handle(service: Service, r: Request, now: Time) returns (ghost pick: Id)
    modifies service, service.store
    ensures service.State(now) == S.Next(old(service.State(now)), S.Step(OpOf(r, service.mac, service.secret, pick), now))
  {
    pick := 0;
    match r
    case CreatePurchase(_, _, _, _, _) => HandleAttendee(service, r, now);
    case CancelPurchase(_, _, _) => HandleAttendee(service, r, now);
    case CheckIn(_, _) => HandleAttendee(service, r, now);
    case JoinWaitlist(_, _, _, _) => HandleAttendee(service, r, now);
    case LeaveWaitlist(_, _) => HandleAttendee(service, r, now);
    case EndExpiredEvents => service.HandleEndExpiredEvents(now);
    case ExpireReservations(lost) => service.HandleExpireWaitlistReservations(lost, now);
    case NotifyNextWaiting(t, mailed, retried) => pick := HandleTask(service, t, mailed, retried, now);
    case _ => HandleOrganizer(service, r, now);
  }

  // ---- any number of requests ----

  datatype Call = Call(request: Request, now: Time)

  /** The clock does not go back between calls. */
  predicate InOrder(calls: seq<Call>, clock: Time)
    decreases |calls|
  {
    calls != [] ==> clock <= calls[0].now && InOrder(calls[1..], calls[0].now)
  }

  function LastTime(calls: seq<Call>, clock: Time): Time {
    if calls == [] then clock else calls[|calls| - 1].now
  }

  lemma AnswerIgnoresClock(w: S.World, v: S.World, s: S.Step)
    requires v == w.(clock := v.clock)
    ensures S.Answer(v, s) == S.Answer(w, s)
  {
  }

  lemma EntriesIgnoreClock(w: S.World, v: S.World, s: S.Step)
    requires v == w.(clock := v.clock) && S.Answer(v, s) == S.Answer(w, s)
    ensures S.EntriesAfter(v, s) == S.EntriesAfter(w, s)
  {
  }

  lemma QueueIgnoresClock(w: S.World, v: S.World, s: S.Step)
    requires v == w.(clock := v.clock) && S.Answer(v, s) == S.Answer(w, s)
    ensures S.QueueAfter(v, s) == S.QueueAfter(w, s)
  {
  }

  /** A step looks at its own time, not at the clock before it. */
  lemma ClockIsOverwritten(w: S.World, v: S.World, s: S.Step)
    requires v == w.(clock := v.clock)
    ensures S.Next(v, s) == S.Next(w, s)
  {
    AnswerIgnoresClock(w, v, s);
    EntriesIgnoreClock(w, v, s);
    QueueIgnoresClock(w, v, s);
  }

  lemma {:induction false} RunOneMore(w: S.World, run: seq<S.Step>, s: S.Step)
    ensures S.Run(w, run + [s]) == S.Next(S.Run(w, run), s)
    ensures S.Timely(w, run) && S.Run(w, run).clock <= s.now ==> S.Timely(w, run + [s])
    decreases |run|
  {
    if run == [] {
      assert run + [s] == [s] && [s][1..] == [];
    } else {
      assert (run + [s])[0] == run[0] && (run + [s])[1..] == run[1..] + [s];
      RunOneMore(S.Next(w, run[0]), run[1..], s);
    }
  }

  lemma {:induction false} OrderedAt(calls: seq<Call>, clock: Time, i: nat)
    requires InOrder(calls, clock) && i < |calls|
    ensures LastTime(calls[..i], clock) <= calls[i].now
    decreases i
  {
    if i > 0 {
      OrderedAt(calls[1..], calls[0].now, i - 1);
      assert calls[..i][1..] == calls[1..][..i - 1];
    }
  }

  /** The step is the one the call names; a promotion's is about some entry it found. */
  ghost predicate Makes(c: Call, s: S.Step, mac: Qr.Mac, secret: string) {
    exists pick :: s == S.Step(OpOf(c.request, mac, secret, pick), c.now)
  }

  ghost predicate MadeBy(run: seq<S.Step>, calls: seq<Call>, mac: Qr.Mac, secret: string) {
    |run| == |calls| && forall i | 0 <= i < |calls| :: Makes(calls[i], run[i], mac, secret)
  }

  lemma MadeOneMore(run: seq<S.Step>, calls: seq<Call>, s: S.Step, c: Call, mac: Qr.Mac, secret: string)
    requires MadeBy(run, calls, mac, secret) && Makes(c, s, mac, secret)
    ensures MadeBy(run + [s], calls + [c], mac, secret)
  {
  }

  /** After the calls, the program is where the run they make leads. */
  ghost predicate Served(start: S.World, run: seq<S.Step>, calls: seq<Call>, now: S.World, mac: Qr.Mac, secret: string) {
    MadeBy(run, calls, mac, secret) && S.Timely(start, run) && S.Run(start, run) == now
  }

  lemma ServedOneMore(start: S.World, run: seq<S.Step>, calls: seq<Call>, before: S.World, s: S.Step, c: Call, mac: Qr.Mac, secret: string)
    requires Served(start, run, calls, before, mac, secret) && before.clock <= c.now && s.now == c.now && Makes(c, s, mac, secret)
    ensures Served(start, run + [s], calls + [c], S.Next(before.(clock := c.now), s), mac, secret)
  {
    ClockIsOverwritten(before, before.(clock := c.now), s);
    RunOneMore(start, run, s);
    MadeOneMore(run, calls, s, c, mac, secret);
  }

  /** Any sequence of requests and tasks drives the program through a run of the system model made of exactly the
      steps they name, and keeps everything that holds in reachable states. */
  method Serve(service: Service, calls: seq<Call>, clock: Time) returns (ghost run: seq<S.Step>)
    requires R.Good(service.State(clock)) && InOrder(calls, clock)
    modifies service, service.store
    ensures Served(old(service.State(clock)), run, calls, service.State(LastTime(calls, clock)), service.mac, service.secret)
    ensures R.Good(service.State(LastTime(calls, clock)))
  {
    ghost var start := service.State(clock);
    run := [];
    var at := clock;
    for i := 0 to |calls|
      invariant at == LastTime(calls[..i], clock)
      invariant Served(start, run, calls[..i], service.State(at), service.mac, service.secret)
    {
      OrderedAt(calls, clock, i);
      ghost var before := service.State(at);
      var c := calls[i];
      ghost var pick := Handle(service, c.request, c.now);
      ghost var step := S.Step(OpOf(c.request, service.mac, service.secret, pick), c.now);
      ServedOneMore(start, run, calls[..i], before, step, c, service.mac, service.secret);
      assert calls[..i + 1] == calls[..i] + [c];
      run := run + [step];
      at := c.now;
    }
    assert calls[..|calls|] == calls;
    R.RunKeeps(start, run);
  }
}
