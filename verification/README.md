# Gater, verified

Gater sells tickets: organizers publish events with priced tiers of limited stock, buyers purchase and cancel,
tickets carry a signed QR token that is scanned at the door once, and a waitlist hands freed places on. This project
models the part of it where rows of several tables must stay in step, and proves what that part is for.

How the pieces fit together:

- `Model` has the rows; `Purchases`, `Tickets`, `Tiers`, `Events` and `Waitlist` say what each transaction or handler
  answers and commits, branch by branch, as functions of the tables.
- `Database.Tables` and `App.Service` are the program in its own form: the tables and the task queue are fields, the
  store's transactions and the handlers and workers are methods that update them in place. Every method is proved equal
  to its function, and every handler to exactly one step of `System`.
- `Effects` and `Places` write out what every operation answers and stores, column by column and in plain numbers,
  without the functions the model is made of.
- `System` is the whole machine (tables, waitlist, task queue, clock). `Inventory`, `Lifecycle`, `Changes` and
  `Reachable` prove its invariant for every run; `History`, `Grace`, `Capacity`, `Stock`, `Undo` and `Offers` prove what
  runs can and cannot do. `Server` proves that the program, whatever requests and tasks reach its handlers, makes runs
  of that machine.
- `Interleaving` cuts purchases, cancellations and scans at their SQL statements, with row locks held to the commit and
  reads of the last committed row (READ COMMITTED). `Alone` proves that the statements, uninterrupted, are the serial
  operations; `Isolation` and `Replay` that any number of transactions in flight commit what the serial operations,
  run one after another in commit order, would accept and leave behind, except for which events on sale are marked
  sold out; `Progress` that none is stuck for good. `StatusRace` says exactly which commits get that mark wrong, in
  either direction, and `Schedules` has an instance of each.
- `Paging` follows the cursors of the public listing over tables that change between pages.
- `Base64`, `Text`, `Qr`, `Cursor` and `Password` are the codecs: ticket tokens, page cursors and Argon2id hash strings.
  `Door` joins the tokens to the ticket rows.

Where the code and its documentation disagree, the model follows the code. PLAN.md:87 says the tier quantities can
never exceed the capacity: `updateEvent` compares a new capacity with the tickets sold, not with the tier totals, so
they can. `Capacity.StaysWithinIff` says exactly when they do, and `Capacity.CapacityCanBeUndercut` gives an instance.

The status of an event on sale is meant to follow its stock. Resizing a tier breaks this in two ways. Shrinking the
last tier with stock to what it sold leaves the event published with nothing left (`Stock.StaysStockedIff`,
`Stock.PublishedCanBeCleared`). Growing a tier of a sold-out event is two writes outside a transaction, and if the
second fails the event stays sold out with stock (`Stock.StaysEmptyIff`, `Stock.SoldOutCanBeStranded`). No other serial
step breaks it, so otherwise sold out means exactly no stock (`Stock.SoldOutIffEmpty`). Interleaved sales and
cancellations can break it too, in both ways (`StatusRace.StaysEmptyIff`, `StatusRace.StaysStockedIff`), unless no
commit falls between another transaction's read of the same event and its commit
(`StatusRace.UnhurriedStatusIsStock`).

`dafny verify dfyconfig.toml` checks everything.

## Model

| member | source | states |
|---|---|---|
| `Database.Tables.SumConfirmedQuantityByEvent` | internal/store/purchases.go:140-156 | the loop over the purchase/tier join returns the sum of the confirmed quantities of one event |
| `Database.Tables.SumQuantityByEvent` | internal/store/tiers.go:152-166 | the loop over the tier rows returns the event's total inventory |
| `Database.Tables.CountByEvent` | internal/store/tiers.go:67-81 | the number of tiers of the event; it is positive exactly when the event has one |
| `Database.Tables.InsertTickets` | internal/store/purchases.go:291-313 | the batch succeeds exactly when no ticket id is taken or repeated, and then adds one unused ticket of the purchase and tier per id |
| `Database.Tables.Create` | internal/store/purchases.go:205-342 | every refusal in its order, and on success the whole committed state; any failure, a CHECK or a taken key included, leaves all tables as they were |
| `Database.Tables.Cancel` | internal/store/purchases.go:344-482 | every refusal in its order, the committed state on success, and whether the tier was sold out before |
| `Database.Tables.CancelByEvent` | internal/store/purchases.go:484-529 | confirmed purchases of the event and all tickets of any purchase of it become cancelled; nothing else changes |
| `Database.Tables.CheckIn` | internal/store/tickets.go:36-106 | which refusal wins, and on success only this ticket changes, to used with the time of the scan |
| `Database.Tables.EndAllExpired` | internal/store/events.go:250-272 | exactly the live events whose end has passed become ended, and exactly those are returned |
| `Database.Tables.WaitlistCreate` | internal/store/waitlist.go:47-72 | one entry per user and tier, else a conflict and no change |
| `Database.Tables.DeleteByUserAndTier` | internal/store/waitlist.go:74-89 | the pair's entry goes and all others stay; none there is an error |
| `Database.Tables.NotifyNextWaiting` | internal/store/waitlist.go:156-235 | finds nobody exactly when nobody waits; otherwise offers the place to somebody nobody of the tier has waited longer than, for 24 hours, and changes no other entry |
| `Database.Tables.ExpireReservations` | internal/store/waitlist.go:134-154 | exactly the offers whose time has passed expire, and exactly those are returned |
| `App.Service.CreatePurchase` | cmd/server/purchases.go:35-140 | one purchase step of the machine: validation, look-ups, one ticket id drawn per unit, then the transaction; the answer is the stored row or the same error |
| `App.Service.CancelPurchase` | cmd/server/purchases.go:208-307 | one cancellation step; a task for the tier is queued exactly when the tier was sold out before and enqueueing works |
| `App.Service.CheckIn` | cmd/server/check-in.go:46-83 | one scan step for the ticket the token names under the secret: the scanned row or the refusal that wins; a token that names none is answered like a ticket that does not exist, and changes nothing |
| `App.Service.CreateTier` | cmd/server/tiers.go:224-302 | one step: drafts only, valid price and quantity, within the capacity, full stock |
| `App.Service.MergeTier` | cmd/server/tiers.go:106-154 | accepted exactly when the new quantity covers the units sold and fits the capacity beside the other tiers; then sold units stay sold and the status follows the stock |
| `App.Service.UpdateTier` | cmd/server/tiers.go:52-179 | one step: frozen events, the merge, the CHECKs, the tier written, then a sold-out event reopened when stock appears; if that second write fails the answer is an error and the tier stays written |
| `App.Service.CreateEvent` | cmd/server/events.go:30-98 | one step: validation, the defaults, a new draft |
| `App.Service.MergePatch` | cmd/server/events.go:141-185 | field by field, the given fields replace the stored ones and material ones are remembered; refused exactly when a new capacity is below the tickets sold |
| `App.Service.UpdateEvent` | cmd/server/events.go:113-291 | one step: the confirmation gate and the stamp of a live event, frozen statuses, and when buyers are notified |
| `App.Service.CancelEvent` | cmd/server/events.go:370-453 | one step, whether or not the bulk updates behind it succeed |
| `App.Service.JoinWaitlist` | cmd/server/waitlist.go:13-104 | one step, and which refusal is answered: visibility, ended events, the tier of this event, sold out only, no ticket holders, one entry per pair |
| `App.Service.HandleNotifyNextWaiting` | internal/worker/waitlist.go:28-65 | one promotion step: the task is forgotten unless its mail failed after the promotion was committed and it is retried |
| `App.Service.EnqueueReplacements` | internal/worker/periodic.go:35-60 | the queue grows by one task for each expired entry, for its tier, minus those that could not be enqueued |
| `App.Service.HandleExpireWaitlistReservations` | internal/worker/periodic.go:24-64 | one expiry step |
| `Server.Serve` | internal/worker/server.go:30-42 | any sequence of requests and tasks, in time order, drives the handlers through the run of the machine made of exactly the steps they name, and every invariant of reachable states holds at the end |
| `Effects.BuyAnswers` | cmd/server/purchases.go:44-112 | fewer than one unit, an unknown tier and an event not on sale are refused before the transaction; otherwise it runs with one drawn id per unit |
| `Effects.CreateAnswers` | internal/store/purchases.go:232-261 | each refusal holds under exactly its condition, in the code's order of precedence, and success under exactly the conjunction of the rules, the column ranges and fresh keys |
| `Effects.CreateWritesRows` | internal/store/purchases.go:264-289 | the tier loses the units and is sold out exactly at zero, the purchase costs price times quantity, no other tier or purchase changes |
| `Effects.CreateWritesTickets` | internal/store/purchases.go:294-313 | exactly one unused, unscanned ticket per id is added and no other changes |
| `Effects.CreateWritesEvents` | internal/store/purchases.go:315-334 | the event is sold out exactly when no tier of it has a unit left, and no other event changes |
| `Effects.CancelAnswers` | internal/store/purchases.go:372-434 | each refusal holds under exactly its condition, in the code's order of precedence |
| `Effects.CancelWrites` | internal/store/purchases.go:436-474 | purchase and tickets cancelled, units given back, tier available, a sold-out event published; nothing else |
| `Effects.ScanAnswers` | internal/store/tickets.go:69-83 | used, cancelled and foreign tickets are refused in this order, and a scan succeeds exactly for an unused ticket of the event |
| `Effects.ScanWrites` | internal/store/tickets.go:85-91 | the ticket becomes used, stamped with the time of the scan; nothing else |
| `Effects.CreateTierWrites` | cmd/server/tiers.go:249-290 | a tier is accepted under exactly these conditions and stored with the given price, the given quantity and full stock |
| `Effects.UpdateTierAnswers` | cmd/server/tiers.go:64-156 | a resize is committed under exactly these conditions, in plain numbers |
| `Effects.UpdateTierWrites` | cmd/server/tiers.go:106-169 | a given price and quantity replace the stored ones, the units sold stay sold, the status follows the stock, and only a sold-out event with new stock is reopened |
| `Effects.DeleteTierWrites` | cmd/server/tiers.go:193-213 | drafts only; exactly the tier and what hangs on it goes |
| `Effects.CreateEventWrites` | cmd/server/events.go:49-83 | an event is accepted under exactly these conditions and stored as an unstamped draft with the given columns, cancellable and limited to ten unless said otherwise |
| `Effects.UpdateEventAnswers` | cmd/server/events.go:161-227 | an update is accepted under exactly these conditions, the material columns listed one by one |
| `Effects.UpdateEventWrites` | cmd/server/events.go:143-223 | every given column has the payload's value and every other the old one, organizer and status never change, the stamp is the time exactly for a material change of a live event, and no other row changes |
| `Effects.UpdateEventTells` | cmd/server/events.go:237 | buyers are told exactly when a published or sold-out event is given a location, a date or a cancellation term |
| `Effects.PublishWrites` | cmd/server/events.go:333-352 | exactly a draft with a tier becomes published, and nothing else changes |
| `Effects.CancelEventWrites` | cmd/server/events.go:382-409 | from draft, published or sold out; tiers keep their stock, and without the bulk update purchases and tickets are untouched |
| `Effects.CancelByEventWrites` | internal/store/purchases.go:494-522 | exactly the purchases and tickets of the event's tiers become cancelled |
| `Effects.DeleteEventWrites` | cmd/server/events.go:305-310 | drafts only; exactly the event and its tiers go |
| `Effects.SweepWrites` | internal/store/events.go:250-257 | an event is ended afterwards exactly when it was, or when it was published or sold out with its end in the past |
| `Effects.CreateEventRefuses` | cmd/server/events.go:49-57 | which refused events are invalid |
| `Effects.UpdateEventRefuses` | cmd/server/events.go:131-227 | an unknown event, a payload that is wrong and a conflict, in this precedence, each under exactly its condition |
| `Effects.EventRefusals` | cmd/server/events.go:305-385 | publishing, cancelling and deleting refuse an unknown event as not found and any other with a conflict |
| `Effects.CreateTierRefuses` | cmd/server/tiers.go:242-278 | which error a refused tier answers |
| `Effects.UpdateTierRefuses` | cmd/server/tiers.go:64-143 | which error a refused resize answers |
| `Effects.UpdateTierAnswer` | cmd/server/tiers.go:156-169 | a resize that was written answers an error exactly when reopening was due and failed |
| `Effects.DeleteTierRefuses` | cmd/server/tiers.go:193-213 | which error a refused deletion answers |
| `Places.JoinAnswers` | cmd/server/waitlist.go:25-103 | who may join, exactly, and the row stored |
| `Places.JoinRefuses` | cmd/server/waitlist.go:25-78 | which error a refused join answers |
| `Places.LeaveWrites` | internal/store/waitlist.go:74-89 | exactly the entry of the user and tier goes; none there is an error |
| `Places.ClearingSteps` | internal/store/waitlist.go:237-250 | deleting or cancelling an event, or deleting a tier, clears exactly the entries of its tiers |
| `Places.NextMeans` | internal/store/waitlist.go:181-183 | the next one waits for the tier and nobody waiting for it joined earlier |
| `Places.NotifyWrites` | internal/store/waitlist.go:205-222 | the offer is stamped now and stands for 86400 seconds; no other entry or column changes |
| `Places.ExpireWrites` | internal/store/waitlist.go:134-140 | a notified entry expires, and is returned, exactly when its deadline is before now; nothing else changes |
| `Places.NoOverdueOffer` | internal/worker/periodic.go:24-33 | in reachable states no offer is older than 86400 seconds after a sweep |
| `Places.SweepQueues` | internal/worker/periodic.go:35-60 | the tier's queue grows by exactly the number of its overdue offers, less those that could not be enqueued |
| `Places.CancelQueues` | cmd/server/purchases.go:247-271 | a successful cancellation queues one task exactly when its tier was sold out and enqueueing works, and nothing else does |
| `Places.PromoteQueues` | internal/worker/waitlist.go:28-65 | a task leaves the queue unless it promoted somebody, the mail failed and it is retried; the one it picked is notified |
| `Places.RunKeepsPairs` | cmd/migrate/migrations/00010_create_waitlist_entries_table.sql:13 | over any run nobody is twice on the list of a tier |
| `Door.GeneratedScansIff` | cmd/server/check-in.go:46-83 | scanning the token generated for a ticket succeeds exactly when that ticket exists, is unused and is for this event |
| `Door.ScanNeedsToken` | internal/qr/qr.go:28-65 | a scan succeeds only for a ticket whose id the token carries under a matching HMAC |
| `Door.NumberInjective` | internal/qr/qr.go:59-64 | two ticket ids read as the same number are the same id |
| `Reachable.StartsGood` | cmd/migrate/migrations/00007_create_ticket_tiers_table.sql:13-15 | the empty system satisfies the whole-state invariant |
| `Reachable.StepKeeps` | cmd/migrate/migrations/00007_create_ticket_tiers_table.sql:13-15 | every one of the sixteen steps, whatever its arguments and its answer, keeps the whole-state invariant while the clock does not go back |
| `Reachable.RunKeeps` | internal/store/purchases.go:264-289 | in every state of every run: foreign keys resolve, CHECKs hold, remaining plus confirmed sales equals the quantity unless the event is cancelled and never exceeds it, statuses follow the stock, tickets match purchases, drafts are clean, offers went out in join order |
| `Inventory.NeverOversold` | PLAN.md:918 | stock stays within 0 and the quantity, and confirmed sales within what is gone from it |
| `Inventory.TicketsFollowPurchase` | cmd/server/purchases.go:100-110 | a purchase has exactly as many tickets as units, all of its tier; it is cancelled exactly when all of them are, and confirmed exactly when none is |
| `Inventory.SellKeeps` | internal/store/purchases.go:263-334 | a sale keeps conservation, status agreement and the ticket counts |
| `Inventory.RefundKeeps` | internal/store/purchases.go:436-474 | so does a cancellation, and no event becomes cancelled or uncancelled by either |
| `Inventory.RestockFits` | cmd/migrate/migrations/00007_create_ticket_tiers_table.sql:14 | giving the units of a confirmed purchase back never violates the CHECK on remaining, even after the event was cancelled |
| `Inventory.CancelByEventKeeps` | internal/store/purchases.go:494-522 | the bulk update restores no stock, and still keeps the invariant of a cancelled event |
| `Lifecycle.CreateKeeps` | internal/store/purchases.go:254-334 | a purchase keeps the whole invariant and makes only a listed transition |
| `Lifecycle.CancelKeeps` | internal/store/purchases.go:457-474 | so does a cancellation |
| `Lifecycle.CancelNeverRejected` | internal/store/purchases.go:402-407 | the errors the code calls impossible are: a cancellation is refused for its listed reasons only |
| `Lifecycle.UpdateTierKeeps` | cmd/server/tiers.go:106-169 | resizing keeps conservation and tier status, whether or not reopening the event succeeds |
| `Lifecycle.CancelEventKeeps` | cmd/server/events.go:382-413 | cancelling an event keeps the invariant even when the bulk update fails |
| `Lifecycle.DeleteEventKeeps` | cmd/server/events.go:305-309 | deleting a draft removes its row and its tiers, never a purchase or a ticket |
| `Lifecycle.DeleteTierKeeps` | cmd/server/tiers.go:193-198 | deleting a draft's tier removes that row and nothing else |
| `Lifecycle.EndAllExpiredKeeps` | internal/store/events.go:250-257 | the sweep keeps the invariant and only makes allowed moves |
| `Lifecycle.SoldCountsAgree` | cmd/server/events.go:161-173 | for every event that is not cancelled, the sum over its confirmed purchases that `updateEvent` uses equals the sum over its tiers of quantity minus remaining that `updateTier` uses |
| `Lifecycle.UnitsByTier` | internal/store/purchases.go:140-156 | summing over the purchases of a set of tiers is summing over the tiers what each sold |
| `Lifecycle.NotifiesOnlyLive` | cmd/server/events.go:237 | the notification guard fires exactly for a material change of a live event |
| `Reachable.DbKeeps` | PLAN.md:113-124 | every step keeps the database invariant, makes only the listed status transitions, and adds or removes only drafts |
| `Changes.EventTouch` | PLAN.md:130-135 | an event row changes in one step only by a status move of an unfrozen event or by its update |
| `Changes.PurchaseTouch` | internal/store/purchases.go:436-446 | a purchase row is never deleted, and only ever changes from confirmed to cancelled, by its cancellation or its event's |
| `Changes.TicketTouch` | internal/store/tickets.go:76-92 | a ticket row is never deleted, and is only cancelled, or used by a scan that found it unused |
| `Changes.DeletesSpareSales` | cmd/migrate/migrations/00008_create_purchases_table.sql:5 | in every reachable state the cascade of a delete reaches no purchase, no ticket and no tier of another status than draft |
| `History.DraftNeverAgain` | PLAN.md:113-124 | an event past the draft stage is never deleted and never a draft again |
| `History.EndedIsFrozen` | internal/store/events.go:250-257 | once the sweep ended an event, no later run changes its row, its tiers or its purchases |
| `History.CancelEventKills` | cmd/server/events.go:382-413 | after a cancellation whose bulk update succeeds, all purchases and tickets of the event are cancelled and no row of another event differs |
| `History.CancelByEventTwice` | internal/store/purchases.go:484-529 | the bulk update is idempotent |
| `History.DeadForGood` | internal/store/events.go:146-150 | in every later run none of them is confirmed or valid again |
| `History.NobodyEntersDeadEvent` | internal/store/tickets.go:66-81 | nor does any scan at that event succeed |
| `History.TicketsGoForward` | internal/store/tickets.go:76-92 | over any run a ticket keeps its purchase and tier and only moves from unused to used to cancelled |
| `History.CheckedInOnce` | PLAN.md:337 | after a successful scan, whatever runs in between, no scan of the ticket succeeds again |
| `Grace.CancelSucceedsIff` | internal/store/purchases.go:378-434 | a cancellation succeeds exactly for the owner of a confirmed purchase that no policy check refuses; `Grace.CancelsUntil` says when none does |
| `Grace.CancelsUntil` | internal/store/purchases.go:417-434 | the owner of a confirmed purchase can cancel it exactly while the event has not started and allows it, and either the start minus the cutoff, as 64-bit nanoseconds, has not passed or a material change is less than 259200 seconds old |
| `Grace.CancelsUntilCutoff` | PLAN.md:257-259 | up to 2562047 hours the cutoff is exactly that many hours before the start |
| `Grace.StampHolds` | internal/store/events.go:68-76 | over any run the material-change stamp never moves back |
| `Grace.GraceLasts` | PLAN.md:134 | after a confirmed material change, a purchase that is still confirmed can be cancelled for 72 hours, whatever runs in between, while the event allows it and has not started |
| `Grace.ClosedStaysClosed` | PLAN.md:259-260 | unless a material change lands, a cancellation refused at one time is refused at every later time |
| `Grace.WindowIsExact` | internal/store/purchases.go:429 | the 64-bit product of hours and nanoseconds gives the stated window exactly when the hours are at most 2562047 |
| `Capacity.StaysWithinIff` | PLAN.md:87 | tier totals stay within the capacities after a step exactly when it is not an accepted update that sets a capacity below the tier total |
| `Capacity.RunStaysWithin` | cmd/server/tiers.go:264-278 | in runs without such an update the promised rule holds throughout |
| `Capacity.CapacityCanBeUndercut` | cmd/server/events.go:161-173 | a sound draft with ten tickets on offer and no sales accepts capacity 1 |
| `Events.AcceptsIff` | cmd/server/events.go:161-233 | an update is accepted exactly when the event is open, the values are in range, the capacity covers the tickets sold, the merged dates are in order and a material change of a live event is confirmed |
| `Tiers.AcceptsIff` | cmd/server/tiers.go:62-156 | a resize is committed exactly when the event is open, the tier its own, the values in range, the units sold covered and the capacity kept, whatever happens to the second write |
| `Stock.StaysStockedIff` | cmd/server/tiers.go:145-169 | from tables where every published event has stock, a step of any kind keeps it so exactly when it is not an accepted resize of a published event's tier to the units it sold while no other tier of the event has stock |
| `Stock.StaysEmptyIff` | cmd/server/tiers.go:156-169 | from tables where no sold-out event has stock, a step of any kind keeps it so exactly when it is not an accepted growth of a sold-out event's tier whose second write fails |
| `Stock.RunStaysStocked` | internal/store/purchases.go:315-334 | in runs without such a resize every published event keeps having stock |
| `Stock.RunStaysEmpty` | internal/store/purchases.go:468-474 | in runs without such a failure no sold-out event ever has stock |
| `Stock.SoldOutIffEmpty` | PLAN.md:119-121 | from the empty system, in runs without either, an event on sale is sold out exactly when none of its tiers has stock |
| `Stock.PublishedCanBeCleared` | cmd/server/tiers.go:145-169 | a sound published event with a tier of two, one sold: resizing it to one is accepted and leaves it published without stock |
| `Stock.SoldOutCanBeStranded` | cmd/server/tiers.go:156-169 | a sound sold-out event whose tier grows while reopening fails stays sold out with stock |
| `Undo.UndoneInAnyOrder` | PLAN.md:261 | any successful purchases followed by successful cancellations of exactly those, in any order, put every tier row and every event row back |
| `Offers.NobodyOvertaken` | README.md:26 | whoever joined a tier's waitlist before somebody who was notified has been notified too, and no later |
| `Offers.OfferStep` | internal/store/waitlist.go:134-140 | an offer keeps its dates, and expires only after its 24 hours |
| `Offers.OfferedOnce` | internal/store/waitlist.go:208-214 | over any run an entry that was notified is never picked again |
| `Offers.OffersConserved` | internal/worker/periodic.go:35-60 | over any run the standing offers and queued tasks of a tier never exceed those before plus the cancellations made while it was sold out plus the promotions repeated because a mail failed |
| `Offers.OnePlacePerOffer` | internal/worker/waitlist.go:28-45 | from the empty system, when no promotion is repeated: at most one standing offer per place freed |
| `Alone.AloneIsSerial` | internal/store/purchases.go:205-482 | the statements of a purchase, a cancellation or a scan, run without interruption, commit exactly when the serial operation succeeds, and leave exactly its tables; every refusal leaves them untouched |
| `Isolation.StepIsAtomic` | internal/store/purchases.go:220-482 | whatever is in flight, a statement leaves the committed tables alone or commits a sale, cancellation or scan that the serial operation accepts (owner, policy, limit per purchase, stock and CHECKs included) on the tables as they are, a sold-out event read as published, and leaves exactly what that operation leaves, up to the status of its event |
| `Replay.Serializable` | internal/store/purchases.go:220-482 | after any schedule the committed tables are those of running the committed transactions one after another in commit order by the serial operations, none refused, sold-out events read as published |
| `Replay.LoggedOnce` | internal/store/purchases.go:336-341 | that order contains every transaction the schedule committed, once, and no other |
| `Replay.TicketsGoForward` | internal/store/tickets.go:85-91 | over any schedule a ticket keeps its purchase and tier and only moves from unused to used to cancelled |
| `Isolation.RunKeepsSafe` | internal/store/purchases.go:360-474 | every schedule keeps conservation, disjoint locks, and what each transaction has read of the rows it locked |
| `Isolation.NothingOversold` | PLAN.md:918 | under every interleaving every tier of a live event has remaining plus confirmed sales equal to its quantity, and stock within its bounds |
| `Isolation.NothingSpentTwice` | PLAN.md:337 | of any number of concurrent scans of a ticket at most one succeeds, and of concurrent cancellations of a purchase at most one gives its stock back |
| `Isolation.LocksOnlyWanted` | internal/store/purchases.go:457-474 | a statement takes at most the one lock it waited for |
| `Progress.HolderIsHigher` | internal/store/purchases.go:360-474 | whoever holds a row that is waited for is unfinished, and waits, if at all, for a row later in the order purchase, tickets, tier, event |
| `Progress.NoDeadlock` | internal/store/purchases.go:220-334 | while any transaction is unfinished, some transaction can run its next statement |
| `Progress.SchedulesEnd` | internal/store/purchases.go:336-341 | no schedule is longer than the work there was at its start |
| `Progress.AllFinish` | internal/store/purchases.go:476-481 | from every safe state a schedule finishes all transactions |
| `StatusRace.StaysEmptyIff` | internal/store/purchases.go:326-334 | interleaved, a statement leaves a sold-out event with stock exactly when it commits a sale that sells out an event which has stock again, or a cancellation that skipped reopening an event which is sold out by now |
| `StatusRace.StaysStockedIff` | internal/store/purchases.go:315-334 | interleaved, a statement leaves a published event without stock exactly when it commits a sale that does not sell its event out although the event is published and nothing is left |
| `StatusRace.UnhurriedStatusIsStock` | internal/store/purchases.go:315-341 | if no commit of a sale or cancellation falls between another's read of the same event and its commit, events on sale are sold out exactly when they have no stock |
| `Schedules.StatusCanLag` | internal/store/purchases.go:468-474 | from sound tables, a sale and a cancellation have a schedule that ends with a sold-out event with stock |
| `Schedules.StockCanVanish` | internal/store/purchases.go:315-334 | from sound tables, two sales have a schedule that ends with a published event without stock |
| `Paging.GetAllPublished` | internal/store/events.go:214-248 | the rows after the cursor in ascending order of start and id, missing a match only if the limit was reached before it |
| `Paging.GetPublishedEvents` | cmd/server/events.go:514-565 | a page in order; with a next cursor it is full, the cursor is its last key and all remaining matches lie behind it; without one it holds every match |
| `Paging.PageShows` | internal/store/events.go:219-234 | a page shows only published events behind the cursor, by start and then id; one is missing only if the page is full and it comes after the page's last, whose start and id are the next cursor |
| `Paging.QueryShows` | internal/store/events.go:219-234 | the query returns only published rows behind the cursor, and all of them if there are fewer than the limit |
| `Paging.LimitIs` | cmd/server/events.go:518-523 | a limit from 1 to 100 is taken, anything else means 50 |
| `Paging.ShownFrom` | internal/store/events.go:219-234 | whatever changes between pages, an event that keeps its start is shown at most once |
| `Paging.StableEventShownOnce` | cmd/server/events.go:518-553 | an event published throughout a traversal with the same start is shown exactly once, for every limit |
| `Paging.FixedListing` | internal/store/events.go:219-234 | on a fixed table the pages put together are the whole listing, sorted |
| `Paging.ListingShows` | internal/store/events.go:219-234 | on a fixed table a traversal shows exactly the published events, sorted by start and then id |
| `Paging.PageShrinks` | cmd/server/events.go:543-553 | every page with a next cursor leaves exactly its length fewer events to show, and some |
| `Paging.PagesRunOut` | cmd/server/events.go:543-553 | n pages of a fixed table that each come with a next cursor need more than n times the limit of events ahead of the first, so a traversal ends |
| `Base64.DecodeOfEncode` | internal/qr/qr.go:23-29 | decoding undoes encoding, in both alphabets, strictly or not (RFC 4648, sections 4 and 5) |
| `Base64.StrictIffCanonical` | internal/auth/password.go:122-127 | a text without line ends decodes strictly to some bytes exactly when it is their encoding (RFC 4648, section 3.5) |
| `Base64.DigitsAre` | internal/auth/password.go:50-51 | the two alphabets are tables 1 and 2 of RFC 4648 |
| `Base64.SameBits` | internal/auth/password.go:50-51 | three bytes and their four sextets are the same 24 bits, and what is left over is followed by zero bits |
| `Base64.LineEndsIgnored` | internal/auth/password.go:115 | a line end anywhere makes no difference to decoding, which is why the hash decoder looks for them |
| `Base64.LenientIgnoresFill` | internal/qr/qr.go:29-32 | without strict mode fill bits are taken as zero |
| `Text.HexRoundTrip` | internal/qr/qr.go:42-47 | reading the hexadecimal text of bytes gives them back (RFC 4648, section 8) |
| `Text.HexTextAt` | internal/qr/qr.go:22 | each byte is two lower-case digits, the high half first |
| `Text.HexParseIff` | internal/qr/qr.go:44 | digits of either case are read, and nothing else |
| `Text.UuidRoundTrip` | internal/qr/qr.go:59-62 | parsing the 36 characters of a UUID gives it back (RFC 9562, section 4) |
| `Text.UuidLayout` | internal/qr/qr.go:18 | 36 characters, dashes at 8, 13, 18 and 23, the digits of the 16 bytes around them |
| `Text.DashedIff` | internal/qr/qr.go:59-62 | a text of 36 characters is accepted exactly when its dashes are in place and its digits, case aside, are the id's |
| `Text.UuidForms` | internal/qr/qr.go:59-62 | the URN form, the form in braces and the bare digits parse to the same id |
| `Text.SplitRejoins` | internal/qr/qr.go:34-37 | the pieces of a split contain no separator, and joined by it give the text back |
| `Qr.VerifyOfGenerate` | internal/qr/qr.go:17-65 | a generated token verifies under its secret and yields its ticket, for all ids and secrets |
| `Qr.TokenText` | internal/qr/qr.go:17-26 | a token decodes to ticket, purchase and tier in this order, a dot, and the hexadecimal HMAC of them |
| `Qr.TokensDiffer` | cmd/migrate/migrations/00009_create_tickets_table.sql:6 | equal tokens have equal ticket, purchase and tier ids, whatever the secrets |
| `Qr.AcceptedIff` | internal/qr/qr.go:28-65 | a token is accepted exactly when it decodes to three fields free of separators and the hexadecimal HMAC of those fields under the secret, and the first field is the ticket's id |
| `Cursor.DecodeOfEncodeCursor` | internal/cursor/cursor.go:17-47 | a decoded cursor is the cursor that was encoded, for any time format that reads back and has no comma |
| `Cursor.CursorText` | internal/cursor/cursor.go:17-20 | a cursor decodes to the time, a comma and the id |
| `Cursor.DecodesIff` | internal/cursor/cursor.go:22-47 | a text is accepted as a cursor exactly when it decodes to a time and an id with the first comma between them |
| `Password.Reader.Literal` | internal/auth/password.go:93-96 | literal text is consumed rune by rune, and succeeds exactly when the unread text starts with it |
| `Password.Reader.Integer` | internal/auth/password.go:98-102 | blanks, a sign for a signed number, digits, and the range of the variable; what is consumed and the value read |
| `Password.DecodeSegments` | internal/auth/password.go:112-142 | line ends and a missing separator are refused; the two segments are decoded strictly and their lengths recorded |
| `Password.DecodeHash` | internal/auth/password.go:90-143 | the whole scan, with its four kinds of error |
| `Password.AcceptedIff` | internal/auth/password.go:90-143 | a hash string is accepted exactly when it writes the parameters with any spelling of its numbers the scanner takes, followed by the encodings of exactly the salt and key that come out |
| `Password.RestIff` | internal/auth/password.go:112-142 | re-encoding the salt and key of an accepted hash gives its last two segments, and nothing else is accepted for them |
| `Password.DecodeOfFormat` | internal/auth/password.go:53-57 | decoding a formatted hash gives back every parameter, the salt and the key |
| `Password.VerifyOfHash` | internal/auth/password.go:38-77 | a hash accepts the password it was made from, and another exactly when Argon2 with the same salt, iterations, memory, threads and key length derives the same key |
| `Password.AcceptsIff` | internal/auth/password.go:61-77 | a password verifies exactly against the strings that write parameters, a salt and the key Argon2 derives from it with that salt, iterations, memory, threads and key length |
| `Password.VerifyOfDefaultHash` | internal/auth/password.go:30-36 | the same without parameters, in plain numbers |
| `Password.HashIff` | internal/auth/password.go:51-58 | a hash is the formatted key exactly when Argon2 derives that key from the password, the salt, the iterations, the memory, the threads and the key length, in this order |
| `Password.DefaultHashIff` | internal/auth/password.go:30-58 | without parameters the call has 3 passes, 65536 KiB, 4 threads and 32 bytes, the salt 16 bytes, and the text says so |
| `Password.VerifyAnswers` | internal/auth/password.go:61-77 | an undecodable hash answers its error, a panic of Argon2 is passed on, and otherwise the answer is whether the keys are equal |
| `Password.DecodeRefuses` | internal/auth/password.go:93-96 | another variant is refused as such, and nothing else is |
| `Password.OtherVersionRefused` | internal/auth/password.go:98-105 | a well-formed version other than 19 is refused as such |
| `Password.BrokenTailRefused` | internal/auth/password.go:112-122 | a tail with a line end or without a separator is refused as an invalid hash |

## Left out

- HTTP routing, JSON, authentication, the checks of who organizes an event, users, sessions, mail texts, logging and read-only listings other than the public one: plumbing around the modelled operations.
- Names, descriptions, locations (only whether one was given matters), `updated_at` and the `qr_token` column: no influence on the properties; that tokens never collide is `Qr.TokensDiffer`.
- Clocks: the program and PostgreSQL share one clock that never goes back, and timestamps keep their nanoseconds where PostgreSQL rounds to microseconds.
- Failures of the connection, timeouts and rollbacks forced from outside: a transaction that fails changes nothing, which needs no step. Where a handler writes outside a transaction and a later write can fail, the step says whether it does (`flipOk`, `bulkOk`, `clearOk`, `enqueued`, `mailed`).
- Promotion tasks run one at a time; what two at once do to each other's row locks is not modelled. A mail that fails after its promotion was committed promotes another person on the retry, which `Offers.OffersConserved` counts.
- The statuses `refunded` and `purchased`: no operation stores them. A buyer may stay on the waitlist; PLAN.md:265 is not modelled, because `createPurchase` never looks at it.
- Interleaving: organizers' operations and the sweep are not interleaved with purchases, cancellations and scans; `updateTier` reads and writes outside a transaction and is one atomic step of `System`.
- Interleaving.Held: foreign-key share locks and the wait for a concurrent insert of the same key are not modelled; identifiers in flight are distinct, as random ones are.
- Isolation.StepIsAtomic: leaves open whether an event on sale is marked sold out, because the mark can lag behind the stock; `StatusRace.StaysEmptyIff` and `StatusRace.StaysStockedIff` say exactly when.
- Identifiers are numbers in the state machine, ordered as PostgreSQL orders UUIDs, and 16 bytes in the codecs.
- Paging.ShownFrom: a traversal of a table that keeps growing need not end; `Paging.PagesRunOut` is about fixed tables.
- HMAC-SHA256, Argon2 and the RFC 3339 time format are parameters; Argon2 may panic (the outcome `Panics`) and is only taken to return as many bytes as asked.
- Password.DecodeHash: reads the hash as a text of characters; bytes that are not UTF-8 are not modelled.
- Qr.VerifyToken: the constant-time comparison of HMACs is modelled by what it decides.
