# The purchase queue, modelled and proved

The backend sells a product of which there are few. Users join a queue; whoever is at its head gets a purchase right, or an offer of the units that are left, each with a deadline. Redis decides who gets what, in atomic scripts. PostgreSQL records every decision, in transactions. The service composes the two, takes units back when a write fails, expires what nobody used, rebuilds Redis from PostgreSQL after a crash, and tells the external stock owner about every sale through an outbox.

## How the model is built

Every script, every transaction and every service operation exists twice. A function says what it does to the state; a class method does it in place, step by step as the code does, and its `ensures` equates the new state with that function. The properties are proved about the functions, and so about the methods.

| Files | What they hold |
|---|---|
| Models, MapSums | memberships, rights, stock rows; sums over maps |
| Timers, CacheScripts, DurableTx, Service | the specification: timers under lease, Redis scripts, transactions, service operations |
| RedisCache, DurableStore, QueueEngine | the same as classes: `CacheRepo`, `DurableRepo`, `QueueService` |
| Invariants, Moves, Advance, Operations, Payment, Joining, Expiry, ExpirationPass | what every operation keeps |
| Recovery, RecoveryLoops, RecoveryReplay, Restart, RecoveryOutcome | crash recovery: of any rows, its loops, and on the service's own rows; what it repairs and which pool it opens |
| System, Frames | the state machine and its runs; what no operation touches |
| JoinOutcome, AcceptOutcome, LeaveOutcome, PayOutcome, AdvanceOutcome, HandleOutcome | what each operation answers and leaves behind, in terms of the state it meets |
| TimerOutcome, BatchOutcome, PassOutcome, Absentees | the same of a pass of the expiration worker and of its timer scripts; when users who are gone are dropped |
| Progress, Guarantees, Greedy, WorkConservation, FailedWrites, Replies, Limit, Overdue | what holds over steps and runs |
| Absence, Grace, EarlyDrop, EarlyDropRuns | how long a waiting user is left alone: with heartbeats, without, and when it is dropped early |
| Gap, GapRuns | what goes wrong between popping a user and winning the user's claim |
| SecondAnswer | what goes wrong if AvitoBackend changes its answer |
| LeaseProtocol, PaymentRace, Outbox, OutboxRuns, OutboxBatch, Delivery | the three protocols at finer grain: timer scripts, one right under concurrent payment and expiry, delivery to the stock owner |
| Ledger | the service and the deliveries together |

The keys and rows of different products are disjoint, so the state is that of one product. The per-user sets (occupied slots, queued products) and the timers are relations between users and products; each product sees its own part of them. `Limit` and `Outbox` put all products together again.

The methods of one line have no row below. What they are worth is proved where they are used: `Enqueue` and `Requeue` in `Moves.EnqueueAppends` and `Moves.RequeueUndoesPop`; `SetMembership`, `AddToExpiryTimer`, `RemoveFromQueue` and `UpsertMembership` in `Moves.MoveKeepsInv`; `AddAvailable` in `Gap.SumIff` and `FailedWrites.FailedTurnIsUndone`; `CommitPurchase` in `Payment.SaleBalances`; `InitStock` and `SaveInitialStock` in `SecondAnswer.StoresAgreeIff`; `SetUserPresenceDeadline` in `Absence.HeartbeatProtects`; `ResetExpiryTimers` and `ExpireRights` in `RecoveryReplay.RestoreStock` and `RecoveryReplay.ApplyRepairs`; the acknowledging and rescheduling of events in `Delivery.Courier.Deliver`.

## Assumptions

- One service operation is one step. Any durable call in it may fail, and the process may die right after any durable write; a fault plan says which. A call that fails has not committed, and the points of death come after writes that have; nothing is written after a failed call of the same operation, so one plan per operation is enough. A pass of the expiration worker has a plan for each of its claims. A lost membership claim while the queue advances is rolled back as a failed write is, and counts as one. Popping the head of the queue and winning its claim are one step; `Gap` shows what the window between them costs. `LeaseProtocol`, `PaymentRace` and `Outbox` interleave single scripts, transactions and requests.
- A Redis call that fails after a committed durable write ends in a crash and a restart. The service has no retry for it (`backend/internal/service/queue_service.go:883-888`).
- One clock, strictly increasing over steps, in milliseconds; TTLs of at least one second; operations that end before the membership claim does.
- AvitoBackend reports the same stock until the first durable record of it. `SecondAnswer` shows what happens otherwise.
- Names and tokens are numbers, and 0 stands for the empty string. Tokens are fresh. Primary and unique keys hold, so the branches for duplicate rows in recovery are not taken.

## Found not to hold

- A popped user may leave, or leave and rejoin, before the advance has won the claim, and neither the write nor the rollback looks at the membership again. `Gap.SoundIff` says for every outcome exactly when the step is still sound. `GapRuns.LeaveAndRejoinLosesUnit` is a run in which a unit is lost, and `GapRuns.LeaveAndFailRequeuesLeaver` one in which a user who has left is queued and popped again. A rollback may also put a user ahead of those who have waited longer (`Gap.RollbackOvertakes`).
- A lease on an outbox event does not keep other workers away when an earlier worker, whose own lease is over, fails late: rescheduling clears the lease without looking at its owner (`OutboxRuns.LeaseExcludesIff`, `OutboxRuns.LeaseCanBeBroken`). It does if nobody gives an event back late (`OutboxRuns.OnTimeLeasesAreExclusive`). Delivery stays exactly-once in any case, because the receiver recognises repeats.
- A waiting user without a heartbeat may be dropped before a whole timeout has passed since the join. `EarlyDrop.EarlyDropIff` says exactly when: a claim left over from an earlier membership shortens the timeout, and a restart makes the timer due at once. A restart in the very second of the join does so only by way of a claim that is given up and returned, because until then the timer counts as older than the wait. `EarlyDropRuns` has a run for each.
- With a maximum backoff below one second the second retry comes sooner than the first (`OutboxBatch.BackoffCanShrink`).
- If AvitoBackend changes its first answer between two attempts to record it, the stores disagree (`SecondAnswer.StoresAgreeIff`), and a right that was granted on the first answer may be refused payment for lack of stock (`SecondAnswer.GrantIsPayableIff`, `SecondAnswer.SecondAnswerBreaksPayment`).

## Where code and comments differ

The model follows the code.

- `backend/README.md:293` and the comment at `backend/internal/service/expiration.go:32` say that expired rights return to the queue. The code settles the membership as DECLINED and returns only the units.
- The comment at `backend/internal/repository/redis/cache.go:229` says that reclaimed timers are due right now. The script gives them their claimed deadline.
- The stamps of finished memberships differ between the stores: an update in PostgreSQL is stamped by the server, the cached copy by the service. Agreement is stated up to this stamp, and exactly for live memberships.

## Model

| member | source | states |
|---|---|---|
| `System.NextKeepsInv` | `backend/internal/service/queue_service.go:138-804` | every step of any user, webhook, worker or restart, under every plan of failing durable calls and with the process dying right after any durable write, keeps all invariants of both stores |
| `System.InitialInv` | `backend/internal/repository/redis/cache.go:23-30` | two empty stores satisfy the invariants |
| `System.RunKeepsInv` | `backend/internal/service/queue_service.go:138-804` | so does every run, of any length and in any order |
| `Guarantees.Conservation` | `backend/internal/repository/redis/cache.go:37-66` | in every reachable state available_units + RIGHT_ACTIVE quantities + offered units = product_count, no term is negative, and product_count + ordered units = product_count + sold units = the initial stock, with exactly one outbox row per USED right |
| `Guarantees.QueueAgreement` | `backend/internal/repository/redis/cache.go:68-113` | in every reachable state a user is in the queue iff its membership is QUEUED, iff the per-user index says so; slots are the live memberships; scores are distinct, ascending and at most the sequence counter |
| `Guarantees.PopMeetsOnlyWaiters` | `backend/internal/repository/redis/cache.go:307-313` | between operations the branch of the pop that meets a ghost or a user who is not QUEUED is unreachable; after a rollback between pop and claim it is not, see `GapRuns.LeaveAndFailRequeuesLeaver` |
| `Guarantees.CrashIsSurvived` | `backend/internal/service/recovery.go:43-130` | after a crash at any durable write there is a snapshot to restart from, the restart repairs nothing, and its units add up |
| `Restart.RestartRefines` | `backend/internal/service/recovery.go:43-130` | restarting a healthy process gives back the same counts, FIFO order, memberships, rights, slots, indexes and offer and right deadlines, without a repair; scores, QUEUED timers and stamps of finished rows may differ |
| `Restart.RestartKeepsInv` | `backend/internal/repository/redis/cache.go:98-113` | restarting from whatever a crash left in Redis restores every invariant |
| `Restart.NoClamp` | `backend/internal/service/recovery.go:74-86` | on the service's own rows recovery never closes the pool by clamping it |
| `Moves.MoveKeepsInv` | `backend/internal/service/queue_service.go:634-659` | a transition of one membership with its right, queue place, slot and timer keeps the agreement of both stores |
| `Moves.EnqueueAppends` | `backend/internal/repository/redis/cache.go:68-74` | a fresh score appends to the sorted set |
| `Moves.RequeueUndoesPop` | `backend/internal/repository/redis/cache.go:91-96` | the old score puts a popped head back in front of everybody |
| `Advance.OneTurn` | `backend/internal/service/queue_service.go:664-782` | one turn of the advance: it stops exactly when nobody can be served, otherwise the head gets its verdict and nothing else moves, and a failed turn changes nothing at all |
| `Advance.AdvanceKeepsInv` | `backend/internal/service/queue_service.go:664-716` | advancing keeps the invariants whichever write fails or kills the process |
| `Operations.AcceptKeepsInv` | `backend/internal/service/queue_service.go:366-447` | accepting an offer keeps the invariants |
| `Operations.LeaveKeepsInv` | `backend/internal/service/queue_service.go:461-563` | declining and leaving keep the invariants in every status |
| `Operations.ExpireIsStep` | `backend/internal/repository/postgres/durable.go:574-635` | the membership that holds an active right always wins its own expiry transaction |
| `Operations.ExpireKeepsInv` | `backend/internal/service/queue_service.go:567-629` | expiring a right keeps the invariants |
| `Payment.SaleBalances` | `backend/internal/repository/postgres/durable.go:346-415` | a sale moves its units from the held ones to the sold ones and writes the one order row of its right |
| `Payment.StockGuardNeverFires` | `backend/internal/repository/postgres/durable.go:385-403` | the stock guard of the payment transaction never refuses a reachable active right |
| `Payment.PaymentKeepsInv` | `backend/internal/service/queue_service.go:875-910` | paying keeps the invariants |
| `Joining.AdmitIsStep` | `backend/internal/service/queue_service.go:283-362` | the four outcomes of an allocation each write one membership, and a failed one leaves nothing |
| `Joining.JoinKeepsInv` | `backend/internal/service/queue_service.go:138-254` | joining keeps the invariants, first contact with the product included |
| `SecondAnswer.StoresAgreeIff` | `backend/internal/service/queue_service.go:213-231` | if the first durable write of the stock failed, the stores agree after the next join exactly if AvitoBackend repeats its first answer |
| `SecondAnswer.GrantIsPayableIff` | `backend/internal/repository/postgres/durable.go:385-403` | that join is granted what the first answer covers, and the right can be paid exactly if the second answer covers it; otherwise the stock guard, which `Payment.StockGuardNeverFires` calls unreachable under the assumption of one answer, refuses it for every order at every instant |
| `SecondAnswer.SecondAnswerBreaksPayment` | `backend/internal/service/queue_service.go:213-231` | the run from empty stores: seven, a failed write, then five; a right to six units that cannot be paid |
| `Expiry.HandleKeepsInv` | `backend/internal/service/expiration.go:95-178` | handling a claimed timer keeps the invariants |
| `Expiry.PresenceIsTimersOnly` | `backend/internal/service/presence.go:36-84` | a heartbeat only postpones timers of waiting users; the branches that drop a stale index never run |
| `Guarantees.NeverOvertaken` | `backend/internal/repository/redis/cache.go:298-339` | over a whole run with failures, crashes and restarts, while a user waits units go only to users who were ahead of it at the start |
| `Guarantees.AheadInQueue` | `backend/internal/repository/redis/cache.go:68-74` | being ahead is having the smaller sequence number |
| `Progress.NextProgresses` | `backend/internal/service/queue_service.go:664-782` | one step: rights, orders and stock only move forward, nobody's membership changes but the actor's and that of users whose turn it is, places are kept, and whoever gains units was ahead of everybody who goes on waiting |
| `Progress.EntryAllowed` | `backend/internal/repository/redis/cache.go:45-51` | a newcomer is given units only when nobody waits |
| `Greedy.AdvanceIsGreedy` | `backend/internal/service/queue_service.go:664-782` | whatever fails, the advance serves some prefix of the queue by the greedy shares and leaves the rest alone; unhindered it goes on until the next share is empty |
| `Greedy.AdvanceHandsOutAll` | `backend/internal/repository/redis/cache.go:293-343` | unhindered it hands out exactly min(available, sum of requests), and with no stock it drains the queue to SOLD_OUT |
| `Greedy.SharesHandOutAll` | `backend/internal/repository/redis/cache.go:326-342` | the greedy shares add up to min(available, sum of requests) |
| `Greedy.SharesServePrefix` | `backend/internal/repository/redis/cache.go:326-342` | the greedy shares serve a prefix in full, then at most one user in part, then nobody |
| `FailedWrites.FailedTurnIsUndone` | `backend/internal/service/queue_service.go:785-804` | a failed advance step restores pool, queue and index to what they were before the pop |
| `FailedWrites.FailedJoinLeavesNoTrace` | `backend/internal/service/queue_service.go:197-210` | a failed join restores everything but the first contact with the product |
| `FailedWrites.IdleIffFinished` | `backend/internal/service/queue_service.go:664-716` | an advance that does not die leaves somebody waiting for free units exactly when a write failed |
| `WorkConservation.NothingLiesIdle` | `backend/internal/service/queue_service.go:437-444` | in runs without failures a non-empty queue means no unit is free and product_count > 0 |
| `WorkConservation.InitialRests` | `backend/internal/service/queue_service.go:437-444` | two empty stores are such a start |
| `WorkConservation.SoldOutIsFinal` | `backend/internal/repository/redis/cache.go:45-47` | in such runs, once product_count is 0 nobody takes part any more, ever |
| `WorkConservation.LateJoinIsSoldOut` | `backend/internal/repository/redis/cache.go:45-47` | and whoever joins then is told SOLD_OUT |
| `WorkConservation.ReplayedWebhookIsNoOp` | `backend/internal/service/queue_service.go:875-910` | a webhook once answered with success changes nothing when repeated at any later time of such a run |
| `Payment.ReplayRecordsNothing` | `backend/internal/repository/postgres/durable.go:346-351` | also with failures, a replay writes nothing to either store before it advances the queue |
| `Guarantees.DecisionsAreFinal` | `backend/internal/repository/postgres/durable.go:346-362` | over any run a right keeps its terms, a used or expired one its outcome, and an order its row |
| `Limit.LimitHolds` | `backend/internal/repository/redis/cache.go:134-149` | over all products, runs, crashes and recoveries no user has more slots than the limit, and the slots are the products the user takes part in |
| `Limit.FreshWorldInv` | `backend/internal/service/queue_service.go:187-194` | products nobody has touched yet satisfy what the limit is proved from |
| `Limit.OnlyJoinersRevive` | `backend/internal/service/queue_service.go:187-210` | only a join that found room makes anybody take part in a sale |
| `Gap.PopStands` | `backend/internal/service/queue_service.go:664-684` | right after a pop everything but its units in flight agrees, and the membership passes all three checks below |
| `Gap.SoundIff` | `backend/internal/service/queue_service.go:720-804` | between pop and claim: whatever becomes of the write, the step leaves sum, rows, queue, index, slots and rights in agreement and brings nobody in exactly when the membership found passes the check for that outcome: if the write commits, it still waits outside the queue for what was decided, or, for SOLD_OUT, holds nothing and is in no queue; if it fails or the claim is lost, as the next row says; if the process dies, it is QUEUED or OFFER_PENDING with that quantity (for a right only QUEUED, for SOLD_OUT anything that holds nothing) |
| `Gap.RollbackIff` | `backend/internal/service/queue_service.go:785-804` | a failed write or a lost claim gives the units back in any case, and is sound exactly when the user found is QUEUED and, if it has queued again, still the first |
| `Gap.SumIff` | `backend/internal/service/queue_service.go:720-782` | the units alone add up after a commit exactly when the membership found holds what the new row takes beyond the units in flight |
| `Gap.SumIsNotEnough` | `backend/internal/service/queue_service.go:720-782` | they add up, but nothing else does, for a user who has queued again with the same quantity, or who has left and is offered units |
| `Gap.RollbackRequeuesLeaver` | `backend/internal/service/queue_service.go:785-804` | whatever the pop had decided, SOLD_OUT included, a rollback puts a user who no longer waits at the head of the queue, and the next pop meets it |
| `Gap.RollbackOvertakes` | `backend/internal/repository/redis/cache.go:91-96` | a rollback at the old score puts a user who has queued again ahead of everybody who has waited longer |
| `GapRuns.LeaveAndRejoinLosesUnit` | `backend/internal/service/queue_service.go:666-684` | a run from empty stores into that window in which a user who leaves and rejoins costs the pool a unit |
| `GapRuns.LeaveAndFailRequeuesLeaver` | `backend/internal/service/queue_service.go:785-804` | a run from empty stores into it in which a user leaves, the write fails, and a DECLINED user is back in the queue and popped next |
| `Replies.JoinTellsTruth` | `backend/internal/service/queue_service.go:138-254` | a granted right is held in both stores, any other success is an offer, a place in the queue or SOLD_OUT, and a refused join changed nothing |
| `Replies.AcceptTellsTruth` | `backend/internal/service/queue_service.go:366-447` | the right that accepting returns is still held after the queue has advanced, and a refusal changed nothing |
| `Replies.PayTellsTruth` | `backend/internal/service/queue_service.go:875-910` | success means that the right is used by this order and the order is in the outbox; a refusal changed nothing |
| `JoinOutcome.JoinRepliesIff` | `backend/internal/service/queue_service.go:138-254` | each refusal of a join exactly when it has its reason; without a failing write a join succeeds if and only if the quantity is positive, the user does not take part, there is room, and AvitoBackend answers |
| `JoinOutcome.JoinIsExact` | `backend/internal/service/queue_service.go:213-362` | what a successful join gets, by the pool and the queue that it meets: a right to the whole quantity iff nobody waits and the pool covers it, an offer of all that is free iff nobody waits and that is a part, SOLD_OUT iff product_count is 0, a place at the end otherwise; and exactly what both stores hold afterwards |
| `AcceptOutcome.AcceptRepliesIff` | `backend/internal/service/queue_service.go:366-447` | each refusal of an acceptance exactly when it has its reason; without a failing write it is granted if and only if the offer is pending, in time and covers the positive quantity |
| `AcceptOutcome.AcceptIsExact` | `backend/internal/service/queue_service.go:405-447` | a granted acceptance leaves the user RIGHT_ACTIVE with exactly the accepted units, a new right and its timer in both stores; the rest of the offer is back in the pool before the queue advances |
| `LeaveOutcome.LeaveRepliesIff` | `backend/internal/service/queue_service.go:461-563` | each refusal of leaving or declining exactly when it has its reason; without a failing write it succeeds if and only if the user has an offer in time, or waits or holds a right in time and does not merely decline |
| `LeaveOutcome.LeaveIsExact` | `backend/internal/service/queue_service.go:461-563` | success means DECLINED in both stores without place, slot, token or active right; its right, if it had one, is EXPIRED, and its units were in the pool when the advance began |
| `PayOutcome.PayRepliesIff` | `backend/internal/repository/postgres/durable.go:323-448` | each refusal of a payment exactly when it has its reason; without a failing write it succeeds if and only if the right is active before its expiry, or used by the same order |
| `PayOutcome.PayIsExact` | `backend/internal/service/queue_service.go:875-910` | a first payment makes the right USED and its holder PURCHASED in both stores, takes the units from both counts and not from the pool, and writes the order; a replay changes nothing; then the queue advances |
| `AdvanceOutcome.AdvanceDecides` | `backend/internal/service/queue_service.go:720-782` | whatever fails, a waiting user keeps its row in the advance, or has exactly the row, the right and the timer of the decision, with its wish and its creation date kept |
| `AdvanceOutcome.AdvanceAddsRights` | `backend/internal/service/queue_service.go:720-782` | the advance touches no right that exists |
| `Guarantees.LifetimesAreExact` | `backend/internal/service/queue_service.go:294-327` | offers and rights last exactly as long as configured from the moment they were given |
| `Guarantees.NoEarlyExpiry` | `backend/internal/service/expiration.go:142-178` | whatever was claimed, returned, reclaimed or left over, the worker ends an offer or right only less than a second before its time or later; otherwise only its holder or the payment of that very right does |
| `Guarantees.StaleMeansOlder` | `backend/internal/service/expiration.go:142-159` | a claim is taken for stale exactly when its deadline is not that of the current offer or right |
| `Absence.WaitersStay` | `backend/internal/service/expiration.go:181-212` | a waiting user is out only by leaving, by being served or turned away in turn, or when the worker finds the stored deadline of the last sign of life in the past |
| `Absence.DroppedIff` | `backend/internal/service/expiration.go:142-212` | without a failure the worker drops a waiting user exactly when the claim is of the current wait and the user is absent |
| `Absence.HeartbeatProtects` | `backend/internal/repository/redis/cache.go:467-477` | over any run, with failures, crashes, restarts and rejoins, no pass earlier than the timeout, less a second, after a heartbeat drops the user from the queue |
| `EarlyDrop.EarlyDropIff` | `backend/internal/service/expiration.go:142-212` | a user has just been queued at instant j and sends no heartbeat; the process restarts at some of the given instants only. Some run drops it by a pass before second g of its timeout if and only if (1) a worker still holds a claim of an earlier membership whose own pass plus the timeout falls in a second d < g, with d not before j or j + 1002 ms before g, or (2) it may restart at r > j with the second of r not before j and r + 1 ms before g, or with r + 1001 ms before g. The second alternatives are the way of a timer that counts as older than the wait, is claimed, given up and returned |
| `Grace.GraceIsRespected` | `backend/internal/service/expiration.go:142-212` | from any state in which a user has grace, no pass of any run drops it before its grace is over, however workers interleave, whatever fails, dies or restarts at other instants |
| `Grace.JoinGivesGrace` | `backend/internal/service/queue_service.go:634-659` | whoever has just been queued has a whole timeout, down to the second, if and only if no such claim is left |
| `Grace.JoinIsFresh` | `backend/internal/service/queue_service.go:318-362` | every join that queues its user ends in the state that both speak of |
| `EarlyDrop.StaleClaimShortens` | `backend/internal/service/expiration.go:142-159` | because a worker that finds its claim stale counts the timeout from its own pass |
| `EarlyDrop.RestartMakesDue` | `backend/internal/service/recovery.go:315-322` | and because a restart makes every waiting user's timer due at once |
| `EarlyDropRuns.LeftoverDropsEarly` | `backend/internal/service/expiration.go:142-159` | a run from empty stores: a claim at 2500 ms, the user leaves and rejoins at 3400 ms, and is dropped by a pass before 5000 ms, with a timeout of two seconds |
| `EarlyDropRuns.RestartDropsEarly` | `backend/internal/service/recovery.go:315-322` | a run from empty stores: a join at 20 ms, a restart at 1500 ms, dropped by a pass before 2000 ms |
| `Guarantees.NobodyIsForgotten` | `backend/internal/service/expiration.go:59-90` | nobody who waits, is offered units or holds an active right is ever without a timer in the schedule or in processing |
| `Overdue.NobodyHoldsForever` | `backend/internal/service/expiration.go:39-90` | no run leads to an offer or a right that is stuck: from every reachable state, dead processes and abandoned timers included, workers can go on until everybody who holds units there has been through, leaving all others who do not wait alone |
| `ExpirationPass.PassKeepsInv` | `backend/internal/service/expiration.go:39-90` | a whole pass keeps the invariants whichever claims of its batch fail, each under its own faults |
| `PassOutcome.PassSettles` | `backend/internal/service/expiration.go:39-90` | a pass looks at whatever is due or was left in processing under a lease that is over, earliest first, up to its limit. Without a failing write whoever held an offer or a right and was looked at is out, without a timer; whoever waited on a current timer is out if absent, and if present and still waiting is due again exactly when the last sign of life ends |
| `PassOutcome.PassSettlesAll` | `backend/internal/service/expiration.go:39-90` | with a limit that covers what is due or abandoned, that holds of everybody concerned |
| `PassOutcome.PassFilesEverything` | `backend/internal/service/expiration.go:59-90` | wherever writes fail, a pass that the process survives leaves nothing it took in processing and loses no lease of others; each claim is filed as handled or failed, and the failed are due again a second after the pass, unless their users stopped waiting meanwhile; without a failing write only timers of users without a membership fail |
| `HandleOutcome.IdleClaims` | `backend/internal/service/expiration.go:95-212` | a claim on a finished membership changes nothing; one of an older lifecycle gives the current one its deadline, or the waiter a timeout, as timer; one that finds its waiter present sets the timer to exactly the presence deadline |
| `HandleOutcome.EndingClaims` | `backend/internal/service/expiration.go:161-289` | a current claim on an absent waiter, an offer or a right, without a failing write: DECLINED in both stores, a right EXPIRED, the units in the pool before the queue advances |
| `TimerOutcome.WhomAPassTakes` | `backend/internal/repository/redis/cache.go:158-253` | reclaiming and then claiming takes what is due or abandoned and nothing else, as many as the limit allows, none later than one left out, each under its own deadline |
| `TimerOutcome.AckFrees` | `backend/internal/repository/redis/cache.go:182-200` | acknowledging takes exactly the timers still under the claims' leases out of processing and leaves the schedule alone |
| `TimerOutcome.NackFrees` | `backend/internal/repository/redis/cache.go:204-227` | returning does that too and schedules exactly those, unless they are scheduled already, a second after the pass |
| `TimerOutcome.RefreshOnlyDelays` | `backend/internal/repository/redis/cache.go:255-267` | refreshing sets an existing timer to the later of both deadlines and touches no other |
| `Absentees.HeartbeatIsExact` | `backend/internal/service/presence.go:36-84` | a heartbeat stores its own instant plus the timeout, in seconds, and moves the timer of a waiting user there unless that is later; nothing else changes |
| `Absentees.HeartbeatIsAwaited` | `backend/internal/service/presence.go:36-84` | so a waiting user with a timer of its own goes on with one that runs out when that sign of life does, or later if it was later |
| `Absentees.PresentIsAwaited` | `backend/internal/service/expiration.go:181-212` | and so does one whom a pass finds present, with a timer that runs out exactly when the last sign of life does |
| `Absentees.GoneIsDropped` | `backend/internal/service/expiration.go:181-245` | from there over any run in which others do what they like and the user waits in silence, without a restart: the first complete pass at or after that deadline takes the user out of the queue |
| `LeaseProtocol.NextKeepsPool` | `backend/internal/repository/redis/cache.go:158-253` | under any interleaving every timer in processing has exactly one holder, who knows the deadline it was claimed with |
| `LeaseProtocol.BatchIsDue` | `backend/internal/repository/redis/cache.go:158-180` | a batch takes due timers under their own deadlines, earliest first, and is short only when nothing due is left |
| `LeaseProtocol.TimersAreNotLost` | `backend/internal/repository/redis/cache.go:182-253` | over any run a timer stays in schedule or processing until it is dropped or acknowledged under its current lease |
| `LeaseProtocol.NewLeasesAreLater` | `backend/internal/repository/redis/cache.go:1154-1186` | a new lease is later than every lease before it |
| `LeaseProtocol.LateClaimsDoNothing` | `backend/internal/repository/redis/cache.go:182-229` | a lease once lost is lost for good, and acknowledging or returning it changes nothing |
| `LeaseProtocol.RescueRestores` | `backend/internal/repository/redis/cache.go:231-253` | reclaiming gives an abandoned timer its claimed deadline unless it was set again meanwhile |
| `LeaseProtocol.RescueUndoesClaim` | `backend/internal/repository/redis/cache.go:231-253` | claiming a batch and losing the worker is undone by reclaiming |
| `PaymentRace.ActKeepsInv` | `backend/internal/repository/postgres/durable.go:323-448` | every single transaction and script of any number of webhooks, workers, leavers and rejoins keeps the race invariant |
| `PaymentRace.RaceIsDecidedOnce` | `backend/internal/service/queue_service.go:567-629` | exactly one of USED and EXPIRED wins, by one process; units return iff EXPIRED, product_count drops iff USED, and when all are done the cached right and membership are the durable ones |
| `PaymentRace.EveryStepIsProgress` | `backend/internal/service/queue_service.go:875-910` | no process waits for another |
| `Recovery.RepairedRightsAreHonoured` | `backend/internal/service/recovery.go:171-188` | after the repairs every well-formed active right is held by a membership of the same user, product and quantity |
| `Recovery.RepairedHoldersHaveRights` | `backend/internal/service/recovery.go:334-379` | and every well-formed right-holding membership of a known product has such a right |
| `Recovery.RightsAndHoldersPairOff` | `backend/internal/service/recovery.go:171-188` | so active rights and right-holding memberships are in bijection, with matching user, product and quantity |
| `Recovery.RepairIsIdempotent` | `backend/internal/service/recovery.go:134-151` | a second pass finds nothing to repair |
| `RecoveryOutcome.OnlyBrokenRowsAreDeclined` | `backend/internal/service/recovery.go:280-414` | of any rows recovery declines exactly the holders without their right and the offers that make no sense, and keeps every other row as it is |
| `RecoveryOutcome.OnlyOrphansAreExpired` | `backend/internal/service/recovery.go:171-188` | and expires exactly the active rights without their holder |
| `RecoveryOutcome.PoolIsRest` | `backend/internal/service/recovery.go:66-92` | on any rows the pool of a known product opens with product_count less the units held after the repairs, and with 0 if that is negative |
| `RecoveryOutcome.SecondAnswerIsClosed` | `backend/internal/service/recovery.go:74-86` | the clamp at work: after a second answer a restart opens with what it leaves beyond the right granted on the first, and with an empty pool if it falls short of it |
| `Recovery.InterruptedRepairConverges` | `backend/internal/service/recovery.go:134-151` | whatever subset of the repairs a crash let through, the next recovery ends with the same rows up to stamps, the same reservations and the same timers |
| `Recovery.InterruptedRepairKeepsQueues` | `backend/internal/repository/postgres/durable.go:114-122` | and with the same queues, rows of equal stamps included |
| `Recovery.WaitingIsOrdered` | `backend/internal/repository/postgres/durable.go:114-122` | the recovered queue of any snapshot holds exactly the waiting users, by stamp and then by row id |
| `RecoveryLoops.RecoveryState.Build` | `backend/internal/service/recovery.go:153-191` | the loops compute these queues, reservations, repairs and timers |
| `RecoveryLoops.RecoveryState.IndexProducts` | `backend/internal/service/recovery.go:193-226` | the loop over the stock rows finds the known products |
| `RecoveryLoops.RecoveryState.IndexRights` | `backend/internal/service/recovery.go:230-276` | the loop over the rights indexes the well-formed ones and marks those without stock |
| `RecoveryLoops.RecoveryState.ApplyOne` | `backend/internal/service/recovery.go:280-330` | one membership row: queued, reserved, settled or skipped |
| `RecoveryLoops.RecoveryState.ApplyActiveRight` | `backend/internal/service/recovery.go:334-379` | a right-holding row reserves its units or is settled |
| `RecoveryLoops.RecoveryState.ApplyPendingOffer` | `backend/internal/service/recovery.go:381-414` | an offer row reserves its units or is settled |
| `RecoveryLoops.RecoveryState.ExpireOrphans` | `backend/internal/service/recovery.go:171-188` | the rights that end up expired are exactly those nobody honours |
| `RecoveryLoops.AlongIsReserved` | `backend/internal/service/recovery.go:371-372` | adding up along the rows is adding up over the table |
| `RecoveryReplay.ApplyRepairs` | `backend/internal/service/recovery.go:134-151` | the repairs turn the rows into the repaired ones |
| `RecoveryReplay.RestoreStock` | `backend/internal/service/recovery.go:66-92` | stock and queue of a known product, with the pool clamped at zero |
| `RecoveryReplay.CacheMemberships` | `backend/internal/service/recovery.go:94-101` | caching the rows rebuilds memberships and slots |
| `RecoveryReplay.CacheTimers` | `backend/internal/service/recovery.go:109-117` | and the timers |
| `QueueEngine.QueueService.RecoverCache` | `backend/internal/service/recovery.go:43-130` | the whole recovery as the specification of the restart has it |
| `Outbox.StocksAgree` | `backend/internal/service/stock_decrement_outbox.go:23-75` | through duplicates, lost requests, lost answers and dead workers the external stock = product_count + quantities not yet applied there; all acknowledged, the two are equal |
| `Outbox.NextKeepsExchange` | `backend/internal/repository/postgres/durable.go:453-570` | every step of payment, claim, delivery, acknowledgement, rescheduling or death keeps that equation |
| `Outbox.FirstArrival` | `backend/cmd/avitomock/main.go:77-104` | a first arrival takes exactly its quantity: the clamp at zero is never hit |
| `Outbox.DuplicatesAreReplays` | `backend/cmd/avitomock/main.go:82-89` | a repeated one neither conflicts nor takes anything |
| `Outbox.EventsAreKept` | `backend/internal/repository/postgres/durable.go:525-570` | an order is never lost, an acknowledgement never premature and never taken back |
| `Ledger.StepProjects` | `backend/internal/repository/postgres/durable.go:323-448` | every step of the service is at most one action of this exchange, and a possible one: first contact, or the payment that writes an outbox row |
| `Ledger.MovesProject` | `backend/internal/repository/postgres/durable.go:404-446` | so the service and the deliveries together, interleaved in any way, are a run of the exchange whose stock and events are the service's own rows |
| `Ledger.OwnerFollowsService` | `backend/internal/service/stock_decrement_outbox.go:23-75` | from empty stores the external stock = product_count + the quantities of the outbox rows it has not applied; all acknowledged, the two are equal |
| `OutboxRuns.NoEventIsStuck` | `backend/internal/service/stock_decrement_outbox.go:23-75` | no run leads to an event that is stuck: deliveries can go on until all are acknowledged and both stocks are equal |
| `OutboxRuns.LeaseExcludesIff` | `backend/internal/repository/postgres/durable.go:453-486` | over any run after a claim the event is withheld from everybody until the lease ends if and only if no worker that has it reschedules it to an earlier instant |
| `OutboxRuns.LoneClaimIsExclusive` | `backend/internal/repository/postgres/durable.go:453-486` | so the lease is exclusive if nobody was at work on the event when it was claimed and its holder does not give it back |
| `OutboxRuns.OnTimeLeasesAreExclusive` | `backend/internal/service/stock_decrement_outbox.go:23-52` | on one clock: if nobody gives an event back after the lease it was claimed under has ended, then at every moment of the run a worker within its lease is the only one, and the event cannot be claimed until that lease ends |
| `OutboxRuns.OnTimeRunsAreExclusive` | `backend/internal/service/stock_decrement_outbox.go:23-52` | so it is in every such run from an empty outbox, whatever is lost and whoever dies |
| `OutboxRuns.LeaseCanBeBroken` | `backend/internal/repository/postgres/durable.go:546-570` | otherwise it is not: a run in which the late failure of one worker ends the lease of the next |
| `OutboxBatch.BackoffGrowsIff` | `backend/internal/service/stock_decrement_outbox.go:77-91` | a later retry waits at least as long as an earlier one, except for the second against the first when the maximum is below one second |
| `OutboxBatch.BackoffDoubles` | `backend/internal/service/stock_decrement_outbox.go:77-91` | the first pause is a second; from the second attempt on each is twice the one before it, or the maximum if that is less |
| `OutboxBatch.NeverShrinksIff` | `backend/internal/config/config.go:126-128` | pauses never shrink if and only if the maximum is at least one second; any positive one is accepted |
| `OutboxBatch.BackoffCanShrink` | `backend/internal/service/stock_decrement_outbox.go:77-91` | with half a second they do |
| `Delivery.StockOutboxBackoff` | `backend/internal/service/stock_decrement_outbox.go:77-91` | the doubling loop computes one second times a power of two, up to the maximum |
| `Delivery.Stock.Take` | `backend/cmd/avitomock/main.go:77-104` | take with its ledger |
| `OutboxBatch.ReceivedIsLearned` | `backend/cmd/avitomock/main.go:77-104` | after any part of a batch the ledger has exactly the operations it had, unchanged, and those of the batch whose requests arrived |
| `OutboxBatch.ReceivedUnits` | `backend/cmd/avitomock/main.go:77-104` | and the stock has fallen by the units among them that were new, and not below zero |
| `Delivery.Courier.Deliver` | `backend/internal/service/stock_decrement_outbox.go:54-75` | one delivery is one send, followed by an acknowledgement iff it is answered without a conflict and by a rescheduling otherwise |
| `Delivery.Courier.ClaimBatch` | `backend/internal/repository/postgres/durable.go:453-521` | a claim leases due events by next attempt and then by age, and fewer than asked only if no more are due |
| `Delivery.Courier.ProcessStockDecrementOutbox` | `backend/internal/service/stock_decrement_outbox.go:23-52` | a pass claims the first due events in the order of the query, up to the limit. Each one that is answered without a conflict is delivered; every other is free again and postponed by its backoff from the instant of its own delivery; the errors are the number of the latter; all other events are as before, and the ledger has exactly the operations that arrived. All this is a run of the exchange |
| `QueueEngine.QueueService.Advance` | `backend/internal/service/queue_service.go:664-716` | the loop computes the recursive specification of the advance |
| `QueueEngine.QueueService.ApplyStep` | `backend/internal/service/queue_service.go:720-782` | one advance step with its rollbacks |
| `QueueEngine.QueueService.RollbackAdvance` | `backend/internal/service/queue_service.go:785-804` | units and place are given back |
| `QueueEngine.QueueService.SyncCacheState` | `backend/internal/service/queue_service.go:634-659` | right, timer and membership are cached in this order |
| `QueueEngine.QueueService.Join` | `backend/internal/service/queue_service.go:138-254` | joining, with its slot and every way it can fail, as `JoinOutcome` says from outside |
| `QueueEngine.QueueService.AlreadyIn` | `backend/internal/service/queue_service.go:258-281` | the reply to a user who already takes part |
| `QueueEngine.QueueService.Allocate` | `backend/internal/service/queue_service.go:283-362` | the outcome of an allocation and its rollback |
| `QueueEngine.QueueService.Accept` | `backend/internal/service/queue_service.go:366-447` | accepting all or part of an offer, as `AcceptOutcome` says from outside |
| `QueueEngine.QueueService.Leave` | `backend/internal/service/queue_service.go:461-563` | declining and leaving by status, as `LeaveOutcome` says from outside |
| `QueueEngine.QueueService.ExpireRight` | `backend/internal/service/queue_service.go:567-629` | the expiry transaction and what its winner and its losers do |
| `QueueEngine.QueueService.Pay` | `backend/internal/service/queue_service.go:875-910` | paying and replaying, as `PayOutcome` says from outside |
| `QueueEngine.QueueService.Refresh` | `backend/internal/service/presence.go:36-84` | a heartbeat, for this product |
| `QueueEngine.QueueService.HandleKey` | `backend/internal/service/expiration.go:95-178` | one claimed timer |
| `QueueEngine.QueueService.Expire` | `backend/internal/service/expiration.go:161-289` | what ends when a current timer runs out, as `HandleOutcome` says from outside |
| `QueueEngine.QueueService.HandleBatch` | `backend/internal/service/expiration.go:64-76` | the loop over a batch sorts its claims into handled and failed |
| `QueueEngine.QueueService.ProcessExpirations` | `backend/internal/service/expiration.go:39-90` | a pass: reclaim, claim, handle, acknowledge, return, as `PassOutcome` says from outside |
| `RedisCache.CacheRepo.TryAllocate` | `backend/internal/repository/redis/cache.go:37-66` | what a newcomer gets, branch by branch, as `JoinOutcome.JoinIsExact` says from outside |
| `RedisCache.CacheRepo.RestoreProductState` | `backend/internal/repository/redis/cache.go:98-113` | the loops rebuild counters, queue numbered 1..N, sequence and indexes |
| `RedisCache.CacheRepo.TryOccupyQueueSlot` | `backend/internal/repository/redis/cache.go:134-149` | refused, fresh or already held |
| `RedisCache.CacheRepo.ClaimExpired` | `backend/internal/repository/redis/cache.go:158-180` | the loop takes what the specification takes |
| `RedisCache.CacheRepo.AckExpired` | `backend/internal/repository/redis/cache.go:182-200` | the loop drops timers only under their current lease |
| `RedisCache.CacheRepo.NackExpired` | `backend/internal/repository/redis/cache.go:204-229` | the loop returns them only under the current lease, never over a newer timer |
| `RedisCache.CacheRepo.ReclaimStaleExpired` | `backend/internal/repository/redis/cache.go:231-253` | the loop returns all abandoned timers |
| `RedisCache.CacheRepo.RefreshExpiryTimer` | `backend/internal/repository/redis/cache.go:255-267` | forward only, never created |
| `RedisCache.CacheRepo.MarkPurchasedIfCurrentToken` | `backend/internal/repository/redis/cache.go:269-291` | only for the current token of an active right |
| `RedisCache.CacheRepo.PopAndAllocate` | `backend/internal/repository/redis/cache.go:293-343` | the head of the queue and what it gets |
| `DurableStore.DurableRepo.IssueRightAndUpsertMembershipTx` | `backend/internal/repository/postgres/durable.go:213-253` | right and membership together or not at all |
| `DurableStore.DurableRepo.UseRightTx` | `backend/internal/repository/postgres/durable.go:323-448` | right, stock, order and membership together or not at all |
| `DurableStore.DurableRepo.ExpireRightAndUpsertMembershipTx` | `backend/internal/repository/postgres/durable.go:574-635` | only from ACTIVE, right and membership together |

## Left out

- QueueEngine.QueueService.Refresh: one product at a time; the loop of `RefreshUserPresence` over a user's queued products and its presence claim are not modelled, because the products do not interact there.
- QueueEngine.QueueService.RecoverCache: one product, although `RecoveryLoops.RecoveryState.Build` runs over the rows of all products; and no failing call inside the recovery, whose interruption `Recovery.InterruptedRepairConverges` covers.
- RecoveryLoops.RecoveryState.ApplyPendingOffer: stamps with the instant of the recovery, where the code reads the clock again.
- PaymentRace.RaceIsDecidedOnce: the advance of the queue that follows a payment or an expiry, timers and slots are not part of the race.
- WorkConservation.NothingLiesIdle: only for runs without failures; after a failed advance units can lie idle until the next trigger, exactly as `FailedWrites.IdleIffFinished` says.
- WorkConservation.ReplayedWebhookIsNoOp: only for runs without failures, because a replay retries a failed advance on purpose; `Payment.ReplayRecordsNothing` needs no such restriction.
- Delivery.Courier.ClaimBatch: claims the events of a batch one by one, where the query locks them together.
- Absentees.GoneIsDropped: runs without a restart, which makes the timer due at once, and without a worker that still holds an old claim on the user; `EarlyDrop.EarlyDropIff` is about those.
- Ledger.OwnerFollowsService: one product, whose orders are numbered by their rights; several products meet only in `Outbox`.
- The waiting loops of requests that lost a membership claim, and the expiry of the claim itself: a claim is won or lost.
- Product metrics, queue positions and other reports, Pub/Sub notifications, and the checks of token owner and product before checkout: they change no state.
- HTTP, WebSocket and SSE handlers, the frontend, the browser extension, configuration, logging, the pools, and the encodings of Redis and SQL values.
- The demo endpoint of the mock that overwrites its stock, and its checkout page.
