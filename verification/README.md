# Ticket sale: a verified model

fastdeal.live sells tickets while many buyers ask for the same ones at once. What makes a sale is spread over
four stores that are never updated together: a lock that expires after five seconds, a sold-out flag that expires
after a day, a job queue that starts one job per second and tries it three times, and the SQL tables, whose ticket
update does not look at what the row holds. No branch of the code shows that a seat is sold once. It follows from an
invariant that links the lock, the flag, the queue, the clock and the rows, and this project states that invariant,
proves that every step of every participant keeps it, and proves what the service promises from it.

## How the model is built

| Files | What they hold |
|---|---|
| `Durations`, `Tables` | time constants; rows, and the two writes of a sale as one transaction |
| `SaleProtocol` | the sale as a state machine: one action is what one participant does between two awaits, with its outcome (answer, error, lost reply, crash, clock tick, expiry) |
| `SaleInvariant`, `SeatingSteps`, `WorkerSteps`, `StandingSteps`, `SaleRuns` | the inductive invariant and the proof that every step keeps it |
| `SeatMachine` | the protocol refines an atomic machine per seat: Free, Claimed(user), Quarantined, Sold(user) |
| `SaleTheorems`, `Compensation`, `StandingSale` | theorems over whole runs |
| `Windows`, `QueueCapacity` | the timing the theorems need: exactly which windows, and when the queue keeps them by itself |
| `Reachable`, `Redelivery` | runs built step by step, for the runs that show where a property ends |
| `Locking`, `Records`, `Attempts`, `Recovery`, `Retry` | what holds of every run, timely or not: who owns a lock and for how long, what the tables never lose, how often and when a job is tried, and that no ticket stays unsold for good |
| `Cache`, `Sessions` | the shared key-value store, its two clients, and logins |
| `Database`, `EventCreation`, `SharedPlatform`, `Services` | the repositories and services as classes that change the stores in place |

The classes of `Services` do not run alone. At every await the `Platform` lets all other participants take any number
of steps (a caller of `Others` knows only that they took protocol steps), and each effect a service has on a store is
recorded as one step of the protocol. So the history of everything that happens is a run of the protocol, and the
theorems about runs hold of what the services return. The contracts of `CreateSeating` and `CreateStanding` also name
the step of that history which explains each outcome: a refusal or a failed lock must have been seen, a success must
have been made.

A *safe run* is a run from an initial state in which a flag (or a standing sale) is written less than five seconds
after its caller took the lock, and no claim is open for a day after its flag was written. `Windows` proves that these
bounds are the right ones in both directions; `QueueCapacity` discharges the last one for a queue that keeps up.

## What is assumed

- There is one lock store. A lock is taken only when no live lease stands, and only its owner gives it back.
- A rejected `queue.add` has added no job.
- A database transaction is atomic and isolated. The find-first query and the commit of a standing sale are
  nevertheless two steps of the protocol, so that it is the event's lock which keeps two callers apart. On both routes a
  commit may go through although whoever sent it gets an error, or nothing, instead of its report.
- Seating requests name tickets of SEATING events, standing requests STANDING events; the code documents the split
  (src/modules/reservations/service/reservations.service.ts:26 and :56) and does not check it. A seating request's
  event id need not be the event of its ticket.
- Any number of workers, one per application instance, share the queue and its limiter; a job is at one worker at a
  time. An attempt that stalls has ended: it neither commits nor reports later.
- A job may stall once and is then started again; if it stalls again it fails, whatever attempts it has left. That is
  BullMQ's default, and src/modules/reservations/processor/reservation.processor.ts:14-20 does not change it.
- Generated ids are fresh: calls, reservations, tickets and events get ids nobody has used.

## Where the code and its documentation part

- src/infrastructure/cache/service/redis.service.ts:52-58 says that a failed enqueue is retried three times before the
  flag is given back. src/infrastructure/queue/service/queue.service.ts:29-36 gives it back on the first rejected add;
  the three attempts are attempts at processing a job that was added. The model follows the code.
- "A ticket is sold once" is false of the code without timing conditions. `LateWriteSellsTwice`, `OldClaimSellsTwice` and
  `LateSaleSellsTwice` build runs in which two buyers buy one ticket and the second sale takes the row from the first;
  on the seating route both buyers are told success and neither job gives up. `WindowsAreExact` and
  `SeatWindowsAreExact` are the exact conditions.
- "A sold ticket keeps its reservation" is false under at-least-once delivery: `RedeliveryRelinks` is a safe run that
  gives a sold ticket a second reservation and leaves the first without a ticket. `SoldRowIsFinal` and `Conservation`
  say exactly when it holds.

## Model

| member | source | states |
|---|---|---|
| `SaleRuns.StepKeepsInv` | src/modules/reservations/service/reservations.service.ts:32-52 | every step of every participant taken within the timing windows keeps the invariant that links locks, flags, calls, jobs, schedule and rows |
| `SaleRuns.RunKeepsInv` | src/modules/tickets/service/tickets.service.ts:43-69 | the invariant holds in every state of every run that has been timely so far, for any windows no wider than the lease and the flag's lifetime |
| `SaleTheorems.RunSellsOnce` | src/modules/reservations/service/reservations.service.ts:32-49 | in every state of a safe run and for every ticket, calls past the availability check that hold a live lease or are enqueueing, unresolved jobs and linked reservations total at most one; the lease may run out during the enqueue, and a call that outlives it before its flag write is one that a safe run supposes not to write |
| `SaleTheorems.NoDoubleSale` | src/modules/tickets/service/tickets.service.ts:46-66 | the same total is at most one in every state that satisfies the invariant |
| `Windows.TwoCallsPastTheCheck` | src/modules/tickets/service/tickets.service.ts:46-66 | calls whose lease has run out have to be left out of this total: in a safe run two calls can be past the check of one seat at once |
| `Windows.WindowsAreExact` | src/modules/reservations/service/reservations.service.ts:32-86 | a ticket sold on either route stays its buyer's in all runs with flag-write window w, standing-sale window v and claim age d if and only if w and v fit the locks' five seconds and d the flag's day |
| `Windows.SeatWindowsAreExact` | src/modules/reservations/service/reservations.service.ts:32-49 | with standing sales inside their lease, each of two further readings of sold once, the total above being at most one and of two success answers one having given up, holds in all runs if and only if w fits the lease and d the flag's day |
| `Windows.LateWriteSellsTwice` | src/modules/tickets/service/tickets.service.ts:46-66 | with any wider write window there is a run in which two buyers are told success for one seat, neither gives up, and the second sale takes the row from the first |
| `Windows.OldClaimSellsTwice` | src/infrastructure/cache/service/redis.service.ts:44-46 | the same with any longer claim age: the flag expires under an open claim and a second buyer passes the check |
| `Windows.LateSaleSellsTwice` | src/modules/reservations/service/reservations.service.ts:62-89 | with any wider window for standing sales there is a run in which two callers buy one standing ticket |
| `QueueCapacity.PromptRunIsSafe` | src/modules/reservations/processor/reservation.processor.ts:14-20 | take any number of workers whose starts and promotions are at most `lag` late and whose attempts take at most `attempt`, calls that enqueue within `enqueue`, and at most N seats on sale and committed jobs still to be repeated at any time: if enqueue + (3N + 5)(max(1 s, attempt) + lag), or with stalls enqueue + (8N + 7)(max(1 s, attempt) + lag), fits a day, no claim is ever older than that, and the run is safe |
| `QueueCapacity.BoundIs` | src/modules/reservations/processor/reservation.processor.ts:14-20 | the bound on the age of claims in closed form |
| `QueueCapacity.GrantsAreSettledInTime` | src/infrastructure/queue/service/queue.service.ts:16-28 | once that bound has passed since its flag, a caller told success holds the ticket, or its job has used up its three attempts or stalled twice |
| `QueueCapacity.QueueFits` | src/infrastructure/queue/service/queue.service.ts:18-28 | the jobs waiting and in progress, with any other claim or repeated job, number at most the seats on sale and the committed jobs still to be repeated |
| `QueueCapacity.ReturnKeepsOthers` | src/modules/reservations/processor/reservation.processor.ts:14-20 | a stalled job that returns to the front of the wait list makes no waiting job later than its deadline: it had been counted ahead of it |
| `QueueCapacity.StepKeepsDeadlines` | src/infrastructure/queue/service/queue.service.ts:18-28 | every step between two states in which nobody is late, stalls and lost reports included, keeps the deadline of each claim that waits, is in progress or is backed off within the bound |
| `QueueCapacity.DeadlinesKeepClaimsYoung` | src/infrastructure/cache/service/redis.service.ts:44-46 | in a state in which nobody is late, deadlines within the bound mean that every open claim is younger than the bound |
| `QueueCapacity.TenThousandTicketsSellOnce` | README.md:11 | ten thousand seats on sale with at most 2.8 s from start to start and no stalls, or 1.07 s and a stall per job: no claim stays open for more than 85700 s, less than a day, and every seat is sold once |
| `Locking.LeasesHaveHolders` | src/modules/reservations/service/reservations.service.ts:32-52 | in every run from an unlocked state, an initial one for instance, every lease of a ticket or an event belongs to a call for that very ticket or event that still holds its lock or has crashed |
| `Locking.ReturnedCallsOwnNothing` | src/modules/reservations/service/reservations.service.ts:62-89 | so a call that has returned owns no lease at all |
| `Locking.LeaseStays` | src/modules/reservations/service/reservations.service.ts:32 | a ticket's lease survives every step but its own owner's release and, once it is over, the next taking of the lock |
| `Locking.LockIsExact` | src/modules/reservations/service/reservations.service.ts:32 | a ticket's lock, taken and not taken again since, is free if and only if its taker has released it or 5000 ms have passed |
| `Locking.EventLockIsExact` | src/modules/reservations/service/reservations.service.ts:62 | the same for the lock of an event |
| `Records.RecordsStay` | src/modules/tickets/repository/tickets.repository.ts:59-81 | over every run a stored ticket keeps its event, price, seat number, check-in code and image, a stored event its kind, and a stored reservation its event and user |
| `Records.UnsoldRowStays` | src/modules/tickets/repository/tickets.repository.ts:97-119 | over every run a ticket's row stays exactly as it is while no sale of that ticket commits |
| `Attempts.TriesAreExact` | src/infrastructure/queue/service/queue.service.ts:18-23 | in every run a job has failed for good if and only if three of its attempts ended in an error or two stalled |
| `Attempts.StartsAreExact` | src/modules/reservations/processor/reservation.processor.ts:14-20 | in every run an attempt can start if and only if a job waits, a worker is idle, and each earlier start on any worker is at least 1000 ms ago |
| `Attempts.AttemptsAreExact` | src/modules/reservations/processor/reservation.processor.ts:14-20 | in every run a job is in progress if and only if an attempt was started at it, as the first of the jobs that waited, and has not ended since; the queue has the time of that start |
| `Attempts.BackoffIsExact` | src/infrastructure/queue/service/queue.service.ts:20-23 | in every run a job to be tried again stays off the wait list until it is promoted, and that can be if and only if 1000 ms have passed since the error |
| `SeatMachine.StepRefines` | src/modules/tickets/service/tickets.service.ts:43-69 | for every seat, every timely step of anybody is a stutter or one move of the machine Free, Claimed, Quarantined, Sold |
| `SeatMachine.CallMovesSeat` | src/modules/tickets/service/tickets.service.ts:43-69 | the linearisation points of a seating call: a free seat becomes the caller's at the flag write and at no other step; a rejected add quarantines it, the compensating delete frees it |
| `SeatMachine.CallMovesOneSeat` | src/modules/reservations/service/reservations.service.ts:32-52 | no step of a seating call moves another seat |
| `SeatMachine.WorkerMovesSeat` | src/modules/reservations/processor/reservation.processor.ts:37-54 | the end of an attempt at one of the workers takes the claimed seat to sold to its claimant if it committed, reported or not, to quarantined if it was the job's last try, and leaves it alone otherwise; a sold seat stays |
| `SeatMachine.StandingMovesSeat` | src/modules/reservations/service/reservations.service.ts:62-89 | a standing sale takes a free seat to sold to the caller and moves no other seat |
| `SaleTheorems.RunRefines` | src/modules/reservations/processor/reservation.processor.ts:37-54 | the history of every seat in a safe run is a run of the seat machine with stutters |
| `SaleTheorems.SoldIsFinal` | src/modules/tickets/repository/tickets.repository.ts:59-81 | a sold seat stays sold to the same user for the rest of the run, through redeliveries and expired flags |
| `SaleTheorems.FlagRefusalsAreSound` | src/modules/tickets/service/tickets.service.ts:46-50 | "sold out" is never answered for a free seat and always for a claimed or quarantined one |
| `SaleTheorems.RowRefusalsAreSound` | src/modules/tickets/service/tickets.service.ts:52-64 | "not found" exactly when there is no row, "not available" exactly when the seat is sold; under a live lease the call goes on exactly when the seat is free |
| `SaleTheorems.GrantedAnswersHold` | src/modules/reservations/service/reservations.service.ts:37-51 | after a success answer, in every later state, the caller's job is unresolved, or used up its three attempts or stalled twice, or the caller holds the ticket |
| `SaleTheorems.NobodyElseIsGranted` | src/infrastructure/queue/service/queue.service.ts:16-37 | if another caller is later told success for the ticket, the first one's job has failed for good without selling it |
| `SaleTheorems.OneGrantHolds` | src/modules/reservations/service/reservations.service.ts:37-51 | of two calls told success for one ticket at least one has given up |
| `SaleTheorems.JobStaysForever` | src/infrastructure/queue/service/queue.service.ts:16-28 | a job never changes what it books, and one that has given up stays so |
| `SaleTheorems.CommitNeverTakesARow` | src/modules/tickets/repository/tickets.repository.ts:59-81 | the unconditional update never takes a row from anybody: at every commit of any worker in a safe run a first delivery finds the row available and unlinked, a redelivery finds it sold to its own user |
| `SaleTheorems.SoldRowIsFinal` | src/modules/reservations/processor/reservation.processor.ts:40-53 | over a run a sold row keeps its owner, and keeps its reservation if and only if no job that books the ticket is committed again in between |
| `SaleTheorems.SoldRowStays` | src/modules/reservations/processor/reservation.processor.ts:37-54 | a sold ticket's reservation changes at exactly the commits of a job that books it; that job is its owner's and has committed before |
| `SaleTheorems.Conservation` | src/modules/reservations/repository/reservations.repository.ts:19-32 | in every state tickets are unavailable exactly when linked, reservations number the sold tickets plus the repeated commits of the run, and sold tickets and reservations correspond one to one if and only if there were none |
| `SaleTheorems.AcknowledgedRunRepeatsNothing` | src/modules/reservations/processor/reservation.processor.ts:37-54 | there are none in a run in which every commit is acknowledged |
| `Redelivery.RedeliveryRelinks` | src/modules/reservations/processor/reservation.processor.ts:37-54 | otherwise there can be: a safe run in which a committed attempt stalls ends with a repeated commit that gives the sold seat another reservation and leaves the old one without a ticket |
| `Tables.SaleKeepsConsistent` | src/modules/tickets/repository/tickets.repository.ts:68-80 | the two writes of a sale keep links unique and resolving, sell to the booking's user, add one reservation, and one sold ticket if the ticket was available |
| `Tables.SaleWritesExactly` | src/modules/tickets/repository/tickets.repository.ts:68-80 | a sale can be made if and only if event, user and ticket exist and the reservation id is fresh; it then adds that one reservation and changes two columns of that one ticket, and nothing else |
| `Tables.SaleTouchesOneTicket` | src/modules/tickets/repository/tickets.repository.ts:68-80 | the update changes neither the availability nor the owner of any other ticket |
| `Tables.EveryReservationHasOneTicket` | prisma/schema.prisma:92-123 | when counts agree every reservation is the reservation of exactly one ticket |
| `SaleTheorems.FailedJobOutlivesFlag` | src/infrastructure/queue/service/queue.service.ts:25-27 | while a failed claim's flag can still be up its failed-job record is still kept, for 86400000 ms, the one lifetime given in milliseconds and floored, the other in seconds |
| `Compensation.CompensationUndoes` | src/infrastructure/queue/service/queue.service.ts:29-36 | after a rejected add and its compensating delete, the ticket's flag, jobs and row are what they were when the call read the flag, whatever others did in between |
| `Compensation.CompensationDeletesOwnFlag` | src/infrastructure/queue/service/queue.service.ts:29-36 | the late delete only ever removes the flag its own call wrote, while nobody else has a stake in the ticket |
| `Compensation.GuardedStep` | src/modules/tickets/service/tickets.service.ts:46-66 | a step of anybody that leaves a call between its flag read and the end of its compensation, with its ticket available before and after, touches neither the ticket's row nor its jobs |
| `StandingSale.StandingSaleIsExact` | src/modules/reservations/service/reservations.service.ts:62-89 | on an event with n free tickets before anybody called, in every later state exactly min(k, n) calls have bought a ticket, k being the calls that bought or were told there is none, whatever the interleaving and whichever other calls failed |
| `StandingSale.AnsweredSaleIsExact` | src/modules/reservations/service/reservations.service.ts:62-89 | when all k calls were answered without failure, exactly min(k, n) bought, and those are the ones told success |
| `StandingSale.BuyersHaveDistinctTickets` | src/modules/tickets/service/tickets.service.ts:122-183 | each buyer has a ticket of its own: of the event, sold to its user, on a reservation of the event |
| `StandingSale.RunBalances` | src/modules/tickets/repository/tickets.repository.ts:83-119 | free tickets plus buyers of a standing event are constant over a run |
| `StandingSale.RefusedCallsWriteNothing` | src/modules/reservations/service/reservations.service.ts:72-86 | in every run, whose steps are whole transactions, a standing call that ends without a ticket has left the tables unchanged at each of its steps |
| `Recovery.NoTicketIsLost` | src/infrastructure/cache/service/redis.service.ts:52-75 | after such a day the ticket is sold, or free and, once its lock is free, the next caller has a run in which it is granted the seat |
| `Recovery.QuietDayFreesTicket` | src/infrastructure/cache/service/redis.service.ts:52-75 | in any run, timely or not, with crashes, failed jobs and everybody else at work: a ticket whose flag nobody has raised for a day and on which nobody has an open claim is sold, or free |
| `Recovery.FreshCallIsGranted` | src/modules/reservations/service/reservations.service.ts:32-52 | a new call for an available, unflagged, unlocked ticket has a run to its success answer |
| `Recovery.FlagIsExact` | src/infrastructure/cache/service/redis.service.ts:44-46 | in every run a flag, raised and neither raised again nor deleted since, is up for exactly 86400000 ms |
| `Recovery.AlwaysInRun` | src/infrastructure/cache/service/redis.service.ts:70-75 | in every run whatever, no flag outlives a day and no ticket's or event's lease five seconds, queued jobs have one to three attempts left, each in one place of the schedule, and the tables stay consistent |
| `Retry.RetriesAreBounded` | src/infrastructure/queue/service/queue.service.ts:19-23 | over every run, attempts ended, however they end, plus tries left are at most four per enqueued job: three attempts and one stall |
| `Retry.StepLowersPending` | src/infrastructure/queue/service/queue.service.ts:19-23 | the tries left of all queued jobs drop with every attempt that ends, rise only by an enqueue, by four, and otherwise stay |
| `Retry.ReservationsCountCommits` | src/modules/reservations/processor/reservation.processor.ts:40-53 | over every run the reservations grow by exactly the number of commits on both routes, whatever failed, stalled or was retried in between |
| `Retry.SoldTicketsCountFirstCommits` | src/modules/reservations/processor/reservation.processor.ts:40-53 | in a safe run the sold tickets grow by exactly the commits that repeat none |
| `Cache.KeysNeverMeet` | src/infrastructure/cache/service/redis.service.ts:44-50 | flag keys and token keys never coincide if and only if neither prefix begins the other |
| `Cache.RedisService.SetTicketSoldOut` | src/infrastructure/cache/service/redis.service.ts:44-46 | the entry under `sold-out-` and the ticket's id expires exactly 86400000 ms later, unless the call does not arrive |
| `Cache.RedisService.GetTicketSoldOut` | src/infrastructure/cache/service/redis.service.ts:48-50 | answers whether an entry that has not expired stands under `sold-out-` and the ticket's id |
| `Cache.RedisService.DeleteTicketSoldOut` | src/infrastructure/cache/service/redis.service.ts:66-68 | removes the ticket's entry and no other |
| `Cache.RedisService.SetEntry` | src/infrastructure/cache/service/redis.service.ts:70-75 | a lifetime in milliseconds becomes whole seconds; no lifetime, or zero, means none |
| `Sessions.SharedStoreIsTwo` | src/infrastructure/cache/service/redis.service.ts:18-83 | after any history of logins, logouts, flags and waits the one store holds exactly what two separate expiring maps would |
| `Sessions.ApartIsExact` | src/infrastructure/token/service/token.service.ts:32-34 | that is so for all histories if and only if neither prefix begins the other |
| `Sessions.LatestLoginWins` | src/modules/auth/service/auth.service.ts:14-45 | a token is accepted exactly when it is the non-empty token of the user's latest login, no logout followed, and fewer than its whole seconds of lifetime have passed |
| `Sessions.AuthService.Login` | src/modules/auth/service/auth.service.ts:14-26 | the token is stored under the configured prefix and the user's id for its lifetime in whole seconds, which is the history's next store, and a failed write is reported as a failed set |
| `Sessions.AuthService.Logout` | src/modules/auth/service/auth.service.ts:28-34 | likewise a logout removes that entry and no other |
| `Sessions.AuthService.CheckIsLoggedIn` | src/modules/auth/service/auth.service.ts:36-45 | accepted exactly when the token is not empty and is the one stored under the user's key, not yet expired; this is the answer `LatestLoginWins` is about |
| `EventCreation.CountIsCeiling` | src/modules/events/service/events.service.ts:61 | the loop runs for the numbers below the quantity, fractional or negative quantities included |
| `EventCreation.EventsService.MapTicketData` | src/modules/events/service/events.service.ts:55-78 | the loop yields that many tickets, seat i + 1 at place i, all of the event |
| `EventCreation.EventsService.Create` | src/modules/events/service/events.service.ts:21-43 | all or nothing: a failure is reported as a failed creation and stores nothing; otherwise the event is stored with the kind asked for, under the i-th id the free ticket i + 1 with the price and image asked for and a check-in code of its own, and every earlier event, ticket and reservation is unchanged |
| `EventCreation.SeatsAreNumbered` | src/modules/events/service/events.service.ts:55-78 | the new rows are as many as the quantity rounded up, numbered 1 to n without repeats, all of the event, free and unlinked |
| `EventCreation.CreationKeepsTheSale` | src/modules/events/service/events.service.ts:21-43 | at any moment of the sale, creating an event under fresh ids is an enabled step that keeps the invariant; it stores the same rows, in these words, as `Create` does, puts all the seats on sale and changes no earlier row |
| `EventCreation.FirstEventOpensTheSale` | src/modules/events/service/events.service.ts:21-43 | the first event of an empty shop puts the sale into an initial state of the protocol |
| `Database.TicketsRepository.FindStandingTicketTX` | src/modules/tickets/repository/tickets.repository.ts:83-95 | finds an available ticket of the event, whichever the database lists first, or none exactly when there is none |
| `Database.TicketsRepository.ReserveTicketTX` | src/modules/tickets/repository/tickets.repository.ts:59-81 | succeeds if and only if ticket and reservation exist, whatever the row holds; then the row is unavailable and linked, keeps its event, price, seat number, check-in code and image, and no other row has changed; otherwise nothing is written |
| `Database.ReservationsRepository.CreateReservationTX` | src/modules/reservations/repository/reservations.repository.ts:10-33 | inserts the one reservation of that event and user, or fails and writes nothing, exactly when the event or the user is missing or the id is taken |
| `Services.TicketsService.FindTicketByTicketId` | src/modules/tickets/service/tickets.service.ts:43-69 | whatever others do at its three awaits, the outcome follows what the call read at them: sold out with the flag up, else not found without a row, not available with a sold one, else success with the flag raised and the very row that was stored when it read; it throws only when a read fails, or the flag's write after reads that lead to it |
| `Services.QueueService.Compensate` | src/infrastructure/queue/service/queue.service.ts:29-36 | a delete that arrives leaves no flag of the ticket, in the protocol's state and in the cache |
| `Services.QueueService.AddReservationJob` | src/infrastructure/queue/service/queue.service.ts:16-37 | a job with exactly this booking, three attempts and one stall is queued, and the call granted, exactly when the add works; otherwise no job is queued, the flag is gone unless the delete did not arrive, and the call throws |
| `Services.ReservationsService.CreateSeating` | src/modules/reservations/service/reservations.service.ts:32-52 | the call is a run of the protocol, and its outcome follows the history: not locked only if, before it had the lock, somebody else's lease was live, refused only for what was read, a failed enqueue only with the flag deleted again if the delete arrived, and otherwise success with the row it read and its job in the queue; whatever the outcome it owns no lock afterwards; in a safe run success means its claim is pending, sold to it, or failed for good, with every other grant of the ticket failed for good |
| `Services.ReservationsService.CreateStanding` | src/modules/reservations/service/reservations.service.ts:62-89 | the call is a run of the protocol, and its outcome follows the history: not locked only if, before it had the lock, somebody else's lease was live, a missing event or user, no free ticket, a lost commit although there was one, or otherwise a sale, reported or not; whatever the outcome it owns no lock afterwards; in a safe run a sale means a ticket of the event sold to the caller and to no other call |
| `Services.ReservationsService.StandingTransaction` | src/modules/reservations/service/reservations.service.ts:72-86 | which of its errors the transaction throws and when; every error but a lost report rolls back all of it, and else it adds the one reservation and marks one ticket of the event, that was available, sold, keeping its other columns and every other row |
| `Services.ReservationConsumer.Process` | src/modules/reservations/processor/reservation.processor.ts:37-54 | an attempt makes both writes or none: it writes exactly when event, user and ticket exist, the id is fresh and the commit arrives, and succeeds exactly when that commit is also reported; the ticket's other columns and all other rows are unchanged |
| `Services.ReservationConsumer.Settle` | src/infrastructure/queue/service/queue.service.ts:18-28 | what the queue does with the result of an attempt: the job completes, is backed off with an attempt fewer, or has failed, and the worker is idle again |
| `Services.ReservationConsumer.Deliver` | src/modules/reservations/processor/reservation.processor.ts:37-54 | a job that can be sold is done after a commit that works, and in no place of the queue; if it cannot be sold or the commit is lost, nothing is written and it has one attempt fewer, backed off for 1000 ms or, after the last, failed for good; if only the report is lost, the same holds but the sale stands; every other job stays as and where it is, and all of this is one step of the protocol |
| `Services.SuccessHolds` | src/modules/reservations/service/reservations.service.ts:37-51 | what a success answer means in the last state of every safe run |

## Left out

- Internals of MurLock, BullMQ, Prisma, cache-manager and Redis: they are modelled by their contracts, a lease lock, a
  rate-limited retrying queue, an atomic transaction and an expiring map. Lock acquisition does not wait and retry, and
  a failing unlock is not told apart from a crash.
- Starting, stalling and promoting jobs have no method of their own in `Services`: the repository has no code for them.
  They are worker steps of the protocol.
- The deployment points its instances at two lock servers (docker-compose.yml:30 and docker-compose.yml:150); the
  theorems hold for one.
- An add whose job was stored although the caller saw an error, and attempts that go on after their job has been given to
  another worker or has left the queue, are excluded by the assumptions above.
- SaleTheorems.FailedJobOutlivesFlag: the record's deletion is a date, not a step; the model keeps finished jobs as history.
- QueueCapacity.PromptRunIsSafe: several workers get the bound of one; that they share long attempts between them is not used.
- StandingSale.RefusedCallsWriteNothing: the reservation that a standing transaction writes before its find is no step of the protocol; that it is rolled back is what `StandingTransaction` states.
- Services.ReservationsService.CreateStanding: a reservation id that is already taken is answered like a missing event or user.
- Cache.RedisService.SetEntry: a lifetime below one second is passed on as zero seconds, which the model treats as already expired.
- Sessions.LatestLoginWins: covers lifetimes of at least one second, for the same reason.
- EventCreation.EventsService.Create: the place an event connects to and the event's other columns are not modelled; whether the connect works is a parameter.
- Services.ReservationsService.StandingTransaction: the check that the row found by `isAvailable: true` is available
  (src/modules/tickets/service/tickets.service.ts:156-158) cannot fail and has no branch; a failing query is not told apart from a failing commit.
- `findTicketByTicketIdTX`, which the routes do not call, the listing and counting of an event's tickets, the mapping of
  rows to entities, and the cache's private `reset`, which nothing calls.
- Controllers, validation, guards, filters, logging, notifications; places, users, seller applications and queries.
- Token signing, password hashing and the refresh endpoint; tokens are opaque strings, and token generation is a parameter.
- Failover of failed jobs, which the repository announces and does not contain.
