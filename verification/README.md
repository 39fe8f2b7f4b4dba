# Verified model of a peer-to-peer micropayment system

The system is a client (`src/client.cpp`), a server (`src/server.cpp`) with an
account table (`src/Database.cpp`) and the thread pool the server runs its
sessions on (`include/ctpl_stl.h`).  This project models the three parts in Dafny
and proves what they promise together.

`dafny verify dfyconfig.toml` checks everything.

## The three parts

**The thread pool.**  `Pool.dfy` is the pool as a machine of atomic steps: one
locked queue operation, one read of `isDone` or of a stop flag, one acquisition of
the pool mutex, one notification.  A run is any interleaving of any number of
workers, of callers of `push`, and of one controller that calls `resize` and
`stop`; sleeping workers may wake spuriously.  The enqueue and the notification of
`push` are two steps, and the wait predicate pops before it looks at `isDone` and
at its flag, as in the code.  `ThreadPool.dfy` holds the classes `Queue` and `Pool`
with the source's fields; each method performs one atomic step on those fields,
keeps the invariant, and is proved to be the machine's step.  `PoolInvariants.dfy`
has the invariants that every step keeps, `PoolShutdown.dfy` the theorems about
runs, `PoolCalls.dfy` what a call of `stop` or `resize` has done when it returns,
`PoolRounds.dfy` what the steps of a worker and of `push` add up to, and
`PoolCases.dfy` runs that reach the states on which draining depends.
`Admission.dfy` puts the accept loop and the two user counters on top of the pool.

**The payment protocol and the ledger.**  `Ledger.dfy` has the account table as
functions on rows and the class `Database` whose methods are proved against them,
with balances as integers, amounts as reals, and truncation written out.
`Queries.dfy` says what the queries and the decisions mean for the rows themselves.
`LedgerRuns.dfy` proves laws over every run of database calls, and
`Interleaving.dfy` drops the assumption that calls are serialised: a transfer is
two reads and two writes that interleave with other transfers.  `Overlap.dfy` says
exactly when that goes wrong.  `Server.dfy` is
`process_request` (class `Globals` for the server's globals, and the function
`React` it is proved against), `SessionIndex.dfy` the correspondence of sessions,
online rows and `client_fds`.  `Protocol.dfy` puts everything into one transition
system: clients with their main and receive threads, FIFO channels, sessions,
`client_fds` and the table.  A client may issue its commands in any order, which
covers the lists that the menu requests by itself.  `ClientProcess.dfy` is the
client program as a class whose methods are the client's part of that system.  The
invariant is in `ProtocolInvariants.dfy`, `ProtocolData.dfy` and
`ProtocolSteps.dfy`, what a reply answers in `ProtocolReplies.dfy`, and the
theorems are in `ProtocolTheorems.dfy` and `ProtocolProgress.dfy`.

**The wire format.**  `Text.dfy` has `split` as the loop over `strtok` that it is,
with its specification, and the decimal conversions; `Commands.dfy` the commands
that the client prints and the server parses; `ClientView.dfy` the lists that the
server prints and the client parses, and the client's test for a successful login.

## What the theorems assume

- Database calls are serialised, except in `Interleaving.dfy` and `Overlap.dfy`.
  A session handles one command without interruption; the one command for which
  that is more than serialised calls is a list, whose count and lines come from two
  calls, and `ClientView.ParsesIff` says exactly when that matters.
- The server starts from a reset table, and `client_fds` starts empty.
- A connection logs in successfully at most once.  The client enforces it
  (`src/client.cpp:178-181`) when its peer socket binds; `SecondLoginJams` shows
  that the agreement of sessions and rows is lost otherwise.
- Live connections have distinct endpoints, and a connection number is not used
  again.  `OneToOne` shows that a transfer's answer finds its addressee exactly
  when the sender has a live session, which is why the next assumption matters.
- A client does not crash while its own payment is in flight.  It may crash at
  any other time, and peers may crash or exit while they hold other clients'
  payments.
- Arithmetic on `double` is exact for the amounts in use; amounts are reals.
- `current_user` and `tmp_current_user` are updated atomically.
- `transact_msg` starts empty.  `send_P3` and `recv_P3` deliver strings losslessly
  and in order.
- Names are nonempty and contain no `#`; names and addresses in a list contain no
  newline either.  The client does not check this.  `NamesOk` in the guards of
  `Protocol.Enabled` is what keeps commands that are read as something else, such
  as the payments of `LoginReadAsPayment`, out of the settlement theorems.

## Where the code differs from its comments

- The comment on `stop` (`include/ctpl_stl.h:149`) says that with `isWait` all
  functions in the queue are run.  A pool of size zero discards them instead
  (`ZeroSizePoolDiscards`), and after a shrink `stop` may return while a detached
  worker still runs one (`DetachedWorkerOutlivesStop`).  `StopTrueDrainsIff` says
  for every pool exactly when the comment holds.
- A command is read as it was meant if and only if its names are nonempty and free
  of `#` and it is not a login under the name `REGISTER` (`UnderstoodIff`).  The
  client accepts such names: a login under `v#5` is read as a payment by `v`
  (`LoginReadAsPayment`), a registration of `5#bob` as a payment by a user called
  `REGISTER` (`RegisterReadAsPayment`), and a login under `REGISTER` as the
  registration of a user named after the port (`CommandRoundTrip`).
- Transfers of whole amounts that would each be accepted are serialisable, however
  many there are, if and only if no two of them share an account
  (`SerialisableIffDisjoint`).  Two payments out of one account can both be
  accepted and create money, whatever the table (`SharedPayerCreatesMoney`).
- The count and the lines of a list come from two database calls.  If a user logs
  out between them the client indexes past the end of the reply (`ParsesIff`).

## Model

| member | source | states |
|---|---|---|
| `PoolShutdown.EveryTaskAccountedFor` | include/ctpl_stl.h:44-59 | In every reachable state the enqueue history is the removal history followed by the queue, no task is enqueued twice, and each task is either still queued or has an owner. |
| `PoolShutdown.NoTaskRunsTwice` | include/ctpl_stl.h:216-242 | A task's body returns at most once, exactly once iff a worker owns it and has put it down, and no two workers hold the same task. |
| `PoolShutdown.WaitingIsCounted` | include/ctpl_stl.h:233-237 | nWaiting is the number of workers between its increment and its decrement. |
| `PoolShutdown.NoLostWakeup` | include/ctpl_stl.h:180-192 | With a worker asleep, the queue is no longer than the pushes still to notify plus the workers about to pop; so a queued task with nothing pending has a worker about to pop it, through spurious wakeups, resizes and stops. |
| `PoolShutdown.StopTrueDrains` | include/ctpl_stl.h:150-178 | When stop(true) has returned, every task whose push returned before isDone was set has one owner; in a pool with a thread that is a worker, and it has run exactly once unless a flagged, detached worker is still running it. |
| `PoolShutdown.StopTrueDrainsIff` | include/ctpl_stl.h:146-178 | When stop(true) has returned, all committed tasks have run exactly once if and only if no flagged, detached worker is still busy with one and none was discarded; a pool with a thread discards none, a pool that was never shrunk has no such worker, and a never shrunk pool without threads discards all. |
| `PoolCases.ZeroSizePoolDiscards` | include/ctpl_stl.h:173-175 | For every task, a run of a pool of size zero after which stop(true) has returned, the task's push had returned before, and the task was discarded without having run. |
| `PoolCases.DetachedWorkerOutlivesStop` | include/ctpl_stl.h:111-123 | For every task, a run with a shrink after which stop(true) has returned while a detached worker still runs the committed task. |
| `PoolCases.GrownReachable` | include/ctpl_stl.h:99-110 | The growing loop of resize reaches the idle pool of n threads, for every n. |
| `PoolShutdown.StopLeavesNothing` | include/ctpl_stl.h:169-177 | When a stop returns the queue is empty, every task ever enqueued was claimed or discarded, and every joined thread has exited. |
| `PoolShutdown.NobodySleepsAfterStop` | include/ctpl_stl.h:165-168 | After a stop's notify_all no worker is ever asleep again. |
| `PoolShutdown.AtMostOneMore` | include/ctpl_stl.h:223-239 | A worker whose flag is set takes at most one more task over any continuation, and none when it is past its last pop. |
| `PoolShutdown.StopFalseBounds` | include/ctpl_stl.h:152-159 | After stop(false) has raised all flags, at most as many further tasks start as there are workers that can still take one, whatever is pushed. |
| `PoolShutdown.MeasureStep` | include/ctpl_stl.h:216-242 | Once a stop has announced itself, every step of the pool itself lowers a measure over the queue, the positions of the workers and the controller. |
| `PoolShutdown.StopTerminates` | include/ctpl_stl.h:150-178 | Every run without new calls after that is finite, with a bound known in advance. |
| `PoolShutdown.ClosingPoolMoves` | include/ctpl_stl.h:169-172 | Until the stop has returned, every push has returned and every worker has exited, some step is enabled that is no spurious wakeup: the join loop cannot hang. |
| `PoolCalls.StopTrueFromCall` | include/ctpl_stl.h:150-178 | From every reachable state in which stop(true) is called on an open pool, in every run without a further call: isDone is set, and once the stop has returned `threads` is empty, its threads have exited, and every task enqueued before the call is out of the queue with one owner; on a pool with a thread that was never shrunk every task whose push had returned before the call has run exactly once. |
| `PoolCalls.StopFalseFromCall` | include/ctpl_stl.h:150-178 | The same for stop(false) on a pool that is not stopped: isStop is set, and once it has returned `threads` is empty, its threads have exited, and every task enqueued before the call was discarded and never runs, or was claimed by one worker that has run it once or still carries it. |
| `PoolCalls.StopTrueReturns` | include/ctpl_stl.h:166-178 | After a call of stop(true) every run without new calls is bounded, and some run ends with the stop and every push returned and every worker gone. |
| `PoolCalls.StopFalseReturns` | include/ctpl_stl.h:152-178 | After a call of stop(false) some run without new calls ends with the stop and every push returned and every worker gone. |
| `PoolCalls.ResizeFromCall` | include/ctpl_stl.h:99-125 | From every reachable state in which resize(n) is called on an open pool, once it has returned there are n threads, starting with those that stay, all with their flags down, and the threads cut off are flagged. |
| `PoolRounds.PushRound` | include/ctpl_stl.h:180-192 | An undisturbed push puts its task at the end of the queue, wakes one sleeper if there is one, and changes nothing else. |
| `PoolRounds.TakesFront` | include/ctpl_stl.h:222-230 | A worker that looks for a task in a nonempty queue takes the front one and becomes its owner. |
| `PoolRounds.RunsTask` | include/ctpl_stl.h:224-231 | A worker runs its task once, then leaves if flagged and looks for another one otherwise. |
| `PoolRounds.FallsAsleep` | include/ctpl_stl.h:232-235 | On an empty queue, in an open pool and with its flag down, a worker ends up asleep, counted in nWaiting, with the mutex free. |
| `PoolRounds.WakesToTask` | include/ctpl_stl.h:235-239 | A woken worker takes the front task, is no longer counted and leaves the mutex free. |
| `PoolRounds.WakesToQuit` | include/ctpl_stl.h:235-238 | A woken worker that finds the queue empty, in a pool that is done or with its flag up, exits and is no longer counted. |
| `PoolInvariants.MutexWork` | include/ctpl_stl.h:233-239 | A worker's step keeps the pool mutex with exactly the worker whose position says so. |
| `PoolInvariants.FifoTake` | include/ctpl_stl.h:51-59 | A pop takes a task that nobody owned and keeps the history in order. |
| `PoolInvariants.OwnerWork` | include/ctpl_stl.h:224-231 | A worker's step keeps each removed task with one owner that has run it once or still carries it. |
| `PoolInvariants.OwnerControl` | include/ctpl_stl.h:128-133 | A step of the controller keeps each removed task with one owner, and a task that clear_queue discards is never run. |
| `PoolInvariants.WakeupNotify` | include/ctpl_stl.h:189-191 | A notification keeps every queued task matched by a later notification or by a worker about to pop. |
| `PoolInvariants.WakeupWork` | include/ctpl_stl.h:232-235 | A worker may fall asleep only while that matching holds, because it saw the queue empty under the mutex that every notification needs. |
| `PoolInvariants.DrainNotify` | include/ctpl_stl.h:188-191 | A push that returns keeps the draining invariant: once a worker has exited or has seen the end under the mutex, no committed task is queued. |
| `PoolInvariants.DrainWork` | include/ctpl_stl.h:224-239 | A worker's step keeps the draining invariant, although other workers keep popping: once a worker has exited unflagged or has seen the end under the mutex, no committed task is queued. |
| `PoolInvariants.JoinControl` | include/ctpl_stl.h:169-172 | The join loop passes a thread only when that thread has exited. |
| `PoolInvariants.FlagControl` | include/ctpl_stl.h:156-158 | Workers outside `threads` are flagged, and stop(false) has flagged the positions it has passed. |
| `PoolInvariants.InvStep` | include/ctpl_stl.h:71-242 | Every enabled step of workers, pushers and controller keeps the whole invariant. |
| `PoolInvariants.InvReachable` | include/ctpl_stl.h:244-249 | The invariant holds in every state that any interleaving reaches from init. |
| `ThreadPool.Queue.Push` | include/ctpl_stl.h:44-49 | Appends the value and reports success. |
| `ThreadPool.Queue.Pop` | include/ctpl_stl.h:51-59 | Removes and returns the front element, or reports failure and changes nothing. |
| `ThreadPool.Queue.Empty` | include/ctpl_stl.h:60-64 | True iff no element is queued. |
| `ThreadPool.Pool.constructor` | include/ctpl_stl.h:244-249 | The initial state of the machine. |
| `ThreadPool.Pool.NIdle` | include/ctpl_stl.h:93 | Returns the number of workers inside the wait region. |
| `ThreadPool.Pool.PushEnqueue` | include/ctpl_stl.h:188 | Keeps the invariant, and is the machine's enqueue: only the queue changes, the notification is still to come. |
| `ThreadPool.Pool.PushNotify` | include/ctpl_stl.h:189-191 | Keeps the invariant, and is the machine's notification: one sleeper, of the system's choice, becomes runnable. |
| `ThreadPool.Pool.WorkerPop` | include/ctpl_stl.h:222-230 | Keeps the invariant, and is the machine's step for the pop outside the pool mutex. |
| `ThreadPool.Pool.WorkerRun` | include/ctpl_stl.h:226 | Keeps the invariant, and is the machine's step for the return of a task's body. |
| `ThreadPool.Pool.WorkerCheckFlag` | include/ctpl_stl.h:227-230 | Keeps the invariant, and is the machine's step for the read of the flag after a task. |
| `ThreadPool.Pool.WorkerLock` | include/ctpl_stl.h:233-234 | Keeps the invariant, and is the machine's step for the lock and the increment of nWaiting. |
| `ThreadPool.Pool.WorkerPredPop` | include/ctpl_stl.h:235 | Keeps the invariant, and is the machine's step for the pop inside the wait predicate. |
| `ThreadPool.Pool.WorkerPredDone` | include/ctpl_stl.h:235 | Keeps the invariant, and is the machine's step for the predicate's read of isDone, after its pop has failed. |
| `ThreadPool.Pool.WorkerPredFlag` | include/ctpl_stl.h:235 | Keeps the invariant, and is the machine's step for the predicate's read of the flag; the worker then quits, or sleeps and releases the mutex. |
| `ThreadPool.Pool.WorkerLeaveWait` | include/ctpl_stl.h:236-239 | Keeps the invariant, and is the machine's step out of the wait with a task. |
| `ThreadPool.Pool.WorkerQuit` | include/ctpl_stl.h:236-238 | Keeps the invariant, and is the machine's step out of the wait without a task. |
| `ThreadPool.Pool.WorkerRelock` | include/ctpl_stl.h:235 | Keeps the invariant, and is the machine's step for a woken worker that takes the mutex back. |
| `ThreadPool.Pool.WorkerSpuriousWakeup` | include/ctpl_stl.h:235 | Keeps the invariant, and is the machine's step for a wakeup without a notification. |
| `ThreadPool.Pool.ResizeEntry` | include/ctpl_stl.h:101-112 | Keeps the invariant, and is the machine's call of resize, a no-op on a stopped pool. |
| `ThreadPool.Pool.ResizeSpawn` | include/ctpl_stl.h:103-110 | Keeps the invariant, and is one iteration of the growing loop. |
| `ThreadPool.Pool.ResizeFlag` | include/ctpl_stl.h:112-115 | Keeps the invariant, and is one iteration of the shrinking loop. |
| `ThreadPool.Pool.ResizeNotify` | include/ctpl_stl.h:116-122 | Keeps the invariant, and is the shrinking resize's notify_all and cut of `threads`. |
| `ThreadPool.Pool.NotifyAll` | include/ctpl_stl.h:165-168 | Its loop makes every sleeper runnable and touches no other worker. |
| `ThreadPool.Pool.StopEntry` | include/ctpl_stl.h:150-164 | Keeps the invariant, and is the machine's call of stop in both modes, with the early returns. |
| `ThreadPool.Pool.StopFlag` | include/ctpl_stl.h:156-158 | Keeps the invariant, and is one iteration of the loop that raises the flags. |
| `ThreadPool.Pool.StopDiscard` | include/ctpl_stl.h:128-133 | Keeps the invariant, and is one iteration of clear_queue. |
| `ThreadPool.Pool.StopNotifyAll` | include/ctpl_stl.h:165-168 | Keeps the invariant, and is the stop's notify_all. |
| `ThreadPool.Pool.StopJoin` | include/ctpl_stl.h:169-172 | Keeps the invariant, and is one iteration of the join loop. |
| `ThreadPool.Pool.ClearQueue` | include/ctpl_stl.h:128-133 | The loop empties the queue, discards every queued task in queue order, and keeps the invariant. |
| `Admission.AdmissionControl` | src/server.cpp:136-169 | With a pool of LIMIT workers, over any run: at most LIMIT sessions are served, and tmp_current_user - current_user is exactly the connections accepted and not pushed, queued, claimed and not started, or between the two final decrements. |
| `Admission.Construct` | include/ctpl_stl.h:77-81 | The pool's constructor reaches a state from which AdmissionControl applies, for every LIMIT. |
| `Admission.OneConnection` | src/server.cpp:136-169 | With any LIMIT of at least one, a run accepts a connection, pushes it, serves it and counts it out again in both counters. |
| `Admission.PoolWorkInv` | src/server.cpp:294-468 | A worker's step keeps the two counters equal to the sessions they stand for. |
| `Admission.BeginInv` | src/server.cpp:285-294 | The start of a session keeps current_user equal to the sessions being served, and the difference of the counters exact. |
| `Admission.EndCurrentInv` | src/server.cpp:467 | The first final decrement keeps both counters exact: the session counts as leaving. |
| `Admission.EndTmpInv` | src/server.cpp:468 | The second final decrement keeps both counters exact: the connection is no longer counted at all. |
| `Ledger.ByNameFindsRow` | src/Database.cpp:174-176 | With username as the primary key a query by name finds the user's row, or nothing. |
| `Ledger.RowAfterUpdate` | src/Database.cpp:137 | After a whole-row update the user has that row and every other user has the row it had. |
| `Ledger.TruncateBalances` | src/Database.cpp:188-189 | `-=` and `+=` on an int balance take ceil(p) and give floor(p), never below zero for a covered amount; the two agree iff p is whole. |
| `Ledger.TransferTruncates` | src/Database.cpp:185-191 | The truncating assignments of an accepted transfer write exactly the rows with ceil(p) debited and floor(p) credited. |
| `Ledger.TransferValid` | src/Database.cpp:170-197 | No transfer breaks the primary key or makes a balance negative. |
| `Queries.GetAllOne` | src/Database.cpp:206-215 | A query over one row finds that row or nothing, by its condition. |
| `Queries.GetAllAppend` | src/Database.cpp:206-215 | A query finds in a table what it finds in its two parts, in order. |
| `Queries.GetAllCounts` | src/Database.cpp:217-220 | As many rows are found as there are positions whose row matches. |
| `Queries.OnlineOnce` | src/Database.cpp:206-220 | The list of online users has exactly the rows with status 1, each user once, and its length is the number of such positions. |
| `Queries.OnlineRowIs` | src/Database.cpp:179-180 | A user's online row is the row of that name whose status is 1. |
| `Queries.TransferDecision` | src/Database.cpp:174-196 | In terms of the rows: accepted iff the names differ, the amount is positive, both users are online and the payer's balance covers it; bankrupt iff only the balance is short; self-transfer iff the names are equal; failed otherwise; and a refusal leaves the table alone. |
| `Queries.LoginDecision` | src/Database.cpp:126-145 | In terms of the rows: unknown iff no row has the name, duplicate iff that user is online, successful otherwise; and a refusal leaves the table alone. |
| `Ledger.Database.UserRegister` | src/Database.cpp:107-119 | A new name gets a row with 10000 offline; a known name is refused and nothing changes. |
| `Ledger.Database.UserLogin` | src/Database.cpp:121-146 | Unknown and online users are refused; otherwise the user's row alone goes online at the given address. |
| `Ledger.Database.UserLogout` | src/Database.cpp:148-168 | The row at the address goes offline if there is exactly one, otherwise nothing changes. |
| `Ledger.Database.UserTransaction` | src/Database.cpp:170-197 | The four refusals in the code's order, and otherwise both balances written, equal to the ledger's Transfer. |
| `Ledger.Database.UserInfo` | src/Database.cpp:199-204 | Returns the row of a registered user. |
| `Ledger.Database.UserNum` | src/Database.cpp:217-220 | Counts the rows that list returns. |
| `Ledger.Database.UserListInfoLoop` | src/Database.cpp:7-15 | The loop prints one line for each online user, in table order. |
| `LedgerRuns.RoundingLaw` | src/Database.cpp:107-197 | In every run from a reset table each balance is 10000 plus the floors received minus the ceilings paid and is never negative, and the total is 10000 for each user minus one for each accepted transfer of a fractional amount. |
| `LedgerRuns.MoneyConservedIff` | src/Database.cpp:170-197 | Money is conserved exactly iff every accepted amount was whole. |
| `LedgerRuns.BalancesFitInt` | src/Database.cpp:185-191 | With at most 214748 users no balance and no intermediate sum of an accepted transfer leaves the range of a 32-bit int, in any run. |
| `LedgerRuns.TransferRows` | src/Database.cpp:188-191 | An accepted transfer moves ceil(p) out of one balance and floor(p) into another, and changes no other row or field. |
| `LedgerRuns.RegisterEffect` | src/Database.cpp:107-119 | For every user: registration succeeds iff the name is new, gives exactly that user an offline row with 10000, and changes no other row. |
| `LedgerRuns.LoginEffect` | src/Database.cpp:121-146 | For every user: login succeeds iff the user is registered and offline, sets exactly that row's address, ports and status, and keeps its balance and all other rows. |
| `LedgerRuns.LogoutEffect` | src/Database.cpp:148-168 | For every user: a logout that finds one row clears exactly that row's address, ports and status, and keeps its balance and all other rows. |
| `LedgerRuns.DoInv` | src/Database.cpp:107-197 | Every call keeps the log an exact explanation of the table. |
| `Interleaving.DisjointTransfersSerialise` | src/Database.cpp:170-197 | Any interleaving of the reads and writes of transfers on pairwise disjoint accounts ends with the table and the statuses of the serial calls in any order, and each status is the one the call would have returned at the start. |
| `Interleaving.MoneyInFlight` | src/Database.cpp:179-192 | At every point of every interleaving of disjoint transfers, the money in the table plus what has been debited and not credited, plus rounding, is the money at the start. |
| `Interleaving.SerialIsSchedule` | src/Database.cpp:170-197 | Atomic calls in any order are one of the interleavings. |
| `Interleaving.AloneIsAtomic` | src/Database.cpp:170-197 | The four accesses of a transfer, uninterrupted, are the atomic call. |
| `Interleaving.StepInv` | src/Database.cpp:174-191 | Whatever a transfer has read or written agrees with the table that all started from. |
| `Overlap.SerialisableIffDisjoint` | src/Database.cpp:170-197 | For any number of transfers of whole amounts that would each be accepted: every complete interleaving ends in the table and the statuses of some serial order if and only if no two transfers share an account. |
| `Overlap.SharedAccountBreaks` | src/Database.cpp:174-191 | As soon as two such transfers share an account, some complete interleaving is explained by no serial order. |
| `Overlap.LastWriterWins` | src/Database.cpp:188-191 | For every transfer there is a complete schedule that accepts all transfers and leaves its accounts as if it had been the only one. |
| `Overlap.SerialAddsUp` | src/Database.cpp:170-197 | A serial run that accepts every transfer changes each balance by the sum of all the effects. |
| `Overlap.SharedPayerCreatesMoney` | src/Database.cpp:174-191 | For any table and any two accepted whole payments out of one account to different receivers, some schedule accepts both and adds the first amount to the money in the table. |
| `Overlap.OverlapCreatesMoney` | src/Database.cpp:174-191 | It happens: two payments of 10 out of an account with 10. |
| `Text.Strtok` | src/client.cpp:644-655 | Skips separators and returns the next token, or NULL at the end, leaving the rest to be split. |
| `Text.SplitLoop` | src/server.cpp:234-245 | The strtok loop computes Split. |
| `Text.SplitCharacterised` | src/server.cpp:234-245 | Tokens are never empty and contain no separator, and together they are the string without its separators. |
| `Text.SplitAtSeparator` | src/client.cpp:644-655 | Splitting at a separator splits the two sides. |
| `Text.SplitJoin` | src/server.cpp:234-245 | split undoes joining, for nonempty separator-free tokens. |
| `Text.IntRoundTrip` | src/client.cpp:464-466 | stoi and stod give back the number that to_string printed. |
| `Commands.CommandRoundTrip` | src/server.cpp:256-283 | For every command with well-formed names, parsing what the client prints yields that command and its arguments, except that a login under the name REGISTER becomes a registration of the port. |
| `Commands.UnderstoodIff` | src/server.cpp:247-283 | For every command at all: it is understood as meant if and only if its names are nonempty and free of the separator and it is not a login under the name REGISTER. |
| `Commands.LoginReadAsPayment` | src/client.cpp:514-520 | A login under a name with a separator and an amount in it is read as a payment by that name to the user named after the port. |
| `Commands.RegisterReadAsPayment` | src/client.cpp:479-481 | A registration of an amount, a separator and a name is read as a payment by a user called REGISTER to that name. |
| `Commands.DecimalPayment` | src/server.cpp:410 | A payment text with a decimal fraction is read as a payment of exactly that fraction. |
| `Commands.RegisterRoundTrip` | src/client.cpp:473-494 | What register_user prints is read as that registration. |
| `Commands.LoginRoundTrip` | src/client.cpp:496-591 | What login_server prints is read as that login. |
| `Commands.PayRoundTrip` | src/client.cpp:306-311 | What p2p_transaction prints is read as that payment, with the same amount. |
| `Commands.NumberToken` | src/server.cpp:247-254 | A printed number is one token that is_number accepts; a negative one only with the double flag. |
| `ClientView.ListReplyParses` | src/server.cpp:394-408 | For every list of users with printable names and addresses, and whatever count is announced, the reply has two lines more than users, from which the balance, the count and the fields of each user are read back in order. |
| `ClientView.ParsesIff` | src/server.cpp:402-404 | When the count and the lines come from two tables, parse_list_info can parse the reply if and only if no more users were counted than listed. |
| `ClientView.ListRoundTrip` | src/client.cpp:461-471 | parse_list_info on the reply to LIST leaves the same balance, the number of users and exactly their [name, ip, port] rows in order. |
| `ClientView.View.ParseListInfo` | src/client.cpp:461-471 | The loop reads balance and number from the first two lines and splits one line for each announced user. |
| `ClientView.View.FindPeerInfo` | src/client.cpp:365-378 | Returns the first entry with the name, and throws iff there is none. |
| `ClientView.LoginTestExact` | src/client.cpp:183-194 | On every table, the login reply has at most two lines if and only if the login did not succeed. |
| `ClientView.LoginListed` | src/server.cpp:379-386 | A user just logged in is in the list of online users that follows. |
| `Server.Globals.Process` | src/server.cpp:357-459 | The switch on the command changes the table, client_fds and the session's user, and answers the right connection with the right text, exactly as React says. |
| `Server.Globals.ProcessLogin` | src/server.cpp:372-393 | The login branch: only a successful login sets the user and registers the connection. |
| `Server.Globals.ListText` | src/server.cpp:398-404 | The balance, count and list agree with the table. |
| `Server.Globals.FindFd` | src/server.cpp:421-429 | The loop finds the first entry of that name. |
| `Server.Globals.EraseFd` | src/server.cpp:440-445 | The loop erases the first entry of that name and no other. |
| `Server.Globals.Disconnect` | src/server.cpp:326-340 | A failed read logs the address out and erases the user's entry. |
| `Server.FixedTexts` | src/server.cpp:361-459 | The one-line replies, byte by byte. |
| `ClientProcess.Client.RegisterUser` | src/client.cpp:473-494 | Sends the registration; the client goes under the registered name afterwards iff it is not logged in. |
| `ClientProcess.Client.LoginServer` | src/client.cpp:496-591 | Sends the login under the chosen name, which becomes the client's name. |
| `ClientProcess.Client.RequestList` | src/client.cpp:593-611 | Sends List and waits. |
| `ClientProcess.Client.ExitServer` | src/client.cpp:613-642 | Sends Exit and waits. |
| `ClientProcess.Client.P2pTransaction` | src/client.cpp:289-363 | Builds the message that the server will read as this payment by this client.  The payment is made iff the first entry of that name in the peer list has a port that is a number, it goes to that entry, and the client then waits for the reply; otherwise nothing is sent and nothing changes. |
| `ClientProcess.Client.Receiving` | src/client.cpp:394-424 | One iteration hands the oldest peer message to the server's connection unchanged. |
| `ClientProcess.Client.ReadReply` | src/client.cpp:177-243 | What each kind of reply does to the client's globals, decided on the reply's text as the code does; a list sets balance, count and every entry of the peer list, and nothing else does. |
| `ClientProcess.OnlyNotLoggedIn` | src/client.cpp:604-608 | The text that request_list compares with is the text of no other reply. |
| `ClientProcess.ListingIsGood` | src/client.cpp:461-471 | With printable names and addresses every reply to List can be parsed and gives each user three fields. |
| `SessionIndex.OneToOne` | src/server.cpp:379-381 | For every name: it is online, has a live session and has an entry in client_fds, all or none, and the entry is that session's connection. |
| `SessionIndex.OnlineAddressesDistinct` | src/Database.cpp:153-155 | Two online rows never have the same ip and public port. |
| `SessionIndex.LogoutIsExact` | src/Database.cpp:148-168 | A logged-in session's logout finds exactly its own row; that of a session that never logged in changes nothing. |
| `SessionIndex.SecondLoginJams` | src/server.cpp:379-381 | After a second successful login on one connection the logout fails and both rows stay online. |
| `SessionIndex.IndexLogin` | src/server.cpp:372-393 | A first login keeps the one-to-one correspondence. |
| `SessionIndex.IndexEnd` | src/server.cpp:434-446 | The end of a session, by Exit or by a disconnect, keeps the one-to-one correspondence. |
| `SessionIndex.EraseEntry` | src/server.cpp:440-445 | Erasing removes exactly the entries of that name when names are distinct. |
| `ProtocolData.ReactBook` | src/server.cpp:357-459 | A session writes to the table what its database call writes, and reports a transfer as accepted exactly when it was. |
| `ProtocolData.ReactKeepsIndex` | src/server.cpp:357-459 | Every command keeps sessions, rows and client_fds in correspondence. |
| `ProtocolInvariants.ReactAnswers` | src/server.cpp:361-459 | A session's reply to its own client's command is of the kind the client waits for and goes to that client. |
| `ProtocolInvariants.AcceptedExact` | src/client.cpp:183-194 | The client's line count tells a successful login from every other reply to a registration or login. |
| `ProtocolInvariants.LinkedRead` | src/client.cpp:177-243 | After reading a reply the client again believes itself logged in exactly when its session is. |
| `ProtocolInvariants.LinkedOwn` | src/server.cpp:357-459 | Serving a client's own command keeps it and its session in agreement until it reads the reply. |
| `ProtocolSteps.PayerIsKnown` | src/server.cpp:409-431 | For every payment that a session reads, the payer is waiting for it, is logged in, is registered and is the connection that client_fds names. |
| `ProtocolSteps.RelayTokens` | src/client.cpp:394-424 | Forwarding moves a payment's only message from the peer's socket to the peer's server connection. |
| `ProtocolSteps.ServeTokens` | src/server.cpp:409-431 | Settling removes that message and leaves all others in place. |
| `ProtocolSteps.ServeLog` | src/server.cpp:410-418 | Settling applies the payment at most once, and exactly when the status is OK. |
| `ProtocolSteps.InvStep` | src/server.cpp:318-464 | Every step of every thread keeps the invariant of the whole system. |
| `ProtocolSteps.InvReachable` | src/server.cpp:318-464 | The invariant holds in every reachable state of any number of clients. |
| `ProtocolTheorems.PaymentToken` | src/client.cpp:289-363 | Whatever message a client's main thread has caused, be it a command, a payment at a peer, a forwarded payment or a reply, it is the only one anywhere and the client is not at its menu; it belongs to a payment exactly when the client waits for one, and then for this one, logged in under its name and known to client_fds. |
| `ProtocolTheorems.OneOutstanding` | src/client.cpp:289-363 | For every client, the commands in its channel plus the replies in its channel are at most one, none at the menu, no command under a payment; a client that waits for no payment has no payment message anywhere. |
| `ProtocolTheorems.PayerMovesOn` | src/client.cpp:394-424 | A waiting payer's message exists somewhere, and a step of the thread that holds it is enabled unless the peer that holds it has gone or its session has ended. |
| `ProtocolTheorems.RepliesMatch` | src/client.cpp:354-362 | Every reply a client reads is the only one under way to it and is what process_request answered to its current command for its own user.  It is right for the rows it was made from: a list for a logged-in client, with its own balance and everybody online, and a request to log in for another; registration OK iff the name was new; login refused as unknown or duplicate, or answered with the user's balance and a list with the user in it.  "transfer OK" is read iff that payment was applied exactly once, any other answer iff it was never applied. |
| `ProtocolTheorems.VerdictIsRight` | src/server.cpp:409-431 | What a payer reads tells how its payment was decided on the table it met: OK, bankrupt, self-transfer or failed, each iff the rows say so. |
| `ProtocolReplies.ReactIsRight` | src/server.cpp:361-459 | For every possible situation the answer to a client's own command is the right one in terms of the rows. |
| `ProtocolTheorems.SettlementAgreement` | src/server.cpp:409-431 | In every reachable state, confirmed payments were applied exactly once and refused ones never, unanswered ones have their payer waiting, each log entry is a payment as its payer sent it, and each balance is 10000 plus received minus paid over the log. |
| `ProtocolTheorems.MoneyConserved` | src/Database.cpp:170-197 | Since the client pays whole amounts, the balances always add up to 10000 for each user. |
| `ProtocolTheorems.SessionsAgree` | src/server.cpp:326-446 | In every reachable state the correspondence holds, and a session that ends logs out its own user or nobody. |
| `ProtocolTheorems.ProcessIsSafe` | src/server.cpp:398-429 | Every command that a session reads meets what Process requires: the unchecked row and descriptor lookups of the code always succeed. |
| `ProtocolProgress.AnswerArrives` | src/client.cpp:394-424 | From every reachable state with a waiting payer whose carrier is alive and has sent no Exit ahead of the payment, relaying and serving the messages ahead and then reading brings the payer its answer, within twice the carrier's inbox plus its channel plus one step. |
| `ProtocolReplies.TracedStep` | src/server.cpp:357-459 | Every step keeps the reply under way to a client equal to what process_request answered to the command the client waits for, for the client's own user. |
| `ProtocolProgress.UndisturbedPayment` | src/client.cpp:289-363 | Any client at its menu that knows peers can hand any payment to any idle open peer, and in four steps the table is that of the ledger's transfer and the payer has read its verdict. |
| `ProtocolProgress.UndisturbedCommand` | src/client.cpp:155-280 | Any command of a client at its menu can run in three steps: the server does what the text means, no other client changes, and the client's control, name, login state and knowledge of peers are as the reply says. |
| `ProtocolProgress.NewClientLogsIn` | src/client.cpp:155-243 | Whoever connects from a free address can register any new name and log in, and then has an online row with 10000 at that address. |
| `ProtocolProgress.LoggedInClientPays` | src/client.cpp:254-268 | Any logged-in client can list and then pay any amount to any name through an idle open peer; it reads "transfer OK" iff the receiver is another online user and the payer can afford the positive amount. |
| `ProtocolProgress.CrashedClientLeaves` | src/server.cpp:326-340 | A client that waits for no payment may crash; its session then ends and logs out its user, or nobody. |

## Left out

- RSA, PEM and SSL code, key generation and shell commands: the channels deliver strings.
- Sockets, port probing, signal handlers, menus, printing to the terminal and command-line parsing.
- SQLite and sqlite_orm: the table is a sequence of rows, `get_all`, `replace` and `update` are atomic, and the column `fd`, which is not mapped, is absent.
- A failed `recv_P3` is modelled as the branch that the server tests for; what the buffer holds when the peer has closed the connection is not.
- `std::future` results, exceptions thrown by tasks, object lifetimes, and `thread_pool::pop`, `size` and `get_thread`.
- Calls of `resize` and `stop` from several threads at once, which the header excludes.
- Interleaved transfers that share an account, beyond the exact condition in `Overlap.dfy`: the settlement theorems take database calls as serialised.
- Commands under names that are empty or contain `#`, in the protocol: what they are read as is in `Commands.dfy`, and they are outside the guards of `Protocol.Enabled`.
- A crash of a payer while its payment is in flight: the server would answer through an unset descriptor.
- Starting from a table kept by an earlier server, and the non-resetting constructor of `Database`.
- Buffer sizes, the reentrancy of `strtok`, and numbers out of the range of `stoi` and `stod`.
- `user_list_info` with an argument and `list(false)`, which nothing calls.
- The server's shutdown by a signal, and the printing of status lines.
- What a task's body does, inside the pool: it is one step that returns; the sessions are modelled in the admission control and in the protocol.
- Two sessions that touch `client_fds` at the same moment: the vector is not locked, and commands are handled one at a time here.
- `Server.Globals.ListText`: takes the count and the lines from one table, while the code makes two calls that another session can separate; `ClientView.ParsesIff` covers the difference.
- `Ledger.Database.UserTransaction`: takes amounts as reals, so it does not model the rounding of `double` itself.
