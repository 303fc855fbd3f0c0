# Cimple in Dafny

Cimple is a small CI system: clients queue runs, a server stores them in SQLite and hands them
to workers, and workers report results.  This project models the server's scheduler as a state
machine over all its threads and the code under it as imperative Dafny over the heap, and proves
what is kept by every step, over every run, and across every failed call.

`dafny verify dfyconfig.toml` checks everything.

## Layout

Concurrency, as transition systems whose steps are critical sections and the gaps between them:

- `Scheduler` has the threads of the server: the main thread of `src/server.c:197-221`, one client
  thread per connection with the handlers of `src/server.c:102-321`, and the listening thread with
  `server_set_stopping`, the client clean-ups and `server_destroy`.  A run's row is inserted before
  the lock is taken, sends fail freely, wake-ups may be spurious, any thread may be delayed
  anywhere.  `SchedulerSafety`, `SchedulerProgress`, `SchedulerQueues`, `SchedulerRows`,
  `SchedulerDatabase` and `SchedulerAcks` prove its properties.
- `Statements` has the prepared statements the threads share, with their mutexes and bindings, and
  proves that a call on one is a single step on the tables of `Storage`, whose view is the join of
  `src/sqlite/v01.sql`.  `RunCreation` has the three statements of a creation, and `StorageHistory`
  interleaves those of any number of calls.
- `ClientLifecycle` interleaves event loop passes with finishing client threads.

Heap code, each method proved against the function or step it implements:

- `TailQueue` is the intrusive `SIMPLEQ` list, refining a sequence; `EventLoop` walks such a list
  while handlers change it, and `EventLoopProps` says what a pass amounts to; `TcpServer`,
  `Server` and `SqliteStorage` are the objects built on them.  `Sequences` holds what they share.
- `WorkerLoop` is proved from the contracts of `EventLoop` and `Command`; `ServerCommands` from
  those of `Command`, `RunCreation` and `ServerState`.
- `Net`, `Files`, `Strings`, `Base64`, `Json`, `JsonRpc` and `Protocol` are the layers below.

`ServerState` holds what the mutex protects and the effect of each critical section.  The state
machine takes its steps with these functions, and the heap methods of `Server` are proved to be
them on the sequences their lists stand for, which joins the two.  `SchedulerCommands` joins a client
thread of the state machine with the dispatcher and its handlers.  `TcpServer.Listener.RunOnce` joins
the loop in the heap, calling its handlers, with the lifecycle; the lifecycle's bijection between
queued clients and registered clean-ups is why `Scheduler` lets the loop clean up exactly queued
clients.

## Where code and intent part

- The queue reloaded at start compares the view's status, a label, with an integer
  (`src/storage_sqlite.c:201-202`, `src/sqlite/v01.sql:33-34`), so it is always empty:
  `Storage.UnfinishedReloadedIff` and the witness `Storage.ARunIsLostAtRestart`.  The initial run queue is
  therefore a parameter of the state machine.
- The same label is read as the status of a listed run, which is always 0
  (`StorageHistory.LabelsAreNotNumbers`).
- Ids are read as `int`; they are the rows' ids exactly up to 2^31-1 (`Storage.FoundIdIsTheRepos`).
  One row later a run is stored that is never queued.
- The server stores a finished-run for any run, also one still in the queue, which is then dispatched
  all the same (`SchedulerDatabase.EarlyReportDisagrees`).  Database and queues agree exactly while
  neither this nor the overflow has happened (`SchedulerDatabase.DatabaseAgreesIff`).
- `client_destroy` joins a client's thread without shutting its socket down, so a client that stays
  connected and sends nothing holds up every shutdown (`SchedulerProgress.SilentClientHoldsShutdown`).
- `server_assign_run` sends under the lock, so a worker that does not read, once the socket takes no
  more, blocks all client threads that need the lock and the handling of signals (`SchedulerProgress.SilentWorkerHoldsTheMutex`).
- A listening loop that fails leaves `server_destroy` waiting for a main thread nobody told to stop.
  With rest and complete shutdown these are all the states in which nothing moves by itself
  (`SchedulerProgress.QuietIff`).
- A string of 2^32-1 bytes or more is framed with its size cut (`Net.StringFitsIff`).

## Model

| member | source | states |
|---|---|---|
| SchedulerSafety.NoLostWakeup | src/server.c:143-157 | In every reachable state, under every interleaving of main thread, listening thread and any number of client threads and with spurious wake-ups: if the mutex is free and the main thread sleeps unsignalled, it has not been told to stop, and there is no run or no worker. |
| SchedulerSafety.AssignsOnlyWhenReady | src/server.c:197-217 | In every reachable state `server_assign_run` is entered with the lock held and both queues non-empty, and neither entered nor still going on once `stopping` is set; the main thread exits only when it is set. |
| SchedulerSafety.StoppingIsForGood | src/server.c:78-96 | No step of any thread unsets `stopping`. |
| SchedulerSafety.MutualExclusion | src/server.c:52-63 | At most one thread is ever inside a critical section. |
| SchedulerSafety.SafeShutdown | src/server.c:471-485 | Resources go in the order of `server_destroy`, and once the first is gone the main thread has exited, every client thread ever created has finished and been joined exactly once, the mutex is free, and only the destroying thread can take a step. |
| SchedulerProgress.QuietIff | src/server.c:471-499 | Exact condition, over all reachable states, for nothing to move until a peer, a connection or a signal does: every client thread has finished or waits for its peer (or for the lock during a send), and the server is shut down, at rest, sending under the lock, joining a main thread nobody told to stop, or joining a client thread that waits for its peer. |
| SchedulerProgress.ShutdownWaitsOnlyForClients | src/server.c:471-485 | Once `stopping` is set, nothing moves by itself iff the server has shut down or is in the join of a client thread that waits for its peer. |
| SchedulerProgress.OwnerMovesIff | src/server.c:52-63 | Whoever is inside a critical section can go on without anybody outside, exactly unless it is the main thread in its send to a worker. |
| SchedulerProgress.SilentClientHoldsShutdown | src/tcp_server.c:87-95 | Witness: with `stopping` set and the main thread gone, shutdown stays in the join of a client thread whose peer sends nothing. |
| SchedulerProgress.SilentWorkerHoldsTheMutex | src/server.c:159-195 | Witness: a worker that does not read keeps the main thread in a send under the lock, and a signal to stop is not even noted, because its handler waits for that lock. |
| SchedulerSafety.SafetyKept | src/server.c:102-221 | Every step keeps the mutex, wake-up and thread invariants (the inductive invariant behind the properties above). |
| SchedulerQueues.FifoConservation | src/server.c:121-195 | Over all interleavings and send failures, whenever the mutex is free: initial queue ++ runs appended == runs dispatched ++ runs freed at shutdown ++ current queue; before shutdown frees anything, initial ++ appended == dispatched ++ queue. |
| SchedulerQueues.AssignmentInThreeSteps | src/server.c:159-195 | The main thread's steps in `server_assign_run` add up to one assignment of the two heads; when the send fails the run queue is exactly as before, and the worker is closed either way. |
| SchedulerQueues.MainServesAll | src/server.c:197-217 | From its check of the condition, the main thread alone offers runs to workers until one of the two runs out, whatever sends succeed, dispatches exactly what the workers take, in order, and sleeps. |
| SchedulerQueues.EitherCanBeFirst | src/server.c:124-133 | Of two clients between inserting their rows and taking the lock, either run can enter the queue first, whatever the ids: from any such state there are steps that queue them in either order. |
| SchedulerQueues.WorkerLedger | src/server.c:102-115 | Workers enqueued == workers retired, in order, ++ workers dropped at shutdown ++ the queue; each is offered at most one start-run and each descriptor closed at most once, in every reachable state. |
| SchedulerQueues.EveryDescriptorIsClosed | src/worker_queue.c:47-55 | After shutdown the descriptors closed are exactly the descriptors ever duplicated, each once. |
| SchedulerQueues.QueuesKept | src/server.c:159-195 | Every step keeps both queue invariants. |
| SchedulerQueues.DescriptorsKept | src/server.c:223-256 | Every duplicated descriptor is held by one client thread or was enqueued once; every step keeps this. |
| SchedulerQueues.TicketsCount | src/server.c:236-245 | Of the numbers handed out so far each is in exactly one place, held or entered (used for worker descriptors and for run ids). |
| SchedulerRows.QueuedRunsHaveRows | src/server.c:121-141 | From any database grown by these statements, whatever clients send: every run that entered the queue has a row with its revision and the repository of its url, under an id that reads as the run's; with fewer than 2^32 rows it is the row under that id. |
| SchedulerRows.FinishedIsForGood | src/storage_sqlite.c:395-427 | In no run of the server does a FINISHED row change its id or status. |
| SchedulerDatabase.DatabaseAgreesIff | src/server.c:121-141 | From an empty database, in every reachable state, whatever clients send: each CREATED row's id is in exactly one of run queue, hand of the main thread, a client thread between insertion and queueing, dispatched and not reported, freed at shutdown, and every other id is in none, if and only if there are at most 2^31-1 rows and every FINISHED row's run was dispatched. |
| SchedulerDatabase.ReportAgreesIff | src/server.c:293-321 | In every reachable state in which they agree, storing a finished-run keeps the agreement iff it names a dispatched run or no row at all. |
| SchedulerDatabase.QueuedIdsAreDistinct | src/storage_sqlite.c:345-379 | With fewer than 2^32 rows no two runs ever queued have the same id. |
| SchedulerDatabase.EarlyReportDisagrees | src/server.c:293-321 | Witness: a finished-run for a run still in the queue is stored, and database and queue disagree. |
| SchedulerDatabase.DatabaseAgreesWithQueues | src/server.c:121-141 | With finished-run messages for dispatched runs only, as Cimple's own workers send, database and queues agree exactly while there are at most 2^31-1 rows. |
| SchedulerAcks.AcknowledgementImpliesWork | src/server.c:258-291 | However threads interleave, whatever clients send and however large the database: a queue-run answered without an error has been appended to the run queue and has its row, with its revision and url; with fewer than 2^32 rows it is the row under the run's own id. |
| SchedulerAcks.WorkIsAcknowledged | src/command.c:181-190 | The converse: no run is acknowledged more often than it was queued, and once all client threads have finished, the runs queued are exactly those acknowledged and those whose response the socket did not take. |
| SchedulerAcks.AcksKept | src/server.c:258-291 | Every step keeps: each run queued is acknowledged, was answered in vain, or is owed an answer by exactly one client thread. |
| SchedulerCommands.ClientDoesAsServed | src/command.c:150-209 | For any received value: a client thread of the state machine that is not interrupted does to the database, the queues and the descriptors exactly what the dispatcher with the server's handlers does, leaves the mutex free, and acknowledges exactly the run it queued, if the socket takes the response. |
| Server.Server.SetStopping | src/server.c:78-96 | Lock, set, signal once, unlock; no queue is touched. |
| Server.Server.AppendRun | src/server.c:121-141 | Lock, append, signal once, unlock: on the linked list the run is last and everything else unchanged. |
| Server.Server.AppendWorker | src/server.c:102-115 | Lock, append, signal once, unlock: on the linked list the worker is last and everything else unchanged. |
| Server.Server.ReadyForAction | src/server.c:143-145 | Ready iff told to stop, or both lists hold something. |
| Server.Server.AssignRun | src/server.c:159-195 | On the linked lists, under the lock: exactly one assignment of the two heads; a dispatched run is freed, a failed send leaves the run list node by node as it was; the worker is freed and its descriptor closed either way. |
| Server.Server.DestroyWorker | src/worker_queue.c:34-37 | Closes the descriptor once and frees the node, which is then unusable. |
| Server.Server.WaitForAction | src/server.c:147-157 | Called with the lock held; waits exactly as long as it is not told to stop and there is no run or no worker, through exactly the critical sections others entered meanwhile; then returns holding the lock, or sleeps without it when nothing more happens. |
| Server.Server.MainThread | src/server.c:197-221 | The loop over the heap lists: dispatched ++ queue grows by exactly what others appended, in order; each worker is offered one run and closed, and as many runs are dispatched as sends succeed; it sleeps only without a run or a worker, and leaves exactly at the first wait after which it is told to stop. |
| Server.Server.DestroyRunQueue | src/run_queue.c:137-145 | Every queued run is freed and the queue is empty and reusable. |
| Server.Server.DestroyWorkerQueue | src/worker_queue.c:47-55 | Every waiting worker is freed and its descriptor closed once, in order; the queue is empty. |
| Server.Server.RunsToJson | src/run_queue.c:147-176 | An array with one object per run, in list order. |
| Server.RunReadsBack | src/run_queue.c:88-115 | Each field of a run is read back from its JSON object under its own key. |
| Server.ListingReadsBack | src/run_queue.c:147-176 | The listing has one object per run, in order, from which id, exit code, url and revision are read back. |
| ServerState.Assigned | src/server.c:159-195 | A failed assignment changes only the worker queue; a successful one drops both heads. |
| ServerCommands.ServeConnection | src/server.c:223-352 | For any received value, any failures and any state: a queue-run answered without an error inserted its row and queued that run under that row's id, which happens iff it parses, SQLite executes the three statements and the ids fit an `int`; one answered with an error queued nothing; one without an id changed nothing; a new-worker succeeds iff the descriptor is duplicated, and queues it; a finished-run succeeds iff it parses and is stored, and rewrites status, exit code and output of that row alone; get-runs succeeds iff the runs are fetched, and answers with them; any other method is refused; every response answers its request, and the code is negative iff it is an error or was not sent. |
| ServerCommands.Dispatched | src/server.c:354-361 | Each of the four commands reaches its own handler, any other method is refused and changes nothing. |
| ServerCommands.CreatedMeansInserted | src/storage_sqlite.c:381-393 | A non-negative id from run creation is the id of a new last row with that revision, status CREATED, exit code -1 and the repository with that url; a failure inserts no run. |
| ServerCommands.QueueRunIsServed | src/server.c:258-291 | The queue-run clause of `ServeConnection`, through the dispatcher's choice of response. |
| Command.HandleInternal | src/command.c:108-127 | The loop over the command table is the first command of that name, or failure without effect. |
| Command.HandleConn | src/command.c:150-209 | Nothing is sent or changed for an unacceptable request or, as a response, for a notification; otherwise what goes out is the handler's response unless it failed without an error of its own; the code is the handler's, or -1 when the send fails. |
| Command.ResponsesAnswer | src/command.c:181-190 | Whatever the handlers: a response that goes out is acceptable to the receiver and carries the request's id; it is the handler's own unless that failed without an error of its own, else null as a result, or the default error with its code and message. |
| StorageHistory.RunsTellTheHistory | src/storage_sqlite.c:490-506 | After any interleaving of the statements of any number of `run_create` and `run_finished` calls, however many: urls are unique, the tables are consistent, every row holds what was inserted and the status, exit code and output last reported since, and get_runs lists every run ever inserted once, newest first, with its own revision and that exit code, or -1; the ids listed are the runs' own iff there are at most 2^31-1 runs, and the urls listed their own while there are at most 2^31-1 repositories. |
| StorageHistory.LogIsTheEvents | src/storage_sqlite.c:381-427 | While ids fit an `int`, what was inserted and reported is exactly what the calls ask for: a call makes its run with its third executed statement and returns that run's number, fails once a statement is refused, and every executed update is a report. |
| StorageHistory.NextKeeps | src/storage_sqlite.c:381-427 | Every statement of every call keeps the correspondence of rows and history. |
| StorageHistory.StatementKeeps | src/storage_sqlite.c:294-379 | The statements of a creation: after the insertion the url has a row, the id found is that row's, and the run is inserted under it even when other calls come in between. |
| RunCreation.CreateStepKeeps | src/storage_sqlite.c:294-393 | Each statement of a creation adds rows only, keeps ids consecutive and references valid, and the call learns exactly the inserted row's id, or fails once that does not fit an `int`. |
| RunCreation.CreateStepSucceedsIff | src/storage_sqlite.c:294-379 | Exactly when each statement of a creation leads on: the insertion to the search, the search to the id of the url's repository if that fits an `int`, the last one to the new row's id. |
| RunCreation.CreateAloneSucceedsIff | src/storage_sqlite.c:381-393 | A creation succeeds iff the three statements are executed and the ids fit an `int`; then the tables have one more run, under the repository of its url, new or known, and its id is returned. |
| StorageHistory.LabelsAreNotNumbers | src/storage_sqlite.c:433-433 | The status column of the view reads as 0 whatever the status. |
| Storage.FoundIdIsTheRepos | src/storage_sqlite.c:311-311 | The repository id read as an `int` is the one with the url iff it is at most 2^31-1. |
| Storage.JoinedOnce | src/sqlite/v01.sql:33-36 | The view's two inner joins keep a consistent run exactly once, with the url of its repository and the label of its status. |
| Storage.InsertRepoKeeps | src/storage_sqlite.c:193-194 | The conditional insertion keeps all constraints, leaves existing rows alone, and the url has a row afterwards. |
| Storage.FindAfterInsert | src/storage_sqlite.c:192-192 | For a url with a row the id found is that of a row with this url. |
| Storage.FinishRunKeeps | src/storage_sqlite.c:197-198 | Keeps all constraints. |
| Storage.UnfinishedReloadedIff | src/storage_sqlite.c:508-527 | The queue reloaded at start holds the unfinished runs iff there are none. |
| Storage.ARunIsLostAtRestart | src/storage_sqlite.c:201-202 | A consistent database with one created run from which nothing is reloaded. |
| Statements.StatementsMean | src/storage_sqlite.c:191-198 | With parameters bound by number, executing the four statements is the search, the insertions and the update on the tables, and what is read from their row is the id found or the new id, as an `int`. |
| SqliteStorage.Engine.Step | src/sqlite.c:121-136 | 1 with a row, 0 without, negative and no change on failure; the effect is the statement's with its current bindings. |
| Statements.CallsAreAtomic | src/storage_sqlite.c:294-427 | However threads interleave between lock, each binding, step, column read, reset and unlock of the shared prepared statements: the tables are those left by the executed calls, one at a time and each with its own arguments; a call that returns was executed once and returns what its turn gave, or was not executed and returns an error. |
| Statements.OnlyRefusedCallsFail | src/storage_sqlite.c:294-427 | A call that returns was executed, unless SQLite refused one of its bindings or its step, or the constraints refuse the call at some turn. |
| Statements.OwnBindings | src/sqlite.c:112-115 | A thread always steps with exactly the arguments it bound itself, and a statement nobody holds has no bindings. |
| SqliteStorage.Sqlite.FindRepoStatement | src/storage_sqlite.c:294-319 | Through lock, binding, step, column, reset and unlock, any of which may fail: the id of the url's row as an `int`, 0 without one, negative on failure; the statement is left unlocked without bindings. |
| SqliteStorage.Sqlite.InsertRepoStatement | src/storage_sqlite.c:321-340 | Likewise: a row for a new url, nothing for a known one; no change on failure. |
| SqliteStorage.Sqlite.InsertRunStatement | src/storage_sqlite.c:345-379 | Likewise, with three bindings: one row more and its id, or an error and no change when a call fails or the foreign key is missing. |
| SqliteStorage.Sqlite.RunFinishedStatement | src/storage_sqlite.c:395-427 | Likewise, with four bindings: status, exit code and output of that one row; no change on failure. |
| SqliteStorage.Sqlite.RunCreate | src/storage_sqlite.c:381-393 | The call goes through the stages of a creation, statement by statement; it succeeds iff no call to SQLite fails and the ids fit an `int`, and then returns the id of the new row under the url's repository. |
| SqliteStorage.Sqlite.GetRunsInto | src/storage_sqlite.c:461-488 | The step loop fills the linked list with exactly the rows, in order; a failing step leaves an empty list and an error. |
| WorkerLoop.Worker.WorkerMain | src/worker.c:260-277 | For any sequence of rounds: it goes on exactly as long as rounds complete, each executing the run received in it and reporting it under that run's id with that round's output; in the first round that does not complete it executes its run iff it got one without a signal; it ends well iff a signal was noted and nothing else went wrong; each round starts with exactly the signal entry in the loop. |
| WorkerLoop.Worker.GetRun | src/worker.c:224-258 | Succeeds iff connected, announced, polled, and nothing went wrong on the connection; stores a run iff a start-run was read; `stopping` is set iff the signal was ready; without a signal the loop holds exactly the signal entry again. |
| WorkerLoop.Worker.DoRun | src/worker.c:179-222 | The stored run is used up on every path; succeeds iff the run was executed and its report sent, and then the report is the finished-run request of this run's id. |
| WorkerLoop.Worker.OnEvent | src/command.c:215-227 | Succeeds iff readable, an acceptable start-run that parses was read, and its response, if it asks for one, was sent; the run is stored iff it was read. |
| WorkerLoop.Worker.OnReady | src/worker.c:76-101 | The signal sets `stopping`; the connection's handler succeeds iff nothing went wrong on it. |
| WorkerLoop.ReportsTheDispatchedRun | src/worker.c:87-101 | A worker that was sent a dispatched run executes its url and revision, and what it reports parses to that run's own id. |
| EventLoop.Loop.Run | src/event_loop.c:189-231 | For handlers known by what they append and return: the in-place pass is the fold over the entries seen by `poll`: code, handler calls and remaining list; a failed `poll` changes nothing. |
| EventLoopProps.OnePass | src/event_loop.c:205-227 | Each ready entry's handler is called exactly once, in list order, with its own descriptor, events and argument; appended entries are not; the list is the old one without ready one-shots, then the additions in order; the result is negative iff a called handler failed. |
| EventLoop.Loop.Visit | src/event_loop.c:206-227 | One step of the walk on the changing list: the successor is read before the handler, additions go to the end, a ready one-shot is unlinked. |
| EventLoop.Loop.Settle | src/event_loop.c:221-226 | After entry i's handler has appended what it did, the entry stays, or, if it was ready and one-shot, is unlinked and freed; the list is again kept entries, entries to visit, additions. |
| EventLoop.Loop.Walk | src/event_loop.c:205-227 | The loop over the cached count ends with the whole fold. |
| EventLoop.Loop.MakePollFds | src/event_loop.c:166-187 | One element per entry, in list order, with its descriptor and events. |
| EventLoop.Loop.AddInternal | src/event_loop.c:89-95 | The entry is last, and the cached count is the list length again. |
| EventLoop.Loop.Add | src/event_loop.c:97-109 | A permanent entry at the end. |
| EventLoop.Loop.AddOnce | src/event_loop.c:111-124 | A one-shot entry at the end. |
| EventLoop.Loop.RemoveEntry | src/event_loop.c:126-132 | Exactly this entry is gone and freed, and the count is the list length again. |
| Strings.EventsToString | src/event_loop.c:134-164 | The names of the events present, in order, joined by commas; nothing is ever cut. |
| TailQueue.Queue.InsertHead | src/run_queue.c:182-184 | The list with head and tail pointers refines [x] ++ s, also on an empty queue. |
| TailQueue.Queue.InsertTail | src/run_queue.c:186-188 | Refines s ++ [x], also after the queue was emptied. |
| TailQueue.Queue.RemoveHead | src/run_queue.c:190-194 | Refines s[1..] and returns s[0]; removing the last node resets the tail pointer. |
| TailQueue.Queue.Remove | src/event_loop.c:126-132 | Removing any node, first, middle or last, refines removal at its position. |
| TailQueue.Queue.IsEmpty | src/run_queue.c:178-180 | True iff the sequence is empty. |
| TailQueue.Queue.Destroy | src/run_queue.c:137-145 | Every node is freed exactly once, in order, each link read before its node is freed; the queue is empty and usable. |
| TailQueue.Queue.NodesDistinct | src/run_queue.c:133-135 | A valid list never holds a node twice. |
| ClientLifecycle.LifecycleInvariant | src/tcp_server.c:97-131 | Over any run of loop passes and finishing threads: queued clients are exactly the registered one-shot clean-ups, in the same order, and no clean-up from the loop ever waits for a thread. |
| ClientLifecycle.EveryClientIsCleanedUp | src/tcp_server.c:206-213 | Over any run that ends in shutdown: each accepted client is joined exactly once, each descriptor opened is closed exactly once, no thread is left. |
| ClientLifecycle.NextKeeps | src/tcp_server.c:157-200 | Every event keeps the lifecycle invariant. |
| ClientLifecycle.ServeIsAPass | src/event_loop.c:189-231 | If the outcomes given to the event loop are those of these handlers, its pass is the lifecycle's pass. |
| ClientLifecycle.SignalsStop | src/server.c:78-96 | A pass leaves `stopping` set iff it was set or the signal descriptor was ready. |
| ClientLifecycle.PassFailsIff | src/tcp_server.c:273-291 | A pass fails iff some ready listening descriptor gave no client: the accept or the eventfd failed. |
| ClientLifecycle.ConnectionsAreServed | src/tcp_server.c:273-291 | A pass starts one client, with two descriptors, for every ready listening descriptor whose accept succeeds, and opens nothing else but the connection of a failed eventfd. |
| ClientLifecycle.FinishedAreJoined | src/tcp_server.c:97-108 | A pass joins exactly the clients whose eventfd is ready, in the order of the loop. |
| ClientLifecycle.DestroyUnlinks | src/tcp_server.c:87-95 | Destroying a finished client takes exactly that client out of the queue and waits for nobody. |
| ClientLifecycle.AcceptKeeps | src/tcp_server.c:157-200 | A new client enters the queue and the loop together. |
| ClientLifecycle.DestroyInOrder | src/tcp_server.c:206-213 | Shutdown joins the queued clients in order and closes both descriptors of each. |
| TcpServer.Listener.ListenAndDestroy | src/tcp_server.c:267-271 | On the heap, over the events up to shutdown: each client accepted in them is joined exactly once, each descriptor opened is closed exactly once, no thread and no queued client is left. |
| TcpServer.Listener.Listen | src/server.c:487-499 | The listening loop makes exactly the lifecycle's events, one after another, each only while `stopping` is unset and no earlier pass has failed, and leaves early only because of one of these. |
| TcpServer.Listener.RunOnce | src/event_loop.c:189-231 | `event_loop_run` calling the server's handlers while they append to and unlink from the list it walks: exactly one lifecycle pass on both heap lists, and its code; a failed `poll` changes nothing. |
| TcpServer.Listener.Invoke | src/tcp_server.c:97-108 | Any of the server's handlers, called on the heap, does to queue, descriptors, threads and loop what the lifecycle says, and returns its code; a clean-up finds its client's node. |
| TcpServer.Listener.AcceptConnection | src/tcp_server.c:157-200 | On the heap: the one-shot clean-up entry of the new client is appended to the loop, the client to the queue, its thread is running; exactly the lifecycle's step. |
| TcpServer.Listener.AcceptWithoutEventfd | src/tcp_server.c:169-173 | The connection is closed again and nothing is queued. |
| TcpServer.Listener.Destroy | src/tcp_server.c:87-95 | On the heap list: unlinked, joined, both descriptors closed, freed; exactly the lifecycle's step. |
| TcpServer.Listener.DestroyAll | src/tcp_server.c:206-213 | The loop over the shrinking heap list is the lifecycle's shutdown. |
| Net.NetSend | src/net.c:168-179 | For any positive partial sends: succeeds iff the connection takes that many bytes, and then all are sent in order; otherwise a proper prefix. |
| Net.NetRecv | src/net.c:181-203 | For any positive partial reads: succeeds iff that many bytes can be read before the stream ends or fails, and consumes exactly those. |
| Net.NetSendBuf | src/net.c:205-218 | Succeeds iff the connection takes the whole frame; otherwise the wire grows by a proper prefix of it. |
| Net.NetRecvBuf | src/net.c:220-254 | Succeeds iff a whole frame can be read, returns its data and consumes no byte of the next. |
| Net.FramesRoundTrip | src/net.c:205-254 | Any sequence of buffers is received as sent, in order, with nothing left. |
| Net.BrokenSendIsNoticed | src/net.c:240-246 | A stream cut inside a frame gives every earlier buffer and then an error, wherever it is cut. |
| Net.BigEndianOrders | src/net.c:208-208 | The length goes most significant byte first: sizes compare as their encodings do. |
| Net.StringFitsIff | src/buf.c:35-37 | The whole string with its terminator is framed iff its size fits 32 bits. |
| Files.FileRead | src/file.c:125-159 | For any chunking: succeeds iff no read fails, and the contents are the whole stream; the buffer is 256 or at most twice what was read; on a failed read nothing is returned. |
| Files.ReadlinkWrapper | src/file.c:68-101 | The whole target with its terminator for every length; the buffer is 256 or at most twice the target. |
| Strings.StringAppend | src/string.c:18-30 | Copies what fits before `end`, always terminates, writes nothing outside, returns the new end or `end` when cut. |
| Strings.AppendAll | src/string.c:18-30 | A chain of appends of any list into n >= 1 characters is the concatenation cut to n-1, terminated, with no write outside; `end` is returned iff it was cut. |
| Strings.CutStaysCut | src/string.c:21-22 | Once a chain was cut, later appends change neither position nor text. |
| Base64.DecodeEncode | src/base64.c:20-61 | Decoding inverts encoding for every byte string. |
| Base64.EncodeDecode | src/base64.c:46-51 | What decodes is the encoding of what it decodes to: nothing but encodings is accepted. |
| Base64.EncodedLength | src/base64.c:21-21 | Four characters for every three bytes begun. |
| Base64.EncodedGroup | src/base64.c:20-33 | Every group of three bytes is its 24 bits in four letters, six by six, the most significant first, with padding for missing bytes (section 4 of RFC 4648). |
| Base64.AlphabetInOrder | src/base64.c:18-18 | Table 1 of RFC 4648. |
| Base64.StandardExamples | src/base64.c:18-29 | The examples of section 10 of RFC 4648. |
| Base64.Base64Encode | src/base64.c:20-33 | Fills a buffer of the announced length with the encoding of section 4 of RFC 4648 and its terminator. |
| Base64.Base64Decode | src/base64.c:35-61 | Succeeds iff the input is some byte string's encoding, and returns that byte string. |
| Protocol.FinishedRunRoundTrip | src/protocol.c:117-192 | For every run id, exit code and byte string the created notification is acceptable and parses to the same triple. |
| Protocol.QueueRunRoundTrip | src/protocol.c:26-60 | Parsing the created request gives the same url and revision, an id still to be assigned, status CREATED. |
| Protocol.StartRunRoundTrip | src/protocol.c:70-111 | Parsing the created notification gives the same id, url and revision. |
| Protocol.QueueRunParsesIff | src/protocol.c:47-60 | For any request: it parses iff `url` and `rev` are strings among its named parameters, and to these. |
| Protocol.StartRunParsesIff | src/protocol.c:94-111 | For any request: it parses iff `id` is a 64-bit integer and `url` and `rev` are strings, and to these, the id modulo 2^32. |
| Protocol.FinishedRunParsesIff | src/protocol.c:152-192 | For any request: it parses iff `run_id` and `exit_code` are 64-bit integers and `output` is the encoding of some bytes; these are the bytes read, and the numbers modulo 2^32. |
| Protocol.QueueRunOnTheWire | src/protocol.c:26-45 | The members of a queue-run by name. |
| Protocol.StartRunOnTheWire | src/protocol.c:70-92 | The members of a start-run by name. |
| Protocol.FinishedRunOnTheWire | src/protocol.c:117-150 | The members of a finished-run by name, with the output in Base64. |
| Protocol.ReadFinishedRun | src/protocol.c:152-192 | Fills the outputs from the three parameters, and fails iff one is missing, of the wrong type or not base64. |
| Protocol.CreateFinishedRun | src/protocol.c:117-150 | The object built key by key is the finished-run notification. |
| Protocol.CreateStartRun | src/protocol.c:70-92 | The object built key by key is the start-run notification. |
| Protocol.CreateQueueRun | src/protocol.c:26-45 | The object built key by key is the queue-run request. |
| JsonRpc.BuiltRequestsConform | src/json_rpc.c:181-282 | Any request or notification with any initial parameters, object or array, and any sequence of parameters then set on an object is accepted, keeps its method and id, and each get returns the last value set or the initial one (JSON-RPC 2.0, sections 4 and 4.1). |
| JsonRpc.ResponsesConform | src/json_rpc.c:393-522 | Every acceptable request that is not a notification can be answered with a result or an error, acceptable, with the request's id and exactly one of the two members (section 5 and 5.1). |
| JsonRpc.ResponsesOnTheWire | src/json_rpc.c:393-491 | The members of a result and of an error response, by name. |
| JsonRpc.RequestAcceptedIff | src/json_rpc.c:35-122 | For every acceptable request and every value: exactly which values of version, method, id and params keep it acceptable, and which members it can do without. |
| JsonRpc.ResponseAcceptedIff | src/json_rpc.c:139-179 | For every acceptable response and every value: exactly which values of version, id, result and error keep it acceptable, and which members it needs. |
| JsonRpc.OtherMembersDoNotMatter | src/json_rpc.c:35-179 | Members other than those named change nothing about acceptance. |
| JsonRpc.KindsDiffer | src/json_rpc.c:181-522 | What is built as a request is never accepted as a response, nor the other way around. |
| JsonRpc.SettersOnlyTouchParams | src/json_rpc.c:317-387 | Setters change nothing but the parameters, and those only under the names set. |
| JsonRpc.Request.Create | src/json_rpc.c:181-251 | Version, method, optional id and parameters; fails iff the parameters are neither object nor array. |
| JsonRpc.Request.SetParam | src/json_rpc.c:317-341 | Creates the parameters if missing and sets one name in them. |
| JsonRpc.Response.CreateInternal | src/json_rpc.c:393-446 | Echoes the id with either result or error; fails iff there is no id to echo. |
| JsonRpc.Response.CreateError | src/json_rpc.c:461-491 | An error response with code and message; fails iff there is no id to echo. |

## Left out

- StorageHistory.RunsTellTheHistory: a listing is one step, so writers between its rows are not modelled.
- Statements.CallsAreAtomic: the engine executes one step at a time; how SQLite serialises its threads is not modelled.
- RunCreation.CreateStepKeeps: the database is one that grew from an empty one, since no statement deletes rows.
- RunCreation.CreateAloneSucceedsIff: fewer than 2^32 rows, beyond which ids read as those of other rows.
- Net.NetSend: where a connection breaks is decided beforehand, by the number of bytes it takes.
- SchedulerDatabase.DatabaseAgreesIff: runs left by an earlier server are not part of it; they are never reloaded.
- SchedulerCommands.ClientDoesAsServed: get-runs, which changes nothing, is any other message to the state machine.
- SchedulerQueues.FifoConservation: the initial queue is any sequence; how it is loaded is `Storage.GetRunQueue`.
- EventLoop.Loop.Run: a handler is represented by the entries it adds and its code; `TcpServer.Listener.RunOnce` is the pass that calls the server's handlers. A handler that destroys the loop has no counterpart.
- TailQueue.Queue.Remove: the node is in the queue, as `SIMPLEQ_REMOVE` needs; that it always is follows from the invariants of the callers.
- Server.Server.MainThread: what other threads do is given wait by wait, since the lock is held otherwise; all interleavings are in `Scheduler`.
- WorkerLoop.Worker.WorkerMain: a finite number of rounds, with `poll` succeeding only when a descriptor is ready.
- TcpServer.Listener.AcceptConnection: the path without failures of allocation or thread creation, which free the client while its entry is still in the loop.
- JsonRpc.Request.SetParam: the parameters are an object, as in every request the program builds; keys cannot be added to an array.
- Strings.StringAppend: a null destination, which is returned as null, is not modelled.
- Protocol.QueueRunRoundTrip: the counter that generates request ids is a parameter.
- Allocation, thread creation and mutex failures: assumed away.
- Sockets, address lookup, poll, signals, fork and exec, git: parameters that say what the kernel answered.
- JSON text, libsodium and the SQLite engine: an abstract JSON value, RFC 4648, and tables with their keys. A JSON string with a NUL character, which C reads short, has no counterpart.
- Schema upgrades: their atomicity is not claimed.
- TcpServer.Listener.Listen: a finite sequence of events, with `poll` never failing; a failing `poll` is in `RunOnce`.
- Liveness: loops terminate and `SchedulerProgress.QuietIff` says when nothing moves; that a step that can be taken eventually is taken is not claimed.
- Command lines, settings, logging, client output, the SQL header generator and build files: not modelled.
