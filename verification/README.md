# Verified models of sonicprobe

This project models the coordination objects, parsers and transformations of sonicprobe and
proves what they keep, recognise or preserve. It is checked with
`dafny verify dfyconfig.toml` (Dafny 4.11).

Coordination objects (`RWLock.dfy`, `Keystore.dfy` with `Deadlock.dfy`, `WorkerPool.dfy`,
`Servers.dfy`, `DynServers.dfy`, `Sqlite.dfy`) are step machines. A state holds the object's fields together
with the threads and where they are; one event is one stay inside the object's condition or
lock, and `Condition.wait` ends a stay. A run is any sequence of enabled events of any threads,
with any time-outs, interrupts, failing thread starts and driver answers, so a theorem over runs
is a theorem over every interleaving. Beside the step function stands a class with the source's
fields, whose methods are proved to do exactly the step, in the order the source does it.

Parsers and transformations (`Uri.dfy`, `Network.dfy`, `XBStream.dfy`, `Base64.dfy`,
`LineSubst.dfy`, `ArgPolicy.dfy`, `Xys.dfy`, `XysCompile.dfy`) are proved against an independent
form: a grammar, a reference parser, an inverse, or a declarative reading of what is accepted.
Loops of the source are loops here, proved against those forms.

Beside these run theorems, refinements and round trips stand laws that tell what each operation
does in the caller's terms, without the functions the steps are made of: who is granted a lock,
what a data operation makes of the data, when the pool grows, how text is taken apart, which
values a schema accepts (`KeystoreLaws.dfy`, `PoolLaws.dfy`, `UriLaws.dfy`, `NetworkLaws.dfy`,
`XysLaws.dfy`, and a section of the other files).

Deviations found while modelling. For each, one lemma gives a concrete input or run where the
promise fails, and another says exactly when it holds:

- A thread parked in `acquire(name, exists=True)` rechecks the section before the entry gate, so
  it can learn that the section is gone while another thread has the global lock: the run of
  `Keystores.EarlyAnswer`. It is the only such read (`Keystores.ForeignStep`).
- Threads that hold one another's sections are deadlocked for good (`Deadlocks.DeadForGood`),
  except that an existence check among them is answered when a stranger deletes its section: the
  run of `Deadlocks.CheckGetsAway`. Threads that wait for one another lose a member, without a
  time-out or interrupt of theirs, exactly when one is a parked existence check and some thread
  can still come in to delete: no member waits for the global lock, or a stranger owns a section
  (`Deadlocks.GetsAwayIff`).
- A worker that fails between `count_lock` and the call, for instance with a BaseException while
  the pool grows, acknowledges its task without calling it: `WorkerPools.LostTask`. Every accepted
  task is queued, held, called or cancelled exactly in the runs without such an error
  (`WorkerPools.FourPlacesIff`, `WorkerPools.NothingLostIff`), and each error loses the one task
  its worker was about to call (`WorkerPools.DroppedIsAborted`).
- A worker that has passed the exit check may still call its task after `exit` is set and the
  queue drained: `WorkerPools.LateCall`. A task can be called after the stop exactly when its
  worker is at that point (`WorkerPools.LateCallIff`), and nothing is called exactly when no
  worker is (`WorkerPools.NoLateCallIff`).
- A queued task waits without a worker, in a pool not stopped, exactly when the last worker
  could not be replaced and none has been started since (`WorkerPools.StrandedIff`; a run in
  `WorkerPools.StrandedTask`).
- An error while `kill()` closes a request breaks it off, and what it has not closed stays open:
  `FixedServers.LeftInQueue` and `DynServers.LeftOpen`. With a fixed pool every request is closed
  or handed over in the end exactly when `kill()` has left nothing queued, if it is not repeated
  (`FixedServers.SettledIff`). With a dynamic pool it is exactly when no such error occurs
  (`DynServers.SettledIff`), and repeating it does not help (`DynServers.AbandonedForGood`).
- Worker ids are unique when no caller passes `xid` (`WorkerPools.IdsPartition`). Two callers may
  pass the same one: `WorkerPools.SharedId`. A chosen id keeps them distinct exactly when it is
  neither live nor returned (`WorkerPools.ChosenIdIff`), and they stay distinct exactly when the
  counter is past all ids in use, since it gives out again any id it reaches
  (`WorkerPools.DistinctForEverIff`); next to counted ids, 0 alone is safe
  (`WorkerPools.OnlyZeroIsSafe`).
- The URI round trip gives a tree back exactly when the tree is canonical, and an empty part, a
  pair without a key or an all-empty pair otherwise comes back in canonical form
  (`Uris.RoundTripExactlyOnCanonical`; a pair without a key in `Uris.KeylessPair`). An IP literal
  of the future kind with a final newline passes the check before writing and is refused when read
  (`Uris.FutureHostRefused`), and no other accepted tree is (`Uris.RoundTripAs`).
- The documentation of `host_type` has dotted addresses take decimal bytes with zeros in front;
  they are refused (`NetworkLaws.LeadingZeroRefused`, `NetworkLaws.DocumentedAddress`). What is
  taken is told by `NetworkLaws.DotDecIff`.
- `linesubst` keeps a final `{` in its early return and drops it in its state machine
  (`LineSubst.PendingBrace`, `LineSubst.EarlyReturnIff`).
- `base64_encode_file` encodes read by read, so two short reads give other text than one read of
  both (`Base64.TwoShortReads`). The text is the encoding of the whole exactly when every read but
  the last is a multiple of three bytes (`Base64.EncodeEachIff`).
- A required literal key that an earlier mandatory key group also matches makes an XYS schema
  reject every document (`Xys.ShadowedLiteral`; a schema in `Xys.NoDocument`). Such a key is met
  exactly when it is there and no earlier entry matches it (`Xys.LiteralMetIff`).
- A BaseException that is no Exception, raised by ROLLBACK itself, leaves `_failed` unset, and the
  next block sends a BEGIN (`Sqlite.InterruptedRollback`). The domain is closed exactly by a
  ROLLBACK that ends with an Exception (`Sqlite.SilentIff`).

## Model

| member | source | states |
|---|---|---|
| RWLocks.Reachable | sonicprobe/libs/moresynchro.py:50-171 | in every reachable state a writer excludes readers, counts are positive exactly while held, the pending writers are the distinct parked writers, a parked thread holds nothing, and a parked thread not notified since it looked would still wait |
| RWLocks.SomeoneCanRun | sonicprobe/libs/moresynchro.py:92-171 | whenever somebody waits, a holder is free to run or a notified waiter is granted at its next turn |
| RWLocks.BoundedOvertaking | sonicprobe/libs/moresynchro.py:120-145 | over any run, a waiting writer sees at most as many write grants as there were writers ahead of it, and each moves it a place forward |
| RWLocks.ReadersOnlyShrink | sonicprobe/libs/moresynchro.py:77-98 | while a writer waits the set of reader threads only shrinks |
| RWLocks.WritersInOrder | sonicprobe/libs/moresynchro.py:127-145 | a queued writer is not granted before one ahead of it has been granted or has given up |
| RWLocks.DepthIsBalance | sonicprobe/libs/moresynchro.py:74-171 | over any run a thread's depth is its grants less its releases |
| RWLocks.ReadGrantedIff | sonicprobe/libs/moresynchro.py:71-98 | a read is granted iff no other thread writes and the thread holds the lock already or no other waits to write, however many others read; otherwise it times out or waits |
| RWLocks.WokenReadIff | sonicprobe/libs/moresynchro.py:77-98 | a parked reader that runs again is granted iff nobody writes or waits to write |
| RWLocks.WriteGrantedIff | sonicprobe/libs/moresynchro.py:116-140 | a write is granted iff the thread writes already, or nobody holds the lock and nobody else waits to write; a reader is refused |
| RWLocks.WokenWriteIff | sonicprobe/libs/moresynchro.py:127-140 | a parked writer that runs again is granted iff nobody else holds the lock and it is first in the queue |
| RWLocks.ReleaseIff | sonicprobe/libs/moresynchro.py:154-171 | a release succeeds iff the thread holds the lock |
| RWLocks.ReadersShare | sonicprobe/libs/moresynchro.py:77-91 | any number of threads that ask for a read, with nobody writing or waiting, all hold the lock together |
| RWLocks.TwoReaders | sonicprobe/libs/moresynchro.py:77-91 | a run after which two threads read |
| RWLocks.RWLock.ReadTurn | sonicprobe/libs/moresynchro.py:77-98 | one turn of the read loop does the step: grant, time-out or wait |
| RWLocks.RWLock.WriteTurn | sonicprobe/libs/moresynchro.py:128-145 | one turn of the write loop does the step, with its place in the queue given up on a time-out |
| RWLocks.RWLock.AcquireRead | sonicprobe/libs/moresynchro.py:57-100 | a read request of any thread does the step |
| RWLocks.RWLock.AcquireWrite | sonicprobe/libs/moresynchro.py:102-145 | a write request does the step, refuses a reader's promotion and keeps the invariant |
| RWLocks.RWLock.WakeUp | sonicprobe/libs/moresynchro.py:92-140 | a thread coming out of its wait goes round its own loop |
| RWLocks.RWLock.Interrupted | sonicprobe/libs/moresynchro.py:141-145 | an exception in a wait gives up the place in the queue and notifies |
| RWLocks.RWLock.ReleaseLock | sonicprobe/libs/moresynchro.py:147-171 | a release takes one level back, notifies at the last one, and refuses a thread that holds nothing |
| Keystores.Reachable | sonicprobe/libs/keystore.py:17-333 | every state reachable by any run of acquire, release, data, delete, lock, unlock, time-out and interrupt steps satisfies the invariant: owner records agree with the RLocks, the registry is exact, counters count the parked threads, the global owner is the only section owner and never parked, only threads waiting for a section own one, and no wake-up is lost |
| Keystores.RegistryIsExact | sonicprobe/libs/keystore.py:87-121 | the lock table's names are exactly those with data, an owner or a thread waiting for them |
| Keystores.LockIdentity | sonicprobe/libs/keystore.py:97-132 | while a name stays registered it keeps the same lock, through any delete and recreation |
| Keystores.CyclesAreSectionCycles | sonicprobe/libs/keystore.py:44-121 | in every waits-for cycle each thread owns a section and waits for a section the next one owns: none passes through the entry gate or the global lock |
| Keystores.BlockedBySomeone | sonicprobe/libs/keystore.py:44-121 | the waits-for relation is complete: a parked thread that would wait again waits for some other thread |
| Keystores.OrderedMeansProgress | sonicprobe/libs/keystore.py:104-121 | if sections are taken in a fixed order, any state with a waiting thread has a running holder or a notified waiter that will not wait again |
| Deadlocks.OrderedNeverStuck | sonicprobe/libs/keystore.py:104-121 | if sections are taken in a fixed order, no set of parked threads waits for one another |
| Deadlocks.DeadForGood | sonicprobe/libs/keystore.py:104-121 | over any run of any other threads, threads each waiting for a section another of them owns, none of them an existence check, stay so as long as they are not interrupted or timed out |
| Deadlocks.StuckForGood | sonicprobe/libs/keystore.py:44-121 | the same for threads that wait for one another through sections, the entry gate and the global lock |
| Deadlocks.GetsAwayIff | sonicprobe/libs/keystore.py:49-121 | of threads that wait for one another one leaves its wait, in some run without their time-outs and interrupts, iff one is a parked existence check and no member waits for the global lock or a thread outside owns a section |
| Deadlocks.CheckGetsAway | sonicprobe/libs/keystore.py:109-121 | a run in which two threads wait for each other, a third deletes a section, and the one that checks for it goes on |
| Keystores.OwnContent | sonicprobe/libs/keystore.py:134-233 | a request of the global owner is never held up and has exactly its effect on the content, whichever locking path it takes |
| Keystores.ForeignStep | sonicprobe/libs/keystore.py:49-68 | while one thread has the global lock, a step of any other changes neither content nor ownership and completes nothing; it learns about the content exactly when it resumes an existence-checking wait whose section is gone |
| Keystores.EarlyAnswer | sonicprobe/libs/keystore.py:104-121 | a run in which a parked existence check answers that the section is gone while another thread has the global lock |
| Keystores.GlobalIsolation | sonicprobe/libs/keystore.py:288-333 | between lock() and the last unlock() the content is what the owner's own operations make of it, over every run |
| Keystores.SectionIsolation | sonicprobe/libs/keystore.py:104-151 | while a thread owns a section and the others use its lock, the section and its timestamp are what the owner's operations make of them |
| Keystores.DepthIsBalance | sonicprobe/libs/keystore.py:104-132 | over any run a thread's depth on a section and on the global lock is its acquisitions less its releases, across delete and recreation |
| KeystoreLaws.DataLaw | sonicprobe/libs/keystore.py:153-233 | a completed call or resumed wait sets, removes, empties, deletes or adds what its operation says, with the timestamp it says, and changes no other key or section; one that is not completed changes nothing; the key error comes iff a key is to be removed from a section that is not there |
| KeystoreLaws.AcquireLaw | sonicprobe/libs/keystore.py:235-263 | no other event changes the data, but a completed acquire creates an absent section unless it checks for it |
| KeystoreLaws.CallAnswered | sonicprobe/libs/keystore.py:44-151 | every call is answered by what the data, the owners and the waiting threads are: missing, key error, completed, refused, timed out or waiting; sections owned by others do not matter to a section nobody else owns |
| KeystoreLaws.WokenAnswered | sonicprobe/libs/keystore.py:49-121 | a waiting thread that runs again is answered the same way according to where it waits |
| KeystoreLaws.WakesIff | sonicprobe/libs/keystore.py:34-39 | it runs again iff notified, or its wait has a deadline |
| KeystoreLaws.InterruptLeaves | sonicprobe/libs/keystore.py:104-121 | a thread interrupted in its wait leaves data and ownership alone |
| KeystoreLaws.ReleaseAnswered | sonicprobe/libs/keystore.py:265-275 | a section is released by its owner only; a name without a lock is ignored |
| KeystoreLaws.UnlockAnswered | sonicprobe/libs/keystore.py:320-333 | the global lock is released by its owner only |
| Keystores.Keystore.EnsureSectionLock | sonicprobe/libs/keystore.py:87-90 | a name without a lock gets a new one, a name with one keeps it |
| Keystores.Keystore.CleanupSection | sonicprobe/libs/keystore.py:97-102 | the lock goes exactly when there is no data, owner or waiter |
| Keystores.Keystore.ReleaseOwned | sonicprobe/libs/keystore.py:123-132 | one level of the RLock and of the owner record goes, then cleanup and notification |
| Keystores.Keystore.AcquireTurn | sonicprobe/libs/keystore.py:109-121 | one turn of the acquisition loop: missing, taken, timed out or waiting, with the waiter uncounted when it ends |
| Keystores.Keystore.Perform | sonicprobe/libs/keystore.py:153-233 | the body of a data operation changes data and timestamps together |
| Keystores.Keystore.SectionRequest | sonicprobe/libs/keystore.py:134-151 | a request that takes the section lock runs, releases and keeps the invariant, or waits |
| Keystores.Keystore.GlobalRequest | sonicprobe/libs/keystore.py:292-308 | one turn of the global loop: granted, promotion refused, timed out or waiting |
| Keystores.Keystore.Submit | sonicprobe/libs/keystore.py:49-68 | any call does the step and keeps the invariant |
| Keystores.Keystore.WakeUp | sonicprobe/libs/keystore.py:34-39 | a thread coming out of its wait goes round the loop it waits in and keeps the invariant |
| Keystores.Keystore.InterruptWait | sonicprobe/libs/keystore.py:119-121 | an exception in a wait takes back what the thread was counted for |
| Keystores.Keystore.ReleaseName | sonicprobe/libs/keystore.py:270-275 | a release of an unregistered name is ignored, of a section owned by another refused |
| Keystores.Keystore.UnlockStore | sonicprobe/libs/keystore.py:325-333 | the last unlock frees the store and notifies; a thread that does not own it is refused |
| WorkerPools.Reachable | sonicprobe/libs/workerpool.py:62-281 | every reachable state satisfies the invariant: workers, working and unfinished count what they name, the kill event is set iff there is no worker, tasks and ids are accounted for |
| WorkerPools.TaskConservation | sonicprobe/libs/workerpool.py:62-123 | each accepted task is in exactly one of queued, held, called, cancelled, dropped, is called at most once and cancelled only after exit; a queued one implies a live worker unless the pool is stopped or a replacement could not start |
| WorkerPools.StrandedIff | sonicprobe/libs/workerpool.py:113-123 | over every run from the start, a task is queued without a worker in a pool not stopped iff the last worker could not be replaced and none has been started since |
| WorkerPools.StrandedTask | sonicprobe/libs/workerpool.py:113-123 | a run after which a task is queued, the pool is not stopped and there is no worker |
| WorkerPools.DroppedIsAborted | sonicprobe/libs/workerpool.py:85-112 | over any run the tasks lost are those of the workers that fail before the call, one each |
| WorkerPools.NothingLostIff | sonicprobe/libs/workerpool.py:85-112 | over any run no task is lost iff no worker fails before its call |
| WorkerPools.FourPlacesIff | sonicprobe/libs/workerpool.py:62-123 | in every run from the start, each accepted task is queued, held, called or cancelled iff no worker fails before its call |
| WorkerPools.LostTask | sonicprobe/libs/workerpool.py:85-112 | a run that loses a task |
| WorkerPools.HistoryGrows | sonicprobe/libs/workerpool.py:62-112 | calls, cancellations and losses are never undone |
| WorkerPools.Shutdown | sonicprobe/libs/workerpool.py:77-81 | once stopped, the pool accepts no task and adds no worker, no further worker passes the exit check, and after the drain the queue stays empty |
| WorkerPools.LateCall | sonicprobe/libs/workerpool.py:77-96 | a run that calls a task after exit is set and the queue drained |
| WorkerPools.LateCallIff | sonicprobe/libs/workerpool.py:77-96 | once stopped, a task not yet called can still be called iff its worker is past the exit check and before the call |
| WorkerPools.NoLateCallIff | sonicprobe/libs/workerpool.py:77-96 | once stopped, no run calls anything iff no worker is past the exit check and before its call |
| WorkerPools.QueuedIsCancelled | sonicprobe/libs/workerpool.py:77-81 | a task queued, or taken and not past the check, when the pool is stopped is never called and never lost: it waits or is cancelled |
| WorkerPools.KillallIsFinal | sonicprobe/libs/workerpool.py:263-281 | when killall(None) returns, workers, working and unfinished are zero, for ever, and nothing more is called |
| WorkerPools.Killable | sonicprobe/libs/workerpool.py:156-159 | unfinished is zero iff nothing is queued and no worker has an unacknowledged item |
| WorkerPools.IdsPartition | sonicprobe/libs/workerpool.py:194-219 | without explicit ids, live ids and returned ids partition 1 .. k, k the peak worker count |
| WorkerPools.SharedId | sonicprobe/libs/workerpool.py:194-219 | a run after which two live workers have the id two callers passed |
| WorkerPools.ChosenIdIff | sonicprobe/libs/workerpool.py:204-219 | an explicit id keeps live and returned ids distinct iff it is neither, whether or not the worker starts |
| WorkerPools.DistinctForEverIff | sonicprobe/libs/workerpool.py:194-219 | with no further explicit id, the ids of a running pool stay distinct over every run iff the counter is past all ids in use |
| WorkerPools.OnlyZeroIsSafe | sonicprobe/libs/workerpool.py:204-219 | next to counted ids, an explicit id keeps that condition iff it is 0 |
| WorkerPools.Bounded | sonicprobe/libs/workerpool.py:194-204 | the pool never grows beyond the largest maximum it has been given |
| PoolLaws.BeginDecides | sonicprobe/libs/workerpool.py:78-88 | a worker that begins a task must add a worker before the call iff there is room for one and an item is queued or every worker is busy; otherwise it can make the call at once |
| PoolLaws.BeginGivesUp | sonicprobe/libs/workerpool.py:79-80 | a worker that takes an exit request, or finds the pool stopped, calls nothing and leaves |
| PoolLaws.GrowAdds | sonicprobe/libs/workerpool.py:86-90 | growing adds exactly one worker if there still is room and it starts, and then the call can be made |
| PoolLaws.AddStarts | sonicprobe/libs/workerpool.py:194-219 | add(nb) starts max(1, nb) workers or as many as there is room for, less the ones after a failed start, none once stopped |
| PoolLaws.SubmitAccepts | sonicprobe/libs/workerpool.py:221-238 | a task goes to the end of the queue iff the pool is not stopped, the queue has room, and there is a worker or one starts |
| PoolLaws.PutExitAccepts | sonicprobe/libs/workerpool.py:221-238 | an exit request goes to the end of the queue iff the pool is not stopped and the queue has room |
| PoolLaws.IdleWorkerCalls | sonicprobe/libs/workerpool.py:65-101 | whatever the other workers do, an idle worker can take any queued task and call it |
| PoolLaws.WorkerSteps | sonicprobe/libs/workerpool.py:65-112 | only a drain holds a worker up; where a worker goes after a failure before the call, after the call, or when it expires |
| PoolLaws.AcknowledgeReturns | sonicprobe/libs/workerpool.py:106-112 | after the acknowledgement a worker goes on or leaves |
| PoolLaws.RetireReplaces | sonicprobe/libs/workerpool.py:113-123 | a worker that leaves is replaced iff the pool is not stopped, has items queued and room, and the start succeeds |
| PoolLaws.KillSteps | sonicprobe/libs/workerpool.py:263-281 | killall stops the pool, takes and cancels the queued items in any order and ends when there are none |
| PoolLaws.MaximumSet | sonicprobe/libs/workerpool.py:172-180 | the maximum can be set to any positive number |
| WorkerPools.WorkerPool.StartWorker | sonicprobe/libs/workerpool.py:203-219 | a started worker is counted, a failed start is rolled back and its id returned |
| WorkerPools.WorkerPool.Add | sonicprobe/libs/workerpool.py:194-219 | add starts workers one by one up to the maximum and raises at the first failure or when stopped |
| WorkerPools.WorkerPool.PutTask | sonicprobe/libs/workerpool.py:221-238 | one turn of _put: a task is accepted iff it gets a number, with a worker started first if there is none |
| WorkerPools.WorkerPool.PutExitToken | sonicprobe/libs/workerpool.py:221-238 | one turn of _put for an exit request: queued unless stopped or full |
| WorkerPools.WorkerPool.Kill | sonicprobe/libs/workerpool.py:161-170 | kill(nb) queues one exit request for each of min(nb, workers) workers, none once stopped |
| WorkerPools.WorkerPool.SetMaxWorkers | sonicprobe/libs/workerpool.py:172-180 | a maximum below one is refused; otherwise the excess is what remains above it |
| WorkerPools.WorkerPool.BeginItem | sonicprobe/libs/workerpool.py:74-84 | an item taken is begun or given up under count_lock, and whether to grow is decided there |
| WorkerPools.WorkerPool.AcknowledgeItem | sonicprobe/libs/workerpool.py:106-112 | every taken item is acknowledged once, whatever happened |
| WorkerPools.WorkerPool.RetireWorker | sonicprobe/libs/workerpool.py:113-123 | a retiring worker returns its id, is replaced if work is queued, and sets the kill event if it was the last |
| WorkerPools.WorkerPool.Killall | sonicprobe/libs/workerpool.py:272-280 | the drain empties the queue, acknowledges each item and cancels exactly the queued tasks |
| WorkerPools.WorkerPool.IsKillable | sonicprobe/libs/workerpool.py:156-159 | killable is true iff nothing is queued or unacknowledged |
| FixedServers.Reachable | sonicprobe/libs/threading_tcp_server.py:121-225 | every reachable state satisfies the invariant |
| FixedServers.RequestConservation | sonicprobe/libs/threading_tcp_server.py:145-225 | each arrived request is in exactly one of waiting for room, queued, taken, closed, handed over, and closed or handed over once |
| FixedServers.Acknowledged | sonicprobe/libs/threading_tcp_server.py:181-193 | over any run unfinished plus acknowledged grows by exactly the enqueued items |
| FixedServers.ArriveIs | sonicprobe/libs/threading_tcp_server.py:196-225 | a request that is not verified is closed, another waits for room |
| FixedServers.OfferIs | sonicprobe/libs/threading_tcp_server.py:207-222 | it is queued iff the queue is not full, or closed if the server was killed |
| FixedServers.CheckIs | sonicprobe/libs/threading_tcp_server.py:181-193 | a worker hands over the request it has taken, or closes it if the server was killed |
| FixedServers.IdleWorkerServes | sonicprobe/libs/threading_tcp_server.py:177-193 | whatever the others do, an idle worker can take the first request and serve it |
| FixedServers.AcknowledgeIs | sonicprobe/libs/threading_tcp_server.py:190-200 | after a request a worker goes on or stops |
| FixedServers.RecycleIs | sonicprobe/libs/threading_tcp_server.py:170-176 | a worker that retires leaves one in its place |
| FixedServers.KillIs | sonicprobe/libs/threading_tcp_server.py:145-158 | kill closes the first of the queue as long as there is one, and can be repeated |
| FixedServers.AfterKill | sonicprobe/libs/threading_tcp_server.py:145-158 | once the server is killed no request is handed over any more, and an empty queue stays empty, over every run |
| FixedServers.SettledAfterKill | sonicprobe/libs/threading_tcp_server.py:185-193 | when nothing is queued and workers and the accept loop hold nothing, every request was closed or handed over, once |
| FixedServers.SettledIff | sonicprobe/libs/threading_tcp_server.py:145-158 | after a kill that has returned or raised, every run without a further kill that ends with no worker and nothing offered has closed or handed over every request iff the kill left the queue empty |
| FixedServers.LeftInQueue | sonicprobe/libs/threading_tcp_server.py:154-157 | a run in which an error breaks kill off and a request is neither closed nor handed over |
| FixedServers.KillableThreadingTCPServer.OfferTurn | sonicprobe/libs/threading_tcp_server.py:213-223 | one turn of the accept loop closes, queues or keeps waiting |
| FixedServers.KillableThreadingTCPServer.Kill | sonicprobe/libs/threading_tcp_server.py:145-158 | kill closes what is queued, in order, and acknowledges it, up to the first request whose closing raises |
| FixedServers.KillableThreadingTCPServer.CheckTaken | sonicprobe/libs/threading_tcp_server.py:185-191 | a taken request is closed if the server was killed and handed over otherwise |
| DynServers.Reachable | sonicprobe/libs/threading_tcp_server.py:32-104 | every reachable state of the server together with its pool satisfies the invariant |
| DynServers.ArriveIs | sonicprobe/libs/threading_tcp_server.py:78-104 | a verified request becomes pending with its task queued iff the server is not killed, the pool not stopped and there is a worker or one starts; any other is closed |
| DynServers.ProcessIs | sonicprobe/libs/threading_tcp_server.py:68-73 | a running task hands its request over iff it is still pending |
| DynServers.KillIs | sonicprobe/libs/threading_tcp_server.py:57-66 | kill takes all pending requests to close them |
| DynServers.PoolIs | sonicprobe/libs/threading_tcp_server.py:52-55 | the pool goes on as pools do; only requests are submitted to it |
| DynServers.IdleWorkerHands | sonicprobe/libs/threading_tcp_server.py:68-104 | whatever the others do, an idle worker can take the task of a pending request and hand it over |
| DynServers.RequestConservation | sonicprobe/libs/threading_tcp_server.py:57-104 | each arrived request is exactly one of pending, about to be closed by kill, abandoned by it, closed, handed over, and the last two once |
| DynServers.AfterKill | sonicprobe/libs/threading_tcp_server.py:57-73 | after kill nothing becomes pending or is handed over, and when kill has nothing left to close every request is settled once, except those abandoned |
| DynServers.SettledIff | sonicprobe/libs/threading_tcp_server.py:57-66 | over every run from the start, once kill has nothing left to close, every request was closed or handed over iff no error ended a kill early |
| DynServers.AbandonedForGood | sonicprobe/libs/threading_tcp_server.py:57-66 | a request abandoned by kill is never closed or handed over, by a further kill either |
| DynServers.LeftOpen | sonicprobe/libs/threading_tcp_server.py:57-66 | a run in which an error ends kill and a request is left open |
| DynServers.PendingIsServed | sonicprobe/libs/threading_tcp_server.py:68-104 | a pending request has its task queued with a live worker, taken, or running up to the table, iff the task was not lost to an error of the pool before the call |
| DynServers.PendingIsServedIff | sonicprobe/libs/threading_tcp_server.py:68-104 | over every run from the start, that is iff the worker that took the task has not failed before the call |
| DynServers.KillableDynThreadingTCPServer.HandleRequest | sonicprobe/libs/threading_tcp_server.py:78-104 | an accepted request becomes pending with its task, or is closed |
| DynServers.KillableDynThreadingTCPServer.CloseAll | sonicprobe/libs/threading_tcp_server.py:57-66 | everything kill removed from the table is closed, once, or abandoned after the first closing that raises |
| DynServers.KillableDynThreadingTCPServer.ProcessQueued | sonicprobe/libs/threading_tcp_server.py:68-73 | a request is handled iff it is still in the table |
| Uris.DecodeAppend | sonicprobe/libs/urisup.py:140-173 | decoding what was percent-encoded with any safe set without '%' gives the bytes back, whatever follows |
| UriLaws.DecodeEscape | sonicprobe/libs/urisup.py:140-154 | an escape spelled in upper, lower or mixed case stands for its byte, before any text |
| UriLaws.DecodeOther | sonicprobe/libs/urisup.py:140-154 | any other character, and a percent sign without two hexadecimal digits after it, stands for itself |
| UriLaws.EncodingDecodes | sonicprobe/libs/urisup.py:140-154 | however much of a text is escaped, and in whichever case, decoding gives it back |
| UriLaws.EncodeFirst | sonicprobe/libs/urisup.py:156-173 | safe and unreserved characters are written as they are, others as an escape in upper case |
| UriLaws.EncodeEncodes | sonicprobe/libs/urisup.py:156-173 | what is written is such an encoding |
| UriLaws.QueryDecodeFirst | sonicprobe/libs/urisup.py:175-196 | in a query a plus sign is a space |
| UriLaws.CharactersParted | sonicprobe/libs/urisup.py:22-34 | every printable character is exactly one of unreserved, sub-delimiter, general delimiter and excluded (sections 2.2 and 2.3 of RFC 3986) |
| UriLaws.ComponentCharacters | sonicprobe/libs/urisup.py:30-34 | which printable characters a component may not have |
| UriLaws.SafeCharacters | sonicprobe/libs/urisup.py:42-51 | which characters are left alone when a component is written |
| Uris.SplitThenRecompose | sonicprobe/libs/urisup.py:321-329 | recomposing the components of any URI gives the URI |
| Uris.RecomposeThenSplit | sonicprobe/libs/urisup.py:19-20 | components that may stand next to one another are found again by the expression of RFC 3986, Appendix B |
| Uris.SplitWellFormed | sonicprobe/libs/urisup.py:19-20 | the components found in any string may stand next to one another, so that there is no other way to take it apart |
| UriLaws.UserCut | sonicprobe/libs/urisup.py:263-269 | user and password are cut at the first '@' and the first ':' before it |
| UriLaws.NoUser | sonicprobe/libs/urisup.py:270-271 | without an '@' there is neither |
| UriLaws.PortCut | sonicprobe/libs/urisup.py:281-284 | the port follows the first ':' of a host without brackets |
| UriLaws.BracketsCut | sonicprobe/libs/urisup.py:272-280 | in brackets stand hexadecimal digits, colons and dots or an IPvFuture, and then a port or nothing, for any text |
| UriLaws.FutureIs | sonicprobe/libs/urisup.py:36-38 | an IPvFuture is that of section 3.2.2 of RFC 3986 |
| UriLaws.QueryFirst | sonicprobe/libs/urisup.py:289-304 | the pairs of any query are its non-empty parts between '&', in order |
| UriLaws.AssignmentCut | sonicprobe/libs/urisup.py:299-302 | a pair is cut at its first '=' |
| UriLaws.PairsKept | sonicprobe/libs/urisup.py:393-414 | normalizing keeps exactly the pairs with a key or a value that is not empty |
| UriLaws.AuthorityKept | sonicprobe/libs/urisup.py:376-391 | normalizing keeps exactly the parts that are not empty, and the authority if it has one |
| UriLaws.ValidIff | sonicprobe/libs/urisup.py:423-483 | a tree is valid iff each part has allowed characters, the host is of its kind, the port decimal, and the path absolute next to an authority and without an early colon where there is no scheme |
| UriLaws.FaultNamed | sonicprobe/libs/urisup.py:423-483 | the error of an invalid tree names a part that is wrong |
| UriLaws.PrecodeFaultNamed | sonicprobe/libs/urisup.py:524-546 | and so does the one of a tree that cannot be written |
| Uris.AuthorityRound | sonicprobe/libs/urisup.py:232-287 | split_authority finds the parts that were written, bracketed hosts included, empty ones as None |
| Uris.QuerySplitRound | sonicprobe/libs/urisup.py:289-319 | split_query finds the pairs unsplit_query wrote |
| Uris.EscapeIsEncode | sonicprobe/libs/urisup.py:564-571 | escaping the colons of an encoded first segment is encoding it with colons unsafe |
| Uris.PathTrip | sonicprobe/libs/urisup.py:564-571 | the written path decodes to the path, has path characters only, keeps its leading slash, and cannot be taken for a scheme |
| Uris.AuthorityTrip | sonicprobe/libs/urisup.py:548-563 | an encoded authority is valid and decodes to the authority, for each kind of host |
| Uris.QueryTrip | sonicprobe/libs/urisup.py:572-575 | encoded pairs are split, kept by normalisation, valid and decoded to the pairs |
| Uris.RoundTripAs | sonicprobe/libs/urisup.py:512-638 | exactly the trees with a valid scheme, numeric port, absolute path next to an authority and a host of the announced kind are written; reading gives the tree without its empty parts, or refuses an IP literal with a newline |
| Uris.FutureHostRefused | sonicprobe/libs/urisup.py:524-546 | a host that is written and then refused |
| Uris.RoundTrip | sonicprobe/libs/urisup.py:512-638 | uri_help_split(uri_help_unsplit(t)) is the canonical form of every accepted tree t |
| Uris.RoundTripExactlyOnCanonical | sonicprobe/libs/urisup.py:353-421 | an accepted tree comes back as it is iff it has no empty part outside pairs and every pair has a key and something that is not empty |
| Uris.KeylessPair | sonicprobe/libs/urisup.py:353-421 | a pair without a key comes back with an empty one |
| Uris.NormalizeTree | sonicprobe/libs/urisup.py:353-421 | the loops that append fields and pairs compute the normal form |
| Uris.UnsplitTree | sonicprobe/libs/urisup.py:579-626 | the string grown by assignment is the recomposition of RFC 3986, section 5.3, an empty authority guarding a path with two slashes |
| Network.ValidIPv6IsRfc3986 | sonicprobe/libs/network.py:135-213 | a string is accepted iff the IPv6address rule of RFC 3986, section 3.2.2, generates it |
| Network.EmbeddedIsIPv4 | sonicprobe/libs/network.py:140-145 | the embedded IPv4 check accepts exactly IPv4address |
| Network.RightIs | sonicprobe/libs/network.py:147-172 | valid_ipv6_right counts the groups of exactly the well-formed right halves |
| Network.LeftIs | sonicprobe/libs/network.py:174-190 | valid_ipv6_left counts the groups of exactly the well-formed left halves |
| NetworkLaws.DotDecIff | sonicprobe/libs/network.py:113-131 | valid_ipv4_dotdec takes exactly four bytes in decimal, hexadecimal or binary notation |
| NetworkLaws.ByteLiteralIff | sonicprobe/libs/network.py:124-127 | int(s, 0) is a byte iff it is zeros, a decimal byte without a leading zero, or a prefix, zeros and at most two hexadecimal or eight binary digits |
| NetworkLaws.H16Iff | sonicprobe/libs/network.py:136-138 | h16 is one to four hexadecimal digits in either case |
| NetworkLaws.LeadingZeroRefused | sonicprobe/libs/network.py:113-131 | an address whose last byte has a zero in front of other digits is refused |
| NetworkLaws.DocumentedAddress | sonicprobe/libs/network.py:113-131 | such an address |
| XBStreams.ParseEncoded | sonicprobe/libs/xbstream.py:133-207 | a well-formed chunk is found at the front of whatever follows it |
| XBStreams.LittleEndian | sonicprobe/libs/xbstream.py:141-160 | numbers have their low byte first |
| XBStreams.ChunkBytes | sonicprobe/libs/xbstream.py:133-207 | the bytes of a chunk, before any others, are found to be it |
| XBStreams.EndBytes | sonicprobe/libs/xbstream.py:133-207 | and so are those of the end of a file |
| XBStreams.HeaderRefused | sonicprobe/libs/xbstream.py:136-146 | another magic or type is refused |
| XBStreams.DecodeSplits | sonicprobe/libs/xbstream.py:133-207 | any input is the encoding of its complete chunks and a rest that has none |
| XBStreams.CutStream | sonicprobe/libs/xbstream.py:74-93 | a stream cut inside a chunk gives exactly the chunks before it and a truncation, an uncut one all chunks |
| XBStreams.CleanIff | sonicprobe/libs/xbstream.py:82-90 | the end is clean iff the input is a concatenation of well-formed chunks |
| XBStreams.TruncatedIff | sonicprobe/libs/xbstream.py:82-90 | the rest counts as truncated iff it is not empty and shorter than a header or a proper beginning of a well-formed chunk |
| XBStreams.XBStreamRead.TxStart | sonicprobe/libs/xbstream.py:101-131 | under any short-write schedule the whole chunk goes out, or a proper beginning and an IOError; the payload is the chunk's; the loop for missing bytes never runs |
| XBStreams.XBStreamRead.ReadHeader | sonicprobe/libs/xbstream.py:136-156 | a complete header is refused for a wrong magic or type, or gives the first chunk size |
| XBStreams.XBStreamRead.ReadSizes | sonicprobe/libs/xbstream.py:157-187 | the payload size, name and chunk size are those the bytes tell |
| XBStreams.XBStreamRead.BufferUpdated | sonicprobe/libs/xbstream.py:133-207 | after each read the chunk is refused, still incomplete, or transmitted and counted under its name |
| XBStreams.XBStreamRead.Call | sonicprobe/libs/xbstream.py:74-93 | one call emits nothing or the first whole chunk of the rest, and raises exactly the fault the rest has |
| XBStreams.XBStreamRead.Run | sonicprobe/libs/xbstream.py:209-217 | whatever the read and write fragmentation, output, names, numbers, payloads and the way it ends are those of the input read as a whole |
| Base64.DecodeEncoded | sonicprobe/helpers.py:475-502 | decoding an encoding gives the bytes back (section 4 of RFC 4648) |
| Base64.AlphabetIs | sonicprobe/helpers.py:462 | the symbols are those of Table 1 of RFC 4648 |
| Base64.ShortVectors | sonicprobe/helpers.py:462 | test vectors of section 10 of RFC 4648 |
| Base64.LongVector | sonicprobe/helpers.py:462 | a test vector of two groups |
| Base64.SpaceIs | sonicprobe/helpers.py:488 | which bytes are white space |
| Base64.EncodeEachIff | sonicprobe/helpers.py:449-472 | encoding read by read is encoding the whole iff all reads but the last are multiples of three |
| Base64.TwoShortReads | sonicprobe/helpers.py:449-472 | two reads of a byte give other text than the encoding of both |
| Base64.EncodeFile | sonicprobe/helpers.py:449-472 | the result is the encodings of the reads in order, and of the whole input if the reads are whole groups, as those of a file are |
| Base64.DecodeFile | sonicprobe/helpers.py:475-502 | any encoding, spread with white space and read in any pieces, gives the bytes back |
| Base64.RoundTrip | sonicprobe/helpers.py:449-502 | a file encoded, wrapped in any way with white space and decoded is the file, for all accepted chunk sizes and any pieces of the text |
| LineSubst.ParsePrinted | sonicprobe/helpers.py:578-585 | every sequence of characters and references can be written with backslash escapes and is read back |
| LineSubst.PrintedSubst | sonicprobe/helpers.py:578-644 | a printed line gives the characters with the values in place of the references |
| LineSubst.SubstFirst | sonicprobe/helpers.py:619-631 | a reference gives its variable's value, or nothing if there is none |
| LineSubst.ReadFirst | sonicprobe/helpers.py:592-613 | a backslash keeps any character, a single brace stands for itself, an unfinished end is dropped |
| LineSubst.ReferenceRead | sonicprobe/helpers.py:609-631 | a name may have single closing braces in it |
| LineSubst.NameUnfinished | sonicprobe/helpers.py:641-644 | a name that is not ended loses the rest of the line |
| LineSubst.EarlyReturnIff | sonicprobe/helpers.py:585-587 | the early return agrees with the machine iff the returned line does not end in a brace |
| LineSubst.PendingBrace | sonicprobe/helpers.py:641-644 | concrete lines where a final brace is kept and dropped |
| LineSubst.TurnIs | sonicprobe/helpers.py:591-640 | each turn of the machine gives what the rest of the line says |
| LineSubst.Substitute | sonicprobe/helpers.py:578-644 | the machine computes, for every line, the substitution of the line's tokens |
| ArgPolicy.NormalIsOption | sonicprobe/libs/argpolicy.py:14-35 | a token with a normalized name is an option token, whatever value is attached |
| ArgPolicy.SplitReads | sonicprobe/libs/argpolicy.py:175-176 | the split at option tokens is a reading of the arguments |
| ArgPolicy.OnlyReading | sonicprobe/libs/argpolicy.py:216-231 | blocks that start with allowed names are the only reading: the split finds them |
| ArgPolicy.NamesAre | sonicprobe/libs/argpolicy.py:32-35 | which names there are, and what a bare one means |
| ArgPolicy.OptionIff | sonicprobe/libs/argpolicy.py:175-176 | an option token has a dash and something after it that is no number |
| ArgPolicy.PolicyMeans | sonicprobe/libs/argpolicy.py:195-236 | a policy lets a list through iff its text is bounded and, mode by mode, nothing forbidden or ambiguous stands in it, or each option of its split is known, has as many values as its rule asks for, each a choice and a match, and is repeated only if it may be |
| ArgPolicy.ListedIs | sonicprobe/libs/argpolicy.py:44-60 | which entries a specification has, at most 256, all valid and distinct |
| ArgPolicy.GrammaticalIff | sonicprobe/libs/argpolicy.py:215-235 | some reading obeys the rules iff the split does |
| ArgPolicy.Entries | sonicprobe/libs/argpolicy.py:44-68 | a specification compiles iff its entries are well-formed, at most 256, valid and distinct once normalized; then to exactly the normalized names, each with its rule |
| ArgPolicy.ArgsPolicy.Validate | sonicprobe/libs/argpolicy.py:195-236 | the arguments come back unchanged iff the policy accepts them, in all three modes |
| ArgPolicy.ArgsPolicy.ValidateAny | sonicprobe/libs/argpolicy.py:202-214 | with every option allowed: iff no denied or ambiguous option stands before the first "--" |
| ArgPolicy.ArgsPolicy.ValidateRules | sonicprobe/libs/argpolicy.py:215-236 | the greedy nested loops accept exactly the grammatical token lists |
| Xys.FirstIs | sonicprobe/libs/xys.py:655-670 | the entry a key falls to claims it and no earlier one does |
| Xys.ApplyModifiers | sonicprobe/libs/xys.py:590-598 | the modifiers are applied once each, in order, and the result stored |
| Xys.CheckField | sonicprobe/libs/xys.py:601-617 | a field passes early, fails its length, or is judged by its content, and only its own key changes |
| XysLaws.FieldDecided | sonicprobe/libs/xys.py:549-617 | a field lets null or empty text pass at once if it may; otherwise text, lists and dictionaries are accepted iff their size is within the bounds and their content validates, and values without a size only without a minimum |
| XysLaws.TooLong | sonicprobe/libs/xys.py:563-566 | text that is too long is refused |
| XysLaws.ModifiedLast | sonicprobe/libs/xys.py:590-598 | each modifier is applied to what the one before it gave |
| Xys.CheckKeyGroup | sonicprobe/libs/xys.py:620-638 | a group takes exactly the matching remaining keys, iff their values validate and their number is in bounds, in any order of iteration |
| Xys.CheckEntry | sonicprobe/libs/xys.py:656-670 | each entry's turn succeeds with its keys settled, or the document is not acceptable |
| Xys.CheckDict | sonicprobe/libs/xys.py:641-678 | the consuming loops accept exactly the declarative mappings, with the declared result and an unchanged key set |
| Xys.CheckItems | sonicprobe/libs/xys.py:681-698 | a list is accepted iff every item is |
| Xys.Check | sonicprobe/libs/xys.py:703-735 | validate decides the recursive meaning of a schema and keeps keys and item numbers |
| XysLaws.ScalarDecided | sonicprobe/libs/xys.py:720-721 | scalars are text, Booleans and numbers |
| XysLaws.ClassDecided | sonicprobe/libs/xys.py:723-735 | a plain schema value accepts the values of its class |
| XysLaws.NodeDecided | sonicprobe/libs/xys.py:580-588 | a validator is asked after its content, about the document the content left |
| XysLaws.SequenceDecided | sonicprobe/libs/xys.py:681-698 | an empty list schema accepts the empty list, one schema is for every item, and several mappings stand for the mapping with the last entry of each key |
| XysLaws.OrderLast | sonicprobe/libs/xys.py:645-654 | mandatory groups and required literals take their keys first, then the other groups, then optional literals |
| XysLaws.GroupMetIff | sonicprobe/libs/xys.py:627-635 | a group takes as many keys as its bounds allow, and at least one if mandatory |
| XysLaws.GroupClaims | sonicprobe/libs/xys.py:620-625 | a key is put to a group as the text or the number it is |
| Xys.ShadowedLiteral | sonicprobe/libs/xys.py:656-667 | a required literal matched by an earlier group makes the schema reject everything |
| Xys.LiteralMetIff | sonicprobe/libs/xys.py:656-667 | a required literal is met iff its key is there and no earlier entry matches it |
| Xys.NoDocument | sonicprobe/libs/xys.py:656-667 | a schema that accepts no document |
| Xys.LiteralMapping | sonicprobe/libs/xys.py:645-678 | without groups: accepted iff every required key is there, every key declared and every value valid |
| Xys.KeepsShape | sonicprobe/libs/xys.py:580-588 | an accepted document has the keys it had |
| XysCompile.CompilesToUnfolding | sonicprobe/libs/xys.py:523-546 | compilation gives t iff t is the tree unfolding, with no two keys colliding |
| XysCompile.CompilesIff | sonicprobe/libs/xys.py:523-546 | on every finite graph compilation ends, and succeeds iff no cycle and no dictionary with a bad or colliding key is reachable |
| XysCompile.UnfoldUnique | sonicprobe/libs/xys.py:534-544 | an object has at most one unfolding |
| XysCompile.NoCycle | sonicprobe/libs/xys.py:529-531 | an object from which a cycle can be reached has no unfolding |
| XysCompile.CompileFails | sonicprobe/libs/xys.py:523-546 | a failure comes with a path that goes round a cycle or leads to a bad dictionary |
| XysCompile.QualifyIs | sonicprobe/libs/xys.py:469-520 | a key that is no text is kept, one that is text is parsed |
| XysCompile.Compiler.Transschema | sonicprobe/libs/xys.py:523-546 | the active set is restored on every way out and the result is the compiled schema |
| Sqlite.Reachable | sonicprobe/libs/sqlite_transactions.py:44-82 | over every run the driver sees attempts at outermost blocks only: a BEGIN, then one successful COMMIT or one ROLLBACK; only the last may end in a failed rollback |
| Sqlite.FromTheStart | sonicprobe/libs/sqlite_transactions.py:19-34 | this holds from the fresh object on, with flags, lock and open blocks in agreement, and only read blocks in a snapshot |
| Sqlite.FailedForGood | sonicprobe/libs/sqlite_transactions.py:46-48 | after a failed rollback nothing is sent any more |
| Sqlite.SilentIff | sonicprobe/libs/sqlite_transactions.py:61-82 | after the outermost block nothing is ever sent again iff its ROLLBACK ended with an Exception |
| Sqlite.MayEnter | sonicprobe/libs/sqlite_transactions.py:44-45 | a thread enters iff the lock is free or its own |
| Sqlite.EnterIs | sonicprobe/libs/sqlite_transactions.py:46-60 | which blocks are refused, which send nothing, and which BEGIN the outermost one sends |
| Sqlite.LeaveIs | sonicprobe/libs/sqlite_transactions.py:61-82 | what the outermost block sends at its end, and the flags then |
| Sqlite.InterruptedRollback | sonicprobe/libs/sqlite_transactions.py:61-82 | a run in which a BEGIN follows a ROLLBACK broken off by a BaseException |
| Sqlite.SQLiteTransactions.EnterBlock | sonicprobe/libs/sqlite_transactions.py:44-60 | entering a block does the step; nested blocks send nothing, a failed BEGIN is left alone |
| Sqlite.SQLiteTransactions.LeaveBlock | sonicprobe/libs/sqlite_transactions.py:61-82 | leaving the outermost block commits, or rolls back and keeps the original error, unless ROLLBACK is itself broken off, which leaves the flags reset |

## Left out

- Sockets, file handles, serial ports, SMTP, curl and subprocesses: their reads, writes and closings are nondeterministic steps or parameters.
- Clocks: a deadline is a Boolean of an event, a wall-clock reading a parameter, and the expiry of keystore sections and workers by age may happen at any time.
- Liveness and fairness: only safety, bounded overtaking and enabledness are stated.
- Contention for the keystore's own mutex before its condition is held (`_enter`'s sleeping loop): a stay begins when the mutex is held.
- The check in `killall` that a worker does not wait for its own pool, thread names, callbacks and completion callbacks.
- The values that keystore getters return: reading is one operation that changes nothing.
- Worker ids are natural numbers: a caller's `xid` of another type, or a negative one, is not modelled.
- WorkerPools.WorkerPool.Killall: states the drain when no worker takes an item in between; the interleaved drain is covered by the step machine.
- WorkerPools.WorkerPool.Kill: states the requests on an unbounded queue when no worker takes one in between; single turns with a full queue are `PutExitToken`.
- FixedServers.KillableThreadingTCPServer.Kill: states the loop when no worker takes a request in between; the interleaved form is the step machine.
- `threading_udp_server.py` follows the protocol of the TCP file, and `ListLock` is a simpler lock.
- `daemonize.py`, `gencert*.py`, `BackSQL`, `anysql.py`, `country.py`, `date.py`, `xml2dict.py`, logging and the `openvpn` and `sp_serial` read loops.
- Regular expression engines, IDNA and YAML: verdicts and parsed keys are parameters (`full`, `parse`, `test`); the expressions of `urisup.py` and `network.py` are written out.
- Text encodings: URI text is the bytes of its UTF-8 form, letters and digits are ASCII, and numbers given as URI ports or template values are already text.
- XYS documents and schemas are trees when validated: the same list or dictionary object reached twice, and exceptions of validators and modifiers, are not modelled; the ValueError for a list schema that mixes mappings with other entries counts as not accepted.
- Xys.Check: how far a rejected document has been changed is left open, except for its keys.
- `_Rule.__init__`'s checks of a rule's fields and `EnvPolicy`: easy members.
- Base64.DecodeFile: nothing is claimed for text that is no encoding, which `b64decode` treats according to where the reads fall.
- XBStream chunks replaced from outside (`__call__` with an object, `reset_chunk_count`) and calls after an exception.
- SQLite blocks left in another order than they were entered, and statements sent to the driver by the body.
